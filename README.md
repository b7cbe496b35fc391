# SIM registration, SIM swap and identity verification — a Dafny model

The system is a small mobile-operator back office. It has two parts.

The Node.js part (`verification-app`) keeps a pool of SIM cards (`simNumbers`) and the HSS subscriber records (`hssSubscribers`) in MongoDB. Its handlers do four things:

- check whether a SIM is free;
- register a phone number on a free SIM for the logged-in subscriber;
- swap a number onto a new SIM;
- activate or deactivate a number.

The Flask part (`flask_servers/flask2.py`) has a `/verify` endpoint. It compares the identity details a user typed with a stored profile, after normalising both. It then reports a verdict together with the outcome of a face comparison.

The model has these parts:

- `Records` holds the documents and the few MongoDB operations the code uses, over sequences:
  - `findOne` returns the first match;
  - `updateOne` with `$set` writes the first match;
  - the positional `phoneNumbers.$` update writes the first matching array element;
  - `$push` appends.
- `Database` models `database.js`:
  - the read-only queries are functions;
  - the writes are methods of the class `Store`. Its fields `sims` and `subscribers` are the two collections. Each method is proved against the function that states its effect.
- `Workflows` holds each writing handler (register-phone, sim-swap, toggle-number) as a function from a database to the response and the new database. It also has the lemmas about the handlers: order of the rejections, what a success writes, and the registration race. Its helpers `RegisterPhoneGuard` (the checks of server.js:203-223) and `SwapWrites` (the writes of server.js:260-285) are internal to those functions: what they do is stated by the `Workflows.RegisterPhone…` and `Workflows.SimSwap…` rows.
- `Consistency` defines the invariant that keeps the SIM pool and the HSS in step. It proves that the invariant holds at start-up and that every writing handler keeps it.
- `Server` holds the handlers of `server.js` as imperative methods on a `Store`. They do the same reads and writes in the same order. Each writing handler is proved to answer and to leave the store exactly as its `Workflows` function states, and to keep `Consistent`. The read-only `/api/check-sim` has no `Workflows` function: `Server.ApiCheckSim` is specified directly by `CheckSimAvailability`.
- `Normalize` models `normalize_string`.
- `Verification` models `compare_faces`:
  - the required-field loop;
  - the flag-by-flag comparison of the details;
  - the choice of result and status.

  The image work is an input (`FaceOutcome`).

Modelling conventions:

- A request field that is absent is modelled as `""`, the falsy value the handlers test for.
- A JSON `null` or a missing document field is `None`.
- Phone validation follows the code's pattern `^\+2687[68]\d{6}$` plus the length test of 12. Numbers starting `+26768` are rejected by this pattern.

## Model

| member | source | states |
|---|---|---|
| Records.FirstSim | verification-app/database.js:44 | the position `findOne`/`updateOne` act on is the first document matching the filter; None exactly when none matches |
| Records.FindOneSim | verification-app/database.js:55 | `findOne` returns some document exactly when one matches, and what it returns is the first matching document of the collection |
| Records.UpdateOneSim | verification-app/database.js:62-65 | `updateOne` matches exactly when some document matches; on a match exactly the first matching SIM receives the `$set` fields and every other SIM stays as it was; without a match nothing changes; identifiers are kept |
| Records.FirstBinding | verification-app/database.js:82 | `findIndex` finds a binding exactly when one carries the number, and it is the first such binding |
| Records.FirstSubscriber | verification-app/database.js:79 | the first subscriber matching the filter; None when none matches |
| Records.FindOneSubscriber | verification-app/database.js:79 | `findOne` on subscribers returns a document exactly when one matches, and it is the first matching subscriber |
| Records.UpdateBindingWhere | verification-app/database.js:100-109 | the positional update matches exactly when some subscriber has that identity number and binds the number; then the first such subscriber has its first binding for the number updated with the named fields and nothing else changes; otherwise nothing changes |
| Records.PushBinding | verification-app/database.js:91-97 | `$push` matches exactly when a subscriber has the identity number; then the binding is appended to the first such subscriber, whose names and surname are set, and nothing else changes; otherwise nothing changes |
| Database.OrDefault | verification-app/database.js:86 | `paymentPlan \|\| 'Default'` is never empty, keeps a given plan and gives "Default" for an empty one |
| Database.Seeded | verification-app/database.js:16-24 | an empty pool receives the three sample SIMs, available, with no number and no plan, in order; a non-empty pool is left as it is |
| Database.SeedTwiceIsSeedOnce | verification-app/database.js:16-24 | seeding a second time changes nothing |
| Database.Store.Seed | verification-app/database.js:16-24 | the store's pool becomes `Seeded` of the old pool; subscribers are untouched |
| Database.CheckSimAvailability | verification-app/database.js:42-45 | returns an available SIM with that identifier from the pool; None exactly when no SIM with that identifier is available |
| Database.ValidatePhoneNumber | verification-app/database.js:47-50 | true exactly when the number has 12 characters, starts "+2687", then a 6 or an 8, then six digits |
| Database.CheckPhoneAvailability | verification-app/database.js:52-58 | free exactly when no SIM holds the number and no subscriber binds it |
| Database.GetSimIdForPhone | verification-app/database.js:129-133 | null exactly when no SIM holds the number; otherwise the identifier of the first SIM that holds it |
| Database.Reserve | verification-app/database.js:60-69 | succeeds exactly when the SIM is available; on success exactly the first available SIM with the identifier is bound to the number and plan and made unavailable; on failure the pool is unchanged |
| Database.SecondReservationFails | verification-app/database.js:60-69 | with distinct identifiers, reserving a SIM a second time fails and changes nothing |
| Database.Store.UpdateSim | verification-app/database.js:62-65 | the method leaves the pool and the matched flag exactly as `UpdateOneSim` states, and subscribers untouched |
| Database.Store.UpdateBinding | verification-app/database.js:100-109 | the method leaves subscribers and the matched flag exactly as `UpdateBindingWhere` states, and the pool untouched |
| Database.Store.RegisterPhoneNumber | verification-app/database.js:60-69 | the method's pool and success flag are those of `Reserve`; subscribers untouched |
| Database.BoundSimAvailable | verification-app/database.js:74-77 | true exactly when getSimIdForPhone names a SIM and the first SIM with that identifier is available; false when no SIM holds the number |
| Database.UpsertSubscriber | verification-app/database.js:71-127 | the collection grows by at most one subscriber; subscribers with another identity number stay as they were; afterwards some subscriber with the identity number binds the number |
| Database.UpsertCreatesSubscriber | verification-app/database.js:112-125 | an unknown identity number gets one new subscriber at the end with exactly one binding: the number, the plan or "Default", the SIM getSimIdForPhone names, and the activity flag |
| Database.UpsertAppendsBinding | verification-app/database.js:80-97 | a known identity without this number gets the binding appended and names and surname overwritten; nothing else changes |
| Database.UpsertSamePlanWritesNothing | verification-app/database.js:98-99 | a known identity that already holds the number with the same plan leaves the collection unchanged |
| Database.UpsertOtherPlanUpdatesBinding | verification-app/database.js:98-110 | with another plan only plan, isAvailable (of the SIM holding the number) and isActive of the first binding for the number change; names are not refreshed |
| Database.UpsertFreeNumberAppendsLast | verification-app/database.js:71-127 | for a number nobody binds, either branch leaves the subscriber with the new binding as its last and only binding for the number |
| Database.ReservedSimHoldsFreeNumber | verification-app/database.js:60-69 | after reserving a SIM for a number no SIM held, getSimIdForPhone answers that SIM |
| Database.Store.RegisterSubscriber | verification-app/database.js:71-127 | the method leaves the subscribers exactly as `UpsertSubscriber` states (insert, push or positional update) and the pool untouched |
| Workflows.RegisterPhone | verification-app/server.js:202-232 | session, SIM availability, phone format and phone availability are checked in that order, each failure answering 401/400 and writing nothing; success exactly when all pass |
| Workflows.RegisterPhoneCommit | verification-app/server.js:225-231 | the commit succeeds exactly when the SIM is still available; then the first available SIM with the identifier is bound to the number with `paymentPlan \|\| 'Default'` and made unavailable, and a subscriber with the session's identity number binds the number; otherwise it answers the 500 and writes nothing |
| Workflows.RegisterPhoneBindsSimAndSubscriber | verification-app/server.js:225-228 | a successful registration binds exactly the chosen SIM to the number with the plan, getSimIdForPhone then finds it, and the subscriber's new last binding names that SIM |
| Workflows.RacingRegistrationsForOneSim | verification-app/server.js:212-226 | two requests for one SIM that both passed their checks: the first commit wins, the second gets 500 and writes nothing |
| Workflows.SwapPostCheck | verification-app/server.js:288-294 | the re-read answers success exactly when the first subscriber with the identity number has a first binding for the number naming the new SIM with the plan; a missing subscriber or binding gives the TypeError's 500; nothing but success or 500 is answered |
| Workflows.ReleaseHolder | verification-app/server.js:260-267 | the pool keeps its length; each SIM is unchanged or freed (no number, available, no plan); when no SIM holds the number nothing changes |
| Workflows.ReleaseHolderFreesFirstHolder | verification-app/server.js:260-267 | the first SIM that held the number becomes available with no number and no plan; every other SIM is unchanged |
| Workflows.BindById | verification-app/server.js:270-273 | the pool keeps its length; each SIM is unchanged or is the SIM with the identifier bound to the number with the plan and unavailable; when no SIM has the identifier nothing changes |
| Workflows.BindByIdBindsThatSim | verification-app/server.js:270-273 | the SIM with the new identifier is bound to the number with the plan and made unavailable; every other SIM is unchanged |
| Workflows.SimSwap | verification-app/server.js:234-299 | every answer other than success and 500 leaves the database unchanged |
| Workflows.SimSwapRejections | verification-app/server.js:238-258 | missing fields (400), unknown user (404), a number the user does not own (403) and an unavailable new SIM (400) are answered in that order and write nothing |
| Workflows.SimSwapRepointsBinding | verification-app/server.js:269-294 | a swap that passes its checks answers success; the first binding for the number names the new SIM, is active and keeps its plan; no other binding changes |
| Workflows.SimSwapMovesNumber | verification-app/server.js:260-273 | each SIM afterwards is the new SIM bound to the number with the binding's plan, or the released old holder, or unchanged |
| Workflows.ToggleNumber | verification-app/server.js:301-329 | a missing number gives 400 and an unknown user 404, both without a write; any non-200 answer writes nothing; a 200 carries success and the activated/deactivated message |
| Workflows.ToggleSetsOnlyIsActive | verification-app/server.js:315-325 | for the session user's first record: a number it does not hold gives 404; otherwise exactly isActive of the first binding for the number is set |
| Workflows.ToggledMessageNamesState | verification-app/server.js:325 | the message says "activated" exactly when the requested flag is true |
| Consistency.BindingNamesHolder | verification-app/database.js:129-133 | in a consistent database getSimIdForPhone finds, for every binding, exactly the SIM it names, and that SIM is not available |
| Consistency.TakenIffRegistered | verification-app/database.js:52-58 | in a consistent database a number is taken exactly when some subscriber binds it |
| Consistency.SeedingKeepsConsistency | verification-app/database.js:16-24 | seeding keeps the database consistent |
| Consistency.AddingBindingKeepsConsistency | verification-app/database.js:60-127 | binding a free number to an available SIM plus one new binding naming it keeps the database consistent |
| Consistency.UpsertAddsOneBinding | verification-app/database.js:79-125 | for a number nobody binds, either branch of registerSubscriber adds exactly one binding, for the number and naming the SIM getSimIdForPhone found, leaves every other binding in place and keeps identity numbers distinct |
| Consistency.UpsertAfterReservationKeepsConsistency | verification-app/database.js:71-127 | registerSubscriber after a reservation of a free number adds exactly one binding, naming the reserved SIM with the plan, and keeps consistency |
| Consistency.RegisterPhoneKeepsConsistency | verification-app/server.js:202-232 | `/api/register-phone` keeps the database consistent for every request whose fields are strings |
| Consistency.ToggleNumberKeepsConsistency | verification-app/server.js:301-329 | `/api/toggle-number` keeps the database consistent for every request whose fields are strings |
| Consistency.MovingNumberKeepsPool | verification-app/server.js:260-273 | moving a number from its SIM to a free SIM keeps identifiers distinct, SIMs coherent and every number held once |
| Consistency.SwapKeepsConsistency | verification-app/server.js:260-285 | the three writes of a swap keep the database consistent |
| Consistency.SimSwapKeepsConsistency | verification-app/server.js:234-299 | `/api/sim-swap` keeps the database consistent for every request whose fields are strings |
| Server.ApiCheckSim | verification-app/server.js:185-200 | 400 without an identifier; otherwise 200 with `available` set exactly when a SIM with that identifier is free, and the matching message |
| Server.ApiRegisterPhone | verification-app/server.js:202-232 | the handler's response and new store are those of `RegisterPhone`, and it keeps `Consistent` |
| Server.ApiSimSwap | verification-app/server.js:234-299 | the handler's response and new store are those of `SimSwap`, and it keeps `Consistent` for string-valued request fields |
| Server.ApiToggleNumber | verification-app/server.js:301-329 | the handler's response and new store are those of `ToggleNumber`, and it keeps `Consistent` |
| Server.StartUp | verification-app/database.js:7-33 | start-up on an empty database yields a consistent store whose pool is exactly the three fresh sample SIMs and whose subscriber collection is empty |
| Normalize.StripLeading | flask_servers/flask2.py:32 | the result is no longer than the input, does not start with whitespace, and everything dropped was whitespace |
| Normalize.StripLeadingIsSuffix | flask_servers/flask2.py:32 | what the leading strip leaves is a suffix of its input |
| Normalize.StripTrailing | flask_servers/flask2.py:32 | the result is no longer than the input, does not end with whitespace, and everything dropped was whitespace |
| Normalize.StripTrailingIsPrefix | flask_servers/flask2.py:32 | what the trailing strip leaves is a prefix of its input |
| Normalize.StripLeadingKeepsVisible | flask_servers/flask2.py:32 | the leading strip keeps every visible character, in order |
| Normalize.StripTrailingKeepsVisible | flask_servers/flask2.py:32 | the trailing strip keeps every visible character, in order |
| Normalize.Strip | flask_servers/flask2.py:32 | `strip()` leaves no whitespace at either end and is no longer than its input |
| Normalize.StripIsTrimmedSlice | flask_servers/flask2.py:32 | `strip()` is a slice of its input, and all it drops at either end is whitespace |
| Normalize.StripKeepsVisible | flask_servers/flask2.py:32 | `strip()` keeps every visible character, in order |
| Normalize.Collapse | flask_servers/flask2.py:32 | the collapse is empty exactly when its input is, and starts or ends with a space exactly when the input starts or ends with whitespace |
| Normalize.CollapseIsSqueezedBlank | flask_servers/flask2.py:32 | the collapse equals an independent definition: turn every whitespace character into a space, then drop each space that follows a space |
| Normalize.CollapseWithoutSpace | flask_servers/flask2.py:32 | a string without whitespace is left as it is |
| Normalize.CollapseAcrossRun | flask_servers/flask2.py:32 | a whitespace run between a stretch that ends without whitespace and one that starts without it becomes exactly one space there, each stretch being collapsed on its own |
| Normalize.CollapseLeavesSingleSpaces | flask_servers/flask2.py:32 | after the collapse the only whitespace is the ordinary space, never followed by whitespace, and every other character comes from the input |
| Normalize.CollapseKeepsVisible | flask_servers/flask2.py:32 | the collapse keeps every visible character, in order |
| Normalize.DropControls | flask_servers/flask2.py:34 | the result is no longer than the input, and as long exactly when every character of the input is printable |
| Normalize.DropControlsOfConcat | flask_servers/flask2.py:34 | the comprehension distributes over concatenation |
| Normalize.DropControlsKeepsPrintable | flask_servers/flask2.py:34 | the comprehension keeps only characters of code 32 or more, tab, line feed and carriage return from the input |
| Normalize.DropControlsKeepsEveryPrintable | flask_servers/flask2.py:34 | every character of the input is kept in its place when printable and dropped otherwise: the result is what the part before it gives, then the character if printable, then what the part after it gives |
| Normalize.DropControlsKeepsVisible | flask_servers/flask2.py:34 | the comprehension keeps every visible character, in order |
| Normalize.NormalizeString | flask_servers/flask2.py:27-35 | None and "" give ""; the result is no longer than the input; every character has code 32 or more and is an ordinary space or not whitespace |
| Normalize.NormalizeKeepsVisible | flask_servers/flask2.py:27-35 | the result has exactly the input's characters that are neither whitespace nor control characters, in the same order |
| Normalize.NormalizeJoinsWords | flask_servers/flask2.py:27-35 | two words of visible characters separated by any whitespace run, with any whitespace around them, give the two words joined by one space |
| Normalize.CleanIsUnchanged | flask_servers/flask2.py:27-35 | a string without surrounding whitespace, with single ordinary spaces and no control characters, is returned unchanged |
| Normalize.NormalizeIsNotIdempotent | flask_servers/flask2.py:32-34 | a control character between two spaces survives the collapse and is then dropped, so "x \x01 y" gives "x  y", which a second pass turns into "x y" |
| Verification.FirstMissingField | flask_servers/flask2.py:45-48 | reports the first required field that is in neither the form nor the files; None exactly when all are present |
| Verification.Lower | flask_servers/flask2.py:93-98 | `lower()` keeps the length and lowers each ASCII letter |
| Verification.LowerIgnoresCase | flask_servers/flask2.py:93-98 | strings differing only in ASCII case compare equal after lowering |
| Verification.CompareDetails | flask_servers/flask2.py:85-104 | each flag is set exactly when its detail differs (surname and names ignoring case, date of birth and chief code exactly), so the flags are `Flags` of the details; detailsMatch is false exactly when some flag is set |
| Verification.SelectResult | flask_servers/flask2.py:144-152 | "Faces match" with 200 exactly when faces and details both match; otherwise 400, naming the image when the faces differ and the details otherwise |
| Verification.FindProfile | flask_servers/flask2.py:37-40 | `find_one` returns the first profile with the identity number; None exactly when no profile has it |
| Verification.CompareFaces | flask_servers/flask2.py:42-156 | the first missing field is answered 400 by name; a text field present only as a file, or a capture that is only a form field, gives the 500 of the except clause; an unknown profile or a missing photo gives 404; once the images are read, an undecodable capture gives 500, no captured face 400, an unreadable ID image 500 and no ID face 400, each carrying the comparison's detailsMatch and four flags; a comparison gives SelectResult's status and result with them; 200 "Faces match" exactly when every check passes and both faces and normalised details match |

## Left out

- Login, registration of web users, sessions and `isAuthenticated` (bcrypt, the static pages, `public/app.js`) are not modelled. The session is an input whose `idNumber` is `""` when nobody is logged in.
- `import_file.js` and `flask_servers/flask1.py` are not part of this model.
- The MongoDB connection, I/O failures and the 500 answers they cause are left out. The model keeps the other 500 answers: the register-phone reservation lost to a race, and the sim-swap post-check.
- Concurrency is modelled only as the register-phone race: two requests that passed their checks on the same snapshot, then commit one after the other. Other interleavings of the awaited calls are not modelled.
- Image decoding, face detection and `face_recognition.compare_faces` are an input (`FaceOutcome`). The floating-point `similarity_score` is not modelled. Neither is the text of the exception in the 500 answers `compare_faces` gives: an undecodable capture, or a text field that arrives only as a file.
- Verification.Lower: Python's `str.lower()` folds all of Unicode; the model lowers ASCII letters only.
- Profile values that are not strings are not modelled, neither among the details nor as `id_photo`. The model takes every stored value to be a string or absent.
- The toggle's `isActive` is modelled as a boolean. The handler stores whatever JSON value the request carries.
- When the subscriber write in `/api/register-phone` fails after the SIM was reserved, the code does not release the SIM. The model has no such failure, so that path is not shown.
- `/api/sim-swap` writes the new SIM by identifier alone, without re-checking availability. The model keeps this as written. With a string identifier it is harmless, because availability was checked just before in the same request.
- Consistency.SimSwapKeepsConsistency: request fields are modelled as strings. The body parsers (`express.json()` and `express.urlencoded({ extended: true })`, server.js:11-12) also accept objects, and MongoDB then reads an object such as `{"$ne": ""}` as a query operator. Such objects are not modelled. With that object as `newSimId`, `checkSimAvailability` finds some free SIM. The unconditional write at server.js:270-273 then puts the number on the first SIM of the pool, which may be another subscriber's. This leaves the database inconsistent, and the post-check's 500 comes only after the writes. The same restriction applies to `Consistency.RegisterPhoneKeepsConsistency`, `Consistency.ToggleNumberKeepsConsistency` and the `Server.Api…` handlers: each is proved for string-valued request fields only.
