/**
 * The `/verify` endpoint of flask_servers/flask2.py (compare_faces): the
 * required-field check, the profile lookup, the comparison of the entered
 * identity details with the stored ones, and the choice of result and
 * status. The image decoding and the face comparison are an input: the
 * outcome the face pipeline reached.
 */
module Verification {
  import opened Wrappers
  import opened Normalize

  /** The fields compare_faces requires, in the order it checks them. */
  const RequiredFields: seq<string> := ["captured_image", "id_number", "surname", "name", "date_of_birth", "chiefCode"]

  /** A multipart request: its text fields and the names of its uploaded files. */
  datatype Request = Request(form: map<string, string>, files: set<string>)

  /** `field in request.form or field in request.files`. */
  predicate Present(req: Request, field: string) {
    field in req.form || field in req.files
  }

  /**
   * The loop over `required_fields`: the first field the request lacks,
   * or None when it has them all.
   */
  method FirstMissingField(req: Request) returns (missing: Option<string>)
    ensures missing.None? <==> forall i :: 0 <= i < |RequiredFields| ==> Present(req, RequiredFields[i])
    ensures missing.Some? ==> exists i :: 0 <= i < |RequiredFields| && RequiredFields[i] == missing.value
                                          && !Present(req, missing.value)
                                          && forall j :: 0 <= j < i ==> Present(req, RequiredFields[j])
  {
    var i := 0;
    while i < |RequiredFields|
      invariant 0 <= i <= |RequiredFields|
      invariant forall j :: 0 <= j < i ==> Present(req, RequiredFields[j])
    {
      var field := RequiredFields[i];
      if field !in req.form && field !in req.files {
        return Some(field);
      }
      i := i + 1;
    }
    return None;
  }

  // ----- the identity details -----

  /** ASCII lower case of one character. */
  function LowerChar(c: char): char {
    if 'A' <= c <= 'Z' then (c as int + 32) as char else c
  }

  /** `s.lower()`, for ASCII letters. */
  function Lower(s: string): (r: string)
    ensures |r| == |s|
    ensures forall i :: 0 <= i < |s| ==> r[i] == LowerChar(s[i])
  {
    if s == [] then [] else [LowerChar(s[0])] + Lower(s[1..])
  }

  /** Strings that differ only in the case of ASCII letters compare equal once lowered. */
  lemma LowerIgnoresCase(s: string, t: string)
    requires |s| == |t|
    requires forall i :: 0 <= i < |s| ==> s[i] == t[i] || LowerChar(s[i]) == t[i] || s[i] == LowerChar(t[i])
    ensures Lower(s) == Lower(t)
  {
    forall i | 0 <= i < |s|
      ensures Lower(s)[i] == Lower(t)[i]
    {
      assert LowerChar(LowerChar(s[i])) == LowerChar(s[i]);
      assert LowerChar(LowerChar(t[i])) == LowerChar(t[i]);
    }
  }

  /** The four details, as entered or as stored. */
  datatype Details = Details(surname: string, names: string, dateOfBirth: string, chiefCode: string)

  /** The `mismatches` dictionary. */
  datatype Mismatches = Mismatches(surnameMismatch: bool, namesMismatch: bool, dobMismatch: bool,
                                   chiefCodeMismatch: bool)

  /** Surname and names agree up to ASCII case, date of birth and chief code exactly. */
  predicate DetailsAgree(entered: Details, stored: Details) {
    && Lower(entered.surname) == Lower(stored.surname)
    && Lower(entered.names) == Lower(stored.names)
    && entered.dateOfBirth == stored.dateOfBirth
    && entered.chiefCode == stored.chiefCode
  }

  /** The flags the comparison should raise: one per detail that differs. */
  function Flags(entered: Details, stored: Details): Mismatches {
    Mismatches(Lower(entered.surname) != Lower(stored.surname), Lower(entered.names) != Lower(stored.names),
               entered.dateOfBirth != stored.dateOfBirth, entered.chiefCode != stored.chiefCode)
  }

  /**
   * The comparison, flag by flag: each flag is set exactly when its detail
   * differs, and `detailsMatch` is false exactly when some flag is set.
   */
  method CompareDetails(entered: Details, stored: Details) returns (detailsMatch: bool, m: Mismatches)
    ensures m.surnameMismatch <==> Lower(entered.surname) != Lower(stored.surname)
    ensures m.namesMismatch <==> Lower(entered.names) != Lower(stored.names)
    ensures m.dobMismatch <==> entered.dateOfBirth != stored.dateOfBirth
    ensures m.chiefCodeMismatch <==> entered.chiefCode != stored.chiefCode
    ensures !detailsMatch <==> m.surnameMismatch || m.namesMismatch || m.dobMismatch || m.chiefCodeMismatch
    ensures detailsMatch <==> DetailsAgree(entered, stored)
    ensures m == Flags(entered, stored)
  {
    detailsMatch := true;
    m := Mismatches(false, false, false, false);
    if Lower(entered.surname) != Lower(stored.surname) {
      m := m.(surnameMismatch := true);
      detailsMatch := false;
    }
    if Lower(entered.names) != Lower(stored.names) {
      m := m.(namesMismatch := true);
      detailsMatch := false;
    }
    if entered.dateOfBirth != stored.dateOfBirth {
      m := m.(dobMismatch := true);
      detailsMatch := false;
    }
    if entered.chiefCode != stored.chiefCode {
      m := m.(chiefCodeMismatch := true);
      detailsMatch := false;
    }
  }

  // ----- the result -----

  const FacesMatch := "Faces match"
  const ImageMismatch := "Captured image does not match the ID photo"
  const DetailsMismatch := "Details mismatch"

  /**
   * The result and status: "Faces match" with 200 only when both the faces
   * and the details match; otherwise 400, blaming the image first.
   */
  function SelectResult(faceMatch: bool, detailsMatch: bool): (r: (int, string))
    ensures r.0 == 200 <==> faceMatch && detailsMatch
    ensures r.0 == 200 || r.0 == 400
    ensures r.1 == FacesMatch <==> r.0 == 200
    ensures !faceMatch ==> r.1 == ImageMismatch
    ensures faceMatch && !detailsMatch ==> r.1 == DetailsMismatch
  {
    if faceMatch && detailsMatch then (200, FacesMatch)
    else if !faceMatch then (400, ImageMismatch)
    else (400, DetailsMismatch)
  }

  // ----- the endpoint -----

  /** A document of the `profiles` collection; None for a missing key or a null value. */
  datatype Profile = Profile(idNumber: string, idPhoto: Option<string>, surname: Option<string>,
                             name: Option<string>, dateOfBirth: Option<string>, chiefCode: Option<string>)

  /** get_id_profile: `find_one({"id_number": id_number})`, the first profile with that number. */
  function FindProfile(profiles: seq<Profile>, idNumber: string): (r: Option<Profile>)
    ensures r.Some? ==> r.value in profiles && r.value.idNumber == idNumber
    ensures r.None? <==> forall i :: 0 <= i < |profiles| ==> profiles[i].idNumber != idNumber
    ensures r.Some? ==> exists i :: 0 <= i < |profiles| && r.value == profiles[i]
                                    && forall j :: 0 <= j < i ==> profiles[j].idNumber != idNumber
  {
    if profiles == [] then None
    else if profiles[0].idNumber == idNumber then Some(profiles[0])
    else
      var r := FindProfile(profiles[1..], idNumber);
      if r.Some? then
        var i :| 0 <= i < |profiles| - 1 && r.value == profiles[1..][i]
                 && forall j :: 0 <= j < i ==> profiles[1..][j].idNumber != idNumber;
        assert r.value == profiles[i + 1];
        r
      else r
  }

  /** How far the image work got: decoding, face detection on both images, the comparison. */
  datatype FaceOutcome =
    | CapturedUnreadable          // cv2.imdecode fails and cvtColor raises
    | NoCapturedFace
    | IdImageUnreadable           // cv2.imread returns None
    | NoIdFace
    | Compared(faceMatch: bool)

  /** The JSON answers of compare_faces. */
  datatype VerifyResponse =
    | ErrorResponse(status: int, error: string)
    | FaceError(status: int, error: string, detailsMatch: bool, mismatches: Mismatches)
    | Verdict(status: int, result: string, detailsMatch: bool, mismatches: Mismatches)
    | Crashed                     // the except clause: 500, the exception text and detailsMatch false

  /** The text fields the handler reads with `request.form[...]`, which raises when one is absent. */
  predicate HasTextFields(req: Request) {
    "id_number" in req.form && "surname" in req.form && "name" in req.form
    && "date_of_birth" in req.form && "chiefCode" in req.form
  }

  /** The entered details after normalize_string. */
  function EnteredDetails(req: Request): Details
    requires HasTextFields(req)
  {
    Details(NormalizeString(Some(req.form["surname"])), NormalizeString(Some(req.form["name"])),
            NormalizeString(Some(req.form["date_of_birth"])), NormalizeString(Some(req.form["chiefCode"])))
  }

  /** The stored details after normalize_string (`profile.get(key, "")`). */
  function StoredDetails(p: Profile): Details {
    Details(NormalizeString(p.surname), NormalizeString(p.name),
            NormalizeString(p.dateOfBirth), NormalizeString(p.chiefCode))
  }

  /** The profile's photo is named and exists on disk. */
  predicate PhotoFound(p: Profile, existingFiles: set<string>) {
    p.idPhoto.Some? && p.idPhoto.value != "" && p.idPhoto.value in existingFiles
  }

  /** Every required field is in the form or among the files. */
  predicate AllPresent(req: Request) {
    forall i :: 0 <= i < |RequiredFields| ==> Present(req, RequiredFields[i])
  }

  /**
   * The checks before the images are read: the fields are there, the text
   * fields are in the form, the profile exists and its photo is on disk.
   */
  predicate ProfileChecksPass(req: Request, profiles: seq<Profile>, existingFiles: set<string>) {
    && AllPresent(req) && HasTextFields(req)
    && FindProfile(profiles, req.form["id_number"]).Some?
    && PhotoFound(FindProfile(profiles, req.form["id_number"]).value, existingFiles)
  }

  /**
   * compare_faces. `profiles` is the collection, `existingFiles` the paths
   * `os.path.exists` accepts and `face` what the image work reached. A
   * missing field is reported by name, the first in the checking order;
   * "Faces match" with 200 is answered exactly when every check passes and
   * both the faces and the details match; every verdict carries the flags
   * and the details outcome of the comparison.
   */
  method CompareFaces(req: Request, profiles: seq<Profile>, existingFiles: set<string>, face: FaceOutcome)
    returns (resp: VerifyResponse)
    ensures forall i :: 0 <= i < |RequiredFields| && !Present(req, RequiredFields[i])
                        && (forall j :: 0 <= j < i ==> Present(req, RequiredFields[j]))
                        ==> resp == ErrorResponse(400, RequiredFields[i] + " is required")
    ensures resp == Verdict(200, FacesMatch, true, Mismatches(false, false, false, false)) <==>
              && AllPresent(req)
              && HasTextFields(req)
              && var p := FindProfile(profiles, req.form["id_number"]);
              && p.Some? && PhotoFound(p.value, existingFiles)
              && "captured_image" in req.files
              && face == Compared(true)
              && DetailsAgree(EnteredDetails(req), StoredDetails(p.value))
    ensures (AllPresent(req) && !HasTextFields(req))
              ==> resp == Crashed
    ensures (AllPresent(req) && HasTextFields(req))
              ==> var p := FindProfile(profiles, req.form["id_number"]);
                  && (p.None? ==> resp == ErrorResponse(404, "ID number not found in database"))
                  && (p.Some? && !PhotoFound(p.value, existingFiles) ==> resp == ErrorResponse(404, "ID photo missing in database"))
    ensures ProfileChecksPass(req, profiles, existingFiles) && "captured_image" !in req.files ==> resp == Crashed
    ensures ProfileChecksPass(req, profiles, existingFiles) && "captured_image" in req.files ==>
              var e := EnteredDetails(req);
              var st := StoredDetails(FindProfile(profiles, req.form["id_number"]).value);
              var dm, m := DetailsAgree(e, st), Flags(e, st);
              && (face == CapturedUnreadable ==> resp == Crashed)
              && (face == NoCapturedFace ==> resp == FaceError(400, "No faces found in the captured image", dm, m))
              && (face == IdImageUnreadable ==> resp == FaceError(500, "Failed to load ID image from path", dm, m))
              && (face == NoIdFace ==> resp == FaceError(400, "No faces found in the ID image", dm, m))
              && (face.Compared? ==> resp == Verdict(SelectResult(face.faceMatch, dm).0, SelectResult(face.faceMatch, dm).1, dm, m))
    ensures resp.Verdict? ==>
              && HasTextFields(req)
              && var p := FindProfile(profiles, req.form["id_number"]);
              && p.Some?
              && resp.detailsMatch == DetailsAgree(EnteredDetails(req), StoredDetails(p.value))
              && face.Compared?
              && (resp.status, resp.result) == SelectResult(face.faceMatch, resp.detailsMatch)
  {
    var missing := FirstMissingField(req);
    if missing.Some? {
      return ErrorResponse(400, missing.value + " is required");
    }
    if !HasTextFields(req) {
      return Crashed;
    }
    var idNumber := req.form["id_number"];
    var enteredSurname := req.form["surname"];
    var enteredNames := req.form["name"];
    var enteredDob := req.form["date_of_birth"];
    var enteredChiefCode := req.form["chiefCode"];
    var profile := FindProfile(profiles, idNumber);
    if profile.None? {
      return ErrorResponse(404, "ID number not found in database");
    }
    var p := profile.value;
    if p.idPhoto.None? || p.idPhoto.value == "" || p.idPhoto.value !in existingFiles {
      return ErrorResponse(404, "ID photo missing in database");
    }
    var stored := Details(NormalizeString(p.surname), NormalizeString(p.name),
                          NormalizeString(p.dateOfBirth), NormalizeString(p.chiefCode));
    var entered := Details(NormalizeString(Some(enteredSurname)), NormalizeString(Some(enteredNames)),
                           NormalizeString(Some(enteredDob)), NormalizeString(Some(enteredChiefCode)));
    var detailsMatch, mismatches := CompareDetails(entered, stored);
    if "captured_image" !in req.files {
      return Crashed;
    }
    match face {
      case CapturedUnreadable =>
        return Crashed;
      case NoCapturedFace =>
        return FaceError(400, "No faces found in the captured image", detailsMatch, mismatches);
      case IdImageUnreadable =>
        return FaceError(500, "Failed to load ID image from path", detailsMatch, mismatches);
      case NoIdFace =>
        return FaceError(400, "No faces found in the ID image", detailsMatch, mismatches);
      case Compared(faceMatch) =>
        var (status, result) := SelectResult(faceMatch, detailsMatch);
        return Verdict(status, result, detailsMatch, mismatches);
    }
  }
}
