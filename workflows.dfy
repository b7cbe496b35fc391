/**
 * What the API handlers of verification-app/server.js do, as functions
 * from the contents of the database (and the request) to the response and
 * the new contents. Each handler is one atomic sequential run; requests that
 * run concurrently show up only as the conditional reservation failing
 * (RegisterPhoneCommit run on a database another request has changed).
 * Absent request and session fields are the empty string, the falsy value
 * the handlers test for.
 */
module Workflows {
  import opened Wrappers
  import opened Records
  import opened Database

  /** The JSON bodies the handlers send. */
  datatype Body =
    | ErrorBody(error: string)                       // { error }
    | MessageBody(message: string)                   // { message }
    | AvailabilityBody(available: bool, message: string)
    | OutcomeBody(success: bool, message: string)    // { success, message }

  datatype Response = Response(status: int, body: Body)

  /** The session fields the handlers read. */
  datatype Session = Session(idNumber: string, name: string, surname: string)

  /** The body of a `/api/register-phone` request. */
  datatype RegisterRequest = RegisterRequest(simId: string, phoneNumber: string, names: string,
                                             surname: string, paymentPlan: string)

  // ----- /api/register-phone -----

  const NotAuthenticated := Response(401, ErrorBody("User not authenticated. Please log in again."))
  const SimUnavailable := Response(400, ErrorBody("SIM not available or invalid."))
  const BadPhoneFormat := Response(400, ErrorBody("Invalid phone number format."))
  const PhoneTaken := Response(400, ErrorBody("Phone number already registered."))
  /** What the 500 handler sends when registerPhoneNumber throws. */
  const ReservationLost := Response(500, ErrorBody("SIM not available or invalid"))
  const Registered := Response(200, MessageBody("Phone number registered successfully."))

  /** The checks the handler makes before writing, in its order; None when all pass. */
  function RegisterPhoneGuard(db: Db, session: Session, req: RegisterRequest): Option<Response> {
    if session.idNumber == "" then Some(NotAuthenticated)
    else if CheckSimAvailability(db.sims, req.simId).None? then Some(SimUnavailable)
    else if !ValidatePhoneNumber(req.phoneNumber) then Some(BadPhoneFormat)
    else if !CheckPhoneAvailability(db, req.phoneNumber) then Some(PhoneTaken)
    else None
  }

  /** `names || req.session.name`. */
  function OrSession(given: string, fromSession: string): string {
    if given == "" then fromSession else given
  }

  /** The writes: reserve the SIM, then upsert the subscriber's binding, both with `paymentPlan || 'Default'`. */
  function RegisterPhoneCommit(db: Db, session: Session, req: RegisterRequest): (r: (Response, Db))
    ensures r.0 == Registered <==> CheckSimAvailability(db.sims, req.simId).Some?
    ensures r.0 != Registered ==> r == (ReservationLost, db)
    ensures r.0 == Registered ==>
              exists i :: 0 <= i < |db.sims| && db.sims[i].simId == req.simId && db.sims[i].isAvailable
                          && r.1.sims == db.sims[i := Sim(req.simId, Some(req.phoneNumber), false,
                                                           Some(OrDefault(req.paymentPlan)))]
    ensures r.0 == Registered ==>
              exists s :: 0 <= s < |r.1.subscribers| && r.1.subscribers[s].idNumber == session.idNumber
                          && HasBinding(r.1.subscribers[s].phoneNumbers, req.phoneNumber)
  {
    var plan := OrDefault(req.paymentPlan);
    var (sims', ok) := Reserve(db.sims, req.simId, req.phoneNumber, plan);
    if !ok then (ReservationLost, db)
    else
      (Registered,
       Db(sims', UpsertSubscriber(sims', db.subscribers, session.idNumber,
                                  OrSession(req.names, session.name), OrSession(req.surname, session.surname),
                                  req.phoneNumber, plan, true)))
  }

  /**
   * `/api/register-phone`: session, SIM availability, phone format and phone
   * availability are checked in that order; each failure answers at once and
   * writes nothing. Run on its own, the reservation after the checks cannot
   * be lost, so the request succeeds exactly when every check passes.
   */
  function RegisterPhone(db: Db, session: Session, req: RegisterRequest): (r: (Response, Db))
    ensures session.idNumber == "" ==> r == (NotAuthenticated, db)
    ensures session.idNumber != "" && CheckSimAvailability(db.sims, req.simId).None? ==> r == (SimUnavailable, db)
    ensures (session.idNumber != "" && CheckSimAvailability(db.sims, req.simId).Some?
             && !ValidatePhoneNumber(req.phoneNumber)) ==> r == (BadPhoneFormat, db)
    ensures session.idNumber != "" && CheckSimAvailability(db.sims, req.simId).Some?
            && ValidatePhoneNumber(req.phoneNumber) && !CheckPhoneAvailability(db, req.phoneNumber)
            ==> r == (PhoneTaken, db)
    ensures r.0 == Registered <==>
            session.idNumber != "" && CheckSimAvailability(db.sims, req.simId).Some?
            && ValidatePhoneNumber(req.phoneNumber) && CheckPhoneAvailability(db, req.phoneNumber)
    ensures r.0 != Registered ==> r.1 == db
  {
    match RegisterPhoneGuard(db, session, req)
    case Some(rejection) => (rejection, db)
    case None => RegisterPhoneCommit(db, session, req)
  }

  /**
   * After a successful registration the SIM is bound to the number and
   * unavailable, no other SIM changed, getSimIdForPhone now finds that SIM,
   * and the subscriber's binding for the number, appended as its last
   * binding, carries that SIM's identifier and the plan.
   */
  lemma RegisterPhoneBindsSimAndSubscriber(db: Db, session: Session, req: RegisterRequest)
    requires RegisterPhone(db, session, req).0 == Registered
    ensures var db' := RegisterPhone(db, session, req).1;
      && (exists i :: 0 <= i < |db.sims| && db.sims[i].simId == req.simId && db.sims[i].isAvailable
                      && db'.sims == db.sims[i := Sim(req.simId, Some(req.phoneNumber), false,
                                                      Some(OrDefault(req.paymentPlan)))])
      && GetSimIdForPhone(db'.sims, req.phoneNumber) == Some(req.simId)
      && exists s :: IsFirstWithId(db'.subscribers, session.idNumber, s)
                     && var bs := db'.subscribers[s].phoneNumbers;
                     && |bs| > 0
                     && IsFirstBinding(bs, req.phoneNumber, |bs| - 1)
                     && bs[|bs| - 1] == Binding(req.phoneNumber, OrDefault(req.paymentPlan), Some(req.simId), true, None)
  {
    var phone, plan := req.phoneNumber, OrDefault(req.paymentPlan);
    assert RegisterPhoneGuard(db, session, req).None?;
    ReservedSimHoldsFreeNumber(db.sims, req.simId, phone, plan);
    var sims' := Reserve(db.sims, req.simId, phone, plan).0;
    UpsertFreeNumberAppendsLast(sims', db.subscribers, session.idNumber, OrSession(req.names, session.name),
                                OrSession(req.surname, session.surname), phone, plan, true);
  }

  /**
   * Two registrations that passed their checks on the same database for the
   * same SIM race: the one that writes first wins, the other finds the SIM
   * reserved, answers 500 and writes nothing, and the SIM stays bound to the
   * winner's number.
   */
  lemma RacingRegistrationsForOneSim(db: Db, sessionA: Session, reqA: RegisterRequest,
                                     sessionB: Session, reqB: RegisterRequest)
    requires UniqueSimIds(db.sims)
    requires reqA.simId == reqB.simId
    requires RegisterPhoneGuard(db, sessionA, reqA).None? && RegisterPhoneGuard(db, sessionB, reqB).None?
    ensures var (respA, dbA) := RegisterPhoneCommit(db, sessionA, reqA);
            var (respB, dbB) := RegisterPhoneCommit(dbA, sessionB, reqB);
            && respA == Registered && respB == ReservationLost && dbB == dbA
            && GetSimIdForPhone(dbB.sims, reqA.phoneNumber) == Some(reqA.simId)
  {
    var planA := OrDefault(reqA.paymentPlan);
    SecondReservationFails(db.sims, reqA.simId, reqA.phoneNumber, planA, reqB.phoneNumber, OrDefault(reqB.paymentPlan));
    assert RegisterPhone(db, sessionA, reqA).0 == Registered;
    RegisterPhoneBindsSimAndSubscriber(db, sessionA, reqA);
  }

  // ----- /api/sim-swap -----

  const SwapFieldsMissing := Response(400, OutcomeBody(false, "Phone number, new SIM ID, and ID number are required."))
  const SwapUserNotFound := Response(404, OutcomeBody(false, "User not found."))
  const SwapNotOwner := Response(403, OutcomeBody(false, "You do not own this phone number."))
  const SwapSimUnavailable := Response(400, OutcomeBody(false, "New SIM is not available or invalid."))
  /** The thrown error the 500 handler reports when the re-read disagrees. */
  const SwapNotApplied := Response(500, OutcomeBody(false, "Failed to update SIM or payment plan in HSS."))
  /** The 500 answers for a re-read that finds no subscriber or no binding (a TypeError in JavaScript). */
  const SwapSubscriberVanished := Response(500, OutcomeBody(false, "Cannot read properties of null (reading 'phoneNumbers')"))
  const SwapBindingVanished := Response(500, OutcomeBody(false, "Cannot read properties of undefined (reading 'simId')"))
  const Swapped := Response(200, OutcomeBody(true, "SIM swap successful."))

  /**
   * The post-check: re-read the subscriber and its binding for the number.
   * It answers success exactly when the first subscriber with the identity
   * number has a binding for the number whose first one names the new SIM
   * with the plan; a missing subscriber or binding is the TypeError's 500,
   * any other disagreement the thrown error's 500.
   */
  function SwapPostCheck(db: Db, idNumber: string, phone: string, newSimId: string, plan: string): (r: Response)
    ensures r == Swapped || r.status == 500
    ensures r == Swapped <==>
              exists i, k :: IsFirstWithId(db.subscribers, idNumber, i)
                             && IsFirstBinding(db.subscribers[i].phoneNumbers, phone, k)
                             && db.subscribers[i].phoneNumbers[k].simId == Some(newSimId)
                             && db.subscribers[i].phoneNumbers[k].paymentPlan == plan
    ensures (forall j :: 0 <= j < |db.subscribers| ==> db.subscribers[j].idNumber != idNumber)
            ==> r == SwapSubscriberVanished
    ensures forall i :: IsFirstWithId(db.subscribers, idNumber, i) && !HasBinding(db.subscribers[i].phoneNumbers, phone)
                        ==> r == SwapBindingVanished
  {
    match FindOneSubscriber(db.subscribers, IdNumberIs(idNumber))
    case None => SwapSubscriberVanished
    case Some(updated) =>
      match FirstBinding(updated.phoneNumbers, phone)
      case None => SwapBindingVanished
      case Some(k) =>
        if updated.phoneNumbers[k].simId != Some(newSimId) || updated.phoneNumbers[k].paymentPlan != plan
        then SwapNotApplied
        else Swapped
  }

  /** Position `j` holds the first SIM bound to `phone`: the one `findOne({ phoneNumber })` returns. */
  predicate IsFirstSimHolding(sims: seq<Sim>, phone: string, j: int) {
    0 <= j < |sims| && sims[j].phoneNumber == Some(phone)
    && forall i :: 0 <= i < j ==> sims[i].phoneNumber != Some(phone)
  }

  /** With distinct identifiers, `{ simId }` selects the SIM at its one position. */
  lemma SimIdIsFound(sims: seq<Sim>, j: int)
    requires UniqueSimIds(sims) && 0 <= j < |sims|
    ensures FirstSim(sims, SimIdIs(sims[j].simId)) == Some(j)
  {
    assert SimMatches(SimIdIs(sims[j].simId), sims[j]);
  }

  /** Step one of a swap: `findOne({ phoneNumber })`, then free that SIM by its identifier. */
  function ReleaseHolder(sims: seq<Sim>, phone: string): (r: seq<Sim>)
    ensures |r| == |sims|
    ensures (forall j :: 0 <= j < |sims| ==> sims[j].phoneNumber != Some(phone)) ==> r == sims
    ensures forall j :: 0 <= j < |sims| ==> r[j] == sims[j] || r[j] == Sim(sims[j].simId, None, true, None)
  {
    match FindOneSim(sims, PhoneIs(phone))
    case None => sims
    case Some(oldSim) => UpdateOneSim(sims, SimIdIs(oldSim.simId), SimFields(None, true, None)).0
  }

  /** With distinct identifiers, exactly the first SIM holding the number is freed. */
  lemma ReleaseHolderFreesFirstHolder(sims: seq<Sim>, phone: string)
    requires UniqueSimIds(sims)
    ensures var r := ReleaseHolder(sims, phone);
            && |r| == |sims|
            && forall j :: 0 <= j < |sims| ==>
                 r[j] == if IsFirstSimHolding(sims, phone, j) then Sim(sims[j].simId, None, true, None) else sims[j]
  {
    match FirstSim(sims, PhoneIs(phone))
    case None =>
    case Some(o) =>
      assert FindOneSim(sims, PhoneIs(phone)) == Some(sims[o]);
      SimIdIsFound(sims, o);
      forall j | 0 <= j < |sims|
        ensures IsFirstSimHolding(sims, phone, j) <==> j == o
      {
        if IsFirstSimHolding(sims, phone, j) && j < o {
          assert SimMatches(PhoneIs(phone), sims[j]);
        }
      }
  }

  /** Step two of a swap: `updateOne({ simId: newSimId }, …)`, with no availability condition. */
  function BindById(sims: seq<Sim>, simId: string, phone: string, plan: string): (r: seq<Sim>)
    ensures |r| == |sims|
    ensures (forall j :: 0 <= j < |sims| ==> sims[j].simId != simId) ==> r == sims
    ensures forall j :: 0 <= j < |sims| ==> r[j] == sims[j] || r[j] == Sim(simId, Some(phone), false, Some(plan))
  {
    UpdateOneSim(sims, SimIdIs(simId), SimFields(Some(phone), false, Some(plan))).0
  }

  /** With distinct identifiers, exactly the SIM with this identifier is bound. */
  lemma BindByIdBindsThatSim(sims: seq<Sim>, simId: string, phone: string, plan: string)
    requires UniqueSimIds(sims)
    ensures var r := BindById(sims, simId, phone, plan);
            && |r| == |sims|
            && forall j :: 0 <= j < |sims| ==>
                 r[j] == if sims[j].simId == simId then Sim(simId, Some(phone), false, Some(plan)) else sims[j]
  {
    match FirstSim(sims, SimIdIs(simId))
    case None =>
    case Some(m) =>
      SimIdIsFound(sims, m);
      forall j | 0 <= j < |sims| && sims[j].simId == simId
        ensures j == m
      {
        SimIdIsFound(sims, j);
      }
  }

  /** The writes of a swap that passed its checks, `plan` being the binding's plan as first read. */
  function SwapWrites(db: Db, phone: string, newSimId: string, idNumber: string, plan: string): Db {
    Db(BindById(ReleaseHolder(db.sims, phone), newSimId, phone, plan),
       UpdateBindingWhere(db.subscribers, idNumber, phone,
                          BindingFields(Some(plan), Some(newSimId), Some(true), None)).0)
  }

  /** `subscriber.phoneNumbers.find(p => p.phoneNumber === phoneNumber).paymentPlan`. */
  function CurrentPlan(bs: seq<Binding>, phone: string): string
    requires HasBinding(bs, phone)
  {
    bs[FirstBinding(bs, phone).value].paymentPlan
  }

  /** `/api/sim-swap`. */
  function SimSwap(db: Db, phone: string, newSimId: string, idNumber: string): (r: (Response, Db))
    ensures r.0.status != 200 && r.0.status != 500 ==> r.1 == db
  {
    if phone == "" || newSimId == "" || idNumber == "" then (SwapFieldsMissing, db)
    else match FindOneSubscriber(db.subscribers, IdNumberIs(idNumber))
      case None => (SwapUserNotFound, db)
      case Some(subscriber) =>
        if !HasBinding(subscriber.phoneNumbers, phone) then (SwapNotOwner, db)
        else if CheckSimAvailability(db.sims, newSimId).None? then (SwapSimUnavailable, db)
        else
          var plan := CurrentPlan(subscriber.phoneNumbers, phone);
          var db' := SwapWrites(db, phone, newSimId, idNumber, plan);
          (SwapPostCheck(db', idNumber, phone, newSimId, plan), db')
  }

  /**
   * The rejections of `/api/sim-swap`, in order and mutually exclusive:
   * missing fields (400), unknown subscriber (404), a number the subscriber
   * does not own (403), an unavailable new SIM (400); none of them writes.
   */
  lemma SimSwapRejections(db: Db, phone: string, newSimId: string, idNumber: string)
    ensures var r := SimSwap(db, phone, newSimId, idNumber);
      && (phone == "" || newSimId == "" || idNumber == "" ==> r == (SwapFieldsMissing, db))
      && (phone != "" && newSimId != "" && idNumber != ""
          && (forall j :: 0 <= j < |db.subscribers| ==> db.subscribers[j].idNumber != idNumber)
          ==> r == (SwapUserNotFound, db))
      && (forall i :: phone != "" && newSimId != "" && idNumber != "" && IsFirstWithId(db.subscribers, idNumber, i) ==>
            (!HasBinding(db.subscribers[i].phoneNumbers, phone) ==> r == (SwapNotOwner, db))
            && (HasBinding(db.subscribers[i].phoneNumbers, phone) && CheckSimAvailability(db.sims, newSimId).None?
                ==> r == (SwapSimUnavailable, db)))
  {
    forall i | phone != "" && newSimId != "" && idNumber != "" && IsFirstWithId(db.subscribers, idNumber, i) {
      FirstWithIdIsFound(db.subscribers, idNumber, i);
    }
  }

  /**
   * A swap that passes its checks: the re-read always agrees, so it answers
   * 200. The first binding for the number now names the new SIM, is active
   * and keeps its plan; no other binding and no other subscriber changes.
   */
  lemma SimSwapRepointsBinding(db: Db, phone: string, newSimId: string, idNumber: string, i: int, k: int)
    requires phone != "" && newSimId != "" && idNumber != ""
    requires IsFirstWithId(db.subscribers, idNumber, i)
    requires IsFirstBinding(db.subscribers[i].phoneNumbers, phone, k)
    requires CheckSimAvailability(db.sims, newSimId).Some?
    ensures var bs := db.subscribers[i].phoneNumbers;
            var r := SimSwap(db, phone, newSimId, idNumber);
            && r.0 == Swapped
            && r.1 == SwapWrites(db, phone, newSimId, idNumber, bs[k].paymentPlan)
            && r.1.subscribers == db.subscribers[i := db.subscribers[i].(phoneNumbers :=
                                    bs[k := bs[k].(simId := Some(newSimId), isActive := true)])]
  {
    var subs := db.subscribers;
    var bs := subs[i].phoneNumbers;
    var plan := bs[k].paymentPlan;
    FirstWithIdIsFound(subs, idNumber, i);
    FirstBindingIsFound(bs, phone, k);
    assert HasBinding(bs, phone);
    FirstWithIdBindingPhoneIsFound(subs, idNumber, phone, i);
    var db' := SwapWrites(db, phone, newSimId, idNumber, plan);
    assert SimSwap(db, phone, newSimId, idNumber) == (SwapPostCheck(db', idNumber, phone, newSimId, plan), db');
    var bs' := bs[k := bs[k].(simId := Some(newSimId), isActive := true)];
    assert db'.subscribers == subs[i := subs[i].(phoneNumbers := bs')];
    assert IsFirstWithId(db'.subscribers, idNumber, i);
    FirstWithIdIsFound(db'.subscribers, idNumber, i);
    assert IsFirstBinding(bs', phone, k);
    FirstBindingIsFound(bs', phone, k);
  }

  /**
   * The SIM side of a swap that passes its checks: the first SIM that held
   * the number is released (available, no number, no plan), the SIM with the
   * new identifier is bound to the number with the binding's plan, and every
   * other SIM is unchanged.
   */
  lemma SimSwapMovesNumber(db: Db, phone: string, newSimId: string, idNumber: string, plan: string)
    requires UniqueSimIds(db.sims)
    ensures var sims' := SwapWrites(db, phone, newSimId, idNumber, plan).sims;
            && |sims'| == |db.sims|
            && forall j :: 0 <= j < |db.sims| ==>
                 sims'[j] == (if db.sims[j].simId == newSimId then Sim(newSimId, Some(phone), false, Some(plan))
                              else if IsFirstSimHolding(db.sims, phone, j) then Sim(db.sims[j].simId, None, true, None)
                              else db.sims[j])
  {
    ReleaseHolderFreesFirstHolder(db.sims, phone);
    var released := ReleaseHolder(db.sims, phone);
    assert UniqueSimIds(released) by {
      assert forall j :: 0 <= j < |db.sims| ==> released[j].simId == db.sims[j].simId;
    }
    BindByIdBindsThatSim(released, newSimId, phone, plan);
  }

  // ----- /api/toggle-number -----

  const TogglePhoneMissing := Response(400, OutcomeBody(false, "Phone number is required."))
  const ToggleUserNotFound := Response(404, OutcomeBody(false, "User not found."))
  const TogglePhoneNotFound := Response(404, OutcomeBody(false, "Phone number not found."))

  function ToggledMessage(phone: string, isActive: bool): string {
    "Phone number " + phone + " " + (if isActive then "activated" else "deactivated") + " successfully."
  }

  /**
   * `/api/toggle-number`: a missing number (400), an unknown session user
   * (404) and a number the user does not hold (404) are rejected without a
   * write; otherwise only `isActive` of the first binding for the number is
   * set.
   */
  function ToggleNumber(db: Db, session: Session, phone: string, isActive: bool): (r: (Response, Db))
    ensures phone == "" ==> r == (TogglePhoneMissing, db)
    ensures phone != "" && (forall j :: 0 <= j < |db.subscribers| ==> db.subscribers[j].idNumber != session.idNumber)
            ==> r == (ToggleUserNotFound, db)
    ensures r.0.status != 200 ==> r.1 == db
    ensures r.0.status == 200 ==> r.0.body.OutcomeBody? && r.0.body.success
                                  && r.0.body.message == ToggledMessage(phone, isActive)
  {
    if phone == "" then (TogglePhoneMissing, db)
    else match FindOneSubscriber(db.subscribers, IdNumberIs(session.idNumber))
      case None => (ToggleUserNotFound, db)
      case Some(subscriber) =>
        match FirstBinding(subscriber.phoneNumbers, phone)
        case None => (TogglePhoneNotFound, db)
        case Some(_) =>
          var updated := UpdateBindingWhere(db.subscribers, session.idNumber, phone,
                                            BindingFields(None, None, Some(isActive), None)).0;
          (Response(200, OutcomeBody(true, ToggledMessage(phone, isActive))), Db(db.sims, updated))
  }

  /**
   * A toggle for a number the session user holds answers 200, and exactly
   * `isActive` of the first binding for the number changes; a toggle for a
   * number they do not hold answers 404.
   */
  lemma ToggleSetsOnlyIsActive(db: Db, session: Session, phone: string, isActive: bool, i: int)
    requires phone != "" && IsFirstWithId(db.subscribers, session.idNumber, i)
    ensures var r := ToggleNumber(db, session, phone, isActive);
            var bs := db.subscribers[i].phoneNumbers;
            && (!HasBinding(bs, phone) ==> r == (TogglePhoneNotFound, db))
            && forall k :: IsFirstBinding(bs, phone, k) ==>
                 r == (Response(200, OutcomeBody(true, ToggledMessage(phone, isActive))),
                       Db(db.sims, db.subscribers[i := db.subscribers[i].(phoneNumbers := bs[k := bs[k].(isActive := isActive)])]))
  {
    var bs := db.subscribers[i].phoneNumbers;
    FirstWithIdIsFound(db.subscribers, session.idNumber, i);
    if HasBinding(bs, phone) {
      FirstWithIdBindingPhoneIsFound(db.subscribers, session.idNumber, phone, i);
      forall k | IsFirstBinding(bs, phone, k)
        ensures ToggleNumber(db, session, phone, isActive) ==
                (Response(200, OutcomeBody(true, ToggledMessage(phone, isActive))),
                 Db(db.sims, db.subscribers[i := db.subscribers[i].(phoneNumbers := bs[k := bs[k].(isActive := isActive)])]))
      {
        FirstBindingIsFound(bs, phone, k);
      }
    }
  }

  /** The confirmation says "activated" exactly when the requested flag is set. */
  lemma ToggledMessageNamesState(phone: string, isActive: bool)
    ensures ToggledMessage(phone, isActive) == "Phone number " + phone + " activated successfully." <==> isActive
  {
    var m := ToggledMessage(phone, isActive);
    var k := |"Phone number " + phone + " "|;
    if !isActive {
      assert m[k] == 'd';
      assert ("Phone number " + phone + " activated successfully.")[k] == 'a';
    }
  }
}
