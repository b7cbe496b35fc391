/**
 * The API handlers of verification-app/server.js as methods on the store.
 * Each handler runs the same reads and writes, in the same order, as the
 * JavaScript, and is proved to answer and to leave the store exactly as the
 * matching function of the Workflows module states; where that function is
 * proved to keep the database consistent, so is the handler.
 */
module Server {
  import opened Wrappers
  import opened Records
  import opened Database
  import opened Workflows
  import opened Consistency

  const SimIdMissing := Response(400, ErrorBody("SIM number is required"))

  /**
   * `/api/check-sim`: 400 without a SIM identifier; otherwise 200, and
   * `available` is set exactly when some SIM with that identifier is free.
   */
  method ApiCheckSim(store: Store, simId: string) returns (resp: Response)
    ensures simId == "" ==> resp == SimIdMissing
    ensures simId != "" ==> resp.status == 200 && resp.body.AvailabilityBody?
    ensures simId != "" ==>
              (resp.body.available <==> exists j :: 0 <= j < |store.sims| && store.sims[j].simId == simId
                                                    && store.sims[j].isAvailable)
    ensures simId != "" ==>
              resp.body.message == if resp.body.available then "SIM is available. Choose a phone number."
                                   else "SIM not available or invalid."
  {
    if simId == "" {
      return SimIdMissing;
    }
    var sim := CheckSimAvailability(store.sims, simId);
    if sim.Some? {
      resp := Response(200, AvailabilityBody(true, "SIM is available. Choose a phone number."));
    } else {
      resp := Response(200, AvailabilityBody(false, "SIM not available or invalid."));
    }
  }

  /** `/api/register-phone`. */
  method ApiRegisterPhone(store: Store, session: Session, req: RegisterRequest) returns (resp: Response)
    modifies store
    ensures (resp, store.Snapshot()) == RegisterPhone(old(store.Snapshot()), session, req)
    ensures Consistent(old(store.Snapshot())) ==> Consistent(store.Snapshot())
  {
    ghost var db := store.Snapshot();
    if Consistent(db) {
      RegisterPhoneKeepsConsistency(db, session, req);
    }
    if session.idNumber == "" {
      return NotAuthenticated;
    }
    var sim := CheckSimAvailability(store.sims, req.simId);
    if sim.None? {
      return SimUnavailable;
    }
    if !ValidatePhoneNumber(req.phoneNumber) {
      return BadPhoneFormat;
    }
    var free := CheckPhoneAvailability(store.Snapshot(), req.phoneNumber);
    if !free {
      return PhoneTaken;
    }
    var plan := OrDefault(req.paymentPlan);
    var reserved := store.RegisterPhoneNumber(req.simId, req.phoneNumber, plan);
    if !reserved {
      return ReservationLost;
    }
    store.RegisterSubscriber(session.idNumber, OrSession(req.names, session.name),
                             OrSession(req.surname, session.surname), req.phoneNumber, plan, true);
    resp := Registered;
  }

  /** `/api/sim-swap`: checks, release of the old SIM, binding of the new one, re-pointing, re-read. */
  method ApiSimSwap(store: Store, phone: string, newSimId: string, idNumber: string) returns (resp: Response)
    modifies store
    ensures (resp, store.Snapshot()) == SimSwap(old(store.Snapshot()), phone, newSimId, idNumber)
    ensures Consistent(old(store.Snapshot())) ==> Consistent(store.Snapshot())
  {
    ghost var db := store.Snapshot();
    if Consistent(db) {
      SimSwapKeepsConsistency(db, phone, newSimId, idNumber);
    }
    if phone == "" || newSimId == "" || idNumber == "" {
      return SwapFieldsMissing;
    }
    var subscriber := FindOneSubscriber(store.subscribers, IdNumberIs(idNumber));
    if subscriber.None? {
      return SwapUserNotFound;
    }
    var hasPhone := FirstBinding(subscriber.value.phoneNumbers, phone).Some?;
    if !hasPhone {
      return SwapNotOwner;
    }
    var newSim := CheckSimAvailability(store.sims, newSimId);
    if newSim.None? {
      return SwapSimUnavailable;
    }
    var oldSim := FindOneSim(store.sims, PhoneIs(phone));
    if oldSim.Some? {
      var _ := store.UpdateSim(SimIdIs(oldSim.value.simId), SimFields(None, true, None));
    }
    var currentPlan := subscriber.value.phoneNumbers[FirstBinding(subscriber.value.phoneNumbers, phone).value].paymentPlan;
    var _ := store.UpdateSim(SimIdIs(newSimId), SimFields(Some(phone), false, Some(currentPlan)));
    var _ := store.UpdateBinding(idNumber, phone, BindingFields(Some(currentPlan), Some(newSimId), Some(true), None));
    assert store.Snapshot() == SwapWrites(db, phone, newSimId, idNumber, currentPlan);
    var updatedSubscriber := FindOneSubscriber(store.subscribers, IdNumberIs(idNumber));
    if updatedSubscriber.None? {
      return SwapSubscriberVanished;
    }
    var entryIndex := FirstBinding(updatedSubscriber.value.phoneNumbers, phone);
    if entryIndex.None? {
      return SwapBindingVanished;
    }
    var entry := updatedSubscriber.value.phoneNumbers[entryIndex.value];
    if entry.simId != Some(newSimId) || entry.paymentPlan != currentPlan {
      return SwapNotApplied;
    }
    resp := Swapped;
  }

  /** `/api/toggle-number`: set `isActive` of the session user's binding for the number. */
  method ApiToggleNumber(store: Store, session: Session, phone: string, isActive: bool) returns (resp: Response)
    modifies store
    ensures (resp, store.Snapshot()) == ToggleNumber(old(store.Snapshot()), session, phone, isActive)
    ensures Consistent(old(store.Snapshot())) ==> Consistent(store.Snapshot())
  {
    ghost var db := store.Snapshot();
    if Consistent(db) {
      ToggleNumberKeepsConsistency(db, session, phone, isActive);
    }
    if phone == "" {
      return TogglePhoneMissing;
    }
    var subscriber := FindOneSubscriber(store.subscribers, IdNumberIs(session.idNumber));
    if subscriber.None? {
      return ToggleUserNotFound;
    }
    var phoneIndex := FirstBinding(subscriber.value.phoneNumbers, phone);
    if phoneIndex.None? {
      return TogglePhoneNotFound;
    }
    var _ := store.UpdateBinding(session.idNumber, phone, BindingFields(None, None, Some(isActive), None));
    resp := Response(200, OutcomeBody(true, ToggledMessage(phone, isActive)));
  }

  /**
   * Start-up on an empty database: after seeding the pool holds the three
   * samples and the database is consistent, so by the contracts above it
   * stays consistent under any sequence of handled requests whose fields
   * are strings.
   */
  method StartUp() returns (store: Store)
    ensures fresh(store)
    ensures Consistent(store.Snapshot())
    ensures store.sims == Seeded([]) && store.subscribers == []
  {
    store := new Store();
    EmptyIsConsistent();
    SeedingKeepsConsistency(store.Snapshot());
    store.Seed();
  }
}
