/**
 * The invariant that keeps the SIM pool and the subscriber records of the
 * HSS in step, and its preservation by every handler that writes. A
 * database is consistent when
 *  - SIM identifiers are distinct, a SIM is available exactly when it holds
 *    no number, it holds a plan exactly when it holds a number, and no
 *    number is held by two SIMs;
 *  - identity numbers are distinct and no number is bound twice, neither
 *    within one subscriber nor across subscribers;
 *  - every binding names the SIM that holds its number, and that SIM
 *    carries the binding's plan; every number a SIM holds is bound.
 * The empty database is consistent, seeding keeps it so, and so do
 * register-phone, sim-swap and toggle-number, for every request whose
 * fields are strings (MongoDB query-operator objects are not modelled).
 */
module Consistency {
  import opened Wrappers
  import opened Records
  import opened Database
  import opened Workflows

  // ----- the SIM pool -----

  /** Available exactly when unbound; a plan exactly when a number. */
  predicate SimCoherent(s: Sim) {
    && (s.isAvailable <==> s.phoneNumber.None?)
    && (s.phoneNumber.None? <==> s.paymentPlan.None?)
  }

  /** No number is held by two SIMs. */
  predicate NumbersHeldOnce(sims: seq<Sim>) {
    forall i, j :: 0 <= i < j < |sims| && sims[i].phoneNumber.Some? ==> sims[i].phoneNumber != sims[j].phoneNumber
  }

  predicate PoolConsistent(sims: seq<Sim>) {
    && UniqueSimIds(sims)
    && (forall j :: 0 <= j < |sims| ==> SimCoherent(sims[j]))
    && NumbersHeldOnce(sims)
  }

  // ----- the subscribers -----

  predicate UniqueIdNumbers(subs: seq<Subscriber>) {
    forall i, j :: 0 <= i < j < |subs| ==> subs[i].idNumber != subs[j].idNumber
  }

  /** Binding `k` of subscriber `i` is for `phone`. */
  predicate BindsAt(subs: seq<Subscriber>, phone: string, i: int, k: int) {
    0 <= i < |subs| && 0 <= k < |subs[i].phoneNumbers| && subs[i].phoneNumbers[k].phoneNumber == phone
  }

  /** No number has two bindings, in one subscriber or in two. */
  ghost predicate NumbersBoundOnce(subs: seq<Subscriber>) {
    forall phone, i, k, i', k' :: BindsAt(subs, phone, i, k) && BindsAt(subs, phone, i', k') ==> i == i' && k == k'
  }

  ghost predicate SubscribersConsistent(subs: seq<Subscriber>) {
    UniqueIdNumbers(subs) && NumbersBoundOnce(subs)
  }

  // ----- the link between the two -----

  /** The binding names a SIM that holds its number with its plan. */
  predicate Backed(sims: seq<Sim>, b: Binding) {
    b.simId.Some?
    && exists j :: 0 <= j < |sims| && sims[j] == Sim(b.simId.value, Some(b.phoneNumber), false, Some(b.paymentPlan))
  }

  /** Some subscriber binds the number. */
  predicate IsRegistered(subs: seq<Subscriber>, phone: string) {
    exists i :: 0 <= i < |subs| && HasBinding(subs[i].phoneNumbers, phone)
  }

  predicate Linked(db: Db) {
    && (forall i, k :: 0 <= i < |db.subscribers| && 0 <= k < |db.subscribers[i].phoneNumbers|
                       ==> Backed(db.sims, db.subscribers[i].phoneNumbers[k]))
    && (forall j :: 0 <= j < |db.sims| && db.sims[j].phoneNumber.Some?
                    ==> IsRegistered(db.subscribers, db.sims[j].phoneNumber.value))
  }

  ghost predicate Consistent(db: Db) {
    PoolConsistent(db.sims) && SubscribersConsistent(db.subscribers) && Linked(db)
  }

  // ----- what consistency buys -----

  /**
   * In a consistent database getSimIdForPhone finds, for every binding,
   * exactly the SIM the binding names, and that SIM is not available.
   */
  lemma BindingNamesHolder(db: Db, i: int, k: int)
    requires Consistent(db)
    requires 0 <= i < |db.subscribers| && 0 <= k < |db.subscribers[i].phoneNumbers|
    ensures var b := db.subscribers[i].phoneNumbers[k];
            && b.simId.Some?
            && GetSimIdForPhone(db.sims, b.phoneNumber) == b.simId
            && CheckSimAvailability(db.sims, b.simId.value).None?
  {
    var b := db.subscribers[i].phoneNumbers[k];
    assert Backed(db.sims, b);
    var j :| 0 <= j < |db.sims| && db.sims[j] == Sim(b.simId.value, Some(b.phoneNumber), false, Some(b.paymentPlan));
    assert forall j' :: 0 <= j' < j ==> db.sims[j'].phoneNumber != Some(b.phoneNumber);
    assert forall j' :: 0 <= j' < |db.sims| && db.sims[j'].simId == b.simId.value ==> j' == j;
  }

  /** In a consistent database a number counts as taken exactly when some subscriber binds it. */
  lemma TakenIffRegistered(db: Db, phone: string)
    requires Consistent(db)
    ensures !CheckPhoneAvailability(db, phone) <==> IsRegistered(db.subscribers, phone)
  {
    if exists j :: 0 <= j < |db.sims| && db.sims[j].phoneNumber == Some(phone) {
      var j :| 0 <= j < |db.sims| && db.sims[j].phoneNumber == Some(phone);
      assert IsRegistered(db.subscribers, db.sims[j].phoneNumber.value);
    }
  }

  // ----- start state and seeding -----

  /** The database before the first start-up. */
  lemma EmptyIsConsistent()
    ensures Consistent(Db([], []))
  {
  }

  /**
   * connectToDatabase keeps consistency: a consistent database with an
   * empty pool has no binding at all, and the samples are distinct and free.
   */
  lemma SeedingKeepsConsistency(db: Db)
    requires Consistent(db)
    ensures Consistent(Db(Seeded(db.sims), db.subscribers))
  {
    if |db.sims| == 0 {
      var sims' := Seeded(db.sims);
      assert UniqueSimIds(sims') by {
        assert SampleSimIds[0] != SampleSimIds[1] by { assert SampleSimIds[0][3] != SampleSimIds[1][3]; }
        assert SampleSimIds[0] != SampleSimIds[2] by { assert SampleSimIds[0][3] != SampleSimIds[2][3]; }
        assert SampleSimIds[1] != SampleSimIds[2] by { assert SampleSimIds[1][3] != SampleSimIds[2][3]; }
      }
    }
  }

  // ----- register-phone -----

  /** A binding keeps its SIM when a SIM that held no number is overwritten. */
  lemma BackingSurvivesRebind(sims: seq<Sim>, m: int, s: Sim, b: Binding)
    requires Backed(sims, b) && 0 <= m < |sims| && sims[m].phoneNumber.None?
    ensures Backed(sims[m := s], b)
  {
    var j :| 0 <= j < |sims| && sims[j] == Sim(b.simId.value, Some(b.phoneNumber), false, Some(b.paymentPlan));
    assert sims[m := s][j] == sims[j];
  }

  /** A number that is bound stays bound when every earlier binding keeps its place. */
  lemma RegisteredSurvives(subs: seq<Subscriber>, subs': seq<Subscriber>, phone: string)
    requires IsRegistered(subs, phone)
    requires forall p, i, k :: BindsAt(subs, p, i, k) ==> BindsAt(subs', p, i, k)
    ensures IsRegistered(subs', phone)
  {
    var i :| 0 <= i < |subs| && HasBinding(subs[i].phoneNumbers, phone);
    var k :| 0 <= k < |subs[i].phoneNumbers| && subs[i].phoneNumbers[k].phoneNumber == phone;
    assert BindsAt(subs, phone, i, k);
    assert BindsAt(subs', phone, i, k);
  }

  /** Subscriber `i` has a binding at position `k`. */
  predicate ValidAt(subs: seq<Subscriber>, i: int, k: int) {
    0 <= i < |subs| && 0 <= k < |subs[i].phoneNumbers|
  }

  /** `subs'` has the bindings of `subs` at the same positions, plus one at (i0, k0). */
  ghost predicate AddsOneBinding(subs: seq<Subscriber>, subs': seq<Subscriber>, i0: int, k0: int) {
    && ValidAt(subs', i0, k0)
    && (forall i, k :: ValidAt(subs', i, k) && (i != i0 || k != k0)
          ==> ValidAt(subs, i, k) && subs'[i].phoneNumbers[k] == subs[i].phoneNumbers[k])
    && (forall i, k :: ValidAt(subs, i, k)
          ==> (i != i0 || k != k0) && ValidAt(subs', i, k) && subs'[i].phoneNumbers[k] == subs[i].phoneNumbers[k])
  }

  /**
   * Binding a free number to an available SIM, with a new binding at
   * position (i0, k0) and every other binding where it was, keeps the
   * database consistent.
   */
  lemma AddingBindingKeepsConsistency(db: Db, db': Db, m: int, i0: int, k0: int, b: Binding)
    requires Consistent(db)
    requires 0 <= m < |db.sims| && db.sims[m].isAvailable
    requires CheckPhoneAvailability(db, b.phoneNumber)
    requires b.simId == Some(db.sims[m].simId)
    requires db'.sims == db.sims[m := Sim(db.sims[m].simId, Some(b.phoneNumber), false, Some(b.paymentPlan))]
    requires UniqueIdNumbers(db'.subscribers)
    requires AddsOneBinding(db.subscribers, db'.subscribers, i0, k0)
    requires db'.subscribers[i0].phoneNumbers[k0] == b
    ensures Consistent(db')
  {
    var sims, subs, sims', subs' := db.sims, db.subscribers, db'.sims, db'.subscribers;
    var phone := b.phoneNumber;
    // The pool.
    assert PoolConsistent(sims');
    // The subscribers: the only new binding is for a number nobody bound.
    assert forall i, k :: !BindsAt(subs, phone, i, k);
    assert forall p, i, k :: BindsAt(subs', p, i, k) <==> BindsAt(subs, p, i, k) || (p == phone && i == i0 && k == k0);
    assert NumbersBoundOnce(subs');
    // Every binding is backed.
    forall i, k | 0 <= i < |subs'| && 0 <= k < |subs'[i].phoneNumbers|
      ensures Backed(sims', subs'[i].phoneNumbers[k])
    {
      assert ValidAt(subs', i, k);
      if i == i0 && k == k0 {
        assert sims'[m] == Sim(b.simId.value, Some(b.phoneNumber), false, Some(b.paymentPlan));
      } else {
        assert ValidAt(subs, i, k);
        assert Backed(sims, subs[i].phoneNumbers[k]);
        BackingSurvivesRebind(sims, m, sims'[m], subs[i].phoneNumbers[k]);
      }
    }
    // Every held number is bound.
    forall j | 0 <= j < |sims'| && sims'[j].phoneNumber.Some?
      ensures IsRegistered(subs', sims'[j].phoneNumber.value)
    {
      if j == m {
        assert HasBinding(subs'[i0].phoneNumbers, phone) by { assert subs'[i0].phoneNumbers[k0].phoneNumber == phone; }
      } else {
        RegisteredSurvives(subs, subs', sims[j].phoneNumber.value);
      }
    }
  }

  /** A new last subscriber with one binding adds exactly that binding. */
  lemma AppendingSubscriberAddsOneBinding(subs: seq<Subscriber>, x: Subscriber)
    requires UniqueIdNumbers(subs) && |x.phoneNumbers| == 1
    requires forall j :: 0 <= j < |subs| ==> subs[j].idNumber != x.idNumber
    ensures AddsOneBinding(subs, subs + [x], |subs|, 0)
    ensures UniqueIdNumbers(subs + [x])
  {
  }

  /** Appending a binding to subscriber `s`, its identity number kept, adds exactly that binding. */
  lemma PushingBindingAddsOneBinding(subs: seq<Subscriber>, s: int, x: Subscriber, b: Binding)
    requires UniqueIdNumbers(subs) && 0 <= s < |subs|
    requires x.idNumber == subs[s].idNumber && x.phoneNumbers == subs[s].phoneNumbers + [b]
    ensures AddsOneBinding(subs, subs[s := x], s, |subs[s].phoneNumbers|)
    ensures UniqueIdNumbers(subs[s := x])
  {
  }

  /**
   * registerSubscriber for a number nobody binds, once getSimIdForPhone
   * names `simId`: whether it creates the subscriber or appends to it,
   * exactly one binding is added, for the number, naming that SIM, and
   * identity numbers stay distinct.
   */
  lemma UpsertAddsOneBinding(sims: seq<Sim>, subs: seq<Subscriber>, idNumber: string, names: string,
                             surname: string, phone: string, plan: string, simId: string)
    requires UniqueIdNumbers(subs)
    requires forall j :: 0 <= j < |subs| ==> !HasBinding(subs[j].phoneNumbers, phone)
    requires GetSimIdForPhone(sims, phone) == Some(simId) && plan != ""
    ensures var subs' := UpsertSubscriber(sims, subs, idNumber, names, surname, phone, plan, true);
            && UniqueIdNumbers(subs')
            && exists i0, k0 :: AddsOneBinding(subs, subs', i0, k0)
                                && subs'[i0].phoneNumbers[k0] == Binding(phone, plan, Some(simId), true, None)
  {
    var subs' := UpsertSubscriber(sims, subs, idNumber, names, surname, phone, plan, true);
    var b := Binding(phone, plan, Some(simId), true, None);
    match FirstSubscriber(subs, IdNumberIs(idNumber))
    case None =>
      UpsertCreatesSubscriber(sims, subs, idNumber, names, surname, phone, plan, true);
      AppendingSubscriberAddsOneBinding(subs, Subscriber(idNumber, names, surname, [b]));
    case Some(s) =>
      assert IsFirstWithId(subs, idNumber, s);
      UpsertAppendsBinding(sims, subs, idNumber, names, surname, phone, plan, true, s);
      PushingBindingAddsOneBinding(subs, s, Subscriber(idNumber, names, surname, subs[s].phoneNumbers + [b]), b);
  }

  /**
   * registerSubscriber after a reservation, for a number that was free:
   * one binding naming the reserved SIM is added and consistency is kept.
   */
  lemma UpsertAfterReservationKeepsConsistency(db: Db, m: int, idNumber: string, names: string,
                                                surname: string, phone: string, plan: string)
    requires Consistent(db)
    requires 0 <= m < |db.sims| && db.sims[m].isAvailable
    requires CheckPhoneAvailability(db, phone) && plan != ""
    ensures var sims' := db.sims[m := Sim(db.sims[m].simId, Some(phone), false, Some(plan))];
            var subs' := UpsertSubscriber(sims', db.subscribers, idNumber, names, surname, phone, plan, true);
            && Consistent(Db(sims', subs'))
            && exists i0, k0 :: AddsOneBinding(db.subscribers, subs', i0, k0)
                                && subs'[i0].phoneNumbers[k0] == Binding(phone, plan, Some(db.sims[m].simId), true, None)
  {
    var sims' := db.sims[m := Sim(db.sims[m].simId, Some(phone), false, Some(plan))];
    var subs := db.subscribers;
    var subs' := UpsertSubscriber(sims', subs, idNumber, names, surname, phone, plan, true);
    assert sims'[m].phoneNumber == Some(phone);
    assert forall j :: 0 <= j < m ==> sims'[j].phoneNumber != Some(phone);
    assert GetSimIdForPhone(sims', phone) == Some(db.sims[m].simId);
    UpsertAddsOneBinding(sims', subs, idNumber, names, surname, phone, plan, db.sims[m].simId);
    var i0, k0 :| AddsOneBinding(subs, subs', i0, k0)
                  && subs'[i0].phoneNumbers[k0] == Binding(phone, plan, Some(db.sims[m].simId), true, None);
    AddingBindingKeepsConsistency(db, Db(sims', subs'), m, i0, k0, subs'[i0].phoneNumbers[k0]);
  }

  /**
   * `/api/register-phone` keeps the database consistent: rejections write
   * nothing, and a registration binds a free number to an available SIM and
   * to one new binding that names it.
   */
  lemma RegisterPhoneKeepsConsistency(db: Db, session: Session, req: RegisterRequest)
    requires Consistent(db)
    ensures Consistent(RegisterPhone(db, session, req).1)
  {
    if RegisterPhone(db, session, req).0 == Registered {
      var phone, plan := req.phoneNumber, OrDefault(req.paymentPlan);
      assert RegisterPhoneGuard(db, session, req).None?;
      var sims' := Reserve(db.sims, req.simId, phone, plan).0;
      var m :| 0 <= m < |db.sims| && db.sims[m].simId == req.simId && db.sims[m].isAvailable
               && sims' == db.sims[m := Sim(req.simId, Some(phone), false, Some(plan))];
      UpsertAfterReservationKeepsConsistency(db, m, session.idNumber, OrSession(req.names, session.name),
                                             OrSession(req.surname, session.surname), phone, plan);
    }
  }

  // ----- bindings updated in place -----

  /**
   * Replacing one binding by one for the same number keeps the subscribers
   * consistent and leaves every number bound where it was.
   */
  lemma ReplacingBindingKeepsSubscribers(subs: seq<Subscriber>, i0: int, k0: int, b': Binding)
    requires SubscribersConsistent(subs) && ValidAt(subs, i0, k0)
    requires b'.phoneNumber == subs[i0].phoneNumbers[k0].phoneNumber
    ensures var subs' := subs[i0 := subs[i0].(phoneNumbers := subs[i0].phoneNumbers[k0 := b'])];
            && SubscribersConsistent(subs')
            && (forall p, i, k :: BindsAt(subs', p, i, k) <==> BindsAt(subs, p, i, k))
            && (forall p :: IsRegistered(subs, p) ==> IsRegistered(subs', p))
  {
    var subs' := subs[i0 := subs[i0].(phoneNumbers := subs[i0].phoneNumbers[k0 := b'])];
    assert forall p, i, k :: BindsAt(subs', p, i, k) <==> BindsAt(subs, p, i, k);
    forall p | IsRegistered(subs, p)
      ensures IsRegistered(subs', p)
    {
      RegisteredSurvives(subs, subs', p);
    }
  }

  /**
   * `/api/toggle-number` keeps the database consistent: it changes at most
   * the activity flag of one binding, which no part of the invariant reads.
   */
  lemma ToggleNumberKeepsConsistency(db: Db, session: Session, phone: string, isActive: bool)
    requires Consistent(db)
    ensures Consistent(ToggleNumber(db, session, phone, isActive).1)
  {
    var subs := db.subscribers;
    var r := ToggleNumber(db, session, phone, isActive);
    if r.0.status == 200 {
      var i := FirstSubscriber(subs, IdNumberIs(session.idNumber)).value;
      assert IsFirstWithId(subs, session.idNumber, i);
      ToggleSetsOnlyIsActive(db, session, phone, isActive, i);
      var bs := subs[i].phoneNumbers;
      var k := FirstBinding(bs, phone).value;
      assert IsFirstBinding(bs, phone, k);
      var b' := bs[k].(isActive := isActive);
      ReplacingBindingKeepsSubscribers(subs, i, k, b');
      var subs' := subs[i := subs[i].(phoneNumbers := bs[k := b'])];
      assert r.1 == Db(db.sims, subs');
      assert forall i', k' :: ValidAt(subs', i', k') ==> Backed(db.sims, subs'[i'].phoneNumbers[k']) by {
        assert Backed(db.sims, bs[k]);
      }
    }
  }

  /** The pool after a number moves from SIM `o` to the free SIM `n`. */
  function MoveNumber(sims: seq<Sim>, o: int, n: int, phone: string, plan: string): seq<Sim>
    requires 0 <= o < |sims| && 0 <= n < |sims|
  {
    sims[o := Sim(sims[o].simId, None, true, None)][n := Sim(sims[n].simId, Some(phone), false, Some(plan))]
  }

  /** Moving a number between SIMs keeps the pool consistent. */
  lemma MovingNumberKeepsPool(sims: seq<Sim>, o: int, n: int, phone: string, plan: string)
    requires PoolConsistent(sims) && 0 <= o < |sims| && 0 <= n < |sims|
    requires sims[o].phoneNumber == Some(phone) && sims[n].isAvailable
    ensures PoolConsistent(MoveNumber(sims, o, n, phone, plan))
  {
    var sims' := MoveNumber(sims, o, n, phone, plan);
    assert forall j :: 0 <= j < |sims| && j != o && j != n ==> sims'[j] == sims[j];
    assert forall j :: 0 <= j < |sims| && j != o ==> sims[j].phoneNumber != Some(phone);
  }

  /**
   * The links after a swap: binding (i0, k0), held by SIM `o`, is re-pointed
   * to the free SIM `n`, which takes over the number.
   */
  lemma MovingNumberKeepsLink(db: Db, o: int, n: int, i0: int, k0: int)
    requires Consistent(db) && ValidAt(db.subscribers, i0, k0)
    requires 0 <= o < |db.sims| && 0 <= n < |db.sims| && db.sims[n].isAvailable
    requires var b := db.subscribers[i0].phoneNumbers[k0];
             db.sims[o] == Sim(b.simId.value, Some(b.phoneNumber), false, Some(b.paymentPlan))
    ensures var bs := db.subscribers[i0].phoneNumbers;
            var b := bs[k0];
            Linked(Db(MoveNumber(db.sims, o, n, b.phoneNumber, b.paymentPlan),
                      db.subscribers[i0 := db.subscribers[i0].(phoneNumbers :=
                        bs[k0 := b.(simId := Some(db.sims[n].simId), isActive := true)])]))
  {
    var sims, subs := db.sims, db.subscribers;
    var bs := subs[i0].phoneNumbers;
    var b := bs[k0];
    var phone, plan := b.phoneNumber, b.paymentPlan;
    var b' := b.(simId := Some(sims[n].simId), isActive := true);
    var subs' := subs[i0 := subs[i0].(phoneNumbers := bs[k0 := b'])];
    var sims' := MoveNumber(sims, o, n, phone, plan);
    ReplacingBindingKeepsSubscribers(subs, i0, k0, b');
    forall i, k | ValidAt(subs', i, k)
      ensures Backed(sims', subs'[i].phoneNumbers[k])
    {
      if i == i0 && k == k0 {
        assert sims'[n] == Sim(b'.simId.value, Some(phone), false, Some(plan));
      } else {
        var c := subs[i].phoneNumbers[k];
        assert c == subs'[i].phoneNumbers[k];
        assert c.phoneNumber != phone by { assert BindsAt(subs, c.phoneNumber, i, k) && BindsAt(subs, phone, i0, k0); }
        assert Backed(sims, c);
        var j :| 0 <= j < |sims| && sims[j] == Sim(c.simId.value, Some(c.phoneNumber), false, Some(c.paymentPlan));
        assert sims'[j] == sims[j];
      }
    }
    forall j | 0 <= j < |sims'| && sims'[j].phoneNumber.Some?
      ensures IsRegistered(subs', sims'[j].phoneNumber.value)
    {
      if j == n {
        assert BindsAt(subs', phone, i0, k0);
      } else {
        assert sims'[j] == sims[j];
        assert IsRegistered(subs, sims[j].phoneNumber.value);
      }
    }
  }

  /**
   * The writes of a swap, in a consistent database and for a binding whose
   * new SIM is available: the SIM the binding names is released, the new SIM
   * is bound, and the binding is re-pointed; consistency is kept.
   */
  lemma SwapKeepsConsistency(db: Db, sims': seq<Sim>, i0: int, k0: int, newSimId: string)
    requires Consistent(db) && ValidAt(db.subscribers, i0, k0)
    requires CheckSimAvailability(db.sims, newSimId).Some?
    requires var b := db.subscribers[i0].phoneNumbers[k0];
             && |sims'| == |db.sims|
             && forall j :: 0 <= j < |db.sims| ==>
                  sims'[j] == (if db.sims[j].simId == newSimId then Sim(newSimId, Some(b.phoneNumber), false, Some(b.paymentPlan))
                               else if IsFirstSimHolding(db.sims, b.phoneNumber, j) then Sim(db.sims[j].simId, None, true, None)
                               else db.sims[j])
    ensures var bs := db.subscribers[i0].phoneNumbers;
            Consistent(Db(sims', db.subscribers[i0 := db.subscribers[i0].(phoneNumbers :=
                                   bs[k0 := bs[k0].(simId := Some(newSimId), isActive := true)])]))
  {
    var sims, subs := db.sims, db.subscribers;
    var bs := subs[i0].phoneNumbers;
    var b := bs[k0];
    var phone, plan := b.phoneNumber, b.paymentPlan;
    // The SIM the binding names is the only, hence the first, holder of the number.
    assert Backed(sims, b);
    var o :| 0 <= o < |sims| && sims[o] == Sim(b.simId.value, Some(phone), false, Some(plan));
    assert forall j :: 0 <= j < |sims| ==> (IsFirstSimHolding(sims, phone, j) <==> j == o);
    // The new SIM is the only one with its identifier, and it holds no number.
    var n :| 0 <= n < |sims| && sims[n] == CheckSimAvailability(sims, newSimId).value;
    assert forall j :: 0 <= j < |sims| ==> (sims[j].simId == newSimId <==> j == n);
    assert sims' == MoveNumber(sims, o, n, phone, plan);
    MovingNumberKeepsPool(sims, o, n, phone, plan);
    ReplacingBindingKeepsSubscribers(subs, i0, k0, b.(simId := Some(newSimId), isActive := true));
    MovingNumberKeepsLink(db, o, n, i0, k0);
  }

  /**
   * `/api/sim-swap` keeps the database consistent: rejections write
   * nothing, and a swap that passes its checks moves the number from its
   * SIM to the new one and re-points the binding.
   */
  lemma SimSwapKeepsConsistency(db: Db, phone: string, newSimId: string, idNumber: string)
    requires Consistent(db)
    ensures Consistent(SimSwap(db, phone, newSimId, idNumber).1)
  {
    var subs := db.subscribers;
    SimSwapRejections(db, phone, newSimId, idNumber);
    if phone != "" && newSimId != "" && idNumber != "" && FirstSubscriber(subs, IdNumberIs(idNumber)).Some? {
      var i := FirstSubscriber(subs, IdNumberIs(idNumber)).value;
      assert IsFirstWithId(subs, idNumber, i);
      var bs := subs[i].phoneNumbers;
      if HasBinding(bs, phone) && CheckSimAvailability(db.sims, newSimId).Some? {
        var k := FirstBinding(bs, phone).value;
        assert IsFirstBinding(bs, phone, k);
        SimSwapRepointsBinding(db, phone, newSimId, idNumber, i, k);
        SimSwapMovesNumber(db, phone, newSimId, idNumber, bs[k].paymentPlan);
        SwapKeepsConsistency(db, SimSwap(db, phone, newSimId, idNumber).1.sims, i, k, newSimId);
      }
    }
  }
}
