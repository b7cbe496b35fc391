/**
 * The SIM/HSS data layer (verification-app/database.js): seeding of the SIM
 * pool, the read-only queries, the conditional SIM reservation and the
 * subscriber upsert. Queries are functions of the collections; the
 * operations that write are methods of `Store`, each proved against the
 * function that states its effect.
 */
module Database {
  import opened Wrappers
  import opened Records

  /** The plan written when a request names none (`paymentPlan || 'Default'`). */
  const DefaultPlan: string := "Default"

  /** `plan || 'Default'`: an empty (or absent) plan becomes the default one. */
  function OrDefault(plan: string): (r: string)
    ensures r != ""
    ensures plan != "" ==> r == plan
    ensures plan == "" ==> r == DefaultPlan
  {
    if plan == "" then DefaultPlan else plan
  }

  // ----- seeding (connectToDatabase) -----

  /** The identifiers of the sample SIMs inserted into an empty pool, in insertion order. */
  const SampleSimIds: seq<string> := ["SIM1234567890", "SIM9876543210", "SIM5555555555"]

  /** A SIM as seeded: available, no phone number, no plan. */
  function FreshSim(simId: string): Sim {
    Sim(simId, None, true, None)
  }

  /** The pool after connectToDatabase: the samples are inserted only when the pool is empty. */
  function Seeded(sims: seq<Sim>): (r: seq<Sim>)
    ensures |sims| > 0 ==> r == sims
    ensures |sims| == 0 ==> |r| == |SampleSimIds| && forall i :: 0 <= i < |r| ==> r[i] == FreshSim(SampleSimIds[i])
    ensures r != []
  {
    if |sims| == 0 then sims + [FreshSim(SampleSimIds[0]), FreshSim(SampleSimIds[1]), FreshSim(SampleSimIds[2])]
    else sims
  }

  /** Seeding is idempotent: a second start-up leaves the pool as the first one made it. */
  lemma SeedTwiceIsSeedOnce(sims: seq<Sim>)
    ensures Seeded(Seeded(sims)) == Seeded(sims)
  {
  }

  // ----- queries -----

  /** checkSimAvailability: the first SIM with this identifier that is available, if any. */
  function CheckSimAvailability(sims: seq<Sim>, simId: string): (r: Option<Sim>)
    ensures r.Some? ==> r.value.simId == simId && r.value.isAvailable && r.value in sims
    ensures r.None? <==> forall j :: 0 <= j < |sims| ==> !(sims[j].simId == simId && sims[j].isAvailable)
  {
    FindOneSim(sims, AvailableSimIdIs(simId))
  }

  /** One position of an anchored regular expression without repetition. */
  datatype CharClass = Lit(c: char) | OneOf(cs: string) | Digit

  predicate InClass(k: CharClass, c: char) {
    match k
    case Lit(d) => c == d
    case OneOf(cs) => c in cs
    case Digit => '0' <= c <= '9'
  }

  /** /^\+2687[68]\d{6}$/ with `\d{6}` written out: JavaScript's `\d` is the ASCII digits. */
  const PhonePattern: seq<CharClass> :=
    [Lit('+'), Lit('2'), Lit('6'), Lit('8'), Lit('7'), OneOf("68"),
     Digit, Digit, Digit, Digit, Digit, Digit]

  /** `pattern.test(s)` for an anchored pattern: one character per position, nothing before or after. */
  predicate FullMatch(pattern: seq<CharClass>, s: string) {
    |s| == |pattern| && forall i :: 0 <= i < |s| ==> InClass(pattern[i], s[i])
  }

  /**
   * validatePhoneNumber: `+2687`, then `6` or `8`, then six ASCII digits.
   * Every string the pattern accepts has length 12, so the length test
   * never changes the outcome.
   */
  function ValidatePhoneNumber(phone: string): (ok: bool)
    ensures ok <==> |phone| == 12 && phone[..5] == "+2687" && (phone[5] == '6' || phone[5] == '8')
                    && forall i :: 6 <= i < 12 ==> '0' <= phone[i] <= '9'
    ensures ok == FullMatch(PhonePattern, phone)
  {
    var ok := FullMatch(PhonePattern, phone) && |phone| == 12;
    assert ok ==> phone[..5] == "+2687" by {
      if ok {
        assert forall i :: 0 <= i < 5 ==> phone[i] == "+2687"[i] by {
          forall i | 0 <= i < 5 ensures phone[i] == "+2687"[i] {
            assert InClass(PhonePattern[i], phone[i]);
          }
        }
      }
    }
    assert (|phone| == 12 && phone[..5] == "+2687" && (phone[5] == '6' || phone[5] == '8')
            && forall i :: 6 <= i < 12 ==> '0' <= phone[i] <= '9') ==> ok by {
      if |phone| == 12 && phone[..5] == "+2687" {
        assert forall i :: 0 <= i < 5 ==> phone[i] == "+2687"[i];
      }
    }
    ok
  }

  /** checkPhoneAvailability: no SIM holds the number and no subscriber binds it. */
  function CheckPhoneAvailability(db: Db, phone: string): (free: bool)
    ensures free <==> (forall j :: 0 <= j < |db.sims| ==> db.sims[j].phoneNumber != Some(phone))
                      && (forall j :: 0 <= j < |db.subscribers| ==> !HasBinding(db.subscribers[j].phoneNumbers, phone))
  {
    FindOneSim(db.sims, PhoneIs(phone)).None? && FindOneSubscriber(db.subscribers, BindsPhone(phone)).None?
  }

  /** getSimIdForPhone: the identifier of the first SIM holding the number, or null. */
  function GetSimIdForPhone(sims: seq<Sim>, phone: string): (r: Option<string>)
    ensures r.None? <==> forall j :: 0 <= j < |sims| ==> sims[j].phoneNumber != Some(phone)
    ensures forall j :: 0 <= j < |sims| && sims[j].phoneNumber == Some(phone)
                        && (forall i :: 0 <= i < j ==> sims[i].phoneNumber != Some(phone))
                        ==> r == Some(sims[j].simId)
  {
    match FindOneSim(sims, PhoneIs(phone))
    case None => None
    case Some(sim) => Some(sim.simId)
  }

  // ----- writes -----

  /**
   * registerPhoneNumber: `updateOne({ simId, isAvailable: true }, { $set: … })`.
   * On success exactly the first available SIM with this identifier is bound
   * to the number with the plan; otherwise (the JavaScript throws) the pool
   * is unchanged.
   */
  function Reserve(sims: seq<Sim>, simId: string, phone: string, plan: string): (r: (seq<Sim>, bool))
    ensures r.1 <==> CheckSimAvailability(sims, simId).Some?
    ensures !r.1 ==> r.0 == sims
    ensures r.1 ==> exists i :: 0 <= i < |sims| && sims[i].simId == simId && sims[i].isAvailable
                                && (forall j :: 0 <= j < i ==> !(sims[j].simId == simId && sims[j].isAvailable))
                                && r.0 == sims[i := Sim(simId, Some(phone), false, Some(plan))]
  {
    UpdateOneSim(sims, AvailableSimIdIs(simId), SimFields(Some(phone), false, Some(plan)))
  }

  /** Pool identifiers are distinct: seeding makes them so and no write changes an identifier. */
  predicate UniqueSimIds(sims: seq<Sim>) {
    forall i, j :: 0 <= i < j < |sims| ==> sims[i].simId != sims[j].simId
  }

  /** Once a SIM is reserved, reserving it again fails and changes nothing. */
  lemma SecondReservationFails(sims: seq<Sim>, simId: string, phone: string, plan: string,
                               phone': string, plan': string)
    requires UniqueSimIds(sims)
    requires Reserve(sims, simId, phone, plan).1
    ensures !Reserve(Reserve(sims, simId, phone, plan).0, simId, phone', plan').1
    ensures Reserve(Reserve(sims, simId, phone, plan).0, simId, phone', plan').0 == Reserve(sims, simId, phone, plan).0
  {
    var after := Reserve(sims, simId, phone, plan).0;
    var i :| 0 <= i < |sims| && sims[i].simId == simId && sims[i].isAvailable
             && after == sims[i := Sim(simId, Some(phone), false, Some(plan))];
    forall j | 0 <= j < |after|
      ensures !(after[j].simId == simId && after[j].isAvailable)
    {
      if j != i {
        assert after[j] == sims[j];
        assert sims[j].simId != sims[i].simId by {
          if j < i { assert sims[j].simId != sims[i].simId; } else { assert sims[i].simId != sims[j].simId; }
        }
      }
    }
  }

  /** The binding registerSubscriber builds for a number it has not seen on this subscriber. */
  function NewBinding(phone: string, plan: string, simId: Option<string>, isActive: bool): Binding {
    Binding(phone, OrDefault(plan), simId, isActive, None)
  }

  /** `sim ? sim.isAvailable : false` for the SIM `findOne({ simId })` returns, `simId` being getSimIdForPhone's answer. */
  function BoundSimAvailable(sims: seq<Sim>, phone: string): (r: bool)
    ensures r <==> exists j :: 0 <= j < |sims| && GetSimIdForPhone(sims, phone) == Some(sims[j].simId)
                               && (forall l :: 0 <= l < j ==> sims[l].simId != sims[j].simId)
                               && sims[j].isAvailable
  {
    match GetSimIdForPhone(sims, phone)
    case None => false
    case Some(id) =>
      match FindOneSim(sims, SimIdIs(id))
      case None => false
      case Some(sim) => sim.isAvailable
  }

  /**
   * registerSubscriber: the subscriber collection after registering `phone`
   * for identity number `idNumber`.
   */
  function UpsertSubscriber(sims: seq<Sim>, subs: seq<Subscriber>, idNumber: string, names: string,
                            surname: string, phone: string, plan: string, isActive: bool)
    : (r: seq<Subscriber>)
    ensures |subs| <= |r| <= |subs| + 1
    ensures forall j :: 0 <= j < |subs| && subs[j].idNumber != idNumber ==> r[j] == subs[j]
    ensures exists i :: 0 <= i < |r| && r[i].idNumber == idNumber && HasBinding(r[i].phoneNumbers, phone)
  {
    var simId := GetSimIdForPhone(sims, phone);
    match FindOneSubscriber(subs, IdNumberIs(idNumber))
    case None =>
      var created := Subscriber(idNumber, names, surname, [NewBinding(phone, plan, simId, isActive)]);
      assert (subs + [created])[|subs|] == created && created.phoneNumbers[0].phoneNumber == phone;
      subs + [created]
    case Some(subscriber) =>
      match FirstBinding(subscriber.phoneNumbers, phone)
      case None =>
        var b := NewBinding(phone, plan, simId, isActive);
        var r := PushBinding(subs, idNumber, b, names, surname).0;
        var i :| IsFirstWithId(subs, idNumber, i)
                 && r == subs[i := Subscriber(idNumber, names, surname, subs[i].phoneNumbers + [b])];
        assert (subs[i].phoneNumbers + [b])[|subs[i].phoneNumbers|] == b;
        assert HasBinding(r[i].phoneNumbers, phone);
        r
      case Some(k) =>
        if subscriber.phoneNumbers[k].paymentPlan != plan then
          var u := BindingFields(Some(OrDefault(plan)), None, Some(isActive), Some(BoundSimAvailable(sims, phone)));
          assert SubscriberMatches(IdNumberBindsPhone(idNumber, phone), subscriber);
          var r := UpdateBindingWhere(subs, idNumber, phone, u).0;
          var i, k' :| 0 <= i < |subs| && subs[i].idNumber == idNumber
                       && IsFirstBinding(subs[i].phoneNumbers, phone, k')
                       && r == subs[i := subs[i].(phoneNumbers := subs[i].phoneNumbers[k' := SetBinding(subs[i].phoneNumbers[k'], u)])];
          assert r[i].phoneNumbers[k'].phoneNumber == phone;
          r
        else subs
  }

  /** registerSubscriber, unknown identity: one new subscriber, at the end, with exactly one binding. */
  lemma UpsertCreatesSubscriber(sims: seq<Sim>, subs: seq<Subscriber>, idNumber: string, names: string,
                                surname: string, phone: string, plan: string, isActive: bool)
    requires forall j :: 0 <= j < |subs| ==> subs[j].idNumber != idNumber
    ensures UpsertSubscriber(sims, subs, idNumber, names, surname, phone, plan, isActive)
            == subs + [Subscriber(idNumber, names, surname,
                                  [Binding(phone, OrDefault(plan), GetSimIdForPhone(sims, phone), isActive, None)])]
  {
  }

  /** FirstSubscriber finds the first position with a matching identity number. */
  lemma FirstWithIdIsFound(subs: seq<Subscriber>, idNumber: string, i: int)
    requires IsFirstWithId(subs, idNumber, i)
    ensures FirstSubscriber(subs, IdNumberIs(idNumber)) == Some(i)
  {
    assert SubscriberMatches(IdNumberIs(idNumber), subs[i]);
  }

  /**
   * The first subscriber with an identity number, when it binds `phone`, is
   * also the one the filter `{ idNumber, 'phoneNumbers.phoneNumber': phone }`
   * selects.
   */
  lemma FirstWithIdBindingPhoneIsFound(subs: seq<Subscriber>, idNumber: string, phone: string, i: int)
    requires IsFirstWithId(subs, idNumber, i) && HasBinding(subs[i].phoneNumbers, phone)
    ensures FirstSubscriber(subs, IdNumberBindsPhone(idNumber, phone)) == Some(i)
  {
    assert SubscriberMatches(IdNumberBindsPhone(idNumber, phone), subs[i]);
  }

  /** FirstBinding finds the first binding for the number. */
  lemma FirstBindingIsFound(bs: seq<Binding>, phone: string, k: int)
    requires IsFirstBinding(bs, phone, k)
    ensures FirstBinding(bs, phone) == Some(k)
  {
    assert HasBinding(bs, phone);
  }

  /**
   * registerSubscriber, known identity without this number: exactly one
   * binding is appended, names and surname are overwritten, the earlier
   * bindings and every other subscriber stay as they were.
   */
  lemma UpsertAppendsBinding(sims: seq<Sim>, subs: seq<Subscriber>, idNumber: string, names: string,
                             surname: string, phone: string, plan: string, isActive: bool, i: int)
    requires IsFirstWithId(subs, idNumber, i) && !HasBinding(subs[i].phoneNumbers, phone)
    ensures UpsertSubscriber(sims, subs, idNumber, names, surname, phone, plan, isActive)
            == subs[i := Subscriber(idNumber, names, surname,
                                    subs[i].phoneNumbers
                                    + [Binding(phone, OrDefault(plan), GetSimIdForPhone(sims, phone), isActive, None)])]
  {
    FirstWithIdIsFound(subs, idNumber, i);
  }

  /** registerSubscriber, known identity with this number and the same plan: nothing is written. */
  lemma UpsertSamePlanWritesNothing(sims: seq<Sim>, subs: seq<Subscriber>, idNumber: string, names: string,
                                    surname: string, phone: string, plan: string, isActive: bool, i: int, k: int)
    requires IsFirstWithId(subs, idNumber, i) && IsFirstBinding(subs[i].phoneNumbers, phone, k)
    requires subs[i].phoneNumbers[k].paymentPlan == plan
    ensures UpsertSubscriber(sims, subs, idNumber, names, surname, phone, plan, isActive) == subs
  {
    FirstWithIdIsFound(subs, idNumber, i);
    FirstBindingIsFound(subs[i].phoneNumbers, phone, k);
  }

  /**
   * registerSubscriber, known identity with this number and another plan:
   * only plan, isAvailable and isActive of that first binding change; names
   * and surname are not refreshed.
   */
  lemma UpsertOtherPlanUpdatesBinding(sims: seq<Sim>, subs: seq<Subscriber>, idNumber: string, names: string,
                                      surname: string, phone: string, plan: string, isActive: bool, i: int, k: int)
    requires IsFirstWithId(subs, idNumber, i) && IsFirstBinding(subs[i].phoneNumbers, phone, k)
    requires subs[i].phoneNumbers[k].paymentPlan != plan
    ensures UpsertSubscriber(sims, subs, idNumber, names, surname, phone, plan, isActive)
            == subs[i := subs[i].(phoneNumbers := subs[i].phoneNumbers[k := subs[i].phoneNumbers[k].(
                 paymentPlan := OrDefault(plan), isAvailable := Some(BoundSimAvailable(sims, phone)),
                 isActive := isActive)])]
  {
    FirstWithIdIsFound(subs, idNumber, i);
    FirstBindingIsFound(subs[i].phoneNumbers, phone, k);
    assert HasBinding(subs[i].phoneNumbers, phone);
    FirstWithIdBindingPhoneIsFound(subs, idNumber, phone, i);
  }

  /** Reserving a SIM for a number no SIM holds makes getSimIdForPhone answer that SIM. */
  lemma ReservedSimHoldsFreeNumber(sims: seq<Sim>, simId: string, phone: string, plan: string)
    requires Reserve(sims, simId, phone, plan).1
    requires forall j :: 0 <= j < |sims| ==> sims[j].phoneNumber != Some(phone)
    ensures GetSimIdForPhone(Reserve(sims, simId, phone, plan).0, phone) == Some(simId)
  {
    var sims' := Reserve(sims, simId, phone, plan).0;
    var i :| 0 <= i < |sims| && sims' == sims[i := Sim(simId, Some(phone), false, Some(plan))];
    assert sims'[i].phoneNumber == Some(phone);
    assert forall j :: 0 <= j < i ==> sims'[j].phoneNumber != Some(phone);
  }

  /**
   * registerSubscriber for a number nobody binds: the first subscriber with
   * the identity number ends up with the new binding as its last one, and
   * that is its only binding for the number.
   */
  lemma UpsertFreeNumberAppendsLast(sims: seq<Sim>, subs: seq<Subscriber>, idNumber: string, names: string,
                                    surname: string, phone: string, plan: string, isActive: bool)
    requires forall j :: 0 <= j < |subs| ==> !HasBinding(subs[j].phoneNumbers, phone)
    ensures var subs' := UpsertSubscriber(sims, subs, idNumber, names, surname, phone, plan, isActive);
            exists s :: IsFirstWithId(subs', idNumber, s)
                        && var bs := subs'[s].phoneNumbers;
                        && |bs| > 0
                        && IsFirstBinding(bs, phone, |bs| - 1)
                        && bs[|bs| - 1] == NewBinding(phone, plan, GetSimIdForPhone(sims, phone), isActive)
  {
    var subs' := UpsertSubscriber(sims, subs, idNumber, names, surname, phone, plan, isActive);
    match FirstSubscriber(subs, IdNumberIs(idNumber))
    case None =>
      UpsertCreatesSubscriber(sims, subs, idNumber, names, surname, phone, plan, isActive);
      assert IsFirstWithId(subs', idNumber, |subs|);
      assert IsFirstBinding(subs'[|subs|].phoneNumbers, phone, 0);
    case Some(s) =>
      assert IsFirstWithId(subs, idNumber, s);
      UpsertAppendsBinding(sims, subs, idNumber, names, surname, phone, plan, isActive, s);
      var bs' := subs'[s].phoneNumbers;
      assert bs' == subs[s].phoneNumbers + [NewBinding(phone, plan, GetSimIdForPhone(sims, phone), isActive)];
      assert IsFirstWithId(subs', idNumber, s);
      assert IsFirstBinding(bs', phone, |bs'| - 1);
  }

  /** The two collections of the `faceRecognition` database, updated in place. */
  class Store {
    var sims: seq<Sim>
    var subscribers: seq<Subscriber>

    /** A database before connectToDatabase has run: both collections empty. */
    constructor ()
      ensures sims == [] && subscribers == []
    {
      sims := [];
      subscribers := [];
    }

    function Snapshot(): Db
      reads this
    {
      Db(sims, subscribers)
    }

    /** connectToDatabase: `countDocuments`, then `insertMany` of the samples into an empty pool. */
    method Seed()
      modifies this
      ensures sims == Seeded(old(sims))
      ensures subscribers == old(subscribers)
    {
      var existingSims := |sims|;
      if existingSims == 0 {
        sims := sims + [FreshSim(SampleSimIds[0]), FreshSim(SampleSimIds[1]), FreshSim(SampleSimIds[2])];
      }
    }

    /** `simNumbers.updateOne(f, { $set: u })`; `matched` is whether a document matched. */
    method UpdateSim(f: SimFilter, u: SimFields) returns (matched: bool)
      modifies this
      ensures (sims, matched) == UpdateOneSim(old(sims), f, u)
      ensures subscribers == old(subscribers)
    {
      var i := FirstSim(sims, f);
      if i.Some? {
        sims := sims[i.value := SetSim(sims[i.value], u)];
      }
      matched := i.Some?;
    }

    /** `hssSubscribers.updateOne({ idNumber, 'phoneNumbers.phoneNumber': phone }, { $set: { 'phoneNumbers.$.…' } })`. */
    method UpdateBinding(idNumber: string, phone: string, u: BindingFields) returns (matched: bool)
      modifies this
      ensures (subscribers, matched) == UpdateBindingWhere(old(subscribers), idNumber, phone, u)
      ensures sims == old(sims)
    {
      var i := FirstSubscriber(subscribers, IdNumberBindsPhone(idNumber, phone));
      if i.Some? {
        var phoneNumbers := subscribers[i.value].phoneNumbers;
        var k := FirstBinding(phoneNumbers, phone).value;
        subscribers := subscribers[i.value := subscribers[i.value].(phoneNumbers := phoneNumbers[k := SetBinding(phoneNumbers[k], u)])];
      }
      matched := i.Some?;
    }

    /** registerPhoneNumber; `ok` is false where the JavaScript throws 'SIM not available or invalid'. */
    method RegisterPhoneNumber(simId: string, phone: string, plan: string) returns (ok: bool)
      modifies this
      ensures (sims, ok) == Reserve(old(sims), simId, phone, plan)
      ensures subscribers == old(subscribers)
    {
      ok := UpdateSim(AvailableSimIdIs(simId), SimFields(Some(phone), false, Some(plan)));
    }

    /** registerSubscriber: insert, push or positional update, as UpsertSubscriber states. */
    method RegisterSubscriber(idNumber: string, names: string, surname: string, phone: string,
                              plan: string, isActive: bool)
      modifies this
      ensures sims == old(sims)
      ensures subscribers == UpsertSubscriber(old(sims), old(subscribers), idNumber, names, surname,
                                              phone, plan, isActive)
    {
      var simId := GetSimIdForPhone(sims, phone);
      var sim := if simId.Some? then FindOneSim(sims, SimIdIs(simId.value)) else None;
      var isAvailable := if sim.Some? then sim.value.isAvailable else false;
      var subscriber := FindOneSubscriber(subscribers, IdNumberIs(idNumber));
      if subscriber.Some? {
        var phoneNumbers := subscriber.value.phoneNumbers;
        var existingPhoneIndex := FirstBinding(phoneNumbers, phone);
        if existingPhoneIndex.None? {
          var pushed := PushBinding(subscribers, idNumber, NewBinding(phone, plan, simId, isActive), names, surname);
          subscribers := pushed.0;
        } else if phoneNumbers[existingPhoneIndex.value].paymentPlan != plan {
          var _ := UpdateBinding(idNumber, phone,
                                 BindingFields(Some(OrDefault(plan)), None, Some(isActive), Some(isAvailable)));
        }
      } else {
        subscribers := subscribers + [Subscriber(idNumber, names, surname, [NewBinding(phone, plan, simId, isActive)])];
      }
    }
  }
}
