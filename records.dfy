/**
 * The two record sets of the SIM/HSS database (the `simNumbers` and
 * `hssSubscribers` collections) and the MongoDB operations the core
 * performs on them, each modelled by what it does on an in-memory
 * sequence: `findOne` yields the first match, `updateOne` changes the
 * first match and reports whether anything matched, `$push` appends, and
 * the positional `phoneNumbers.$` update changes the first binding whose
 * phone number matches.
 */
module Records {
  import opened Wrappers

  /** A document of `simNumbers`. */
  datatype Sim = Sim(simId: string, phoneNumber: Option<string>, isAvailable: bool, paymentPlan: Option<string>)

  /**
   * One element of a subscriber's `phoneNumbers` array. `isAvailable` is
   * absent until a re-registration with a different plan writes it.
   */
  datatype Binding = Binding(phoneNumber: string, paymentPlan: string, simId: Option<string>,
                             isActive: bool, isAvailable: Option<bool>)

  /** A document of `hssSubscribers`. */
  datatype Subscriber = Subscriber(idNumber: string, names: string, surname: string, phoneNumbers: seq<Binding>)

  /** The contents of both collections at one instant. */
  datatype Db = Db(sims: seq<Sim>, subscribers: seq<Subscriber>)

  // ----- simNumbers -----

  /** The query documents used on `simNumbers`. */
  datatype SimFilter =
    | SimIdIs(simId: string)               // { simId }
    | AvailableSimIdIs(simId: string)      // { simId, isAvailable: true }
    | PhoneIs(phone: string)               // { phoneNumber }

  predicate SimMatches(f: SimFilter, s: Sim) {
    match f
    case SimIdIs(id) => s.simId == id
    case AvailableSimIdIs(id) => s.simId == id && s.isAvailable
    case PhoneIs(p) => s.phoneNumber == Some(p)
  }

  /** The position of the document `findOne(f)` and `updateOne(f, …)` act on. */
  function FirstSim(sims: seq<Sim>, f: SimFilter): (r: Option<nat>)
    ensures r.Some? ==> r.value < |sims| && SimMatches(f, sims[r.value])
    ensures r.Some? ==> forall j :: 0 <= j < r.value ==> !SimMatches(f, sims[j])
    ensures r.None? ==> forall j :: 0 <= j < |sims| ==> !SimMatches(f, sims[j])
  {
    FindIndex(sims, s => SimMatches(f, s))
  }

  /** `simNumbers.findOne(f)`. */
  function FindOneSim(sims: seq<Sim>, f: SimFilter): (r: Option<Sim>)
    ensures r.Some? <==> exists j :: 0 <= j < |sims| && SimMatches(f, sims[j])
    ensures r.Some? ==> SimMatches(f, r.value) && r.value in sims
    ensures r.Some? ==> exists i :: 0 <= i < |sims| && r.value == sims[i]
                                    && forall j :: 0 <= j < i ==> !SimMatches(f, sims[j])
  {
    match FirstSim(sims, f)
    case None => None
    case Some(i) => Some(sims[i])
  }

  /** The `$set` of every SIM update in the core: all three mutable fields at once. */
  datatype SimFields = SimFields(phoneNumber: Option<string>, isAvailable: bool, paymentPlan: Option<string>)

  function SetSim(s: Sim, u: SimFields): Sim {
    s.(phoneNumber := u.phoneNumber, isAvailable := u.isAvailable, paymentPlan := u.paymentPlan)
  }

  /** `simNumbers.updateOne(f, { $set: u })`: the new collection and whether a document matched. */
  function UpdateOneSim(sims: seq<Sim>, f: SimFilter, u: SimFields): (r: (seq<Sim>, bool))
    ensures |r.0| == |sims|
    ensures r.1 <==> exists j :: 0 <= j < |sims| && SimMatches(f, sims[j])
    ensures !r.1 ==> r.0 == sims
    ensures forall j :: 0 <= j < |sims| ==> r.0[j].simId == sims[j].simId
    ensures r.1 ==> exists i :: 0 <= i < |sims| && SimMatches(f, sims[i])
                                && (forall j :: 0 <= j < i ==> !SimMatches(f, sims[j]))
                                && r.0 == sims[i := SetSim(sims[i], u)]
  {
    match FirstSim(sims, f)
    case None => (sims, false)
    case Some(i) => (sims[i := SetSim(sims[i], u)], true)
  }

  // ----- hssSubscribers -----

  /** Whether some element of a `phoneNumbers` array carries `phone`. */
  predicate HasBinding(bs: seq<Binding>, phone: string) {
    exists k :: 0 <= k < |bs| && bs[k].phoneNumber == phone
  }

  /** `phoneNumbers.findIndex(p => p.phoneNumber === phone)`; also the element `phoneNumbers.$` denotes. */
  function FirstBinding(bs: seq<Binding>, phone: string): (r: Option<nat>)
    ensures r.Some? <==> HasBinding(bs, phone)
    ensures r.Some? ==> r.value < |bs| && bs[r.value].phoneNumber == phone
    ensures r.Some? ==> forall j :: 0 <= j < r.value ==> bs[j].phoneNumber != phone
  {
    FindIndex(bs, (b: Binding) => b.phoneNumber == phone)
  }

  /** Position `k` holds the first binding for `phone`: the element `phoneNumbers.$` denotes. */
  predicate IsFirstBinding(bs: seq<Binding>, phone: string, k: int) {
    0 <= k < |bs| && bs[k].phoneNumber == phone && forall j :: 0 <= j < k ==> bs[j].phoneNumber != phone
  }

  /** Position `i` holds the first subscriber with identity number `idNumber`. */
  predicate IsFirstWithId(subs: seq<Subscriber>, idNumber: string, i: int) {
    0 <= i < |subs| && subs[i].idNumber == idNumber && forall j :: 0 <= j < i ==> subs[j].idNumber != idNumber
  }

  /** The query documents used on `hssSubscribers`. */
  datatype SubscriberFilter =
    | IdNumberIs(idNumber: string)                           // { idNumber }
    | BindsPhone(phone: string)                              // { 'phoneNumbers.phoneNumber': phone }
    | IdNumberBindsPhone(idNumber: string, phone: string)    // both

  predicate SubscriberMatches(f: SubscriberFilter, s: Subscriber) {
    match f
    case IdNumberIs(id) => s.idNumber == id
    case BindsPhone(p) => HasBinding(s.phoneNumbers, p)
    case IdNumberBindsPhone(id, p) => s.idNumber == id && HasBinding(s.phoneNumbers, p)
  }

  /** The position of the document `findOne(f)` and `updateOne(f, …)` act on. */
  function FirstSubscriber(subs: seq<Subscriber>, f: SubscriberFilter): (r: Option<nat>)
    ensures r.Some? ==> r.value < |subs| && SubscriberMatches(f, subs[r.value])
    ensures r.Some? ==> forall j :: 0 <= j < r.value ==> !SubscriberMatches(f, subs[j])
    ensures r.None? ==> forall j :: 0 <= j < |subs| ==> !SubscriberMatches(f, subs[j])
  {
    FindIndex(subs, s => SubscriberMatches(f, s))
  }

  /** `hssSubscribers.findOne(f)`. */
  function FindOneSubscriber(subs: seq<Subscriber>, f: SubscriberFilter): (r: Option<Subscriber>)
    ensures r.Some? <==> exists j :: 0 <= j < |subs| && SubscriberMatches(f, subs[j])
    ensures r.Some? ==> SubscriberMatches(f, r.value) && r.value in subs
    ensures r.Some? ==> exists i :: 0 <= i < |subs| && r.value == subs[i]
                                    && forall j :: 0 <= j < i ==> !SubscriberMatches(f, subs[j])
  {
    match FirstSubscriber(subs, f)
    case None => None
    case Some(i) => Some(subs[i])
  }

  /** The fields named by a positional `$set` on `phoneNumbers.$`; None leaves a field as it is. */
  datatype BindingFields = BindingFields(paymentPlan: Option<string>, simId: Option<string>,
                                         isActive: Option<bool>, isAvailable: Option<bool>)

  function SetBinding(b: Binding, u: BindingFields): Binding {
    b.(paymentPlan := if u.paymentPlan.Some? then u.paymentPlan.value else b.paymentPlan,
       simId := if u.simId.Some? then u.simId else b.simId,
       isActive := if u.isActive.Some? then u.isActive.value else b.isActive,
       isAvailable := if u.isAvailable.Some? then u.isAvailable else b.isAvailable)
  }

  /**
   * `hssSubscribers.updateOne({ idNumber, 'phoneNumbers.phoneNumber': phone },
   * { $set: { 'phoneNumbers.$.…': … } })`: the first subscriber with that
   * identity number that binds `phone` has its first binding for `phone`
   * updated.
   */
  function UpdateBindingWhere(subs: seq<Subscriber>, idNumber: string, phone: string, u: BindingFields)
    : (r: (seq<Subscriber>, bool))
    ensures |r.0| == |subs|
    ensures r.1 <==> exists j :: 0 <= j < |subs| && SubscriberMatches(IdNumberBindsPhone(idNumber, phone), subs[j])
    ensures !r.1 ==> r.0 == subs
    ensures r.1 ==> exists i, k :: 0 <= i < |subs| && subs[i].idNumber == idNumber
                                   && (forall j :: 0 <= j < i ==> !SubscriberMatches(IdNumberBindsPhone(idNumber, phone), subs[j]))
                                   && IsFirstBinding(subs[i].phoneNumbers, phone, k)
                                   && r.0 == subs[i := subs[i].(phoneNumbers := subs[i].phoneNumbers[k := SetBinding(subs[i].phoneNumbers[k], u)])]
  {
    match FirstSubscriber(subs, IdNumberBindsPhone(idNumber, phone))
    case None => (subs, false)
    case Some(i) =>
      var bs := subs[i].phoneNumbers;
      var k := FirstBinding(bs, phone).value;
      (subs[i := subs[i].(phoneNumbers := bs[k := SetBinding(bs[k], u)])], true)
  }

  /**
   * `hssSubscribers.updateOne({ idNumber }, { $push: { phoneNumbers: b },
   * $set: { names, surname } })`.
   */
  function PushBinding(subs: seq<Subscriber>, idNumber: string, b: Binding, names: string, surname: string)
    : (r: (seq<Subscriber>, bool))
    ensures |r.0| == |subs|
    ensures r.1 <==> exists j :: 0 <= j < |subs| && subs[j].idNumber == idNumber
    ensures !r.1 ==> r.0 == subs
    ensures r.1 ==> exists i :: IsFirstWithId(subs, idNumber, i)
                                && r.0 == subs[i := Subscriber(idNumber, names, surname, subs[i].phoneNumbers + [b])]
  {
    match FirstSubscriber(subs, IdNumberIs(idNumber))
    case None => (subs, false)
    case Some(i) =>
      (subs[i := subs[i].(names := names, surname := surname,
                          phoneNumbers := subs[i].phoneNumbers + [b])], true)
  }
}
