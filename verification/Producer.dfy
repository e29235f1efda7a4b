/** The producer's subscriber registry, the generator that is its only writer, and the
    run loop; and why one run never gives two subscribers the same number. */
module Producer {
  import opened Base
  import opened Schemas
  import opened Catalog
  import opened Rules
  import opened Events
  import opened Warehouse
  import opened Records

  datatype Subscriber = Subscriber(subscriberId: int, msisdn: string, plan: string, province: string)

  const FIRST_ID: int := 10001

  /** Ids rise from the first one and stay below the next, and no number is given twice. */
  ghost predicate InOrder(subscribers: seq<Subscriber>, next: int) {
    && (forall i :: 0 <= i < |subscribers| ==> FIRST_ID <= subscribers[i].subscriberId < next)
    && (forall i, j :: 0 <= i < j < |subscribers| ==>
          && subscribers[i].subscriberId < subscribers[j].subscriberId
          && subscribers[i].msisdn != subscribers[j].msisdn)
  }

  function MsisdnsOf(subscribers: seq<Subscriber>): set<string> { set s | s in subscribers :: s.msisdn }

  lemma MsisdnsSnoc(subscribers: seq<Subscriber>, s: Subscriber)
    requires s.msisdn !in MsisdnsOf(subscribers)
    ensures MsisdnsOf(subscribers + [s]) == MsisdnsOf(subscribers) + {s.msisdn}
    ensures |MsisdnsOf(subscribers + [s])| == |MsisdnsOf(subscribers)| + 1
  {
  }

  /** A subscriber under the next id, with a number not taken, keeps the order. */
  lemma InOrderSnoc(subscribers: seq<Subscriber>, s: Subscriber)
    requires InOrder(subscribers, s.subscriberId) && FIRST_ID <= s.subscriberId && s.msisdn !in MsisdnsOf(subscribers)
    ensures InOrder(subscribers + [s], s.subscriberId + 1)
  {
    assert forall i :: 0 <= i < |subscribers| ==> subscribers[i] in subscribers;
  }

  class SubscriberRegistry {
    var subscribers: seq<Subscriber>
    var msisdns: set<string>
    var nextId: int

    /** The set of numbers is exactly that of the list, and no number is in it twice. */
    ghost predicate Valid()
      reads this
    {
      msisdns == MsisdnsOf(subscribers) && |msisdns| == |subscribers|
    }

    /** Every registered id came from NextSubscriberId, in order of registration. */
    ghost predicate Ordered()
      reads this
    {
      nextId >= FIRST_ID && InOrder(subscribers, nextId)
    }

    constructor ()
      ensures Valid() && Ordered() && subscribers == [] && nextId == 10001
    {
      subscribers, msisdns, nextId := [], {}, FIRST_ID;
    }

    method NextSubscriberId() returns (id: int)
      modifies this`nextId
      ensures id == old(nextId) && nextId == id + 1
    {
      id := nextId;
      nextId := nextId + 1;
    }

    /** Refuses a number that is taken, whatever the id. */
    method Add(s: Subscriber) returns (ok: bool)
      requires Valid()
      modifies this`subscribers, this`msisdns
      ensures Valid()
      ensures ok == (s.msisdn !in old(msisdns))
      ensures subscribers == if ok then old(subscribers) + [s] else old(subscribers)
    {
      hide MsisdnsOf;
      ok := s.msisdn !in msisdns;
      if ok {
        MsisdnsSnoc(subscribers, s);
        subscribers := subscribers + [s];
        msisdns := msisdns + {s.msisdn};
      }
    }
  }

  // ----- the subscriber generator -----

  function Digit(n: nat): char
    requires n < 10
  {
    "0123456789"[n]
  }

  /** The last `width` decimal digits, with leading zeros. */
  function Padded(n: nat, width: nat): (s: string)
    ensures |s| == width && forall i :: 0 <= i < |s| ==> '0' <= s[i] <= '9'
  {
    if width == 0 then [] else Padded(n / 10, width - 1) + [Digit(n % 10)]
  }

  /** One draw of a number: the network digit and the eight that follow. */
  datatype Draw = Draw(network: nat, rest: nat)

  function NumberOf(d: Draw): (s: string)
    ensures |s| == 11 && s[0] == '2' && s[1] == '7' && forall i :: 0 <= i < |s| ==> '0' <= s[i] <= '9'
  {
    "27" + [Digit(6 + d.network % 3)] + Padded(d.rest % 100_000_000, 8)
  }

  function Pow10(n: nat): (p: int)
    ensures p > 0
  {
    if n == 0 then 1 else 10 * Pow10(n - 1)
  }

  /** The number some decimal digits write. */
  function Decimal(s: string): int {
    if s == [] then 0 else 10 * Decimal(s[..|s| - 1]) + (s[|s| - 1] as int - '0' as int)
  }

  lemma DecimalSnoc(s: string, c: char)
    ensures Decimal(s + [c]) == 10 * Decimal(s) + (c as int - '0' as int)
  {
    assert (s + [c])[..|s|] == s;
  }

  lemma TenTimes(x: int, q: int)
    ensures 10 * (x * q) == x * (10 * q)
  {
  }

  lemma {:induction false} DecimalAppend(a: string, b: string)
    ensures Decimal(a + b) == Decimal(a) * Pow10(|b|) + Decimal(b)
  {
    if b == [] {
      assert a + b == a;
    } else {
      hide Decimal;
      var n := |b| - 1;
      DecimalAppend(a, b[..n]);
      assert a + b == a + b[..n] + [b[n]] && b == b[..n] + [b[n]];
      DecimalSnoc(a + b[..n], b[n]);
      DecimalSnoc(b[..n], b[n]);
      TenTimes(Decimal(a), Pow10(n));
    }
  }

  lemma DigitIsDecimal(n: nat)
    requires n < 10
    ensures Digit(n) as int - '0' as int == n
  {
  }

  lemma {:induction false} PaddedIsDecimal(n: nat, width: nat)
    requires n < Pow10(width)
    ensures Decimal(Padded(n, width)) == n
  {
    hide Digit;
    if width > 0 {
      PaddedIsDecimal(n / 10, width - 1);
      DigitIsDecimal(n % 10);
      DecimalSnoc(Padded(n / 10, width - 1), Digit(n % 10));
    }
  }

  lemma EmptyDecimal()
    ensures Decimal([]) == 0
  {
  }

  lemma CountryAndNetwork(c: char)
    ensures Decimal("27" + [c]) == 270 + (c as int - '0' as int)
  {
    hide Decimal;
    EmptyDecimal();
    DecimalSnoc([], '2');
    DecimalSnoc(['2'], '7');
    assert [] + ['2'] == ['2'] && ['2'] + ['7'] == "27";
    DecimalSnoc("27", c);
  }

  /** A drawn number is 27, then 6, 7 or 8, then the eight drawn digits. */
  lemma NumberIsDrawn(d: Draw)
    requires d.rest < 100_000_000
    ensures Decimal(NumberOf(d)) == 27_000_000_000 + (6 + d.network % 3) * 100_000_000 + d.rest
  {
    hide Decimal, Padded, Pow10;
    var c := Digit(6 + d.network % 3);
    EightDigits();
    PaddedIsDecimal(d.rest, 8);
    DecimalAppend("27" + [c], Padded(d.rest, 8));
    CountryAndNetwork(c);
    DigitIsDecimal(6 + d.network % 3);
  }

  lemma EightDigits()
    ensures Pow10(8) == 100_000_000
  {
    assert Pow10(2) == 100;
    assert Pow10(4) == 10_000;
    assert Pow10(6) == 1_000_000;
  }

  /** The draws reach a number that is not taken. */
  ghost predicate Reaches(numbers: nat -> Draw, taken: set<string>) {
    exists n: nat :: NumberOf(numbers(n)) !in taken
  }

  /** What the random generator and the clock supply to one subscriber event. */
  datatype Draws = Draws(numbers: nat -> Draw, plan: nat, province: nat, eventId: string, timestamp: string)

  /** The subscriber some draws give under an id: the first number drawn that is not
      taken, and the drawn plan and province. */
  ghost predicate DrawnFrom(s: Subscriber, d: Draws, id: int, taken: set<string>) {
    && s.subscriberId == id
    && s.plan == PLANS[d.plan % 3] && s.province == PROVINCES[d.province % 9]
    && IsFirstFree(s.msisdn, d.numbers, taken)
  }

  ghost predicate IsFirstFree(msisdn: string, numbers: nat -> Draw, taken: set<string>) {
    && msisdn !in taken
    && exists n: nat :: msisdn == NumberOf(numbers(n)) && forall k: nat :: k < n ==> NumberOf(numbers(k)) in taken
  }

  datatype Fault = BadMsisdn | BadPlan | FutureTimestamp(timestamp: string)

  datatype SubscriberEvent = SubscriberEvent(
    eventId: string, timestamp: string, subscriberId: int, msisdn: string, plan: string, province: string)

  function FieldsOf(e: SubscriberEvent): Fields {
    [("event_id", JStr(e.eventId)), ("event_type", JStr("subscriber_created")), ("timestamp", JStr(e.timestamp)),
     ("schema_version", JInt(1)), ("subscriber_id", JInt(e.subscriberId)), ("msisdn", JStr(e.msisdn)),
     ("plan", JStr(e.plan)), ("province", JStr(e.province))]
  }

  function Corrupted(e: SubscriberEvent, fault: Fault): SubscriberEvent {
    match fault
    case BadMsisdn => if |e.msisdn| >= 2 then e.(msisdn := "0" + e.msisdn[2..]) else e
    case BadPlan => e.(plan := "Unlimited")
    case FutureTimestamp(ts) => e.(timestamp := ts)
  }

  /** The event of a subscriber, with the drawn identifier and time, and the fault put in. */
  function EventFor(s: Subscriber, d: Draws, fault: Option<Fault>): SubscriberEvent {
    var clean := SubscriberEvent(d.eventId, d.timestamp, s.subscriberId, s.msisdn, s.plan, s.province);
    match fault
    case None => clean
    case Some(f) => Corrupted(clean, f)
  }

  /** The event announces the subscriber, faults aside. */
  ghost predicate Announces(e: SubscriberEvent, fault: Option<Fault>, s: Subscriber) {
    && e.subscriberId == s.subscriberId && WellFormedSubscriber(s)
    && exists eventId, timestamp ::
         var clean := SubscriberEvent(eventId, timestamp, s.subscriberId, s.msisdn, s.plan, s.province);
         e == match fault case None => clean case Some(f) => Corrupted(clean, f)
  }

  ghost predicate WellFormedSubscriber(s: Subscriber) {
    && |s.msisdn| == 11 && s.msisdn[0] == '2' && s.msisdn[1] == '7'
    && (forall i :: 0 <= i < |s.msisdn| ==> '0' <= s.msisdn[i] <= '9')
    && OneOf(s.plan, PLANS) && OneOf(s.province, PROVINCES)
  }

  class SubscriberCreatedGenerator {
    const registry: SubscriberRegistry

    constructor (registry: SubscriberRegistry)
      ensures this.registry == registry
    {
      this.registry := registry;
    }

    /** Draws until a number is free. */
    method NewMsisdn(numbers: nat -> Draw) returns (msisdn: string)
      requires Reaches(numbers, registry.msisdns)
      ensures IsFirstFree(msisdn, numbers, registry.msisdns)
    {
      ghost var free: nat :| NumberOf(numbers(free)) !in registry.msisdns;
      var n: nat := 0;
      msisdn := NumberOf(numbers(n));
      while msisdn in registry.msisdns
        invariant n <= free && msisdn == NumberOf(numbers(n))
        invariant forall k: nat :: k < n ==> NumberOf(numbers(k)) in registry.msisdns
        decreases free - n
      {
        n := n + 1;
        msisdn := NumberOf(numbers(n));
      }
    }

    /** The event of a new subscriber, who is registered; adding never fails. */
    method Generate(d: Draws) returns (e: SubscriberEvent)
      requires registry.Valid() && registry.Ordered() && Reaches(d.numbers, registry.msisdns)
      modifies registry
      ensures registry.Valid() && registry.Ordered() && |registry.subscribers| == |old(registry.subscribers)| + 1
      ensures registry.subscribers[..|old(registry.subscribers)|] == old(registry.subscribers)
      ensures Announces(e, None, registry.subscribers[|old(registry.subscribers)|])
      ensures DrawnFrom(registry.subscribers[|old(registry.subscribers)|], d, old(registry.nextId), old(registry.msisdns))
      ensures registry.nextId == old(registry.nextId) + 1
      ensures e == EventFor(registry.subscribers[|old(registry.subscribers)|], d, None)
    {
      var id := registry.NextSubscriberId();
      var msisdn := NewMsisdn(d.numbers);
      var s := Subscriber(id, msisdn, PLANS[d.plan % |PLANS|], PROVINCES[d.province % |PROVINCES|]);
      InOrderSnoc(registry.subscribers, s);
      var ok := registry.Add(s);
      assert ok;
      e := SubscriberEvent(d.eventId, d.timestamp, s.subscriberId, s.msisdn, s.plan, s.province);
      assert WellFormedSubscriber(s);
    }

    method Corrupt(d: Draws, fault: Fault) returns (e: SubscriberEvent)
      requires registry.Valid() && registry.Ordered() && Reaches(d.numbers, registry.msisdns)
      modifies registry
      ensures registry.Valid() && registry.Ordered() && |registry.subscribers| == |old(registry.subscribers)| + 1
      ensures registry.subscribers[..|old(registry.subscribers)|] == old(registry.subscribers)
      ensures Announces(e, Some(fault), registry.subscribers[|old(registry.subscribers)|])
      ensures DrawnFrom(registry.subscribers[|old(registry.subscribers)|], d, old(registry.nextId), old(registry.msisdns))
      ensures registry.nextId == old(registry.nextId) + 1
      ensures e == EventFor(registry.subscribers[|old(registry.subscribers)|], d, Some(fault))
    {
      e := Generate(d);
      match fault
      case BadMsisdn => e := e.(msisdn := "0" + e.msisdn[2..]);
      case BadPlan => e := e.(plan := "Unlimited");
      case FutureTimestamp(ts) => e := e.(timestamp := ts);
    }
  }

  // ----- the run loop -----

  /** What one iteration rolls: a new subscriber, an event of a known subscriber, tower
      telemetry, or a declined payment. A fault makes it a corrupted event; a corrupted
      event of a subscriber may name one that does not exist. */
  datatype Roll =
    | RollSubscriber(d: Draws, fault: Option<Fault>)
    | RollActivity(topic: EventType, pick: nat, corrupt: bool, stranger: bool)
    | RollTower(corrupt: bool)
    | RollPaymentFailure(pick: nat)

  const STRANGER: int := 999_999_999

  datatype Message =
    | NewSubscriber(event: SubscriberEvent, fault: Option<Fault>)
    | Activity(topic: EventType, subscriberId: int, corrupt: bool)
    | Telemetry(corrupt: bool)
    | PaymentFailure(subscriberId: int)

  /** The subscriber events among the messages, with their faults. */
  function Announced(messages: seq<Message>): seq<Message> {
    if messages == [] then []
    else
      var m := messages[|messages| - 1];
      Announced(messages[..|messages| - 1]) + if m.NewSubscriber? then [m] else []
  }

  /** The i-th subscriber event announces the i-th subscriber of the registry. */
  ghost predicate InStep(announced: seq<Message>, subscribers: seq<Subscriber>) {
    && |announced| == |subscribers|
    && forall i :: 0 <= i < |announced| ==>
         announced[i].NewSubscriber? && Announces(announced[i].event, announced[i].fault, subscribers[i])
  }

  predicate IsCorrupt(m: Message) {
    match m
    case NewSubscriber(_, fault) => fault.Some?
    case Activity(_, _, corrupt) => corrupt
    case Telemetry(corrupt) => corrupt
    case PaymentFailure(_) => false
  }

  function CountCorrupt(messages: seq<Message>): nat {
    if messages == [] then 0
    else CountCorrupt(messages[..|messages| - 1]) + if IsCorrupt(messages[|messages| - 1]) then 1 else 0
  }

  /** The message names no subscriber, a subscriber announced before it, or, corrupted, a stranger. */
  ghost predicate Refers(before: seq<Message>, m: Message) {
    match m
    case Activity(_, id, corrupt) => (corrupt && id == STRANGER) || WasAnnounced(before, id)
    case PaymentFailure(id) => WasAnnounced(before, id)
    case _ => true
  }

  ghost predicate WasAnnounced(before: seq<Message>, id: int) {
    exists k :: 0 <= k < |before| && before[k].NewSubscriber? && before[k].event.subscriberId == id
  }

  class ProducerRunLoop {
    const registry: SubscriberRegistry
    const generator: SubscriberCreatedGenerator
    var published: seq<Message>
    var emitted: nat
    var corrupted: nat

    /** What every run keeps. */
    ghost predicate Valid()
      reads this, registry
    {
      && generator.registry == registry && registry.Valid() && registry.Ordered()
      && InStep(Announced(published), registry.subscribers)
      && emitted == |published| && corrupted == CountCorrupt(published)
      && AllRefer(published)
    }

    constructor ()
      ensures Valid() && fresh(registry) && published == []
    {
      var r := new SubscriberRegistry();
      registry := r;
      var g := new SubscriberCreatedGenerator(r);
      generator := g;
      published, emitted, corrupted := [], 0, 0;
    }

    /** Publishes a message that announces nobody new. */
    method Publish(m: Message)
      requires Valid() && !m.NewSubscriber? && Refers(published, m)
      modifies this
      ensures Valid() && published == old(published) + [m]
      ensures corrupted == old(corrupted) + if IsCorrupt(m) then 1 else 0
    {
      AnnouncedSnoc(published, m);
      RefersSnoc(published, m);
      if IsCorrupt(m) {
        corrupted := corrupted + 1;
      }
      published := published + [m];
      emitted := emitted + 1;
    }

    /** Registers a new subscriber and publishes the event, corrupted or not. */
    method PublishSubscriber(d: Draws, fault: Option<Fault>)
      requires Valid() && Reaches(d.numbers, registry.msisdns)
      modifies this, registry
      ensures Valid() && |published| == |old(published)| + 1 && old(published) <= published
      ensures |registry.subscribers| == |old(registry.subscribers)| + 1 && old(registry.subscribers) <= registry.subscribers
      ensures corrupted == old(corrupted) + if fault.Some? then 1 else 0
      ensures var s := registry.subscribers[|old(registry.subscribers)|];
        && DrawnFrom(s, d, old(registry.nextId), old(registry.msisdns)) && registry.nextId == old(registry.nextId) + 1
        && published[|old(published)|] == NewSubscriber(EventFor(s, d, fault), fault)
    {
      hide Announces, Refers, NumberOf, InOrder, MsisdnsOf, InStep, Reaches, AllRefer, Announced, CountCorrupt,
        DrawnFrom, EventFor;
      var e: SubscriberEvent;
      ghost var before := registry.subscribers;
      if fault.Some? {
        e := generator.Corrupt(d, fault.value);
        corrupted := corrupted + 1;
      } else {
        e := generator.Generate(d);
      }
      var m := NewSubscriber(e, fault);
      AnnouncedSnoc(published, m);
      RefersSnoc(published, m) by { RefersToNobody(published, m); }
      InStepSnoc(Announced(published), before, m, registry.subscribers);
      published := published + [m];
      emitted := emitted + 1;
    }

    /** Publishes one event per draw, each of a new subscriber. */
    method SeedSubscribers(draws: seq<Draws>)
      requires Valid() && AllReach(draws, |registry.msisdns| + |draws|)
      modifies this, registry
      ensures Valid() && corrupted == old(corrupted)
      ensures |published| == |old(published)| + |draws| && old(published) <= published
      ensures |registry.subscribers| == |old(registry.subscribers)| + |draws|
           && old(registry.subscribers) <= registry.subscribers
      ensures AllSeeded(published[|old(published)|..], registry.subscribers, |old(registry.subscribers)|, draws,
                        old(registry.nextId))
    {
      hide Reaches, DrawnFrom, EventFor, MsisdnsOf, AllSeeded;
      ghost var before, known, first := |published|, |registry.subscribers|, registry.nextId;
      NoneSeeded(published[before..], registry.subscribers, known, draws[..0], first);
      for i := 0 to |draws|
        invariant Valid() && corrupted == old(corrupted)
        invariant |published| == before + i && old(published) <= published
        invariant |registry.subscribers| == known + i && old(registry.subscribers) <= registry.subscribers
        invariant registry.nextId == first + i
        invariant AllSeeded(published[before..], registry.subscribers, known, draws[..i], first)
      {
        ghost var sent, subscribers := published[before..], registry.subscribers;
        PublishSubscriber(draws[i], None);
        assert published[before..] == sent + [published[before + i]] && draws[..i + 1] == draws[..i] + [draws[i]];
        assert registry.subscribers == subscribers + [registry.subscribers[known + i]];
        SeededSnoc(sent, subscribers, known, draws[..i], first,
                   published[before + i], registry.subscribers[known + i], draws[i]);
      }
      assert draws[..|draws|] == draws;
    }

    /** One iteration; false is the error of sampling an empty registry, which leaves
        everything as it was. */
    method EmitOne(roll: Roll) returns (ok: bool)
      requires Valid() && (roll.RollSubscriber? ==> Reaches(roll.d.numbers, registry.msisdns))
      modifies this, registry
      ensures Valid()
      ensures ok <==> old(registry.subscribers) != [] || roll.RollSubscriber? || roll.RollTower?
      ensures |published| == |old(published)| + if ok then 1 else 0
      ensures old(published) <= published && old(registry.subscribers) <= registry.subscribers
      ensures !ok ==> published == old(published) && registry.subscribers == old(registry.subscribers)
      ensures corrupted == old(corrupted) + if ok && RollsFault(roll) then 1 else 0
      ensures ok ==> Rolled(roll, published[|old(published)|], old(registry.subscribers), registry.subscribers,
                            old(registry.nextId))
    {
      hide Announces, InOrder, Reaches, DrawnFrom, EventFor, MsisdnsOf;
      ok := true;
      match roll
      case RollSubscriber(d, fault) => PublishSubscriber(d, fault);
      case RollTower(corrupt) => Publish(Telemetry(corrupt));
      case RollActivity(topic, pick, corrupt, stranger) =>
        var id;
        ok, id := RandomSubscriber(pick);
        if ok {
          Publish(Activity(topic, if corrupt && stranger then STRANGER else id, corrupt));
        }
      case RollPaymentFailure(pick) =>
        var id;
        ok, id := RandomSubscriber(pick);
        if ok {
          Publish(PaymentFailure(id));
        }
    }

    /** The id of a registered subscriber; false when there is none. */
    method RandomSubscriber(pick: nat) returns (ok: bool, id: int)
      requires Valid()
      ensures ok <==> registry.subscribers != []
      ensures ok ==> WasAnnounced(published, id) && id == registry.subscribers[pick % |registry.subscribers|].subscriberId
    {
      ok, id := registry.subscribers != [], 0;
      if ok {
        var i := pick % |registry.subscribers|;
        Sampled(published, registry.subscribers, i);
        id := registry.subscribers[i].subscriberId;
      }
    }
  }

  predicate RollsFault(roll: Roll) {
    match roll
    case RollSubscriber(_, fault) => fault.Some?
    case RollActivity(_, _, corrupt, _) => corrupt
    case RollTower(corrupt) => corrupt
    case RollPaymentFailure(_) => false
  }

  /** The message is the one rolled: of its kind and topic, corrupted as rolled, and naming
      the subscriber picked; only a subscriber roll registers anybody. */
  ghost predicate Rolled(roll: Roll, m: Message, before: seq<Subscriber>, after: seq<Subscriber>, next: int) {
    match roll
    case RollSubscriber(d, fault) =>
      && |after| == |before| + 1 && after[..|before|] == before
      && DrawnFrom(after[|before|], d, next, MsisdnsOf(before))
      && m == NewSubscriber(EventFor(after[|before|], d, fault), fault)
    case RollActivity(topic, pick, corrupt, stranger) =>
      && after == before != []
      && m == Activity(topic, if corrupt && stranger then 999_999_999 else before[pick % |before|].subscriberId, corrupt)
    case RollTower(corrupt) => after == before && m == Telemetry(corrupt)
    case RollPaymentFailure(pick) => after == before != [] && m == PaymentFailure(before[pick % |before|].subscriberId)
  }

  /** The message announces, without a fault, the last of the subscribers, who is the one
      that the draws give under the id. */
  ghost predicate Seeded(m: Message, subscribers: seq<Subscriber>, d: Draws, id: int)
    requires subscribers != []
  {
    var n := |subscribers| - 1;
    && DrawnFrom(subscribers[n], d, id, MsisdnsOf(subscribers[..n]))
    && m == NewSubscriber(EventFor(subscribers[n], d, None), None)
  }

  /** Message i announces, without a fault, the i-th subscriber after the known ones. */
  ghost predicate AllSeeded(messages: seq<Message>, subscribers: seq<Subscriber>, known: nat, draws: seq<Draws>, first: int) {
    && |messages| == |draws| && |subscribers| == known + |draws|
    && forall i :: 0 <= i < |messages| ==> Seeded(messages[i], subscribers[..known + i + 1], draws[i], first + i)
  }

  lemma NoneSeeded(messages: seq<Message>, subscribers: seq<Subscriber>, known: nat, draws: seq<Draws>, first: int)
    requires messages == [] && draws == [] && |subscribers| == known
    ensures AllSeeded(messages, subscribers, known, draws, first)
  {
  }

  lemma SeededSnoc(messages: seq<Message>, subscribers: seq<Subscriber>, known: nat, draws: seq<Draws>, first: int,
                   m: Message, s: Subscriber, d: Draws)
    requires AllSeeded(messages, subscribers, known, draws, first)
    requires DrawnFrom(s, d, first + |draws|, MsisdnsOf(subscribers)) && m == NewSubscriber(EventFor(s, d, None), None)
    ensures AllSeeded(messages + [m], subscribers + [s], known, draws + [d], first)
  {
    hide DrawnFrom, EventFor, MsisdnsOf;
    var all := subscribers + [s];
    forall i | 0 <= i < |messages| + 1
      ensures Seeded((messages + [m])[i], all[..known + i + 1], (draws + [d])[i], first + i)
    {
      if i < |messages| {
        assert all[..known + i + 1] == subscribers[..known + i + 1];
      } else {
        assert all[..known + i + 1] == all && all[..known + i] == subscribers;
      }
    }
  }

  /** Every draw reaches a number outside any set of fewer than `limit`. */
  ghost predicate AllReach(draws: seq<Draws>, limit: nat) {
    forall i, taken :: 0 <= i < |draws| && |taken| < limit ==> Reaches(draws[i].numbers, taken)
  }

  ghost predicate AllRefer(messages: seq<Message>) {
    forall i :: 0 <= i < |messages| ==> Refers(messages[..i], messages[i])
  }

  lemma RefersSnoc(messages: seq<Message>, m: Message)
    requires AllRefer(messages) && Refers(messages, m)
    ensures AllRefer(messages + [m])
  {
    var all := messages + [m];
    forall i | 0 <= i < |all| ensures Refers(all[..i], all[i]) {
      assert all[..i] == if i < |messages| then messages[..i] else messages;
    }
  }

  lemma RefersToNobody(messages: seq<Message>, m: Message)
    requires m.NewSubscriber?
    ensures Refers(messages, m)
  {
  }

  lemma InStepSnoc(announced: seq<Message>, subscribers: seq<Subscriber>, m: Message, after: seq<Subscriber>)
    requires InStep(announced, subscribers) && |after| == |subscribers| + 1 && after[..|subscribers|] == subscribers
    requires m.NewSubscriber? && Announces(m.event, m.fault, after[|subscribers|])
    ensures InStep(announced + [m], after)
  {
    assert forall i :: 0 <= i < |subscribers| ==> after[i] == after[..|subscribers|][i];
  }

  lemma AnnouncedSnoc(messages: seq<Message>, m: Message)
    ensures Announced(messages + [m]) == Announced(messages) + if m.NewSubscriber? then [m] else []
    ensures CountCorrupt(messages + [m]) == CountCorrupt(messages) + if IsCorrupt(m) then 1 else 0
  {
    assert (messages + [m])[..|messages|] == messages;
  }

  lemma {:induction false} AnnouncedIsPublished(messages: seq<Message>)
    ensures forall m :: m in Announced(messages) ==> m in messages && m.NewSubscriber?
  {
    if messages != [] {
      AnnouncedIsPublished(messages[..|messages| - 1]);
    }
  }

  /** A sampled subscriber was announced before. */
  lemma Sampled(messages: seq<Message>, subscribers: seq<Subscriber>, i: nat)
    requires InStep(Announced(messages), subscribers) && i < |subscribers|
    ensures WasAnnounced(messages, subscribers[i].subscriberId)
  {
    AnnouncedIsPublished(messages);
    var m := Announced(messages)[i];
    assert m in Announced(messages);
    var k :| 0 <= k < |messages| && messages[k] == m;
  }

  // ----- what the warehouse may rely on -----

  /** The event still carries its subscriber's number. */
  predicate KeepsNumber(m: Message)
    requires m.NewSubscriber?
  {
    m.fault != Some(BadMsisdn)
  }

  /** Over any run, subscriber events have rising ids, and those that keep their number
      have pairwise distinct numbers. */
  lemma AnnouncementsAreDistinct(announced: seq<Message>, subscribers: seq<Subscriber>, next: int, i: nat, j: nat)
    requires InStep(announced, subscribers) && InOrder(subscribers, next) && i < j < |announced|
    ensures announced[i].event.subscriberId < announced[j].event.subscriberId < next
    ensures KeepsNumber(announced[i]) && KeepsNumber(announced[j]) ==> announced[i].event.msisdn != announced[j].event.msisdn
  {
    var x, y := announced[i], announced[j];
    assert Announces(x.event, x.fault, subscribers[i]) && Announces(y.event, y.fault, subscribers[j]);
  }

  lemma FieldsRead(ev: SubscriberEvent)
    ensures var e := FieldsOf(ev);
      && Get(e, "event_id") == Some(JStr(ev.eventId)) && Get(e, "event_type") == Some(JStr("subscriber_created"))
      && Get(e, "timestamp") == Some(JStr(ev.timestamp)) && Get(e, "schema_version") == Some(JInt(1))
      && Get(e, "subscriber_id") == Some(JInt(ev.subscriberId)) && Get(e, "msisdn") == Some(JStr(ev.msisdn))
      && Get(e, "plan") == Some(JStr(ev.plan)) && Get(e, "province") == Some(JStr(ev.province))
  {
    var e := FieldsOf(ev);
    GetAt(e, 0);
    GetAt(e, 1);
    GetAt(e, 2);
    GetAt(e, 3);
    GetAt(e, 4);
    GetAt(e, 5);
    GetAt(e, 6);
    GetAt(e, 7);
  }

  lemma FieldsConform(ev: SubscriberEvent)
    ensures Conforms(EventFields(SubscriberCreated), JObject(FieldsOf(ev)))
  {
    hide Get;
    var e, s := FieldsOf(ev), EventFields(SubscriberCreated);
    FieldsRead(ev);
    assert |s| == 8 && forall i :: 0 <= i < |e| ==> e[i].0 == s[i].0;
  }

  lemma FieldsDecode(ev: SubscriberEvent)
    ensures SinkFields(SubscriberCreated, FieldsOf(ev)) && DecodeBody(SubscriberCreated, FieldsOf(ev)) == BodyOf(ev)
  {
    hide Get, FieldsOf;
    FieldsRead(ev);
  }

  function BodyFor(s: Subscriber): Body { SubscriberBody(s.subscriberId, s.msisdn, s.plan, s.province) }

  function BodyOf(ev: SubscriberEvent): Body { SubscriberBody(ev.subscriberId, ev.msisdn, ev.plan, ev.province) }

  predicate TimeOk(env: Env, timestamp: string, now: int) {
    env.iso(timestamp).Some? && Aware(env.iso(timestamp).value).utc <= now + CLOCK_SKEW
  }

  /** The pipeline's verdict on a published subscriber event. */
  lemma JudgedAs(env: Env, ev: SubscriberEvent, raw: string, now: int)
    requires env.parse(raw) == Some(JObject(FieldsOf(ev)))
    ensures var v := Judge(env, SubscriberCreated, raw, now);
      && (v.Accept? <==> Clean(env, BodyOf(ev)) && TimeOk(env, ev.timestamp, now))
      && (v.Accept? ==> v.event.body == BodyOf(ev))
  {
    hide FieldsOf, Clean, TypeRules, Hits, Violations, AllHold;
    var e := FieldsOf(ev);
    FieldsRead(ev);
    FieldsConform(ev);
    FieldsDecode(ev);
    ViolationsEmptyIffConforms(EventFields(SubscriberCreated), JObject(e));
    PassingRulesHold(env, SubscriberCreated, e, now);
    RulesMeanClean(env, SubscriberCreated, e);
  }

  ghost predicate AsciiDigits(env: Env) {
    forall c: char :: '0' <= c <= '9' ==> env.isDigit(c)
  }

  /** Does the fault break a rule for good? A future timestamp does not. */
  predicate Lasting(fault: Option<Fault>) { fault == Some(BadMsisdn) || fault == Some(BadPlan) }

  lemma CleanUnlessLasting(env: Env, ev: SubscriberEvent, fault: Option<Fault>, s: Subscriber)
    requires Announces(ev, fault, s)
    ensures Clean(env, BodyOf(ev)) ==> !Lasting(fault) && BodyOf(ev) == BodyFor(s)
    ensures AsciiDigits(env) && !Lasting(fault) ==> Clean(env, BodyOf(ev))
  {
    if fault == Some(BadPlan) {
      assert |PLANS[0]| != |ev.plan| && |PLANS[1]| != |ev.plan| && |PLANS[2]| != |ev.plan|;
    }
  }

  /** A generated event is accepted from its own time on; one with a corrupted number
      or plan never is; one dated in the future is accepted once that time is near. */
  lemma SubscriberEventAcceptedIff(env: Env, ev: SubscriberEvent, fault: Option<Fault>, s: Subscriber, raw: string,
      now: int)
    requires Announces(ev, fault, s) && AsciiDigits(env) && env.parse(raw) == Some(JObject(FieldsOf(ev)))
    ensures Judge(env, SubscriberCreated, raw, now).Accept? <==> !Lasting(fault) && TimeOk(env, ev.timestamp, now)
  {
    hide Judge, Clean, Announces, FieldsOf;
    JudgedAs(env, ev, raw, now);
    CleanUnlessLasting(env, ev, fault, s);
  }

  /** The event is what the pipeline accepted, at some time, of a published message. */
  ghost predicate AcceptedOf(env: Env, m: Message, e: Event) {
    m.NewSubscriber? && exists raw, now :: ParsesTo(env, raw, m.event) && Judge(env, SubscriberCreated, raw, now) == Accept(e)
  }

  ghost predicate ParsesTo(env: Env, raw: string, ev: SubscriberEvent) {
    env.parse(raw) == Some(JObject(FieldsOf(ev)))
  }

  ghost predicate FromRun(env: Env, announced: seq<Message>, e: Event) {
    exists i :: 0 <= i < |announced| && AcceptedOf(env, announced[i], e)
  }

  lemma AcceptedBody(env: Env, m: Message, e: Event, s: Subscriber)
    requires AcceptedOf(env, m, e) && Announces(m.event, m.fault, s)
    ensures e.body == BodyFor(s)
  {
    hide Judge, Clean, Announces, FieldsOf;
    var raw, now :| ParsesTo(env, raw, m.event) && Judge(env, SubscriberCreated, raw, now) == Accept(e);
    JudgedAs(env, m.event, raw, now);
    CleanUnlessLasting(env, m.event, m.fault, s);
  }

  ghost predicate Registered(subscribers: seq<Subscriber>, id: int, msisdn: string) {
    exists i :: 0 <= i < |subscribers| && subscribers[i].subscriberId == id && subscribers[i].msisdn == msisdn
  }

  /** Every row of the table is a registered subscriber's. */
  ghost predicate RowsRegistered(table: SubTable, subscribers: seq<Subscriber>) {
    forall id :: id in table ==> Registered(subscribers, id, table[id].msisdn)
  }

  /** One producer run into an empty dimension never trips the unique number: any list
      of accepted subscriber events of the run, repeated and reordered at will, loads. */
  lemma {:induction false} OneRunNeverClashes(env: Env, announced: seq<Message>, subscribers: seq<Subscriber>,
      next: int, events: seq<Event>)
    requires InStep(announced, subscribers) && InOrder(subscribers, next)
    requires forall e :: e in events ==> FromRun(env, announced, e)
    ensures UpsertSubs(map[], events).Some? && RowsRegistered(UpsertSubs(map[], events).value, subscribers)
  {
    hide Announces, AcceptedOf;
    if events != [] {
      var init, e := events[..|events| - 1], events[|events| - 1];
      assert e in events && forall x :: x in init ==> x in events;
      OneRunNeverClashes(env, announced, subscribers, next, init);
      var i :| 0 <= i < |announced| && AcceptedOf(env, announced[i], e);
      assert Announces(announced[i].event, announced[i].fault, subscribers[i]);
      AcceptedBody(env, announced[i], e, subscribers[i]);
      UpsertRegistered(UpsertSubs(map[], init).value, subscribers, next, e, i);
    }
  }

  lemma UpsertRegistered(table: SubTable, subscribers: seq<Subscriber>, next: int, e: Event, i: nat)
    requires RowsRegistered(table, subscribers) && InOrder(subscribers, next) && i < |subscribers|
    requires e.body == BodyFor(subscribers[i])
    ensures UpsertOne(table, e).Some? && RowsRegistered(UpsertOne(table, e).value, subscribers)
  {
    var s := subscribers[i];
    if s.subscriberId !in table {
      forall other | other in table ensures table[other].msisdn != s.msisdn {
        assert Registered(subscribers, other, table[other].msisdn);
        var j :| 0 <= j < |subscribers| && subscribers[j].subscriberId == other
                 && subscribers[j].msisdn == table[other].msisdn;
        assert j != i;
      }
    }
  }
}
