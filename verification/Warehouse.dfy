/** The warehouse: its tables, the SQL statements the sinks run as functions on
    them, and what each statement keeps. A statement that the database refuses
    (a bad cast, a missing reference, a unique violation) is None. */
module Warehouse {
  import opened Base
  import opened Schemas
  import opened Events
  import opened Rollups
  import opened Towers

  datatype SubRow = SubRow(msisdn: string, plan: string, province: string, createdAt: int)
  type SubTable = map<int, SubRow>

  datatype Detail =
    | Recharge(cents: int, paymentMethod: string)
    | BundleSale(bundleCode: string, cents: int)
    | CallMade(towerId: string, receiver: string, duration: int, dropped: bool)
    | SmsSent(receiver: string, length: int)
    | UsageSession(towerId: string, hundredths: int, seconds: int, technology: string)

  /** A row of one of the five fact tables, by natural keys; the detail tells the table. */
  datatype Fact = Fact(id: nat, subscriberId: int, ts: int, detail: Detail)
  datatype FactKey = FactKey(table: EventType, id: nat)

  datatype DlqRow = DlqRow(id: nat, topic: string, reason: string, payload: string, rejectedAt: int)

  /** The seeded dimensions. */
  datatype Seeds = Seeds(towers: set<string>, bundles: set<string>)

  /** Fact and dead-letter tables are kept in insertion order. */
  datatype Db = Db(
    seeds: Seeds, subs: SubTable, towers: TowerTable, facts: seq<Fact>, dlq: seq<DlqRow>, agg: Agg)

  function EmptyDb(seeds: Seeds): Db { Db(seeds, map[], map[], [], [], map[]) }

  function FactTable(d: Detail): EventType {
    match d
    case Recharge(_, _) => AirtimePurchase
    case BundleSale(_, _) => BundlePurchase
    case CallMade(_, _, _, _) => VoiceCall
    case SmsSent(_, _) => Sms
    case UsageSession(_, _, _, _) => DataUsage
  }

  function Key(f: Fact): FactKey { FactKey(FactTable(f.detail), f.id) }

  function Keys(facts: seq<Fact>): set<FactKey> { set f | f in facts :: Key(f) }

  // ----- subscribers -----

  /** ON CONFLICT covers the subscriber id only: a number held by another
      subscriber violates its own unique constraint. */
  function UpsertOne(subs: SubTable, e: Event): Option<SubTable> {
    match e.body
    case SubscriberBody(id, msisdn, plan, province) =>
      if id in subs then Some(subs)
      else if exists other | other in subs :: subs[other].msisdn == msisdn then None
      else Some(subs[id := SubRow(msisdn, plan, province, e.ts.utc)])
    case _ => None
  }

  function UpsertSubs(subs: SubTable, events: seq<Event>): Option<SubTable> {
    if events == [] then Some(subs)
    else
      match UpsertSubs(subs, events[..|events| - 1])
      case None => None
      case Some(s) => UpsertOne(s, events[|events| - 1])
  }

  ghost predicate SubsExtend(a: SubTable, b: SubTable) {
    forall id :: id in a ==> id in b && b[id] == a[id]
  }

  ghost predicate SubsCover(subs: SubTable, events: seq<Event>) {
    forall e :: e in events ==> e.body.SubscriberBody? && e.body.subscriberId in subs
  }

  lemma {:induction false} UpsertGrows(subs: SubTable, events: seq<Event>)
    requires UpsertSubs(subs, events).Some?
    ensures SubsExtend(subs, UpsertSubs(subs, events).value)
    ensures SubsCover(UpsertSubs(subs, events).value, events)
  {
    if events != [] {
      var n := |events| - 1;
      UpsertGrows(subs, events[..n]);
      assert events == events[..n] + [events[n]];
    }
  }

  /** Subscribers already present are skipped: a replay is a no-op and cannot fail. */
  lemma {:induction false} CoveredUpsertIsNoOp(subs: SubTable, events: seq<Event>)
    requires SubsCover(subs, events)
    ensures UpsertSubs(subs, events) == Some(subs)
  {
    if events != [] {
      CoveredUpsertIsNoOp(subs, events[..|events| - 1]);
      assert events[|events| - 1] in events;
    }
  }

  lemma {:induction false} UpsertComposes(subs: SubTable, a: seq<Event>, b: seq<Event>)
    ensures UpsertSubs(subs, a + b)
         == match UpsertSubs(subs, a) case None => None case Some(s) => UpsertSubs(s, b)
  {
    if b == [] {
      assert a + b == a;
    } else {
      var n := |b| - 1;
      UpsertComposes(subs, a, b[..n]);
      assert (a + b)[..|a + b| - 1] == a + b[..n];
    }
  }

  // ----- tower state -----

  const INT32: int := 0x8000_0000

  /** A row the table accepts: short technology name, 32-bit counters, a seeded tower. */
  predicate TowerStorable(seeds: Seeds, u: Update) {
    |u.row.technology| <= 8 && u.row.devices < INT32 && u.towerId in seeds.towers
  }

  function Updates(events: seq<Event>): seq<Update> {
    if events == [] then []
    else
      var e := events[|events| - 1];
      Updates(events[..|events| - 1])
      + match e.body
        case TowerBody(id, technology, signal, devices, status) =>
          [Update(id, TowerRow(technology, signal, devices, status, e.ts.utc))]
        case _ => []
  }

  predicate LatestStorable(seeds: Seeds, us: seq<Update>) {
    var rows := WriteAll(map[], us);
    forall id | id in rows :: TowerStorable(seeds, Update(id, rows[id]))
  }

  /** The tower statement: the rows handed over are each tower's latest in the batch. */
  function UpdateTowers(db: Db, us: seq<Update>): Option<Db> {
    if LatestStorable(db.seeds, us)
    then Some(db.(towers := WriteAll(db.towers, us)))
    else None
  }

  // ----- facts -----

  const FIRST_DAY: int := 1_767_225_600 * SECOND   // 2026-01-01, start of dim_date
  const LAST_DAY: int := 1_830_297_600 * SECOND    // 2028-01-01, first day after dim_date

  predicate DateKnown(ts: int) { FIRST_DAY <= ts < LAST_DAY }

  const DAY: int := 86_400_000_000

  /** The date dimension holds the days of 2026 and 2027, counted from 1970-01-01: before
      them lie 56 years, 14 of them leap years. */
  lemma DateKnownIff(ts: int)
    ensures DateKnown(ts) <==> 56 * 365 + 14 <= ts / DAY < 58 * 365 + 14
  {
    var q := ts / DAY;
    assert ts == q * DAY + ts % DAY;
  }

  /** Rounding to two decimals, halves away from zero. */
  function Round2(r: real): int {
    if r >= 0.0 then (r * 100.0 + 0.5).Floor else -(-r * 100.0 + 0.5).Floor
  }

  /** The fact row of an event; None when a cast fails. */
  function FactOf(env: Env, e: Event): Option<Fact> {
    match env.uuid(e.id)
    case None => None
    case Some(id) =>
      match e.body
      case AirtimeBody(s, amount, m) => Some(Fact(id, s, e.ts.utc, Recharge(Round2(amount), m)))
      case BundleBody(s, code, price) => Some(Fact(id, s, e.ts.utc, BundleSale(code, Round2(price))))
      case CallBody(s, receiver, d, tower, dropped) =>
        Some(Fact(id, s, e.ts.utc, CallMade(tower, receiver, d, dropped)))
      case SmsBody(s, receiver, n) => Some(Fact(id, s, e.ts.utc, SmsSent(receiver, n)))
      case UsageBody(s, mb, seconds, tower, tech) =>
        if seconds < INT32 then Some(Fact(id, s, e.ts.utc, UsageSession(tower, Round2(mb), seconds, tech))) else None
      case _ => None
  }

  /** The nearest hundredth; of two equally near, the one away from zero. */
  ghost predicate IsRounded(n: int, r: real) {
    var error := n as real - r * 100.0;
    -0.5 <= error <= 0.5 && (error == 0.5 ==> r > 0.0) && (error == -0.5 ==> r < 0.0)
  }

  /** Rounding gives the nearest hundredth, and every two-decimal amount exactly. */
  lemma RoundedIff(n: int, r: real)
    ensures n == Round2(r) <==> IsRounded(n, r)
    ensures r * 100.0 == n as real ==> Round2(r) == n
  {
    var x := if r >= 0.0 then r * 100.0 + 0.5 else -r * 100.0 + 0.5;
    assert x.Floor as real <= x < x.Floor as real + 1.0;
  }

  /** The row has the event's values, column by column: its identifier as a UUID, its
      subscriber and instant, and the columns of its table. */
  ghost predicate Describes(env: Env, f: Fact, e: Event) {
    && env.uuid(e.id) == Some(f.id) && e.ts.utc == f.ts && f.subscriberId == SubscriberOf(e)
    && FactTable(f.detail) == TypeOf(e.body)
    && match f.detail
       case Recharge(cents, payment) => IsRounded(cents, e.body.amount) && payment == e.body.paymentMethod
       case BundleSale(code, cents) => code == e.body.bundleCode && IsRounded(cents, e.body.price)
       case CallMade(tower, receiver, duration, dropped) =>
         && tower == e.body.towerId && receiver == e.body.receiver
         && duration == e.body.duration && dropped == e.body.dropped
       case SmsSent(receiver, length) => receiver == e.body.receiver && length == e.body.length
       case UsageSession(tower, hundredths, seconds, technology) =>
         && tower == e.body.towerId && IsRounded(hundredths, e.body.mb)
         && seconds == e.body.seconds && technology == e.body.technology
  }

  /** An event has a row exactly when its identifier is a UUID and its table holds its
      type and its session length; the row is the one that describes the event. */
  lemma FactOfIff(env: Env, e: Event, f: Fact)
    ensures FactOf(env, e) == Some(f) <==> Describes(env, f, e) && (f.detail.UsageSession? ==> f.detail.seconds < 2_147_483_648)
  {
    hide Round2, IsRounded;
    match e.body
    case AirtimeBody(_, amount, _) => RoundedAs(f, amount);
    case BundleBody(_, _, price) => RoundedAs(f, price);
    case UsageBody(_, mb, _, _, _) => RoundedAs(f, mb);
    case _ =>
  }

  lemma RoundedAs(f: Fact, r: real)
    ensures f.detail.Recharge? || f.detail.BundleSale? ==> (f.detail.cents == Round2(r) <==> IsRounded(f.detail.cents, r))
    ensures f.detail.UsageSession? ==> (f.detail.hundredths == Round2(r) <==> IsRounded(f.detail.hundredths, r))
  {
    forall n: int ensures n == Round2(r) <==> IsRounded(n, r) {
      RoundedIff(n, r);
    }
  }

  /** Do the inner joins with the seeded dimensions find the event's tower or bundle? */
  predicate Joins(seeds: Seeds, e: Event) {
    match e.body
    case BundleBody(_, code, _) => code in seeds.bundles
    case CallBody(_, _, _, tower, _) => tower in seeds.towers
    case UsageBody(_, _, _, tower, _) => tower in seeds.towers
    case _ => true
  }

  function InsertOne(env: Env, seeds: Seeds, facts: seq<Fact>, e: Event): Option<seq<Fact>> {
    if !Joins(seeds, e) then Some(facts)
    else
      match FactOf(env, e)
      case None => None
      case Some(f) =>
        if Key(f) in Keys(facts) then Some(facts)
        else if !DateKnown(f.ts) then None
        else Some(facts + [f])
  }

  function InsertAll(env: Env, seeds: Seeds, facts: seq<Fact>, events: seq<Event>): Option<seq<Fact>> {
    if events == [] then Some(facts)
    else
      match InsertAll(env, seeds, facts, events[..|events| - 1])
      case None => None
      case Some(fs) => InsertOne(env, seeds, fs, events[|events| - 1])
  }

  function Known(subs: SubTable, events: seq<Event>): seq<Event> {
    if events == [] then []
    else
      var e := events[|events| - 1];
      Known(subs, events[..|events| - 1]) + if SubscriberOf(e) in subs then [e] else []
  }

  function Unknown(subs: SubTable, events: seq<Event>): seq<Event> {
    if events == [] then []
    else
      var e := events[|events| - 1];
      Unknown(subs, events[..|events| - 1]) + if SubscriberOf(e) in subs then [] else [e]
  }

  ghost predicate Landed(env: Env, seeds: Seeds, facts: seq<Fact>, e: Event) {
    Joins(seeds, e) ==> FactOf(env, e).Some? && Key(FactOf(env, e).value) in Keys(facts)
  }

  lemma KeysSnoc(facts: seq<Fact>, f: Fact)
    ensures Keys(facts + [f]) == Keys(facts) + {Key(f)}
  {
  }

  predicate DistinctKeys(facts: seq<Fact>) {
    forall i, j | 0 <= i < j < |facts| :: Key(facts[i]) != Key(facts[j])
  }

  /** Every fact after an insert was there before or is the row of one of the events. */
  ghost predicate Sourced(env: Env, seeds: Seeds, f: Fact, events: seq<Event>) {
    exists e :: e in events && Joins(seeds, e) && FactOf(env, e) == Some(f) && DateKnown(f.ts)
  }

  /** Inserting only appends; what it appends comes from the events; afterwards every
      joinable event has its row, once. */
  lemma {:induction false} InsertGrows(env: Env, seeds: Seeds, facts: seq<Fact>, events: seq<Event>)
    requires InsertAll(env, seeds, facts, events).Some?
    ensures var after := InsertAll(env, seeds, facts, events).value;
      && facts <= after
      && (forall i :: |facts| <= i < |after| ==> Sourced(env, seeds, after[i], events) && Key(after[i]) !in Keys(facts))
      && (forall e :: e in events ==> Landed(env, seeds, after, e))
      && (DistinctKeys(facts) ==> DistinctKeys(after))
  {
    hide FactOf, Joins, DateKnown;
    if events != [] {
      var n := |events| - 1;
      InsertGrows(env, seeds, facts, events[..n]);
      var before, after := InsertAll(env, seeds, facts, events[..n]).value, InsertAll(env, seeds, facts, events).value;
      assert events == events[..n] + [events[n]];
      assert before <= after && |after| <= |before| + 1;
      assert Keys(before) <= Keys(after);
      forall i | |facts| <= i < |after| ensures Sourced(env, seeds, after[i], events) && Key(after[i]) !in Keys(facts) {
        if i < |before| {
          assert Sourced(env, seeds, before[i], events[..n]);
        } else {
          assert events[n] in events;
          assert Keys(facts) <= Keys(before);
        }
      }
      if |after| > |before| {
        assert after == before + [after[|before|]];
        assert forall i :: 0 <= i < |before| ==> Key(before[i]) in Keys(before);
      }
    }
  }

  /** Events whose rows are there change nothing: a replay is a no-op and cannot fail. */
  lemma {:induction false} LandedInsertIsNoOp(env: Env, seeds: Seeds, facts: seq<Fact>, events: seq<Event>)
    requires forall e :: e in events ==> Landed(env, seeds, facts, e)
    ensures InsertAll(env, seeds, facts, events) == Some(facts)
  {
    if events != [] {
      LandedInsertIsNoOp(env, seeds, facts, events[..|events| - 1]);
      assert events[|events| - 1] in events;
    }
  }

  lemma {:induction false} KnownOrUnknown(subs: SubTable, events: seq<Event>)
    ensures forall e :: e in Known(subs, events) <==> e in events && SubscriberOf(e) in subs
    ensures forall e :: e in Unknown(subs, events) <==> e in events && SubscriberOf(e) !in subs
    ensures |Known(subs, events)| + |Unknown(subs, events)| == |events|
  {
    if events != [] {
      var n := |events| - 1;
      KnownOrUnknown(subs, events[..n]);
      assert events == events[..n] + [events[n]];
    }
  }

  /** The row describes one of the events, and its subscriber is known. */
  ghost predicate DescribesSome(env: Env, subs: SubTable, f: Fact, events: seq<Event>) {
    exists e :: e in events && SubscriberOf(e) in subs && Describes(env, f, e)
  }

  /** What an insert appends are rows that describe events with a known subscriber. */
  lemma InsertDescribes(env: Env, db: Db, events: seq<Event>)
    requires InsertAll(env, db.seeds, db.facts, Known(db.subs, events)).Some?
    ensures var after := InsertAll(env, db.seeds, db.facts, Known(db.subs, events)).value;
      db.facts <= after && forall i :: |db.facts| <= i < |after| ==> DescribesSome(env, db.subs, after[i], events)
  {
    hide FactOf, Describes;
    var known := Known(db.subs, events);
    var after := InsertAll(env, db.seeds, db.facts, known).value;
    InsertGrows(env, db.seeds, db.facts, known);
    KnownOrUnknown(db.subs, events);
    forall i | |db.facts| <= i < |after| ensures DescribesSome(env, db.subs, after[i], events) {
      assert Sourced(env, db.seeds, after[i], known);
      var e :| e in known && Joins(db.seeds, e) && FactOf(env, e) == Some(after[i]) && DateKnown(after[i].ts);
      FactOfIff(env, e, after[i]);
    }
  }

  /** Known and unknown subscribers depend on the ids in the dimension only. */
  lemma {:induction false} SameSubsSameUnknown(subs: SubTable, subs': SubTable, events: seq<Event>)
    requires forall e :: e in events ==> (SubscriberOf(e) in subs <==> SubscriberOf(e) in subs')
    ensures Known(subs, events) == Known(subs', events) && Unknown(subs, events) == Unknown(subs', events)
  {
    if events != [] {
      var n := |events| - 1;
      assert events[n] in events;
      SameSubsSameUnknown(subs, subs', events[..n]);
    }
  }

  // ----- one topic's statement -----

  datatype Sunk = Sunk(db: Db, unknown: seq<Event>)

  /** The statement that sinks one topic's events, and the events it refuses to
      load because their subscriber is not in the dimension. */
  function Sink(env: Env, t: EventType, db: Db, events: seq<Event>): Option<Sunk> {
    match t
    case SubscriberCreated =>
      (match UpsertSubs(db.subs, events)
       case None => None
       case Some(subs) => Some(Sunk(db.(subs := subs), [])))
    case TowerStatus =>
      (match UpdateTowers(db, Updates(events))
       case None => None
       case Some(db') => Some(Sunk(db', [])))
    case _ =>
      match InsertAll(env, db.seeds, db.facts, Known(db.subs, events))
      case None => None
      case Some(facts) => Some(Sunk(db.(facts := facts), Unknown(db.subs, events)))
  }

  // ----- rollups -----

  /** A fact as the rollup queries see it; a short message is in none of them. The
      province comes from the inner join with the subscriber dimension. */
  function FactItem(subs: SubTable, f: Fact): seq<Item> {
    match f.detail
    case Recharge(cents, _) =>
      if f.subscriberId in subs then [Item(f.ts, Revenue(subs[f.subscriberId].province, "AIRTIME"), cents, false)] else []
    case BundleSale(_, cents) =>
      if f.subscriberId in subs then [Item(f.ts, Revenue(subs[f.subscriberId].province, "BUNDLE"), cents, false)] else []
    case CallMade(tower, _, duration, dropped) => [Item(f.ts, Calls(tower), duration, dropped)]
    case UsageSession(tower, hundredths, _, technology) => [Item(f.ts, Data(tower, technology), hundredths, false)]
    case SmsSent(_, _) => []
  }

  function FactItems(subs: SubTable, facts: seq<Fact>): seq<Item> {
    Collect(facts, (f: Fact) => FactItem(subs, f))
  }

  function DlqItem(r: DlqRow): Item { Item(r.rejectedAt, Dead(r.topic, r.reason), 1, false) }

  function DlqItems(rows: seq<DlqRow>): seq<Item> {
    Collect(rows, (r: DlqRow) => [DlqItem(r)])
  }

  /** The rows a rollup is computed from: facts for three of them, dead letters for the fourth. */
  function Source(db: Db, t: Rollup): seq<Item> {
    if t == DlqMinute then DlqItems(db.dlq) else FactItems(db.subs, db.facts)
  }

  /** Every rollup equals its full recomputation. */
  ghost predicate RollupsExact(db: Db) {
    forall key: AggKey :: Lookup(db.agg, key) == View(Source(db, TableOf(key.group)), key)
  }

  function RefreshOne(db: Db, t: Rollup, w: Window): Option<Db> {
    match Refresh(db.agg, Source(db, t), t, w)
    case None => None
    case Some(agg) => Some(db.(agg := agg))
  }

  function RefreshFacts(db: Db, lo: Stamp, hi: Stamp): Option<Db> {
    var w := MinuteParams(lo, hi);
    match RefreshOne(db, RevenueMinute, w)
    case None => None
    case Some(d1) =>
      match RefreshOne(d1, CallsMinute, w)
      case None => None
      case Some(d2) => RefreshOne(d2, DataMinute, w)
  }

  // ----- references and uniqueness at rest -----

  ghost predicate WellFormed(db: Db) {
    && DistinctKeys(db.facts)
    && (forall f :: f in db.facts ==> f.subscriberId in db.subs && DateKnown(f.ts))
    && (forall a, b :: a in db.subs && b in db.subs && a != b ==> db.subs[a].msisdn != db.subs[b].msisdn)
  }

  lemma {:induction false} UpsertKeepsNumbersUnique(subs: SubTable, events: seq<Event>)
    requires forall a, b :: a in subs && b in subs && a != b ==> subs[a].msisdn != subs[b].msisdn
    requires UpsertSubs(subs, events).Some?
    ensures var s := UpsertSubs(subs, events).value;
      forall a, b :: a in s && b in s && a != b ==> s[a].msisdn != s[b].msisdn
  {
    if events != [] {
      UpsertKeepsNumbersUnique(subs, events[..|events| - 1]);
    }
  }

  lemma InsertKeepsReferences(env: Env, seeds: Seeds, subs: SubTable, facts: seq<Fact>, events: seq<Event>)
    requires InsertAll(env, seeds, facts, events).Some?
    requires forall f :: f in facts ==> f.subscriberId in subs && DateKnown(f.ts)
    requires forall e :: e in events ==> SubscriberOf(e) in subs
    ensures forall f :: f in InsertAll(env, seeds, facts, events).value ==> f.subscriberId in subs && DateKnown(f.ts)
  {
    var after := InsertAll(env, seeds, facts, events).value;
    InsertGrows(env, seeds, facts, events);
    forall f | f in after ensures f.subscriberId in subs && DateKnown(f.ts) {
      var i :| 0 <= i < |after| && after[i] == f;
      if i >= |facts| {
        assert Sourced(env, seeds, after[i], events);
      }
    }
  }

  lemma SinkKeepsWellFormed(env: Env, t: EventType, db: Db, events: seq<Event>)
    requires WellFormed(db) && Sink(env, t, db, events).Some?
    ensures WellFormed(Sink(env, t, db, events).value.db)
  {
    hide FactOf, Joins;
    if t == SubscriberCreated {
      UpsertGrows(db.subs, events);
      UpsertKeepsNumbersUnique(db.subs, events);
    } else if t != TowerStatus {
      var known := Known(db.subs, events);
      InsertGrows(env, db.seeds, db.facts, known);
      KnownOrUnknown(db.subs, events);
      InsertKeepsReferences(env, db.seeds, db.subs, db.facts, known);
    }
  }

  /** Facts keep their rollup items while their subscriber's row stays. */
  lemma ItemsStay(subs: SubTable, subs': SubTable, facts: seq<Fact>)
    requires SubsExtend(subs, subs')
    requires forall f :: f in facts ==> f.subscriberId in subs
    ensures FactItems(subs', facts) == FactItems(subs, facts)
  {
    CollectSame(facts, (f: Fact) => FactItem(subs', f), (f: Fact) => FactItem(subs, f));
  }

  lemma ItemsAppend(subs: SubTable, a: seq<Fact>, b: seq<Fact>)
    ensures FactItems(subs, a + b) == FactItems(subs, a) + FactItems(subs, b)
  {
    CollectAppend(a, b, (f: Fact) => FactItem(subs, f));
  }

  lemma ItemTimes(subs: SubTable, facts: seq<Fact>)
    ensures forall x :: x in FactItems(subs, facts) ==>
              TableOf(x.group) != DlqMinute && exists i :: 0 <= i < |facts| && facts[i].ts == x.ts
  {
    forall x | x in FactItems(subs, facts)
      ensures TableOf(x.group) != DlqMinute && exists i :: 0 <= i < |facts| && facts[i].ts == x.ts
    {
      CollectSource(facts, (f: Fact) => FactItem(subs, f), x);
    }
  }
}
