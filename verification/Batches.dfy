/** One micro-batch: what validation feeds to the sinks, the transaction that loads
    it topic by topic and refreshes the rollups, and what loading keeps. */
module Batches {
  import opened Base
  import opened Schemas
  import opened Events
  import opened Rollups
  import opened Towers
  import opened Warehouse

  /** What validation makes of a batch, per topic, with the clock read afterwards. */
  datatype Feed = Feed(good: EventType -> seq<Event>, bad: EventType -> seq<DlqRecord>,
                       late: EventType -> nat -> int)

  function FeedOf(env: Env, judge: Judging, batch: Batch, clock: Clock): Feed {
    Feed((t: EventType) => Accepted(judge, t, Raws(batch, t), clock),
         (t: EventType) => Rejected(env, judge, t, Raws(batch, t), clock),
         (t: EventType) => LateAfter(clock, t, |Raws(batch, t)|))
  }

  function Unique(feed: Feed, t: EventType): seq<Event> { Dedupe(feed.good(t), EventId()) }

  /** The transaction so far: its view of the warehouse, the dead letters and the
      timestamps it has gathered. */
  datatype Work = Work(db: Db, dlq: seq<DlqRecord>, stamps: seq<Stamp>)

  /** The events that remain after the refused ones are taken out. */
  function Remaining(events: seq<Event>, unknown: seq<Event>): seq<Event> {
    if events == [] then []
    else
      var e := events[|events| - 1];
      Remaining(events[..|events| - 1], unknown) + if e in unknown then [] else [e]
  }

  function Stamps(events: seq<Event>): seq<Stamp> {
    seq(|events|, i requires 0 <= i < |events| => events[i].ts)
  }

  predicate AllFit(events: seq<Event>) { forall e | e in events :: LakeFits(e) }

  function TopicWork(env: Env, feed: Feed, t: EventType, w: Work): Option<Work> {
    var events := Unique(feed, t);
    if events == [] then Some(w.(dlq := w.dlq + feed.bad(t)))
    else if !AllFit(events) then None
    else
      match Sink(env, t, w.db, events)
      case None => None
      case Some(Sunk(db, unknown)) =>
        Some(Work(db, w.dlq + feed.bad(t) + Referential(env, t, unknown, feed.late(t)),
                  w.stamps + Stamps(Remaining(events, unknown))))
  }

  /** The work after the first k topics. */
  function LoadTo(env: Env, feed: Feed, topics: seq<EventType>, k: nat, w: Work): Option<Work>
    requires k <= |topics|
    decreases k
  {
    if k == 0 then Some(w)
    else
      match LoadTo(env, feed, topics, k - 1, w)
      case None => None
      case Some(w') => TopicWork(env, feed, topics[k - 1], w')
  }

  /** min() and max() of a list of times: the first among equals. */
  function MinStamp(ts: seq<Stamp>): Stamp
    requires ts != []
  {
    if |ts| == 1 then ts[0]
    else
      var m, x := MinStamp(ts[..|ts| - 1]), ts[|ts| - 1];
      if x.utc < m.utc then x else m
  }

  function MaxStamp(ts: seq<Stamp>): Stamp
    requires ts != []
  {
    if |ts| == 1 then ts[0]
    else
      var m, x := MaxStamp(ts[..|ts| - 1]), ts[|ts| - 1];
      if x.utc > m.utc then x else m
  }

  function Finish(w: Work): Option<Db> {
    if w.stamps == [] then Some(w.db) else RefreshFacts(w.db, MinStamp(w.stamps), MaxStamp(w.stamps))
  }

  /** The transaction over a list of topics; None when it is rolled back. */
  function LoadFrom(env: Env, feed: Feed, topics: seq<EventType>, db: Db): Option<Work> {
    match LoadTo(env, feed, topics, |topics|, Work(db, [], []))
    case None => None
    case Some(w) =>
      match Finish(w)
      case None => None
      case Some(db') => Some(w.(db := db'))
  }

  /** The whole transaction of a batch. */
  function Load(env: Env, feed: Feed, db: Db): Option<Work> {
    LoadFrom(env, feed, TOPIC_ORDER, db)
  }

  predicate SubscribersFirst(topics: seq<EventType>) {
    topics != [] && forall i | 0 < i < |topics| :: topics[i] != SubscriberCreated
  }

  // ----- what loading keeps -----

  /** The later state keeps every row of the earlier: dimensions and facts as they
      are, tower rows no older. */
  ghost predicate Grows(a: Db, b: Db) {
    && a.seeds == b.seeds
    && SubsExtend(a.subs, b.subs)
    && (forall id :: id in a.towers ==> id in b.towers && b.towers[id].updatedAt >= a.towers[id].updatedAt)
    && a.facts <= b.facts
  }

  /** Every event is where it belongs: its subscriber, its tower's row or a later
      one, or its fact row unless its subscriber is missing from `subs`. */
  ghost predicate Settled(env: Env, db: Db, subs: SubTable, t: EventType, events: seq<Event>) {
    match t
    case SubscriberCreated => SubsCover(db.subs, events)
    case TowerStatus => Covers(db.towers, Updates(events))
    case _ => forall e :: e in events && SubscriberOf(e) in subs ==> Landed(env, db.seeds, db.facts, e)
  }

  lemma SettledGrows(env: Env, a: Db, b: Db, subs: SubTable, t: EventType, events: seq<Event>)
    requires Settled(env, a, subs, t, events) && Grows(a, b)
    ensures Settled(env, b, subs, t, events)
  {
    assert Keys(a.facts) <= Keys(b.facts);
  }

  ghost predicate OnlyData(a: Db, b: Db) {
    a.agg == b.agg && a.dlq == b.dlq
  }

  /** Every fact added since `a` has its time among the stamps. */
  ghost predicate Stamped(a: Db, b: Db, stamps: seq<Stamp>)
    requires a.facts <= b.facts
  {
    && (stamps == [] ==> b.facts == a.facts)
    && forall i :: |a.facts| <= i < |b.facts| ==> HasTime(stamps, b.facts[i].ts)
  }

  ghost predicate HasTime(stamps: seq<Stamp>, ts: int) {
    exists j :: 0 <= j < |stamps| && stamps[j].utc == ts
  }

  lemma {:induction false} RemainingAreKnown(subs: SubTable, events: seq<Event>, all: seq<Event>)
    requires forall e :: e in events ==> e in all
    ensures Remaining(events, Unknown(subs, all)) == Known(subs, events)
  {
    KnownOrUnknown(subs, all);
    if events != [] {
      var n := |events| - 1;
      assert events[n] in events;
      RemainingAreKnown(subs, events[..n], all);
    }
  }

  lemma {:induction false} RemainingAll(events: seq<Event>)
    ensures Remaining(events, []) == events
  {
    if events != [] {
      RemainingAll(events[..|events| - 1]);
    }
  }

  /** One topic's statement only grows the warehouse and settles its events. */
  lemma SinkEffect(env: Env, t: EventType, db: Db, events: seq<Event>)
    requires Sink(env, t, db, events).Some?
    ensures var s := Sink(env, t, db, events).value;
      && Grows(db, s.db) && OnlyData(db, s.db)
      && Settled(env, s.db, s.db.subs, t, events)
      && Stamped(db, s.db, Stamps(Remaining(events, s.unknown)))
      && (t != SubscriberCreated ==> s.db.subs == db.subs)
  {
    match t
    case SubscriberCreated => UpsertGrows(db.subs, events);
    case TowerStatus => WriteAllMovesForward(db.towers, Updates(events));
    case _ => FactSinkEffect(env, t, db, events);
  }

  lemma FactSinkEffect(env: Env, t: EventType, db: Db, events: seq<Event>)
    requires Sink(env, t, db, events).Some? && t != SubscriberCreated && t != TowerStatus
    ensures var s := Sink(env, t, db, events).value;
      && s.unknown == Unknown(db.subs, events) && s.db == db.(facts := s.db.facts) && db.facts <= s.db.facts
      && Settled(env, s.db, db.subs, t, events)
      && Stamped(db, s.db, Stamps(Remaining(events, s.unknown)))
  {
    var s := Sink(env, t, db, events).value;
    var known := Known(db.subs, events);
    InsertGrows(env, db.seeds, db.facts, known);
    KnownOrUnknown(db.subs, events);
    RemainingAreKnown(db.subs, events, events);
    forall i | |db.facts| <= i < |s.db.facts| ensures HasTime(Stamps(known), s.db.facts[i].ts) {
      SourcedTime(env, db.seeds, s.db.facts[i], known);
    }
  }

  lemma SourcedTime(env: Env, seeds: Seeds, f: Fact, events: seq<Event>)
    requires Sourced(env, seeds, f, events)
    ensures HasTime(Stamps(events), f.ts)
  {
    var e :| e in events && Joins(seeds, e) && FactOf(env, e) == Some(f) && DateKnown(f.ts);
    var j :| 0 <= j < |events| && events[j] == e;
    assert Stamps(events)[j].utc == e.ts.utc;
  }

  lemma GrowsTransitive(a: Db, b: Db, c: Db)
    requires Grows(a, b) && Grows(b, c)
    ensures Grows(a, c)
  {
  }

  lemma StampedTransitive(a: Db, b: Db, c: Db, s: seq<Stamp>, s': seq<Stamp>)
    requires a.facts <= b.facts <= c.facts
    requires Stamped(a, b, s) && Stamped(b, c, s')
    ensures Stamped(a, c, s + s')
  {
    var all := s + s';
    forall i | |a.facts| <= i < |c.facts| ensures HasTime(all, c.facts[i].ts) {
      if i < |b.facts| {
        assert HasTime(s, b.facts[i].ts);
        var j :| 0 <= j < |s| && s[j].utc == b.facts[i].ts;
        assert all[j] == s[j];
      } else {
        assert HasTime(s', c.facts[i].ts);
        var j :| 0 <= j < |s'| && s'[j].utc == c.facts[i].ts;
        assert all[|s| + j] == s'[j];
      }
    }
  }

  /** What loading topics does, whatever their order. */
  ghost predicate Loaded(w: Work, w': Work) {
    && Grows(w.db, w'.db) && OnlyData(w.db, w'.db)
    && w.stamps <= w'.stamps
    && Stamped(w.db, w'.db, w'.stamps)
    && (WellFormed(w.db) ==> WellFormed(w'.db))
  }

  lemma TopicEffect(env: Env, feed: Feed, t: EventType, w: Work)
    requires TopicWork(env, feed, t, w).Some?
    ensures var w' := TopicWork(env, feed, t, w).value;
      && Loaded(w, w')
      && Settled(env, w'.db, w'.db.subs, t, Unique(feed, t))
      && (t != SubscriberCreated ==> w'.db.subs == w.db.subs)
  {
    var w' := TopicWork(env, feed, t, w).value;
    var events := Unique(feed, t);
    if events == [] {
      assert Updates(events) == [];
    } else {
      SinkEffect(env, t, w.db, events);
      if WellFormed(w.db) {
        SinkKeepsWellFormed(env, t, w.db, events);
      }
      var s := Sink(env, t, w.db, events).value;
      assert Stamped(w.db, w.db, w.stamps);
      StampedTransitive(w.db, w.db, w'.db, w.stamps, Stamps(Remaining(events, s.unknown)));
    }
  }

  lemma LoadedTransitive(a: Work, b: Work, c: Work)
    requires Loaded(a, b) && Loaded(b, c)
    ensures Loaded(a, c)
  {
    GrowsTransitive(a.db, b.db, c.db);
    StampedTransitive(a.db, b.db, c.db, b.stamps, c.stamps);
    StampsInside(a.db, c.db, b.stamps, c.stamps);
  }

  lemma {:induction false} LoadEffectTo(env: Env, feed: Feed, topics: seq<EventType>, k: nat, w: Work)
    requires k <= |topics| && LoadTo(env, feed, topics, k, w).Some?
    ensures Loaded(w, LoadTo(env, feed, topics, k, w).value)
    decreases k
  {
    hide TopicWork;
    if k > 0 {
      var mid := LoadTo(env, feed, topics, k - 1, w).value;
      LoadEffectTo(env, feed, topics, k - 1, w);
      TopicEffect(env, feed, topics[k - 1], mid);
      LoadedTransitive(w, mid, LoadTo(env, feed, topics, k, w).value);
    } else {
      assert Stamped(w.db, w.db, w.stamps);
    }
  }

  lemma StampsInside(a: Db, b: Db, s: seq<Stamp>, s': seq<Stamp>)
    requires a.facts <= b.facts && s <= s' && Stamped(a, b, s + s')
    ensures Stamped(a, b, s')
  {
    forall i | |a.facts| <= i < |b.facts| ensures HasTime(s', b.facts[i].ts) {
      assert HasTime(s + s', b.facts[i].ts);
      var j :| 0 <= j < |s + s'| && (s + s')[j].utc == b.facts[i].ts;
      assert s'[if j < |s| then j else j - |s|].utc == b.facts[i].ts;
    }
  }

  /** The events of the first k topics are settled against `subs`. */
  ghost predicate AllSettled(env: Env, feed: Feed, topics: seq<EventType>, k: nat, db: Db, subs: SubTable)
    requires k <= |topics|
  {
    forall i :: 0 <= i < k ==> Settled(env, db, subs, topics[i], Unique(feed, topics[i]))
  }

  lemma AllSettledGrows(env: Env, feed: Feed, topics: seq<EventType>, k: nat, a: Db, b: Db, subs: SubTable)
    requires k <= |topics| && AllSettled(env, feed, topics, k, a, subs) && Grows(a, b)
    ensures AllSettled(env, feed, topics, k, b, subs)
  {
    forall i | 0 <= i < k ensures Settled(env, b, subs, topics[i], Unique(feed, topics[i])) {
      SettledGrows(env, a, b, subs, topics[i], Unique(feed, topics[i]));
    }
  }

  /** Subscribers come first, so a batch's facts are checked against a dimension that
      no longer changes; after the load every topic is settled against it. */
  lemma {:induction false} TopicsSettle(env: Env, feed: Feed, topics: seq<EventType>, k: nat, w: Work)
    requires SubscribersFirst(topics) && k <= |topics| && LoadTo(env, feed, topics, k, w).Some?
    ensures var w' := LoadTo(env, feed, topics, k, w).value; AllSettled(env, feed, topics, k, w'.db, w'.db.subs)
    decreases k
  {
    hide TopicWork, Settled, Loaded;
    if k > 0 {
      var mid, w' := LoadTo(env, feed, topics, k - 1, w).value, LoadTo(env, feed, topics, k, w).value;
      TopicsSettle(env, feed, topics, k - 1, w);
      TopicEffect(env, feed, topics[k - 1], mid);
      if k > 1 {
        AllSettledGrows(env, feed, topics, k - 1, mid.db, w'.db, mid.db.subs);
      }
    }
  }

  // ----- the rollups stay exact -----

  ghost predicate WholeMinutes(stamps: seq<Stamp>) {
    forall j :: 0 <= j < |stamps| ==> stamps[j].offset % MINUTE == 0
  }

  lemma {:induction false} StampBounds(ts: seq<Stamp>)
    requires ts != []
    ensures MinStamp(ts) in ts && MaxStamp(ts) in ts
    ensures forall j :: 0 <= j < |ts| ==> MinStamp(ts).utc <= ts[j].utc <= MaxStamp(ts).utc
  {
    if |ts| > 1 {
      var n := |ts| - 1;
      StampBounds(ts[..n]);
      assert ts == ts[..n] + [ts[n]];
    }
  }

  /** Stamp j is the first of the earliest, or with `latest` of the latest, of the list. */
  ghost predicate FirstExtreme(ts: seq<Stamp>, j: nat, latest: bool)
    requires j < |ts|
  {
    forall i :: 0 <= i < |ts| ==>
      if latest then ts[i].utc <= ts[j].utc && (i < j ==> ts[i].utc < ts[j].utc)
      else ts[j].utc <= ts[i].utc && (i < j ==> ts[j].utc < ts[i].utc)
  }

  /** Among equal instants written with different offsets, min() and max() give the first. */
  lemma {:induction false} FirstOfEquals(ts: seq<Stamp>) returns (lo: nat, hi: nat)
    requires ts != []
    ensures lo < |ts| && MinStamp(ts) == ts[lo] && FirstExtreme(ts, lo, false)
    ensures hi < |ts| && MaxStamp(ts) == ts[hi] && FirstExtreme(ts, hi, true)
  {
    lo, hi := 0, 0;
    if |ts| > 1 {
      var n := |ts| - 1;
      lo, hi := FirstOfEquals(ts[..n]);
      assert FirstExtreme(ts[..n], lo, false) && FirstExtreme(ts[..n], hi, true);
      assert forall i :: 0 <= i < n ==> ts[..n][i] == ts[i];
      if ts[n].utc < ts[lo].utc {
        lo := n;
      }
      if ts[n].utc > ts[hi].utc {
        hi := n;
      }
    }
  }

  /** Outside the window of its stamps a load leaves the source of every fact rollup alone. */
  lemma SourceOutside(a: Db, b: Db, stamps: seq<Stamp>, t: Rollup, w: Window)
    requires WellFormed(a) && Grows(a, b) && OnlyData(a, b) && Stamped(a, b, stamps)
    requires Aligned(w) && forall j :: 0 <= j < |stamps| ==> w.lo <= stamps[j].utc < w.next
    requires RollupsExact(a) && t != DlqMinute
    ensures ExactOutside(b.agg, Source(b, t), t, w)
  {
    var more := b.facts[|a.facts|..];
    assert b.facts == a.facts + more;
    ItemsAppend(b.subs, a.facts, more);
    ItemsStay(a.subs, b.subs, a.facts);
    ItemTimes(b.subs, more);
    var items, added := FactItems(a.subs, a.facts), FactItems(b.subs, more);
    forall key: AggKey | TableOf(key.group) == t && !(w.lo <= key.minute <= w.hi)
      ensures Lookup(b.agg, key) == View(Source(b, t), key)
    {
      forall x | x in added ensures KeyOf(x) != key {
        var i :| 0 <= i < |more| && more[i].ts == x.ts;
        assert more[i] == b.facts[|a.facts| + i];
        assert HasTime(stamps, b.facts[|a.facts| + i].ts);
        FloorBetween(x.ts, w);
      }
      TallyElsewhere(added, key);
      TallyAppend(items, added, key);
      assert Lookup(a.agg, key) == View(Source(a, t), key);
    }
  }

  lemma RefreshOneExact(db: Db, t: Rollup, w: Window)
    requires Aligned(w) && ExactOutside(db.agg, Source(db, t), t, w)
    ensures RefreshOne(db, t, w).Some?
    ensures var d := RefreshOne(db, t, w).value;
      && d == db.(agg := d.agg)
      && forall key :: Lookup(d.agg, key) == if TableOf(key.group) == t then View(Source(db, t), key) else Lookup(db.agg, key)
  {
    RefreshMakesExact(db.agg, Source(db, t), t, w);
  }

  /** After the refresh every rollup equals a full recomputation over the facts, and
      the refresh cannot have failed. */
  lemma FinishMakesExact(a: Db, w: Work)
    requires WellFormed(a) && RollupsExact(a)
    requires Grows(a, w.db) && OnlyData(a, w.db) && Stamped(a, w.db, w.stamps) && WholeMinutes(w.stamps)
    ensures Finish(w).Some? && RollupsExact(Finish(w).value)
    ensures Finish(w).value == w.db.(agg := Finish(w).value.agg)
  {
    if w.stamps == [] {
      ItemsStay(a.subs, w.db.subs, a.facts);
      forall key: AggKey ensures Lookup(w.db.agg, key) == View(Source(w.db, TableOf(key.group)), key) {
        assert Lookup(a.agg, key) == View(Source(a, TableOf(key.group)), key);
      }
    } else {
      StampBounds(w.stamps);
      var lo, hi := MinStamp(w.stamps), MaxStamp(w.stamps);
      var win := MinuteParams(lo, hi);
      AlignedWindow(lo, hi);
      SourceOutside(a, w.db, w.stamps, RevenueMinute, win);
      SourceOutside(a, w.db, w.stamps, CallsMinute, win);
      SourceOutside(a, w.db, w.stamps, DataMinute, win);
      RefreshThree(w.db, win);
      var d := RefreshFacts(w.db, lo, hi).value;
      forall key: AggKey ensures Lookup(d.agg, key) == View(Source(d, TableOf(key.group)), key) {
        if TableOf(key.group) == DlqMinute {
          assert Lookup(a.agg, key) == View(Source(a, DlqMinute), key);
        }
      }
    }
  }

  lemma RefreshThree(db: Db, w: Window)
    requires Aligned(w)
    requires ExactOutside(db.agg, Source(db, RevenueMinute), RevenueMinute, w)
    requires ExactOutside(db.agg, Source(db, CallsMinute), CallsMinute, w)
    requires ExactOutside(db.agg, Source(db, DataMinute), DataMinute, w)
    ensures RefreshOne(db, RevenueMinute, w).Some?
    ensures var d1 := RefreshOne(db, RevenueMinute, w).value;
      && RefreshOne(d1, CallsMinute, w).Some?
      && var d2 := RefreshOne(d1, CallsMinute, w).value;
      && RefreshOne(d2, DataMinute, w).Some?
      && var d3 := RefreshOne(d2, DataMinute, w).value;
      && d3 == db.(agg := d3.agg)
      && forall key :: Lookup(d3.agg, key)
           == if TableOf(key.group) == DlqMinute then Lookup(db.agg, key) else View(Source(db, TableOf(key.group)), key)
  {
    RefreshOneExact(db, RevenueMinute, w);
    var d1 := RefreshOne(db, RevenueMinute, w).value;
    assert ExactOutside(d1.agg, Source(d1, CallsMinute), CallsMinute, w);
    RefreshOneExact(d1, CallsMinute, w);
    var d2 := RefreshOne(d1, CallsMinute, w).value;
    assert ExactOutside(d2.agg, Source(d2, DataMinute), DataMinute, w);
    RefreshOneExact(d2, DataMinute, w);
  }
}
