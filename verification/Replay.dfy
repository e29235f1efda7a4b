/** Loading the same batch again: onto the state it left, which changes nothing, and
    onto any later state, which adds only facts whose subscriber was missing before. */
module Replay {
  import opened Base
  import opened Schemas
  import opened Events
  import opened Rollups
  import opened Towers
  import opened Warehouse
  import opened Batches

  function DlqIds(rs: seq<DlqRecord>): set<string> { set r | r in rs :: r.id }

  /** Two validations of a batch agree on the accepted events and on the identifiers
      of the rejections; the times written on the rejections may differ. */
  ghost predicate SameFeed(f: Feed, g: Feed) {
    forall t :: f.good(t) == g.good(t) && DlqIds(f.bad(t)) == DlqIds(g.bad(t))
  }

  lemma DlqIdsConcat(a: seq<DlqRecord>, b: seq<DlqRecord>)
    ensures DlqIds(a + b) == DlqIds(a) + DlqIds(b)
  {
  }

  lemma SameIdsConcat(a: seq<DlqRecord>, b: seq<DlqRecord>, c: seq<DlqRecord>, d: seq<DlqRecord>)
    requires DlqIds(a) == DlqIds(c) && DlqIds(b) == DlqIds(d)
    ensures DlqIds(a + b) == DlqIds(c + d)
  {
    DlqIdsConcat(a, b);
    DlqIdsConcat(c, d);
  }

  /** The identifier of a referential rejection does not depend on when it is made. */
  lemma {:induction false} ReferentialIds(env: Env, t: EventType, unknown: seq<Event>, c: nat -> int, d: nat -> int)
    ensures DlqIds(Referential(env, t, unknown, c)) == DlqIds(Referential(env, t, unknown, d))
  {
    if unknown != [] {
      var n := |unknown| - 1;
      ReferentialIds(env, t, unknown[..n], c, d);
      var x, y := Referential(env, t, unknown[..n], c), Referential(env, t, unknown[..n], d);
      var a := MakeDlq(env, TopicName(t), REFERENTIAL, env.dumps(unknown[n].source), c(n));
      var b := MakeDlq(env, TopicName(t), REFERENTIAL, env.dumps(unknown[n].source), d(n));
      assert Referential(env, t, unknown, c) == x + [a] && Referential(env, t, unknown, d) == y + [b];
      DlqIdsConcat(x, [a]);
      DlqIdsConcat(y, [b]);
      assert DlqIds([a]) == {a.id} == {b.id} == DlqIds([b]);
    }
  }

  /** One topic's statement again, onto a state that has its events and the same
      subscribers: it succeeds, changes nothing and refuses the same events. */
  lemma SinkAgain(env: Env, t: EventType, db: Db, db2: Db, events: seq<Event>)
    requires Sink(env, t, db, events).Some? && db2.seeds == db.seeds
    requires Settled(env, db2, db2.subs, t, events)
    requires t != SubscriberCreated ==> db2.subs == db.subs
    ensures Sink(env, t, db2, events) == Some(Sunk(db2, Sink(env, t, db, events).value.unknown))
  {
    match t
    case SubscriberCreated => CoveredUpsertIsNoOp(db2.subs, events);
    case TowerStatus => CoveredIsNoOp(db2.towers, Updates(events));
    case _ =>
      KnownOrUnknown(db2.subs, events);
      LandedInsertIsNoOp(env, db2.seeds, db2.facts, Known(db2.subs, events));
  }

  lemma TopicAgain(env: Env, f: Feed, g: Feed, t: EventType, w: Work, w2: Work)
    requires SameFeed(f, g) && TopicWork(env, f, t, w).Some? && w2.db.seeds == w.db.seeds
    requires Settled(env, w2.db, w2.db.subs, t, Unique(f, t))
    requires t != SubscriberCreated ==> w2.db.subs == w.db.subs
    requires w.stamps == w2.stamps && DlqIds(w.dlq) == DlqIds(w2.dlq)
    ensures TopicWork(env, g, t, w2).Some?
    ensures var a, b := TopicWork(env, f, t, w).value, TopicWork(env, g, t, w2).value;
      b.db == w2.db && b.stamps == a.stamps && DlqIds(b.dlq) == DlqIds(a.dlq)
  {
    hide AllFit, Remaining, Stamps, Settled, Sink, Dedupe, MakeDlq;
    var events := Unique(f, t);
    assert Unique(g, t) == events;
    SameIdsConcat(w.dlq, f.bad(t), w2.dlq, g.bad(t));
    if events != [] {
      SinkAgain(env, t, w.db, w2.db, events);
      var unknown := Sink(env, t, w.db, events).value.unknown;
      ReferentialIds(env, t, unknown, f.late(t), g.late(t));
      SameIdsConcat(w.dlq + f.bad(t), Referential(env, t, unknown, f.late(t)),
                    w2.dlq + g.bad(t), Referential(env, t, unknown, g.late(t)));
    }
  }

  /** All topics again, onto a state that has their events and the subscribers they ended with. */
  lemma {:induction false} TopicsAgain(
    env: Env, f: Feed, g: Feed, topics: seq<EventType>, k: nat, w: Work, w2: Work)
    requires SubscribersFirst(topics) && k <= |topics|
    requires SameFeed(f, g) && LoadTo(env, f, topics, k, w).Some? && w2.db.seeds == w.db.seeds
    requires AllSettled(env, f, topics, k, w2.db, w2.db.subs)
    requires k > 0 ==> w2.db.subs == LoadTo(env, f, topics, k, w).value.db.subs
    requires w.stamps == w2.stamps && DlqIds(w.dlq) == DlqIds(w2.dlq)
    ensures LoadTo(env, g, topics, k, w2).Some?
    ensures var a, b := LoadTo(env, f, topics, k, w).value, LoadTo(env, g, topics, k, w2).value;
      b.db == w2.db && b.stamps == a.stamps && DlqIds(b.dlq) == DlqIds(a.dlq)
    decreases k
  {
    hide TopicWork, Settled;
    if k > 0 {
      var mid := LoadTo(env, f, topics, k - 1, w).value;
      TopicEffect(env, f, topics[k - 1], mid);
      LoadEffectTo(env, f, topics, k - 1, w);
      TopicsAgain(env, f, g, topics, k - 1, w, w2);
      TopicAgain(env, f, g, topics[k - 1], mid, LoadTo(env, g, topics, k - 1, w2).value);
    }
  }

  /** Two feeds that agree have the same effect on the same state. */
  ghost predicate SameOutcome(a: Option<Work>, b: Option<Work>) {
    a.Some? == b.Some? && (a.Some? ==> SameWork(a.value, b.value))
  }

  ghost predicate SameWork(a: Work, b: Work) {
    a.db == b.db && a.stamps == b.stamps && DlqIds(a.dlq) == DlqIds(b.dlq)
  }

  lemma TopicSame(env: Env, f: Feed, g: Feed, t: EventType, w: Work, w2: Work)
    requires SameFeed(f, g) && SameWork(w, w2)
    ensures SameOutcome(TopicWork(env, f, t, w), TopicWork(env, g, t, w2))
  {
    hide AllFit, Remaining, Stamps, Sink, Dedupe, MakeDlq;
    var events := Unique(f, t);
    assert Unique(g, t) == events;
    SameIdsConcat(w.dlq, f.bad(t), w2.dlq, g.bad(t));
    if events != [] && Sink(env, t, w.db, events).Some? {
      var unknown := Sink(env, t, w.db, events).value.unknown;
      ReferentialIds(env, t, unknown, f.late(t), g.late(t));
      SameIdsConcat(w.dlq + f.bad(t), Referential(env, t, unknown, f.late(t)),
                    w2.dlq + g.bad(t), Referential(env, t, unknown, g.late(t)));
    }
  }

  lemma {:induction false} TopicsSame(env: Env, f: Feed, g: Feed, topics: seq<EventType>, k: nat, w: Work, w2: Work)
    requires SameFeed(f, g) && SameWork(w, w2) && k <= |topics|
    ensures SameOutcome(LoadTo(env, f, topics, k, w), LoadTo(env, g, topics, k, w2))
    decreases k
  {
    hide TopicWork, SameFeed, SameWork;
    if k > 0 {
      TopicsSame(env, f, g, topics, k - 1, w, w2);
      var a, b := LoadTo(env, f, topics, k - 1, w), LoadTo(env, g, topics, k - 1, w2);
      if a.Some? {
        TopicSame(env, f, g, topics[k - 1], a.value, b.value);
      }
    }
  }

  lemma LoadSame(env: Env, f: Feed, g: Feed, topics: seq<EventType>, db: Db)
    requires SameFeed(f, g)
    ensures SameOutcome(LoadFrom(env, f, topics, db), LoadFrom(env, g, topics, db))
  {
    TopicsSame(env, f, g, topics, |topics|, Work(db, [], []), Work(db, [], []));
  }

  lemma SameLookupsSameDb(a: Db, b: Db)
    requires b == a.(agg := b.agg) && RollupsExact(a) && RollupsExact(b)
    ensures a == b
  {
    forall key ensures Lookup(a.agg, key) == Lookup(b.agg, key) {
      assert Lookup(a.agg, key) == View(Source(a, TableOf(key.group)), key);
    }
    SameLookups(a.agg, b.agg);
  }

  /** What a successful load of a batch leaves behind. */
  lemma LoadEffect(env: Env, f: Feed, topics: seq<EventType>, db: Db)
    requires SubscribersFirst(topics) && LoadFrom(env, f, topics, db).Some? && WellFormed(db)
    ensures var w := LoadFrom(env, f, topics, db).value;
      && Grows(db, w.db) && WellFormed(w.db) && w.db.dlq == db.dlq
      && AllSettled(env, f, topics, |topics|, w.db, w.db.subs)
    ensures var w := LoadFrom(env, f, topics, db).value;
      RollupsExact(db) && WholeMinutes(w.stamps) ==> RollupsExact(w.db)
  {
    var start := Work(db, [], []);
    var w := LoadTo(env, f, topics, |topics|, start).value;
    LoadEffectTo(env, f, topics, |topics|, start);
    TopicsSettle(env, f, topics, |topics|, start);
    var after := Finish(w).value;
    FinishOnlyRollups(w);
    AllSettledGrows(env, f, topics, |topics|, w.db, after, w.db.subs);
    if RollupsExact(db) && WholeMinutes(w.stamps) {
      FinishMakesExact(db, w);
    }
  }

  lemma FinishOnlyRollups(w: Work)
    requires Finish(w).Some?
    ensures Finish(w).value == w.db.(agg := Finish(w).value.agg)
  {
  }

  /** Loading a batch onto the state it left is a no-op that cannot fail, and it
      publishes the same dead-letter identifiers again. */
  lemma LoadIsIdempotent(env: Env, f: Feed, g: Feed, topics: seq<EventType>, db: Db)
    requires SubscribersFirst(topics) && SameFeed(f, g) && LoadFrom(env, f, topics, db).Some?
    requires WellFormed(db) && RollupsExact(db) && WholeMinutes(LoadFrom(env, f, topics, db).value.stamps)
    ensures var w := LoadFrom(env, f, topics, db).value;
      && LoadFrom(env, g, topics, w.db).Some?
      && LoadFrom(env, g, topics, w.db).value.db == w.db
      && DlqIds(LoadFrom(env, g, topics, w.db).value.dlq) == DlqIds(w.dlq)
  {
    var start := Work(db, [], []);
    var w := LoadTo(env, f, topics, |topics|, start).value;
    var after := Finish(w).value;
    LoadEffect(env, f, topics, db);
    FinishOnlyRollups(w);
    var restart := Work(after, [], []);
    TopicsAgain(env, f, g, topics, |topics|, start, restart);
    FinishAgain(LoadTo(env, g, topics, |topics|, restart).value, after);
  }

  lemma FinishAgain(w: Work, db: Db)
    requires w.db == db && WellFormed(db) && RollupsExact(db) && WholeMinutes(w.stamps)
    ensures Finish(w) == Some(db)
  {
    FinishMakesExact(db, w);
    SameLookupsSameDb(db, Finish(w).value);
  }

  /** A fact that a replay adds comes from an event whose subscriber was not in the
      dimension when its batch was first loaded. */
  ghost predicate FormerlyUnknown(env: Env, f: Feed, topics: seq<EventType>, subs: SubTable, fact: Fact) {
    exists t, e :: t in topics && e in Unique(f, t) && SubscriberOf(e) !in subs && FactOf(env, e) == Some(fact)
  }

  ghost predicate AddsOnlyFormerlyUnknown(env: Env, f: Feed, topics: seq<EventType>, subs: SubTable, a: Db, b: Db) {
    && b == a.(facts := b.facts) && a.facts <= b.facts
    && forall i :: |a.facts| <= i < |b.facts| ==> FormerlyUnknown(env, f, topics, subs, b.facts[i])
  }

  lemma FactsLater(env: Env, f: Feed, t: EventType, subs: SubTable, db: Db)
    requires t != SubscriberCreated && t != TowerStatus && Settled(env, db, subs, t, Unique(f, t))
    requires Sink(env, t, db, Unique(f, t)).Some?
    ensures AddsOnlyFormerlyUnknown(env, f, [t], subs, db, Sink(env, t, db, Unique(f, t)).value.db)
  {
    hide FactOf, Joins, DateKnown, Unique, InsertAll;
    var known, after := Known(db.subs, Unique(f, t)), Sink(env, t, db, Unique(f, t)).value.db;
    InsertGrows(env, db.seeds, db.facts, known);
    KnownOrUnknown(db.subs, Unique(f, t));
    forall i | |db.facts| <= i < |after.facts| ensures FormerlyUnknown(env, f, [t], subs, after.facts[i]) {
      assert Sourced(env, db.seeds, after.facts[i], known);
      var e :| e in known && Joins(db.seeds, e) && FactOf(env, e) == Some(after.facts[i]) && DateKnown(after.facts[i].ts);
      assert !Landed(env, db.seeds, db.facts, e);
      assert t in [t];
    }
  }

  lemma TopicLater(env: Env, f: Feed, g: Feed, t: EventType, subs: SubTable, w2: Work)
    requires SameFeed(f, g) && TopicWork(env, g, t, w2).Some?
    requires Settled(env, w2.db, subs, t, Unique(f, t))
    ensures AddsOnlyFormerlyUnknown(env, f, [t], subs, w2.db, TopicWork(env, g, t, w2).value.db)
  {
    hide Dedupe, InsertAll, UpsertSubs, WriteAll, AllFit, Remaining, Referential, FormerlyUnknown;
    var events, db := Unique(f, t), w2.db;
    assert Unique(g, t) == events;
    if events != [] {
      match t
      case SubscriberCreated => CoveredUpsertIsNoOp(db.subs, events);
      case TowerStatus => CoveredIsNoOp(db.towers, Updates(events));
      case _ => FactsLater(env, f, t, subs, db);
    }
  }

  lemma {:induction false} TopicsLater(
    env: Env, f: Feed, g: Feed, topics: seq<EventType>, k: nat, subs: SubTable, w2: Work)
    requires k <= |topics| && SameFeed(f, g) && LoadTo(env, g, topics, k, w2).Some?
    requires AllSettled(env, f, topics, k, w2.db, subs)
    ensures AddsOnlyFormerlyUnknown(env, f, topics, subs, w2.db, LoadTo(env, g, topics, k, w2).value.db)
    decreases k
  {
    hide TopicWork, Settled;
    if k > 0 {
      var t := topics[k - 1];
      var mid, w3 := LoadTo(env, g, topics, k - 1, w2).value, LoadTo(env, g, topics, k, w2).value;
      TopicsLater(env, f, g, topics, k - 1, subs, w2);
      SettledGrows(env, w2.db, mid.db, subs, t, Unique(f, t));
      TopicLater(env, f, g, t, subs, mid);
      forall i | |w2.db.facts| <= i < |w3.db.facts| ensures FormerlyUnknown(env, f, topics, subs, w3.db.facts[i]) {
        if i >= |mid.db.facts| {
          assert FormerlyUnknown(env, f, [t], subs, w3.db.facts[i]);
          assert t in topics;
        }
      }
    }
  }

  /** Replaying any earlier batch onto any later state, at fixed verdicts, changes no
      subscriber, tower or fact row that is there, adds only facts whose subscriber
      was unknown the first time, and keeps the rollups exact. */
  lemma ReplayOfEarlierBatch(env: Env, f: Feed, g: Feed, topics: seq<EventType>, first: Db, was: Work, later: Db,
      now: Work)
    requires SubscribersFirst(topics) && SameFeed(f, g) && WellFormed(first)
    requires LoadFrom(env, f, topics, first) == Some(was) && LoadFrom(env, g, topics, later) == Some(now)
    requires Grows(was.db, later) && WellFormed(later) && RollupsExact(later) && WholeMinutes(now.stamps)
    ensures now.db.subs == later.subs && now.db.towers == later.towers && now.db.dlq == later.dlq
    ensures later.facts <= now.db.facts
    ensures forall i :: |later.facts| <= i < |now.db.facts| ==>
              FormerlyUnknown(env, f, topics, was.db.subs, now.db.facts[i])
    ensures RollupsExact(now.db)
  {
    LoadEffect(env, f, topics, first);
    AllSettledGrows(env, f, topics, |topics|, was.db, later, was.db.subs);
    var restart := Work(later, [], []);
    TopicsLater(env, f, g, topics, |topics|, was.db.subs, restart);
    LoadEffect(env, g, topics, later);
    FinishOnlyRollups(LoadTo(env, g, topics, |topics|, restart).value);
  }
}
