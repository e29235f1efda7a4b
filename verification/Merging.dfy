/** Batch boundaries of a whole run: merging any two adjacent batches of a plan, with
    all later batches still to run. */
module Merging {
  import opened Base
  import opened Schemas
  import opened Events
  import opened Warehouse
  import opened Batches
  import opened Records
  import opened Protocol
  import opened Guarantees
  import opened Granularity
  import opened Outcomes

  function Later(a: int, b: int): int { if a >= b then a else b }

  /** The plan with batches i and i + 1 arriving as one, fetched when both are there. */
  function MergeAt(p: Plan, i: nat): Plan
    requires i + 1 < |p.batches| == |p.since|
  {
    p.(batches := p.batches[..i] + [p.batches[i] + p.batches[i + 1]] + p.batches[i + 2..],
       since := p.since[..i] + [Later(p.since[i], p.since[i + 1])] + p.since[i + 2..])
  }

  /** What the theorems here ask of a plan. */
  ghost predicate Settling(p: Plan) {
    ValidPlan(p) && Distinct(p.topics) && StablePlan(p) && WholePlan(p) && EventsUnique(p)
  }

  /** Batch k of the merged plan, in terms of the original one. */
  lemma MergedBatch(p: Plan, i: nat, k: nat)
    requires i + 1 < |p.batches| == |p.since| && k < |p.batches| - 1
    ensures var q := MergeAt(p, i);
      && |q.batches| == |q.since| == |p.batches| - 1
      && (k < i ==> q.batches[k] == p.batches[k] && q.since[k] == p.since[k])
      && (k == i ==> q.batches[k] == p.batches[i] + p.batches[i + 1] && q.since[k] == Later(p.since[i], p.since[i + 1]))
      && (k > i ==> q.batches[k] == p.batches[k + 1] && q.since[k] == p.since[k + 1])
  {
  }

  lemma LaterStable(judge: Judging, batch: Batch, time: int, later: int)
    requires StableFrom(judge, batch, time) && time <= later
    ensures StableFrom(judge, batch, later)
  {
    forall row, now | row in batch && later <= now
      ensures judge(row.topic, row.raw, now) == judge(row.topic, row.raw, later)
    {
      assert judge(row.topic, row.raw, now) == judge(row.topic, row.raw, time);
      assert judge(row.topic, row.raw, later) == judge(row.topic, row.raw, time);
    }
  }

  lemma FromPart(p: Plan, i: nat, k: nat, t: EventType, e: Event, hi: int) returns (j: nat)
    requires i + 1 < |p.batches| == |p.since| && k < |p.batches| - 1
    requires FromRow(p.judge, MergeAt(p, i).batches[k], t, e, hi)
    ensures j < |p.batches| && FromRow(p.judge, p.batches[j], t, e, hi)
  {
    hide MergeAt, AcceptedBy;
    MergedBatch(p, i, k);
    var raw :| Row(t, raw) in MergeAt(p, i).batches[k] && AcceptedBy(p.judge, t, raw, e, hi);
    j := if k < i then k else if k > i then k + 1 else if Row(t, raw) in p.batches[i] then i else i + 1;
    assert Row(t, raw) in p.batches[j];
  }

  /** The merged plan is as good as the original. */
  lemma MergedPlanSettles(p: Plan, i: nat)
    requires Settling(p) && i + 1 < |p.batches|
    ensures Settling(MergeAt(p, i))
  {
    hide FromRow, Genuine, GoodOrder, SameId, MergeAt, WholeMinuteRow, StableFrom;
    var q := MergeAt(p, i);
    SamePlan(p, i);
    forall k | 0 <= k < |q.batches| ensures StableFrom(q.judge, q.batches[k], q.since[k]) && WholeBatch(q.env, q.batches[k]) {
      MergedBatch(p, i, k);
      if k == i {
        LaterStable(p.judge, p.batches[i], p.since[i], q.since[k]);
        LaterStable(p.judge, p.batches[i + 1], p.since[i + 1], q.since[k]);
        MergedStable(p.judge, p.batches[i], p.batches[i + 1], q.since[k]);
      }
    }
    forall k, m, t, a: Event, b: Event, ha, hb |
      0 <= k < |q.batches| && 0 <= m < |q.batches| && FromRow(q.judge, q.batches[k], t, a, ha)
      && FromRow(q.judge, q.batches[m], t, b, hb) && SameId(q.env, a, b)
      ensures a == b
    {
      var x := FromPart(p, i, k, t, a, ha);
      var y := FromPart(p, i, m, t, b, hb);
    }
  }

  lemma SamePlan(p: Plan, i: nat)
    requires i + 1 < |p.batches| == |p.since|
    ensures var q := MergeAt(p, i);
      && q.env == p.env && q.judge == p.judge && q.seeds == p.seeds && q.topics == p.topics
      && |q.batches| == |q.since| == |p.batches| - 1
  {
  }

  // ----- feeds -----

  lemma PlannedFeed(p: Plan, k: nat)
    requires Settling(p) && k < |p.batches|
    ensures Sound(p.env, RefFeed(p, k)) && WholeFeed(RefFeed(p, k)) && FeedFits(p, p.batches[k], RefFeed(p, k), p.since[k])
  {
    hide FeedOf, Genuine, EventsUnique, WholeBatch;
    var time := p.since[k];
    assert InTime(SteadyClock(time), time, time);
    PlannedFeedIsSound(p, k, SteadyClock(time), time, time);
    FeedIsWhole(p, p.batches[k], SteadyClock(time), time, time);
    FeedOfFits(p, p.batches[k], SteadyClock(time), time, time);
  }

  lemma SameLaterFeed(p: Plan, i: nat, k: nat)
    requires i + 1 < |p.batches| == |p.since| && k < |p.batches| - 1 && k != i
    ensures |MergeAt(p, i).batches| == |MergeAt(p, i).since| == |p.batches| - 1
    ensures RefFeed(MergeAt(p, i), k) == RefFeed(p, if k < i then k else k + 1)
  {
    hide MergeAt, FeedOf;
    MergedBatch(p, i, k);
    SamePlan(p, i);
  }

  lemma SteadyGood(p: Plan, k: nat, later: int)
    requires StablePlan(p) && k < |p.batches| == |p.since| && p.since[k] <= later
    ensures forall t :: FeedOf(p.env, p.judge, p.batches[k], SteadyClock(later)).good(t) == RefFeed(p, k).good(t)
  {
    hide FeedOf;
    var time := p.since[k];
    assert InTime(SteadyClock(time), time, time) && InTime(SteadyClock(later), time, later);
    StableFeedsAgree(p.env, p.judge, p.batches[k], time, SteadyClock(time), time, SteadyClock(later), later);
  }

  /** The merged batch validates to what its parts validate to. */
  lemma MergedFeed(p: Plan, i: nat)
    requires Settling(p) && i + 1 < |p.batches|
    ensures |MergeAt(p, i).batches| == |MergeAt(p, i).since| == |p.batches| - 1
    ensures Merges(RefFeed(p, i), RefFeed(p, i + 1), RefFeed(MergeAt(p, i), i))
  {
    hide MergeAt, FeedOf, Genuine, EventsUnique, StableFrom;
    var time := Later(p.since[i], p.since[i + 1]);
    MergedBatch(p, i, i);
    SamePlan(p, i);
    SteadyGood(p, i, time);
    SteadyGood(p, i + 1, time);
    LaterStable(p.judge, p.batches[i], p.since[i], time);
    LaterStable(p.judge, p.batches[i + 1], p.since[i + 1], time);
    assert InTime(SteadyClock(time), time, time);
    MergedBatchMerges(p.env, p.judge, p.batches[i], p.batches[i + 1], time, SteadyClock(time), SteadyClock(time),
                      SteadyClock(time), time);
  }

  // ----- facts come from the plan's events -----

  ghost predicate Planned(p: Plan, n: nat, f: Fact)
    requires n <= |p.batches| == |p.since|
  {
    exists k, t, e :: 0 <= k < n && e in RefFeed(p, k).good(t) && FactOf(p.env, e) == Some(f)
  }

  lemma {:induction false} FactsArePlanned(p: Plan, n: nat, f: Fact)
    requires Settling(p) && n <= |p.batches| && CrashFree(p, n).Some? && f in CrashFree(p, n).value.db.facts
    ensures Planned(p, n, f)
  {
    hide LoadFrom, RefFeed, FactOf, EventsUnique, Genuine, StablePlan, WholePlan;
    if n > 0 {
      var before, feed := CrashFree(p, n - 1).value.db, RefFeed(p, n - 1);
      PlannedFeed(p, n - 1);
      LoadedFact(p.env, feed, p.topics, before, f);
      if f in before.facts {
        FactsArePlanned(p, n - 1, f);
      } else {
        var subs := CrashFree(p, n).value.db.subs;
        var i, e := AddedBy(p.env, feed, p.topics, |p.topics|, subs, before, f);
        YieldsFact(p.env, before, subs, e, f);
      }
    }
  }

  /** The stored rows agree with the feed: a row under an event's key is the event's row. */
  ghost predicate KeysAgree(env: Env, feed: Feed, facts: seq<Fact>) {
    forall g, t, e :: g in facts && e in feed.good(t) && RowUnder(env, e, g) ==> FactOf(env, e) == Some(g)
  }

  ghost predicate RowUnder(env: Env, e: Event, g: Fact) {
    FactOf(env, e).Some? && Key(FactOf(env, e).value) == Key(g)
  }

  lemma PlannedKeysAgree(p: Plan, n: nat, k: nat)
    requires Settling(p) && n <= |p.batches| && k < |p.batches| && CrashFree(p, n).Some?
    ensures KeysAgree(p.env, RefFeed(p, k), CrashFree(p, n).value.db.facts)
  {
    hide CrashFree, RefFeed, FactOf, EventsUnique, Genuine, StablePlan, WholePlan;
    forall g, t, e | g in CrashFree(p, n).value.db.facts && e in RefFeed(p, k).good(t) && RowUnder(p.env, e, g)
      ensures FactOf(p.env, e) == Some(g)
    {
      FactsArePlanned(p, n, g);
      var m, u, a :| 0 <= m < n && a in RefFeed(p, m).good(u) && FactOf(p.env, a) == Some(g);
      SameRowSameEvent(p, k, t, e, m, u, a);
    }
  }

  lemma SameRowSameEvent(p: Plan, k: nat, t: EventType, e: Event, m: nat, u: EventType, a: Event)
    requires Settling(p) && k < |p.batches| && m < |p.batches|
    requires e in RefFeed(p, k).good(t) && a in RefFeed(p, m).good(u) && SameKey(p.env, e, a)
    ensures e == a
  {
    hide RefFeed, FactOf, FromRow, Genuine, StablePlan, WholePlan;
    PlannedFeed(p, k);
    PlannedFeed(p, m);
    TableOfGood(p.env, RefFeed(p, k), t, e);
    TableOfGood(p.env, RefFeed(p, m), u, a);
    SameKeySameId(p.env, e, a);
    assert FromRow(p.judge, p.batches[k], t, e, p.since[k]) && FromRow(p.judge, p.batches[m], u, a, p.since[m]);
    assert SameId(p.env, e, a);
  }

  // ----- one later batch -----

  /** The same dimensions and dead letters, and at least the same facts. */
  ghost predicate Ahead(a: Db, b: Db) {
    && a.seeds == b.seeds && a.subs == b.subs && a.towers == b.towers && a.dlq == b.dlq
    && forall f :: f in b.facts ==> f in a.facts
  }

  ghost predicate SameFacts(a: Db, b: Db) { forall f :: f in a.facts <==> f in b.facts }

  ghost predicate Sane(db: Db) { WellFormed(db) && RollupsExact(db) }

  lemma AheadKeys(a: Db, b: Db)
    requires Ahead(a, b)
    ensures Keys(b.facts) <= Keys(a.facts)
  {
  }

  lemma AheadLoads(env: Env, feed: Feed, topics: seq<EventType>, a: Db, b: Db)
    requires Distinct(topics) && GoodOrder(topics) && Sound(env, feed) && WholeFeed(feed) && Sane(a) && Sane(b)
    requires Ahead(a, b) && LoadFrom(env, feed, topics, b).Some?
    ensures LoadFrom(env, feed, topics, a).Some?
  {
    hide LoadFrom, Sound, WholeFeed, WellFormed, RollupsExact, GoodOrder, UpsertSubs, FactOf, Joins, DateKnown, AllFit,
      LatestStorable, Key;
    BatchLoadsIff(env, feed, topics, a);
    BatchLoadsIff(env, feed, topics, b);
    AheadKeys(a, b);
    forall t: EventType ensures TopicLoads(env, feed, t, a, SubsAfter(feed, a)) {
      assert TopicLoads(env, feed, t, b, SubsAfter(feed, b));
    }
  }

  /** What a load leaves, in closed form. */
  lemma LoadedDimensions(env: Env, feed: Feed, topics: seq<EventType>, db: Db)
    requires Distinct(topics) && GoodOrder(topics) && Sound(env, feed) && WholeFeed(feed) && Sane(db)
    requires LoadFrom(env, feed, topics, db).Some?
    ensures var d := LoadFrom(env, feed, topics, db).value.db;
      && d.seeds == db.seeds && d.subs == SubsAfter(feed, db) && d.dlq == db.dlq && Sane(d)
      && d.towers == Towers.WriteAll(db.towers, Updates(feed.good(TowerStatus)))
  {
    hide LoadTo, Finish, Sound, WholeFeed, WellFormed, RollupsExact, UpsertSubs;
    LoadedSubs(env, feed, topics, db);
    LoadKeepsExact(env, feed, topics, db);
    LoadedTables(env, feed, topics, db);
    assert Visited(topics, TowerStatus);
    DimensionsOfLoad(env, feed, topics, |topics|, Work(db, [], []));
  }

  lemma LoadedFactIff(env: Env, feed: Feed, topics: seq<EventType>, db: Db, f: Fact)
    requires Distinct(topics) && GoodOrder(topics) && Sound(env, feed) && LoadFrom(env, feed, topics, db).Some?
    ensures var d := LoadFrom(env, feed, topics, db).value.db;
      f in d.facts <==> f in db.facts || Added(env, feed, topics, |topics|, d.subs, db, f)
  {
    hide LoadTo, Finish, Sound, Added;
    LoadedTables(env, feed, topics, db);
    FactsOfLoad(env, feed, topics, |topics|, Work(db, [], []), f);
  }

  /** A row added onto fewer facts is there, or added, onto more. */
  lemma AddedAhead(env: Env, feed: Feed, topics: seq<EventType>, subs: SubTable, a: Db, b: Db, f: Fact)
    requires a.seeds == b.seeds && KeysAgree(env, feed, a.facts) && Added(env, feed, topics, |topics|, subs, b, f)
    ensures f in a.facts || Added(env, feed, topics, |topics|, subs, a, f)
  {
    hide FactOf, Joins;
    var i, e := AddedBy(env, feed, topics, |topics|, subs, b, f);
    if Key(f) in Keys(a.facts) {
      var g :| g in a.facts && Key(g) == Key(f);
      assert RowUnder(env, e, g);
    } else {
      assert Yields(env, a, subs, e, f);
    }
  }

  /** One more batch keeps a warehouse ahead ahead, and equal facts equal. */
  lemma StepAhead(env: Env, feed: Feed, topics: seq<EventType>, a: Db, b: Db)
    requires Distinct(topics) && GoodOrder(topics) && Sound(env, feed) && WholeFeed(feed) && Sane(a) && Sane(b)
    requires Ahead(a, b) && KeysAgree(env, feed, a.facts) && KeysAgree(env, feed, b.facts)
    requires LoadFrom(env, feed, topics, b).Some?
    ensures LoadFrom(env, feed, topics, a).Some?
    ensures var x, y := LoadFrom(env, feed, topics, a).value.db, LoadFrom(env, feed, topics, b).value.db;
      Ahead(x, y) && (SameFacts(a, b) ==> SameFacts(x, y))
  {
    hide LoadFrom, Sound, WholeFeed, Sane, GoodOrder, KeysAgree, Added, UpsertSubs;
    AheadLoads(env, feed, topics, a, b);
    LoadedDimensions(env, feed, topics, a);
    LoadedDimensions(env, feed, topics, b);
    var x, y := LoadFrom(env, feed, topics, a).value.db, LoadFrom(env, feed, topics, b).value.db;
    forall f
      ensures f in y.facts ==> f in x.facts
      ensures SameFacts(a, b) ==> (f in x.facts ==> f in y.facts)
    {
      LoadedFactIff(env, feed, topics, a, f);
      LoadedFactIff(env, feed, topics, b, f);
      if Added(env, feed, topics, |topics|, x.subs, b, f) {
        AddedAhead(env, feed, topics, x.subs, a, b, f);
      }
      if Added(env, feed, topics, |topics|, x.subs, a, f) {
        AddedAhead(env, feed, topics, x.subs, b, a, f);
      }
    }
  }

  // ----- the whole run -----

  lemma {:induction false} SameBefore(p: Plan, i: nat, k: nat)
    requires i + 1 < |p.batches| == |p.since| && k <= i
    ensures |MergeAt(p, i).batches| == |MergeAt(p, i).since| == |p.batches| - 1
    ensures CrashFree(MergeAt(p, i), k) == CrashFree(p, k)
    decreases k
  {
    hide MergeAt, RefFeed, LoadFrom;
    SamePlan(p, i);
    if k > 0 {
      SameBefore(p, i, k - 1);
      SameLaterFeed(p, i, k - 1);
    }
  }

  /** The parts of the merged batch, as the original run loads them. */
  ghost predicate MergerLoads(p: Plan, i: nat)
    requires i + 1 < |p.batches| == |p.since| && CrashFree(p, i).Some? && CrashFree(p, i + 1).Some? && CrashFree(p, i + 2).Some?
  {
    WaitingInsertable(p.env, RefFeed(p, i), CrashFree(p, i).value.db, CrashFree(p, i + 1).value.db.subs,
                      CrashFree(p, i + 2).value.db.subs)
  }

  ghost predicate Orphanless(env: Env, f1: Feed, f2: Feed, db: Db, subs1: SubTable, subs2: SubTable) {
    forall f :: !HasOrphan(env, f1, f2, db, subs1, subs2, f)
  }

  ghost predicate NoOrphans(p: Plan, i: nat)
    requires i + 1 < |p.batches| == |p.since| && CrashFree(p, i).Some? && CrashFree(p, i + 1).Some? && CrashFree(p, i + 2).Some?
  {
    Orphanless(p.env, RefFeed(p, i), RefFeed(p, i + 1), CrashFree(p, i).value.db, CrashFree(p, i + 1).value.db.subs,
               CrashFree(p, i + 2).value.db.subs)
  }

  /** A reference in steps of one batch. */
  lemma RefStep(p: Plan, n: nat)
    requires 0 < n <= |p.batches| == |p.since|
    ensures CrashFree(p, n).Some? <==>
      CrashFree(p, n - 1).Some? && LoadFrom(p.env, RefFeed(p, n - 1), p.topics, CrashFree(p, n - 1).value.db).Some?
    ensures CrashFree(p, n).Some? ==>
      CrashFree(p, n).value.db == LoadFrom(p.env, RefFeed(p, n - 1), p.topics, CrashFree(p, n - 1).value.db).value.db
  {
    hide LoadFrom, RefFeed;
  }

  lemma RefIsSane(p: Plan, n: nat)
    requires Settling(p) && n <= |p.batches| && CrashFree(p, n).Some?
    ensures Sane(CrashFree(p, n).value.db)
  {
    hide CrashFree;
    CrashFreeIsExact(p, n);
  }

  /** The merged batch itself. */
  lemma AtTheMerger(p: Plan, i: nat)
    requires Settling(p) && i + 1 < |p.batches|
    requires CrashFree(p, i).Some? && CrashFree(p, i + 1).Some? && CrashFree(p, i + 2).Some?
    ensures var q := MergeAt(p, i);
      && |q.batches| == |q.since| == |p.batches| - 1
      && (CrashFree(q, i + 1).Some? <==> MergerLoads(p, i))
      && (CrashFree(q, i + 1).Some? ==>
            var a, b := CrashFree(q, i + 1).value.db, CrashFree(p, i + 2).value.db;
            Ahead(a, b) && (SameFacts(a, b) <==> NoOrphans(p, i)))
  {
    hide LoadFrom, CrashFree, RefFeed, MergeAt, Genuine, EventsUnique, StablePlan, WholePlan, Sound, WholeFeed, WellFormed,
      RollupsExact, WaitingInsertable, HasOrphan, Merges;
    var q, db := MergeAt(p, i), CrashFree(p, i).value.db;
    SamePlan(p, i);
    SameBefore(p, i, i);
    MergedFeed(p, i);
    MergedPlanSettles(p, i);
    PlannedFeed(q, i);
    RefIsSane(p, i);
    RefStep(p, i + 1);
    RefStep(p, i + 2);
    RefStep(q, i + 1);
    var w1 := LoadFrom(p.env, RefFeed(p, i), p.topics, db).value;
    var w2 := LoadFrom(p.env, RefFeed(p, i + 1), p.topics, w1.db).value;
    MergedBatches(p.env, RefFeed(p, i), RefFeed(p, i + 1), RefFeed(q, i), p.topics, db, w1, w2);
    if CrashFree(q, i + 1).Some? {
      KeepsRest(p.env, RefFeed(q, i), p.topics, db);
      PlannedFeed(p, i);
      PlannedFeed(p, i + 1);
      KeepsRest(p.env, RefFeed(p, i), p.topics, db);
      RefIsSane(p, i + 1);
      KeepsRest(p.env, RefFeed(p, i + 1), p.topics, w1.db);
    }
  }

  lemma KeepsRest(env: Env, feed: Feed, topics: seq<EventType>, db: Db)
    requires Distinct(topics) && GoodOrder(topics) && Sound(env, feed) && WholeFeed(feed) && Sane(db)
    requires LoadFrom(env, feed, topics, db).Some?
    ensures var d := LoadFrom(env, feed, topics, db).value.db; d.seeds == db.seeds && d.dlq == db.dlq
  {
    hide LoadFrom, Sound, WholeFeed, Sane, GoodOrder;
    LoadedDimensions(env, feed, topics, db);
  }

  /** Once the merger has loaded, every later batch that the original run loads is loaded
      by the merged run, which stays ahead; without orphans the facts stay the same. */
  lemma {:induction false} MergedRunStaysAhead(p: Plan, i: nat, n: nat)
    requires Settling(p) && i + 2 <= n <= |p.batches| && CrashFree(p, n).Some?
    requires CrashFree(p, i).Some? && CrashFree(p, i + 1).Some? && CrashFree(p, i + 2).Some? && MergerLoads(p, i)
    ensures var q := MergeAt(p, i);
      && |q.batches| == |q.since| == |p.batches| - 1 && CrashFree(q, n - 1).Some?
      && var a, b := CrashFree(q, n - 1).value.db, CrashFree(p, n).value.db;
         Ahead(a, b) && (NoOrphans(p, i) ==> SameFacts(a, b))
    decreases n
  {
    hide LoadFrom, CrashFree, RefFeed, MergeAt, Genuine, EventsUnique, StablePlan, WholePlan, Sound, WholeFeed, Sane,
      MergerLoads, NoOrphans, KeysAgree, Ahead, SameFacts;
    var q := MergeAt(p, i);
    SamePlan(p, i);
    if n == i + 2 {
      AtTheMerger(p, i);
    } else {
      RefStep(p, n);
      MergedRunStaysAhead(p, i, n - 1);
      MergedPlanSettles(p, i);
      SameLaterFeed(p, i, n - 2);
      PlannedFeed(p, n - 1);
      PlannedKeysAgree(p, n - 1, n - 1);
      PlannedKeysAgree(q, n - 2, n - 2);
      RefIsSane(p, n - 1);
      RefIsSane(q, n - 2);
      StepAhead(p.env, RefFeed(p, n - 1), p.topics, CrashFree(q, n - 2).value.db, CrashFree(p, n - 1).value.db);
      RefStep(q, n - 1);
    }
  }

  /** Batch boundaries of a run. Let the crash-free run of a plan load all its batches.
      With any two adjacent batches merged it loads all of them exactly when every event
      of the first that waits for a subscriber of the second is insertable. It then ends
      with the same subscribers and tower state and at least the same facts; without
      orphaned events, with the same facts and rollups. */
  lemma MergedRun(p: Plan, i: nat)
    requires Settling(p) && i + 1 < |p.batches| && CrashFree(p, |p.batches|).Some?
    ensures CrashFree(p, i).Some? && CrashFree(p, i + 1).Some? && CrashFree(p, i + 2).Some?
    ensures var q, n := MergeAt(p, i), |p.batches|;
      && |q.batches| == |q.since| == n - 1
      && (CrashFree(q, n - 1).Some? <==> MergerLoads(p, i))
      && (CrashFree(q, n - 1).Some? ==> MergedEnd(p, i, CrashFree(q, n - 1).value.db, CrashFree(p, n).value.db))
  {
    hide LoadFrom, CrashFree, RefFeed, MergeAt, Genuine, EventsUnique, StablePlan, WholePlan, MergerLoads, NoOrphans, Ahead,
      SameFacts;
    var q, n := MergeAt(p, i), |p.batches|;
    SamePlan(p, i);
    CrashFreeBefore(p, i, n);
    CrashFreeBefore(p, i + 1, n);
    CrashFreeBefore(p, i + 2, n);
    AtTheMerger(p, i);
    if MergerLoads(p, i) {
      MergedRunStaysAhead(p, i, n);
      MergedPlanSettles(p, i);
      if NoOrphans(p, i) {
        RefIsSane(p, n);
        RefIsSane(q, n - 1);
        SameEnd(CrashFree(q, n - 1).value.db, CrashFree(p, n).value.db);
      }
    }
    if CrashFree(q, n - 1).Some? {
      CrashFreeBefore(q, i + 1, n - 1);
    }
  }

  ghost predicate MergedEnd(p: Plan, i: nat, merged: Db, apart: Db)
    requires i + 1 < |p.batches| == |p.since| && CrashFree(p, i).Some? && CrashFree(p, i + 1).Some? && CrashFree(p, i + 2).Some?
  {
    Ahead(merged, apart) && (NoOrphans(p, i) ==> SameFacts(merged, apart) && merged.agg == apart.agg)
  }

  lemma SameEnd(a: Db, b: Db)
    requires Sane(a) && Sane(b) && Ahead(a, b) && SameFacts(a, b)
    ensures a.agg == b.agg
  {
    SameRollups(a, b);
  }

  /** The same for the machine: whatever crashes either run has seen, once both have
      checkpointed all their batches their warehouses compare in this way. */
  lemma MergedMachines(p: Plan, i: nat, s: Sys, merged: Sys)
    requires Settling(p) && i + 1 < |p.batches| && Reachable(p, s) && Reachable(MergeAt(p, i), merged)
    requires s.done == |p.batches| && merged.done == |MergeAt(p, i).batches|
    ensures CrashFree(p, i).Some? && CrashFree(p, i + 1).Some? && CrashFree(p, i + 2).Some?
    ensures MergerLoads(p, i) && MergedEnd(p, i, merged.db, s.db)
  {
    hide LoadFrom, CrashFree, RefFeed, MergeAt, Genuine, EventsUnique, StablePlan, WholePlan, MergerLoads, MergedEnd, Reachable;
    SamePlan(p, i);
    MergedPlanSettles(p, i);
    CheckpointIsExact(p, s);
    CheckpointIsExact(MergeAt(p, i), merged);
    MergedRun(p, i);
  }
}
