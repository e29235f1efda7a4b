/** When the database accepts a transaction: exactly which batches load, which replays
    load, and which mergers of two batches load. */
module Outcomes {
  import opened Base
  import opened Schemas
  import opened Events
  import opened Rollups
  import opened Towers
  import opened Warehouse
  import opened Batches
  import opened Replay
  import opened Records
  import opened Protocol
  import opened Provenance
  import opened Guarantees
  import opened Granularity

  // ----- inserts -----

  /** The insert statement accepts the event: a join drops it, or its casts succeed and
      its row is there already or its date is in the date dimension. */
  ghost predicate Insertable(env: Env, seeds: Seeds, facts: seq<Fact>, e: Event) {
    Joins(seeds, e) ==>
      FactOf(env, e).Some? && (Key(FactOf(env, e).value) in Keys(facts) || DateKnown(e.ts.utc))
  }

  lemma FactTime(env: Env, e: Event)
    ensures FactOf(env, e).Some? ==> FactOf(env, e).value.ts == e.ts.utc
  {
  }

  /** A fact insert succeeds exactly when each of its events is insertable on its own. */
  lemma {:induction false} InsertSucceedsIff(env: Env, seeds: Seeds, facts: seq<Fact>, events: seq<Event>)
    requires KeysNameEvents(env, events)
    ensures InsertAll(env, seeds, facts, events).Some? <==> forall e :: e in events ==> Insertable(env, seeds, facts, e)
  {
    hide FactOf, Joins, DateKnown, Insertable;
    if events != [] {
      var init, x := events[..|events| - 1], events[|events| - 1];
      assert events == init + [x];
      InsertSucceedsIff(env, seeds, facts, init);
      if InsertAll(env, seeds, facts, init).Some? {
        LastInsertable(env, seeds, facts, init, x);
      }
    }
  }

  lemma LastInsertable(env: Env, seeds: Seeds, facts: seq<Fact>, init: seq<Event>, x: Event)
    requires KeysNameEvents(env, init + [x]) && InsertAll(env, seeds, facts, init).Some?
    ensures InsertOne(env, seeds, InsertAll(env, seeds, facts, init).value, x).Some? <==> Insertable(env, seeds, facts, x)
  {
    hide FactOf, Joins, DateKnown, InsertAll;
    var after := InsertAll(env, seeds, facts, init).value;
    InsertGrows(env, seeds, facts, init);
    FactTime(env, x);
    assert Keys(facts) <= Keys(after);
    if FactOf(env, x).Some? && Key(FactOf(env, x).value) in Keys(after) && Key(FactOf(env, x).value) !in Keys(facts) {
      var f :| f in after && Key(f) == Key(FactOf(env, x).value);
      var i :| 0 <= i < |after| && after[i] == f;
      assert Sourced(env, seeds, after[i], init);
      var e :| e in init && Joins(seeds, e) && FactOf(env, e) == Some(f) && DateKnown(f.ts);
      assert e in init + [x] && x in init + [x] && SameKey(env, e, x);
    }
  }

  // ----- a batch -----

  /** The subscriber dimension after the batch's subscriber phase. */
  function SubsAfter(feed: Feed, db: Db): SubTable {
    match UpsertSubs(db.subs, feed.good(SubscriberCreated))
    case None => db.subs
    case Some(subs) => subs
  }

  /** The topic's accepted events can be written to the lake, and its statement is
      accepted: no number is taken, every latest tower row fits, and every event whose
      subscriber is in `subs` is insertable. */
  ghost predicate TopicLoads(env: Env, feed: Feed, t: EventType, db: Db, subs: SubTable) {
    && AllFit(feed.good(t))
    && match t
       case SubscriberCreated => UpsertSubs(db.subs, feed.good(t)).Some?
       case TowerStatus => LatestStorable(db.seeds, Updates(feed.good(t)))
       case _ => forall e :: e in feed.good(t) && SubscriberOf(e) in subs ==> Insertable(env, db.seeds, db.facts, e)
  }

  lemma SameMembers(feed: Feed, t: EventType)
    requires NamesEvents(feed.good(t))
    ensures forall e :: e in Unique(feed, t) <==> e in feed.good(t)
    ensures Unique(feed, t) == [] <==> feed.good(t) == []
  {
    hide NamesEvents;
    forall e | e in feed.good(t) ensures e in Unique(feed, t) {
      KeepsAll(feed.good(t), e);
    }
    if feed.good(t) != [] {
      assert feed.good(t)[0] in feed.good(t);
    }
  }

  lemma KnownAreNamed(env: Env, feed: Feed, t: EventType, subs: SubTable)
    requires Sound(env, feed)
    ensures KeysNameEvents(env, Known(subs, Unique(feed, t)))
    ensures forall e :: e in Known(subs, Unique(feed, t)) <==> e in feed.good(t) && SubscriberOf(e) in subs
  {
    hide FactOf;
    var known := Known(subs, Unique(feed, t));
    SameMembers(feed, t);
    KnownOrUnknown(subs, Unique(feed, t));
    forall a, b | a in known && b in known && SameKey(env, a, b) ensures a == b {
      SameKeySameId(env, a, b);
    }
  }

  lemma TopicSucceedsIff(env: Env, feed: Feed, t: EventType, w: Work)
    requires Sound(env, feed)
    ensures TopicWork(env, feed, t, w).Some? <==> TopicLoads(env, feed, t, w.db, w.db.subs)
  {
    hide NamesEvents, Sound, Dedupe, InsertAll, UpsertSubs, WriteAll, Updates, Known, Unknown, Insertable,
        KeysNameEvents,
      Remaining, Referential, LakeFits;
    var events := Unique(feed, t);
    assert NamesEvents(feed.good(t)) by { NamesOf(env, feed, t); }
    SameMembers(feed, t);
    assert AllFit(events) <==> AllFit(feed.good(t));
    match t
    case SubscriberCreated =>
      UpsertAbsorbs(w.db.subs, feed.good(t));
      NothingUpserts(w.db.subs);
    case TowerStatus =>
      WriteAbsorbs(map[], feed.good(t));
      NothingUpdates(w.db.seeds);
    case _ =>
      KnownAreNamed(env, feed, t, w.db.subs);
      InsertSucceedsIff(env, w.db.seeds, w.db.facts, Known(w.db.subs, events));
  }

  lemma NamesOf(env: Env, feed: Feed, t: EventType)
    requires Sound(env, feed)
    ensures NamesEvents(feed.good(t))
  {
  }

  lemma NothingUpserts(subs: SubTable)
    ensures UpsertSubs(subs, []).Some?
  {
  }

  lemma NothingUpdates(seeds: Seeds)
    ensures LatestStorable(seeds, Updates([]))
  {
  }

  /** A topic's chances do not change before it is visited, but for the subscribers. */
  lemma ChancesStay(env: Env, feed: Feed, topics: seq<EventType>, k: nat, w: Work)
    requires k < |topics| && Distinct(topics) && SubscribersFirst(topics) && topics[0] == SubscriberCreated
    requires Sound(env, feed) && LoadTo(env, feed, topics, k, w).Some?
    ensures var mid := LoadTo(env, feed, topics, k, w).value;
      TopicLoads(env, feed, topics[k], mid.db, mid.db.subs) == TopicLoads(env, feed, topics[k], w.db, SubsAfter(feed, w.db))
  {
    hide Sound, UpsertSubs, WriteAll, Updates, TopicWork, FactOf, Joins, DateKnown, AllFit, LatestStorable;
    var mid, t := LoadTo(env, feed, topics, k, w).value, topics[k];
    if k > 0 {
      DimensionsOfLoad(env, feed, topics, k, w);
      assert Visible(feed, topics, k, SubscriberCreated) == feed.good(SubscriberCreated);
      assert t != SubscriberCreated;
      LoadEffectTo(env, feed, topics, k, w);
      UnvisitedKeys(env, feed, topics, k, w, t);
      assert Keys(w.db.facts) <= Keys(mid.db.facts);
      forall e | e in feed.good(t) && FactOf(env, e).Some? ensures Key(FactOf(env, e).value).table == t {
        TableOfGood(env, feed, t, e);
      }
    }
  }

  lemma {:induction false} LoadSucceedsIff(env: Env, feed: Feed, topics: seq<EventType>, k: nat, w: Work)
    requires k <= |topics| && Distinct(topics) && SubscribersFirst(topics) && topics[0] == SubscriberCreated
    requires Sound(env, feed)
    ensures LoadTo(env, feed, topics, k, w).Some?
       <==> forall i :: 0 <= i < k ==> TopicLoads(env, feed, topics[i], w.db, SubsAfter(feed, w.db))
    decreases k
  {
    hide Sound, TopicWork, TopicLoads, SubsAfter;
    if k > 0 {
      LoadSucceedsIff(env, feed, topics, k - 1, w);
      if LoadTo(env, feed, topics, k - 1, w).Some? {
        ChancesStay(env, feed, topics, k - 1, w);
        TopicSucceedsIff(env, feed, topics[k - 1], LoadTo(env, feed, topics, k - 1, w).value);
      }
    }
  }

  /** Exactly when a transaction commits, onto an exact warehouse and with whole-minute
      offsets: when each topic's events fit the lake and are accepted by its statement. */
  lemma BatchLoadsIff(env: Env, feed: Feed, topics: seq<EventType>, db: Db)
    requires Distinct(topics) && GoodOrder(topics) && Sound(env, feed)
    requires WellFormed(db) && RollupsExact(db) && WholeFeed(feed)
    ensures LoadFrom(env, feed, topics, db).Some?
       <==> forall t: EventType :: TopicLoads(env, feed, t, db, SubsAfter(feed, db))
  {
    hide Sound, TopicLoads, SubsAfter, LoadTo, Finish;
    var start := Work(db, [], []);
    assert topics[0] == SubscriberCreated by { FirstIsSubscribers(topics); }
    LoadSucceedsIff(env, feed, topics, |topics|, start);
    if LoadTo(env, feed, topics, |topics|, start).Some? {
      LoadEffectTo(env, feed, topics, |topics|, start);
      WholeLoad(env, feed, topics, |topics|, start);
      FinishMakesExact(db, LoadTo(env, feed, topics, |topics|, start).value);
    }
    forall t: EventType
      ensures (forall i :: 0 <= i < |topics| ==> TopicLoads(env, feed, topics[i], db, SubsAfter(feed, db))) ==>
                TopicLoads(env, feed, t, db, SubsAfter(feed, db))
    {
      assert Visited(topics, t);
      var i :| 0 <= i < |topics| && topics[i] == t;
    }
  }

  lemma FirstIsSubscribers(topics: seq<EventType>)
    requires GoodOrder(topics)
    ensures topics[0] == SubscriberCreated
  {
    assert Visited(topics, SubscriberCreated);
  }

  /** Where events are unique over a plan, every validation of every batch is sound, so
      these results hold of the loads of any of its runs. */
  lemma PlannedFeedIsSound(p: Plan, i: nat, clock: Clock, lo: int, hi: int)
    requires Genuine(p.env, p.judge) && EventsUnique(p) && i < |p.batches| && InTime(clock, lo, hi)
    ensures Sound(p.env, FeedOf(p.env, p.judge, p.batches[i], clock))
  {
    hide FeedOf, Genuine, FromRow, SameId;
    var feed, batch := FeedOf(p.env, p.judge, p.batches[i], clock), p.batches[i];
    FeedOfFits(p, batch, clock, lo, hi);
    forall t, e | e in feed.good(t) ensures TypeOf(e.body) == t {
      FromRowIsVouched(p, batch, t, e, hi);
    }
    forall t, a, b | a in feed.good(t) && b in feed.good(t) && SameId(p.env, a, b) ensures a == b {
      assert FromRow(p.judge, batch, t, a, hi) && FromRow(p.judge, batch, t, b, hi);
    }
    SameIdsAreSound(p.env, feed);
  }

  lemma SameIdsAreSound(env: Env, feed: Feed)
    requires forall t, e :: e in feed.good(t) ==> TypeOf(e.body) == t
    requires forall t, a, b :: a in feed.good(t) && b in feed.good(t) && SameId(env, a, b) ==> a == b
    ensures Sound(env, feed)
  {
    forall t, a, b | a in feed.good(t) && b in feed.good(t) && (a.id == b.id || SameUuid(env, a, b)) ensures a == b {
      assert SameId(env, a, b);
    }
  }

  // ----- a replay -----

  /** The event had no subscriber when its batch was first loaded, and has one now. */
  ghost predicate Returns(g: Feed, was: SubTable, now: SubTable, t: EventType, e: Event) {
    IsFactTopic(t) && e in g.good(t) && SubscriberOf(e) !in was && SubscriberOf(e) in now
  }

  ghost predicate ReturningInsertable(env: Env, g: Feed, was: SubTable, later: Db) {
    forall t, e :: Returns(g, was, later.subs, t, e) ==> Insertable(env, later.seeds, later.facts, e)
  }

  lemma LoadedSubs(env: Env, feed: Feed, topics: seq<EventType>, db: Db)
    requires Distinct(topics) && GoodOrder(topics) && Sound(env, feed) && LoadFrom(env, feed, topics, db).Some?
    ensures LoadFrom(env, feed, topics, db).value.db.subs == SubsAfter(feed, db)
    ensures LoadFrom(env, feed, topics, db).value.db.seeds == db.seeds
  {
    hide Sound, LoadTo, Finish, UpsertSubs, WriteAll, Updates;
    LoadedTables(env, feed, topics, db);
    assert Visited(topics, SubscriberCreated);
    DimensionsOfLoad(env, feed, topics, |topics|, Work(db, [], []));
  }

  lemma AcceptedTopics(env: Env, feed: Feed, topics: seq<EventType>, db: Db)
    requires Distinct(topics) && GoodOrder(topics) && Sound(env, feed) && LoadFrom(env, feed, topics, db).Some?
    ensures forall t: EventType :: TopicLoads(env, feed, t, db, SubsAfter(feed, db))
  {
    hide Sound, TopicLoads, SubsAfter, LoadTo, Finish;
    FirstIsSubscribers(topics);
    LoadSucceedsIff(env, feed, topics, |topics|, Work(db, [], []));
    forall t: EventType ensures TopicLoads(env, feed, t, db, SubsAfter(feed, db)) {
      assert Visited(topics, t);
      var i :| 0 <= i < |topics| && topics[i] == t;
    }
  }

  /** Exactly when a replay of an earlier batch onto a later state commits: when every
      event that has gained a subscriber since is insertable. */
  lemma ReplayLoadsIff(env: Env, f: Feed, g: Feed, topics: seq<EventType>, first: Db, was: Work, later: Db)
    requires Distinct(topics) && GoodOrder(topics) && SameFeed(f, g) && Sound(env, f) && Sound(env, g)
    requires WellFormed(first) && LoadFrom(env, f, topics, first) == Some(was)
    requires Grows(was.db, later) && WellFormed(later) && RollupsExact(later) && WholeFeed(g)
    ensures LoadFrom(env, g, topics, later).Some? <==> ReturningInsertable(env, g, was.db.subs, later)
  {
    hide Sound, TopicLoads, LoadFrom, WellFormed, RollupsExact, Insertable, SubsAfter;
    BatchLoadsIff(env, g, topics, later);
    AcceptedTopics(env, f, topics, first);
    LoadedSubs(env, f, topics, first);
    LoadEffect(env, f, topics, first);
    AllSettledGrows(env, f, topics, |topics|, was.db, later, was.db.subs);
    assert Visited(topics, SubscriberCreated);
    SettledSubscribers(env, f, g, topics, was.db.subs, later);
    forall t: EventType
      ensures ReturningInsertable(env, g, was.db.subs, later) ==> TopicLoads(env, g, t, later, later.subs)
      ensures TopicLoads(env, g, t, later, later.subs) ==> ReturnsOf(env, g, was.db.subs, later, t)
    {
      assert Visited(topics, t);
      var i :| 0 <= i < |topics| && topics[i] == t;
      assert Settled(env, later, was.db.subs, t, Unique(f, t));
      ReplayTopic(env, f, g, t, first, was.db.subs, later);
    }
    if forall t: EventType :: ReturnsOf(env, g, was.db.subs, later, t) {
      forall t, e | Returns(g, was.db.subs, later.subs, t, e) ensures Insertable(env, later.seeds, later.facts, e) {
        assert ReturnsOf(env, g, was.db.subs, later, t);
      }
    }
  }

  ghost predicate ReturnsOf(env: Env, g: Feed, was: SubTable, later: Db, t: EventType) {
    forall e :: Returns(g, was, later.subs, t, e) ==> Insertable(env, later.seeds, later.facts, e)
  }

  lemma SettledSubscribers(env: Env, f: Feed, g: Feed, topics: seq<EventType>, subs: SubTable, later: Db)
    requires SameFeed(f, g) && Sound(env, f) && Visited(topics, SubscriberCreated)
    requires AllSettled(env, f, topics, |topics|, later, subs)
    ensures SubsAfter(g, later) == later.subs && UpsertSubs(later.subs, g.good(SubscriberCreated)).Some?
  {
    hide UpsertSubs, Sound, NamesEvents;
    var i :| 0 <= i < |topics| && topics[i] == SubscriberCreated;
    assert Settled(env, later, subs, topics[i], Unique(f, topics[i]));
    NamesOf(env, f, SubscriberCreated);
    SameMembers(f, SubscriberCreated);
    CoveredUpsertIsNoOp(later.subs, g.good(SubscriberCreated));
  }

  lemma ReplayTopic(env: Env, f: Feed, g: Feed, t: EventType, first: Db, was: SubTable, later: Db)
    requires SameFeed(f, g) && Sound(env, f) && later.seeds == first.seeds
    requires TopicLoads(env, f, t, first, was) && Settled(env, later, was, t, Unique(f, t))
    requires UpsertSubs(later.subs, g.good(SubscriberCreated)).Some?
    ensures ReturningInsertable(env, g, was, later) ==> TopicLoads(env, g, t, later, later.subs)
    ensures TopicLoads(env, g, t, later, later.subs) ==> ReturnsOf(env, g, was, later, t)
  {
    hide FactOf, Joins, DateKnown, UpsertSubs, WriteAll, Updates, LatestStorable, AllFit, Sound, NamesEvents, Dedupe;
    NamesOf(env, f, t);
    SameMembers(f, t);
    if IsFactTopic(t) && ReturningInsertable(env, g, was, later) {
      forall e | e in g.good(t) && SubscriberOf(e) in later.subs ensures Insertable(env, later.seeds, later.facts, e) {
        if SubscriberOf(e) in was {
          assert Landed(env, later.seeds, later.facts, e);
        } else {
          assert Returns(g, was, later.subs, t, e);
        }
      }
    }
  }

  /** Replaying an earlier batch onto a later state, at fixed verdicts. It commits exactly
      when every event that has gained a subscriber since is insertable. It then changes
      no subscriber, tower or fact row that is there, adds only facts whose subscriber
      was unknown the first time, and keeps the rollups exact. */
  lemma ReplayedBatch(env: Env, f: Feed, g: Feed, topics: seq<EventType>, first: Db, was: Work, later: Db)
    requires Distinct(topics) && GoodOrder(topics) && SameFeed(f, g) && Sound(env, f) && Sound(env, g)
    requires WellFormed(first) && LoadFrom(env, f, topics, first) == Some(was)
    requires Grows(was.db, later) && WellFormed(later) && RollupsExact(later) && WholeFeed(g)
    ensures LoadFrom(env, g, topics, later).Some? <==> ReturningInsertable(env, g, was.db.subs, later)
    ensures LoadFrom(env, g, topics, later).Some? ==>
      ReplayOutcome(env, f, topics, was.db.subs, later, LoadFrom(env, g, topics, later).value.db)
  {
    hide LoadFrom, Sound, WellFormed, RollupsExact, WholeFeed, ReturningInsertable, Grows;
    ReplayLoadsIff(env, f, g, topics, first, was, later);
    if LoadFrom(env, g, topics, later).Some? {
      StampsOfLoad(env, g, topics, later);
      ReplayOfEarlierBatch(env, f, g, topics, first, was, later, LoadFrom(env, g, topics, later).value);
    }
  }

  lemma StampsOfLoad(env: Env, feed: Feed, topics: seq<EventType>, db: Db)
    requires LoadFrom(env, feed, topics, db).Some? && WholeFeed(feed)
    ensures WholeMinutes(LoadFrom(env, feed, topics, db).value.stamps)
  {
    hide LoadTo, Finish;
    WholeLoad(env, feed, topics, |topics|, Work(db, [], []));
  }

  ghost predicate ReplayOutcome(env: Env, f: Feed, topics: seq<EventType>, was: SubTable, later: Db, now: Db) {
    && now.subs == later.subs && now.towers == later.towers && now.dlq == later.dlq && later.facts <= now.facts
    && (forall i :: |later.facts| <= i < |now.facts| ==> FormerlyUnknown(env, f, topics, was, now.facts[i]))
    && RollupsExact(now)
  }

  // ----- a merged batch -----

  /** The event's subscriber is missing when the first batch ends and comes with the second. */
  ghost predicate Waits(f1: Feed, subs1: SubTable, subs2: SubTable, t: EventType, e: Event) {
    IsFactTopic(t) && e in f1.good(t) && SubscriberOf(e) !in subs1 && SubscriberOf(e) in subs2
  }

  ghost predicate WaitingInsertable(env: Env, f1: Feed, db: Db, subs1: SubTable, subs2: SubTable) {
    forall t, e :: Waits(f1, subs1, subs2, t, e) ==> Insertable(env, db.seeds, db.facts, e)
  }

  /** Every latest row of two lists of updates is the latest row of one of them. */
  lemma MergedStorable(seeds: Seeds, us: seq<Update>, vs: seq<Update>)
    requires LatestStorable(seeds, us) && LatestStorable(seeds, vs)
    ensures LatestStorable(seeds, us + vs)
  {
    hide WriteAll, TowerStorable;
    WriteAllComposes(map[], us, vs);
    var rows := WriteAll(map[], us + vs);
    forall id | id in rows ensures TowerStorable(seeds, Update(id, rows[id])) {
      WriteAllMerges(WriteAll(map[], us), vs, id);
      var row, first, second := Towers.Row(rows, id), Towers.Row(WriteAll(map[], us), id), Towers.Row(WriteAll(map[], vs), id);
      assert row == first || row == second;
    }
  }

  lemma MergedTopic(env: Env, f1: Feed, f2: Feed, both: Feed, topics: seq<EventType>, db: Db, d1: Db, subs2: SubTable,
                    t: EventType)
    requires GoodOrder(topics) && Merges(f1, f2, both) && Sound(env, both) && d1.seeds == db.seeds
    requires forall g :: g in d1.facts ==> g in db.facts || Added(env, f1, topics, |topics|, d1.subs, db, g)
    requires Some(d1.subs) == UpsertSubs(db.subs, f1.good(SubscriberCreated))
    requires TopicLoads(env, f1, t, db, d1.subs) && TopicLoads(env, f2, t, d1, subs2)
    requires WaitingInsertable(env, f1, db, d1.subs, subs2)
    ensures TopicLoads(env, both, t, db, subs2)
  {
    hide FactOf, Joins, DateKnown, UpsertSubs, WriteAll, Updates, LatestStorable, LakeFits, Sound, Added, Insertable;
    match t
    case SubscriberCreated => UpsertComposes(db.subs, f1.good(t), f2.good(t));
    case TowerStatus =>
      UpdatesAppend(f1.good(t), f2.good(t));
      MergedStorable(db.seeds, Updates(f1.good(t)), Updates(f2.good(t)));
    case _ =>
      forall e | e in both.good(t) && SubscriberOf(e) in subs2 ensures Insertable(env, db.seeds, db.facts, e) {
        if e in f1.good(t) {
          FirstInsertable(env, f1, db, d1.subs, subs2, t, e);
        } else {
          SecondInsertable(env, f1, f2, both, topics, db, d1, t, e);
        }
      }
  }

  lemma FirstInsertable(env: Env, f1: Feed, db: Db, subs1: SubTable, subs2: SubTable, t: EventType, e: Event)
    requires IsFactTopic(t) && e in f1.good(t) && SubscriberOf(e) in subs2
    requires TopicLoads(env, f1, t, db, subs1) && WaitingInsertable(env, f1, db, subs1, subs2)
    ensures Insertable(env, db.seeds, db.facts, e)
  {
    hide Insertable;
    if SubscriberOf(e) !in subs1 {
      assert Waits(f1, subs1, subs2, t, e);
    }
  }

  /** A row that the first batch added under the event's key would be the event's own. */
  lemma SecondInsertable(env: Env, f1: Feed, f2: Feed, both: Feed, topics: seq<EventType>, db: Db, d1: Db, t: EventType,
                         e: Event)
    requires Merges(f1, f2, both) && Sound(env, both) && d1.seeds == db.seeds
    requires forall g :: g in d1.facts ==> g in db.facts || Added(env, f1, topics, |topics|, d1.subs, db, g)
    requires e in f2.good(t) && e !in f1.good(t) && Insertable(env, d1.seeds, d1.facts, e)
    ensures Insertable(env, db.seeds, db.facts, e)
  {
    hide FactOf, Joins, DateKnown, Sound, Added;
    if FactOf(env, e).Some? && Key(FactOf(env, e).value) in Keys(d1.facts) && Key(FactOf(env, e).value) !in Keys(db.facts) {
      var g :| g in d1.facts && Key(g) == Key(FactOf(env, e).value);
      var i, a := AddedBy(env, f1, topics, |topics|, d1.subs, db, g);
      YieldsFact(env, db, d1.subs, a, g);
      SameFactSameEvent(env, both, topics[i], a, t, e);
    }
  }

  lemma YieldsFact(env: Env, db: Db, subs: SubTable, e: Event, f: Fact)
    requires Yields(env, db, subs, e, f)
    ensures FactOf(env, e) == Some(f)
  {
  }

  /** If two adjacent batches load, their merger loads exactly when every event of the
      first that waits for a subscriber of the second is insertable. */
  lemma MergedLoadsIff(env: Env, f1: Feed, f2: Feed, both: Feed, topics: seq<EventType>, db: Db, w1: Work, w2: Work)
    requires Distinct(topics) && GoodOrder(topics) && Merges(f1, f2, both) && Sound(env, both)
    requires WellFormed(db) && RollupsExact(db) && WholeFeed(both)
    requires LoadFrom(env, f1, topics, db) == Some(w1) && LoadFrom(env, f2, topics, w1.db) == Some(w2)
    ensures LoadFrom(env, both, topics, db).Some? <==> WaitingInsertable(env, f1, db, w1.db.subs, w2.db.subs)
  {
    hide LoadFrom, Sound, TopicLoads, WellFormed, RollupsExact, Insertable, UpsertSubs, WholeFeed, Added;
    var d1 := w1.db;
    MergedSound(env, f1, f2, both);
    BatchLoadsIff(env, both, topics, db);
    AcceptedTopics(env, f1, topics, db);
    AcceptedTopics(env, f2, topics, d1);
    LoadedSubs(env, f1, topics, db);
    LoadedSubs(env, f2, topics, d1);
    MergedSubs(env, f1, f2, both, db, d1);
    forall g | g in d1.facts ensures g in db.facts || Added(env, f1, topics, |topics|, d1.subs, db, g) {
      LoadedFact(env, f1, topics, db, g);
    }
    if WaitingInsertable(env, f1, db, d1.subs, w2.db.subs) {
      forall t: EventType ensures TopicLoads(env, both, t, db, SubsAfter(both, db)) {
        MergedTopic(env, f1, f2, both, topics, db, d1, w2.db.subs, t);
      }
    }
    if forall t: EventType :: TopicLoads(env, both, t, db, SubsAfter(both, db)) {
      forall t, e | Waits(f1, d1.subs, w2.db.subs, t, e) ensures Insertable(env, db.seeds, db.facts, e) {
        assert e in both.good(t) && TopicLoads(env, both, t, db, SubsAfter(both, db));
        LoadsKnown(env, both, t, db, SubsAfter(both, db), e);
      }
    }
  }

  lemma LoadsKnown(env: Env, feed: Feed, t: EventType, db: Db, subs: SubTable, e: Event)
    requires IsFactTopic(t) && TopicLoads(env, feed, t, db, subs) && e in feed.good(t) && SubscriberOf(e) in subs
    ensures Insertable(env, db.seeds, db.facts, e)
  {
    hide Insertable;
  }

  lemma MergedSubs(env: Env, f1: Feed, f2: Feed, both: Feed, db: Db, d1: Db)
    requires Merges(f1, f2, both) && d1.subs == SubsAfter(f1, db)
    requires TopicLoads(env, f1, SubscriberCreated, db, d1.subs)
    requires TopicLoads(env, f2, SubscriberCreated, d1, SubsAfter(f2, d1))
    ensures SubsAfter(both, db) == SubsAfter(f2, d1) && Some(d1.subs) == UpsertSubs(db.subs, f1.good(SubscriberCreated))
  {
    hide UpsertSubs, AllFit;
    UpsertComposes(db.subs, f1.good(SubscriberCreated), f2.good(SubscriberCreated));
  }

  lemma LoadedFact(env: Env, feed: Feed, topics: seq<EventType>, db: Db, f: Fact)
    requires Distinct(topics) && GoodOrder(topics) && Sound(env, feed) && LoadFrom(env, feed, topics, db).Some?
    requires f in LoadFrom(env, feed, topics, db).value.db.facts
    ensures f in db.facts || Added(env, feed, topics, |topics|, LoadFrom(env, feed, topics, db).value.db.subs, db, f)
  {
    hide LoadTo, Finish, Sound, Added;
    LoadedTables(env, feed, topics, db);
    FactsOfLoad(env, feed, topics, |topics|, Work(db, [], []), f);
  }

  /** Batch boundaries. If two adjacent batches load, their merger loads exactly when
      every event of the first that waits for a subscriber of the second is insertable.
      It then leaves the same subscribers and tower state and at least the same facts;
      facts and rollups are the same exactly when no row is added for a waiting event. */
  lemma MergedBatches(env: Env, f1: Feed, f2: Feed, both: Feed, topics: seq<EventType>, db: Db, w1: Work, w2: Work)
    requires Distinct(topics) && GoodOrder(topics) && Merges(f1, f2, both) && Sound(env, both)
    requires WellFormed(db) && RollupsExact(db) && WholeFeed(both)
    requires LoadFrom(env, f1, topics, db) == Some(w1) && LoadFrom(env, f2, topics, w1.db) == Some(w2)
    ensures LoadFrom(env, both, topics, db).Some? <==> WaitingInsertable(env, f1, db, w1.db.subs, w2.db.subs)
    ensures LoadFrom(env, both, topics, db).Some? ==>
      MergedOutcome(env, f1, f2, db, w1.db.subs, w2.db, LoadFrom(env, both, topics, db).value.db)
  {
    hide LoadFrom, Sound, WellFormed, RollupsExact, WholeFeed, WaitingInsertable, HasOrphan;
    MergedLoadsIff(env, f1, f2, both, topics, db, w1, w2);
    if LoadFrom(env, both, topics, db).Some? {
      MergedTables(env, f1, f2, both, topics, db, w1, w2, LoadFrom(env, both, topics, db).value);
    }
  }

  ghost predicate MergedOutcome(env: Env, f1: Feed, f2: Feed, db: Db, subs1: SubTable, apart: Db, merged: Db) {
    && merged.subs == apart.subs && merged.towers == apart.towers
    && (forall f :: f in apart.facts ==> f in merged.facts)
    && ((forall f :: f in merged.facts <==> f in apart.facts)
          <==> forall f :: !HasOrphan(env, f1, f2, db, subs1, apart.subs, f))
    && ((forall f :: !HasOrphan(env, f1, f2, db, subs1, apart.subs, f)) ==> merged.agg == apart.agg)
  }

  // ----- two refused transactions -----

  /** A feed whose accepted events are those of two topics at most. */
  function FeedOfEvents(t: EventType, xs: seq<Event>, u: EventType, ys: seq<Event>): Feed {
    Feed((v: EventType) => if v == t then xs else if v == u then ys else [], (v: EventType) => [],
         (v: EventType) => (n: nat) => 0)
  }

  const EARLY_MESSAGE := Event("order-7", 1, Stamp(FIRST_DAY, 0), SmsBody(7, "27600000000", 1), JNull)
  const LATE_SUBSCRIBER :=
    Event("subscriber-7", 1, Stamp(FIRST_DAY, 0), SubscriberBody(7, "27600000007", "Prepaid", "Gauteng"), JNull)

  lemma RefusedEventsAreClean(env: Env)
    requires forall c: char :: '0' <= c <= '9' ==> env.isDigit(c)
    ensures Clean(env, EARLY_MESSAGE.body) && Clean(env, LATE_SUBSCRIBER.body)
  {
    var a, b := "27600000000", "27600000007";
    assert forall i :: 0 <= i < |a| ==> '0' <= a[i] <= '9';
    assert forall i :: 0 <= i < |b| ==> '0' <= b[i] <= '9';
    assert Catalog.PLANS[0] == "Prepaid" && Catalog.PROVINCES[2] == "Gauteng";
  }

  lemma MessageAloneLoads(env: Env, db: Db)
    requires db.subs == map[]
    ensures SubsAfter(MessageFeed(), db) == map[]
    ensures forall t: EventType :: TopicLoads(env, MessageFeed(), t, db, SubsAfter(MessageFeed(), db))
  {
    assert UpsertSubs(db.subs, []) == Some(db.subs);
    NothingUpdates(db.seeds);
    hide UpsertSubs, LatestStorable, Insertable;
  }

  lemma SubscriberAloneLoads(env: Env, db: Db)
    requires db.subs == map[]
    ensures 7 in SubsAfter(SubscriberFeed(), db)
    ensures forall t: EventType :: TopicLoads(env, SubscriberFeed(), t, db, SubsAfter(SubscriberFeed(), db))
  {
    hide LatestStorable, Insertable;
    assert [LATE_SUBSCRIBER][..0] == [];
    assert UpsertSubs(db.subs, [LATE_SUBSCRIBER]) == UpsertOne(db.subs, LATE_SUBSCRIBER);
    NothingUpdates(db.seeds);
  }

  function MessageFeed(): Feed { FeedOfEvents(Sms, [EARLY_MESSAGE], Sms, []) }
  function SubscriberFeed(): Feed { FeedOfEvents(SubscriberCreated, [LATE_SUBSCRIBER], Sms, []) }
  function MergedFeed(): Feed { FeedOfEvents(Sms, [EARLY_MESSAGE], SubscriberCreated, [LATE_SUBSCRIBER]) }

  lemma RefusedFeeds(t: EventType)
    ensures MessageFeed().good(t) == (if t == Sms then [EARLY_MESSAGE] else [])
    ensures SubscriberFeed().good(t) == (if t == SubscriberCreated then [LATE_SUBSCRIBER] else [])
    ensures MergedFeed().good(t) == MessageFeed().good(t) + SubscriberFeed().good(t)
    ensures forall e :: e in MergedFeed().good(t) ==> e.ts == Stamp(FIRST_DAY, 0)
    ensures forall a, b :: a in MergedFeed().good(t) && b in MergedFeed().good(t) ==> a == b && TypeOf(a.body) == t
  {
  }

  lemma RefusedSetting(env: Env)
    ensures Merges(MessageFeed(), SubscriberFeed(), MergedFeed()) && Sound(env, MergedFeed())
    ensures WholeFeed(MessageFeed()) && WholeFeed(SubscriberFeed()) && WholeFeed(MergedFeed())
  {
    hide MessageFeed, SubscriberFeed, MergedFeed;
    forall t: EventType
      ensures MergedFeed().good(t) == MessageFeed().good(t) + SubscriberFeed().good(t)
      ensures forall e :: e in MergedFeed().good(t) ==> e.ts.offset % MINUTE == 0
      ensures forall a, b :: a in MergedFeed().good(t) && b in MergedFeed().good(t) ==> a == b && TypeOf(a.body) == t
    {
      RefusedFeeds(t);
    }
  }

  lemma MessageWaits(env: Env, seeds: Seeds, subs1: SubTable, subs2: SubTable)
    requires env.uuid(EARLY_MESSAGE.id).None? && 7 !in subs1 && 7 in subs2
    ensures !WaitingInsertable(env, MessageFeed(), EmptyDb(seeds), subs1, subs2)
  {
    assert EARLY_MESSAGE in MessageFeed().good(Sms);
    assert Waits(MessageFeed(), subs1, subs2, Sms, EARLY_MESSAGE);
    assert !Insertable(env, seeds, [], EARLY_MESSAGE);
  }

  /** A merger that is refused: a clean message with an identifier that is no UUID comes
      before its subscriber. Apart, it is reported and both batches load; together, its
      cast fails. */
  lemma RefusedMerger(env: Env, topics: seq<EventType>, seeds: Seeds)
    requires Distinct(topics) && GoodOrder(topics) && env.uuid(EARLY_MESSAGE.id).None?
    ensures var db := EmptyDb(seeds);
      && Merges(MessageFeed(), SubscriberFeed(), MergedFeed()) && Sound(env, MergedFeed())
      && LoadFrom(env, MessageFeed(), topics, db).Some?
      && LoadFrom(env, SubscriberFeed(), topics, LoadFrom(env, MessageFeed(), topics, db).value.db).Some?
      && LoadFrom(env, MergedFeed(), topics, db).None?
  {
    hide LoadFrom, Insertable, Sound, WholeFeed, Merges, TopicLoads, SubsAfter, RollupsExact, WellFormed, MessageFeed,
      SubscriberFeed, MergedFeed, WaitingInsertable;
    var f1, f2, db := MessageFeed(), SubscriberFeed(), EmptyDb(seeds);
    RefusedSetting(env);
    MergedSound(env, f1, f2, MergedFeed());
    EmptyIsExact(seeds);
    MessageAloneLoads(env, db);
    BatchLoadsIff(env, f1, topics, db);
    var w1 := LoadFrom(env, f1, topics, db).value;
    LoadKeepsExact(env, f1, topics, db);
    LoadedSubs(env, f1, topics, db);
    SubscriberAloneLoads(env, w1.db);
    BatchLoadsIff(env, f2, topics, w1.db);
    var w2 := LoadFrom(env, f2, topics, w1.db).value;
    LoadedSubs(env, f2, topics, w1.db);
    MergedLoadsIff(env, f1, f2, MergedFeed(), topics, db, w1, w2);
    MessageWaits(env, seeds, w1.db.subs, w2.db.subs);
  }

  // ----- a batch whose offset is not in whole minutes -----

  /** A feed of one event. */
  function FeedOfOne(e: Event): Feed { FeedOfEvents(TypeOf(e.body), [e], TypeOf(e.body), []) }

  lemma FeedOfOneParts(e: Event, t: EventType)
    ensures FeedOfOne(e).good(t) == (if t == TypeOf(e.body) then [e] else []) && FeedOfOne(e).bad(t) == []
  {
  }

  lemma NoEventsNoWork(env: Env, feed: Feed, t: EventType, w: Work)
    requires feed.good(t) == [] && feed.bad(t) == []
    ensures TopicWork(env, feed, t, w) == Some(w)
  {
    assert w.dlq + [] == w.dlq;
  }

  /** A feed with records of one topic only does that topic's work. */
  lemma {:induction false} OnlyItsTopicWorks(env: Env, feed: Feed, only: EventType, topics: seq<EventType>, k: nat, w: Work)
    requires k <= |topics| && Distinct(topics)
    requires forall t :: t != only ==> feed.good(t) == [] && feed.bad(t) == []
    ensures LoadTo(env, feed, topics, k, w) == if only in topics[..k] then TopicWork(env, feed, only, w) else Some(w)
    decreases k
  {
    hide TopicWork;
    if k > 0 {
      var t := topics[k - 1];
      OnlyItsTopicWorks(env, feed, only, topics, k - 1, w);
      assert topics[..k] == topics[..k - 1] + [t];
      if t != only {
        forall w' ensures TopicWork(env, feed, t, w') == Some(w') {
          NoEventsNoWork(env, feed, t, w');
        }
      }
    }
  }

  /** A recharge of a known subscriber that the fact statement accepts. */
  ghost predicate GoodRecharge(env: Env, db: Db, e: Event) {
    e.body.AirtimeBody? && SubscriberOf(e) in db.subs && env.uuid(e.id).Some? && LakeFits(e) && DateKnown(e.ts.utc)
  }

  function RechargeItem(env: Env, db: Db, e: Event): Item
    requires GoodRecharge(env, db, e)
  {
    Item(e.ts.utc, Revenue(db.subs[SubscriberOf(e)].province, "AIRTIME"), Round2(e.body.amount), false)
  }

  lemma RechargeFact(env: Env, db: Db, e: Event, f: Fact)
    requires GoodRecharge(env, db, e) && FactOf(env, e) == Some(f)
    ensures FactItems(db.subs, [f]) == [RechargeItem(env, db, e)]
  {
    var facts := [f];
    var init, last := facts[..|facts| - 1], facts[|facts| - 1];
    assert init == [] && last == f;
    assert FactItems(db.subs, facts) == FactItems(db.subs, init) + FactItem(db.subs, last);
  }

  lemma OneEvent(e: Event, subs: SubTable)
    requires SubscriberOf(e) in subs
    ensures Dedupe([e], EventId()) == [e] && Known(subs, [e]) == [e] && Unknown(subs, [e]) == []
    ensures Remaining([e], []) == [e] && Stamps([e]) == [e.ts]
  {
    assert [e][..0] == [];
  }

  lemma InsertOneEvent(env: Env, seeds: Seeds, facts: seq<Fact>, e: Event)
    ensures InsertAll(env, seeds, facts, [e]) == InsertOne(env, seeds, facts, e)
  {
    hide InsertOne;
    assert [e][..0] == [];
  }

  lemma RechargeInserts(env: Env, db: Db, e: Event)
    requires GoodRecharge(env, db, e)
    ensures FactOf(env, e).Some?
    ensures var f := FactOf(env, e).value;
      (db.facts == [] || db.facts == [f]) ==> InsertOne(env, db.seeds, db.facts, e) == Some([f])
  {
    hide DateKnown;
    var f := FactOf(env, e).value;
    assert Keys([f]) == {Key(f)} && Keys([]) == {};
    assert [] + [f] == [f];
  }

  /** The topic's step stores the recharge, or finds it stored. */
  lemma RechargeWork(env: Env, db: Db, e: Event)
    requires GoodRecharge(env, db, e) && (db.facts == [] || db.facts == [FactOf(env, e).value])
    ensures FactOf(env, e).Some?
    ensures TopicWork(env, FeedOfOne(e), AirtimePurchase, Work(db, [], []))
         == Some(Work(db.(facts := [FactOf(env, e).value]), [], [e.ts]))
  {
    hide FeedOfOne, DateKnown, LakeFits, FactOf, Dedupe, Known, Unknown, Remaining, Stamps, InsertAll, InsertOne;
    FeedOfOneParts(e, AirtimePurchase);
    OneEvent(e, db.subs);
    InsertOneEvent(env, db.seeds, db.facts, e);
    RechargeInserts(env, db, e);
    var feed, f := FeedOfOne(e), FactOf(env, e).value;
    assert Unique(feed, AirtimePurchase) == [e] && AllFit([e]);
    assert Sink(env, AirtimePurchase, db, [e]) == Some(Sunk(db.(facts := [f]), []));
    assert Referential(env, AirtimePurchase, [], feed.late(AirtimePurchase)) == [];
    var none: seq<DlqRecord>, noStamps: seq<Stamp> := [], [];
    assert none + feed.bad(AirtimePurchase) + none == none && noStamps + [e.ts] == [e.ts];
  }

  lemma RechargeLoads(env: Env, topics: seq<EventType>, db: Db, e: Event)
    requires Distinct(topics) && GoodOrder(topics) && GoodRecharge(env, db, e)
    requires db.facts == [] || db.facts == [FactOf(env, e).value]
    ensures FactOf(env, e).Some?
    ensures var work := Work(db.(facts := [FactOf(env, e).value]), [], [e.ts]);
      LoadFrom(env, FeedOfOne(e), topics, db)
        == match RefreshFacts(work.db, e.ts, e.ts) case None => None case Some(d) => Some(work.(db := d))
  {
    hide FeedOfOne, TopicWork, RefreshFacts, FactOf, LoadTo;
    RechargeWork(env, db, e);
    forall t ensures t != AirtimePurchase ==> FeedOfOne(e).good(t) == [] && FeedOfOne(e).bad(t) == [] {
      FeedOfOneParts(e, t);
    }
    OnlyItsTopicWorks(env, FeedOfOne(e), AirtimePurchase, topics, |topics|, Work(db, [], []));
    assert Visited(topics, AirtimePurchase) && topics[..|topics|] == topics;
  }

  /** A refresh of a rollup that the source row is not in changes nothing. */
  lemma OtherRefresh(x: Item, t: Rollup, w: Window)
    requires TableOf(x.group) != t
    ensures Refresh(GroupBy([x]), [x], t, w) == Some(GroupBy([x]))
  {
    hide FloorMinute, Tally;
    assert [x][..0] == [];
    assert Select([x], t, w) == [] + [] == [];
    assert GroupBy([]) == map[];
    assert forall key :: key in GroupBy([x]) ==> key == KeyOf(x);
    assert Delete(GroupBy([x]), t, w) == GroupBy([x]);
    assert GroupBy([x]) + map[] == GroupBy([x]);
  }

  lemma FirstRefresh(x: Item, t: Rollup, w: Window)
    requires InWindow(x, t, w)
    ensures Refresh(map[], [x], t, w) == Some(GroupBy([x]))
  {
    hide FloorMinute, Tally, GroupBy, Select, InWindow;
    SelectOne(x, t, w);
    assert Delete(map[], t, w) == map[];
    assert map[] + GroupBy([x]) == GroupBy([x]);
  }

  /** A timestamp whose offset is not in whole minutes floors to no minute of UTC. */
  lemma OddFloor(ts: Stamp)
    requires ts.offset % MINUTE != 0
    ensures var w := MinuteParams(ts, ts);
      w.lo <= ts.utc < w.next && !(w.lo <= FloorMinute(ts.utc) <= w.hi)
  {
    LocalFloor(ts);
    UtcFloor(ts.utc);
  }

  /** A batch with one such timestamp loads once and never again: its first load commits,
      and the replay after a crash before the checkpoint dies on the rollup's primary key. */
  lemma OddOffsetLoadsOnce(env: Env, topics: seq<EventType>, db: Db, e: Event)
    requires Distinct(topics) && GoodOrder(topics)
    requires GoodRecharge(env, db, e) && db.facts == [] && db.agg == map[]
    requires e.ts.offset % MINUTE != 0
    ensures LoadFrom(env, FeedOfOne(e), topics, db).Some?
    ensures LoadFrom(env, FeedOfOne(e), topics, LoadFrom(env, FeedOfOne(e), topics, db).value.db).None?
  {
    hide LoadFrom, FeedOfOne, GroupBy, Refresh, FactOf, FactItems, Round2, FloorMinute, FloorLocal, GoodRecharge,
        MinuteParams;
    RechargeLoads(env, topics, db, e);
    var f, w := FactOf(env, e).value, MinuteParams(e.ts, e.ts);
    var x := RechargeItem(env, db, e);
    RechargeFact(env, db, e, f);
    OddFloor(e.ts);
    assert InWindow(x, RevenueMinute, w);
    FirstRefresh(x, RevenueMinute, w);
    OtherRefresh(x, CallsMinute, w);
    OtherRefresh(x, DataMinute, w);
    var d := db.(facts := [f], agg := GroupBy([x]));
    assert RefreshFacts(db.(facts := [f]), e.ts, e.ts) == Some(d);
    StillGood(env, db, d, e);
    RechargeLoads(env, topics, d, e);
    assert d.(facts := [f]) == d;
    StrayRowCollides(x, RevenueMinute, w);
    assert RefreshFacts(d, e.ts, e.ts).None?;
  }

  lemma StillGood(env: Env, a: Db, b: Db, e: Event)
    requires GoodRecharge(env, a, e) && b.subs == a.subs
    ensures GoodRecharge(env, b, e)
  {
  }
}
