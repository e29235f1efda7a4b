/** Batch boundaries: what changes, and what does not, when two adjacent micro-batches
    are processed as one. */
module Granularity {
  import opened Base
  import opened Schemas
  import opened Events
  import opened Rollups
  import opened Towers
  import opened Warehouse
  import opened Batches
  import opened Replay
  import opened Records
  import opened Protocol
  import opened Provenance

  // ----- duplicates are absorbed -----

  ghost predicate NamesEvents(xs: seq<Event>) {
    forall a, b :: a in xs && b in xs && a.id == b.id ==> a == b
  }

  lemma MemberId(xs: seq<Event>, x: Event)
    requires x in xs
    ensures x.id in Ids(xs, EventId())
  {
    var i :| 0 <= i < |xs| && xs[i] == x;
    assert EventId()(xs[i]) == x.id;
  }

  /** Where identifiers name events, a record is dropped only if the same event came before. */
  lemma DroppedCameBefore(xs: seq<Event>)
    requires xs != [] && NamesEvents(xs)
    ensures var init, x := xs[..|xs| - 1], xs[|xs| - 1];
      && xs == init + [x] && NamesEvents(init)
      && Dedupe(xs, EventId()) == if x in init then Dedupe(init, EventId()) else Dedupe(init, EventId()) + [x]
  {
    var init, x := xs[..|xs| - 1], xs[|xs| - 1];
    DedupeIds(init, EventId());
    assert xs == init + [x];
    if x in init {
      MemberId(init, x);
    }
    if x.id in Ids(init, EventId()) {
      NamedMember(init, xs, x);
    }
  }

  lemma NamedMember(init: seq<Event>, xs: seq<Event>, x: Event)
    requires NamesEvents(xs) && x in xs && (forall y :: y in init ==> y in xs)
    requires x.id in Ids(init, EventId())
    ensures x in init
  {
    var i :| 0 <= i < |init| && EventId()(init[i]) == x.id;
    assert init[i] in init;
  }

  lemma {:induction false} UpsertAbsorbs(subs: SubTable, xs: seq<Event>)
    requires NamesEvents(xs)
    ensures UpsertSubs(subs, Dedupe(xs, EventId())) == UpsertSubs(subs, xs)
  {
    hide UpsertSubs, NamesEvents, Dedupe;
    if xs == [] {
      assert Dedupe(xs, EventId()) == xs by { EmptyDedupe(); }
    } else {
      var init, x := xs[..|xs| - 1], xs[|xs| - 1];
      DroppedCameBefore(xs);
      UpsertAbsorbs(subs, init);
      UpsertComposes(subs, init, [x]);
      UpsertComposes(subs, Dedupe(init, EventId()), [x]);
      if x in init && UpsertSubs(subs, init).Some? {
        UpsertGrows(subs, init);
        CoveredUpsertIsNoOp(UpsertSubs(subs, init).value, [x]);
      }
    }
  }

  lemma EmptyDedupe()
    ensures Dedupe([], EventId()) == []
  {
  }

  lemma {:induction false} InsertComposes(env: Env, seeds: Seeds, facts: seq<Fact>, a: seq<Event>, b: seq<Event>)
    ensures InsertAll(env, seeds, facts, a + b)
         == match InsertAll(env, seeds, facts, a) case None => None case Some(fs) => InsertAll(env, seeds, fs, b)
  {
    hide InsertOne;
    if b == [] {
      assert a + b == a;
    } else {
      var n := |b| - 1;
      InsertComposes(env, seeds, facts, a, b[..n]);
      assert (a + b)[..|a + b| - 1] == a + b[..n];
    }
  }

  /** A conflict-ignoring insert of the de-duplicated events is the same as inserting
      all of them one at a time. */
  lemma {:induction false} InsertAbsorbs(env: Env, seeds: Seeds, facts: seq<Fact>, xs: seq<Event>)
    requires NamesEvents(xs)
    ensures InsertAll(env, seeds, facts, Dedupe(xs, EventId())) == InsertAll(env, seeds, facts, xs)
  {
    hide InsertAll, NamesEvents, Dedupe, Landed;
    if xs == [] {
      assert Dedupe(xs, EventId()) == xs by { EmptyDedupe(); }
    } else {
      var init, x := xs[..|xs| - 1], xs[|xs| - 1];
      DroppedCameBefore(xs);
      InsertAbsorbs(env, seeds, facts, init);
      InsertComposes(env, seeds, facts, init, [x]);
      InsertComposes(env, seeds, facts, Dedupe(init, EventId()), [x]);
      if x in init && InsertAll(env, seeds, facts, init).Some? {
        InsertGrows(env, seeds, facts, init);
        LandedInsertIsNoOp(env, seeds, InsertAll(env, seeds, facts, init).value, [x]);
      }
    }
  }

  function UpdateOf(e: Event): seq<Update> {
    match e.body
    case TowerBody(id, technology, signal, devices, status) =>
      [Update(id, TowerRow(technology, signal, devices, status, e.ts.utc))]
    case _ => []
  }

  lemma {:induction false} UpdatesAppend(a: seq<Event>, b: seq<Event>)
    ensures Updates(a + b) == Updates(a) + Updates(b)
  {
    hide UpdateOf;
    if b == [] {
      assert a + b == a;
    } else {
      var n := |b| - 1;
      UpdatesAppend(a, b[..n]);
      assert (a + b)[..|a + b| - 1] == a + b[..n];
      assert Updates(a) + (Updates(b[..n]) + UpdateOf(b[n])) == Updates(a) + Updates(b[..n]) + UpdateOf(b[n]);
    }
  }

  lemma {:induction false} WriteAbsorbs(towers: TowerTable, xs: seq<Event>)
    requires NamesEvents(xs)
    ensures WriteAll(towers, Updates(Dedupe(xs, EventId()))) == WriteAll(towers, Updates(xs))
  {
    hide WriteAll, Updates, NamesEvents, Dedupe;
    if xs == [] {
      assert Dedupe(xs, EventId()) == xs by { EmptyDedupe(); }
    } else {
      var init, x := xs[..|xs| - 1], xs[|xs| - 1];
      var kept := Dedupe(init, EventId());
      DroppedCameBefore(xs);
      WriteAbsorbs(towers, init);
      UpdatesAppend(init, [x]);
      UpdatesAppend(kept, [x]);
      WriteAllComposes(towers, Updates(init), Updates([x]));
      WriteAllComposes(towers, Updates(kept), Updates([x]));
      if x in init {
        WriteAllMovesForward(towers, Updates(init));
        UpdatesInside(init, x);
        CoveredIsNoOp(WriteAll(towers, Updates(init)), Updates([x]));
      }
    }
  }

  lemma UpdatesInside(events: seq<Event>, e: Event)
    requires e in events
    ensures forall u :: u in Updates([e]) ==> u in Updates(events)
  {
    assert [e][..0] == [];
    if e.body.TowerBody? {
      UpdatesOf(events, e);
    }
  }

  // ----- closed forms of a load -----

  ghost predicate SameUuid(env: Env, a: Event, b: Event) {
    env.uuid(a.id).Some? && env.uuid(a.id) == env.uuid(b.id)
  }

  /** Accepted events have their topic's type, and those that share a database
      identifier are the same event. */
  ghost predicate Sound(env: Env, feed: Feed) {
    && (forall t, e :: e in feed.good(t) ==> TypeOf(e.body) == t)
    && (forall t :: NamesEvents(feed.good(t)))
    && (forall t, a, b :: a in feed.good(t) && b in feed.good(t) && SameUuid(env, a, b) ==> a == b)
  }

  /** The events of a topic, or none before it is visited. */
  function Visible(feed: Feed, topics: seq<EventType>, k: nat, t: EventType): seq<Event>
    requires k <= |topics|
  {
    if exists i | 0 <= i < k :: topics[i] == t then feed.good(t) else []
  }

  lemma {:induction false} DimensionsOfLoad(env: Env, feed: Feed, topics: seq<EventType>, k: nat, w: Work)
    requires k <= |topics| && Distinct(topics) && Sound(env, feed) && LoadTo(env, feed, topics, k, w).Some?
    ensures var db := LoadTo(env, feed, topics, k, w).value.db;
      && db.seeds == w.db.seeds
      && Some(db.subs) == UpsertSubs(w.db.subs, Visible(feed, topics, k, SubscriberCreated))
      && db.towers == WriteAll(w.db.towers, Updates(Visible(feed, topics, k, TowerStatus)))
    decreases k
  {
    hide TopicWork, Sound;
    if k > 0 {
      var mid, t := LoadTo(env, feed, topics, k - 1, w).value, topics[k - 1];
      DimensionsOfLoad(env, feed, topics, k - 1, w);
      DimensionsOfTopic(env, feed, t, mid);
      VisibleStep(feed, topics, k, SubscriberCreated);
      VisibleStep(feed, topics, k, TowerStatus);
    }
  }

  lemma VisibleStep(feed: Feed, topics: seq<EventType>, k: nat, t: EventType)
    requires 0 < k <= |topics| && Distinct(topics)
    ensures topics[k - 1] != t ==> Visible(feed, topics, k, t) == Visible(feed, topics, k - 1, t)
    ensures topics[k - 1] == t ==> Visible(feed, topics, k, t) == feed.good(t) && Visible(feed, topics, k - 1, t) == []
  {
  }

  lemma DimensionsOfTopic(env: Env, feed: Feed, t: EventType, w: Work)
    requires Sound(env, feed) && TopicWork(env, feed, t, w).Some?
    ensures var db := TopicWork(env, feed, t, w).value.db;
      && db.seeds == w.db.seeds
      && (if t == SubscriberCreated then Some(db.subs) == UpsertSubs(w.db.subs, feed.good(t)) else db.subs == w.db.subs)
      && (if t == TowerStatus then db.towers == WriteAll(w.db.towers, Updates(feed.good(t))) else db.towers == w.db.towers)
  {
    hide InsertAll, NamesEvents, LatestStorable, Dedupe, Remaining, Referential, Known, Unknown, AllFit, Stamps, Joins;
    assert NamesEvents(feed.good(t));
    var events := Unique(feed, t);
    if t == SubscriberCreated {
      UpsertAbsorbs(w.db.subs, feed.good(t));
      assert events == [] ==> UpsertSubs(w.db.subs, events) == Some(w.db.subs);
    } else if t == TowerStatus {
      WriteAbsorbs(w.db.towers, feed.good(t));
      assert events == [] ==> WriteAll(w.db.towers, Updates(events)) == w.db.towers;
    }
  }

  /** A fact that loading the first k topics adds. */
  ghost predicate Added(env: Env, feed: Feed, topics: seq<EventType>, k: nat, subs: SubTable, db: Db, f: Fact)
    requires k <= |topics|
  {
    exists i, e :: 0 <= i < k && IsFactTopic(topics[i]) && e in feed.good(topics[i]) && Yields(env, db, subs, e, f)
  }

  ghost predicate Yields(env: Env, db: Db, subs: SubTable, e: Event, f: Fact) {
    SubscriberOf(e) in subs && Joins(db.seeds, e) && FactOf(env, e) == Some(f) && Key(f) !in Keys(db.facts)
  }

  ghost predicate KeysNameEvents(env: Env, events: seq<Event>) {
    forall a, b :: a in events && b in events && SameKey(env, a, b) ==> a == b
  }

  ghost predicate SameKey(env: Env, a: Event, b: Event) {
    FactOf(env, a).Some? && FactOf(env, b).Some? && Key(FactOf(env, a).value) == Key(FactOf(env, b).value)
  }

  /** Membership form of an insert: what was there, and the row of every joinable event
      whose key was not. */
  lemma {:induction false} InsertMembers(env: Env, seeds: Seeds, facts: seq<Fact>, events: seq<Event>, f: Fact)
    requires InsertAll(env, seeds, facts, events).Some?
    requires KeysNameEvents(env, events)
    ensures f in InsertAll(env, seeds, facts, events).value <==>
      f in facts || (Key(f) !in Keys(facts) && exists e :: e in events && Joins(seeds, e) && FactOf(env, e) == Some(f))
  {
    hide FactOf, Joins, DateKnown, Key, InsertAll;
    var after := InsertAll(env, seeds, facts, events).value;
    InsertGrows(env, seeds, facts, events);
    if f in after && f !in facts {
      var i :| 0 <= i < |after| && after[i] == f;
      assert i >= |facts|;
      assert Sourced(env, seeds, after[i], events);
    }
    if Key(f) !in Keys(facts) && exists e :: e in events && Joins(seeds, e) && FactOf(env, e) == Some(f) {
      var e :| e in events && Joins(seeds, e) && FactOf(env, e) == Some(f);
      assert Landed(env, seeds, after, e);
      var g :| g in after && Key(g) == Key(f);
      var i :| 0 <= i < |after| && after[i] == g;
      assert i >= |facts|;
      assert Sourced(env, seeds, after[i], events);
    }
  }

  /** Facts of a topic not yet visited are those of the starting state. */
  lemma {:induction false} UnvisitedKeys(env: Env, feed: Feed, topics: seq<EventType>, k: nat, w: Work, t: EventType)
    requires k <= |topics| && Sound(env, feed) && LoadTo(env, feed, topics, k, w).Some?
    requires forall i :: 0 <= i < k ==> topics[i] != t
    ensures var keys := Keys(LoadTo(env, feed, topics, k, w).value.db.facts);
      forall key: FactKey :: key in keys && key.table == t ==> key in Keys(w.db.facts)
    decreases k
  {
    hide TopicWork, Sound;
    if k > 0 {
      var mid := LoadTo(env, feed, topics, k - 1, w).value;
      UnvisitedKeys(env, feed, topics, k - 1, w, t);
      TopicAddsOwnKeys(env, feed, topics[k - 1], mid);
    }
  }

  /** A topic's step adds facts of its own table only, one per key. */
  lemma TopicAddsOwnKeys(env: Env, feed: Feed, t: EventType, w: Work)
    requires Sound(env, feed) && TopicWork(env, feed, t, w).Some?
    ensures var keys := Keys(TopicWork(env, feed, t, w).value.db.facts);
      forall key: FactKey :: key in keys && key !in Keys(w.db.facts) ==> key.table == t
  {
    hide FactOf, Joins, UpsertSubs, LatestStorable, Remaining, Referential, Dedupe, WriteAll, NamesEvents, AllFit,
        InsertAll;
    var events, after := Unique(feed, t), TopicWork(env, feed, t, w).value.db.facts;
    if events != [] && IsFactTopic(t) {
      var known := Known(w.db.subs, events);
      InsertGrows(env, w.db.seeds, w.db.facts, known);
      KnownOrUnknown(w.db.subs, events);
      forall key | key in Keys(after) && key !in Keys(w.db.facts) ensures key.table == t {
        var f :| f in after && Key(f) == key;
        var i :| 0 <= i < |after| && after[i] == f;
        assert Sourced(env, w.db.seeds, after[i], known);
        var e :| e in known && Joins(w.db.seeds, e) && FactOf(env, e) == Some(f) && DateKnown(f.ts);
        assert e in feed.good(t);
        FactTableOf(env, e);
      }
    }
  }

  /** One topic's step, by membership. */
  lemma TopicMembers(env: Env, feed: Feed, t: EventType, w: Work, f: Fact)
    requires Sound(env, feed) && TopicWork(env, feed, t, w).Some?
    ensures f in TopicWork(env, feed, t, w).value.db.facts <==>
      f in w.db.facts || (IsFactTopic(t) && exists e :: e in feed.good(t) && Yields(env, w.db, w.db.subs, e, f))
  {
    hide FactOf, Joins, UpsertSubs, LatestStorable, Remaining, Referential, InsertAll, Dedupe;
    var events := Unique(feed, t);
    assert forall e :: e in events <==> e in feed.good(t) by {
      forall e | e in feed.good(t) ensures e in events {
        KeepsAll(feed.good(t), e);
      }
    }
    if events != [] && IsFactTopic(t) {
      var known := Known(w.db.subs, events);
      KnownOrUnknown(w.db.subs, events);
      forall a, b | a in known && b in known && SameKey(env, a, b) ensures a == b {
        SameKeySameId(env, a, b);
      }
      InsertMembers(env, w.db.seeds, w.db.facts, known, f);
    }
  }

  lemma SameKeySameId(env: Env, a: Event, b: Event)
    requires SameKey(env, a, b)
    ensures SameUuid(env, a, b)
  {
  }

  lemma KeepsAll(xs: seq<Event>, e: Event)
    requires NamesEvents(xs) && e in xs
    ensures e in Dedupe(xs, EventId())
  {
    DedupeIds(xs, EventId());
    MemberId(xs, e);
    var kept := Dedupe(xs, EventId());
    var i :| 0 <= i < |kept| && EventId()(kept[i]) == e.id;
    assert kept[i] in kept;
  }

  /** A load, by membership: the facts that were there, and the row of every known,
      joinable event whose key was not. */
  lemma {:induction false} FactsOfLoad(env: Env, feed: Feed, topics: seq<EventType>, k: nat, w: Work, f: Fact)
    requires k <= |topics| && Distinct(topics) && SubscribersFirst(topics) && Sound(env, feed)
    requires LoadTo(env, feed, topics, k, w).Some?
    ensures var db := LoadTo(env, feed, topics, k, w).value.db;
      f in db.facts <==> f in w.db.facts || Added(env, feed, topics, k, db.subs, w.db, f)
    decreases k
  {
    hide TopicWork, Sound, FactOf, Joins;
    if k > 0 {
      var t := topics[k - 1];
      var mid, db := LoadTo(env, feed, topics, k - 1, w).value, LoadTo(env, feed, topics, k, w).value.db;
      FactsOfLoad(env, feed, topics, k - 1, w, f);
      TopicMembers(env, feed, t, mid, f);
      DimensionsOfTopic(env, feed, t, mid);
      LoadEffectTo(env, feed, topics, k - 1, w);
      UnvisitedKeys(env, feed, topics, k - 1, w, t);
      FirstAddsNothing(env, feed, topics, k, mid.db.subs, db.subs, w.db, f);
      if IsFactTopic(t) {
        forall e | e in feed.good(t) && FactOf(env, e) == Some(f) ensures Key(f).table == t {
          TableOfGood(env, feed, t, e);
        }
        LastTopicAdds(env, feed, topics, k, db.subs, w.db, mid.db, f);
      }
    }
  }

  lemma TableOfGood(env: Env, feed: Feed, t: EventType, e: Event)
    requires Sound(env, feed) && e in feed.good(t) && FactOf(env, e).Some?
    ensures Key(FactOf(env, e).value).table == t
  {
    FactTableOf(env, e);
  }

  lemma FirstAddsNothing(env: Env, feed: Feed, topics: seq<EventType>, k: nat, before: SubTable, after: SubTable,
      db: Db, f: Fact)
    requires 0 < k <= |topics| && (topics[k - 1] != SubscriberCreated ==> after == before)
    requires SubscribersFirst(topics)
    ensures Added(env, feed, topics, k - 1, after, db, f) <==> Added(env, feed, topics, k - 1, before, db, f)
  {
    if topics[k - 1] == SubscriberCreated {
      assert k == 1;
    }
  }

  lemma LastTopicAdds(env: Env, feed: Feed, topics: seq<EventType>, k: nat, subs: SubTable, db: Db, mid: Db, f: Fact)
    requires 0 < k <= |topics| && IsFactTopic(topics[k - 1]) && mid.seeds == db.seeds && Keys(db.facts) <= Keys(mid.facts)
    requires forall e :: e in feed.good(topics[k - 1]) && FactOf(env, e) == Some(f) ==> Key(f).table == topics[k - 1]
    requires forall key: FactKey :: key in Keys(mid.facts) && key.table == topics[k - 1] ==> key in Keys(db.facts)
    ensures Added(env, feed, topics, k, subs, db, f) <==>
      Added(env, feed, topics, k - 1, subs, db, f) || exists e :: e in feed.good(topics[k - 1]) && Yields(env, mid, subs, e, f)
  {
    hide FactOf, Joins;
    if Added(env, feed, topics, k, subs, db, f) {
      var i, e :| 0 <= i < k && IsFactTopic(topics[i]) && e in feed.good(topics[i]) && Yields(env, db, subs, e, f);
      if i == k - 1 {
        assert Yields(env, mid, subs, e, f);
      }
    }
    if exists e :: e in feed.good(topics[k - 1]) && Yields(env, mid, subs, e, f) {
      var e :| e in feed.good(topics[k - 1]) && Yields(env, mid, subs, e, f);
      assert Yields(env, db, subs, e, f);
    }
  }

  // ----- merging two batches -----

  /** `both` validates to what the two batches validate to, one after the other. */
  ghost predicate Merges(f1: Feed, f2: Feed, both: Feed) {
    forall t :: both.good(t) == f1.good(t) + f2.good(t)
  }

  lemma MergedSound(env: Env, f1: Feed, f2: Feed, both: Feed)
    requires Merges(f1, f2, both) && Sound(env, both)
    ensures Sound(env, f1) && Sound(env, f2)
  {
    assert forall t, e :: e in f1.good(t) || e in f2.good(t) ==> e in both.good(t);
  }

  /** With stable verdicts a merged batch validates to what its parts validate to,
      whatever the clock readings. */
  lemma MergedBatchMerges(env: Env, judge: Judging, b1: Batch, b2: Batch, time: int, c1: Clock, c2: Clock, c: Clock,
      hi: int)
    requires StableFrom(judge, b1, time) && StableFrom(judge, b2, time)
    requires InTime(c1, time, hi) && InTime(c2, time, hi) && InTime(c, time, hi)
    ensures Merges(FeedOf(env, judge, b1, c1), FeedOf(env, judge, b2, c2), FeedOf(env, judge, b1 + b2, c))
  {
    hide Goods, Raws, Bads, StableFrom;
    forall t ensures Accepted(judge, t, Raws(b1 + b2, t), c)
                  == Accepted(judge, t, Raws(b1, t), c1) + Accepted(judge, t, Raws(b2, t), c2) {
      var r1, r2 := Raws(b1, t), Raws(b2, t);
      RawsAppend(b1, b2, t);
      StableVerdicts(judge, b1, t, time, c1, hi);
      StableVerdicts(judge, b2, t, time, c2, hi);
      MergedStable(judge, b1, b2, time);
      StableVerdicts(judge, b1 + b2, t, time, c, hi);
      var v1, v2 := Verdicts(judge, t, r1, c1), Verdicts(judge, t, r2, c2);
      SplitVerdicts(judge, t, time, r1, r2, v1, v2, Verdicts(judge, t, r1 + r2, c));
      GoodsAppend(v1, v2);
    }
  }

  lemma SplitVerdicts(judge: Judging, t: EventType, time: int, r1: seq<string>, r2: seq<string>,
                      v1: seq<Verdict>, v2: seq<Verdict>, v: seq<Verdict>)
    requires |v1| == |r1| && |v2| == |r2| && |v| == |r1 + r2|
    requires forall j :: 0 <= j < |r1| ==> v1[j] == judge(t, r1[j], time)
    requires forall j :: 0 <= j < |r2| ==> v2[j] == judge(t, r2[j], time)
    requires forall j :: 0 <= j < |r1 + r2| ==> v[j] == judge(t, (r1 + r2)[j], time)
    ensures v == v1 + v2
  {
  }

  lemma MergedStable(judge: Judging, b1: Batch, b2: Batch, time: int)
    requires StableFrom(judge, b1, time) && StableFrom(judge, b2, time)
    ensures StableFrom(judge, b1 + b2, time)
  {
  }

  lemma StableVerdicts(judge: Judging, batch: Batch, t: EventType, time: int, c: Clock, hi: int)
    requires StableFrom(judge, batch, time) && InTime(c, time, hi)
    ensures forall j :: 0 <= j < |Raws(batch, t)| ==>
              Verdicts(judge, t, Raws(batch, t), c)[j] == judge(t, Raws(batch, t)[j], time)
  {
    var raws := Raws(batch, t);
    RawsAreRows(batch, t);
    forall j | 0 <= j < |raws| ensures Verdicts(judge, t, raws, c)[j] == judge(t, raws[j], time) {
      var row := Row(t, raws[j]);
      assert row in batch && judge(row.topic, row.raw, c(t, j)) == judge(row.topic, row.raw, time);
    }
  }

  lemma {:induction false} RawsAppend(a: Batch, b: Batch, t: EventType)
    ensures Raws(a + b, t) == Raws(a, t) + Raws(b, t)
  {
    if b == [] {
      assert a + b == a;
    } else {
      var init, last := b[..|b| - 1], b[|b| - 1];
      RawsAppend(a, init, t);
      assert (a + b)[..|a + b| - 1] == a + init;
      assert Raws(a, t) + (Raws(init, t) + [last.raw]) == Raws(a, t) + Raws(init, t) + [last.raw];
    }
  }

  lemma {:induction false} GoodsAppend(a: seq<Verdict>, b: seq<Verdict>)
    ensures Goods(a + b) == Goods(a) + Goods(b)
  {
    if b == [] {
      assert a + b == a;
    } else {
      var init, last := b[..|b| - 1], b[|b| - 1];
      GoodsAppend(a, init);
      assert (a + b)[..|a + b| - 1] == a + init;
      assert last.Accept? ==> Goods(a) + (Goods(init) + [last.event]) == Goods(a) + Goods(init) + [last.event];
    }
  }

  /** The state after loading the first batch and then the second, and the state after
      loading both as one batch, without the rollups. */
  ghost predicate TwoWays(env: Env, f1: Feed, f2: Feed, both: Feed, topics: seq<EventType>, db: Db, d1: Db, d2: Db,
      d: Db) {
    var a, c := LoadTo(env, f1, topics, |topics|, Work(db, [], [])), LoadTo(env, both, topics, |topics|, Work(db, [], []));
    var b := LoadTo(env, f2, topics, |topics|, Work(d1, [], []));
    a.Some? && b.Some? && c.Some? && SameTables(d1, a.value.db) && SameTables(d2, b.value.db) && SameTables(d, c.value.db)
  }

  ghost predicate SameTables(a: Db, b: Db) {
    a.seeds == b.seeds && a.subs == b.subs && a.towers == b.towers && a.facts == b.facts
  }

  /** Merging adjacent batches gives the same subscribers and the same tower state. */
  lemma MergedDimensions(env: Env, f1: Feed, f2: Feed, both: Feed, topics: seq<EventType>, db: Db, d1: Db, d2: Db,
      d: Db)
    requires Distinct(topics) && Merges(f1, f2, both) && Sound(env, both)
    requires TwoWays(env, f1, f2, both, topics, db, d1, d2, d)
    requires forall t: EventType :: Visited(topics, t)
    ensures d.subs == d2.subs && d.towers == d2.towers && d.seeds == d1.seeds == db.seeds
  {
    hide LoadTo, Sound, UpsertSubs, WriteAll, Updates;
    MergedSound(env, f1, f2, both);
    assert Visited(topics, SubscriberCreated) && Visited(topics, TowerStatus);
    DimensionsOfLoad(env, f1, topics, |topics|, Work(db, [], []));
    DimensionsOfLoad(env, f2, topics, |topics|, Work(d1, [], []));
    DimensionsOfLoad(env, both, topics, |topics|, Work(db, [], []));
    UpsertComposes(db.subs, f1.good(SubscriberCreated), f2.good(SubscriberCreated));
    UpdatesAppend(f1.good(TowerStatus), f2.good(TowerStatus));
    WriteAllComposes(db.towers, Updates(f1.good(TowerStatus)), Updates(f2.good(TowerStatus)));
  }

  /** The event of the first batch names a subscriber that only the second batch
      brings, and is not delivered again there: its row is missing when the batches
      are processed apart. */
  ghost predicate Orphaned(env: Env, f1: Feed, f2: Feed, db: Db, subs1: SubTable, subs2: SubTable, t: EventType,
      e: Event, f: Fact) {
    && IsFactTopic(t) && e in f1.good(t) && e !in f2.good(t)
    && SubscriberOf(e) !in subs1 && Yields(env, db, subs2, e, f)
  }

  ghost predicate HasOrphan(env: Env, f1: Feed, f2: Feed, db: Db, subs1: SubTable, subs2: SubTable, f: Fact) {
    exists t, e :: Orphaned(env, f1, f2, db, subs1, subs2, t, e, f)
  }

  /** One event per fact: the same row comes from the same topic and the same event. */
  lemma SameFactSameEvent(env: Env, feed: Feed, t: EventType, a: Event, u: EventType, b: Event)
    requires Sound(env, feed) && a in feed.good(t) && b in feed.good(u) && SameKey(env, a, b)
    ensures t == u && a == b
  {
    hide FactOf;
    TableOfGood(env, feed, t, a);
    TableOfGood(env, feed, u, b);
    SameKeySameId(env, a, b);
  }

  /** Merging adjacent batches loses no fact, and what it adds are the rows of the
      orphaned events: the facts are the same if and only if there are none. */
  lemma MergedFacts(env: Env, f1: Feed, f2: Feed, both: Feed, topics: seq<EventType>, db: Db, d1: Db, d2: Db, d: Db,
      f: Fact)
    requires Distinct(topics) && GoodOrder(topics) && Merges(f1, f2, both) && Sound(env, both)
    requires TwoWays(env, f1, f2, both, topics, db, d1, d2, d)
    ensures f in d2.facts ==> f in d.facts
    ensures f in d.facts && f !in d2.facts <==> HasOrphan(env, f1, f2, db, d1.subs, d2.subs, f)
  {
    hide LoadTo, Sound, FactOf, Joins, Added, Orphaned;
    var n := |topics|;
    MergedSound(env, f1, f2, both);
    MergedDimensions(env, f1, f2, both, topics, db, d1, d2, d);
    FactsOfLoad(env, f1, topics, n, Work(db, [], []), f);
    FactsOfLoad(env, f2, topics, n, Work(d1, [], []), f);
    FactsOfLoad(env, both, topics, n, Work(db, [], []), f);
    LoadEffectTo(env, f1, topics, n, Work(db, [], []));
    LoadEffectTo(env, f2, topics, n, Work(d1, [], []));
    PartsAreAdded(env, f1, f2, both, topics, db, d1, d2, f);
    if f in d.facts && f !in d2.facts {
      var i, e := AddedBy(env, both, topics, n, d2.subs, db, f);
      if e in f2.good(topics[i]) {
        forall g | g in d1.facts ensures g in db.facts || Added(env, f1, topics, n, d1.subs, db, g) {
          FactsOfLoad(env, f1, topics, n, Work(db, [], []), g);
        }
        SecondDelivers(env, f1, f2, both, topics, db, d1, d2, topics[i], e, f);
      } else {
        FirstDelivers(env, f1, f2, topics, db, d1, d2.subs, topics[i], e, f);
      }
    }
    if HasOrphan(env, f1, f2, db, d1.subs, d2.subs, f) {
      var t, e :| Orphaned(env, f1, f2, db, d1.subs, d2.subs, t, e, f);
      OrphanIsMissing(env, f1, f2, both, topics, db, d1, d2, t, e, f);
    }
  }

  lemma AddedBy(env: Env, feed: Feed, topics: seq<EventType>, k: nat, subs: SubTable, db: Db,
      f: Fact) returns (i: nat, e: Event)
    requires k <= |topics| && Added(env, feed, topics, k, subs, db, f)
    ensures i < k && IsFactTopic(topics[i]) && e in feed.good(topics[i]) && Yields(env, db, subs, e, f)
  {
    i, e :| 0 <= i < k && IsFactTopic(topics[i]) && e in feed.good(topics[i]) && Yields(env, db, subs, e, f);
  }

  /** What either part adds, the merged batch adds. */
  lemma PartsAreAdded(env: Env, f1: Feed, f2: Feed, both: Feed, topics: seq<EventType>, db: Db, d1: Db, d2: Db, f: Fact)
    requires Merges(f1, f2, both) && SubsExtend(d1.subs, d2.subs) && d1.seeds == db.seeds && db.facts <= d1.facts
    ensures Added(env, f1, topics, |topics|, d1.subs, db, f) ==> Added(env, both, topics, |topics|, d2.subs, db, f)
    ensures Added(env, f2, topics, |topics|, d2.subs, d1, f) ==> Added(env, both, topics, |topics|, d2.subs, db, f)
  {
    hide FactOf, Joins;
    if Added(env, f1, topics, |topics|, d1.subs, db, f) {
      var i, e := AddedBy(env, f1, topics, |topics|, d1.subs, db, f);
      assert e in both.good(topics[i]) && Yields(env, db, d2.subs, e, f);
    }
    if Added(env, f2, topics, |topics|, d2.subs, d1, f) {
      var i, e := AddedBy(env, f2, topics, |topics|, d2.subs, d1, f);
      assert Keys(db.facts) <= Keys(d1.facts);
      assert e in both.good(topics[i]) && Yields(env, db, d2.subs, e, f);
    }
  }

  /** An event of the second batch whose row is not there yet is added by it. */
  lemma SecondDelivers(env: Env, f1: Feed, f2: Feed, both: Feed, topics: seq<EventType>, db: Db, d1: Db, d2: Db,
      t: EventType, e: Event, f: Fact)
    requires GoodOrder(topics) && Merges(f1, f2, both) && Sound(env, both) && d1.seeds == db.seeds
    requires forall g :: g in d1.facts ==> g in db.facts || Added(env, f1, topics, |topics|, d1.subs, db, g)
    requires IsFactTopic(t) && e in f2.good(t) && Yields(env, db, d2.subs, e, f)
    ensures f in d1.facts || Added(env, f2, topics, |topics|, d2.subs, d1, f)
  {
    hide FactOf, Joins, Sound;
    assert Visited(topics, t);
    if Key(f) in Keys(d1.facts) {
      var g :| g in d1.facts && Key(g) == Key(f);
      var i, a := AddedBy(env, f1, topics, |topics|, d1.subs, db, g);
      SameFactSameEvent(env, both, topics[i], a, t, e);
    } else {
      assert Yields(env, d1, d2.subs, e, f);
    }
  }

  /** An event of the first batch is added by it, unless its subscriber comes later. */
  lemma FirstDelivers(env: Env, f1: Feed, f2: Feed, topics: seq<EventType>, db: Db, d1: Db, subs2: SubTable,
      t: EventType, e: Event, f: Fact)
    requires GoodOrder(topics) && IsFactTopic(t) && e in f1.good(t) && e !in f2.good(t) && Yields(env, db, subs2, e, f)
    ensures Added(env, f1, topics, |topics|, d1.subs, db, f) || HasOrphan(env, f1, f2, db, d1.subs, subs2, f)
  {
    hide FactOf, Joins;
    assert Visited(topics, t);
    if SubscriberOf(e) in d1.subs {
      assert Yields(env, db, d1.subs, e, f);
    } else {
      assert Orphaned(env, f1, f2, db, d1.subs, subs2, t, e, f);
    }
  }

  lemma OrphanIsMissing(env: Env, f1: Feed, f2: Feed, both: Feed, topics: seq<EventType>, db: Db, d1: Db, d2: Db,
      t: EventType, e: Event, f: Fact)
    requires GoodOrder(topics) && Merges(f1, f2, both) && Sound(env, both)
    requires Orphaned(env, f1, f2, db, d1.subs, d2.subs, t, e, f)
    ensures Added(env, both, topics, |topics|, d2.subs, db, f) && f !in db.facts
    ensures !Added(env, f1, topics, |topics|, d1.subs, db, f) && !Added(env, f2, topics, |topics|, d2.subs, d1, f)
  {
    hide FactOf, Joins, Sound;
    assert Visited(topics, t) && e in both.good(t);
    if Added(env, f1, topics, |topics|, d1.subs, db, f) {
      var i, a := AddedBy(env, f1, topics, |topics|, d1.subs, db, f);
      SameFactSameEvent(env, both, topics[i], a, t, e);
    }
    if Added(env, f2, topics, |topics|, d2.subs, d1, f) {
      var i, a := AddedBy(env, f2, topics, |topics|, d2.subs, d1, f);
      SameFactSameEvent(env, both, topics[i], a, t, e);
    }
  }

  // ----- the same facts give the same rollups, in whatever order they were inserted -----

  lemma TallyConcat(subs: SubTable, a: seq<Fact>, b: seq<Fact>, key: AggKey)
    ensures var x, y, z := Tally(FactItems(subs, a), key), Tally(FactItems(subs, b), key), Tally(FactItems(subs, a + b), key);
      z.count == x.count + y.count && z.total == x.total + y.total && z.marked == x.marked + y.marked
  {
    ItemsAppend(subs, a, b);
    TallyAppend(FactItems(subs, a), FactItems(subs, b), key);
  }

  lemma WithoutOne<T>(s: seq<T>, j: nat)
    requires j < |s|
    ensures multiset(s) == multiset(s[..j] + s[j + 1..]) + multiset{s[j]}
  {
    assert s == s[..j] + [s[j]] + s[j + 1..];
  }

  lemma TakeFrom<T>(s: multiset<T>, t: multiset<T>, u: multiset<T>, x: T)
    requires s == t + multiset{x} && s == u + multiset{x}
    ensures t == u
  {
    assert t == s - multiset{x} == u;
  }

  /** Taking an element out of both of two rearrangements leaves rearrangements. */
  lemma TakeOut<T>(a: seq<T>, b: seq<T>) returns (j: nat)
    requires a != [] && multiset(a) == multiset(b)
    ensures j < |b| && b[j] == a[|a| - 1] && multiset(b[..j] + b[j + 1..]) == multiset(a[..|a| - 1])
  {
    var n := |a| - 1;
    assert a[n] in multiset(b);
    j :| 0 <= j < |b| && b[j] == a[n];
    WithoutOne(b, j);
    WithoutOne(a, n);
    assert a[..n] + a[n + 1..] == a[..n];
    TakeFrom(multiset(a), multiset(a[..n]), multiset(b[..j] + b[j + 1..]), a[n]);
  }

  lemma TallyWithout(subs: SubTable, b: seq<Fact>, j: nat, key: AggKey)
    requires j < |b|
    ensures var x, y := Tally(FactItems(subs, b[..j] + b[j + 1..]), key), Tally(FactItems(subs, [b[j]]), key);
      var z := Tally(FactItems(subs, b), key);
      z.count == x.count + y.count && z.total == x.total + y.total && z.marked == x.marked + y.marked
  {
    hide FactItems, Tally;
    assert b == b[..j] + [b[j]] + b[j + 1..];
    TallyConcat(subs, b[..j], b[j + 1..], key);
    TallyConcat(subs, b[..j], [b[j]], key);
    TallyConcat(subs, b[..j] + [b[j]], b[j + 1..], key);
  }

  lemma {:induction false} TallyOrderless(subs: SubTable, a: seq<Fact>, b: seq<Fact>, key: AggKey)
    requires multiset(a) == multiset(b)
    ensures Tally(FactItems(subs, a), key) == Tally(FactItems(subs, b), key)
  {
    hide FactItems, Tally;
    if a == [] {
      assert |multiset(b)| == 0;
      assert a == b;
    } else {
      var n := |a| - 1;
      var j := TakeOut(a, b);
      TallyOrderless(subs, a[..n], b[..j] + b[j + 1..], key);
      assert a == a[..n] + [a[n]];
      TallyConcat(subs, a[..n], [a[n]], key);
      TallyWithout(subs, b, j, key);
    }
  }

  lemma {:induction false} DistinctOnce(facts: seq<Fact>, f: Fact)
    requires DistinctKeys(facts)
    ensures multiset(facts)[f] == if f in facts then 1 else 0
  {
    if facts != [] {
      var n := |facts| - 1;
      DistinctOnce(facts[..n], f);
      assert facts == facts[..n] + [facts[n]];
      assert forall i :: 0 <= i < n ==> facts[i] != facts[n];
    }
  }

  lemma SameRollups(a: Db, b: Db)
    requires WellFormed(a) && WellFormed(b) && RollupsExact(a) && RollupsExact(b)
    requires a.subs == b.subs && a.dlq == b.dlq && forall f :: f in a.facts <==> f in b.facts
    ensures a.agg == b.agg
  {
    forall f: Fact ensures multiset(a.facts)[f] == multiset(b.facts)[f] {
      DistinctOnce(a.facts, f);
      DistinctOnce(b.facts, f);
    }
    assert multiset(a.facts) == multiset(b.facts);
    forall key ensures Lookup(a.agg, key) == Lookup(b.agg, key) {
      TallyOrderless(a.subs, a.facts, b.facts, key);
      assert Lookup(a.agg, key) == View(Source(a, TableOf(key.group)), key);
      assert Lookup(b.agg, key) == View(Source(b, TableOf(key.group)), key);
    }
    SameLookups(a.agg, b.agg);
  }

  /** When two adjacent batches and their merger load, the merger leaves the same
      subscribers and tower state and at least the same facts; facts and rollups are the
      same exactly when no event of the first batch waits for a subscriber of the second. */
  lemma MergedTables(env: Env, f1: Feed, f2: Feed, both: Feed, topics: seq<EventType>, db: Db, w1: Work, w2: Work,
      w: Work)
    requires Distinct(topics) && GoodOrder(topics) && Merges(f1, f2, both) && Sound(env, both)
    requires WellFormed(db) && RollupsExact(db) && WholeFeed(both)
    requires LoadFrom(env, f1, topics, db) == Some(w1) && LoadFrom(env, f2, topics, w1.db) == Some(w2)
    requires LoadFrom(env, both, topics, db) == Some(w)
    ensures w.db.subs == w2.db.subs && w.db.towers == w2.db.towers
    ensures forall f :: f in w2.db.facts ==> f in w.db.facts
    ensures (forall f :: f in w.db.facts <==> f in w2.db.facts)
       <==> forall f :: !HasOrphan(env, f1, f2, db, w1.db.subs, w2.db.subs, f)
    ensures (forall f :: !HasOrphan(env, f1, f2, db, w1.db.subs, w2.db.subs, f)) ==> w.db.agg == w2.db.agg
  {
    hide LoadTo, Sound, HasOrphan, Finish;
    var d1, d2, d := w1.db, w2.db, w.db;
    assert TwoWays(env, f1, f2, both, topics, db, d1, d2, d) by {
      LoadedTables(env, f1, topics, db);
      LoadedTables(env, f2, topics, d1);
      LoadedTables(env, both, topics, db);
    }
    MergedDimensions(env, f1, f2, both, topics, db, d1, d2, d);
    forall f
      ensures f in d2.facts ==> f in d.facts
      ensures f in d.facts && f !in d2.facts <==> HasOrphan(env, f1, f2, db, d1.subs, d2.subs, f)
    {
      MergedFacts(env, f1, f2, both, topics, db, d1, d2, d, f);
    }
    LoadKeepsExact(env, f1, topics, db);
    LoadKeepsExact(env, f2, topics, d1);
    LoadKeepsExact(env, both, topics, db);
    if forall f :: !HasOrphan(env, f1, f2, db, d1.subs, d2.subs, f) {
      SameRollups(d, d2);
    }
  }

  lemma LoadedTables(env: Env, feed: Feed, topics: seq<EventType>, db: Db)
    requires LoadFrom(env, feed, topics, db).Some?
    ensures LoadTo(env, feed, topics, |topics|, Work(db, [], [])).Some?
    ensures SameTables(LoadFrom(env, feed, topics, db).value.db, LoadTo(env, feed, topics, |topics|, Work(db, [], [])).value.db)
  {
    hide LoadTo, Finish;
    FinishOnlyRollups(LoadTo(env, feed, topics, |topics|, Work(db, [], [])).value);
  }

  lemma LoadKeepsExact(env: Env, feed: Feed, topics: seq<EventType>, db: Db)
    requires SubscribersFirst(topics) && WellFormed(db) && RollupsExact(db) && WholeFeed(feed)
    requires LoadFrom(env, feed, topics, db).Some?
    ensures var d := LoadFrom(env, feed, topics, db).value.db; WellFormed(d) && RollupsExact(d) && d.dlq == db.dlq
  {
    hide LoadTo, Finish;
    WholeLoad(env, feed, topics, |topics|, Work(db, [], []));
    LoadEffect(env, feed, topics, db);
  }
}
