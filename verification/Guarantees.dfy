/** What every schedule keeps under any clock: nothing is lost, facts never run ahead
    of the lake, and the lake holds nothing else once all batches are checkpointed. */
module Guarantees {
  import opened Base
  import opened Schemas
  import opened Events
  import opened Warehouse
  import opened Batches
  import opened Replay
  import opened Records
  import opened Processor
  import opened Protocol
  import opened Provenance

  // ----- acceptance over time -----

  /** The record was accepted as this event at a time no later than `hi`. */
  ghost predicate AcceptedBy(judge: Judging, t: EventType, raw: string, e: Event, hi: int) {
    exists now :: now <= hi && judge(t, raw, now) == Accept(e)
  }

  ghost predicate FromRow(judge: Judging, batch: Batch, t: EventType, e: Event, hi: int) {
    exists raw :: Row(t, raw) in batch && AcceptedBy(judge, t, raw, e, hi)
  }

  ghost predicate Carries(records: seq<DlqRecord>, row: Row) {
    exists r :: r in records && r.topic == TopicName(row.topic) && r.payload == row.raw
  }

  /** The record is in place in the warehouse, reported with an unknown subscriber, or
      rejected with a dead letter that carries it. */
  ghost predicate Covered(p: Plan, db: Db, records: seq<DlqRecord>, row: Row, hi: int) {
    || Carries(records, row)
    || exists e :: AcceptedBy(p.judge, row.topic, row.raw, e, hi) && Resolved(p.env, db, records, row.topic, e)
  }

  /** Events of a batch that share topic and identifier are the same event. */
  ghost predicate NamesUnique(p: Plan) {
    forall i, t, a: Event, b: Event, ha, hb ::
      0 <= i < |p.batches| && FromRow(p.judge, p.batches[i], t, a, ha) && FromRow(p.judge, p.batches[i], t, b, hb) ==>
        (a.id == b.id ==> a == b)
  }

  lemma FromRowIsVouched(p: Plan, batch: Batch, t: EventType, e: Event, hi: int)
    requires Genuine(p.env, p.judge) && FromRow(p.judge, batch, t, e, hi)
    ensures Vouched(p.env, t, hi, e)
  {
    var raw :| Row(t, raw) in batch && AcceptedBy(p.judge, t, raw, e, hi);
    var now :| now <= hi && p.judge(t, raw, now) == Accept(e);
    AcceptedIsVouched(p.env, p.judge, t, raw, now);
  }

  lemma FromRowLater(judge: Judging, batch: Batch, t: EventType, e: Event, hi: int, later: int)
    requires FromRow(judge, batch, t, e, hi) && hi <= later
    ensures FromRow(judge, batch, t, e, later)
  {
    var raw :| Row(t, raw) in batch && AcceptedBy(judge, t, raw, e, hi);
    var now :| now <= hi && judge(t, raw, now) == Accept(e);
    assert AcceptedBy(judge, t, raw, e, later);
  }

  lemma CoveredGrows(p: Plan, a: Db, b: Db, ra: seq<DlqRecord>, rb: seq<DlqRecord>, row: Row, hi: int, later: int)
    requires Covered(p, a, ra, row, hi) && Grows(a, b) && hi <= later && forall r :: r in ra ==> r in rb
    ensures Covered(p, b, rb, row, later)
  {
    if !Carries(ra, row) {
      var e :| AcceptedBy(p.judge, row.topic, row.raw, e, hi) && Resolved(p.env, a, ra, row.topic, e);
      ResolvedGrows(p.env, a, b, ra, rb, row.topic, e);
      assert AcceptedBy(p.judge, row.topic, row.raw, e, later);
    }
  }

  // ----- what a feed inherits from its batch -----

  ghost predicate FeedFits(p: Plan, batch: Batch, feed: Feed, hi: int) {
    && (forall t, e :: e in feed.good(t) ==> FromRow(p.judge, batch, t, e, hi))
    && (forall row :: row in batch ==> Served(p, feed, row, hi))
  }

  ghost predicate Served(p: Plan, feed: Feed, row: Row, hi: int) {
    || Carries(feed.bad(row.topic), row)
    || exists e :: e in feed.good(row.topic) && AcceptedBy(p.judge, row.topic, row.raw, e, hi)
  }

  lemma FeedOfFits(p: Plan, batch: Batch, clock: Clock, lo: int, hi: int)
    requires InTime(clock, lo, hi)
    ensures FeedFits(p, batch, FeedOf(p.env, p.judge, batch, clock), hi)
  {
    var feed := FeedOf(p.env, p.judge, batch, clock);
    forall t, e | e in feed.good(t) ensures FromRow(p.judge, batch, t, e, hi) {
      GoodHasRow(p.env, p.judge, batch, clock, lo, hi, t, e);
      var raw :| Row(t, raw) in batch && Within(p.judge, t, raw, e, lo, hi);
      assert AcceptedBy(p.judge, t, raw, e, hi);
    }
    forall row | row in batch ensures Served(p, feed, row, hi) {
      RowIsJudged(p.env, p.judge, batch, clock, lo, hi, row);
      if exists e :: e in feed.good(row.topic) && Within(p.judge, row.topic, row.raw, e, lo, hi) {
        var e :| e in feed.good(row.topic) && Within(p.judge, row.topic, row.raw, e, lo, hi);
        assert AcceptedBy(p.judge, row.topic, row.raw, e, hi);
      }
    }
  }

  lemma FeedNames(p: Plan, i: nat, feed: Feed, hi: int)
    requires NamesUnique(p) && i < |p.batches| && FeedFits(p, p.batches[i], feed, hi)
    ensures IdsNameEvents(feed)
  {
  }

  // ----- the invariant -----

  ghost predicate LakeOrigin(p: Plan, s: Sys, l: LakeRow) {
    exists i :: 0 <= i <= s.done && i < |p.batches| && FromRow(p.judge, p.batches[i], l.t, l.event, s.now)
  }

  ghost predicate UnderWay(p: Plan, s: Sys, l: LakeRow) {
    s.done < |p.batches| && FromRow(p.judge, p.batches[s.done], l.t, l.event, s.now)
  }

  /** Where rows come from: warehouse rows from the lake, lake rows from the batches. */
  ghost predicate DurableTraced(p: Plan, s: Sys) {
    && s.done <= |p.batches|
    && WellFormed(s.db) && s.db.seeds == p.seeds && Traced(p.env, s.db, s.lake)
    && forall l :: l in s.lake ==> LakeOrigin(p, s, l)
  }

  ghost predicate LoadingTraced(p: Plan, s: Sys, feed: Feed, next: nat, written: bool, work: Work) {
    && s.done < |p.batches| && next <= |p.topics|
    && FeedFits(p, p.batches[s.done], feed, s.now)
    && LoadTo(p.env, feed, p.topics, next, Work(s.db, [], [])) == Some(work)
    && Traced(p.env, work.db, s.lake)
    && (written ==> next < |p.topics| && InLake(s.lake, p.topics[next], Unique(feed, p.topics[next])))
  }

  ghost predicate Tracing(p: Plan, s: Sys) {
    && DurableTraced(p, s)
    && match s.phase
       case Idle => true
       case Loading(feed, next, written, work) => LoadingTraced(p, s, feed, next, written, work)
       case Publishing(_) => s.done < |p.batches|
  }

  /** Where records and lake rows end up: those of checkpointed batches are settled,
      those of the batch under way are settled or still to come. */
  ghost predicate Covering(p: Plan, s: Sys) {
    && s.done <= |p.batches|
    && (forall i, row :: 0 <= i < s.done && row in p.batches[i] ==> Covered(p, s.db, s.topic, row, s.now))
    && (forall l :: l in s.lake ==> Resolved(p.env, s.db, s.topic, l.t, l.event) || UnderWay(p, s, l))
    && match s.phase
       case Idle => true
       case Loading(feed, _, _, _) =>
         forall l :: l in s.lake ==> Resolved(p.env, s.db, s.topic, l.t, l.event) || l.event in feed.good(l.t)
       case Publishing(pending) =>
         && s.done < |p.batches|
         && (forall row :: row in p.batches[s.done] ==> Covered(p, s.db, s.topic + pending, row, s.now))
         && (forall l :: l in s.lake ==> Resolved(p.env, s.db, s.topic + pending, l.t, l.event))
  }

  ghost predicate Kept(p: Plan, s: Sys) { Tracing(p, s) && Covering(p, s) }

  // ----- tracing: what every step keeps without any assumption on identifiers -----

  lemma BeginTraces(p: Plan, s: Sys, clock: Clock, now: int)
    requires Tracing(p, s) && CanBegin(p, s, clock, now)
    ensures Tracing(p, Apply(p, s, Begin(clock, now)))
  {
    hide Traced, WellFormed;
    var s' := Apply(p, s, Begin(clock, now));
    assert s.now <= clock(SubscriberCreated, 0) <= now;
    FeedOfFits(p, p.batches[s.done], clock, s.now, now);
    forall l | l in s.lake ensures LakeOrigin(p, s', l) {
      var i :| 0 <= i <= s.done && i < |p.batches| && FromRow(p.judge, p.batches[i], l.t, l.event, s.now);
      FromRowLater(p.judge, p.batches[i], l.t, l.event, s.now, now);
    }
  }

  lemma RowsInLake(lake: seq<LakeRow>, t: EventType, events: seq<Event>)
    ensures InLake(lake + LakeRows(t, events), t, events)
    ensures forall l :: l in LakeRows(t, events) ==> l.t == t && l.event in events
  {
    var all := lake + LakeRows(t, events);
    forall e | e in events ensures LakeRow(t, e) in all {
      var i :| 0 <= i < |events| && events[i] == e;
      assert all[|lake| + i] == LakeRow(t, e);
    }
  }

  /** What the lake append of the topic under way does to the state. */
  lemma AppendTraces(p: Plan, s: Sys)
    requires Tracing(p, s) && s.phase.Loading?
    ensures Tracing(p, Apply(p, s, AppendLake))
  {
    hide Traced, WellFormed, LakeRows, AllFit;
    var s' := Apply(p, s, AppendLake);
    if s'.phase.Loading? && s'.phase.written != s.phase.written {
      var feed, t := s.phase.feed, p.topics[s.phase.next];
      var events := Unique(feed, t);
      TracedGrows(p.env, s.db, s.lake, LakeRows(t, events));
      TracedGrows(p.env, s.phase.work.db, s.lake, LakeRows(t, events));
      RowsInLake(s.lake, t, events);
      forall l | l in s'.lake ensures LakeOrigin(p, s', l) {
        if l in s.lake {
          assert LakeOrigin(p, s, l);
        } else {
          assert l.event in feed.good(t) && l.t == t;
          assert FromRow(p.judge, p.batches[s.done], l.t, l.event, s.now);
        }
      }
    }
  }

  /** Rows of the topic under way that reach the lake come from its batch. */
  lemma TearTraces(p: Plan, s: Sys, part: seq<Event>)
    requires Tracing(p, s) && CanTear(p, s, part)
    ensures Tracing(p, Apply(p, s, TearLake(part)))
  {
    hide Traced, WellFormed, LakeRows, FromRow, Dedupe;
    var s', t := Apply(p, s, TearLake(part)), p.topics[s.phase.next];
    TracedGrows(p.env, s.db, s.lake, LakeRows(t, part));
    RowsInLake(s.lake, t, part);
    forall l | l in s'.lake ensures LakeOrigin(p, s', l) {
      if l in s.lake {
        assert LakeOrigin(p, s, l);
      } else {
        assert l.event in s.phase.feed.good(t) && l.t == t;
        assert FromRow(p.judge, p.batches[s.done], l.t, l.event, s.now);
      }
    }
  }

  lemma TopicTraced(p: Plan, batch: Batch, feed: Feed, t: EventType, work: Work, lake: seq<LakeRow>, hi: int)
    requires Genuine(p.env, p.judge) && FeedFits(p, batch, feed, hi) && TopicWork(p.env, feed, t, work).Some?
    requires Traced(p.env, work.db, lake) && InLake(lake, t, Unique(feed, t))
    ensures Traced(p.env, TopicWork(p.env, feed, t, work).value.db, lake)
  {
    hide Sink, Traced;
    var events := Unique(feed, t);
    forall e | e in events ensures TypeOf(e.body) == t {
      FromRowIsVouched(p, batch, t, e, hi);
    }
    if events != [] {
      SinkTraced(p.env, t, work.db, events, lake);
    }
  }

  lemma StatementTraces(p: Plan, s: Sys)
    requires ValidPlan(p) && Tracing(p, s) && s.phase.Loading? && s.phase.written
    ensures Tracing(p, Apply(p, s, RunStatement))
  {
    hide TopicWork, Traced, WellFormed;
    var feed, next, work := s.phase.feed, s.phase.next, s.phase.work;
    if TopicWork(p.env, feed, p.topics[next], work).Some? {
      TopicTraced(p, p.batches[s.done], feed, p.topics[next], work, s.lake, s.now);
    }
  }

  lemma CommitGrows(p: Plan, s: Sys)
    requires Tracing(p, s) && s.phase.Loading? && s.phase.next == |p.topics| && Finish(s.phase.work).Some?
    ensures var db := Finish(s.phase.work).value;
      Grows(s.db, db) && WellFormed(db) && db.seeds == p.seeds && Traced(p.env, db, s.lake)
  {
    hide Finish;
    LoadEffectTo(p.env, s.phase.feed, p.topics, |p.topics|, Work(s.db, [], []));
    FinishOnlyRollups(s.phase.work);
  }

  lemma StepTraces(p: Plan, s: Sys, step: Step)
    requires ValidPlan(p) && Tracing(p, s)
    ensures Tracing(p, Apply(p, s, step))
  {
    hide Finish, Traced, WellFormed, LoadTo, TopicWork, FeedFits, FromRow;
    match step
    case Begin(clock, now) => if CanBegin(p, s, clock, now) { BeginTraces(p, s, clock, now); }
    case AppendLake => if s.phase.Loading? { AppendTraces(p, s); }
    case TearLake(part) => if CanTear(p, s, part) { TearTraces(p, s, part); }
    case RunStatement => if s.phase.Loading? && s.phase.written { StatementTraces(p, s); }
    case Commit =>
      if s.phase.Loading? && s.phase.next == |p.topics| && Finish(s.phase.work).Some? { CommitGrows(p, s); }
    case Deliver(i, again) =>
    case Checkpoint => if s.phase == Publishing([]) { CheckpointTraces(p, s); }
    case Crash =>
  }

  lemma CheckpointTraces(p: Plan, s: Sys)
    requires Tracing(p, s) && s.phase == Publishing([])
    ensures Tracing(p, Apply(p, s, Checkpoint))
  {
    hide Traced, WellFormed, FromRow;
    var s' := Apply(p, s, Checkpoint);
    forall l | l in s.lake ensures LakeOrigin(p, s', l) {
      assert LakeOrigin(p, s, l);
    }
  }

  // ----- covering -----

  lemma BeginCovers(p: Plan, s: Sys, clock: Clock, now: int)
    requires ValidPlan(p) && Kept(p, s) && CanBegin(p, s, clock, now)
    ensures Covering(p, Apply(p, s, Begin(clock, now)))
  {
    hide Traced, WellFormed, Resolved, Covered;
    var s' := Apply(p, s, Begin(clock, now));
    var batch := p.batches[s.done];
    var feed := FeedOf(p.env, p.judge, batch, clock);
    assert s.now <= clock(SubscriberCreated, 0) <= now;
    forall i, row | 0 <= i < s.done && row in p.batches[i] ensures Covered(p, s.db, s.topic, row, now) {
      GrowsItself(s.db);
      CoveredGrows(p, s.db, s.db, s.topic, s.topic, row, s.now, now);
    }
    forall l | l in s.lake
      ensures Resolved(p.env, s.db, s.topic, l.t, l.event) || (UnderWay(p, s', l) && l.event in feed.good(l.t))
    {
      if !Resolved(p.env, s.db, s.topic, l.t, l.event) {
        FromRowLater(p.judge, batch, l.t, l.event, s.now, now);
        var raw :| Row(l.t, raw) in batch && AcceptedBy(p.judge, l.t, raw, l.event, s.now);
        var time :| time <= s.now && p.judge(l.t, raw, time) == Accept(l.event);
        AcceptedBeforeIsGood(p.env, p.judge, batch, clock, s.now, now, Row(l.t, raw), l.event, time);
      }
    }
  }

  lemma GrowsItself(db: Db)
    ensures Grows(db, db)
  {
  }

  lemma AppendCovers(p: Plan, s: Sys)
    requires Kept(p, s) && s.phase.Loading?
    ensures Covering(p, Apply(p, s, AppendLake))
  {
    hide Traced, WellFormed, Resolved, Covered, LakeRows, AllFit;
    var s' := Apply(p, s, AppendLake);
    if s'.phase.Loading? && s'.phase.written != s.phase.written {
      var feed, t := s.phase.feed, p.topics[s.phase.next];
      RowsInLake(s.lake, t, Unique(feed, t));
      forall l | l in s'.lake
        ensures Resolved(p.env, s.db, s.topic, l.t, l.event) || (UnderWay(p, s', l) && l.event in feed.good(l.t))
      {
        if l in s.lake && !Resolved(p.env, s.db, s.topic, l.t, l.event) {
          assert UnderWay(p, s, l) && l.event in feed.good(l.t);
        } else if l !in s.lake {
          assert l.event in feed.good(t) && l.t == t;
          assert FromRow(p.judge, p.batches[s.done], l.t, l.event, s.now);
        }
      }
    }
  }

  lemma TearCovers(p: Plan, s: Sys, part: seq<Event>)
    requires Kept(p, s) && CanTear(p, s, part)
    ensures Covering(p, Apply(p, s, TearLake(part)))
  {
    hide Traced, WellFormed, Resolved, Covered, LakeRows, FromRow, Dedupe;
    var s', t := Apply(p, s, TearLake(part)), p.topics[s.phase.next];
    RowsInLake(s.lake, t, part);
    forall l | l in s'.lake ensures Resolved(p.env, s.db, s.topic, l.t, l.event) || UnderWay(p, s', l) {
      if l in s.lake {
        assert Resolved(p.env, s.db, s.topic, l.t, l.event) || UnderWay(p, s, l);
      } else {
        assert l.event in s.phase.feed.good(t) && l.t == t;
        assert FromRow(p.judge, p.batches[s.done], l.t, l.event, s.now);
      }
    }
  }

  /** What a commit adds to the durable state. */
  lemma CommitResolves(p: Plan, s: Sys, t: EventType, e: Event)
    requires ValidPlan(p) && SeedsMatch(p.seeds) && NamesUnique(p) && Tracing(p, s)
    requires s.phase.Loading? && s.phase.next == |p.topics| && Finish(s.phase.work).Some?
    requires e in s.phase.feed.good(t)
    ensures Resolved(p.env, Finish(s.phase.work).value, s.phase.work.dlq, t, e)
  {
    hide Finish, Traced, WellFormed;
    var feed, w := s.phase.feed, s.phase.work;
    FromRowIsVouched(p, p.batches[s.done], t, e, s.now);
    AcceptedJoins(p.env, p.seeds, e);
    FeedNames(p, s.done, feed, s.now);
    assert Visited(p.topics, t);
    var i :| 0 <= i < |p.topics| && p.topics[i] == t;
    LoadResolves(p.env, feed, p.topics, s.db, i, e);
    FinishOnlyRollups(w);
    ResolvedGrows(p.env, w.db, Finish(w).value, w.dlq, w.dlq, t, e);
  }

  lemma CommitReports(p: Plan, s: Sys, t: EventType)
    requires ValidPlan(p) && Tracing(p, s) && s.phase.Loading? && s.phase.next == |p.topics|
    ensures forall r :: r in s.phase.feed.bad(t) ==> r in s.phase.work.dlq
  {
    hide Traced, WellFormed;
    TopicsReport(p.env, s.phase.feed, p.topics, |p.topics|, Work(s.db, [], []));
    assert Visited(p.topics, t);
    var i :| 0 <= i < |p.topics| && p.topics[i] == t;
    assert TopicReported(p.env, s.phase.feed, p.topics[i], s.phase.work);
  }

  lemma CommitCovers(p: Plan, s: Sys)
    requires ValidPlan(p) && SeedsMatch(p.seeds) && NamesUnique(p) && Kept(p, s)
    requires s.phase.Loading? && s.phase.next == |p.topics| && Finish(s.phase.work).Some?
    ensures Covering(p, Apply(p, s, Commit))
  {
    hide LoadTo, Finish, Resolved, Covered, Traced, WellFormed, FeedFits, Grows;
    var db, all := Finish(s.phase.work).value, s.topic + s.phase.work.dlq;
    CommitGrows(p, s);
    forall i, row | 0 <= i < s.done && row in p.batches[i] ensures Covered(p, db, s.topic, row, s.now) {
      CoveredGrows(p, s.db, db, s.topic, s.topic, row, s.now, s.now);
    }
    forall row | row in p.batches[s.done] ensures Covered(p, db, all, row, s.now) {
      CommitCoversRow(p, s, row);
    }
    forall l | l in s.lake
      ensures Resolved(p.env, db, all, l.t, l.event)
      ensures Resolved(p.env, db, s.topic, l.t, l.event) || UnderWay(p, s, l)
    {
      CommitServesLake(p, s, l);
    }
  }

  lemma CommitServesLake(p: Plan, s: Sys, l: LakeRow)
    requires ValidPlan(p) && SeedsMatch(p.seeds) && NamesUnique(p) && Kept(p, s) && l in s.lake
    requires s.phase.Loading? && s.phase.next == |p.topics| && Finish(s.phase.work).Some?
    ensures var db := Finish(s.phase.work).value;
      && Resolved(p.env, db, s.topic + s.phase.work.dlq, l.t, l.event)
      && (Resolved(p.env, db, s.topic, l.t, l.event) || UnderWay(p, s, l))
  {
    hide LoadTo, Finish, Resolved, Covered, Traced, WellFormed, FeedFits, Grows;
    var w := s.phase.work;
    var db, all := Finish(w).value, s.topic + w.dlq;
    CommitGrows(p, s);
    GrowsItself(db);
    if Resolved(p.env, s.db, s.topic, l.t, l.event) {
      ResolvedGrows(p.env, s.db, db, s.topic, s.topic, l.t, l.event);
      ResolvedGrows(p.env, db, db, s.topic, all, l.t, l.event);
    } else {
      CommitResolves(p, s, l.t, l.event);
      ResolvedGrows(p.env, db, db, w.dlq, all, l.t, l.event);
    }
  }

  lemma CommitCoversRow(p: Plan, s: Sys, row: Row)
    requires ValidPlan(p) && SeedsMatch(p.seeds) && NamesUnique(p) && Tracing(p, s)
    requires s.phase.Loading? && s.phase.next == |p.topics| && Finish(s.phase.work).Some?
    requires row in p.batches[s.done]
    ensures Covered(p, Finish(s.phase.work).value, s.topic + s.phase.work.dlq, row, s.now)
  {
    hide LoadTo, Finish, Traced, WellFormed, Resolved, Grows;
    var feed, w := s.phase.feed, s.phase.work;
    var all := s.topic + w.dlq;
    assert Served(p, feed, row, s.now);
    if Carries(feed.bad(row.topic), row) {
      CommitReports(p, s, row.topic);
      var r :| r in feed.bad(row.topic) && r.topic == TopicName(row.topic) && r.payload == row.raw;
      assert r in w.dlq && r in all;
    } else {
      var e :| e in feed.good(row.topic) && AcceptedBy(p.judge, row.topic, row.raw, e, s.now);
      CommitResolves(p, s, row.topic, e);
      GrowsItself(Finish(w).value);
      ResolvedGrows(p.env, Finish(w).value, Finish(w).value, w.dlq, all, row.topic, e);
    }
  }

  lemma DeliverCovers(p: Plan, s: Sys, i: nat, again: bool)
    requires Covering(p, s) && s.phase.Publishing? && i < |s.phase.pending|
    ensures Covering(p, Apply(p, s, Deliver(i, again)))
  {
    hide Resolved, Covered, Grows;
    var s', pending := Apply(p, s, Deliver(i, again)), s.phase.pending;
    var before, after := s.topic + pending, s'.topic + s'.phase.pending;
    GrowsItself(s.db);
    assert forall r :: r in s.topic ==> r in s'.topic;
    forall r | r in before ensures r in after {
      DeliverKeepsRecord(s.topic, pending, i, again, r);
    }
    forall k, row | 0 <= k < s.done && row in p.batches[k] ensures Covered(p, s.db, s'.topic, row, s.now) {
      CoveredGrows(p, s.db, s.db, s.topic, s'.topic, row, s.now, s.now);
    }
    forall row | row in p.batches[s.done] ensures Covered(p, s.db, after, row, s.now) {
      CoveredGrows(p, s.db, s.db, before, after, row, s.now, s.now);
    }
    forall l | l in s.lake
      ensures Resolved(p.env, s.db, after, l.t, l.event)
      ensures Resolved(p.env, s.db, s'.topic, l.t, l.event) || UnderWay(p, s, l)
    {
      ResolvedGrows(p.env, s.db, s.db, before, after, l.t, l.event);
      if Resolved(p.env, s.db, s.topic, l.t, l.event) {
        ResolvedGrows(p.env, s.db, s.db, s.topic, s'.topic, l.t, l.event);
      }
    }
  }

  lemma DeliverKeepsRecord(topic: seq<DlqRecord>, pending: seq<DlqRecord>, i: nat, again: bool, r: DlqRecord)
    requires i < |pending| && r in topic + pending
    ensures r in (topic + [pending[i]]) + if again then pending else pending[..i] + pending[i + 1..]
  {
    assert pending == pending[..i] + [pending[i]] + pending[i + 1..];
  }

  lemma CheckpointCovers(p: Plan, s: Sys)
    requires Covering(p, s) && s.phase == Publishing([])
    ensures Covering(p, Apply(p, s, Checkpoint))
  {
    hide Resolved, Covered;
    assert s.topic + [] == s.topic;
  }

  lemma StepKeeps(p: Plan, s: Sys, step: Step)
    requires ValidPlan(p) && SeedsMatch(p.seeds) && NamesUnique(p) && Kept(p, s)
    ensures Kept(p, Apply(p, s, step))
  {
    hide Finish, Tracing, Resolved, Covered, TopicWork, FromRow;
    StepTraces(p, s, step);
    match step
    case Begin(clock, now) => if CanBegin(p, s, clock, now) { BeginCovers(p, s, clock, now); }
    case AppendLake => if s.phase.Loading? { AppendCovers(p, s); }
    case TearLake(part) => if CanTear(p, s, part) { TearCovers(p, s, part); }
    case RunStatement =>
    case Commit =>
      if s.phase.Loading? && s.phase.next == |p.topics| && Finish(s.phase.work).Some? { CommitCovers(p, s); }
    case Deliver(i, again) => if s.phase.Publishing? && i < |s.phase.pending| { DeliverCovers(p, s, i, again); }
    case Checkpoint => if s.phase == Publishing([]) { CheckpointCovers(p, s); }
    case Crash =>
  }

  lemma {:induction false} ExecTraces(p: Plan, start: int, steps: seq<Step>)
    requires ValidPlan(p)
    ensures Tracing(p, Exec(p, start, steps))
  {
    hide Apply;
    if steps != [] {
      ExecTraces(p, start, steps[..|steps| - 1]);
      StepTraces(p, Exec(p, start, steps[..|steps| - 1]), steps[|steps| - 1]);
    }
  }

  lemma {:induction false} ExecKeeps(p: Plan, start: int, steps: seq<Step>)
    requires ValidPlan(p) && SeedsMatch(p.seeds) && NamesUnique(p)
    ensures Kept(p, Exec(p, start, steps))
  {
    hide Apply;
    if steps != [] {
      ExecKeeps(p, start, steps[..|steps| - 1]);
      StepKeeps(p, Exec(p, start, steps[..|steps| - 1]), steps[|steps| - 1]);
    }
  }

  lemma ReachableTraced(p: Plan, s: Sys)
    requires ValidPlan(p) && Reachable(p, s)
    ensures Tracing(p, s)
  {
    hide Exec, Tracing;
    var start, steps :| s == Exec(p, start, steps);
    ExecTraces(p, start, steps);
  }

  lemma ReachableKept(p: Plan, s: Sys)
    requires ValidPlan(p) && SeedsMatch(p.seeds) && NamesUnique(p) && Reachable(p, s)
    ensures Kept(p, s)
  {
    hide Exec, Kept;
    var start, steps :| s == Exec(p, start, steps);
    ExecKeeps(p, start, steps);
  }

  // ----- the guarantees -----

  /** Every record is accounted for, even where identifiers clash between batches. Under
      any schedule and any nondecreasing clock each raw record of every checkpointed
      batch is in the dead-letter topic, or was accepted as an event whose identifier,
      subscriber or tower is in the warehouse; it may be both, never neither. */
  lemma EveryRecordIsAccountedFor(p: Plan, s: Sys)
    requires ValidPlan(p) && SeedsMatch(p.seeds) && NamesUnique(p) && Reachable(p, s)
    ensures s.done <= |p.batches|
    ensures forall i, row :: 0 <= i < s.done && row in p.batches[i] ==> Covered(p, s.db, s.topic, row, s.now)
  {
    ReachableKept(p, s);
  }

  /** The identifiers agree as texts, or as UUIDs, whose spelling may differ. */
  predicate SameId(env: Env, a: Event, b: Event) {
    a.id == b.id || (env.uuid(a.id).Some? && env.uuid(a.id) == env.uuid(b.id))
  }

  /** Events of all batches that share topic and identifier are the same event. */
  ghost predicate EventsUnique(p: Plan) {
    forall i, j, t, a: Event, b: Event, ha, hb ::
      0 <= i < |p.batches| && 0 <= j < |p.batches| &&
      FromRow(p.judge, p.batches[i], t, a, ha) && FromRow(p.judge, p.batches[j], t, b, hb) ==>
        (SameId(p.env, a, b) ==> a == b)
  }

  lemma UniqueEventsAreNamed(p: Plan)
    requires EventsUnique(p)
    ensures NamesUnique(p)
  {
  }

  /** The event's own row: its fact, its subscriber, or a tower row at least as new. */
  ghost predicate HasRow(env: Env, db: Db, t: EventType, e: Event) {
    && InPlace(env, db, t, e)
    && (IsFactTopic(t) ==> FactOf(env, e).Some? && FactOf(env, e).value in db.facts)
  }

  /** Each fact is the row of an event accepted from a record of its topic. */
  lemma FactOrigin(p: Plan, s: Sys, f: Fact) returns (i: nat, e: Event)
    requires Tracing(p, s) && f in s.db.facts
    ensures i < |p.batches| && FromRow(p.judge, p.batches[i], FactTable(f.detail), e, s.now) && FactOf(p.env, e) == Some(f)
  {
    hide FactOf, Joins, FromRow, WellFormed;
    assert FactTraced(p.env, s.lake, s.db.seeds, f);
    var l :| l in s.lake && l.t == FactTable(f.detail) && FactOf(p.env, l.event) == Some(f) && Joins(s.db.seeds, l.event);
    e := l.event;
    i := LakeRowOrigin(p, s, l);
  }

  lemma KeyMeansOwnRow(p: Plan, s: Sys, i: nat, t: EventType, e: Event, hi: int)
    requires Genuine(p.env, p.judge) && Tracing(p, s) && EventsUnique(p)
    requires i < |p.batches| && FromRow(p.judge, p.batches[i], t, e, hi) && InPlace(p.env, s.db, t, e)
    ensures HasRow(p.env, s.db, t, e)
  {
    hide FactOf, FromRow, Vouched, Genuine, Tracing;
    if IsFactTopic(t) {
      var f := FactOf(p.env, e).value;
      var g :| g in s.db.facts && Key(g) == Key(f);
      var j, a := FactOrigin(p, s, g);
      FactIdentity(p.env, e);
      FactIdentity(p.env, a);
      FromRowIsVouched(p, p.batches[i], t, e, hi);
      VouchedType(p.env, t, hi, e);
      assert FactTable(g.detail) == t && SameId(p.env, e, a);
    }
  }

  lemma VouchedType(env: Env, t: EventType, now: int, e: Event)
    requires Vouched(env, t, now, e)
    ensures TypeOf(e.body) == t
  {
  }

  lemma FactIdentity(env: Env, e: Event)
    requires FactOf(env, e).Some?
    ensures env.uuid(e.id) == Some(FactOf(env, e).value.id) && FactTable(FactOf(env, e).value.detail) == TypeOf(e.body)
  {
  }

  /** Why the identifiers must name events: an accepted event whose key is taken by
      another row is inserted without an error and without a row of its own. */
  lemma ClashSwallowsRow(env: Env, db: Db, t: EventType, e: Event)
    requires IsFactTopic(t) && Joins(db.seeds, e) && FactOf(env, e).Some?
    requires Key(FactOf(env, e).value) in Keys(db.facts) && FactOf(env, e).value !in db.facts
    ensures InsertAll(env, db.seeds, db.facts, [e]) == Some(db.facts)
    ensures InPlace(env, db, t, e) && !HasRow(env, db, t, e)
  {
    hide FactOf, Joins;
    assert [e][..0] == [];
  }

  /** The record is carried by a dead letter, or was accepted as an event that has its
      own row or is reported with an unknown subscriber. */
  ghost predicate SettledRow(p: Plan, db: Db, records: seq<DlqRecord>, row: Row, hi: int) {
    || Carries(records, row)
    || exists e :: AcceptedBy(p.judge, row.topic, row.raw, e, hi) && OwnRowOrReport(p.env, db, records, row.topic, e)
  }

  ghost predicate OwnRowOrReport(env: Env, db: Db, records: seq<DlqRecord>, t: EventType, e: Event) {
    HasRow(env, db, t, e) || RefReported(env, records, t, e)
  }

  /** Nothing is lost. Under any schedule of crashes and any nondecreasing clock, every
      raw record of every checkpointed batch has its own fact row, its subscriber, or a
      tower row at least as new, or is in the dead-letter topic, provided identifiers
      name events. It may be in both, never in neither. */
  lemma NothingIsLost(p: Plan, s: Sys)
    requires ValidPlan(p) && SeedsMatch(p.seeds) && EventsUnique(p) && Reachable(p, s)
    ensures s.done <= |p.batches|
    ensures forall i, row :: 0 <= i < s.done && row in p.batches[i] ==> SettledRow(p, s.db, s.topic, row, s.now)
  {
    hide Tracing, Resolved, FromRow, EventsUnique, HasRow;
    UniqueEventsAreNamed(p);
    ReachableKept(p, s);
    forall i, row | 0 <= i < s.done && row in p.batches[i] ensures SettledRow(p, s.db, s.topic, row, s.now) {
      CoveredIsSettled(p, s, i, row);
    }
  }

  lemma CoveredIsSettled(p: Plan, s: Sys, i: nat, row: Row)
    requires Genuine(p.env, p.judge) && Tracing(p, s) && EventsUnique(p) && i < |p.batches| && row in p.batches[i]
    requires Covered(p, s.db, s.topic, row, s.now)
    ensures SettledRow(p, s.db, s.topic, row, s.now)
  {
    hide Tracing, EventsUnique, HasRow, AcceptedBy;
    if !Carries(s.topic, row) {
      var e :| AcceptedBy(p.judge, row.topic, row.raw, e, s.now) && Resolved(p.env, s.db, s.topic, row.topic, e);
      assert Row(row.topic, row.raw) in p.batches[i];
      if InPlace(p.env, s.db, row.topic, e) {
        KeyMeansOwnRow(p, s, i, row.topic, e, s.now);
      }
      assert OwnRowOrReport(p.env, s.db, s.topic, row.topic, e);
    }
  }

  /** Once every batch is checkpointed, every lake row has its own row in the warehouse
      or is reported with an unknown subscriber. */
  lemma EveryLakeRowIsSettled(p: Plan, s: Sys)
    requires ValidPlan(p) && SeedsMatch(p.seeds) && EventsUnique(p) && Reachable(p, s)
    requires s.done == |p.batches|
    ensures forall l :: l in s.lake ==> OwnRowOrReport(p.env, s.db, s.topic, l.t, l.event)
  {
    hide Tracing, EventsUnique, HasRow, FromRow;
    UniqueEventsAreNamed(p);
    LakeRowsAreResolved(p, s);
    ReachableTraced(p, s);
    forall l | l in s.lake ensures OwnRowOrReport(p.env, s.db, s.topic, l.t, l.event) {
      if InPlace(p.env, s.db, l.t, l.event) {
        var i := LakeRowOrigin(p, s, l);
        KeyMeansOwnRow(p, s, i, l.t, l.event, s.now);
      }
    }
  }

  lemma LakeRowOrigin(p: Plan, s: Sys, l: LakeRow) returns (i: nat)
    requires Tracing(p, s) && l in s.lake
    ensures i < |p.batches| && FromRow(p.judge, p.batches[i], l.t, l.event, s.now)
  {
    hide FromRow, Traced, WellFormed;
    assert LakeOrigin(p, s, l);
    i :| 0 <= i <= s.done && i < |p.batches| && FromRow(p.judge, p.batches[i], l.t, l.event, s.now);
  }

  /** The same with identifiers that may clash between batches: every lake row of a fact
      topic has its identifier in its table or is reported. */
  lemma LakeRowsAreResolved(p: Plan, s: Sys)
    requires ValidPlan(p) && SeedsMatch(p.seeds) && NamesUnique(p) && Reachable(p, s)
    requires s.done == |p.batches|
    ensures forall l :: l in s.lake ==> Resolved(p.env, s.db, s.topic, l.t, l.event)
  {
    hide Tracing, Resolved, FromRow, Covered;
    ReachableKept(p, s);
  }

  ghost predicate OnlyLoads(p: Plan, s: Sys) {
    && WellFormed(s.db)
    && match s.phase
       case Loading(feed, next, _, work) =>
         next <= |p.topics| && LoadTo(p.env, feed, p.topics, next, Work(s.db, [], [])) == Some(work)
       case _ => true
  }

  lemma StepOnlyLoads(p: Plan, s: Sys, step: Step)
    requires OnlyLoads(p, s)
    ensures OnlyLoads(p, Apply(p, s, step))
  {
    hide TopicWork, Finish;
    if step.Commit? && s.phase.Loading? && s.phase.next == |p.topics| && Finish(s.phase.work).Some? {
      LoadEffectTo(p.env, s.phase.feed, p.topics, |p.topics|, Work(s.db, [], []));
      FinishOnlyRollups(s.phase.work);
    }
  }

  lemma StepGrows(p: Plan, s: Sys, step: Step)
    requires OnlyLoads(p, s)
    ensures Grows(s.db, Apply(p, s, step).db)
  {
    hide TopicWork, Finish, Grows, WellFormed;
    GrowsItself(s.db);
    if step.Commit? && s.phase.Loading? && s.phase.next == |p.topics| && Finish(s.phase.work).Some? {
      LoadEffectTo(p.env, s.phase.feed, p.topics, |p.topics|, Work(s.db, [], []));
      FinishOnlyRollups(s.phase.work);
      RollupsAside(s.db, s.phase.work.db, Finish(s.phase.work).value);
    }
  }

  lemma RollupsAside(a: Db, b: Db, c: Db)
    requires Grows(a, b) && c == b.(agg := c.agg)
    ensures Grows(a, c)
  {
  }

  /** Over a run, of any plan, the warehouse only grows: no subscriber or fact row
      changes or disappears, and no tower moves back in time. */
  lemma {:induction false} RunsOnlyGrow(p: Plan, start: int, steps: seq<Step>, more: seq<Step>)
    ensures Grows(Exec(p, start, steps).db, Exec(p, start, steps + more).db)
  {
    hide Grows, Apply, OnlyLoads;
    if more == [] {
      assert steps + more == steps;
      GrowsItself(Exec(p, start, steps).db);
    } else {
      var init := more[..|more| - 1];
      RunsOnlyGrow(p, start, steps, init);
      assert (steps + more)[..|steps + more| - 1] == steps + init;
      ExecOnlyLoads(p, start, steps + init);
      StepGrows(p, Exec(p, start, steps + init), more[|more| - 1]);
      GrowsTransitive(Exec(p, start, steps).db, Exec(p, start, steps + init).db, Exec(p, start, steps + more).db);
    }
  }

  lemma {:induction false} ExecOnlyLoads(p: Plan, start: int, steps: seq<Step>)
    ensures OnlyLoads(p, Exec(p, start, steps))
  {
    hide Apply;
    if steps != [] {
      ExecOnlyLoads(p, start, steps[..|steps| - 1]);
      StepOnlyLoads(p, Exec(p, start, steps[..|steps| - 1]), steps[|steps| - 1]);
    }
  }

  /** Nothing is duplicated. Whatever the schedule, the clock and the events, even where
      identifiers clash, no fact table holds an identifier twice, every fact has its
      subscriber and its date, and no two subscribers share a number. */
  lemma NothingIsDuplicated(p: Plan, s: Sys)
    requires Reachable(p, s)
    ensures WellFormed(s.db)
  {
    hide Exec, WellFormed;
    var start, steps :| s == Exec(p, start, steps);
    ExecOnlyLoads(p, start, steps);
  }

  /** The fact keys of the lake's events, all of them or those reported as referring
      to an unknown subscriber. */
  ghost function LakeKeys(env: Env, lake: seq<LakeRow>): set<FactKey> {
    set l | l in lake && IsFactTopic(l.t) && FactOf(env, l.event).Some? :: Key(FactOf(env, l.event).value)
  }

  ghost function ReferentialKeys(env: Env, lake: seq<LakeRow>, topic: seq<DlqRecord>): set<FactKey> {
    set l | l in lake && FactOf(env, l.event).Some? && RefReported(env, topic, l.t, l.event) :: Key(FactOf(env, l.event).value)
  }

  /** The lake is written ahead: at every moment each committed fact is the row of an
      event that is in the lake. */
  lemma LakeIsWriteAhead(p: Plan, s: Sys)
    requires ValidPlan(p) && Reachable(p, s)
    ensures FactsFrom(p.env, s.lake, p.seeds, s.db.facts) && Keys(s.db.facts) <= LakeKeys(p.env, s.lake)
  {
    ReachableTraced(p, s);
    TracedKeys(p.env, s.db, s.lake);
  }

  lemma TracedKeys(env: Env, db: Db, lake: seq<LakeRow>)
    requires FactsFrom(env, lake, db.seeds, db.facts)
    ensures Keys(db.facts) <= LakeKeys(env, lake)
  {
    hide FactOf, Joins;
    forall f | f in db.facts ensures Key(f) in LakeKeys(env, lake) {
      assert FactTraced(env, lake, db.seeds, f);
      var l :| l in lake && l.t == FactTable(f.detail) && FactOf(env, l.event) == Some(f) && Joins(db.seeds, l.event);
      assert IsFactTopic(l.t);
    }
  }

  /** Once every batch is checkpointed, the lake de-duplicated on identifiers holds the
      facts and the events with unknown subscribers, and nothing else. */
  lemma LakeIsFactsPlusReferential(p: Plan, s: Sys)
    requires ValidPlan(p) && SeedsMatch(p.seeds) && NamesUnique(p) && Reachable(p, s)
    requires s.done == |p.batches|
    ensures LakeKeys(p.env, s.lake) == Keys(s.db.facts) + ReferentialKeys(p.env, s.lake, s.topic)
  {
    LakeRowsAreResolved(p, s);
    LakeIsWriteAhead(p, s);
    forall k | k in LakeKeys(p.env, s.lake) ensures k in Keys(s.db.facts) + ReferentialKeys(p.env, s.lake, s.topic) {
      var l :| l in s.lake && IsFactTopic(l.t) && FactOf(p.env, l.event).Some? && Key(FactOf(p.env, l.event).value) == k;
      assert Resolved(p.env, s.db, s.topic, l.t, l.event);
    }
  }
}
