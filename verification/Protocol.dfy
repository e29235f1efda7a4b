/** The events query as a machine of small steps over durable state (the warehouse,
    the lake, the dead-letter topic, the checkpoint) that can crash between any two
    of them, and what every schedule of steps keeps. */
module Protocol {
  import opened Base
  import opened Schemas
  import opened Events
  import opened Warehouse
  import opened Batches
  import opened Replay
  import opened Records
  import opened Processor

  /** The batches the query will see, the same ones on every replay, and for each a
      time before which it is not fetched. */
  datatype Plan = Plan(
    env: Env, judge: Judging, seeds: Seeds, topics: seq<EventType>, batches: seq<Batch>, since: seq<int>)

  /** Idle; inside a transaction, with the topics before `next` loaded and the lake
      append of topic `next` done or not; or committed, with dead letters to send. */
  datatype Phase =
    | Idle
    | Loading(feed: Feed, next: nat, written: bool, work: Work)
    | Publishing(pending: seq<DlqRecord>)

  /** `done` batches are checkpointed; no clock reading so far is later than `now`. */
  datatype Sys = Sys(done: nat, now: int, db: Db, lake: seq<LakeRow>, topic: seq<DlqRecord>, phase: Phase)

  datatype Step =
    | Begin(clock: Clock, now: int)
    | AppendLake
    | TearLake(part: seq<Event>)
    | RunStatement
    | Commit
    | Deliver(i: nat, again: bool)
    | Checkpoint
    | Crash

  ghost predicate CanBegin(p: Plan, s: Sys, clock: Clock, now: int) {
    && s.phase.Idle? && s.done < |p.batches| <= |p.since|
    && InTime(clock, s.now, now) && InTime(clock, p.since[s.done], now)
  }

  /** A crash in the middle of a lake append leaves some of the topic's events in it. */
  predicate CanTear(p: Plan, s: Sys, part: seq<Event>) {
    && s.phase.Loading? && !s.phase.written && s.phase.next < |p.topics|
    && forall e | e in part :: e in Unique(s.phase.feed, p.topics[s.phase.next])
  }

  /** One step; a step that is not enabled leaves the state alone. A statement that
      fails ends the attempt like a crash: the transaction is rolled back and the
      batch will be replayed. Sends are asynchronous: any pending record may arrive
      next, and may arrive again. */
  ghost function Apply(p: Plan, s: Sys, step: Step): Sys {
    match step
    case Begin(clock, now) =>
      if CanBegin(p, s, clock, now)
      then s.(now := now,
              phase := Loading(FeedOf(p.env, p.judge, p.batches[s.done], clock), 0, false, Work(s.db, [], [])))
      else s
    case AppendLake =>
      if s.phase.Loading? && !s.phase.written && s.phase.next < |p.topics| then
        var t := p.topics[s.phase.next];
        var events := Unique(s.phase.feed, t);
        if AllFit(events) then s.(lake := s.lake + LakeRows(t, events), phase := s.phase.(written := true))
        else s.(phase := Idle)
      else s
    case TearLake(part) =>
      if CanTear(p, s, part) then s.(lake := s.lake + LakeRows(p.topics[s.phase.next], part), phase := Idle) else s
    case RunStatement =>
      if s.phase.Loading? && s.phase.written && s.phase.next < |p.topics| then
        (match TopicWork(p.env, s.phase.feed, p.topics[s.phase.next], s.phase.work)
         case None => s.(phase := Idle)
         case Some(w) => s.(phase := s.phase.(next := s.phase.next + 1, written := false, work := w)))
      else s
    case Commit =>
      if s.phase.Loading? && s.phase.next == |p.topics| then
        (match Finish(s.phase.work)
         case None => s.(phase := Idle)
         case Some(db) => s.(db := db, phase := Publishing(s.phase.work.dlq)))
      else s
    case Deliver(i, again) =>
      if s.phase.Publishing? && i < |s.phase.pending| then
        var rest := if again then s.phase.pending else s.phase.pending[..i] + s.phase.pending[i + 1..];
        s.(topic := s.topic + [s.phase.pending[i]], phase := Publishing(rest))
      else s
    case Checkpoint =>
      if s.phase == Publishing([]) then s.(done := s.done + 1, phase := Idle) else s
    case Crash => s.(phase := Idle)
  }

  function Init(p: Plan, start: int): Sys { Sys(0, start, EmptyDb(p.seeds), [], [], Idle) }

  /** The state after a schedule of steps. */
  ghost function Exec(p: Plan, start: int, steps: seq<Step>): Sys {
    if steps == [] then Init(p, start)
    else Apply(p, Exec(p, start, steps[..|steps| - 1]), steps[|steps| - 1])
  }

  /** Some schedule of steps, from some first clock reading, leads to the state. */
  ghost predicate Reachable(p: Plan, s: Sys) {
    exists start, steps :: s == Exec(p, start, steps)
  }

  lemma StepReaches(p: Plan, s: Sys, step: Step)
    requires Reachable(p, s)
    ensures Reachable(p, Apply(p, s, step))
  {
    hide Apply;
    var start, steps :| s == Exec(p, start, steps);
    assert (steps + [step])[..|steps|] == steps;
    assert Exec(p, start, steps + [step]) == Apply(p, s, step);
  }

  /** What may go wrong is among the schedules. From a reachable state, a crash of whatever
      is under way; a lake append that leaves any of its events behind; a dead letter that
      arrives before those sent earlier, and one that arrives a second time. */
  lemma FailuresAreReachable(p: Plan, s: Sys, part: seq<Event>, i: nat)
    requires Reachable(p, s)
    ensures Reachable(p, s.(phase := Idle))
    ensures s.phase.Loading? && !s.phase.written && s.phase.next < |p.topics|
            && (forall e :: e in part ==> e in Unique(s.phase.feed, p.topics[s.phase.next])) ==>
              Reachable(p, s.(lake := s.lake + LakeRows(p.topics[s.phase.next], part), phase := Idle))
    ensures s.phase.Publishing? && i < |s.phase.pending| ==>
      var sent := s.(topic := s.topic + [s.phase.pending[i]]);
      && Reachable(p, sent)
      && Reachable(p, sent.(phase := Publishing(s.phase.pending[..i] + s.phase.pending[i + 1..])))
  {
    hide Reachable;
    StepReaches(p, s, Crash);
    StepReaches(p, s, TearLake(part));
    StepReaches(p, s, Deliver(i, true));
    StepReaches(p, s, Deliver(i, false));
  }

  // ----- assumptions a theorem may name -----

  ghost predicate Visited(topics: seq<EventType>, t: EventType) {
    exists i :: 0 <= i < |topics| && topics[i] == t
  }

  /** Subscribers come first and every topic is visited. */
  ghost predicate GoodOrder(topics: seq<EventType>) {
    SubscribersFirst(topics) && forall t: EventType :: Visited(topics, t)
  }

  /** No topic is visited twice. */
  predicate Distinct(topics: seq<EventType>) {
    forall i, j | 0 <= i < j < |topics| :: topics[i] != topics[j]
  }

  ghost predicate ValidPlan(p: Plan) {
    Genuine(p.env, p.judge) && GoodOrder(p.topics) && |p.since| == |p.batches|
  }

  /** The record, if it can ever be accepted, gives its offset in whole minutes. */
  predicate WholeMinuteRow(env: Env, row: Row) {
    var c := Candidate(env, row.topic, row.raw);
    c.Some? ==> c.value.ts.offset % MINUTE == 0
  }

  ghost predicate WholeBatch(env: Env, batch: Batch) {
    forall row :: row in batch ==> WholeMinuteRow(env, row)
  }

  /** The records of the plan write their offsets in whole minutes (RFC 3339, section 5.6). */
  ghost predicate WholePlan(p: Plan) {
    forall i :: 0 <= i < |p.batches| ==> WholeBatch(p.env, p.batches[i])
  }

  /** Verdicts on a batch do not change from its first fetch on. */
  ghost predicate StablePlan(p: Plan) {
    forall i :: 0 <= i < |p.batches| && i < |p.since| ==> StableFrom(p.judge, p.batches[i], p.since[i])
  }

  // ----- the crash-free reference -----

  /** The warehouse after the first n batches, each processed once without a crash,
      and the dead-letter identifiers published; None if a batch cannot be loaded. */
  datatype Ref = Ref(db: Db, ids: set<string>)

  function SteadyClock(time: int): Clock { (t: EventType, n: nat) => time }

  function RefFeed(p: Plan, i: nat): Feed
    requires i < |p.batches| && i < |p.since|
  {
    FeedOf(p.env, p.judge, p.batches[i], SteadyClock(p.since[i]))
  }

  function CrashFree(p: Plan, n: nat): Option<Ref>
    requires n <= |p.batches| == |p.since|
  {
    if n == 0 then Some(Ref(EmptyDb(p.seeds), {}))
    else
      match CrashFree(p, n - 1)
      case None => None
      case Some(r) =>
        match LoadFrom(p.env, RefFeed(p, n - 1), p.topics, r.db)
        case None => None
        case Some(w) => Some(Ref(w.db, r.ids + DlqIds(w.dlq)))
  }

  /** A crash-free run that loads n batches has loaded every shorter run of them. */
  lemma {:induction false} CrashFreeBefore(p: Plan, k: nat, n: nat)
    requires k <= n <= |p.batches| == |p.since| && CrashFree(p, n).Some?
    ensures CrashFree(p, k).Some?
    decreases n
  {
    hide LoadFrom, RefFeed;
    if k < n {
      CrashFreeBefore(p, k, n - 1);
    }
  }

  /** The code's topic order is a good one. */
  lemma TopicOrderIsGood()
    ensures GoodOrder(TOPIC_ORDER) && Distinct(TOPIC_ORDER)
  {
    var o := TOPIC_ORDER;
    assert o[0] == SubscriberCreated && o[1] == AirtimePurchase && o[2] == BundlePurchase && o[3] == VoiceCall;
    assert o[4] == Sms && o[5] == DataUsage && o[6] == TowerStatus;
    forall t: EventType ensures Visited(o, t) {
      match t
      case SubscriberCreated => assert t == o[0];
      case AirtimePurchase => assert t == o[1];
      case BundlePurchase => assert t == o[2];
      case VoiceCall => assert t == o[3];
      case Sms => assert t == o[4];
      case DataUsage => assert t == o[5];
      case TowerStatus => assert t == o[6];
    }
  }

  ghost predicate WholeFeed(feed: Feed) {
    forall t, e :: e in feed.good(t) ==> e.ts.offset % MINUTE == 0
  }

  /** Accepted events carry whole-minute offsets when their records do. */
  lemma FeedIsWhole(p: Plan, batch: Batch, clock: Clock, lo: int, hi: int)
    requires Genuine(p.env, p.judge) && WholeBatch(p.env, batch) && InTime(clock, lo, hi)
    ensures WholeFeed(FeedOf(p.env, p.judge, batch, clock))
  {
    hide Genuine, Candidate, FeedOf;
    forall t, e | e in FeedOf(p.env, p.judge, batch, clock).good(t) ensures e.ts.offset % MINUTE == 0 {
      GoodHasRow(p.env, p.judge, batch, clock, lo, hi, t, e);
      var raw :| Row(t, raw) in batch && Within(p.judge, t, raw, e, lo, hi);
      var now :| lo <= now <= hi && p.judge(t, raw, now) == Accept(e);
      AcceptedIsCandidate(p.env, p.judge, t, raw, now);
      assert WholeMinuteRow(p.env, Row(t, raw));
    }
  }

  lemma {:induction false} RemainingInside(events: seq<Event>, unknown: seq<Event>)
    ensures forall e :: e in Remaining(events, unknown) ==> e in events
  {
    if events != [] {
      RemainingInside(events[..|events| - 1], unknown);
    }
  }

  lemma WholeTopic(env: Env, feed: Feed, t: EventType, w: Work)
    requires TopicWork(env, feed, t, w).Some? && WholeFeed(feed) && WholeMinutes(w.stamps)
    ensures WholeMinutes(TopicWork(env, feed, t, w).value.stamps)
  {
    hide Sink;
    var events := Unique(feed, t);
    if events != [] {
      var unknown := Sink(env, t, w.db, events).value.unknown;
      RemainingInside(events, unknown);
      var rest := Remaining(events, unknown);
      forall j | 0 <= j < |rest| ensures Stamps(rest)[j].offset % MINUTE == 0 {
        assert rest[j] in events && rest[j] in feed.good(t);
      }
    }
  }

  lemma {:induction false} WholeLoad(env: Env, feed: Feed, topics: seq<EventType>, k: nat, w: Work)
    requires k <= |topics| && LoadTo(env, feed, topics, k, w).Some?
    requires WholeFeed(feed) && WholeMinutes(w.stamps)
    ensures WholeMinutes(LoadTo(env, feed, topics, k, w).value.stamps)
    decreases k
  {
    hide TopicWork;
    if k > 0 {
      WholeLoad(env, feed, topics, k - 1, w);
      WholeTopic(env, feed, topics[k - 1], LoadTo(env, feed, topics, k - 1, w).value);
    }
  }

  /** The reference stays well formed and exact. */
  lemma {:induction false} CrashFreeIsExact(p: Plan, n: nat)
    requires ValidPlan(p) && WholePlan(p) && n <= |p.batches| && CrashFree(p, n).Some?
    ensures WellFormed(CrashFree(p, n).value.db) && RollupsExact(CrashFree(p, n).value.db)
  {
    hide LoadTo, Finish, WellFormed, RollupsExact, FeedOf;
    if n == 0 {
      EmptyIsExact(p.seeds);
    } else {
      CrashFreeIsExact(p, n - 1);
      var r, feed := CrashFree(p, n - 1).value, RefFeed(p, n - 1);
      FeedIsWhole(p, p.batches[n - 1], SteadyClock(p.since[n - 1]), p.since[n - 1], p.since[n - 1]);
      WholeLoad(p.env, feed, p.topics, |p.topics|, Work(r.db, [], []));
      LoadEffect(p.env, feed, p.topics, r.db);
    }
  }

  lemma EmptyIsExact(seeds: Seeds)
    ensures WellFormed(EmptyDb(seeds)) && RollupsExact(EmptyDb(seeds))
  {
  }

  // ----- crash refinement -----

  ghost predicate AtRef(p: Plan, n: nat, db: Db) {
    n <= |p.batches| == |p.since| && CrashFree(p, n).Some? && db == CrashFree(p, n).value.db
  }

  /** The reference after the batch under way, if that batch can be loaded. */
  function NextRef(p: Plan, done: nat): Option<Ref>
    requires done <= |p.batches| == |p.since|
  {
    if done < |p.batches| then CrashFree(p, done + 1) else None
  }

  /** The machine agrees with `r`, the reference before the batch under way, or in
      part already with `next`, the one after it. */
  ghost predicate RefinesAt(p: Plan, s: Sys, r: Ref, next: Option<Ref>) {
    && s.done <= |p.batches| == |p.since|
    && (s.db == r.db || (next.Some? && s.db == next.value.db))
    && r.ids <= DlqIds(s.topic) <= (if next.Some? then next.value.ids else r.ids)
    && match s.phase
       case Idle => true
       case Loading(feed, n, written, work) =>
         && s.done < |p.batches| && n <= |p.topics|
         && SameFeed(RefFeed(p, s.done), feed)
         && LoadTo(p.env, feed, p.topics, n, Work(s.db, [], [])) == Some(work)
       case Publishing(pending) =>
         && s.done < |p.batches| && next.Some? && s.db == next.value.db
         && next.value.ids == DlqIds(s.topic) + DlqIds(pending)
  }

  ghost predicate Refines(p: Plan, s: Sys) {
    && s.done <= |p.batches| == |p.since|
    && CrashFree(p, s.done).Some?
    && RefinesAt(p, s, CrashFree(p, s.done).value, NextRef(p, s.done))
  }

  /** Loading batch `done` on either state it may start from ends at the reference after it. */
  lemma LoadReachesRef(p: Plan, done: nat, feed: Feed, db: Db)
    requires ValidPlan(p) && WholePlan(p) && done < |p.batches|
    requires CrashFree(p, done).Some? && (AtRef(p, done, db) || AtRef(p, done + 1, db))
    requires SameFeed(RefFeed(p, done), feed) && LoadFrom(p.env, feed, p.topics, db).Some?
    ensures AtRef(p, done + 1, LoadFrom(p.env, feed, p.topics, db).value.db)
    ensures CrashFree(p, done + 1).value.ids
         == CrashFree(p, done).value.ids + DlqIds(LoadFrom(p.env, feed, p.topics, db).value.dlq)
  {
    hide LoadTo, Finish;
    var r, f := CrashFree(p, done).value, RefFeed(p, done);
    CrashFreeIsExact(p, done);
    if AtRef(p, done, db) {
      LoadSame(p.env, f, feed, p.topics, r.db);
    } else {
      FeedIsWhole(p, p.batches[done], SteadyClock(p.since[done]), p.since[done], p.since[done]);
      WholeLoad(p.env, f, p.topics, |p.topics|, Work(r.db, [], []));
      LoadIsIdempotent(p.env, f, feed, p.topics, r.db);
    }
  }

  lemma DeliverIds(topic: seq<DlqRecord>, pending: seq<DlqRecord>, i: nat, again: bool)
    requires i < |pending|
    ensures var rest := if again then pending else pending[..i] + pending[i + 1..];
      DlqIds(topic + [pending[i]]) + DlqIds(rest) == DlqIds(topic) + DlqIds(pending)
  {
    DlqIdsConcat(topic, [pending[i]]);
    assert DlqIds([pending[i]]) == {pending[i].id};
    assert pending == pending[..i] + [pending[i]] + pending[i + 1..];
    DlqIdsConcat(pending[..i] + [pending[i]], pending[i + 1..]);
    DlqIdsConcat(pending[..i], [pending[i]]);
    DlqIdsConcat(pending[..i], pending[i + 1..]);
    assert pending[i] in pending;
  }

  lemma BeginRefines(p: Plan, s: Sys, r: Ref, next: Option<Ref>, clock: Clock, now: int)
    requires ValidPlan(p) && StablePlan(p) && RefinesAt(p, s, r, next)
    ensures RefinesAt(p, Apply(p, s, Begin(clock, now)), r, next)
  {
    if CanBegin(p, s, clock, now) {
      var t := p.since[s.done];
      StableFeedsAgree(p.env, p.judge, p.batches[s.done], t, SteadyClock(t), t, clock, now);
    }
  }

  lemma StatementRefines(p: Plan, s: Sys, r: Ref, next: Option<Ref>)
    requires RefinesAt(p, s, r, next)
    ensures RefinesAt(p, Apply(p, s, RunStatement), r, next)
    ensures RefinesAt(p, Apply(p, s, AppendLake), r, next)
  {
    hide TopicWork, RefFeed, SameFeed, DlqIds, Unique, LakeRows, AllFit, CanTear, CanBegin;
  }

  lemma DeliverRefines(p: Plan, s: Sys, r: Ref, next: Option<Ref>, i: nat, again: bool)
    requires RefinesAt(p, s, r, next)
    ensures RefinesAt(p, Apply(p, s, Deliver(i, again)), r, next)
  {
    if s.phase.Publishing? && i < |s.phase.pending| {
      DeliverIds(s.topic, s.phase.pending, i, again);
      DlqIdsConcat(s.topic, [s.phase.pending[i]]);
    }
  }

  /** A commit moves the warehouse to the next reference. */
  lemma CommitRefines(p: Plan, s: Sys, r: Ref, next: Option<Ref>)
    requires RefinesAt(p, s, r, next)
    requires s.phase.Loading? && s.phase.next == |p.topics| && Finish(s.phase.work).Some? ==>
               next.Some? && next.value == Ref(Finish(s.phase.work).value, r.ids + DlqIds(s.phase.work.dlq))
    ensures RefinesAt(p, Apply(p, s, Commit), r, next)
  {
  }

  lemma CommitReaches(p: Plan, s: Sys)
    requires ValidPlan(p) && WholePlan(p) && Refines(p, s)
    requires s.phase.Loading? && s.phase.next == |p.topics| && Finish(s.phase.work).Some?
    ensures CrashFree(p, s.done + 1)
         == Some(Ref(Finish(s.phase.work).value, CrashFree(p, s.done).value.ids + DlqIds(s.phase.work.dlq)))
  {
    hide Genuine, GoodOrder, CrashFree, RefFeed, WholePlan;
    assert LoadFrom(p.env, s.phase.feed, p.topics, s.db) == Some(s.phase.work.(db := Finish(s.phase.work).value));
    LoadReachesRef(p, s.done, s.phase.feed, s.db);
  }

  lemma CheckpointRefines(p: Plan, s: Sys, r: Ref, next: Option<Ref>, after: Option<Ref>)
    requires RefinesAt(p, s, r, next) && s.phase == Publishing([])
    requires after.Some? ==> next.value.ids <= after.value.ids
    ensures var s' := Apply(p, s, Checkpoint);
      && s' == s.(done := s.done + 1, phase := Idle)
      && RefinesAt(p, s', next.value, after)
      && s'.db == next.value.db && DlqIds(s'.topic) == next.value.ids
  {
    assert DlqIds([]) == {};
  }

  lemma RefIdsGrow(p: Plan, n: nat)
    requires n <= |p.batches| == |p.since|
    ensures NextRef(p, n).Some? ==> CrashFree(p, n).Some? && CrashFree(p, n).value.ids <= NextRef(p, n).value.ids
  {
  }

  /** The warehouse and the dead-letter topic are exactly those of the checkpointed batches. */
  ghost predicate AtExactly(p: Plan, s: Sys) {
    AtRef(p, s.done, s.db) && DlqIds(s.topic) == CrashFree(p, s.done).value.ids
  }

  /** A checkpoint leaves exactly the next reference behind. */
  lemma CheckpointKeeps(p: Plan, s: Sys)
    requires Refines(p, s)
    ensures Refines(p, Apply(p, s, Checkpoint))
    ensures var s' := Apply(p, s, Checkpoint); s'.done != s.done ==> AtExactly(p, s')
  {
    hide LoadFrom, RefFeed, LoadTo;
    if s.phase == Publishing([]) {
      var next := NextRef(p, s.done);
      RefIdsGrow(p, s.done + 1);
      CheckpointRefines(p, s, CrashFree(p, s.done).value, next, NextRef(p, s.done + 1));
      assert CrashFree(p, s.done + 1) == next;
    }
  }

  /** An attempt that ends without a commit changes neither warehouse nor topic. */
  lemma AbortRefines(p: Plan, s: Sys, r: Ref, next: Option<Ref>, part: seq<Event>)
    requires RefinesAt(p, s, r, next)
    ensures RefinesAt(p, Apply(p, s, Crash), r, next)
    ensures RefinesAt(p, Apply(p, s, TearLake(part)), r, next)
  {
  }

  lemma OnlyCheckpointAdvances(p: Plan, s: Sys, step: Step)
    ensures !step.Checkpoint? ==> Apply(p, s, step).done == s.done
  {
    hide TopicWork, Finish;
  }

  /** Every step keeps the refinement. */
  lemma StepRefines(p: Plan, s: Sys, step: Step)
    requires ValidPlan(p) && WholePlan(p) && StablePlan(p) && Refines(p, s)
    ensures Refines(p, Apply(p, s, step))
  {
    hide Apply, RefinesAt, CrashFree, NextRef, Finish, LoadTo;
    var r, next := CrashFree(p, s.done).value, NextRef(p, s.done);
    OnlyCheckpointAdvances(p, s, step);
    match step
    case Begin(clock, now) => BeginRefines(p, s, r, next, clock, now);
    case AppendLake => StatementRefines(p, s, r, next);
    case TearLake(part) => AbortRefines(p, s, r, next, part);
    case RunStatement => StatementRefines(p, s, r, next);
    case Commit => CommitKeepsRef(p, s, r, next);
    case Deliver(i, again) => DeliverRefines(p, s, r, next, i, again);
    case Checkpoint => CheckpointKeeps(p, s);
    case Crash => AbortRefines(p, s, r, next, []);
  }

  lemma CommitKeepsRef(p: Plan, s: Sys, r: Ref, next: Option<Ref>)
    requires ValidPlan(p) && WholePlan(p) && Refines(p, s)
    requires r == CrashFree(p, s.done).value && next == NextRef(p, s.done)
    ensures RefinesAt(p, Apply(p, s, Commit), r, next)
  {
    hide CrashFree, Finish, Genuine, GoodOrder;
    if s.phase.Loading? && s.phase.next == |p.topics| && Finish(s.phase.work).Some? {
      CommitReaches(p, s);
    }
    CommitRefines(p, s, r, next);
  }

  lemma {:induction false} ExecRefines(p: Plan, start: int, steps: seq<Step>)
    requires ValidPlan(p) && WholePlan(p) && StablePlan(p)
    ensures Refines(p, Exec(p, start, steps))
  {
    if steps != [] {
      ExecRefines(p, start, steps[..|steps| - 1]);
      StepRefines(p, Exec(p, start, steps[..|steps| - 1]), steps[|steps| - 1]);
    }
  }

  /** Crash refinement. Whatever the schedule of steps, crashes and restarts, the
      warehouse is always one of the crash-free run: that of the checkpointed batches
      or that of one batch more; the dead-letter topic holds the rejections of all
      checkpointed batches and none but those and that batch's. */
  lemma CrashRefinement(p: Plan, s: Sys)
    requires ValidPlan(p) && WholePlan(p) && StablePlan(p) && Reachable(p, s)
    ensures s.done <= |p.batches| && CrashFree(p, s.done).Some?
    ensures AtRef(p, s.done, s.db) || AtRef(p, s.done + 1, s.db)
    ensures CrashFree(p, s.done).value.ids <= DlqIds(s.topic)
    ensures DlqIds(s.topic)
         <= if NextRef(p, s.done).Some? then NextRef(p, s.done).value.ids else CrashFree(p, s.done).value.ids
  {
    ReachableRefines(p, s);
  }

  lemma ReachableRefines(p: Plan, s: Sys)
    requires ValidPlan(p) && WholePlan(p) && StablePlan(p) && Reachable(p, s)
    ensures Refines(p, s)
  {
    hide Exec, Refines;
    var start, steps :| s == Exec(p, start, steps);
    ExecRefines(p, start, steps);
  }

  /** Right after a checkpoint, and whenever all batches are checkpointed, the
      warehouse is exactly the crash-free one of the checkpointed batches (dimensions,
      facts, tower state and rollups) and the topic holds exactly their rejections. */
  lemma CheckpointIsExact(p: Plan, s: Sys)
    requires ValidPlan(p) && WholePlan(p) && StablePlan(p) && Reachable(p, s)
    ensures Apply(p, s, Checkpoint).done != s.done ==> AtExactly(p, Apply(p, s, Checkpoint))
    ensures s.done == |p.batches| ==> AtExactly(p, s)
  {
    ReachableRefines(p, s);
    CheckpointKeeps(p, s);
  }
}
