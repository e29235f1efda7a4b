/** Restarts recover: from whatever state a schedule of crashes leaves, a run without
    further crashes checkpoints every batch that the crash-free run can load. */
module Recovery {
  import opened Base
  import opened Schemas
  import opened Events
  import opened Warehouse
  import opened Batches
  import opened Replay
  import opened Records
  import opened Processor
  import opened Protocol

  /** The state after more steps. */
  ghost function Continue(p: Plan, s: Sys, steps: seq<Step>): Sys {
    if steps == [] then s else Apply(p, Continue(p, s, steps[..|steps| - 1]), steps[|steps| - 1])
  }

  lemma {:induction false} ExecContinues(p: Plan, start: int, steps: seq<Step>, more: seq<Step>)
    ensures Exec(p, start, steps + more) == Continue(p, Exec(p, start, steps), more)
  {
    hide Apply;
    if more == [] {
      assert steps + more == steps;
    } else {
      ExecContinues(p, start, steps, more[..|more| - 1]);
      assert (steps + more)[..|steps + more| - 1] == steps + more[..|more| - 1];
    }
  }

  lemma {:induction false} ContinueConcat(p: Plan, s: Sys, a: seq<Step>, b: seq<Step>)
    ensures Continue(p, s, a + b) == Continue(p, Continue(p, s, a), b)
  {
    hide Apply;
    if b == [] {
      assert a + b == a;
    } else {
      ContinueConcat(p, s, a, b[..|b| - 1]);
      assert (a + b)[..|a + b| - 1] == a + b[..|b| - 1];
    }
  }

  lemma ContinueOne(p: Plan, s: Sys, step: Step)
    ensures Continue(p, s, [step]) == Apply(p, s, step)
  {
    hide Apply;
    assert [step][..0] == [];
  }

  /** No crash, whole or in the middle of an append, is among the steps. */
  predicate NoCrash(steps: seq<Step>) {
    forall i | 0 <= i < |steps| :: !steps[i].Crash? && !steps[i].TearLake?
  }

  /** The state with the transaction at topic `next`, reached from `s`. */
  ghost predicate LoadedUpTo(p: Plan, s: Sys, s': Sys, feed: Feed, next: nat)
    requires next <= |p.topics|
  {
    && LoadTo(p.env, feed, p.topics, next, Work(s.db, [], [])).Some?
    && s' == s.(lake := s.lake + LakeTo(feed, p.topics, next),
                phase := Loading(feed, next, false, LoadTo(p.env, feed, p.topics, next, Work(s.db, [], [])).value))
  }

  lemma TopicRuns(p: Plan, s: Sys, s': Sys, feed: Feed, k: nat)
    requires k < |p.topics| && LoadedUpTo(p, s, s', feed, k)
    requires LoadTo(p.env, feed, p.topics, k + 1, Work(s.db, [], [])).Some?
    ensures LoadedUpTo(p, s, Apply(p, Apply(p, s', AppendLake), RunStatement), feed, k + 1)
  {
    hide Sink, Unique, Finish, LakeRows;
    var t, w := p.topics[k], s'.phase.work;
    assert TopicWork(p.env, feed, t, w).Some?;
    assert AllFit(Unique(feed, t));
    TopicStep(p.env, feed, p.topics, k, Work(s.db, [], []), s.lake);
  }

  lemma {:induction false} TopicsRun(p: Plan, s: Sys, feed: Feed, k: nat) returns (steps: seq<Step>)
    requires s.phase == Loading(feed, 0, false, Work(s.db, [], [])) && k <= |p.topics|
    requires LoadTo(p.env, feed, p.topics, k, Work(s.db, [], [])).Some?
    ensures LoadedUpTo(p, s, Continue(p, s, steps), feed, k) && NoCrash(steps)
    decreases k
  {
    hide TopicWork, Apply;
    if k == 0 {
      steps := [];
      assert s.lake + [] == s.lake;
    } else {
      var before := TopicsRun(p, s, feed, k - 1);
      TopicRuns(p, s, Continue(p, s, before), feed, k - 1);
      steps := before + [AppendLake] + [RunStatement];
      ContinueConcat(p, s, before, [AppendLake]);
      ContinueOne(p, Continue(p, s, before), AppendLake);
      ContinueConcat(p, s, before + [AppendLake], [RunStatement]);
      ContinueOne(p, Continue(p, s, before + [AppendLake]), RunStatement);
    }
  }

  lemma FirstIsSent(p: Plan, s: Sys, pending: seq<DlqRecord>)
    requires s.phase == Publishing(pending) && pending != []
    ensures Apply(p, s, Deliver(0, false)) == s.(topic := s.topic + [pending[0]], phase := Publishing(pending[1..]))
  {
    assert pending[..0] + pending[1..] == pending[1..];
  }

  lemma {:induction false} RecordsAreSent(p: Plan, s: Sys, pending: seq<DlqRecord>) returns (steps: seq<Step>)
    requires s.phase == Publishing(pending)
    ensures Continue(p, s, steps) == s.(topic := s.topic + pending, phase := Publishing([])) && NoCrash(steps)
    decreases |pending|
  {
    hide Apply;
    if pending == [] {
      steps := [];
      assert s.topic + [] == s.topic;
    } else {
      FirstIsSent(p, s, pending);
      var next := Apply(p, s, Deliver(0, false));
      assert s.topic + [pending[0]] + pending[1..] == s.topic + pending;
      var rest := RecordsAreSent(p, next, pending[1..]);
      hide Continue;
      steps := [Deliver(0, false)] + rest;
      ContinueOne(p, s, Deliver(0, false));
      ContinueConcat(p, s, [Deliver(0, false)], rest);
    }
  }

  /** A run of the batch processor up to the checkpoint, as steps. */
  lemma AttemptIsASchedule(p: Plan, s: Sys, clock: Clock, now: int, w: Work) returns (steps: seq<Step>)
    requires s.phase.Idle? && CanBegin(p, s, clock, now)
    requires LoadFrom(p.env, FeedOf(p.env, p.judge, p.batches[s.done], clock), p.topics, s.db) == Some(w)
    ensures var feed := FeedOf(p.env, p.judge, p.batches[s.done], clock);
      && NoCrash(steps)
      && Continue(p, s, steps) == Sys(s.done, now, w.db, s.lake + LakeOf(feed, p.topics), s.topic + w.dlq, Publishing([]))
  {
    hide Continue, LoadTo, Finish, FeedOf, TopicWork, LakeTo;
    var feed := FeedOf(p.env, p.judge, p.batches[s.done], clock);
    var s1 := Apply(p, s, Begin(clock, now));
    var loads := TopicsRun(p, s1, feed, |p.topics|);
    var s2 := Continue(p, s1, loads);
    var s3 := Apply(p, s2, Commit);
    var sends := RecordsAreSent(p, s3, w.dlq);
    steps := [Begin(clock, now)] + loads + [Commit] + sends;
    ContinueOne(p, s, Begin(clock, now));
    ContinueConcat(p, s, [Begin(clock, now)], loads);
    ContinueConcat(p, s, [Begin(clock, now)] + loads, [Commit]);
    ContinueOne(p, s2, Commit);
    ContinueConcat(p, s, [Begin(clock, now)] + loads + [Commit], sends);
  }

  /** A run of the batch processor without a crash, and the checkpoint after it, is a
      schedule of steps with the same effect: what the transaction loads is committed,
      the lake gets all appends and the topic all rejections, in order. */
  lemma ProcessIsASchedule(p: Plan, s: Sys, clock: Clock, now: int, w: Work) returns (steps: seq<Step>)
    requires s.phase.Idle? && CanBegin(p, s, clock, now)
    requires LoadFrom(p.env, FeedOf(p.env, p.judge, p.batches[s.done], clock), p.topics, s.db) == Some(w)
    ensures var feed := FeedOf(p.env, p.judge, p.batches[s.done], clock);
      && NoCrash(steps)
      && Continue(p, s, steps) == Sys(s.done + 1, now, w.db, s.lake + LakeOf(feed, p.topics), s.topic + w.dlq, Idle)
  {
    hide Continue, LoadFrom, FeedOf, LakeOf;
    var attempt := AttemptIsASchedule(p, s, clock, now, w);
    steps := attempt + [Checkpoint];
    ContinueConcat(p, s, attempt, [Checkpoint]);
    ContinueOne(p, Continue(p, s, attempt), Checkpoint);
  }

  /** The first topic at which a load fails. */
  lemma {:induction false} FirstFailure(env: Env, feed: Feed, topics: seq<EventType>, n: nat, w: Work) returns (k: nat)
    requires n <= |topics| && LoadTo(env, feed, topics, n, w).None?
    ensures k < n && LoadTo(env, feed, topics, k, w).Some? && LoadTo(env, feed, topics, k + 1, w).None?
    decreases n
  {
    hide TopicWork;
    if LoadTo(env, feed, topics, n - 1, w).Some? {
      k := n - 1;
    } else {
      k := FirstFailure(env, feed, topics, n - 1, w);
    }
  }

  /** A topic that fails, in its append or in its statement, ends the attempt. */
  lemma TopicFails(p: Plan, s: Sys, s': Sys, feed: Feed, k: nat) returns (steps: seq<Step>)
    requires k < |p.topics| && LoadedUpTo(p, s, s', feed, k)
    requires LoadTo(p.env, feed, p.topics, k + 1, Work(s.db, [], [])).None?
    ensures NoCrash(steps)
    ensures Continue(p, s', steps) == s.(lake := s.lake + LakeAfter(p.env, feed, p.topics, s.db), phase := Idle)
  {
    hide Sink, Unique, Finish, LakeRows, AllFit, TopicWork, Continue;
    var t := p.topics[k];
    TopicStep(p.env, feed, p.topics, k, Work(s.db, [], []), s.lake);
    ContinueOne(p, s', AppendLake);
    if AllFit(Unique(feed, t)) {
      steps := [AppendLake] + [RunStatement];
      ContinueConcat(p, s', [AppendLake], [RunStatement]);
      ContinueOne(p, Apply(p, s', AppendLake), RunStatement);
    } else {
      steps := [AppendLake];
      assert s'.lake + [] == s'.lake;
    }
  }

  /** A run of the batch processor in which a statement, an append or the refresh fails is a
      schedule without a crash, too: nothing is committed or published, the lake keeps the
      appends up to the failing topic, and the batch is still to be done. */
  lemma FailedProcessIsASchedule(p: Plan, s: Sys, clock: Clock, now: int) returns (steps: seq<Step>)
    requires s.phase.Idle? && CanBegin(p, s, clock, now)
    requires LoadFrom(p.env, FeedOf(p.env, p.judge, p.batches[s.done], clock), p.topics, s.db).None?
    ensures var feed := FeedOf(p.env, p.judge, p.batches[s.done], clock);
      && NoCrash(steps)
      && Continue(p, s, steps) == s.(now := now, lake := s.lake + LakeAfter(p.env, feed, p.topics, s.db))
  {
    hide Continue, LoadTo, Finish, FeedOf, TopicWork, LakeTo;
    var feed := FeedOf(p.env, p.judge, p.batches[s.done], clock);
    var s1, start := Apply(p, s, Begin(clock, now)), Work(s.db, [], []);
    var n := |p.topics|;
    ContinueOne(p, s, Begin(clock, now));
    if LoadTo(p.env, feed, p.topics, n, start).None? {
      var k := FirstFailure(p.env, feed, p.topics, n, start);
      var loads := TopicsRun(p, s1, feed, k);
      var fails := TopicFails(p, s1, Continue(p, s1, loads), feed, k);
      steps := [Begin(clock, now)] + loads + fails;
      ContinueConcat(p, s, [Begin(clock, now)], loads);
      ContinueConcat(p, s, [Begin(clock, now)] + loads, fails);
    } else {
      var loads := TopicsRun(p, s1, feed, n);
      LoadedAppendsAll(p.env, feed, p.topics, start);
      steps := [Begin(clock, now)] + loads + [Commit];
      ContinueConcat(p, s, [Begin(clock, now)], loads);
      ContinueConcat(p, s, [Begin(clock, now)] + loads, [Commit]);
      ContinueOne(p, Continue(p, s1, loads), Commit);
    }
  }

  /** Wherever a crash left the warehouse, the batch under way can be loaded again. */
  lemma BatchLoads(p: Plan, done: nat, feed: Feed, db: Db)
    requires ValidPlan(p) && WholePlan(p) && done < |p.batches|
    requires CrashFree(p, done).Some? && CrashFree(p, done + 1).Some? && (AtRef(p, done, db) || AtRef(p, done + 1, db))
    requires SameFeed(RefFeed(p, done), feed)
    ensures LoadFrom(p.env, feed, p.topics, db).Some?
  {
    hide LoadTo, Finish;
    var r, f := CrashFree(p, done).value, RefFeed(p, done);
    CrashFreeIsExact(p, done);
    if AtRef(p, done, db) {
      LoadSame(p.env, f, feed, p.topics, r.db);
    } else {
      FeedIsWhole(p, p.batches[done], SteadyClock(p.since[done]), p.since[done], p.since[done]);
      WholeLoad(p.env, f, p.topics, |p.topics|, Work(r.db, [], []));
      LoadIsIdempotent(p.env, f, feed, p.topics, r.db);
    }
  }

  /** The state after a crash. */
  function Restarted(s: Sys): Sys { s.(phase := Idle) }

  /** A clock that the next attempt may read, and what that attempt would load. */
  lemma AttemptLoads(p: Plan, s: Sys) returns (clock: Clock, now: int, w: Work)
    requires ValidPlan(p) && WholePlan(p) && StablePlan(p) && Refines(p, s)
    requires s.done < |p.batches| && CrashFree(p, s.done + 1).Some?
    ensures CanBegin(p, Restarted(s), clock, now)
    ensures LoadFrom(p.env, FeedOf(p.env, p.judge, p.batches[s.done], clock), p.topics, s.db) == Some(w)
  {
    hide LoadTo, Finish, LoadFrom, CrashFree, FeedOf;
    var since := p.since[s.done];
    now := if s.now >= since then s.now else since;
    clock := SteadyClock(now);
    assert InTime(clock, s.now, now) && InTime(clock, since, now) && InTime(SteadyClock(since), since, since);
    StableFeedsAgree(p.env, p.judge, p.batches[s.done], since, SteadyClock(since), since, clock, now);
    assert AtRef(p, s.done, s.db) || AtRef(p, s.done + 1, s.db);
    BatchLoads(p, s.done, FeedOf(p.env, p.judge, p.batches[s.done], clock), s.db);
    w := LoadFrom(p.env, FeedOf(p.env, p.judge, p.batches[s.done], clock), p.topics, s.db).value;
  }

  /** After a crash anywhere, one attempt without a further crash checkpoints the batch. */
  lemma AttemptCompletes(p: Plan, s: Sys) returns (steps: seq<Step>)
    requires ValidPlan(p) && WholePlan(p) && StablePlan(p) && Refines(p, s)
    requires s.done < |p.batches| && CrashFree(p, s.done + 1).Some?
    ensures Continue(p, s, steps).done == s.done + 1
  {
    hide Continue, LoadFrom, Refines, CrashFree, FeedOf;
    var clock, now, w := AttemptLoads(p, s);
    var attempt := ProcessIsASchedule(p, Restarted(s), clock, now, w);
    steps := [Crash] + attempt;
    ContinueOne(p, s, Crash);
    ContinueConcat(p, s, [Crash], attempt);
  }

  /** Recovery. If the crash-free run can load the batches, then from every reachable
      state some continuation checkpoints them all, and what it leaves is exactly the
      crash-free result. */
  lemma EveryRunCanFinish(p: Plan, start: int, steps: seq<Step>) returns (more: seq<Step>)
    requires ValidPlan(p) && WholePlan(p) && StablePlan(p) && CrashFree(p, |p.batches|).Some?
    ensures Exec(p, start, steps + more).done == |p.batches| && AtExactly(p, Exec(p, start, steps + more))
    decreases |p.batches| - Exec(p, start, steps).done
  {
    hide Exec, Refines, AtExactly, CrashFree;
    ExecRefines(p, start, steps);
    var s := Exec(p, start, steps);
    DoneInRange(p, s);
    if s.done == |p.batches| {
      more := [];
      assert steps + more == steps;
      assert Reachable(p, s);
      CheckpointIsExact(p, s);
    } else {
      CrashFreeBefore(p, s.done + 1, |p.batches|);
      var attempt := AttemptCompletes(p, s);
      ExecContinues(p, start, steps, attempt);
      var rest := EveryRunCanFinish(p, start, steps + attempt);
      more := attempt + rest;
      assert steps + more == steps + attempt + rest;
    }
  }

  lemma DoneInRange(p: Plan, s: Sys)
    requires Refines(p, s)
    ensures s.done <= |p.batches| == |p.since|
  {
  }
}
