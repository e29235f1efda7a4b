/** Why exactness after restarts needs stable verdicts: a record whose time comes between
    its first fetch and its replay ends up both rejected and loaded. */
module Instability {
  import opened Base
  import opened Schemas
  import opened Rules
  import opened Events
  import opened Rollups
  import opened Warehouse
  import opened Batches
  import opened Replay
  import opened Records
  import opened Processor
  import opened Protocol
  import opened Recovery
  import opened Outcomes
  import opened Producer

  function JudgeOf(env: Env): Judging {
    (t: EventType, raw: string, now: int) => Judge(env, t, raw, now)
  }

  function OneRecord(raw: string): Batch { [Row(SubscriberCreated, raw)] }

  /** A run that will see a single record, a new subscriber. */
  function OnePlan(env: Env, seeds: Seeds, raw: string, since: int): Plan {
    Plan(env, JudgeOf(env), seeds, TOPIC_ORDER, [OneRecord(raw)], [since])
  }

  function OneFeed(env: Env, raw: string, now: int): Feed {
    FeedOf(env, JudgeOf(env), OneRecord(raw), SteadyClock(now))
  }

  function Rejection(env: Env, reason: string, raw: string, now: int): DlqRecord {
    MakeDlq(env, TopicName(SubscriberCreated), reason, raw, now)
  }

  lemma OneRaw(raw: string, t: EventType)
    ensures Raws(OneRecord(raw), t) == if t == SubscriberCreated then [raw] else []
  {
    assert OneRecord(raw)[..0] == [];
  }

  lemma OneBad(env: Env, t: EventType, raws: seq<string>, vs: seq<Verdict>, clock: Clock)
    requires |vs| == |raws| == 1
    ensures Goods(vs) == if vs[0].Accept? then [vs[0].event] else []
    ensures Bads(env, t, raws, vs, clock)
         == if vs[0].Reject? then [MakeDlq(env, TopicName(t), vs[0].reason, raws[0], clock(t, 0))] else []
  {
    hide MakeDlq, TopicName;
    assert vs[..0] == [] && raws[..0] == [];
    assert Goods(vs[..0]) == [] && Bads(env, t, raws[..0], vs[..0], clock) == [];
  }

  lemma OneFeedParts(env: Env, raw: string, now: int, t: EventType)
    ensures var feed, v := OneFeed(env, raw, now), Judge(env, SubscriberCreated, raw, now);
      && feed.good(t) == (if t == SubscriberCreated && v.Accept? then [v.event] else [])
      && feed.bad(t) == (if t == SubscriberCreated && v.Reject? then [Rejection(env, v.reason, raw, now)] else [])
  {
    hide Judge, MakeDlq, TopicName;
    OneRaw(raw, t);
    var vs := Verdicts(JudgeOf(env), t, Raws(OneRecord(raw), t), SteadyClock(now));
    if t == SubscriberCreated {
      assert vs == [Judge(env, t, raw, now)];
      OneBad(env, t, [raw], vs, SteadyClock(now));
    }
  }

  lemma OneLoad(env: Env, raw: string, now: int, db: Db)
    ensures LoadTo(env, OneFeed(env, raw, now), TOPIC_ORDER, |TOPIC_ORDER|, Work(db, [], []))
         == TopicWork(env, OneFeed(env, raw, now), SubscriberCreated, Work(db, [], []))
  {
    hide TopicWork, OneFeed, Judge;
    TopicOrderIsGood();
    var topics := TOPIC_ORDER;
    assert topics[0] == SubscriberCreated && topics[..|topics|] == topics;
    forall t ensures t != SubscriberCreated ==> OneFeed(env, raw, now).good(t) == [] && OneFeed(env, raw, now).bad(t) == [] {
      OneFeedParts(env, raw, now, t);
    }
    OnlyItsTopicWorks(env, OneFeed(env, raw, now), SubscriberCreated, topics, |topics|, Work(db, [], []));
  }

  /** Rejected, the record leaves a dead letter and nothing else. */
  lemma RejectedLoad(env: Env, raw: string, now: int, db: Db)
    requires Judge(env, SubscriberCreated, raw, now).Reject?
    ensures LoadFrom(env, OneFeed(env, raw, now), TOPIC_ORDER, db)
         == Some(Work(db, [Rejection(env, Judge(env, SubscriberCreated, raw, now).reason, raw, now)], []))
  {
    hide OneFeed, Judge, Rejection, LoadTo;
    OneLoad(env, raw, now, db);
    OneFeedParts(env, raw, now, SubscriberCreated);
    var none: seq<DlqRecord> := [];
    assert none + OneFeed(env, raw, now).bad(SubscriberCreated) == OneFeed(env, raw, now).bad(SubscriberCreated);
  }

  lemma EmptyRefresh(t: Rollup, w: Window)
    ensures Refresh(map[], [], t, w) == Some(map[])
  {
    assert GroupBy(Select([], t, w)) == map[] && Delete(map[], t, w) == map[];
    var none: Agg := map[];
    assert none + none == none;
  }

  lemma NoFactsRefresh(db: Db, lo: Stamp, hi: Stamp)
    requires db.facts == [] && db.agg == map[]
    ensures RefreshFacts(db, lo, hi) == Some(db)
  {
    hide Refresh;
    var w := MinuteParams(lo, hi);
    assert FactItems(db.subs, []) == [];
    EmptyRefresh(RevenueMinute, w);
    EmptyRefresh(CallsMinute, w);
    EmptyRefresh(DataMinute, w);
  }

  function OnlySubscriber(e: Event): SubTable
    requires e.body.SubscriberBody?
  {
    map[e.body.subscriberId := SubRow(e.body.msisdn, e.body.plan, e.body.province, e.ts.utc)]
  }

  lemma OneAlone(e: Event)
    ensures Dedupe([e], EventId()) == [e] && Remaining([e], []) == [e] && Stamps([e]) == [e.ts]
  {
    assert [e][..0] == [];
  }

  lemma OneUpsert(e: Event, seeds: Seeds, env: Env)
    requires e.body.SubscriberBody?
    ensures Sink(env, SubscriberCreated, EmptyDb(seeds), [e]) == Some(Sunk(EmptyDb(seeds).(subs := OnlySubscriber(e)), []))
  {
    hide UpdateTowers, InsertAll, Known, Unknown, Updates;
    assert [e][..0] == [];
    assert UpsertSubs(map[], [e]) == UpsertOne(map[], e);
  }

  lemma AcceptedWork(env: Env, raw: string, now: int, seeds: Seeds)
    requires Judge(env, SubscriberCreated, raw, now).Accept? && LakeFits(Judge(env, SubscriberCreated, raw, now).event)
    ensures var e := Judge(env, SubscriberCreated, raw, now).event;
      && e.body.SubscriberBody?
      && TopicWork(env, OneFeed(env, raw, now), SubscriberCreated, Work(EmptyDb(seeds), [], []))
           == Some(Work(EmptyDb(seeds).(subs := OnlySubscriber(e)), [], [e.ts]))
  {
    hide OneFeed, Judge, LakeFits, OnlySubscriber, Sink, Dedupe, Remaining, Stamps;
    var e, feed := Judge(env, SubscriberCreated, raw, now).event, OneFeed(env, raw, now);
    OneFeedParts(env, raw, now, SubscriberCreated);
    OneAlone(e);
    OneUpsert(e, seeds, env);
    assert Unique(feed, SubscriberCreated) == [e] && AllFit([e]);
    var none: seq<DlqRecord>, noStamps: seq<Stamp> := [], [];
    assert none + feed.bad(SubscriberCreated) + none == none && noStamps + [e.ts] == [e.ts];
    assert Referential(env, SubscriberCreated, [], feed.late(SubscriberCreated)) == none;
  }

  /** Accepted, the record leaves its subscriber and no dead letter. */
  lemma AcceptedLoad(env: Env, raw: string, now: int, seeds: Seeds) returns (w: Work)
    requires Judge(env, SubscriberCreated, raw, now).Accept? && LakeFits(Judge(env, SubscriberCreated, raw, now).event)
    ensures LoadFrom(env, OneFeed(env, raw, now), TOPIC_ORDER, EmptyDb(seeds)) == Some(w)
    ensures w.dlq == [] && w.db != EmptyDb(seeds)
  {
    hide OneFeed, Judge, LakeFits, LoadTo, TopicWork, RefreshFacts;
    OneLoad(env, raw, now, EmptyDb(seeds));
    AcceptedWork(env, raw, now, seeds);
    var e := Judge(env, SubscriberCreated, raw, now).event;
    var work := TopicWork(env, OneFeed(env, raw, now), SubscriberCreated, Work(EmptyDb(seeds), [], [])).value;
    NoFactsRefresh(work.db, e.ts, e.ts);
    w := work;
    assert e.body.subscriberId in w.db.subs;
  }

  lemma OneReference(env: Env, seeds: Seeds, raw: string, since: int)
    ensures var p := OnePlan(env, seeds, raw, since);
      CrashFree(p, 1) == match LoadFrom(env, OneFeed(env, raw, since), TOPIC_ORDER, EmptyDb(seeds))
                         case None => None
                         case Some(w) => Some(Ref(w.db, DlqIds(w.dlq)))
  {
    hide LoadFrom, Judge;
    var p := OnePlan(env, seeds, raw, since);
    assert CrashFree(p, 0) == Some(Ref(EmptyDb(seeds), {}));
    assert RefFeed(p, 0) == OneFeed(env, raw, since);
    forall ids: set<string> ensures {} + ids == ids {}
  }

  /** No single validation leaves both a subscriber and a dead letter. */
  lemma NeverBoth(env: Env, seeds: Seeds, raw: string, since: int, late: int, s: Sys)
    requires Judge(env, SubscriberCreated, raw, late).Accept? && LakeFits(Judge(env, SubscriberCreated, raw, late).event)
    requires s.done == 1 && s.db != EmptyDb(seeds) && s.topic != []
    ensures !AtExactly(OnePlan(env, seeds, raw, since), s)
  {
    hide Judge, LoadFrom, LakeFits, OneFeed;
    OneReference(env, seeds, raw, since);
    if Judge(env, SubscriberCreated, raw, since).Reject? {
      RejectedLoad(env, raw, since, EmptyDb(seeds));
    } else {
      SameAcceptance(env, raw, since, late);
      var w := AcceptedLoad(env, raw, since, seeds);
      assert s.topic[0].id in DlqIds(s.topic);
    }
  }

  lemma SameAcceptance(env: Env, raw: string, a: int, b: int)
    requires Judge(env, SubscriberCreated, raw, a).Accept? && Judge(env, SubscriberCreated, raw, b).Accept?
    ensures Judge(env, SubscriberCreated, raw, a) == Judge(env, SubscriberCreated, raw, b)
  {
    hide Judge;
    var judge := JudgeOf(env);
    assert Genuine(env, judge);
    if a <= b {
      AcceptedStaysAccepted(env, judge, SubscriberCreated, raw, a, b);
    } else {
      AcceptedStaysAccepted(env, judge, SubscriberCreated, raw, b, a);
    }
  }

  /** Without stable verdicts exactness fails. The record is rejected when first fetched;
      after a crash before the checkpoint it is accepted. When the batch is checkpointed
      the state is that of no crash-free run, whenever that run might fetch the record. */
  lemma FlippedVerdictBreaksExactness(env: Env, seeds: Seeds, raw: string, early: int, late: int) returns (steps: seq<Step>)
    requires early <= late && Judge(env, SubscriberCreated, raw, early).Reject?
    requires Judge(env, SubscriberCreated, raw, late).Accept? && LakeFits(Judge(env, SubscriberCreated, raw, late).event)
    ensures var s := Exec(OnePlan(env, seeds, raw, early), early, steps);
      s.done == 1 && s.phase.Idle? && forall since :: !AtExactly(OnePlan(env, seeds, raw, since), s)
    ensures !StablePlan(OnePlan(env, seeds, raw, early))
  {
    hide Judge, LoadFrom, LakeFits, OneFeed, Continue, Exec, LakeOf, AtExactly;
    var p := OnePlan(env, seeds, raw, early);
    var start := Init(p, early);
    RejectedLoad(env, raw, early, EmptyDb(seeds));
    var w0 := LoadFrom(env, OneFeed(env, raw, early), TOPIC_ORDER, EmptyDb(seeds)).value;
    SameFeeds(env, seeds, raw, early);
    SameFeeds(env, seeds, raw, late);
    var first := AttemptIsASchedule(p, start, SteadyClock(early), early, w0);
    var s1 := Continue(p, start, first);
    var s2 := Apply(p, s1, Crash);
    var w1 := AcceptedLoad(env, raw, late, seeds);
    var second := ProcessIsASchedule(p, s2, SteadyClock(late), late, w1);
    steps := first + [Crash] + second;
    ContinueConcat(p, start, first, [Crash]);
    ContinueOne(p, s1, Crash);
    ContinueConcat(p, start, first + [Crash], second);
    FromTheStart(p, early, steps);
    var s := Exec(p, early, steps);
    assert s.topic == start.topic + w0.dlq + w1.dlq == w0.dlq;
    forall since ensures !AtExactly(OnePlan(env, seeds, raw, since), s) {
      NeverBoth(env, seeds, raw, since, late, s);
    }
    Unstable(env, seeds, raw, early, late);
  }

  lemma SameFeeds(env: Env, seeds: Seeds, raw: string, now: int)
    ensures var p := OnePlan(env, seeds, raw, now);
      FeedOf(p.env, p.judge, p.batches[0], SteadyClock(now)) == OneFeed(env, raw, now)
  {
  }

  lemma FromTheStart(p: Plan, start: int, steps: seq<Step>)
    ensures Exec(p, start, steps) == Continue(p, Init(p, start), steps)
  {
    hide Apply;
    assert Exec(p, start, []) == Init(p, start);
    ExecContinues(p, start, [], steps);
    assert [] + steps == steps;
  }

  lemma Unstable(env: Env, seeds: Seeds, raw: string, early: int, late: int)
    requires early <= late && Judge(env, SubscriberCreated, raw, early) != Judge(env, SubscriberCreated, raw, late)
    ensures !StablePlan(OnePlan(env, seeds, raw, early))
  {
    hide Judge;
    var p := OnePlan(env, seeds, raw, early);
    var row := Row(SubscriberCreated, raw);
    assert row in p.batches[0];
    assert p.judge(row.topic, row.raw, late) != p.judge(row.topic, row.raw, early);
    assert !StableFrom(p.judge, p.batches[0], p.since[0]);
  }

  // ----- one such record -----

  const RAW := "a new subscriber, dated two hours ahead"
  const AHEAD: int := FIRST_DAY + 120 * MINUTE
  const EARLY_SUBSCRIBER := SubscriberEvent("0b5e6a1e", "2026-01-01T02:00:00Z", 10001, "27600000001", "Prepaid", "Gauteng")

  /** Library functions that know this record and its timestamp. */
  function RecordEnv(): Env {
    Env((s: string) => if s == RAW then Some(JObject(FieldsOf(EARLY_SUBSCRIBER))) else None,
        (j: Json) => "", (j: Json) => "",
        (s: string) => if s == EARLY_SUBSCRIBER.timestamp then Some(IsoTime(AHEAD, Some(0))) else None,
        (s: string) => None, (s: string) => None,
        (c: char) => '0' <= c <= '9', (c: char) => '0' <= c <= '9',
        (s: string) => None, (s: string) => s, (s: string) => s == RAW)
  }

  lemma RecordIsClean()
    ensures Clean(RecordEnv(), BodyOf(EARLY_SUBSCRIBER))
  {
    var s := EARLY_SUBSCRIBER.msisdn;
    assert forall i :: 0 <= i < |s| ==> '0' <= s[i] <= '9';
    assert Catalog.PLANS[0] == "Prepaid" && Catalog.PROVINCES[2] == "Gauteng";
  }

  lemma RecordIsRead()
    ensures RecordEnv().parse(RAW) == Some(JObject(FieldsOf(EARLY_SUBSCRIBER)))
    ensures forall now :: TimeOk(RecordEnv(), EARLY_SUBSCRIBER.timestamp, now) <==> AHEAD <= now + CLOCK_SKEW
  {
    hide FieldsOf;
  }

  /** A record dated two hours ahead, fetched at once and replayed two hours later: the
      batch is checkpointed with the record both loaded and rejected. */
  lemma OneRecordBreaksExactness(seeds: Seeds) returns (steps: seq<Step>)
    ensures var p := OnePlan(RecordEnv(), seeds, RAW, FIRST_DAY);
      var s := Exec(p, FIRST_DAY, steps);
      s.done == |p.batches| && !AtExactly(p, s) && !StablePlan(p)
  {
    hide Judge, Exec, AtExactly, RecordEnv, StablePlan, Clean, FieldsOf;
    RecordIsClean();
    RecordIsRead();
    JudgedAs(RecordEnv(), EARLY_SUBSCRIBER, RAW, FIRST_DAY);
    JudgedAs(RecordEnv(), EARLY_SUBSCRIBER, RAW, AHEAD);
    var e := Judge(RecordEnv(), SubscriberCreated, RAW, AHEAD).event;
    SchemaVersion(RecordEnv(), EARLY_SUBSCRIBER, RAW, AHEAD);
    steps := FlippedVerdictBreaksExactness(RecordEnv(), seeds, RAW, FIRST_DAY, AHEAD);
  }

  lemma SchemaVersion(env: Env, ev: SubscriberEvent, raw: string, now: int)
    requires env.parse(raw) == Some(JObject(FieldsOf(ev))) && Judge(env, SubscriberCreated, raw, now).Accept?
    ensures Judge(env, SubscriberCreated, raw, now).event.version == 1
  {
    hide FieldsOf;
    FieldsRead(ev);
  }
}
