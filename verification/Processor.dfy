/** The batch processor and its database connection, as objects whose methods
    change state, each tied to the function that says what it does. */
module Processor {
  import opened Base
  import opened Schemas
  import opened Events
  import opened Rollups
  import opened Towers
  import opened Warehouse
  import opened Batches
  import opened Dlq

  /** One row of the lake: an accepted event under its type. */
  datatype LakeRow = LakeRow(t: EventType, event: Event)

  function LakeRows(t: EventType, events: seq<Event>): seq<LakeRow> {
    seq(|events|, i requires 0 <= i < |events| => LakeRow(t, events[i]))
  }

  /** What the first k topics of a batch append to the lake. */
  function LakeTo(feed: Feed, topics: seq<EventType>, k: nat): seq<LakeRow>
    requires k <= |topics|
    decreases k
  {
    if k == 0 then [] else LakeTo(feed, topics, k - 1) + LakeRows(topics[k - 1], Unique(feed, topics[k - 1]))
  }

  function LakeOf(feed: Feed, topics: seq<EventType>): seq<LakeRow> { LakeTo(feed, topics, |topics|) }

  /** How many of the first k topics a run appends to the lake: the append comes before
      the statement, so a topic whose statement fails is included. */
  function Appended(env: Env, feed: Feed, topics: seq<EventType>, k: nat, w: Work): (n: nat)
    requires k <= |topics|
    ensures n <= k
    decreases k
  {
    if k == 0 then 0
    else if LoadTo(env, feed, topics, k - 1, w).None? then Appended(env, feed, topics, k - 1, w)
    else if AllFit(Unique(feed, topics[k - 1])) then k
    else k - 1
  }

  /** The lake rows of one topic: all of its events, or none if one does not fit. */
  function Appends(feed: Feed, t: EventType): seq<LakeRow> {
    if AllFit(Unique(feed, t)) then LakeRows(t, Unique(feed, t)) else []
  }

  /** The lake rows of a run, whether it commits or fails. */
  function LakeAfter(env: Env, feed: Feed, topics: seq<EventType>, db: Db): seq<LakeRow> {
    LakeTo(feed, topics, Appended(env, feed, topics, |topics|, Work(db, [], [])))
  }

  /** A database connection with one open transaction. A method that returns false
      stands for the statement raising an error. */
  class Connection {
    const env: Env
    var committed: Db
    var tx: Db

    constructor (env: Env, db: Db)
      ensures this.env == env && committed == db && tx == db
    {
      this.env := env;
      committed, tx := db, db;
    }

    method UpsertSubscribers(events: seq<Event>) returns (ok: bool)
      modifies this`tx
      ensures ok == Sink(env, SubscriberCreated, old(tx), events).Some?
      ensures tx == if ok then Sink(env, SubscriberCreated, old(tx), events).value.db else old(tx)
    {
      match UpsertSubs(tx.subs, events)
      case None => ok := false;
      case Some(subs) =>
        tx := tx.(subs := subs);
        ok := true;
    }

    method UpdateTowerStatus(events: seq<Event>) returns (ok: bool)
      modifies this`tx
      ensures ok == Sink(env, TowerStatus, old(tx), events).Some?
      ensures tx == if ok then Sink(env, TowerStatus, old(tx), events).value.db else old(tx)
    {
      var rows := Collapse(Updates(events));
      CollapsedUpsertIsWriteAll(tx.towers, Updates(events), rows);
      ok := forall i | 0 <= i < |rows| :: TowerStorable(tx.seeds, rows[i]);
      assert ok <==> UpdateTowers(tx, Updates(events)).Some? by {
        CollapsedStorable(tx.seeds, Updates(events), rows);
      }
      if ok {
        tx := tx.(towers := UpsertRows(tx.towers, rows).value);
      }
    }

    /** Returns the events whose subscriber is not in the dimension. */
    method InsertFacts(t: EventType, events: seq<Event>) returns (ok: bool, unknown: seq<Event>)
      requires t != SubscriberCreated && t != TowerStatus
      modifies this`tx
      ensures ok == Sink(env, t, old(tx), events).Some?
      ensures ok ==> Sink(env, t, old(tx), events) == Some(Sunk(tx, unknown))
      ensures ok ==> old(tx).facts <= tx.facts && forall i :: |old(tx).facts| <= i < |tx.facts| ==>
                       DescribesSome(env, tx.subs, tx.facts[i], events)
      ensures !ok ==> tx == old(tx)
    {
      var insertable := Known(tx.subs, events);
      unknown := Unknown(tx.subs, events);
      match InsertAll(env, tx.seeds, tx.facts, insertable)
      case None => ok := false;
      case Some(facts) =>
        InsertDescribes(env, tx, events);
        tx := tx.(facts := facts);
        ok := true;
    }

    method RefreshFactRollups(lo: Stamp, hi: Stamp) returns (ok: bool)
      modifies this`tx
      ensures ok == RefreshFacts(old(tx), lo, hi).Some?
      ensures tx == if ok then RefreshFacts(old(tx), lo, hi).value else old(tx)
    {
      match RefreshFacts(tx, lo, hi)
      case None => ok := false;
      case Some(db) =>
        tx := db;
        ok := true;
    }

    method InsertDlqRecords(records: seq<DlqRecord>) returns (ok: bool)
      modifies this`tx
      ensures ok == InsertDlq(env, old(tx).dlq, records).Some?
      ensures tx == if ok then old(tx).(dlq := InsertDlq(env, old(tx).dlq, records).value) else old(tx)
    {
      match InsertDlq(env, tx.dlq, records)
      case None => ok := false;
      case Some(rows) =>
        tx := tx.(dlq := rows);
        ok := true;
    }

    method RefreshDlqRollups(lo: Stamp, hi: Stamp) returns (ok: bool)
      modifies this`tx
      ensures ok == RefreshOne(old(tx), DlqMinute, MinuteParams(lo, hi)).Some?
      ensures tx == if ok then RefreshOne(old(tx), DlqMinute, MinuteParams(lo, hi)).value else old(tx)
    {
      match RefreshOne(tx, DlqMinute, MinuteParams(lo, hi))
      case None => ok := false;
      case Some(db) =>
        tx := db;
        ok := true;
    }

    method Commit()
      modifies this`committed
      ensures committed == tx
    {
      committed := tx;
    }

    method Rollback()
      modifies this`tx
      ensures tx == committed
    {
      tx := committed;
    }
  }

  lemma CollapsedStorable(seeds: Seeds, us: seq<Update>, rows: seq<Update>)
    requires forall id :: id in WriteAll(map[], us) <==> exists i :: 0 <= i < |rows| && rows[i].towerId == id
    requires forall i :: 0 <= i < |rows| ==>
               rows[i].towerId in WriteAll(map[], us) && rows[i].row == WriteAll(map[], us)[rows[i].towerId]
    ensures (forall i :: 0 <= i < |rows| ==> TowerStorable(seeds, rows[i])) <==> LatestStorable(seeds, us)
  {
    var latest := WriteAll(map[], us);
    assert forall i :: 0 <= i < |rows| ==> rows[i] == Update(rows[i].towerId, latest[rows[i].towerId]);
    if forall i :: 0 <= i < |rows| ==> TowerStorable(seeds, rows[i]) {
      forall id | id in latest ensures TowerStorable(seeds, Update(id, latest[id])) {
        var i :| 0 <= i < |rows| && rows[i].towerId == id;
        assert rows[i] == Update(id, latest[id]);
      }
    } else {
      var i :| 0 <= i < |rows| && !TowerStorable(seeds, rows[i]);
      var id := rows[i].towerId;
      assert id in latest && rows[i] == Update(id, latest[id]);
      assert !TowerStorable(seeds, Update(id, latest[id]));
    }
  }

  /** The state outside one batch: the committed warehouse, the lake and the
      dead-letter topic. */
  class BatchProcessor {
    const env: Env
    var db: Db
    var lake: seq<LakeRow>
    var topic: seq<DlqRecord>

    constructor (env: Env, db: Db)
      ensures this.env == env && this.db == db && lake == [] && topic == []
    {
      this.env := env;
      this.db := db;
      lake, topic := [], [];
    }

    method WriteLake(t: EventType, events: seq<Event>) returns (ok: bool)
      modifies this`lake
      ensures ok == AllFit(events)
      ensures lake == if ok then old(lake) + LakeRows(t, events) else old(lake)
    {
      ok := forall e | e in events :: LakeFits(e);
      if ok {
        lake := lake + LakeRows(t, events);
      }
    }

    method PublishAll(records: seq<DlqRecord>)
      modifies this`topic
      ensures topic == old(topic) + records
    {
      for i := 0 to |records|
        invariant topic == old(topic) + records[..i]
      {
        topic := topic + [records[i]];
        assert records[..i + 1] == records[..i] + [records[i]];
      }
      assert records[..|records|] == records;
    }

    /** One run of a batch without a crash. When a statement fails the transaction is
        rolled back and nothing is published, but what was appended to the lake stays. */
    method Process(batch: Batch, clock: Clock, ghost judge: Judging) returns (ok: bool)
      requires Genuine(env, judge)
      modifies this`db, this`lake, this`topic
      ensures ok == Load(env, FeedOf(env, judge, batch, clock), old(db)).Some?
      ensures ok ==> var w := Load(env, FeedOf(env, judge, batch, clock), old(db)).value;
        db == w.db && topic == old(topic) + w.dlq
      ensures !ok ==> db == old(db) && topic == old(topic)
      ensures lake == old(lake) + LakeAfter(env, FeedOf(env, judge, batch, clock), TOPIC_ORDER, old(db))
      ensures ok ==> lake == old(lake) + LakeOf(FeedOf(env, judge, batch, clock), TOPIC_ORDER)
    {
      hide LoadFrom, LakeAfter, LakeOf, FeedOf, Raws, Genuine;
      var byTopic := GroupByTopic(batch);
      var conn: Connection := new Connection(env, db);
      var dlq;
      ok, dlq := RunTransaction(conn, batch, byTopic, clock, TOPIC_ORDER, FeedOf(env, judge, batch, clock), judge);
      if ok {
        db := conn.committed;
        PublishAll(dlq);
      }
    }

    /** The transaction: every topic in order, the rollups, then commit or roll back. */
    method RunTransaction(conn: Connection, ghost batch: Batch, byTopic: map<EventType, seq<string>>, clock: Clock,
                          topics: seq<EventType>, ghost feed: Feed, ghost judge: Judging)
      returns (ok: bool, dlq: seq<DlqRecord>)
      requires Genuine(env, judge) && feed == FeedOf(env, judge, batch, clock)
      requires conn.env == env && conn.committed == conn.tx == db
      requires forall t :: if t in byTopic then byTopic[t] == Raws(batch, t) else Raws(batch, t) == []
      modifies this`lake, conn`tx, conn`committed
      ensures ok == LoadFrom(env, feed, topics, db).Some?
      ensures ok ==> var w := LoadFrom(env, feed, topics, db).value;
        conn.committed == w.db && dlq == w.dlq
      ensures lake == old(lake) + LakeAfter(env, feed, topics, db)
      ensures ok ==> lake == old(lake) + LakeOf(feed, topics)
    {
      hide Genuine, FeedOf, Raws, LoadTo, LakeTo, Appended, RefreshFacts;
      var stamps;
      ok, dlq, stamps := LoadTopics(conn, batch, byTopic, clock, topics, feed, judge);
      if ok {
        LoadedAppendsAll(env, feed, topics, Work(db, [], []));
        if stamps != [] {
          ok := conn.RefreshFactRollups(MinStamp(stamps), MaxStamp(stamps));
        }
      }
      if ok {
        conn.Commit();
      } else {
        conn.Rollback();
      }
    }

    /** The loop over topics, up to the first statement that fails. */
    method LoadTopics(conn: Connection, ghost batch: Batch, byTopic: map<EventType, seq<string>>, clock: Clock,
                      topics: seq<EventType>, ghost feed: Feed, ghost judge: Judging)
      returns (ok: bool, dlq: seq<DlqRecord>, stamps: seq<Stamp>)
      requires Genuine(env, judge) && feed == FeedOf(env, judge, batch, clock) && conn.env == env
      requires forall t :: if t in byTopic then byTopic[t] == Raws(batch, t) else Raws(batch, t) == []
      modifies this`lake, conn`tx
      ensures ToldBy(LoadTo(env, feed, topics, |topics|, Work(old(conn.tx), [], [])), ok, conn.tx, dlq, stamps)
      ensures lake == old(lake) + LakeAfter(env, feed, topics, old(conn.tx))
    {
      hide Genuine, FeedOf, FeedsTopic, Raws, TopicWork, Appends, AllFit, Unique, LakeRows;
      ghost var start := Work(conn.tx, [], []);
      ok, dlq, stamps := true, [], [];
      for i := 0 to |topics|
        modifies this`lake, conn`tx
        invariant ok && LoadTo(env, feed, topics, i, start) == Some(Work(conn.tx, dlq, stamps))
        invariant lake == old(lake) + LakeTo(feed, topics, i)
      {
        TopicStep(env, feed, topics, i, start, old(lake));
        var t := topics[i];
        var raws := if t in byTopic then byTopic[t] else [];
        FeedOfFeeds(env, judge, batch, clock, t);
        ok, dlq, stamps := ProcessTopic(conn, clock, raws, t, dlq, stamps, feed, judge);
        if !ok {
          return;
        }
      }
      LoadedAppendsAll(env, feed, topics, start);
    }

    /** The body of the loop over topics. */
    method ProcessTopic(conn: Connection, clock: Clock, raws: seq<string>, t: EventType,
                        dlqIn: seq<DlqRecord>, stampsIn: seq<Stamp>, ghost feed: Feed, ghost judge: Judging)
      returns (ok: bool, dlq: seq<DlqRecord>, stamps: seq<Stamp>)
      requires Genuine(env, judge) && conn.env == env && FeedsTopic(env, judge, t, raws, clock, feed)
      modifies this`lake, conn`tx
      ensures ToldBy(TopicWork(env, feed, t, Work(old(conn.tx), dlqIn, stampsIn)), ok, conn.tx, dlq, stamps)
      ensures lake == old(lake) + Appends(feed, t)
    {
      var valid;
      valid, dlq := Validate(env, judge, t, raws, clock, dlqIn);
      ok, dlq, stamps := SinkTopic(conn, t, valid, dlqIn, dlq, stampsIn, |raws|, clock, feed);
    }

    method SinkTopic(conn: Connection, t: EventType, valid: seq<Event>, ghost dlqBefore: seq<DlqRecord>,
                     dlqIn: seq<DlqRecord>, stampsIn: seq<Stamp>, seen: nat, clock: Clock, ghost feed: Feed)
      returns (ok: bool, dlq: seq<DlqRecord>, stamps: seq<Stamp>)
      requires conn.env == env && valid == feed.good(t) && dlqIn == dlqBefore + feed.bad(t)
      requires feed.late(t) == LateAfter(clock, t, seen)
      modifies this`lake, conn`tx
      ensures ToldBy(TopicWork(env, feed, t, Work(old(conn.tx), dlqBefore, stampsIn)), ok, conn.tx, dlq, stamps)
      ensures lake == old(lake) + Appends(feed, t)
    {
      ok, dlq, stamps := true, dlqIn, stampsIn;
      var events := DedupeLoop(valid, EventId());
      if events == [] {
        assert AllFit(events) && lake + LakeRows(t, events) == lake;
        return;
      }
      ok := WriteLake(t, events);
      if !ok {
        assert lake + [] == lake;
        return;
      }
      var unknown;
      ok, unknown := SinkEvents(conn, t, events);
      if ok {
        dlq := dlq + Referential(env, t, unknown, LateAfter(clock, t, seen));
        stamps := stamps + Stamps(Remaining(events, unknown));
      }
    }

    method SinkEvents(conn: Connection, t: EventType, events: seq<Event>) returns (ok: bool, unknown: seq<Event>)
      requires conn.env == env
      modifies conn`tx
      ensures ok == Sink(env, t, old(conn.tx), events).Some?
      ensures ok ==> Sink(env, t, old(conn.tx), events) == Some(Sunk(conn.tx, unknown))
    {
      unknown := [];
      if t == SubscriberCreated {
        ok := conn.UpsertSubscribers(events);
      } else if t == TowerStatus {
        ok := conn.UpdateTowerStatus(events);
      } else {
        ok, unknown := conn.InsertFacts(t, events);
      }
    }
  }

  /** Texts that do not decode, or do not conform, are skipped. */
  method CollectDlqRecords(env: Env, raws: seq<string>) returns (records: seq<Fields>)
    ensures records == ReadAll(env, raws)
  {
    records := [];
    for i := 0 to |raws|
      invariant records == ReadAll(env, raws[..i])
    {
      assert raws[..i + 1][..i] == raws[..i];
      var event := env.parse(raws[i]);
      if event.None? {
        continue;
      }
      var violations := SchemaViolations(DLQ_FIELDS, event.value);
      if violations != [] {
        continue;
      }
      records := records + [event.value.fields];
    }
    assert raws[..|raws|] == raws;
  }

  /** The dead-letter query: one batch of topic texts, in a transaction of its own. */
  class DlqQuery {
    const env: Env
    var db: Db

    constructor (env: Env, db: Db)
      ensures this.env == env && this.db == db
    {
      this.env := env;
      this.db := db;
    }

    method ProcessDlqBatch(raws: seq<string>) returns (ok: bool)
      modifies this`db
      ensures ok == LoadDlq(env, raws, old(db)).Some?
      ensures db == if ok then LoadDlq(env, raws, old(db)).value else old(db)
    {
      hide InsertDlq, RefreshOne, Violations;
      var fields := CollectDlqRecords(env, raws);
      ReadConforms(env, raws);
      if fields == [] {
        return true;
      }
      var conn: Connection := new Connection(env, db);
      var read := RecordsOf(env, fields);
      if read.None? {
        conn.Rollback();
        return false;
      }
      var records := read.value;
      var unique := DedupeLoop(records, DlqRecordId());
      ok := conn.InsertDlqRecords(unique);
      if ok {
        ok := conn.RefreshDlqRollups(MinStamp(Times(records)), MaxStamp(Times(records)));
      }
      if ok {
        conn.Commit();
        db := conn.committed;
      } else {
        conn.Rollback();
      }
    }
  }

  /** The outcome of a step agrees with the function that specifies it. */
  ghost predicate ToldBy(spec: Option<Work>, ok: bool, tx: Db, dlq: seq<DlqRecord>, stamps: seq<Stamp>) {
    ok == spec.Some? && (ok ==> spec == Some(Work(tx, dlq, stamps)))
  }

  /** The feed's part for one topic is what validating the topic's records gives. */
  ghost predicate FeedsTopic(env: Env, judge: Judging, t: EventType, raws: seq<string>, clock: Clock, feed: Feed) {
    && feed.good(t) == Accepted(judge, t, raws, clock)
    && feed.bad(t) == Rejected(env, judge, t, raws, clock)
    && feed.late(t) == LateAfter(clock, t, |raws|)
  }

  lemma FeedOfFeeds(env: Env, judge: Judging, batch: Batch, clock: Clock, t: EventType)
    ensures FeedsTopic(env, judge, t, Raws(batch, t), clock, FeedOf(env, judge, batch, clock))
  {
  }

  /** The loop over topics follows LoadTo and LakeAfter, in success and in failure. */
  lemma TopicStep(env: Env, feed: Feed, topics: seq<EventType>, i: nat, start: Work, lake: seq<LakeRow>)
    requires i < |topics| && LoadTo(env, feed, topics, i, start).Some?
    ensures LoadTo(env, feed, topics, i + 1, start)
         == TopicWork(env, feed, topics[i], LoadTo(env, feed, topics, i, start).value)
    ensures LoadTo(env, feed, topics, i + 1, start).Some? ==>
      lake + LakeTo(feed, topics, i) + Appends(feed, topics[i]) == lake + LakeTo(feed, topics, i + 1)
    ensures LoadTo(env, feed, topics, i + 1, start).None? ==>
      && LoadTo(env, feed, topics, |topics|, start).None?
      && lake + LakeTo(feed, topics, i) + Appends(feed, topics[i])
           == lake + LakeTo(feed, topics, Appended(env, feed, topics, |topics|, start))
  {
    hide TopicWork, LakeRows, Unique, AllFit;
    var t := topics[i];
    if TopicWork(env, feed, t, LoadTo(env, feed, topics, i, start).value).Some? {
      WorkedFits(env, feed, t, LoadTo(env, feed, topics, i, start).value);
    }
    assert lake + LakeTo(feed, topics, i) + [] == lake + LakeTo(feed, topics, i);
    assert lake + LakeTo(feed, topics, i) + LakeRows(t, Unique(feed, t))
        == lake + (LakeTo(feed, topics, i) + LakeRows(t, Unique(feed, t)));
    if LoadTo(env, feed, topics, i + 1, start).None? {
      FailsFrom(env, feed, topics, i + 1, |topics|, start);
    }
  }

  lemma WorkedFits(env: Env, feed: Feed, t: EventType, w: Work)
    requires TopicWork(env, feed, t, w).Some?
    ensures AllFit(Unique(feed, t))
  {
    hide Sink, Unique;
  }

  lemma {:induction false} FailsFrom(env: Env, feed: Feed, topics: seq<EventType>, k: nat, n: nat, w: Work)
    requires k <= n <= |topics| && LoadTo(env, feed, topics, k, w).None?
    ensures LoadTo(env, feed, topics, n, w).None?
    ensures Appended(env, feed, topics, n, w) == Appended(env, feed, topics, k, w)
    decreases n
  {
    hide TopicWork, AllFit, Unique;
    if k < n {
      FailsFrom(env, feed, topics, k, n - 1, w);
    }
  }

  /** A run that loads every topic appends every topic. */
  lemma LoadedAppendsAll(env: Env, feed: Feed, topics: seq<EventType>, w: Work)
    requires LoadTo(env, feed, topics, |topics|, w).Some?
    ensures Appended(env, feed, topics, |topics|, w) == |topics|
  {
    hide TopicWork, Unique, AllFit;
    var n := |topics|;
    if n > 0 {
      WorkedFits(env, feed, topics[n - 1], LoadTo(env, feed, topics, n - 1, w).value);
    }
  }
}
