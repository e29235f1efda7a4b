/** Where warehouse rows come from and where accepted events end up: every row traces
    back to a lake row, and a load puts every event in place or reports it. */
module Provenance {
  import opened Base
  import opened Schemas
  import opened Catalog
  import opened Events
  import opened Towers
  import opened Warehouse
  import opened Batches
  import opened Records
  import opened Processor

  // ----- inner joins -----

  /** The seeded dimensions hold at least the catalog the rules check against. */
  ghost predicate SeedsMatch(seeds: Seeds) {
    && (forall tower :: OneOf(tower, TOWER_IDS) ==> tower in seeds.towers)
    && (forall code :: code in BUNDLE_PRICES ==> code in seeds.bundles)
  }

  /** Inner joins drop no accepted event. */
  lemma AcceptedJoins(env: Env, seeds: Seeds, e: Event)
    requires SeedsMatch(seeds) && Clean(env, e.body)
    ensures Joins(seeds, e)
  {
  }

  lemma OneUpdate(e: Event, id: string, row: TowerRow)
    requires IsUpdateOf(e, id, row)
    ensures Updates([e]) == [Update(id, row)] && WriteAll(map[], Updates([e])) == map[id := row]
  {
    var u := Update(id, row);
    assert [e][..0] == [] && [u][..0] == [];
    assert Updates([e]) == [] + [u] == [u];
    assert WriteAll(map[], [u]) == Write(WriteAll(map[], [u][..0]), u);
  }

  /** The tower table takes an accepted event exactly when its technology has at most eight
      characters and its number of devices fits 32 bits. */
  lemma TowerRowFitsIff(env: Env, db: Db, e: Event)
    requires SeedsMatch(db.seeds) && Clean(env, e.body) && e.body.TowerBody?
    ensures UpdateTowers(db, Updates([e])).Some? <==> |e.body.technology| <= 8 && e.body.devices < 2_147_483_648
  {
    hide Updates, WriteAll;
    var b := e.body;
    var row := TowerRow(b.technology, b.signal, b.devices, b.status, e.ts.utc);
    OneUpdate(e, b.towerId, row);
    var rows := map[b.towerId := row];
    assert OneOf(b.towerId, TOWER_IDS);
    assert b.towerId in rows && rows[b.towerId] == row;
  }

  // ----- where an event ends up -----

  predicate IsFactTopic(t: EventType) { t != SubscriberCreated && t != TowerStatus }

  /** The event's subscriber is in the dimension, its tower has a row at least as
      new, or its fact table has its identifier. */
  ghost predicate InPlace(env: Env, db: Db, t: EventType, e: Event) {
    match t
    case SubscriberCreated => e.body.SubscriberBody? && e.body.subscriberId in db.subs
    case TowerStatus =>
      e.body.TowerBody? && e.body.towerId in db.towers && db.towers[e.body.towerId].updatedAt >= e.ts.utc
    case _ => FactOf(env, e).Some? && Key(FactOf(env, e).value) in Keys(db.facts)
  }

  ghost predicate RefReported(env: Env, records: seq<DlqRecord>, t: EventType, e: Event) {
    IsFactTopic(t) && exists r :: r in records && IsReferentialFor(env, r, t, e)
  }

  predicate IsReferentialFor(env: Env, r: DlqRecord, t: EventType, e: Event) {
    r.topic == TopicName(t) && r.reason == REFERENTIAL && r.payload == env.dumps(e.source)
  }

  ghost predicate Resolved(env: Env, db: Db, records: seq<DlqRecord>, t: EventType, e: Event) {
    InPlace(env, db, t, e) || RefReported(env, records, t, e)
  }

  lemma ResolvedGrows(env: Env, a: Db, b: Db, ra: seq<DlqRecord>, rb: seq<DlqRecord>, t: EventType, e: Event)
    requires Resolved(env, a, ra, t, e) && Grows(a, b) && forall r :: r in ra ==> r in rb
    ensures Resolved(env, b, rb, t, e)
  {
    assert Keys(a.facts) <= Keys(b.facts);
  }

  lemma {:induction false} UnknownIsReferential(env: Env, t: EventType, unknown: seq<Event>, late: nat -> int, e: Event)
    requires e in unknown && IsFactTopic(t)
    ensures RefReported(env, Referential(env, t, unknown, late), t, e)
  {
    var n := |unknown| - 1;
    if unknown[n] == e {
      var r := MakeDlq(env, TopicName(t), REFERENTIAL, env.dumps(e.source), late(n));
      assert Referential(env, t, unknown, late)[|Referential(env, t, unknown[..n], late)|] == r;
      assert IsReferentialFor(env, r, t, e);
    } else {
      UnknownIsReferential(env, t, unknown[..n], late, e);
      var r :| r in Referential(env, t, unknown[..n], late) && IsReferentialFor(env, r, t, e);
      assert r in Referential(env, t, unknown, late);
    }
  }

  /** What a topic's step reports: its rejections, and every event that is unknown
      even to the subscribers of the finished load. */
  ghost predicate TopicReported(env: Env, feed: Feed, t: EventType, w: Work) {
    && (forall r :: r in feed.bad(t) ==> r in w.dlq)
    && (IsFactTopic(t) ==> forall e :: e in Unique(feed, t) && SubscriberOf(e) !in w.db.subs ==> RefReported(env, w.dlq, t, e))
  }

  lemma TopicReports(env: Env, feed: Feed, t: EventType, w: Work)
    requires TopicWork(env, feed, t, w).Some?
    ensures TopicReported(env, feed, t, TopicWork(env, feed, t, w).value)
    ensures w.dlq <= TopicWork(env, feed, t, w).value.dlq
  {
    hide UpsertSubs, LatestStorable, WriteAll, InsertAll, Stamps, Remaining, AllFit, Dedupe, IsReferentialFor;
    var w', events := TopicWork(env, feed, t, w).value, Unique(feed, t);
    if events != [] && IsFactTopic(t) {
      var unknown := Sink(env, t, w.db, events).value.unknown;
      assert unknown == Unknown(w.db.subs, events);
      KnownOrUnknown(w.db.subs, events);
      var referential := Referential(env, t, unknown, feed.late(t));
      forall e | e in events && SubscriberOf(e) !in w'.db.subs ensures RefReported(env, w'.dlq, t, e) {
        UnknownIsReferential(env, t, unknown, feed.late(t), e);
        var r :| r in referential && IsReferentialFor(env, r, t, e);
        assert r in w'.dlq;
      }
    }
  }

  lemma TopicReportedGrows(env: Env, feed: Feed, t: EventType, w: Work, w': Work)
    requires TopicReported(env, feed, t, w) && w.dlq <= w'.dlq && SubsExtend(w.db.subs, w'.db.subs)
    ensures TopicReported(env, feed, t, w')
  {
    if IsFactTopic(t) {
      forall e | e in Unique(feed, t) && SubscriberOf(e) !in w'.db.subs ensures RefReported(env, w'.dlq, t, e) {
        assert RefReported(env, w.dlq, t, e);
        var r :| r in w.dlq && IsReferentialFor(env, r, t, e);
        assert r in w'.dlq;
      }
    }
  }

  lemma {:induction false} TopicsReport(env: Env, feed: Feed, topics: seq<EventType>, k: nat, w: Work)
    requires k <= |topics| && LoadTo(env, feed, topics, k, w).Some?
    ensures forall i :: 0 <= i < k ==> TopicReported(env, feed, topics[i], LoadTo(env, feed, topics, k, w).value)
    ensures w.dlq <= LoadTo(env, feed, topics, k, w).value.dlq
    decreases k
  {
    hide TopicWork, TopicReported;
    if k > 0 {
      var mid, w' := LoadTo(env, feed, topics, k - 1, w).value, LoadTo(env, feed, topics, k, w).value;
      TopicsReport(env, feed, topics, k - 1, w);
      TopicReports(env, feed, topics[k - 1], mid);
      TopicEffect(env, feed, topics[k - 1], mid);
      forall i | 0 <= i < k ensures TopicReported(env, feed, topics[i], w') {
        if i < k - 1 {
          TopicReportedGrows(env, feed, topics[i], mid, w');
        }
      }
    }
  }

  /** Accepted events that share an identifier are the same event. */
  ghost predicate IdsNameEvents(feed: Feed) {
    forall t, a, b :: a in feed.good(t) && b in feed.good(t) && a.id == b.id ==> a == b
  }

  lemma UniqueKeepsAll(feed: Feed, t: EventType, e: Event)
    requires IdsNameEvents(feed) && e in feed.good(t)
    ensures e in Unique(feed, t)
  {
    var xs, id := feed.good(t), EventId();
    DedupeIds(xs, id);
    var j :| 0 <= j < |xs| && xs[j] == e;
    assert id(xs[j]) in Ids(xs, id);
    var kept := Dedupe(xs, id);
    var i :| 0 <= i < |kept| && id(kept[i]) == id(e);
    assert kept[i] in feed.good(t) && kept[i].id == e.id;
  }

  lemma {:induction false} UpdatesOf(events: seq<Event>, e: Event)
    requires e in events && e.body.TowerBody?
    ensures var b := e.body;
      Update(b.towerId, TowerRow(b.technology, b.signal, b.devices, b.status, e.ts.utc)) in Updates(events)
  {
    if events[|events| - 1] != e {
      UpdatesOf(events[..|events| - 1], e);
    }
  }

  /** After a load every accepted event of every topic is in place, or reported as
      referring to an unknown subscriber. */
  lemma LoadResolves(env: Env, feed: Feed, topics: seq<EventType>, db: Db, i: nat, e: Event)
    requires SubscribersFirst(topics) && LoadTo(env, feed, topics, |topics|, Work(db, [], [])).Some?
    requires IdsNameEvents(feed) && i < |topics| && e in feed.good(topics[i]) && TypeOf(e.body) == topics[i]
    requires Joins(db.seeds, e)
    ensures var w := LoadTo(env, feed, topics, |topics|, Work(db, [], [])).value;
      Resolved(env, w.db, w.dlq, topics[i], e)
  {
    var start, t := Work(db, [], []), topics[i];
    var w := LoadTo(env, feed, topics, |topics|, start).value;
    LoadEffectTo(env, feed, topics, |topics|, start);
    TopicsSettle(env, feed, topics, |topics|, start);
    TopicsReport(env, feed, topics, |topics|, start);
    UniqueKeepsAll(feed, t, e);
    assert Settled(env, w.db, w.db.subs, t, Unique(feed, t)) && TopicReported(env, feed, t, w);
    if t == TowerStatus {
      UpdatesOf(Unique(feed, t), e);
    } else if IsFactTopic(t) && SubscriberOf(e) in w.db.subs {
      assert Landed(env, w.db.seeds, w.db.facts, e);
    }
  }

  // ----- where a row comes from -----

  ghost predicate FactTraced(env: Env, lake: seq<LakeRow>, seeds: Seeds, f: Fact) {
    exists l :: l in lake && l.t == FactTable(f.detail) && FactOf(env, l.event) == Some(f) && Joins(seeds, l.event)
  }

  ghost predicate SubTraced(lake: seq<LakeRow>, id: int, row: SubRow) {
    exists l :: l in lake && l.t == SubscriberCreated && SubRowOf(l.event, id, row)
  }

  predicate SubRowOf(e: Event, id: int, row: SubRow) {
    e.body == SubscriberBody(id, row.msisdn, row.plan, row.province) && e.ts.utc == row.createdAt
  }

  ghost predicate TowerTraced(lake: seq<LakeRow>, id: string, row: TowerRow) {
    exists l :: l in lake && l.t == TowerStatus && IsUpdateOf(l.event, id, row)
  }

  predicate IsUpdateOf(e: Event, id: string, row: TowerRow) {
    e.body == TowerBody(id, row.technology, row.signal, row.devices, row.status) && e.ts.utc == row.updatedAt
  }

  ghost predicate SubsFrom(lake: seq<LakeRow>, subs: SubTable) {
    forall id :: id in subs ==> SubTraced(lake, id, subs[id])
  }

  ghost predicate TowersFrom(lake: seq<LakeRow>, towers: TowerTable) {
    forall id :: id in towers ==> TowerTraced(lake, id, towers[id])
  }

  ghost predicate FactsFrom(env: Env, lake: seq<LakeRow>, seeds: Seeds, facts: seq<Fact>) {
    forall f :: f in facts ==> FactTraced(env, lake, seeds, f)
  }

  /** Every row of the dimension, the fact tables and the tower table is the row of
      an event that is in the lake. */
  ghost predicate Traced(env: Env, db: Db, lake: seq<LakeRow>) {
    FactsFrom(env, lake, db.seeds, db.facts) && SubsFrom(lake, db.subs) && TowersFrom(lake, db.towers)
  }

  lemma TracedGrows(env: Env, db: Db, lake: seq<LakeRow>, more: seq<LakeRow>)
    requires Traced(env, db, lake)
    ensures Traced(env, db, lake + more)
  {
    var all := lake + more;
    assert forall l :: l in lake ==> l in all;
    forall f | f in db.facts ensures FactTraced(env, all, db.seeds, f) {
      assert FactTraced(env, lake, db.seeds, f);
    }
    forall id | id in db.subs ensures SubTraced(all, id, db.subs[id]) {
      assert SubTraced(lake, id, db.subs[id]);
    }
    forall id | id in db.towers ensures TowerTraced(all, id, db.towers[id]) {
      assert TowerTraced(lake, id, db.towers[id]);
    }
  }

  ghost predicate InLake(lake: seq<LakeRow>, t: EventType, events: seq<Event>) {
    forall e :: e in events ==> LakeRow(t, e) in lake
  }

  lemma {:induction false} SubsTraced(subs: SubTable, events: seq<Event>, lake: seq<LakeRow>)
    requires UpsertSubs(subs, events).Some? && InLake(lake, SubscriberCreated, events)
    requires SubsFrom(lake, subs)
    ensures SubsFrom(lake, UpsertSubs(subs, events).value)
  {
    if events != [] {
      var n := |events| - 1;
      var e := events[n];
      assert e in events;
      SubsTraced(subs, events[..n], lake);
      var before, after := UpsertSubs(subs, events[..n]).value, UpsertSubs(subs, events).value;
      forall id | id in after ensures SubTraced(lake, id, after[id]) {
        if id !in before {
          assert LakeRow(SubscriberCreated, e) in lake && SubRowOf(e, id, after[id]);
        }
      }
    }
  }

  lemma WriteTraced(towers: TowerTable, u: Update, lake: seq<LakeRow>)
    requires TowersFrom(lake, towers) && TowerTraced(lake, u.towerId, u.row)
    ensures TowersFrom(lake, Write(towers, u))
  {
    forall id | id in Write(towers, u) ensures TowerTraced(lake, id, Write(towers, u)[id]) {
      if id in towers && Write(towers, u)[id] == towers[id] {
        assert TowerTraced(lake, id, towers[id]);
      }
    }
  }

  lemma {:induction false} TowersTraced(towers: TowerTable, events: seq<Event>, lake: seq<LakeRow>)
    requires InLake(lake, TowerStatus, events) && TowersFrom(lake, towers)
    ensures TowersFrom(lake, WriteAll(towers, Updates(events)))
  {
    if events != [] {
      var n := |events| - 1;
      var e, us := events[n], Updates(events[..n]);
      assert e in events;
      TowersTraced(towers, events[..n], lake);
      if e.body.TowerBody? {
        var b := e.body;
        var u := Update(b.towerId, TowerRow(b.technology, b.signal, b.devices, b.status, e.ts.utc));
        assert LakeRow(TowerStatus, e) in lake && IsUpdateOf(e, u.towerId, u.row);
        WriteTraced(WriteAll(towers, us), u, lake);
        assert Updates(events) == us + [u] && (us + [u])[..|us|] == us;
      } else {
        assert Updates(events) == us + [] == us;
      }
    }
  }

  lemma FactTableOf(env: Env, e: Event)
    requires FactOf(env, e).Some?
    ensures FactTable(FactOf(env, e).value.detail) == TypeOf(e.body)
  {
  }

  lemma FactsTraced(env: Env, t: EventType, db: Db, events: seq<Event>, lake: seq<LakeRow>)
    requires IsFactTopic(t) && Sink(env, t, db, events).Some? && InLake(lake, t, events)
    requires FactsFrom(env, lake, db.seeds, db.facts)
    requires forall e :: e in events ==> TypeOf(e.body) == t
    ensures FactsFrom(env, lake, db.seeds, Sink(env, t, db, events).value.db.facts)
  {
    var known := Known(db.subs, events);
    var facts := Sink(env, t, db, events).value.db.facts;
    InsertGrows(env, db.seeds, db.facts, known);
    KnownOrUnknown(db.subs, events);
    forall f | f in facts ensures FactTraced(env, lake, db.seeds, f) {
      var i :| 0 <= i < |facts| && facts[i] == f;
      if i < |db.facts| {
        assert f in db.facts;
      } else {
        assert Sourced(env, db.seeds, facts[i], known);
        var e :| e in known && Joins(db.seeds, e) && FactOf(env, e) == Some(f) && DateKnown(f.ts);
        FactTableOf(env, e);
        assert LakeRow(t, e) in lake;
      }
    }
  }

  lemma SinkTraced(env: Env, t: EventType, db: Db, events: seq<Event>, lake: seq<LakeRow>)
    requires Sink(env, t, db, events).Some? && Traced(env, db, lake) && InLake(lake, t, events)
    requires forall e :: e in events ==> TypeOf(e.body) == t
    ensures Traced(env, Sink(env, t, db, events).value.db, lake)
  {
    if t == SubscriberCreated {
      SubsTraced(db.subs, events, lake);
    } else if t == TowerStatus {
      TowersTraced(db.towers, events, lake);
    } else {
      FactsTraced(env, t, db, events, lake);
    }
  }
}
