/** The events query and the dead-letter query on one warehouse, statement by
    statement: they own different tables, so every interleaving is serial. A rollup
    shared by two writers would not be safe. */
module Concurrency {
  import opened Base
  import opened Schemas
  import opened Events
  import opened Rollups
  import opened Towers
  import opened Warehouse
  import opened Batches
  import opened Dlq

  datatype Query = EventsQuery | DlqQuery

  /** The statements the two queries send. A refresh is two of them. */
  datatype Statement =
    | SinkTopic(t: EventType, events: seq<Event>)
    | StoreRecords(records: seq<DlqRecord>)
    | DeleteWindow(rollup: Rollup, w: Window)
    | InsertWindow(rollup: Rollup, w: Window)

  /** The query that writes a rollup. */
  function OwnerOfTable(r: Rollup): Query { if r == DlqMinute then DlqQuery else EventsQuery }

  function Owner(s: Statement): Query {
    match s
    case SinkTopic(_, _) => EventsQuery
    case StoreRecords(_) => DlqQuery
    case DeleteWindow(r, _) => OwnerOfTable(r)
    case InsertWindow(r, _) => OwnerOfTable(r)
  }

  function Run(env: Env, s: Statement, db: Db): Option<Db> {
    match s
    case SinkTopic(t, events) =>
      (match Sink(env, t, db, events)
       case None => None
       case Some(sunk) => Some(sunk.db))
    case StoreRecords(records) =>
      (match InsertDlq(env, db.dlq, records)
       case None => None
       case Some(rows) => Some(db.(dlq := rows)))
    case DeleteWindow(r, w) => Some(db.(agg := Delete(db.agg, r, w)))
    case InsertWindow(r, w) =>
      match InsertRows(db.agg, GroupBy(Select(Source(db, r), r, w)))
      case None => None
      case Some(agg) => Some(db.(agg := agg))
  }

  // ----- what each query owns -----

  function RowsOf(agg: Agg, q: Query): Agg {
    map key | key in agg && (TableOf(key.group) == DlqMinute <==> q == DlqQuery) :: agg[key]
  }

  /** The two states agree on every table the query owns. */
  ghost predicate Agree(q: Query, a: Db, b: Db) {
    && a.seeds == b.seeds && RowsOf(a.agg, q) == RowsOf(b.agg, q)
    && match q
       case EventsQuery => a.subs == b.subs && a.towers == b.towers && a.facts == b.facts
       case DlqQuery => a.dlq == b.dlq
  }

  function Other(q: Query): Query { if q == EventsQuery then DlqQuery else EventsQuery }

  /** The tables of `q` from the first state, the rest from the second. */
  function Blend(q: Query, mine: Db, rest: Db): Db {
    match q
    case EventsQuery => mine.(dlq := rest.dlq, agg := RowsOf(mine.agg, q) + RowsOf(rest.agg, Other(q)))
    case DlqQuery => rest.(dlq := mine.dlq, agg := RowsOf(rest.agg, Other(q)) + RowsOf(mine.agg, q))
  }

  lemma BlendAgrees(q: Query, mine: Db, rest: Db)
    requires mine.seeds == rest.seeds
    ensures Agree(q, Blend(q, mine, rest), mine) && Agree(Other(q), Blend(q, mine, rest), rest)
  {
    var b := Blend(q, mine, rest);
    assert RowsOf(b.agg, q) == RowsOf(mine.agg, q);
    assert RowsOf(b.agg, Other(q)) == RowsOf(rest.agg, Other(q));
  }

  lemma AgreeOnAll(a: Db, b: Db)
    requires Agree(EventsQuery, a, b) && Agree(DlqQuery, a, b)
    ensures a == b
  {
    var x, y := EventsQuery, DlqQuery;
    assert a.agg == RowsOf(a.agg, x) + RowsOf(a.agg, y);
    assert b.agg == RowsOf(b.agg, x) + RowsOf(b.agg, y);
  }

  /** A statement reads and writes its owner's tables only: on states that agree on
      them it has the same outcome, and it leaves the other query's tables alone. */
  ghost predicate Framed(env: Env, s: Statement, a: Db, b: Db) {
    var q := Owner(s);
    && Run(env, s, a).Some? == Run(env, s, b).Some?
    && (Run(env, s, a).Some? ==>
          Agree(q, Run(env, s, a).value, Run(env, s, b).value) && Agree(Other(q), a, Run(env, s, a).value))
  }

  lemma StatementsAreFramed(env: Env, s: Statement, a: Db, b: Db)
    requires Agree(Owner(s), a, b)
    ensures Framed(env, s, a, b)
  {
    hide InsertDlq, Sink, RowsOf, GroupBy, Select, Delete, FactItems, DlqItems;
    match s
    case SinkTopic(t, events) => SinkFramed(env, t, events, a, b);
    case StoreRecords(records) =>
    case DeleteWindow(r, w) => DeleteFramed(r, w, a.agg, b.agg);
    case InsertWindow(r, w) =>
      assert Source(a, r) == Source(b, r);
      InsertFramed(GroupBy(Select(Source(a, r), r, w)), r, w, Source(a, r), a.agg, b.agg);
  }

  lemma SinkFramed(env: Env, t: EventType, events: seq<Event>, a: Db, b: Db)
    requires Agree(EventsQuery, a, b)
    ensures Sink(env, t, a, events).Some? == Sink(env, t, b, events).Some?
    ensures Sink(env, t, a, events).Some? ==>
      var x, y := Sink(env, t, a, events).value.db, Sink(env, t, b, events).value.db;
      Agree(EventsQuery, x, y) && Agree(DlqQuery, a, x)
  {
    hide InsertAll, UpsertSubs, WriteAll, LatestStorable, Known, Unknown, Updates, RowsOf;
  }

  lemma DeleteFramed(r: Rollup, w: Window, a: Agg, b: Agg)
    requires RowsOf(a, OwnerOfTable(r)) == RowsOf(b, OwnerOfTable(r))
    ensures RowsOf(Delete(a, r, w), OwnerOfTable(r)) == RowsOf(Delete(b, r, w), OwnerOfTable(r))
    ensures RowsOf(Delete(a, r, w), Other(OwnerOfTable(r))) == RowsOf(a, Other(OwnerOfTable(r)))
  {
    var q := OwnerOfTable(r);
    forall key ensures key in RowsOf(Delete(a, r, w), q) <==> key in RowsOf(Delete(b, r, w), q) {
      assert key in RowsOf(a, q) <==> key in RowsOf(b, q);
    }
    forall key | key in RowsOf(Delete(a, r, w), q) ensures a[key] == b[key] {
      assert key in RowsOf(a, q) && RowsOf(a, q)[key] == RowsOf(b, q)[key];
    }
  }

  lemma {:induction false} SelectedTable(items: seq<Item>, t: Rollup, w: Window)
    ensures forall x :: x in Select(items, t, w) ==> TableOf(x.group) == t
  {
    if items != [] {
      SelectedTable(items[..|items| - 1], t, w);
    }
  }

  lemma InsertFramed(rows: Agg, r: Rollup, w: Window, items: seq<Item>, a: Agg, b: Agg)
    requires rows == GroupBy(Select(items, r, w)) && RowsOf(a, OwnerOfTable(r)) == RowsOf(b, OwnerOfTable(r))
    ensures (a.Keys !! rows.Keys) <==> (b.Keys !! rows.Keys)
    ensures RowsOf(a + rows, OwnerOfTable(r)) == RowsOf(b + rows, OwnerOfTable(r))
    ensures RowsOf(a + rows, Other(OwnerOfTable(r))) == RowsOf(a, Other(OwnerOfTable(r)))
  {
    hide GroupBy, Select, RowsOf;
    GroupedTable(items, r, w);
    RowsAdded(rows, OwnerOfTable(r), r, a);
    RowsAdded(rows, OwnerOfTable(r), r, b);
  }

  lemma GroupedTable(items: seq<Item>, r: Rollup, w: Window)
    ensures forall key :: key in GroupBy(Select(items, r, w)) ==> TableOf(key.group) == r
  {
    SelectedTable(items, r, w);
  }

  /** Adding rows of one table only concerns the query that owns it. */
  lemma RowsAdded(rows: Agg, q: Query, r: Rollup, a: Agg)
    requires q == OwnerOfTable(r) && forall key :: key in rows ==> TableOf(key.group) == r
    ensures RowsOf(a + rows, q) == RowsOf(a, q) + rows && RowsOf(a + rows, Other(q)) == RowsOf(a, Other(q))
    ensures (a.Keys !! rows.Keys) <==> (RowsOf(a, q).Keys !! rows.Keys)
  {
    OwnRows(rows, q, r, a);
    assert RowsOf(a + rows, Other(q)) == RowsOf(a, Other(q));
    assert RowsOf(a + rows, q) == RowsOf(a, q) + rows;
  }

  lemma OwnRows(rows: Agg, q: Query, r: Rollup, a: Agg)
    requires q == OwnerOfTable(r) && forall key :: key in rows ==> TableOf(key.group) == r
    ensures (a.Keys !! rows.Keys) <==> (RowsOf(a, q).Keys !! rows.Keys)
  {
    forall key | key in rows ensures key in a <==> key in RowsOf(a, q) {
      assert TableOf(key.group) == r;
    }
  }

  // ----- the two queries as a machine -----

  /** A transaction: none open, open with its own uncommitted changes, or failed. */
  datatype Tx = Closed | Open(own: Db) | Failed

  /** The committed warehouse and each query's transaction. */
  datatype Shared = Shared(db: Db, events: Tx, dlq: Tx)

  /** Send a statement; end the transaction, committing it unless it failed; or crash. */
  datatype Action = Send(s: Statement) | End(q: Query) | Kill(q: Query)

  function Actor(a: Action): Query {
    match a
    case Send(s) => Owner(s)
    case End(q) => q
    case Kill(q) => q
  }

  function TxOf(s: Shared, q: Query): Tx { if q == EventsQuery then s.events else s.dlq }

  function WithTx(s: Shared, q: Query, tx: Tx): Shared {
    if q == EventsQuery then s.(events := tx) else s.(dlq := tx)
  }

  /** What a statement sees: what is committed, and its own transaction's changes. */
  function Sees(s: Shared, q: Query): Db {
    match TxOf(s, q)
    case Open(own) => Blend(q, own, s.db)
    case _ => s.db
  }

  function Act(env: Env, s: Shared, a: Action): Shared {
    var q := Actor(a);
    match a
    case Send(stmt) =>
      if TxOf(s, q).Failed? then s
      else (match Run(env, stmt, Sees(s, q))
            case None => WithTx(s, q, Failed)
            case Some(db) => WithTx(s, q, Open(db)))
    case End(_) => WithTx(s.(db := Sees(s, q)), q, Closed)
    case Kill(_) => WithTx(s, q, Closed)
  }

  function Perform(env: Env, s: Shared, actions: seq<Action>): Shared {
    if actions == [] then s else Act(env, Perform(env, s, actions[..|actions| - 1]), actions[|actions| - 1])
  }

  function Only(q: Query, actions: seq<Action>): seq<Action> {
    if actions == [] then []
    else
      var a := actions[|actions| - 1];
      Only(q, actions[..|actions| - 1]) + if Actor(a) == q then [a] else []
  }

  /** The query cannot tell the two states apart. */
  ghost predicate Alike(q: Query, a: Shared, b: Shared) {
    && Agree(q, a.db, b.db)
    && match (TxOf(a, q), TxOf(b, q))
       case (Open(x), Open(y)) => Agree(q, x, y) && x.seeds == a.db.seeds
       case (x, y) => x == y
  }

  lemma SeesAlike(q: Query, a: Shared, b: Shared)
    requires Alike(q, a, b)
    ensures Agree(q, Sees(a, q), Sees(b, q))
    ensures Agree(Other(q), Sees(a, q), a.db)
  {
    match (TxOf(a, q), TxOf(b, q))
    case (Open(x), Open(y)) =>
      BlendAgrees(q, x, a.db);
      BlendAgrees(q, y, b.db);
    case _ =>
  }

  lemma OwnAction(env: Env, q: Query, a: Shared, b: Shared, action: Action)
    requires Alike(q, a, b) && Actor(action) == q
    ensures Alike(q, Act(env, a, action), Act(env, b, action))
  {
    hide Run, Blend, RowsOf;
    SeesAlike(q, a, b);
    if action.Send? {
      StatementsAreFramed(env, action.s, Sees(a, q), Sees(b, q));
    }
  }

  lemma OtherAction(env: Env, q: Query, a: Shared, b: Shared, action: Action)
    requires Alike(q, a, b) && Actor(action) != q && Alike(Other(q), a, a)
    ensures Alike(q, Act(env, a, action), b)
  {
    hide Run, Blend, RowsOf;
    SeesAlike(Other(q), a, a);
  }

  lemma {:induction false} EachSeesItsOwn(env: Env, start: Shared, actions: seq<Action>)
    requires start.events == Closed && start.dlq == Closed
    ensures forall q :: Alike(q, Perform(env, start, actions), Perform(env, start, Only(q, actions)))
    ensures forall q :: Alike(q, Perform(env, start, actions), Perform(env, start, actions))
  {
    hide Act, Alike;
    if actions == [] {
      forall q ensures Alike(q, start, start) {
        StartsAlike(q, start);
      }
    } else {
      var init, last := actions[..|actions| - 1], actions[|actions| - 1];
      EachSeesItsOwn(env, start, init);
      var s := Perform(env, start, init);
      forall q
        ensures Alike(q, Perform(env, start, actions), Perform(env, start, Only(q, actions)))
        ensures Alike(q, Perform(env, start, actions), Perform(env, start, actions))
      {
        OnlySnoc(q, init, last);
        assert actions == init + [last];
        assert Alike(q, s, Perform(env, start, Only(q, init))) && Alike(q, s, s) && Alike(Other(q), s, s);
        if Actor(last) == q {
          OwnAction(env, q, s, Perform(env, start, Only(q, init)), last);
          OwnAction(env, q, s, s, last);
        } else {
          OtherAction(env, q, s, Perform(env, start, Only(q, init)), last);
          OtherAction(env, q, s, s, last);
          AlikeSelf(q, Act(env, s, last), s);
        }
      }
    }
  }

  lemma StartsAlike(q: Query, s: Shared)
    requires s.events == Closed && s.dlq == Closed
    ensures Alike(q, s, s)
  {
  }

  lemma AlikeSelf(q: Query, a: Shared, b: Shared)
    requires Alike(q, a, b)
    ensures Alike(q, a, a)
  {
  }

  /** Statements of one query change nothing but its transaction. */
  lemma {:induction false} SendsOnlyOpen(env: Env, s: Shared, q: Query, actions: seq<Action>)
    requires forall i :: 0 <= i < |actions| ==> actions[i].Send? && Actor(actions[i]) == q
    ensures Perform(env, s, actions) == WithTx(s, q, TxOf(Perform(env, s, actions), q))
  {
    hide Run, Blend;
    if actions != [] {
      SendsOnlyOpen(env, s, q, actions[..|actions| - 1]);
    }
  }

  /** After a failed statement the database refuses the rest of the transaction. */
  lemma {:induction false} FailedStays(env: Env, s: Shared, q: Query, actions: seq<Action>, k: nat)
    requires k <= |actions| && TxOf(Perform(env, s, actions[..k]), q) == Failed
    requires forall i :: 0 <= i < |actions| ==> actions[i].Send? && Actor(actions[i]) == q
    ensures TxOf(Perform(env, s, actions), q) == Failed
  {
    hide Run, Blend;
    if k == |actions| {
      assert actions[..k] == actions;
    } else {
      assert actions[..|actions| - 1][..k] == actions[..k];
      FailedStays(env, s, q, actions[..|actions| - 1], k);
    }
  }

  /** A transaction that is killed, or ends with one of its statements failed, leaves
      everything as it was before its first statement. */
  lemma UnfinishedIsUndone(env: Env, s: Shared, q: Query, actions: seq<Action>, k: nat)
    requires TxOf(s, q) == Closed && k <= |actions|
    requires forall i :: 0 <= i < |actions| ==> actions[i].Send? && Actor(actions[i]) == q
    ensures Perform(env, s, actions + [Kill(q)]) == s
    ensures TxOf(Perform(env, s, actions[..k]), q) == Failed ==> Perform(env, s, actions + [End(q)]) == s
  {
    hide Run, Blend;
    SendsOnlyOpen(env, s, q, actions);
    assert (actions + [Kill(q)])[..|actions|] == actions && (actions + [End(q)])[..|actions|] == actions;
    if TxOf(Perform(env, s, actions[..k]), q) == Failed {
      FailedStays(env, s, q, actions, k);
    }
  }

  lemma OnlySnoc(q: Query, init: seq<Action>, last: Action)
    ensures Only(q, init + [last]) == if Actor(last) == q then Only(q, init) + [last] else Only(q, init)
    ensures (Only(q, init) + [last])[..|Only(q, init)|] == Only(q, init)
  {
    assert (init + [last])[..|init|] == init;
  }

  lemma OnlyNothing(q: Query)
    ensures Only(q, []) == []
  {
  }

  lemma {:induction false} OnlyConcat(q: Query, a: seq<Action>, b: seq<Action>)
    ensures Only(q, a + b) == Only(q, a) + Only(q, b)
  {
    hide Only, Actor;
    if b == [] {
      assert a + b == a;
      assert Only(q, b) == [] by { OnlyNothing(q); }
    } else {
      var init, last := b[..|b| - 1], b[|b| - 1];
      OnlyConcat(q, a, init);
      assert a + b == (a + init) + [last] && b == init + [last];
      OnlySnoc(q, a + init, last);
      OnlySnoc(q, init, last);
      assert Only(q, a) + (Only(q, init) + [last]) == Only(q, a) + Only(q, init) + [last];
    }
  }

  lemma {:induction false} OnlyOnly(q: Query, r: Query, actions: seq<Action>)
    ensures Only(q, Only(r, actions)) == if q == r then Only(q, actions) else []
  {
    hide Only, Actor;
    if actions == [] {
      OnlyNothing(q);
      OnlyNothing(r);
    } else {
      var init, last := actions[..|actions| - 1], actions[|actions| - 1];
      assert actions == init + [last];
      OnlyOnly(q, r, init);
      OnlySnoc(r, init, last);
      if Actor(last) == r {
        OnlySnoc(q, Only(r, init), last);
        OnlySnoc(q, init, last);
      } else if q == r {
        OnlySnoc(q, init, last);
      }
    }
  }

  /** Two schedules in which each query does the same, in whatever interleaving, leave
      the same warehouse. */
  lemma InterleavingIrrelevant(env: Env, db: Db, a: seq<Action>, b: seq<Action>)
    requires forall q :: Only(q, a) == Only(q, b)
    ensures Perform(env, Shared(db, Closed, Closed), a).db == Perform(env, Shared(db, Closed, Closed), b).db
  {
    hide Perform, Only;
    var start := Shared(db, Closed, Closed);
    EachSeesItsOwn(env, start, a);
    EachSeesItsOwn(env, start, b);
    var x, y := Perform(env, start, a), Perform(env, start, b);
    forall q ensures Agree(q, x.db, y.db) {
      var z := Perform(env, start, Only(q, a));
      assert Only(q, a) == Only(q, b);
      assert Alike(q, x, z) && Alike(q, y, z);
    }
    AgreeOnAll(x.db, y.db);
  }

  /** Non-interference. Any interleaving of the two queries' statements, with failures
      and crashes, ends in the state of both serial orders. */
  lemma EveryInterleavingIsSerial(env: Env, db: Db, actions: seq<Action>)
    ensures var start, x, y := Shared(db, Closed, Closed), Only(EventsQuery, actions), Only(DlqQuery, actions);
      && Perform(env, start, actions).db == Perform(env, start, x + y).db
      && Perform(env, start, actions).db == Perform(env, start, y + x).db
  {
    hide Perform, Only;
    var x, y := Only(EventsQuery, actions), Only(DlqQuery, actions);
    forall q ensures Only(q, x + y) == Only(q, actions) && Only(q, y + x) == Only(q, actions) {
      OnlyConcat(q, x, y);
      OnlyConcat(q, y, x);
      OnlyOnly(q, EventsQuery, actions);
      OnlyOnly(q, DlqQuery, actions);
    }
    InterleavingIrrelevant(env, db, actions, x + y);
    InterleavingIrrelevant(env, db, actions, y + x);
  }

  // ----- the statements of a batch -----

  /** All statements in order; None when one fails. */
  function RunAll(env: Env, stmts: seq<Statement>, db: Db): Option<Db> {
    if stmts == [] then Some(db)
    else
      match RunAll(env, stmts[..|stmts| - 1], db)
      case None => None
      case Some(d) => Run(env, stmts[|stmts| - 1], d)
  }

  function SinkStatements(feed: Feed, topics: seq<EventType>): seq<Statement> {
    if topics == [] then []
    else
      var t := topics[|topics| - 1];
      SinkStatements(feed, topics[..|topics| - 1])
      + if Unique(feed, t) == [] then [] else [SinkTopic(t, Unique(feed, t))]
  }

  function RefreshStatements(r: Rollup, w: Window): seq<Statement> { [DeleteWindow(r, w), InsertWindow(r, w)] }

  function RefreshFactStatements(w: Window): seq<Statement> {
    RefreshStatements(RevenueMinute, w) + RefreshStatements(CallsMinute, w) + RefreshStatements(DataMinute, w)
  }

  /** What the events query sends for a batch whose accepted events have these times. */
  function EventsProgram(feed: Feed, topics: seq<EventType>, stamps: seq<Stamp>): seq<Statement> {
    SinkStatements(feed, topics)
    + if stamps == [] then [] else RefreshFactStatements(MinuteParams(MinStamp(stamps), MaxStamp(stamps)))
  }

  function DlqProgram(records: seq<DlqRecord>): seq<Statement>
    requires records != []
  {
    [StoreRecords(Dedupe(records, DlqRecordId()))]
    + RefreshStatements(DlqMinute, MinuteParams(MinStamp(Times(records)), MaxStamp(Times(records))))
  }

  lemma {:induction false} RunConcat(env: Env, a: seq<Statement>, b: seq<Statement>, db: Db)
    ensures RunAll(env, a + b, db) == match RunAll(env, a, db) case None => None case Some(d) => RunAll(env, b, d)
  {
    hide Run;
    if b == [] {
      assert a + b == a;
    } else {
      var n := |b| - 1;
      RunConcat(env, a, b[..n], db);
      assert (a + b)[..|a + b| - 1] == a + b[..n];
    }
  }

  lemma RunOne(env: Env, s: Statement, db: Db)
    ensures RunAll(env, [s], db) == Run(env, s, db)
  {
    hide Run;
    assert [s][..0] == [];
  }

  lemma RunRefresh(env: Env, r: Rollup, w: Window, db: Db)
    ensures RunAll(env, RefreshStatements(r, w), db) == RefreshOne(db, r, w)
  {
    hide GroupBy, Select, Delete, FactItems, DlqItems, RunAll;
    var d := db.(agg := Delete(db.agg, r, w));
    assert [DeleteWindow(r, w), InsertWindow(r, w)] == [DeleteWindow(r, w)] + [InsertWindow(r, w)];
    RunConcat(env, [DeleteWindow(r, w)], [InsertWindow(r, w)], db);
    RunOne(env, DeleteWindow(r, w), db);
    RunOne(env, InsertWindow(r, w), d);
    assert Source(d, r) == Source(db, r);
  }

  lemma RunThree(env: Env, lo: Stamp, hi: Stamp, db: Db)
    requires RefreshFacts(db, lo, hi).Some?
    ensures var w := MinuteParams(lo, hi);
      RunAll(env, RefreshFactStatements(w), db)
        == RefreshFacts(db, lo, hi)
  {
    hide RefreshOne, RefreshStatements, RunAll;
    var w := MinuteParams(lo, hi);
    var x, y := RefreshStatements(RevenueMinute, w), RefreshStatements(CallsMinute, w);
    var z := RefreshStatements(DataMinute, w);
    RunConcat(env, x + y, z, db);
    RunConcat(env, x, y, db);
    RunRefresh(env, RevenueMinute, w, db);
    var d1 := RefreshOne(db, RevenueMinute, w).value;
    RunRefresh(env, CallsMinute, w, d1);
    RunRefresh(env, DataMinute, w, RefreshOne(d1, CallsMinute, w).value);
  }

  /** One topic's statement, if it has events, is the topic's step. */
  lemma RunTopic(env: Env, feed: Feed, t: EventType, before: seq<Statement>, start: Db, w: Work)
    requires RunAll(env, before, start) == Some(w.db) && TopicWork(env, feed, t, w).Some?
    ensures var stmts := before + if Unique(feed, t) == [] then [] else [SinkTopic(t, Unique(feed, t))];
      RunAll(env, stmts, start) == Some(TopicWork(env, feed, t, w).value.db)
  {
    hide Unique, Sink, AllFit, RunAll, Remaining, Referential, Stamps;
    if Unique(feed, t) == [] {
      assert before + [] == before;
    } else {
      RunConcat(env, before, [SinkTopic(t, Unique(feed, t))], start);
      RunOne(env, SinkTopic(t, Unique(feed, t)), w.db);
    }
  }

  lemma NoSinks(env: Env, feed: Feed, topics: seq<EventType>, db: Db)
    ensures topics[..0] == [] && RunAll(env, SinkStatements(feed, topics[..0]), db) == Some(db)
  {
  }

  lemma SinksSnoc(feed: Feed, topics: seq<EventType>, k: nat)
    requires 0 < k <= |topics|
    ensures var t := topics[k - 1];
      SinkStatements(feed, topics[..k])
        == SinkStatements(feed, topics[..k - 1]) + if Unique(feed, t) == [] then [] else [SinkTopic(t, Unique(feed, t))]
  {
    hide Unique;
    assert topics[..k][..k - 1] == topics[..k - 1] && topics[..k][k - 1] == topics[k - 1];
  }

  lemma {:induction false} RunSinks(env: Env, feed: Feed, topics: seq<EventType>, k: nat, w: Work)
    requires k <= |topics| && LoadTo(env, feed, topics, k, w).Some?
    ensures RunAll(env, SinkStatements(feed, topics[..k]), w.db) == Some(LoadTo(env, feed, topics, k, w).value.db)
    decreases k
  {
    hide Unique, TopicWork, RunAll, SinkStatements;
    if k == 0 {
      NoSinks(env, feed, topics, w.db);
    } else {
      RunSinks(env, feed, topics, k - 1, w);
      SinksSnoc(feed, topics, k);
      var mid := LoadTo(env, feed, topics, k - 1, w).value;
      RunTopic(env, feed, topics[k - 1], SinkStatements(feed, topics[..k - 1]), w.db, mid);
    }
  }

  /** Sending a batch's statements one by one is loading the batch. */
  lemma RunEventsProgram(env: Env, feed: Feed, topics: seq<EventType>, db: Db)
    requires LoadFrom(env, feed, topics, db).Some?
    ensures var w := LoadFrom(env, feed, topics, db).value;
      RunAll(env, EventsProgram(feed, topics, w.stamps), db) == Some(w.db)
  {
    hide RunAll, SinkStatements, RefreshFacts, LoadTo, RefreshStatements;
    var w := LoadTo(env, feed, topics, |topics|, Work(db, [], [])).value;
    assert topics[..|topics|] == topics;
    RunSinks(env, feed, topics, |topics|, Work(db, [], []));
    var sinks := SinkStatements(feed, topics);
    if w.stamps == [] {
      assert sinks + [] == sinks;
    } else {
      var lo, hi := MinStamp(w.stamps), MaxStamp(w.stamps);
      var win := MinuteParams(lo, hi);
      RunThree(env, lo, hi, w.db);
      RunConcat(env, sinks, RefreshFactStatements(win), db);
    }
  }

  lemma RunDlqProgram(env: Env, records: seq<DlqRecord>, db: Db)
    requires records != [] && StoreDlq(env, db, records).Some?
    ensures RunAll(env, DlqProgram(records), db) == StoreDlq(env, db, records)
  {
    hide RunAll, RefreshOne, InsertDlq, Dedupe, RefreshStatements;
    var first := StoreRecords(Dedupe(records, DlqRecordId()));
    var w := MinuteParams(MinStamp(Times(records)), MaxStamp(Times(records)));
    RunConcat(env, [first], RefreshStatements(DlqMinute, w), db);
    RunOne(env, first, db);
    RunRefresh(env, DlqMinute, w, Run(env, first, db).value);
  }

  /** A query's transaction: its statements, then the end. */
  function Transaction(q: Query, stmts: seq<Statement>): seq<Action> {
    seq(|stmts|, i requires 0 <= i < |stmts| => Send(stmts[i])) + [End(q)]
  }

  lemma {:induction false} SendAll(env: Env, q: Query, stmts: seq<Statement>, s: Shared)
    requires TxOf(s, q) == Closed && RunAll(env, stmts, s.db).Some? && forall x :: x in stmts ==> Owner(x) == q
    ensures var sends := seq(|stmts|, i requires 0 <= i < |stmts| => Send(stmts[i]));
      var s' := Perform(env, s, sends);
      && s'.db == s.db && TxOf(s', Other(q)) == TxOf(s, Other(q)) && Sees(s', q) == RunAll(env, stmts, s.db).value
      && !TxOf(s', q).Failed? && Agree(Other(q), s.db, Sees(s', q))
  {
    hide Run;
    if stmts != [] {
      var n := |stmts| - 1;
      assert stmts[n] in stmts;
      SendAll(env, q, stmts[..n], s);
      var sends := seq(|stmts|, i requires 0 <= i < |stmts| => Send(stmts[i]));
      var before := seq(n, i requires 0 <= i < n => Send(stmts[..n][i]));
      assert sends[..n] == before;
      var s1 := Perform(env, s, before);
      var seen, after := Sees(s1, q), Run(env, stmts[n], Sees(s1, q)).value;
      RunKeepsRest(env, stmts[n], seen);
      BlendBack(q, after, s.db, seen);
    }
  }

  lemma RunKeepsRest(env: Env, s: Statement, db: Db)
    requires Run(env, s, db).Some?
    ensures Agree(Other(Owner(s)), db, Run(env, s, db).value)
  {
    hide Run;
    StatementsAreFramed(env, s, db, db);
  }

  /** Own changes over what is committed are all there is to see. */
  lemma BlendBack(q: Query, after: Db, db: Db, seen: Db)
    requires Agree(Other(q), seen, after) && Agree(Other(q), db, seen)
    ensures Blend(q, after, db) == after
  {
    BlendAgrees(q, after, db);
    AgreeOnAll(Blend(q, after, db), after);
  }

  lemma TransactionCommits(env: Env, q: Query, stmts: seq<Statement>, db: Db)
    requires RunAll(env, stmts, db).Some? && forall x :: x in stmts ==> Owner(x) == q
    ensures Perform(env, Shared(db, Closed, Closed), Transaction(q, stmts)).db == RunAll(env, stmts, db).value
  {
    hide Run, RunAll;
    var start := Shared(db, Closed, Closed);
    var sends := seq(|stmts|, i requires 0 <= i < |stmts| => Send(stmts[i]));
    SendAll(env, q, stmts, start);
    assert Transaction(q, stmts)[..|stmts|] == sends;
  }

  lemma {:induction false} SinksAreOwned(feed: Feed, topics: seq<EventType>)
    ensures forall x :: x in SinkStatements(feed, topics) ==> Owner(x) == EventsQuery
  {
    hide Unique;
    if topics != [] {
      SinksAreOwned(feed, topics[..|topics| - 1]);
    }
  }

  /** One batch of each query, interleaved in any way: the events batch has exactly the
      effect it has alone on its tables, the dead-letter batch on its own, and no
      primary key is hit twice. */
  lemma InterleavedBatches(env: Env, feed: Feed, topics: seq<EventType>, records: seq<DlqRecord>, db: Db,
      actions: seq<Action>)
    requires records != [] && LoadFrom(env, feed, topics, db).Some? && StoreDlq(env, db, records).Some?
    requires Only(EventsQuery, actions)
          == Transaction(EventsQuery, EventsProgram(feed, topics, LoadFrom(env, feed, topics, db).value.stamps))
    requires Only(DlqQuery, actions) == Transaction(DlqQuery, DlqProgram(records))
    ensures Perform(env, Shared(db, Closed, Closed), actions).db
         == Blend(EventsQuery, LoadFrom(env, feed, topics, db).value.db, StoreDlq(env, db, records).value)
  {
    hide Perform, Only, Run, RunAll, LoadFrom, StoreDlq, Transaction, Blend, Alike, SinkStatements;
    var w, d := LoadFrom(env, feed, topics, db).value, StoreDlq(env, db, records).value;
    var start := Shared(db, Closed, Closed);
    EachSeesItsOwn(env, start, actions);
    RunEventsProgram(env, feed, topics, db);
    RunDlqProgram(env, records, db);
    SinksAreOwned(feed, topics);
    TransactionCommits(env, EventsQuery, EventsProgram(feed, topics, w.stamps), db);
    TransactionCommits(env, DlqQuery, DlqProgram(records), db);
    AlikeMeets(env, start, actions, w.db, d);
  }

  lemma AlikeMeets(env: Env, start: Shared, actions: seq<Action>, x: Db, y: Db)
    requires forall q :: Alike(q, Perform(env, start, actions), Perform(env, start, Only(q, actions)))
    requires Perform(env, start, Only(EventsQuery, actions)).db == x && Perform(env, start, Only(DlqQuery, actions)).db == y
    ensures Perform(env, start, actions).db == Blend(EventsQuery, x, y)
  {
    hide Perform, Only, Blend, RowsOf;
    var s := Perform(env, start, actions);
    assert Alike(EventsQuery, s, Perform(env, start, Only(EventsQuery, actions)));
    assert Alike(DlqQuery, s, Perform(env, start, Only(DlqQuery, actions)));
    assert Agree(EventsQuery, s.db, x) && Agree(DlqQuery, s.db, y);
    BlendAgrees(EventsQuery, x, y);
    AgreeOnAll(s.db, Blend(EventsQuery, x, y));
  }

  // ----- why a rollup has one writer -----

  /** A stored row knows which transaction wrote it. A DELETE takes the rows that were
      visible when it began, by version: rows written since are not among them. */
  datatype Version = Version(cell: Cell, writer: nat)
  type Rows = map<AggKey, Version>

  function DeleteVisible(rows: Rows, visible: Rows, t: Rollup, w: Window): Rows {
    map key |
      key in rows &&
      !(key in visible && visible[key] == rows[key] && TableOf(key.group) == t && w.lo <= key.minute <= w.hi) :: rows[key]
  }

  function InsertVersions(rows: Rows, added: Agg, writer: nat): Option<Rows> {
    if rows.Keys !! added.Keys then Some(rows + map key | key in added :: Version(added[key], writer)) else None
  }

  /** One writer's refresh of a window, its DELETE having begun when `visible` was committed. */
  function RefreshBy(rows: Rows, visible: Rows, items: seq<Item>, t: Rollup, w: Window, writer: nat): Option<Rows> {
    InsertVersions(DeleteVisible(rows, visible, t, w), GroupBy(Select(items, t, w)), writer)
  }

  /** The rows of the window were left by transactions before `writer`. */
  ghost predicate WrittenBefore(rows: Rows, t: Rollup, w: Window, writer: nat) {
    forall key: AggKey :: TableOf(key.group) == t && w.lo <= key.minute <= w.hi ==>
      (key in rows ==> rows[key].writer < writer)
  }

  lemma FirstRefreshSucceeds(rows: Rows, items: seq<Item>, t: Rollup, w: Window, writer: nat)
    requires Aligned(w)
    ensures RefreshBy(rows, rows, items, t, w, writer).Some?
    ensures forall key :: key in GroupBy(Select(items, t, w)) ==>
              var after := RefreshBy(rows, rows, items, t, w, writer).value; key in after && after[key].writer == writer
  {
    hide GroupBy, Select;
    GroupedTable(items, t, w);
    GroupedWindow(items, t, w);
  }

  lemma GroupedWindow(items: seq<Item>, t: Rollup, w: Window)
    requires Aligned(w)
    ensures forall key :: key in GroupBy(Select(items, t, w)) ==> w.lo <= key.minute <= w.hi
  {
    SelectedMinutes(items, t, w);
  }

  lemma {:induction false} SelectedMinutes(items: seq<Item>, t: Rollup, w: Window)
    requires Aligned(w)
    ensures forall x :: x in Select(items, t, w) ==> w.lo <= FloorMinute(x.ts) <= w.hi
  {
    if items != [] {
      SelectedMinutes(items[..|items| - 1], t, w);
      FloorBetween(items[|items| - 1].ts, w);
    }
  }

  /** Two writers refresh the same window of one rollup. If the second one's DELETE
      began before the first committed, its INSERT dies on the primary key exactly when
      the window has any source row; begun after, it succeeds. */
  lemma SharedRollupRaces(rows: Rows, items: seq<Item>, t: Rollup, w: Window, first: nat, second: nat)
    requires Aligned(w) && WrittenBefore(rows, t, w, first)
    ensures RefreshBy(rows, rows, items, t, w, first).Some?
    ensures var between := RefreshBy(rows, rows, items, t, w, first).value;
      && (RefreshBy(between, rows, items, t, w, second).None? <==> Select(items, t, w) != [])
      && RefreshBy(between, between, items, t, w, second).Some?
  {
    hide Select;
    FirstRefreshSucceeds(rows, items, t, w, first);
    var between := RefreshBy(rows, rows, items, t, w, first).value;
    FirstRefreshSucceeds(between, items, t, w, second);
    GroupedTable(items, t, w);
    GroupedWindow(items, t, w);
    var chosen := Select(items, t, w);
    if chosen != [] {
      var key := KeyOf(chosen[0]);
      assert key in KeysOf(chosen) && key in GroupBy(chosen);
      assert key in between && between[key].writer == first;
      assert key in DeleteVisible(between, rows, t, w);
    }
  }
}
