/** The dead-letter query: reading the failed-transactions topic, storing its records
    first-wins by identifier, and the rollup it owns. */
module Dlq {
  import opened Base
  import opened Schemas
  import opened Rules
  import opened Events
  import opened Rollups
  import opened Warehouse
  import opened Batches

  // ----- reading -----

  /** The fields of a topic text that is a dead-letter record; other texts are skipped. */
  function ReadDlq(env: Env, raw: string): Option<Fields> {
    match env.parse(raw)
    case None => None
    case Some(event) =>
      if Violations(DLQ_FIELDS, event) != [] then None
      else
        ViolationsEmptyIffConforms(DLQ_FIELDS, event);
        Some(event.fields)
  }

  function ReadAll(env: Env, raws: seq<string>): seq<Fields> {
    if raws == [] then []
    else
      var n := |raws| - 1;
      ReadAll(env, raws[..n]) + match ReadDlq(env, raws[n]) case None => [] case Some(e) => [e]
  }

  ghost predicate DlqFields(e: Fields) {
    && Typed(e, "event_id", StrField) && Typed(e, "source_topic", StrField)
    && Typed(e, "rejection_reason", StrField) && Typed(e, "original_payload", StrField)
  }

  lemma DlqFieldsDeclared(e: Fields)
    requires Conforms(DLQ_FIELDS, JObject(e))
    ensures DlqFields(e)
  {
    var s := DLQ_FIELDS;
    assert forall i :: 0 <= i < |s| ==> Typed(e, s[i].0, s[i].1);
    assert s[0] == ("event_id", StrField) && s[4] == ("source_topic", StrField);
    assert s[5] == ("rejection_reason", StrField) && s[6] == ("original_payload", StrField);
  }

  lemma {:induction false} ReadConforms(env: Env, raws: seq<string>)
    ensures forall e :: e in ReadAll(env, raws) ==> DlqFields(e)
  {
    if raws != [] {
      var n := |raws| - 1;
      ReadConforms(env, raws[..n]);
      if ReadDlq(env, raws[n]).Some? {
        ViolationsEmptyIffConforms(DLQ_FIELDS, env.parse(raws[n]).value);
        DlqFieldsDeclared(ReadDlq(env, raws[n]).value);
      }
    }
  }

  /** The record of conforming fields; None when its timestamp does not parse. */
  function RecordOf(env: Env, e: Fields): Option<DlqRecord>
    requires DlqFields(e)
  {
    match TimeAt(env, e)
    case None => None
    case Some(ts) =>
      Some(DlqRecord(TextOf(e, "event_id"), TextOf(e, "source_topic"), TextOf(e, "rejection_reason"),
                     TextOf(e, "original_payload"), ts))
  }

  function RecordsOf(env: Env, es: seq<Fields>): (records: Option<seq<DlqRecord>>)
    requires forall e :: e in es ==> DlqFields(e)
    ensures records.Some? ==> |records.value| == |es|
  {
    if es == [] then Some([])
    else
      var n := |es| - 1;
      match (RecordsOf(env, es[..n]), RecordOf(env, es[n]))
      case (Some(rs), Some(r)) => Some(rs + [r])
      case _ => None
  }

  /** All records of a batch of topic texts; None when a timestamp does not parse. */
  function DlqBatch(env: Env, raws: seq<string>): Option<seq<DlqRecord>> {
    ReadConforms(env, raws);
    RecordsOf(env, ReadAll(env, raws))
  }

  // ----- storing -----

  /** What the table's columns accept: a UUID, short names, and a payload that is JSON. */
  predicate Storable(env: Env, r: DlqRecord) {
    env.uuid(r.id).Some? && |r.topic| <= 64 && |r.reason| <= REASON_WIDTH && env.jsonb(r.payload)
  }

  function DlqRowOf(env: Env, r: DlqRecord): DlqRow
    requires env.uuid(r.id).Some?
  {
    DlqRow(env.uuid(r.id).value, r.topic, r.reason, r.payload, r.ts.utc)
  }

  /** The row has the record's identifier, topic, reason, payload and instant. */
  predicate RowKeeps(env: Env, row: DlqRow, r: DlqRecord) {
    && env.uuid(r.id) == Some(row.id)
    && row.topic == r.topic && row.reason == r.reason && row.payload == r.payload && row.rejectedAt == r.ts.utc
  }

  ghost predicate KeepsSome(env: Env, row: DlqRow, records: seq<DlqRecord>) {
    exists r :: r in records && Storable(env, r) && RowKeeps(env, row, r)
  }

  function RowIds(rows: seq<DlqRow>): set<nat> { set row | row in rows :: row.id }

  function InsertDlqOne(env: Env, rows: seq<DlqRow>, r: DlqRecord): Option<seq<DlqRow>> {
    if !Storable(env, r) then None
    else if env.uuid(r.id).value in RowIds(rows) then Some(rows)
    else Some(rows + [DlqRowOf(env, r)])
  }

  function InsertDlq(env: Env, rows: seq<DlqRow>, records: seq<DlqRecord>): Option<seq<DlqRow>> {
    if records == [] then Some(rows)
    else
      match InsertDlq(env, rows, records[..|records| - 1])
      case None => None
      case Some(rows') => InsertDlqOne(env, rows', records[|records| - 1])
  }

  function Times(records: seq<DlqRecord>): seq<Stamp> {
    seq(|records|, i requires 0 <= i < |records| => records[i].ts)
  }

  /** The window of minutes of a batch: from its first to its last time. */
  function DlqWindow(records: seq<DlqRecord>): Window
    requires records != []
  {
    MinuteParams(MinStamp(Times(records)), MaxStamp(Times(records)))
  }

  /** Storing a batch of records and refreshing the rollup over all their times. */
  function StoreDlq(env: Env, db: Db, records: seq<DlqRecord>): Option<Db>
    requires records != []
  {
    match InsertDlq(env, db.dlq, Dedupe(records, DlqRecordId()))
    case None => None
    case Some(rows) =>
      RefreshOne(db.(dlq := rows), DlqMinute, DlqWindow(records))
  }

  /** The transaction of one batch of the dead-letter query; None when it is rolled back. */
  function LoadDlq(env: Env, raws: seq<string>, db: Db): Option<Db> {
    match DlqBatch(env, raws)
    case None => None
    case Some(records) => if records == [] then Some(db) else StoreDlq(env, db, records)
  }

  // ----- what a batch leaves -----

  predicate DistinctIds(rows: seq<DlqRow>) {
    forall i, j | 0 <= i < j < |rows| :: rows[i].id != rows[j].id
  }

  predicate AllStorable(env: Env, records: seq<DlqRecord>) {
    forall r | r in records :: Storable(env, r)
  }

  lemma {:induction false} InsertDlqGrows(env: Env, rows: seq<DlqRow>, records: seq<DlqRecord>)
    ensures InsertDlq(env, rows, records).Some? <==> AllStorable(env, records)
    ensures AllStorable(env, records) ==>
      var after := InsertDlq(env, rows, records).value;
      && rows <= after && (DistinctIds(rows) ==> DistinctIds(after))
      && (forall i :: |rows| <= i < |after| ==> KeepsSome(env, after[i], records))
      && (forall r :: r in records ==> env.uuid(r.id).Some? && env.uuid(r.id).value in RowIds(after))
  {
    hide Storable;
    if records != [] {
      var n := |records| - 1;
      InsertDlqGrows(env, rows, records[..n]);
      assert records == records[..n] + [records[n]];
      if AllStorable(env, records[..n]) {
        InsertDlqStep(env, InsertDlq(env, rows, records[..n]).value, records[n]);
      }
    }
  }

  lemma InsertDlqStep(env: Env, rows: seq<DlqRow>, r: DlqRecord)
    ensures InsertDlqOne(env, rows, r).Some? <==> Storable(env, r)
    ensures Storable(env, r) ==>
      var after := InsertDlqOne(env, rows, r).value;
      && rows <= after <= rows + [DlqRowOf(env, r)] && (DistinctIds(rows) ==> DistinctIds(after))
      && env.uuid(r.id).Some? && env.uuid(r.id).value in RowIds(after) && RowIds(rows) <= RowIds(after)
  {
    if Storable(env, r) {
      var row, after := DlqRowOf(env, r), InsertDlqOne(env, rows, r).value;
      assert forall i :: 0 <= i < |rows| ==> rows[i].id in RowIds(rows);
      assert (rows + [row])[|rows|] == row;
      assert row.id in RowIds(after);
    }
  }

  // ----- the rollup -----

  lemma DlqItemsAppend(a: seq<DlqRow>, b: seq<DlqRow>)
    ensures DlqItems(a + b) == DlqItems(a) + DlqItems(b)
  {
    CollectAppend(a, b, (r: DlqRow) => [DlqItem(r)]);
  }

  lemma DlqItemTimes(rows: seq<DlqRow>)
    ensures forall x :: x in DlqItems(rows) ==>
              TableOf(x.group) == DlqMinute && exists i :: 0 <= i < |rows| && x == DlqItem(rows[i])
  {
    forall x | x in DlqItems(rows)
      ensures TableOf(x.group) == DlqMinute && exists i :: 0 <= i < |rows| && x == DlqItem(rows[i])
    {
      CollectSource(rows, (r: DlqRow) => [DlqItem(r)], x);
    }
  }

  /** Outside the window of its records a batch leaves the rollup's source alone. */
  lemma DlqOutside(db: Db, rows: seq<DlqRow>, w: Window)
    requires RollupsExact(db) && db.dlq <= rows && Aligned(w)
    requires forall i :: |db.dlq| <= i < |rows| ==> w.lo <= rows[i].rejectedAt < w.next
    ensures ExactOutside(db.agg, DlqItems(rows), DlqMinute, w)
  {
    var more := rows[|db.dlq|..];
    assert rows == db.dlq + more;
    DlqItemsAppend(db.dlq, more);
    DlqItemTimes(more);
    forall key: AggKey | TableOf(key.group) == DlqMinute && !(w.lo <= key.minute <= w.hi)
      ensures Lookup(db.agg, key) == View(DlqItems(rows), key)
    {
      forall x | x in DlqItems(more) ensures KeyOf(x) != key {
        var i :| 0 <= i < |more| && x == DlqItem(more[i]);
        assert more[i] == rows[|db.dlq| + i];
        FloorBetween(x.ts, w);
      }
      TallyElsewhere(DlqItems(more), key);
      TallyAppend(DlqItems(db.dlq), DlqItems(more), key);
      assert Lookup(db.agg, key) == View(Source(db, DlqMinute), key);
    }
  }

  /** Storing a batch, whatever its times: the insert went through, and nothing but the
      table and the rollup has changed. */
  lemma StoreDlqInserts(env: Env, db: Db, records: seq<DlqRecord>)
    requires records != [] && StoreDlq(env, db, records).Some?
    ensures var d := StoreDlq(env, db, records).value;
      && InsertDlq(env, db.dlq, Dedupe(records, DlqRecordId())) == Some(d.dlq)
      && d == db.(dlq := d.dlq, agg := d.agg)
  {
    hide InsertDlq, Dedupe, Refresh, Times;
  }

  /** The rows a batch adds have times within the window of its records. */
  lemma AddedInWindow(env: Env, db: Db, records: seq<DlqRecord>)
    requires records != [] && WholeMinutes(Times(records))
    requires InsertDlq(env, db.dlq, Dedupe(records, DlqRecordId())).Some?
    ensures var rows, w := InsertDlq(env, db.dlq, Dedupe(records, DlqRecordId())).value, DlqWindow(records);
      && Aligned(w) && db.dlq <= rows && forall i :: |db.dlq| <= i < |rows| ==> w.lo <= rows[i].rejectedAt < w.next
  {
    hide Storable, InsertDlq, Dedupe, MinuteParams;
    var unique, times := Dedupe(records, DlqRecordId()), Times(records);
    InsertDlqGrows(env, db.dlq, unique);
    var rows, w := InsertDlq(env, db.dlq, unique).value, DlqWindow(records);
    StampBounds(times);
    AlignedWindow(MinStamp(times), MaxStamp(times));
    forall i | |db.dlq| <= i < |rows| ensures w.lo <= rows[i].rejectedAt < w.next {
      assert KeepsSome(env, rows[i], unique);
      var r :| r in unique && Storable(env, r) && RowKeeps(env, rows[i], r);
      var j :| 0 <= j < |records| && records[j] == r;
      assert times[j] == r.ts;
    }
  }

  /** Once the insert has gone through, the refresh succeeds and every rollup is exact. */
  lemma DlqRefreshExact(db: Db, rows: seq<DlqRow>, w: Window)
    requires RollupsExact(db) && db.dlq <= rows && Aligned(w)
    requires forall i :: |db.dlq| <= i < |rows| ==> w.lo <= rows[i].rejectedAt < w.next
    ensures RefreshOne(db.(dlq := rows), DlqMinute, w).Some?
    ensures RollupsExact(RefreshOne(db.(dlq := rows), DlqMinute, w).value)
  {
    hide DlqItems, FactItems, Tally, Refresh;
    DlqOutside(db, rows, w);
    var mid := db.(dlq := rows);
    RefreshOneExact(mid, DlqMinute, w);
    var d := RefreshOne(mid, DlqMinute, w).value;
    forall key: AggKey ensures Lookup(d.agg, key) == View(Source(d, TableOf(key.group)), key) {
      assert Lookup(db.agg, key) == View(Source(db, TableOf(key.group)), key);
    }
  }

  /** Storing a batch succeeds exactly when the records it keeps are storable; then
      every rollup is exact. */
  lemma StoreDlqEffect(env: Env, db: Db, records: seq<DlqRecord>)
    requires records != [] && RollupsExact(db) && WholeMinutes(Times(records))
    ensures StoreDlq(env, db, records).Some? <==> AllStorable(env, Dedupe(records, DlqRecordId()))
    ensures StoreDlq(env, db, records).Some? ==> RollupsExact(StoreDlq(env, db, records).value)
  {
    hide Storable, InsertDlq, Dedupe, RefreshOne, RollupsExact, Times, Aligned, WholeMinutes, MinuteParams;
    var unique := Dedupe(records, DlqRecordId());
    InsertDlqGrows(env, db.dlq, unique);
    if AllStorable(env, unique) {
      AddedInWindow(env, db, records);
      DlqRefreshExact(db, InsertDlq(env, db.dlq, unique).value, DlqWindow(records));
    }
  }

  /** The columns, as the table declares them. */
  predicate FitsColumns(env: Env, r: DlqRecord) {
    env.uuid(r.id).Some? && env.jsonb(r.payload) && !(|r.topic| > 64) && !(|r.reason| > 128)
  }

  /** A batch of topic texts is stored exactly when every dead-letter record in it has
      a readable time and every one kept by de-duplication fits the table's columns. */
  lemma DlqBatchStoredIff(env: Env, raws: seq<string>, db: Db)
    requires RollupsExact(db) && (DlqBatch(env, raws).Some? ==> WholeMinutes(Times(DlqBatch(env, raws).value)))
    ensures LoadDlq(env, raws, db).Some? <==>
      DlqBatch(env, raws).Some? && forall r :: r in Dedupe(DlqBatch(env, raws).value, DlqRecordId()) ==> FitsColumns(env, r)
  {
    hide StoreDlq, Dedupe, RollupsExact, DlqBatch, WholeMinutes, Times;
    if DlqBatch(env, raws).Some? && DlqBatch(env, raws).value != [] {
      StoreDlqEffect(env, db, DlqBatch(env, raws).value);
    }
  }

  // ----- replays -----

  lemma {:induction false} StoredAgainIsNoOp(env: Env, rows: seq<DlqRow>, records: seq<DlqRecord>)
    requires AllStorable(env, records)
    requires forall r :: r in records ==> env.uuid(r.id).Some? && env.uuid(r.id).value in RowIds(rows)
    ensures InsertDlq(env, rows, records) == Some(rows)
  {
    if records != [] {
      StoredAgainIsNoOp(env, rows, records[..|records| - 1]);
      assert records[|records| - 1] in records;
    }
  }

  /** Rejections published again with the same identifiers, but fresh times, leave
      the table and every rollup as they are. */
  lemma DlqReplayIsNoOp(env: Env, raws: seq<string>, db: Db)
    requires RollupsExact(db) && DlqBatch(env, raws).Some?
    requires var records := DlqBatch(env, raws).value; AllStorable(env, records) && WholeMinutes(Times(records))
    requires forall r :: r in DlqBatch(env, raws).value ==> env.uuid(r.id).Some? && env.uuid(r.id).value in RowIds(db.dlq)
    ensures LoadDlq(env, raws, db) == Some(db)
  {
    hide Storable, DlqBatch, StoreDlq;
    var records := DlqBatch(env, raws).value;
    if records != [] {
      StoreDlqEffect(env, db, records);
      StoreDlqInserts(env, db, records);
      StoredAgainIsNoOp(env, db.dlq, Dedupe(records, DlqRecordId()));
      var d := StoreDlq(env, db, records).value;
      forall key ensures Lookup(d.agg, key) == Lookup(db.agg, key) {
        assert Lookup(db.agg, key) == View(Source(db, TableOf(key.group)), key);
        assert Lookup(d.agg, key) == View(Source(d, TableOf(key.group)), key);
      }
      SameLookups(d.agg, db.agg);
    }
  }

  // ----- a whole run: first wins -----

  /** A run of attempts: a batch that cannot be stored leaves the warehouse alone. */
  function RunDlq(env: Env, db: Db, batches: seq<seq<string>>): Db {
    if batches == [] then db
    else
      var d := RunDlq(env, db, batches[..|batches| - 1]);
      match LoadDlq(env, batches[|batches| - 1], d)
      case None => d
      case Some(d') => d'
  }

  function RecordsIn(env: Env, raws: seq<string>): seq<DlqRecord> {
    match DlqBatch(env, raws)
    case None => []
    case Some(records) => records
  }

  /** The records of the batches that were stored, in order. */
  function Delivered(env: Env, db: Db, batches: seq<seq<string>>): seq<DlqRecord> {
    if batches == [] then []
    else
      var n := |batches| - 1;
      Delivered(env, db, batches[..n])
      + if LoadDlq(env, batches[n], RunDlq(env, db, batches[..n])).Some? then RecordsIn(env, batches[n]) else []
  }

  /** Record j is the first delivered under its identifier. */
  ghost predicate FirstOf(env: Env, history: seq<DlqRecord>, j: nat, id: nat)
    requires j < |history|
  {
    env.uuid(history[j].id) == Some(id) && forall k :: 0 <= k < j ==> env.uuid(history[k].id) != Some(id)
  }

  ghost predicate IsFirstRow(env: Env, history: seq<DlqRecord>, row: DlqRow) {
    exists j :: 0 <= j < |history| && FirstOf(env, history, j, row.id) && RowKeeps(env, row, history[j])
  }

  /** The table holds each delivered identifier once, with the row of the first record
      that carried it. */
  ghost predicate FirstWins(env: Env, rows: seq<DlqRow>, history: seq<DlqRecord>) {
    && DistinctIds(rows)
    && (forall row :: row in rows ==> IsFirstRow(env, history, row))
    && (forall r :: r in history ==> env.uuid(r.id).Some? && env.uuid(r.id).value in RowIds(rows))
  }

  lemma FirstRowStays(env: Env, history: seq<DlqRecord>, r: DlqRecord, row: DlqRow)
    requires IsFirstRow(env, history, row)
    ensures IsFirstRow(env, history + [r], row)
  {
    var j :| 0 <= j < |history| && FirstOf(env, history, j, row.id) && RowKeeps(env, row, history[j]);
    var longer := history + [r];
    assert longer[j] == history[j] && forall k :: 0 <= k < j ==> longer[k] == history[k];
    assert FirstOf(env, longer, j, row.id);
  }

  lemma FirstWinsStep(env: Env, rows: seq<DlqRow>, history: seq<DlqRecord>, r: DlqRecord)
    requires FirstWins(env, rows, history) && InsertDlqOne(env, rows, r).Some?
    ensures FirstWins(env, InsertDlqOne(env, rows, r).value, history + [r])
  {
    var after, all := InsertDlqOne(env, rows, r).value, history + [r];
    InsertDlqStep(env, rows, r);
    forall row | row in after ensures IsFirstRow(env, all, row) {
      if row in rows {
        FirstRowStays(env, history, r, row);
      } else {
        var j := |history|;
        assert all[j] == r && row == DlqRowOf(env, r);
        forall k | 0 <= k < j ensures env.uuid(all[k].id) != Some(row.id) {
          assert all[k] == history[k] && history[k] in history;
        }
        assert FirstOf(env, all, j, row.id);
      }
    }
  }

  lemma FirstWinsDuplicate(env: Env, rows: seq<DlqRow>, history: seq<DlqRecord>, r: DlqRecord)
    requires FirstWins(env, rows, history) && exists q :: q in history && q.id == r.id
    ensures FirstWins(env, rows, history + [r])
  {
    forall row | row in rows ensures IsFirstRow(env, history + [r], row) {
      FirstRowStays(env, history, r, row);
    }
  }

  /** How storing a de-duplicated list changes when one record is added to the list. */
  lemma StoreSnoc(env: Env, rows: seq<DlqRow>, init: seq<DlqRecord>, r: DlqRecord)
    ensures var kept, all := Dedupe(init, DlqRecordId()), Dedupe(init + [r], DlqRecordId());
      || (all == kept && exists q :: q in init && q.id == r.id)
      || (all == kept + [r] && InsertDlq(env, rows, all)
            == match InsertDlq(env, rows, kept) case None => None case Some(rows') => InsertDlqOne(env, rows', r))
  {
    hide InsertDlqOne;
    var kept := Dedupe(init, DlqRecordId());
    assert (init + [r])[..|init|] == init && (kept + [r])[..|kept|] == kept;
    DedupeIds(init, DlqRecordId());
    if r.id in Ids(init, DlqRecordId()) {
      var i :| 0 <= i < |init| && DlqRecordId()(init[i]) == r.id;
      assert init[i] in init && init[i].id == r.id;
    }
  }

  lemma {:induction false} FirstWinsBatch(env: Env, rows: seq<DlqRow>, history: seq<DlqRecord>, records: seq<DlqRecord>)
    requires FirstWins(env, rows, history)
    requires InsertDlq(env, rows, Dedupe(records, DlqRecordId())).Some?
    ensures FirstWins(env, InsertDlq(env, rows, Dedupe(records, DlqRecordId())).value, history + records)
  {
    hide FirstWins, InsertDlq, InsertDlqOne, Dedupe;
    if records == [] {
      assert history + records == history;
      StoreNothing(env, rows);
    } else {
      var init, r := records[..|records| - 1], records[|records| - 1];
      var kept := Dedupe(init, DlqRecordId());
      assert records == init + [r] && history + records == history + init + [r];
      StoreSnoc(env, rows, init, r);
      FirstWinsBatch(env, rows, history, init);
      var stored := InsertDlq(env, rows, kept).value;
      if Dedupe(records, DlqRecordId()) == kept && exists q :: q in init && q.id == r.id {
        var q :| q in init && q.id == r.id;
        assert q in history + init;
        FirstWinsDuplicate(env, stored, history + init, r);
      } else {
        FirstWinsStep(env, stored, history + init, r);
      }
    }
  }

  lemma StoreNothing(env: Env, rows: seq<DlqRow>)
    ensures InsertDlq(env, rows, Dedupe([], DlqRecordId())) == Some(rows)
  {
  }

  /** One attempt: the table only grows and stays first-wins. */
  lemma LoadDlqEffect(env: Env, raws: seq<string>, db: Db, history: seq<DlqRecord>)
    requires FirstWins(env, db.dlq, history) && LoadDlq(env, raws, db).Some?
    ensures var d := LoadDlq(env, raws, db).value;
      && FirstWins(env, d.dlq, history + RecordsIn(env, raws))
      && d == db.(dlq := d.dlq, agg := d.agg) && db.dlq <= d.dlq
  {
    hide FirstWins, StoreDlq, InsertDlq, Dedupe, DlqBatch;
    var records := RecordsIn(env, raws);
    assert history + [] == history;
    if records != [] {
      StoreDlqInserts(env, db, records);
      FirstWinsBatch(env, db.dlq, history, records);
      InsertDlqGrows(env, db.dlq, Dedupe(records, DlqRecordId()));
    }
  }

  /** Over any run of the dead-letter query, with replays and failed batches, the
      table is first-wins and no stored row ever changes. */
  lemma {:induction false} DlqTableIsFirstWins(env: Env, db: Db, batches: seq<seq<string>>)
    requires db.dlq == []
    ensures var d := RunDlq(env, db, batches);
      FirstWins(env, d.dlq, Delivered(env, db, batches)) && d == db.(dlq := d.dlq, agg := d.agg)
    ensures forall n :: 0 <= n <= |batches| ==> RunDlq(env, db, batches[..n]).dlq <= RunDlq(env, db, batches).dlq
  {
    hide FirstWins, LoadDlq, RecordsIn;
    if batches == [] {
      assert FirstWins(env, [], []) by { NothingStored(env); }
    } else {
      var n, init := |batches| - 1, batches[..|batches| - 1];
      DlqTableIsFirstWins(env, db, init);
      var d, history, after := RunDlq(env, db, init), Delivered(env, db, init), RunDlq(env, db, batches);
      assert history + [] == history;
      if LoadDlq(env, batches[n], d).Some? {
        LoadDlqEffect(env, batches[n], d, history);
      }
      assert d.dlq <= after.dlq;
      forall k | 0 <= k <= |batches| ensures RunDlq(env, db, batches[..k]).dlq <= after.dlq {
        assert batches[..|batches|] == batches;
        if k < |batches| {
          assert init[..k] == batches[..k];
        }
      }
    }
  }

  lemma LoadDlqExact(env: Env, raws: seq<string>, db: Db)
    requires RollupsExact(db) && WholeMinutes(Times(RecordsIn(env, raws))) && LoadDlq(env, raws, db).Some?
    ensures RollupsExact(LoadDlq(env, raws, db).value)
  {
    hide StoreDlq, RollupsExact, Times, WholeMinutes, DlqBatch;
    if RecordsIn(env, raws) != [] {
      StoreDlqEffect(env, db, RecordsIn(env, raws));
    }
  }

  ghost predicate AllWhole(env: Env, batches: seq<seq<string>>) {
    forall i :: 0 <= i < |batches| ==> WholeMinutes(Times(RecordsIn(env, batches[i])))
  }

  /** Over any run whose records write their offsets in whole minutes, every rollup
      stays exact. */
  lemma {:induction false} DlqRollupStaysExact(env: Env, db: Db, batches: seq<seq<string>>)
    requires RollupsExact(db) && AllWhole(env, batches)
    ensures RollupsExact(RunDlq(env, db, batches))
  {
    hide LoadDlq, RollupsExact, RecordsIn, Times, WholeMinutes;
    if batches != [] {
      var init, last := batches[..|batches| - 1], batches[|batches| - 1];
      DlqRollupStaysExact(env, db, init);
      if LoadDlq(env, last, RunDlq(env, db, init)).Some? {
        LoadDlqExact(env, last, RunDlq(env, db, init));
      }
    }
  }

  lemma NothingStored(env: Env)
    ensures FirstWins(env, [], [])
  {
  }

  // ----- counting -----

  lemma {:induction false} DlqItemCount(rows: seq<DlqRow>)
    ensures SumItems(DlqItems(rows), DlqMinute, RowCount) == |rows|
  {
    if rows != [] {
      var init, last := rows[..|rows| - 1], rows[|rows| - 1];
      DlqItemCount(init);
      var items := DlqItems(init);
      assert DlqItems(rows) == items + [DlqItem(last)];
      assert (items + [DlqItem(last)])[..|items|] == items;
    }
  }

  lemma {:induction false} DistinctCount(rows: seq<DlqRow>)
    requires DistinctIds(rows)
    ensures |RowIds(rows)| == |rows|
  {
    if rows == [] {
      assert RowIds(rows) == {};
    } else {
      var init, last := rows[..|rows| - 1], rows[|rows| - 1];
      DistinctCount(init);
      assert rows == init + [last];
      assert last.id !in RowIds(init);
      assert RowIds(rows) == RowIds(init) + {last.id};
    }
  }

  /** The record counts of the rollup add up to the number of distinct identifiers. */
  lemma RecordCountsAddUp(db: Db)
    requires RollupsExact(db) && DistinctIds(db.dlq)
    ensures SumRows(OnlyTable(db.agg, DlqMinute), DlqMinute, RowCount) == |RowIds(db.dlq)|
  {
    var items := DlqItems(db.dlq);
    DlqItemTimes(db.dlq);
    forall key: AggKey ensures Lookup(OnlyTable(db.agg, DlqMinute), key) == View(items, key) {
      if TableOf(key.group) != DlqMinute {
        TallyElsewhere(items, key);
      }
      assert Lookup(db.agg, key) == View(Source(db, TableOf(key.group)), key);
    }
    TotalsConserved(OnlyTable(db.agg, DlqMinute), items, DlqMinute, RowCount);
    DlqItemCount(db.dlq);
    DistinctCount(db.dlq);
  }

  // ----- records of the events query -----

  /** The fields a rejection is published with. */
  function RecordFields(r: DlqRecord, timestamp: string): Fields {
    [("event_id", JStr(r.id)), ("event_type", JStr("dlq_record")), ("timestamp", JStr(timestamp)),
     ("schema_version", JInt(1)), ("source_topic", JStr(r.topic)), ("rejection_reason", JStr(r.reason)),
     ("original_payload", JStr(r.payload))]
  }

  lemma RecordFieldsRead(r: DlqRecord, timestamp: string)
    ensures var e := RecordFields(r, timestamp);
      && Get(e, "event_id") == Some(JStr(r.id)) && Get(e, "event_type") == Some(JStr("dlq_record"))
      && Get(e, "timestamp") == Some(JStr(timestamp)) && Get(e, "schema_version") == Some(JInt(1))
      && Get(e, "source_topic") == Some(JStr(r.topic)) && Get(e, "rejection_reason") == Some(JStr(r.reason))
      && Get(e, "original_payload") == Some(JStr(r.payload))
  {
    var e := RecordFields(r, timestamp);
    GetAt(e, 0);
    GetAt(e, 1);
    GetAt(e, 2);
    GetAt(e, 3);
    GetAt(e, 4);
    GetAt(e, 5);
    GetAt(e, 6);
  }

  lemma RecordConforms(r: DlqRecord, timestamp: string)
    ensures Conforms(DLQ_FIELDS, JObject(RecordFields(r, timestamp)))
  {
    var e, s := RecordFields(r, timestamp), DLQ_FIELDS;
    RecordFieldsRead(r, timestamp);
    assert |s| == 7 && forall i :: 0 <= i < |e| ==> e[i].0 == s[i].0;
  }

  lemma OneText(env: Env, raw: string, e: Fields, r: DlqRecord)
    requires ReadDlq(env, raw) == Some(e) && DlqFields(e) && RecordOf(env, e) == Some(r)
    ensures DlqBatch(env, [raw]) == Some([r])
  {
    hide ReadDlq, RecordOf, Get, Typed;
    ReadConforms(env, [raw]);
    assert [raw][..0] == [];
    assert ReadAll(env, [raw]) == [] + [e] == [e];
    assert [e][..0] == [];
    assert RecordsOf(env, [e][..0]) == Some([]);
    assert RecordOf(env, [e][0]) == Some(r);
    assert RecordsOf(env, [e]) == Some([] + [r]);
    assert DlqBatch(env, [raw]) == RecordsOf(env, [e]);
    assert [] + [r] == [r];
  }

  lemma PublishedRecord(env: Env, r: DlqRecord, timestamp: string)
    requires env.iso(timestamp).Some? && Aware(env.iso(timestamp).value) == r.ts
    ensures DlqFields(RecordFields(r, timestamp)) && RecordOf(env, RecordFields(r, timestamp)) == Some(r)
  {
    hide Get, RecordFields;
    RecordFieldsRead(r, timestamp);
  }

  /** Round trip: what the events query publishes is what the dead-letter query reads,
      if the JSON text and the time survive their encodings. */
  lemma PublishedIsRead(env: Env, r: DlqRecord, timestamp: string)
    requires var j := JObject(RecordFields(r, timestamp)); env.parse(env.dumps(j)) == Some(j)
    requires env.iso(timestamp).Some? && Aware(env.iso(timestamp).value) == r.ts
    ensures DlqBatch(env, [env.dumps(JObject(RecordFields(r, timestamp)))]) == Some([r])
  {
    hide Violations, RecordFields, DlqFields, RecordOf, DlqBatch, Conforms;
    var e := RecordFields(r, timestamp);
    RecordConforms(r, timestamp);
    ViolationsEmptyIffConforms(DLQ_FIELDS, JObject(e));
    PublishedRecord(env, r, timestamp);
    OneText(env, env.dumps(JObject(e)), e, r);
  }

  // ----- which rejections can be stored -----

  /** A batch that keeps a record that does not fit the columns is rolled back, whatever
      the state, so its query never passes it. */
  lemma UnstorableBlocks(env: Env, raws: seq<string>, db: Db, r: DlqRecord)
    requires DlqBatch(env, raws).Some? && r in Dedupe(DlqBatch(env, raws).value, DlqRecordId()) && !Storable(env, r)
    ensures LoadDlq(env, raws, db).None?
  {
    hide Dedupe, InsertDlq, Storable;
    var records := DlqBatch(env, raws).value;
    InsertDlqGrows(env, db.dlq, Dedupe(records, DlqRecordId()));
    assert r in records;
  }

  /** The rejection of a text that does not parse cannot be stored when the warehouse,
      too, refuses the text as JSON. */
  lemma ParseErrorsBlock(env: Env, raws: seq<string>, db: Db, t: EventType, raw: string, now: int)
    requires env.parse(raw).None? && !env.jsonb(raw) && DlqBatch(env, raws).Some?
    requires MakeDlq(env, TopicName(t), "PARSE_ERROR", raw, now) in Dedupe(DlqBatch(env, raws).value, DlqRecordId())
    ensures Judge(env, t, raw, now) == Reject("PARSE_ERROR") && LoadDlq(env, raws, db).None?
  {
    hide Dedupe, LoadDlq, DlqBatch, TopicName;
    UnstorableBlocks(env, raws, db, MakeDlq(env, TopicName(t), "PARSE_ERROR", raw, now));
  }

  const REASON_WIDTH := 128
  const LONGEST_NAME := 100

  function FirstUndeclared(schema: Schema, fields: Fields): Option<string> {
    if fields == [] then None
    else if Declares(schema, fields[0].0) then FirstUndeclared(schema, fields[1..])
    else Some(fields[0].0)
  }

  /** The event has all its declared fields, and the first other one has a long name. */
  predicate LongUnexpected(env: Env, t: EventType, raw: string) {
    match env.parse(raw)
    case Some(JObject(fields)) =>
      SchemaTags(EventFields(t), fields) == [] &&
      (match FirstUndeclared(EventFields(t), fields)
       case Some(name) => |name| > LONGEST_NAME
       case None => false)
    case _ => false
  }

  lemma {:induction false} FirstUnexpectedTag(schema: Schema, fields: Fields)
    ensures var tags := UnexpectedTags(schema, fields);
      match FirstUndeclared(schema, fields)
      case None => tags == []
      case Some(name) => tags != [] && tags[0] == "unexpected:" + name
  {
    if fields != [] {
      FirstUnexpectedTag(schema, fields[1..]);
    }
  }

  lemma {:induction false} SchemaTagsAreShort(schema: Schema, fields: Fields)
    requires forall i :: 0 <= i < |schema| ==> |schema[i].0| <= 32
    ensures forall tag :: tag in SchemaTags(schema, fields) ==> |tag| <= 40
  {
    if schema != [] {
      SchemaTagsAreShort(schema[1..], fields);
    }
  }

  lemma DeclaredNamesAreShort(t: EventType)
    ensures forall i :: 0 <= i < |EventFields(t)| ==> |EventFields(t)[i].0| <= 32
  {
  }

  lemma {:induction false} HitsAreShort(env: Env, rules: seq<Rule>, e: Fields, now: int)
    ensures forall tag :: tag in Hits(env, rules, e, now) ==> |tag| <= 32
  {
    hide Passes;
    if rules != [] {
      HitsAreShort(env, rules[1..], e, now);
      NameIsShort(rules[0]);
    }
  }

  lemma NameIsShort(rule: Rule)
    ensures |RuleName(rule)| <= 32
  {
  }

  /** The reason fits its column unless it names a long unexpected field. */
  lemma ReasonFitsIff(env: Env, t: EventType, raw: string, now: int)
    requires Judge(env, t, raw, now).Reject?
    ensures |Judge(env, t, raw, now).reason| <= REASON_WIDTH <==> !LongUnexpected(env, t, raw)
  {
    hide Hits, SchemaTags, UnexpectedTags, FirstUndeclared, EventFields, RulesOf;
    if env.parse(raw).Some? {
      var event := env.parse(raw).value;
      var structural := Violations(EventFields(t), event);
      if event.JObject? {
        SchemaReason(t, event.fields);
        if structural == [] {
          HitsAreShort(env, RulesOf(t), event.fields, now);
          var hits := Hits(env, RulesOf(t), event.fields, now);
          assert hits != [] ==> hits[0] in hits;
        }
      }
    }
  }

  /** The first structural violation: a short tag of a declared field, or the first
      undeclared one. */
  lemma SchemaReason(t: EventType, fields: Fields)
    ensures var tags, own := Violations(EventFields(t), JObject(fields)), SchemaTags(EventFields(t), fields);
      var first := FirstUndeclared(EventFields(t), fields);
      && (own != [] ==> tags != [] && tags[0] == own[0] && |tags[0]| <= 40)
      && (own == [] && first.Some? ==> tags != [] && tags[0] == "unexpected:" + first.value)
      && (own == [] && first.None? ==> tags == [])
  {
    hide SchemaTags, UnexpectedTags, FirstUndeclared, EventFields;
    DeclaredNamesAreShort(t);
    SchemaTagsAreShort(EventFields(t), fields);
    FirstUnexpectedTag(EventFields(t), fields);
    var own := SchemaTags(EventFields(t), fields);
    assert own != [] ==> own[0] in own;
  }

  lemma TopicNameIsShort(t: EventType)
    ensures |TopicName(t)| <= 64
  {
  }

  /** Which rejections of validation the dead-letter table can hold: those whose text is
      JSON to the warehouse and that do not name an unexpected field of more than 100
      characters. */
  lemma RejectionStorableIff(env: Env, t: EventType, raw: string, now: int)
    requires Judge(env, t, raw, now).Reject?
    requires env.uuid(DlqId(env, TopicName(t), Judge(env, t, raw, now).reason, raw)).Some?
    ensures Storable(env, MakeDlq(env, TopicName(t), Judge(env, t, raw, now).reason, raw, now))
       <==> env.jsonb(raw) && !LongUnexpected(env, t, raw)
  {
    hide Judge, LongUnexpected;
    ReasonFitsIff(env, t, raw, now);
    TopicNameIsShort(t);
  }

  /** A rejection for an unknown subscriber fits whenever its re-encoded event is JSON. */
  lemma ReferentialStorableIff(env: Env, t: EventType, payload: string, now: int)
    requires env.uuid(DlqId(env, TopicName(t), REFERENTIAL, payload)).Some?
    ensures Storable(env, MakeDlq(env, TopicName(t), REFERENTIAL, payload, now)) <==> env.jsonb(payload)
  {
    TopicNameIsShort(t);
  }

  /** A rejection that names a long unexpected field blocks its query just so. */
  lemma LongNamesBlock(env: Env, raws: seq<string>, db: Db, t: EventType, raw: string, now: int)
    requires Judge(env, t, raw, now).Reject? && LongUnexpected(env, t, raw) && DlqBatch(env, raws).Some?
    requires MakeDlq(env, TopicName(t), Judge(env, t, raw, now).reason, raw, now)
          in Dedupe(DlqBatch(env, raws).value, DlqRecordId())
    ensures LoadDlq(env, raws, db).None?
  {
    hide Judge, LongUnexpected, Dedupe, LoadDlq, DlqBatch, TopicName;
    ReasonFitsIff(env, t, raw, now);
    UnstorableBlocks(env, raws, db, MakeDlq(env, TopicName(t), Judge(env, t, raw, now).reason, raw, now));
  }
}
