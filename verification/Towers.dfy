/** Current tower state as a last-writer-wins register: an in-batch collapse to one
    row per tower, then an upsert that only moves forward in time. */
module Towers {
  import opened Base

  datatype TowerRow = TowerRow(technology: string, signal: int, devices: int, status: string, updatedAt: int)
  datatype Update = Update(towerId: string, row: TowerRow)
  type TowerTable = map<string, TowerRow>

  /** One conditional upsert: an unknown tower is inserted, a known one is replaced
      by a strictly later row. */
  function Write(towers: TowerTable, u: Update): TowerTable {
    if u.towerId !in towers || u.row.updatedAt > towers[u.towerId].updatedAt
    then towers[u.towerId := u.row]
    else towers
  }

  /** The reference meaning of a list of updates: write them one at a time. */
  function WriteAll(towers: TowerTable, us: seq<Update>): TowerTable {
    if us == [] then towers else Write(WriteAll(towers, us[..|us| - 1]), us[|us| - 1])
  }

  predicate DistinctTowers(rows: seq<Update>) {
    forall i, j | 0 <= i < j < |rows| :: rows[i].towerId != rows[j].towerId
  }

  /** A multi-row upsert fails when two of its rows hit the same key. */
  function UpsertRows(towers: TowerTable, rows: seq<Update>): Option<TowerTable> {
    if DistinctTowers(rows) then Some(WriteAll(towers, rows)) else None
  }

  /** Keep one row per tower, its latest, in order of first appearance. */
  method Collapse(us: seq<Update>) returns (rows: seq<Update>)
    ensures DistinctTowers(rows)
    ensures forall id :: id in WriteAll(map[], us) <==> exists i :: 0 <= i < |rows| && rows[i].towerId == id
    ensures forall i :: 0 <= i < |rows| ==>
              rows[i].towerId in WriteAll(map[], us) && rows[i].row == WriteAll(map[], us)[rows[i].towerId]
  {
    var latest: TowerTable := map[];
    var order: seq<string> := [];
    for i := 0 to |us|
      invariant latest == WriteAll(map[], us[..i])
      invariant forall id :: id in latest <==> id in order
      invariant forall j, k :: 0 <= j < k < |order| ==> order[j] != order[k]
    {
      assert us[..i + 1][..i] == us[..i];
      var u := us[i];
      if u.towerId !in latest {
        order := order + [u.towerId];
        latest := latest[u.towerId := u.row];
      } else if u.row.updatedAt > latest[u.towerId].updatedAt {
        latest := latest[u.towerId := u.row];
      }
    }
    assert us[..|us|] == us;
    rows := seq(|order|, j requires 0 <= j < |order| && order[j] in latest => Update(order[j], latest[order[j]]));
    forall id | id in latest ensures exists i :: 0 <= i < |rows| && rows[i].towerId == id {
      var j :| 0 <= j < |order| && order[j] == id;
      assert rows[j].towerId == id;
    }
  }

  function Row(towers: TowerTable, id: string): Option<TowerRow> {
    if id in towers then Some(towers[id]) else None
  }

  /** The register: a later write replaces, an equal or earlier one does not. */
  function Merge(a: Option<TowerRow>, b: Option<TowerRow>): Option<TowerRow> {
    if b.None? then a
    else if a.None? || b.value.updatedAt > a.value.updatedAt then b
    else a
  }

  lemma {:induction false} WriteAllMerges(towers: TowerTable, us: seq<Update>, id: string)
    ensures Row(WriteAll(towers, us), id) == Merge(Row(towers, id), Row(WriteAll(map[], us), id))
  {
    if us != [] {
      WriteAllMerges(towers, us[..|us| - 1], id);
    }
  }

  lemma SameRows(a: TowerTable, b: TowerTable)
    requires forall id :: Row(a, id) == Row(b, id)
    ensures a == b
  {
    assert forall id :: id in a <==> Row(a, id).Some?;
    assert forall id :: id in b <==> Row(b, id).Some?;
    assert forall id :: id in a ==> a[id] == Row(a, id).value == Row(b, id).value;
  }

  lemma {:induction false} DistinctRow(rows: seq<Update>, i: nat)
    requires DistinctTowers(rows) && i < |rows|
    ensures Row(WriteAll(map[], rows), rows[i].towerId) == Some(rows[i].row)
  {
    var n := |rows| - 1;
    if i < n {
      DistinctRow(rows[..n], i);
    } else {
      NoRow(rows[..n], rows[n].towerId);
    }
  }

  lemma {:induction false} NoRow(rows: seq<Update>, id: string)
    requires forall i :: 0 <= i < |rows| ==> rows[i].towerId != id
    ensures Row(WriteAll(map[], rows), id) == None
  {
    if rows != [] {
      NoRow(rows[..|rows| - 1], id);
    }
  }

  /** Collapsing first and upserting the collapsed rows in one statement never hits a
      key twice, and means the same as writing every update in order of arrival. */
  lemma CollapsedUpsertIsWriteAll(towers: TowerTable, us: seq<Update>, rows: seq<Update>)
    requires DistinctTowers(rows)
    requires forall id :: id in WriteAll(map[], us) <==> exists i :: 0 <= i < |rows| && rows[i].towerId == id
    requires forall i :: 0 <= i < |rows| ==>
               rows[i].towerId in WriteAll(map[], us) && rows[i].row == WriteAll(map[], us)[rows[i].towerId]
    ensures UpsertRows(towers, rows) == Some(WriteAll(towers, us))
  {
    forall id ensures Row(WriteAll(towers, rows), id) == Row(WriteAll(towers, us), id) {
      WriteAllMerges(towers, rows, id);
      WriteAllMerges(towers, us, id);
      if id in WriteAll(map[], us) {
        var i :| 0 <= i < |rows| && rows[i].towerId == id;
        DistinctRow(rows, i);
      } else {
        NoRow(rows, id);
      }
    }
    SameRows(WriteAll(towers, rows), WriteAll(towers, us));
  }

  /** Two batches in a row mean the same as their concatenation. */
  lemma {:induction false} WriteAllComposes(towers: TowerTable, b1: seq<Update>, b2: seq<Update>)
    ensures WriteAll(WriteAll(towers, b1), b2) == WriteAll(towers, b1 + b2)
  {
    if b2 == [] {
      assert b1 + b2 == b1;
    } else {
      var n := |b2| - 1;
      WriteAllComposes(towers, b1, b2[..n]);
      assert (b1 + b2)[..|b1 + b2| - 1] == b1 + b2[..n];
    }
  }

  /** The state never moves back in time, and covers every update written. */
  lemma {:induction false} WriteAllMovesForward(towers: TowerTable, us: seq<Update>)
    ensures forall id :: id in towers ==>
              id in WriteAll(towers, us) && WriteAll(towers, us)[id].updatedAt >= towers[id].updatedAt
    ensures Covers(WriteAll(towers, us), us)
  {
    if us != [] {
      WriteAllMovesForward(towers, us[..|us| - 1]);
      assert us == us[..|us| - 1] + [us[|us| - 1]];
    }
  }

  ghost predicate Covers(towers: TowerTable, us: seq<Update>) {
    forall u :: u in us ==> u.towerId in towers && towers[u.towerId].updatedAt >= u.row.updatedAt
  }

  /** Updates that are already covered change nothing, so a replay is a no-op. */
  lemma {:induction false} CoveredIsNoOp(towers: TowerTable, us: seq<Update>)
    requires Covers(towers, us)
    ensures WriteAll(towers, us) == towers
  {
    if us != [] {
      CoveredIsNoOp(towers, us[..|us| - 1]);
      assert us[|us| - 1] in us;
    }
  }

  /** Update j wins its tower: none is later, and none as late came earlier. */
  ghost predicate Wins(us: seq<Update>, j: nat)
    requires j < |us|
  {
    forall i :: 0 <= i < |us| && us[i].towerId == us[j].towerId ==>
      && us[i].row.updatedAt <= us[j].row.updatedAt
      && (i < j ==> us[i].row.updatedAt < us[j].row.updatedAt)
  }

  /** The row a batch leaves for a tower is its latest; the earliest arrival wins ties. */
  lemma {:induction false} EarliestOfLatestWins(us: seq<Update>, id: string) returns (j: nat)
    requires id in WriteAll(map[], us)
    ensures j < |us| && us[j].towerId == id && Wins(us, j) && us[j].row == WriteAll(map[], us)[id]
  {
    var n := |us| - 1;
    var before := WriteAll(map[], us[..n]);
    if id in before && !(us[n].towerId == id && us[n].row.updatedAt > before[id].updatedAt) {
      j := EarliestOfLatestWins(us[..n], id);
      forall i | 0 <= i < |us| && us[i].towerId == us[j].towerId
        ensures us[i].row.updatedAt <= us[j].row.updatedAt && (i < j ==> us[i].row.updatedAt < us[j].row.updatedAt) {
        if i < n {
          assert us[..n][i] == us[i] && us[..n][j] == us[j];
        }
      }
    } else {
      j := n;
      WriteAllMovesForward(map[], us[..n]);
      forall i | 0 <= i < |us| && us[i].towerId == us[j].towerId
        ensures us[i].row.updatedAt <= us[j].row.updatedAt && (i < j ==> us[i].row.updatedAt < us[j].row.updatedAt) {
        if i < n {
          assert us[..n][i] in us[..n];
        }
      }
    }
  }

  lemma SameLatest(us: seq<Update>, vs: seq<Update>, id: string)
    requires forall u :: u in us <==> u in vs
    requires forall u, v :: u in us && v in us && u.towerId == v.towerId && u.row.updatedAt == v.row.updatedAt ==> u == v
    requires id in WriteAll(map[], us)
    ensures Row(WriteAll(map[], vs), id) == Row(WriteAll(map[], us), id)
  {
    hide WriteAll;
    WriteAllMovesForward(map[], vs);
    var i := EarliestOfLatestWins(us, id);
    assert us[i] in us && us[i] in vs;
    var j := EarliestOfLatestWins(vs, id);
    assert vs[j] in us;
  }

  /** When a tower's updates carry distinct times, order of arrival does not matter. */
  lemma OrderIrrelevant(towers: TowerTable, us: seq<Update>, vs: seq<Update>)
    requires forall u :: u in us <==> u in vs
    requires forall u, v :: u in us && v in us && u.towerId == v.towerId && u.row.updatedAt == v.row.updatedAt ==> u == v
    ensures WriteAll(towers, us) == WriteAll(towers, vs)
  {
    hide WriteAll;
    forall id ensures Row(WriteAll(towers, us), id) == Row(WriteAll(towers, vs), id) {
      WriteAllMerges(towers, us, id);
      WriteAllMerges(towers, vs, id);
      if id in WriteAll(map[], us) {
        SameLatest(us, vs, id);
      } else if id in WriteAll(map[], vs) {
        SameLatest(vs, us, id);
      }
    }
    SameRows(WriteAll(towers, us), WriteAll(towers, vs));
  }
}
