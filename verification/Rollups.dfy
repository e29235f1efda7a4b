/** Minute rollups: GROUP BY over a table, the delete-and-insert refresh of a window
    of minutes, and when that refresh equals a full recomputation. */
module Rollups {
  import opened Base

  datatype Rollup = RevenueMinute | CallsMinute | DataMinute | DlqMinute

  /** What a row of a rollup is grouped by, besides its minute. */
  datatype Group =
    | Revenue(province: string, revenueType: string)
    | Calls(towerId: string)
    | Data(towerId: string, technology: string)
    | Dead(topic: string, reason: string)

  function TableOf(g: Group): Rollup {
    match g
    case Revenue(_, _) => RevenueMinute
    case Calls(_) => CallsMinute
    case Data(_, _) => DataMinute
    case Dead(_, _) => DlqMinute
  }

  /** A source row as the rollup query sees it: `total` is the summed column and
      `marked` the filtered one. */
  datatype Item = Item(ts: int, group: Group, total: int, marked: bool)

  /** The primary key of a rollup row, and its measures. The four rollup tables are
      kept in one map: the group tells the table. */
  datatype AggKey = AggKey(minute: int, group: Group)
  datatype Cell = Cell(count: nat, total: int, marked: nat)
  type Agg = map<AggKey, Cell>

  function FloorMinute(ts: int): int { ts - ts % MINUTE }

  function KeyOf(x: Item): AggKey { AggKey(FloorMinute(x.ts), x.group) }

  function Add(c: Cell, x: Item): Cell {
    Cell(c.count + 1, c.total + x.total, c.marked + if x.marked then 1 else 0)
  }

  function Tally(items: seq<Item>, key: AggKey): Cell {
    if items == [] then Cell(0, 0, 0)
    else
      var x := items[|items| - 1];
      var c := Tally(items[..|items| - 1], key);
      if KeyOf(x) == key then Add(c, x) else c
  }

  function KeysOf(items: seq<Item>): set<AggKey> {
    set i | 0 <= i < |items| :: KeyOf(items[i])
  }

  function GroupBy(items: seq<Item>): Agg {
    map key | key in KeysOf(items) :: Tally(items, key)
  }

  /** The row a full recomputation over the source table has for a key, if any. */
  function View(items: seq<Item>, key: AggKey): Option<Cell> {
    var c := Tally(items, key);
    if c.count == 0 then None else Some(c)
  }

  function Lookup(agg: Agg, key: AggKey): Option<Cell> {
    if key in agg then Some(agg[key]) else None
  }

  /** The rollups are an exact materialised view of the items. */
  ghost predicate Exact(agg: Agg, items: seq<Item>) {
    forall key :: Lookup(agg, key) == View(items, key)
  }

  datatype Window = Window(lo: int, hi: int, next: int)

  /** Floor a time to the minute of its own offset. */
  function FloorLocal(t: Stamp): int { FloorMinute(t.utc + t.offset) - t.offset }

  function MinuteParams(lo: Stamp, hi: Stamp): Window {
    Window(FloorLocal(lo), FloorLocal(hi), FloorLocal(hi) + MINUTE)
  }

  function Delete(agg: Agg, t: Rollup, w: Window): Agg {
    map key | key in agg && !(TableOf(key.group) == t && w.lo <= key.minute <= w.hi) :: agg[key]
  }

  predicate InWindow(x: Item, t: Rollup, w: Window) {
    TableOf(x.group) == t && w.lo <= x.ts < w.next
  }

  function Select(items: seq<Item>, t: Rollup, w: Window): seq<Item> {
    if items == [] then []
    else
      var x := items[|items| - 1];
      Select(items[..|items| - 1], t, w) + if InWindow(x, t, w) then [x] else []
  }

  /** A plain INSERT fails when a primary key is already there. */
  function InsertRows(agg: Agg, rows: Agg): Option<Agg> {
    if agg.Keys !! rows.Keys then Some(agg + rows) else None
  }

  /** The two statements that refresh one rollup for a window. */
  function Refresh(agg: Agg, items: seq<Item>, t: Rollup, w: Window): Option<Agg> {
    InsertRows(Delete(agg, t, w), GroupBy(Select(items, t, w)))
  }

  predicate Aligned(w: Window) {
    w.lo % MINUTE == 0 && w.hi % MINUTE == 0 && w.lo <= w.hi && w.next == w.hi + MINUTE
  }

  lemma {:induction false} GroupByIsView(items: seq<Item>)
    ensures Exact(GroupBy(items), items)
  {
    forall key ensures Lookup(GroupBy(items), key) == View(items, key) {
      TallyPositive(items, key);
    }
  }

  lemma {:induction false} TallyPositive(items: seq<Item>, key: AggKey)
    ensures key in KeysOf(items) <==> Tally(items, key).count > 0
  {
    if items != [] {
      var n := |items| - 1;
      TallyPositive(items[..n], key);
      KeysSnoc(items[..n], items[n]);
      assert items == items[..n] + [items[n]];
    }
  }

  lemma KeysSnoc(items: seq<Item>, x: Item)
    ensures KeysOf(items + [x]) == KeysOf(items) + {KeyOf(x)}
  {
    var all := items + [x];
    assert all[|items|] == x;
    forall key | key in KeysOf(items) ensures key in KeysOf(all) {
      var i :| 0 <= i < |items| && KeyOf(items[i]) == key;
      assert all[i] == items[i];
    }
  }

  lemma {:induction false} SelectTally(items: seq<Item>, t: Rollup, w: Window, key: AggKey)
    requires Aligned(w)
    ensures Tally(Select(items, t, w), key)
         == if TableOf(key.group) == t && w.lo <= key.minute <= w.hi then Tally(items, key) else Cell(0, 0, 0)
  {
    if items != [] {
      var n := |items| - 1;
      var x, rest := items[n], Select(items[..n], t, w);
      SelectTally(items[..n], t, w, key);
      assert (rest + [x])[..|rest|] == rest && rest + [] == rest;
      if KeyOf(x) == key && TableOf(key.group) == t {
        FloorBetween(x.ts, w);
      }
    }
  }

  lemma FloorBetween(ts: int, w: Window)
    requires Aligned(w)
    ensures w.lo <= ts < w.next <==> w.lo <= FloorMinute(ts) <= w.hi
  {
    var q, r := ts / MINUTE, ts % MINUTE;
    assert ts == q * MINUTE + r;
    var a, b := w.lo / MINUTE, w.hi / MINUTE;
    assert w.lo == a * MINUTE && w.hi == b * MINUTE;
  }

  /** Rows of the rollup outside the window agree with the source table. */
  ghost predicate ExactOutside(agg: Agg, items: seq<Item>, t: Rollup, w: Window) {
    forall key: AggKey :: TableOf(key.group) == t && !(w.lo <= key.minute <= w.hi) ==>
      Lookup(agg, key) == View(items, key)
  }

  /** Over whole minutes the refresh never collides on the primary key, makes its
      table exact and leaves the other tables alone. */
  lemma RefreshMakesExact(agg: Agg, items: seq<Item>, t: Rollup, w: Window)
    requires Aligned(w) && ExactOutside(agg, items, t, w)
    ensures Refresh(agg, items, t, w).Some?
    ensures forall key :: Lookup(Refresh(agg, items, t, w).value, key)
                       == if TableOf(key.group) == t then View(items, key) else Lookup(agg, key)
  {
    var chosen := Select(items, t, w);
    var kept, rows := Delete(agg, t, w), GroupBy(chosen);
    GroupByIsView(chosen);
    forall key ensures Lookup(rows, key) == if TableOf(key.group) == t && w.lo <= key.minute <= w.hi
                                            then View(items, key) else None {
      assert Lookup(rows, key) == View(chosen, key);
      SelectTally(items, t, w, key);
    }
    assert forall key :: key in rows <==> Lookup(rows, key).Some?;
    assert kept.Keys !! rows.Keys;
    forall key ensures Lookup(kept + rows, key) == if TableOf(key.group) == t then View(items, key) else Lookup(agg, key) {
      assert Lookup(rows, key).Some? ==> Lookup(kept + rows, key) == Lookup(rows, key);
      assert Lookup(rows, key).None? ==> Lookup(kept + rows, key) == Lookup(kept, key);
    }
  }

  /** Refreshing an exact rollup survives for every content of the source table
      exactly when both ends were written with whole-minute offsets. */
  lemma RefreshSurvivesIff(t: Rollup, lo: Stamp, hi: Stamp)
    requires lo.utc <= hi.utc
    ensures (forall items :: Refresh(GroupBy(items), items, t, MinuteParams(lo, hi)).Some?)
       <==> lo.offset % MINUTE == 0 && hi.offset % MINUTE == 0
  {
    var w := MinuteParams(lo, hi);
    if lo.offset % MINUTE == 0 && hi.offset % MINUTE == 0 {
      AlignedWindow(lo, hi);
      forall items ensures Refresh(GroupBy(items), items, t, w).Some? {
        GroupByIsView(items);
        RefreshMakesExact(GroupBy(items), items, t, w);
      }
    } else {
      var items := MisalignedRefreshFails(t, lo, hi);
      assert Refresh(GroupBy(items), items, t, w).None?;
    }
  }

  lemma SelectOne(x: Item, t: Rollup, w: Window)
    requires InWindow(x, t, w)
    ensures Select([x], t, w) == [x]
  {
    assert [x][..0] == [];
    assert Select([x][..0], t, w) + [x] == [x];
  }

  lemma GroupOne(x: Item)
    ensures KeyOf(x) in GroupBy([x])
  {
    hide Tally, KeyOf;
    assert [x][0] == x;
    assert KeyOf(x) in KeysOf([x]);
  }

  lemma DeleteKeeps(agg: Agg, t: Rollup, w: Window, key: AggKey)
    requires key in agg && !(w.lo <= key.minute <= w.hi)
    ensures key in Delete(agg, t, w)
  {
  }

  lemma SharedKeyCollides(agg: Agg, rows: Agg, key: AggKey)
    requires key in agg && key in rows
    ensures InsertRows(agg, rows).None?
  {
    assert key in agg.Keys * rows.Keys;
  }

  /** One source row inside the time window whose minute is outside the deleted range. */
  lemma StrayRowCollides(x: Item, t: Rollup, w: Window)
    requires InWindow(x, t, w) && !(w.lo <= KeyOf(x).minute <= w.hi)
    ensures Refresh(GroupBy([x]), [x], t, w).None?
  {
    hide FloorMinute, Tally, GroupBy, Delete, Select, InWindow, InsertRows;
    SelectOne(x, t, w);
    GroupOne(x);
    DeleteKeeps(GroupBy([x]), t, w, KeyOf(x));
    SharedKeyCollides(Delete(GroupBy([x]), t, w), GroupBy([x]), KeyOf(x));
  }

  /** The time of a source row that falls into the window but not into its minutes. */
  function StrayTime(lo: Stamp, hi: Stamp): int {
    var w := MinuteParams(lo, hi);
    if lo.offset % MINUTE != 0 then w.lo else FloorMinute(w.next)
  }

  /** A source row on which a refresh with a misaligned end dies on the primary key. */
  lemma MisalignedRefreshFails(t: Rollup, lo: Stamp, hi: Stamp) returns (items: seq<Item>)
    requires lo.utc <= hi.utc && !(lo.offset % MINUTE == 0 && hi.offset % MINUTE == 0)
    ensures items == [Item(StrayTime(lo, hi), SomeGroup(t), 0, false)]
    ensures Refresh(GroupBy(items), items, t, MinuteParams(lo, hi)).None?
  {
    hide FloorMinute, FloorLocal, Refresh, GroupBy;
    MisalignedWindow(lo, hi);
    var x := Item(StrayTime(lo, hi), SomeGroup(t), 0, false);
    items := [x];
    StrayRowCollides(x, t, MinuteParams(lo, hi));
  }

  function SomeGroup(t: Rollup): (g: Group)
    ensures TableOf(g) == t
  {
    match t
    case RevenueMinute => Revenue("Gauteng", "AIRTIME")
    case CallsMinute => Calls("CPT-CBD-001")
    case DataMinute => Data("CPT-CBD-001", "LTE")
    case DlqMinute => Dead("sms", "PARSE_ERROR")
  }

  lemma AlignedWindow(lo: Stamp, hi: Stamp)
    requires lo.utc <= hi.utc && lo.offset % MINUTE == 0 && hi.offset % MINUTE == 0
    ensures var w := MinuteParams(lo, hi); Aligned(w) && w.lo <= lo.utc && hi.utc < w.next
  {
    LocalFloor(lo);
    LocalFloor(hi);
    NoMinuteBetween(FloorLocal(lo), FloorLocal(hi));
  }

  lemma MisalignedWindow(lo: Stamp, hi: Stamp)
    requires lo.utc <= hi.utc && !(lo.offset % MINUTE == 0 && hi.offset % MINUTE == 0)
    ensures var w := MinuteParams(lo, hi);
      && (lo.offset % MINUTE != 0 ==> FloorMinute(w.lo) < w.lo < w.next)
      && (lo.offset % MINUTE == 0 ==> w.lo <= FloorMinute(w.next) && w.hi < FloorMinute(w.next) < w.next
                                      && FloorMinute(FloorMinute(w.next)) == FloorMinute(w.next))
  {
    var w := MinuteParams(lo, hi);
    LocalFloor(lo);
    LocalFloor(hi);
    UtcFloor(w.lo);
    UtcFloor(w.next);
    if lo.offset % MINUTE == 0 {
      NoMinuteBetween(w.lo, FloorMinute(w.next));
      NextMinute(w.hi);
    }
  }

  lemma NoMinuteBetween(a: int, b: int)
    requires a % MINUTE == 0 && b % MINUTE == 0
    ensures a <= b || b + MINUTE <= a
  {
    assert a == a / MINUTE * MINUTE && b == b / MINUTE * MINUTE;
  }

  lemma UtcFloor(ts: int)
    ensures FloorMinute(ts) % MINUTE == 0 && FloorMinute(ts) <= ts < FloorMinute(ts) + MINUTE
    ensures FloorMinute(FloorMinute(ts)) == FloorMinute(ts)
    ensures ts % MINUTE != 0 ==> FloorMinute(ts) < ts
  {
    assert FloorMinute(ts) == ts / MINUTE * MINUTE;
  }

  /** The time is in the minute that starts then. */
  predicate InMinute(ts: int, minute: int) {
    minute % 60_000_000 == 0 && minute <= ts < minute + 60_000_000
  }

  lemma MinuteOf(ts: int, minute: int)
    ensures FloorMinute(ts) == minute <==> InMinute(ts, minute)
  {
    UtcFloor(ts);
    if InMinute(ts, minute) {
      NoMinuteBetween(minute, FloorMinute(ts));
      NoMinuteBetween(FloorMinute(ts), minute);
    }
  }

  lemma NextMinute(ts: int)
    ensures (ts + MINUTE) % MINUTE == ts % MINUTE
  {
  }

  lemma LocalFloor(t: Stamp)
    ensures FloorLocal(t) <= t.utc < FloorLocal(t) + MINUTE
    ensures FloorLocal(t) % MINUTE == 0 <==> t.offset % MINUTE == 0
  {
    UtcFloor(t.utc + t.offset);
    var q, p, r := (t.utc + t.offset) / MINUTE, t.offset / MINUTE, t.offset % MINUTE;
    assert FloorLocal(t) == (q - p) * MINUTE - r;
    if r == 0 {
      ModUnique(q - p, 0);
    } else {
      ModUnique(q - p - 1, MINUTE - r);
    }
  }

  lemma ModUnique(q: int, r: int)
    requires 0 <= r < MINUTE
    ensures (q * MINUTE + r) % MINUTE == r
  {
  }

  /** Later items only add to a tally. */
  lemma {:induction false} TallyAppend(before: seq<Item>, more: seq<Item>, key: AggKey)
    ensures var a, b, c := Tally(before, key), Tally(more, key), Tally(before + more, key);
      c.count == a.count + b.count && c.total == a.total + b.total && c.marked == a.marked + b.marked
  {
    if more == [] {
      assert before + more == before;
    } else {
      var n := |more| - 1;
      TallyAppend(before, more[..n], key);
      assert (before + more)[..|before + more| - 1] == before + more[..n];
    }
  }

  /** Items of other keys do not change a tally. */
  lemma {:induction false} TallyElsewhere(more: seq<Item>, key: AggKey)
    requires forall x :: x in more ==> KeyOf(x) != key
    ensures Tally(more, key) == Cell(0, 0, 0)
  {
    if more != [] {
      TallyElsewhere(more[..|more| - 1], key);
    }
  }

  lemma {:induction false} MarkedAtMostCount(items: seq<Item>, key: AggKey)
    ensures Tally(items, key).marked <= Tally(items, key).count
  {
    if items != [] {
      MarkedAtMostCount(items[..|items| - 1], key);
    }
  }

  lemma {:induction false} ZeroTally(items: seq<Item>, key: AggKey)
    requires Tally(items, key).count == 0
    ensures Tally(items, key) == Cell(0, 0, 0)
  {
    if items != [] {
      ZeroTally(items[..|items| - 1], key);
    }
  }

  /** The three measures of a rollup row, and of the source rows it summarises. */
  datatype Measure = RowCount | Total | Marked

  function OfCell(m: Measure, c: Cell): int {
    match m
    case RowCount => c.count
    case Total => c.total
    case Marked => c.marked
  }

  function OfItem(m: Measure, x: Item): int {
    match m
    case RowCount => 1
    case Total => x.total
    case Marked => if x.marked then 1 else 0
  }

  /** The sum of a measure over all rows of one rollup table. */
  ghost function SumRows(agg: Agg, t: Rollup, m: Measure): int {
    if agg == map[] then 0
    else
      var key :| key in agg;
      Share(agg, t, m, key) + SumRows(agg - {key}, t, m)
  }

  function Share(agg: Agg, t: Rollup, m: Measure, key: AggKey): int
    requires key in agg
  {
    if TableOf(key.group) == t then OfCell(m, agg[key]) else 0
  }

  /** The sum of a measure over the source rows of one rollup table. */
  function SumItems(items: seq<Item>, t: Rollup, m: Measure): int {
    if items == [] then 0
    else
      var x := items[|items| - 1];
      SumItems(items[..|items| - 1], t, m) + if TableOf(x.group) == t then OfItem(m, x) else 0
  }

  lemma {:induction false} SumRemove(agg: Agg, t: Rollup, m: Measure, key: AggKey)
    requires key in agg
    ensures SumRows(agg, t, m) == Share(agg, t, m, key) + SumRows(agg - {key}, t, m)
    decreases agg
  {
    var first :| first in agg && SumRows(agg, t, m) == Share(agg, t, m, first) + SumRows(agg - {first}, t, m);
    if first != key {
      var a, b := agg - {first}, agg - {key};
      SumRemove(a, t, m, key);
      SumRemove(b, t, m, first);
      assert a - {key} == b - {first};
      assert SumRows(a, t, m) == Share(agg, t, m, key) + SumRows(a - {key}, t, m);
      assert SumRows(b, t, m) == Share(agg, t, m, first) + SumRows(b - {first}, t, m);
    }
  }

  lemma SumUpdate(agg: Agg, t: Rollup, m: Measure, key: AggKey, c: Cell)
    ensures SumRows(agg[key := c], t, m) == SumRows(agg - {key}, t, m)
                                          + if TableOf(key.group) == t then OfCell(m, c) else 0
  {
    SumRemove(agg[key := c], t, m, key);
    assert agg[key := c] - {key} == agg - {key};
  }

  /** One more source row changes one rollup row. */
  lemma ViewSnoc(agg: Agg, items: seq<Item>, x: Item)
    requires Exact(agg, items + [x])
    ensures agg == GroupBy(items)[KeyOf(x) := Tally(items + [x], KeyOf(x))]
    ensures Tally(items + [x], KeyOf(x)) == Add(Tally(items, KeyOf(x)), x)
    ensures Lookup(GroupBy(items), KeyOf(x)) == View(items, KeyOf(x))
  {
    hide GroupBy, FloorMinute;
    var before, all := GroupBy(items), items + [x];
    assert all[..|items|] == items;
    GroupByIsView(items);
    forall k ensures Lookup(agg, k) == Lookup(before[KeyOf(x) := Tally(all, KeyOf(x))], k) {
      assert Lookup(before, k) == View(items, k);
    }
    SameLookups(agg, before[KeyOf(x) := Tally(all, KeyOf(x))]);
  }

  /** An exact rollup conserves totals: summing a measure over the rows of a rollup
      table gives its sum over the source rows. */
  lemma {:induction false} TotalsConserved(agg: Agg, items: seq<Item>, t: Rollup, m: Measure)
    requires Exact(agg, items)
    ensures SumRows(agg, t, m) == SumItems(items, t, m)
    decreases |items|
  {
    hide GroupBy, FloorMinute, KeyOf, SumRows, Tally;
    if items == [] {
      EmptyRollup(agg, t, m);
    } else {
      var init, x := items[..|items| - 1], items[|items| - 1];
      var before, key := GroupBy(init), KeyOf(x);
      assert items == init + [x];
      GroupByIsView(init);
      TotalsConserved(before, init, t, m);
      ViewSnoc(agg, init, x);
      SumUpdate(before, t, m, key, Tally(items, key));
      KeyGroup(x);
      if key in before {
        SumRemove(before, t, m, key);
      } else {
        assert before - {key} == before;
        ZeroTally(init, key);
      }
    }
  }

  lemma KeyGroup(x: Item)
    ensures KeyOf(x).group == x.group
  {
  }

  lemma EmptyRollup(agg: Agg, t: Rollup, m: Measure)
    requires Exact(agg, [])
    ensures agg == map[] && SumRows(agg, t, m) == 0
  {
    assert forall key :: key in agg ==> Lookup(agg, key).Some?;
  }

  /** The rows of one rollup table. */
  ghost function OnlyTable(agg: Agg, t: Rollup): Agg {
    map key | key in agg && TableOf(key.group) == t :: agg[key]
  }

  lemma SameLookups(a: Agg, b: Agg)
    requires forall key :: Lookup(a, key) == Lookup(b, key)
    ensures a == b
  {
    assert forall key :: key in a <==> Lookup(a, key).Some?;
    assert forall key :: key in b <==> Lookup(b, key).Some?;
    assert forall key :: key in a ==> a[key] == Lookup(a, key).value == Lookup(b, key).value;
  }
}
