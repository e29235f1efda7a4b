/** Shelf packing of dashboard panels on a 24-column grid. */
module Dashboard {
  const GRID_W: int := 24

  datatype Size = Size(w: int, h: int)
  datatype Pos = Pos(x: int, y: int)

  /** The packing loop's variables: where the next panel would go, and how tall the
      current row is. */
  datatype Cursor = Cursor(x: int, y: int, rowH: int)

  function Max(a: int, b: int): int { if a >= b then a else b }

  predicate Wraps(c: Cursor, s: Size) { c.x + s.w > GRID_W }

  function Wrap(c: Cursor, s: Size): Cursor {
    if Wraps(c, s) then Cursor(0, c.y + c.rowH, 0) else c
  }

  function After(sizes: seq<Size>, k: nat): Cursor
    requires k <= |sizes|
  {
    if k == 0 then Cursor(0, 0, 0)
    else
      var s := sizes[k - 1];
      var c := Wrap(After(sizes, k - 1), s);
      Cursor(c.x + s.w, c.y, Max(c.rowH, s.h))
  }

  function Place(sizes: seq<Size>, i: nat): Pos
    requires i < |sizes|
  {
    var c := Wrap(After(sizes, i), sizes[i]);
    Pos(c.x, c.y)
  }

  class Panel {
    const w: int
    const h: int
    var x: int
    var y: int
    var id: int

    constructor (w: int, h: int)
      ensures this.w == w && this.h == h
    {
      this.w, this.h := w, h;
    }
  }

  function Sizes(panels: seq<Panel>): seq<Size> {
    seq(|panels|, i requires 0 <= i < |panels| => Size(panels[i].w, panels[i].h))
  }

  /** A panel listed more than once keeps the place of its last listing. */
  ghost predicate LastUse(panels: seq<Panel>, i: nat, n: nat)
    requires i < n <= |panels|
  {
    forall j :: i < j < n ==> panels[j] != panels[i]
  }

  ghost predicate PlacedAt(panels: seq<Panel>, i: nat)
    requires i < |panels|
    reads panels[i]
  {
    Pos(panels[i].x, panels[i].y) == Place(Sizes(panels), i)
  }

  /** Gives every panel its place and its number, in place. */
  method Arrange(panels: seq<Panel>)
    modifies panels
    ensures forall i :: 0 <= i < |panels| && LastUse(panels, i, |panels|) ==> PlacedAt(panels, i) && panels[i].id == i + 1
  {
    PlaceAll(panels);
    NumberAll(panels);
  }

  method PlaceAll(panels: seq<Panel>)
    modifies panels
    ensures forall i :: 0 <= i < |panels| && LastUse(panels, i, |panels|) ==> PlacedAt(panels, i)
  {
    var x, y, rowH := 0, 0, 0;
    ghost var sizes := Sizes(panels);
    for i := 0 to |panels|
      invariant Cursor(x, y, rowH) == After(sizes, i)
      invariant forall k :: 0 <= k < i && LastUse(panels, k, i) ==> PlacedAt(panels, k)
    {
      var p := panels[i];
      assert sizes[i] == Size(p.w, p.h);
      if x + p.w > GRID_W {
        x, y := 0, y + rowH;
        rowH := 0;
      }
      p.x, p.y := x, y;
      x := x + p.w;
      rowH := if rowH >= p.h then rowH else p.h;
      forall k | 0 <= k < i + 1 && LastUse(panels, k, i + 1) ensures PlacedAt(panels, k) {
        assert k < i ==> panels[i] != panels[k] && LastUse(panels, k, i);
      }
    }
  }

  method NumberAll(panels: seq<Panel>)
    modifies panels`id
    ensures forall i :: 0 <= i < |panels| && LastUse(panels, i, |panels|) ==> panels[i].id == i + 1
  {
    for i := 0 to |panels|
      invariant forall k :: 0 <= k < i && LastUse(panels, k, i) ==> panels[k].id == k + 1
    {
      panels[i].id := i + 1;
      forall k | 0 <= k < i + 1 && LastUse(panels, k, i + 1) ensures panels[k].id == k + 1 {
        assert k < i ==> panels[i] != panels[k] && LastUse(panels, k, i);
      }
    }
  }

  // ----- properties of the packing -----

  /** Panels that fit the grid. */
  predicate Fit(sizes: seq<Size>) {
    forall i | 0 <= i < |sizes| :: 0 < sizes[i].w <= 24 && sizes[i].h > 0
  }

  /** The cursor is right of and level with the current row, and the row's bottom is
      the lowest bottom so far. */
  ghost predicate CursorOk(sizes: seq<Size>, k: nat)
    requires k <= |sizes|
  {
    var c := After(sizes, k);
    && 0 <= c.x <= GRID_W && 0 <= c.y && 0 <= c.rowH && (k > 0 ==> c.x > 0 && c.rowH > 0)
    && (forall i :: 0 <= i < k ==> Above(sizes, i, c))
    && (c.y + c.rowH > 0 ==> exists i :: 0 <= i < k && Bottom(sizes, i) == c.y + c.rowH)
  }

  function Bottom(sizes: seq<Size>, i: nat): int
    requires i < |sizes|
  {
    Place(sizes, i).y + sizes[i].h
  }

  /** Panel i lies inside the grid, and left of the cursor in its row or in a row above. */
  ghost predicate Above(sizes: seq<Size>, i: nat, c: Cursor)
    requires i < |sizes|
  {
    var p, s := Place(sizes, i), sizes[i];
    && 0 <= p.x && 0 <= p.y && p.x + s.w <= GRID_W && Bottom(sizes, i) <= c.y + c.rowH
    && ((p.y == c.y && p.x + s.w <= c.x) || Bottom(sizes, i) <= c.y)
  }

  lemma {:induction false} CursorHolds(sizes: seq<Size>, k: nat)
    requires Fit(sizes) && k <= |sizes|
    ensures CursorOk(sizes, k)
  {
    if k > 0 {
      CursorHolds(sizes, k - 1);
      var before, c := After(sizes, k - 1), After(sizes, k);
      forall i | 0 <= i < k ensures Above(sizes, i, c) {
        assert i < k - 1 ==> Above(sizes, i, before);
      }
      if c.rowH == sizes[k - 1].h {
        assert Bottom(sizes, k - 1) == c.y + c.rowH;
      }
    }
  }

  ghost predicate Overlap(p: Pos, s: Size, q: Pos, r: Size) {
    p.x < q.x + r.w && q.x < p.x + s.w && p.y < q.y + r.h && q.y < p.y + s.h
  }

  /** Every panel is inside the grid and no two panels overlap. */
  lemma NoTwoOverlap(sizes: seq<Size>, i: nat, j: nat)
    requires Fit(sizes) && i < j < |sizes|
    ensures !Overlap(Place(sizes, i), sizes[i], Place(sizes, j), sizes[j])
    ensures 0 <= Place(sizes, i).x && Place(sizes, i).x + sizes[i].w <= 24 && Place(sizes, i).y >= 0
    ensures 0 <= Place(sizes, j).x && Place(sizes, j).x + sizes[j].w <= 24 && Place(sizes, j).y >= 0
  {
    CursorHolds(sizes, j);
    assert Above(sizes, i, After(sizes, j));
  }

  /** Panel j follows panel j - 1 in its row. */
  ghost predicate Follows(sizes: seq<Size>, j: nat)
    requires 0 < j < |sizes|
  {
    var p, q := Place(sizes, j - 1), Place(sizes, j);
    q == Pos(p.x + sizes[j - 1].w, p.y)
  }

  /** Panel j starts a row because it did not fit, directly below the tallest panel
      above: every panel before it ends at or above its top, and one ends there. */
  ghost predicate StartsRow(sizes: seq<Size>, j: nat)
    requires 0 < j < |sizes|
  {
    var p, q := Place(sizes, j - 1), Place(sizes, j);
    && q.x == 0 && p.x + sizes[j - 1].w + sizes[j].w > 24
    && (forall i :: 0 <= i < j ==> Bottom(sizes, i) <= q.y)
    && exists i :: 0 <= i < j && Bottom(sizes, i) == q.y
  }

  /** Rows are filled from the left without gaps and stack without gaps. */
  lemma RowsStackWithoutGaps(sizes: seq<Size>)
    requires Fit(sizes)
    ensures sizes != [] ==> Place(sizes, 0) == Pos(0, 0)
    ensures forall j :: 0 < j < |sizes| ==> if Wraps(After(sizes, j), sizes[j]) then StartsRow(sizes, j) else Follows(sizes, j)
  {
    forall j | 0 < j < |sizes| ensures if Wraps(After(sizes, j), sizes[j]) then StartsRow(sizes, j) else Follows(sizes, j) {
      CursorHolds(sizes, j);
      var c := After(sizes, j);
      assert c.x == Place(sizes, j - 1).x + sizes[j - 1].w && c.y == Place(sizes, j - 1).y;
      forall i | 0 <= i < j ensures Bottom(sizes, i) <= c.y + c.rowH {
        assert Above(sizes, i, c);
      }
      var tallest :| 0 <= tallest < j && Bottom(sizes, tallest) == c.y + c.rowH;
    }
  }

  // ----- how many rows -----

  function RowCount(sizes: seq<Size>, k: nat): nat
    requires k <= |sizes|
  {
    if k == 0 then 1
    else RowCount(sizes, k - 1) + if Wraps(After(sizes, k - 1), sizes[k - 1]) then 1 else 0
  }

  /** The tops of the first k panels: one per row that holds a panel. */
  ghost function Tops(sizes: seq<Size>, k: nat): set<int>
    requires k <= |sizes|
  {
    set i | 0 <= i < k :: Place(sizes, i).y
  }

  lemma TopsSnoc(sizes: seq<Size>, k: nat)
    requires k < |sizes|
    ensures Tops(sizes, k + 1) == Tops(sizes, k) + {Place(sizes, k).y}
    ensures Tops(sizes, 0) == {}
  {
    hide Place;
  }

  lemma {:induction false} TopsOfRows(sizes: seq<Size>, k: nat)
    requires Fit(sizes) && 0 < k <= |sizes|
    ensures |Tops(sizes, k)| == RowCount(sizes, k)
    ensures After(sizes, k).y in Tops(sizes, k) && forall y :: y in Tops(sizes, k) ==> y <= After(sizes, k).y
  {
    hide Tops, CursorOk;
    var last := Place(sizes, k - 1).y;
    TopsSnoc(sizes, k - 1);
    if k > 1 {
      TopsOfRows(sizes, k - 1);
      RowHasHeight(sizes, k - 1);
      var tops, c := Tops(sizes, k - 1), After(sizes, k - 1);
      if Wraps(c, sizes[k - 1]) {
        assert last == c.y + c.rowH && last !in tops;
      } else {
        assert last == c.y && tops + {last} == tops;
      }
    }
  }

  lemma RowHasHeight(sizes: seq<Size>, k: nat)
    requires Fit(sizes) && 0 < k <= |sizes|
    ensures After(sizes, k).rowH > 0
  {
    CursorHolds(sizes, k);
  }

  /** The number of rows is the number of different tops of the placed panels. */
  lemma RowCountIsRows(sizes: seq<Size>)
    requires Fit(sizes) && sizes != []
    ensures RowCount(sizes, |sizes|) == |set i | 0 <= i < |sizes| :: Place(sizes, i).y|
  {
    hide Place, After;
    TopsOfRows(sizes, |sizes|);
    assert Tops(sizes, |sizes|) == set i | 0 <= i < |sizes| :: Place(sizes, i).y;
  }

  function TotalWidth(sizes: seq<Size>, k: nat): int
    requires k <= |sizes|
  {
    if k == 0 then 0 else TotalWidth(sizes, k - 1) + sizes[k - 1].w
  }

  /** Any two rows in succession are together wider than the grid. */
  lemma {:induction false} PairsOfRowsAreWide(sizes: seq<Size>, k: nat)
    requires Fit(sizes) && k <= |sizes|
    ensures var r, x, width := RowCount(sizes, k), After(sizes, k).x, TotalWidth(sizes, k);
      && x <= width && (k > 0 ==> x > 0)
      && (r % 2 == 1 ==> width - x >= GRID_W * (r / 2))
      && (r % 2 == 0 ==> width > GRID_W * (r / 2))
  {
    if k > 0 {
      PairsOfRowsAreWide(sizes, k - 1);
      CursorHolds(sizes, k - 1);
    }
  }

  /** With two rows or more, half of them, rounded down, could not have held the panels. */
  lemma RowsAreNeeded(sizes: seq<Size>)
    requires Fit(sizes) && RowCount(sizes, |sizes|) >= 2
    ensures 24 * (RowCount(sizes, |sizes|) / 2) < TotalWidth(sizes, |sizes|)
  {
    PairsOfRowsAreWide(sizes, |sizes|);
  }
}
