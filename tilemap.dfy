/**
 * The wall merger of the tile map: the occupied cells of one LDtk layer are cut into
 * maximal horizontal runs ("plates") row by row, and identical plates of consecutive rows
 * are stacked greedily into rectangles, one physics collider each.
 */
module Tilemap {
  import opened Wrappers

  /** LDtk `GridCoords`: one cell of a layer. */
  datatype GridCoords = GridCoords(x: int, y: int)

  /** A run of cells one tile tall, columns `left..right` inclusive. */
  datatype Plate = Plate(left: int, right: int)

  /** A merged wall in cell units, all bounds inclusive. */
  datatype Rect = Rect(left: int, right: int, top: int, bottom: int)

  function PlateOf(r: Rect): Plate { Plate(r.left, r.right) }

  predicate InRect(c: GridCoords, r: Rect) {
    r.left <= c.x <= r.right && r.bottom <= c.y <= r.top
  }

  predicate InLayer(c: GridCoords, width: int, height: int) {
    0 <= c.x < width && 0 <= c.y < height
  }

  predicate NoDup<T(==)>(s: seq<T>) {
    forall i, j :: 0 <= i < j < |s| ==> s[i] != s[j]
  }

  /** Plates of one row, left to right, with at least one free cell between neighbours. */
  predicate Ordered(row: seq<Plate>) {
    && (forall i :: 0 <= i < |row| ==> row[i].left <= row[i].right)
    && (forall i, j :: 0 <= i < j < |row| ==> row[i].right + 1 < row[j].left)
  }

  // ---------------------------------------------------------------------------
  // What the merger computes

  /**
   * `p` is a maximal run of occupied cells of row `y` inside columns `0..width-1`:
   * every cell of it is occupied, the cell left of it is free or off the layer, and the
   * cell right of it is free (the scan looks at column `width` too).
   */
  ghost predicate IsRun(cells: set<GridCoords>, width: int, y: int, p: Plate) {
    && 0 <= p.left <= p.right < width
    && (forall x :: p.left <= x <= p.right ==> GridCoords(x, y) in cells)
    && (p.left == 0 || GridCoords(p.left - 1, y) !in cells)
    && GridCoords(p.right + 1, y) !in cells
  }

  /** Row `y` of a layer `height` rows tall holds plate `p`; rows outside the layer hold none. */
  ghost predicate RowHas(cells: set<GridCoords>, width: int, height: int, y: int, p: Plate) {
    0 <= y < height && IsRun(cells, width, y, p)
  }

  /** Plate `p` occurs in every row `bottom..top` and not in the row just below `bottom`. */
  ghost predicate StackFrom(cells: set<GridCoords>, width: int, height: int, p: Plate, bottom: int, top: int) {
    && 0 <= bottom <= top
    && (forall k :: bottom <= k <= top ==> RowHas(cells, width, height, k, p))
    && (bottom == 0 || !RowHas(cells, width, height, bottom - 1, p))
  }

  /** `r` is a maximal vertical stack of one identical plate: what the greedy merge emits. */
  ghost predicate MaximalStack(cells: set<GridCoords>, width: int, height: int, r: Rect) {
    && StackFrom(cells, width, height, PlateOf(r), r.bottom, r.top)
    && !RowHas(cells, width, height, r.top + 1, PlateOf(r))
  }

  // ---------------------------------------------------------------------------
  // The merger

  /** The plates of row `y`: one scan over the columns `0..width` inclusive. */
  method ScanRow(cells: set<GridCoords>, width: int, y: int) returns (rowPlates: seq<Plate>)
    ensures forall p :: p in rowPlates <==> IsRun(cells, width, y, p)
    ensures Ordered(rowPlates)
  {
    rowPlates := [];
    var plateStart: Option<int> := None;
    var x := 0;
    while x < width + 1
      invariant x == 0 || x <= width + 1
      invariant 0 <= x
      invariant plateStart.None? ==> x == 0 || GridCoords(x - 1, y) !in cells
      invariant plateStart.Some? ==> 0 <= plateStart.value < x
      invariant plateStart.Some? ==> forall k :: plateStart.value <= k < x ==> GridCoords(k, y) in cells
      invariant plateStart.Some? ==> plateStart.value == 0 || GridCoords(plateStart.value - 1, y) !in cells
      invariant plateStart.Some? ==> forall p :: p in rowPlates ==> p.right + 1 < plateStart.value
      invariant forall p :: p in rowPlates <==> IsRun(cells, width, y, p) && p.right + 1 < x
      invariant Ordered(rowPlates)
    {
      match (plateStart, GridCoords(x, y) in cells) {
        case (Some(s), false) =>
          RunStartsAgree(cells, width, y, s, x);
          rowPlates := rowPlates + [Plate(s, x - 1)];
          plateStart := None;
        case (None, true) =>
          plateStart := Some(x);
        case (Some(s), true) =>
          RunStartsAgree(cells, width, y, s, x);
        case (None, false) =>
      }
      x := x + 1;
    }
  }

  /** Two left ends of the run of occupied cells ending at column `x - 1` are the same one. */
  lemma RunStartsAgree(cells: set<GridCoords>, width: int, y: int, s: int, x: int)
    requires 0 <= s < x
    requires forall k :: s <= k < x ==> GridCoords(k, y) in cells
    requires s == 0 || GridCoords(s - 1, y) !in cells
    ensures forall p :: IsRun(cells, width, y, p) && p.right == x - 1 ==> p.left == s
  {
    forall p | IsRun(cells, width, y, p) && p.right == x - 1
      ensures p.left == s
    {
      assert p.left < s ==> GridCoords(s - 1, y) in cells;
      assert s < p.left ==> GridCoords(p.left - 1, y) in cells;
    }
  }

  /** The rectangle plate `p` of row `y` belongs to: its predecessor one row taller, or a new one. */
  function Continued(previousRects: map<Plate, Rect>, p: Plate, y: int): Rect {
    if p in previousRects then previousRects[p].(top := previousRects[p].top + 1)
    else Rect(p.left, p.right, y, y)
  }

  /**
   * Row `y` continues the rectangles of the previous row: a plate found among the previous
   * row's rectangles grows that rectangle by one row and is taken out of `previousRects`,
   * any other plate starts a rectangle one row tall. What stays in `previousRects` ended.
   */
  method ContinueRects(previousRects: map<Plate, Rect>, row: seq<Plate>, y: int)
    returns (currentRects: map<Plate, Rect>, terminated: map<Plate, Rect>)
    requires NoDup(row)
    ensures forall p :: p in currentRects <==> p in row
    ensures forall p :: p in currentRects ==> currentRects[p] == Continued(previousRects, p, y)
    ensures forall p :: p in terminated <==> p in previousRects && p !in row
    ensures forall p :: p in terminated ==> terminated[p] == previousRects[p]
  {
    currentRects := map[];
    terminated := previousRects;
    for i := 0 to |row|
      invariant forall p :: p in currentRects <==> p in row[..i]
      invariant forall p :: p in currentRects ==> currentRects[p] == Continued(previousRects, p, y)
      invariant forall p :: p in terminated <==> p in previousRects && p !in row[..i]
      invariant forall p :: p in terminated ==> terminated[p] == previousRects[p]
    {
      var plate := row[i];
      assert plate !in row[..i];
      assert row[..i + 1] == row[..i] + [plate];
      if plate in terminated {
        var previousRect := terminated[plate];
        terminated := terminated - {plate};
        currentRects := currentRects[plate := previousRect.(top := previousRect.top + 1)];
      } else {
        currentRects := currentRects[plate := Rect(plate.left, plate.right, y, y)];
      }
    }
  }

  /** The values of `m`, each once, in whatever order the map yields them. */
  method CollectValues(m: map<Plate, Rect>) returns (values: seq<Rect>)
    requires forall p :: p in m ==> PlateOf(m[p]) == p
    ensures forall r :: r in values <==> r in m.Values
    ensures NoDup(values)
  {
    values := [];
    var rest := m;
    while rest != map[]
      invariant forall p :: p in rest ==> p in m && rest[p] == m[p]
      invariant forall p :: p in m ==> p in rest || m[p] in values
      invariant forall r :: r in values ==> PlateOf(r) in m && PlateOf(r) !in rest && m[PlateOf(r)] == r
      invariant NoDup(values)
      decreases rest.Keys
    {
      var p :| p in rest;
      values := values + [rest[p]];
      rest := rest - {p};
    }
  }

  /**
   * `merge_grids`: the rectangles are exactly the maximal stacks of identical maximal runs,
   * each emitted once; they lie on the layer, share no cell, cover only occupied cells, and
   * cover every occupied cell of the layer whose row is free at column `width`.
   */
  method MergeGrids(width: int, height: int, gridCoords: set<GridCoords>) returns (rects: seq<Rect>)
    ensures forall r :: r in rects <==> MaximalStack(gridCoords, width, height, r)
    ensures NoDup(rects)
    ensures forall r :: r in rects ==> 0 <= r.left <= r.right < width && 0 <= r.bottom <= r.top < height
    ensures forall i, j, c :: 0 <= i < j < |rects| && InRect(c, rects[i]) ==> !InRect(c, rects[j])
    ensures forall r, c :: r in rects && InRect(c, r) ==> c in gridCoords
    ensures forall c :: c in gridCoords && InLayer(c, width, height) && GridCoords(width, c.y) !in gridCoords ==>
      exists r :: r in rects && InRect(c, r)
    ensures gridCoords == {} ==> rects == []
  {
    // plates of each row
    var plateStack: seq<seq<Plate>> := [];
    var y := 0;
    while y < height
      invariant y == 0 || y <= height
      invariant 0 <= y && |plateStack| == y
      invariant forall k, p :: 0 <= k < y ==> (p in plateStack[k] <==> IsRun(gridCoords, width, k, p))
      invariant forall k :: 0 <= k < y ==> Ordered(plateStack[k])
    {
      var rowPlates := ScanRow(gridCoords, width, y);
      plateStack := plateStack + [rowPlates];
      y := y + 1;
    }
    // an extra empty row ends the rectangles that touch the top edge
    plateStack := plateStack + [[]];
    assert forall k, p :: 0 <= k < |plateStack| ==> (p in plateStack[k] <==> RowHas(gridCoords, width, height, k, p));

    // stack plates into rectangles
    rects := [];
    var previousRects: map<Plate, Rect> := map[];
    var i := 0;
    while i < |plateStack|
      invariant 0 <= i <= |plateStack|
      invariant PreviousInv(gridCoords, width, height, i, previousRects)
      invariant EmittedInv(gridCoords, width, height, i, rects)
    {
      var row := plateStack[i];
      OrderedNoDup(row);
      var currentRects, terminated := ContinueRects(previousRects, row, i);
      var ended := CollectValues(terminated);
      CurrentStep(gridCoords, width, height, i, previousRects, row, currentRects);
      EmittedStep(gridCoords, width, height, i, previousRects, row, terminated, ended, rects);
      rects := rects + ended;
      previousRects := currentRects;
      i := i + 1;
    }
    forall r | MaximalStack(gridCoords, width, height, r)
      ensures r in rects
    {
      assert RowHas(gridCoords, width, height, r.top, PlateOf(r));
    }

    forall r | r in rects
      ensures 0 <= r.left <= r.right < width && 0 <= r.bottom <= r.top < height
    {
      assert RowHas(gridCoords, width, height, r.top, PlateOf(r));
    }
    forall i, j, c | 0 <= i < j < |rects| && InRect(c, rects[i])
      ensures !InRect(c, rects[j])
    {
      if InRect(c, rects[j]) {
        StacksDisjoint(gridCoords, width, height, rects[i], rects[j], c);
      }
    }
    forall r, c | r in rects && InRect(c, r)
      ensures c in gridCoords
    {
      assert RowHas(gridCoords, width, height, c.y, PlateOf(r));
    }
    forall c | c in gridCoords && InLayer(c, width, height) && GridCoords(width, c.y) !in gridCoords
      ensures exists r :: r in rects && InRect(c, r)
    {
      var r := CoveringStack(gridCoords, width, height, c);
      assert r in rects;
    }
    if rects != [] {
      assert InRect(GridCoords(rects[0].left, rects[0].top), rects[0]);
    }
  }

  // ---------------------------------------------------------------------------
  // Loop invariants of the rectangle pass and the steps that keep them

  /** Before row `y`: the rectangles in progress are keyed by the plates of row `y - 1` and end there. */
  ghost predicate PreviousInv(cells: set<GridCoords>, width: int, height: int, y: int, previous: map<Plate, Rect>) {
    && (forall p :: p in previous <==> RowHas(cells, width, height, y - 1, p))
    && (forall p :: p in previous ==>
          && PlateOf(previous[p]) == p
          && previous[p].top == y - 1
          && StackFrom(cells, width, height, p, previous[p].bottom, y - 1))
  }

  /** Before row `y`: exactly the maximal stacks ending below row `y - 1` were emitted, once each. */
  ghost predicate EmittedInv(cells: set<GridCoords>, width: int, height: int, y: int, rects: seq<Rect>) {
    && (forall r :: r in rects <==> MaximalStack(cells, width, height, r) && r.top < y - 1)
    && NoDup(rects)
  }

  lemma OrderedNoDup(row: seq<Plate>)
    requires Ordered(row)
    ensures NoDup(row)
  {
    forall i, j | 0 <= i < j < |row|
      ensures row[i] != row[j]
    {
      assert row[i].right + 1 < row[j].left;
    }
  }

  /** A stack of plate `p` ending at row `top` has one possible bottom. */
  lemma StackBottomUnique(cells: set<GridCoords>, width: int, height: int, p: Plate, b1: int, b2: int, top: int)
    requires StackFrom(cells, width, height, p, b1, top)
    requires StackFrom(cells, width, height, p, b2, top)
    ensures b1 == b2
  {
    assert b1 < b2 ==> RowHas(cells, width, height, b2 - 1, p);
    assert b2 < b1 ==> RowHas(cells, width, height, b1 - 1, p);
  }

  lemma CurrentStep(cells: set<GridCoords>, width: int, height: int, y: int,
                    previous: map<Plate, Rect>, row: seq<Plate>, current: map<Plate, Rect>)
    requires 0 <= y
    requires PreviousInv(cells, width, height, y, previous)
    requires forall p :: p in row <==> RowHas(cells, width, height, y, p)
    requires forall p :: p in current <==> p in row
    requires forall p :: p in current ==> current[p] == Continued(previous, p, y)
    ensures PreviousInv(cells, width, height, y + 1, current)
  {
    forall p | p in current
      ensures PlateOf(current[p]) == p && current[p].top == y
      ensures StackFrom(cells, width, height, p, current[p].bottom, y)
    {
      if p in previous {
        var b := previous[p].bottom;
        assert StackFrom(cells, width, height, p, b, y - 1);
        forall k | b <= k <= y
          ensures RowHas(cells, width, height, k, p)
        {
          if k < y {
            assert b <= k <= y - 1;
          }
        }
      }
    }
  }

  lemma EmittedStep(cells: set<GridCoords>, width: int, height: int, y: int,
                    previous: map<Plate, Rect>, row: seq<Plate>, terminated: map<Plate, Rect>,
                    ended: seq<Rect>, rects: seq<Rect>)
    requires 0 <= y
    requires PreviousInv(cells, width, height, y, previous)
    requires EmittedInv(cells, width, height, y, rects)
    requires forall p :: p in row <==> RowHas(cells, width, height, y, p)
    requires forall p :: p in terminated <==> p in previous && p !in row
    requires forall p :: p in terminated ==> terminated[p] == previous[p]
    requires forall r :: r in ended <==> r in terminated.Values
    requires NoDup(ended)
    ensures EmittedInv(cells, width, height, y + 1, rects + ended)
  {
    forall r | r in ended
      ensures MaximalStack(cells, width, height, r) && r.top == y - 1
    {
      var p :| p in terminated && terminated[p] == r;
    }
    forall r | MaximalStack(cells, width, height, r) && r.top == y - 1
      ensures r in ended
    {
      var p := PlateOf(r);
      assert RowHas(cells, width, height, y - 1, p);
      assert p in terminated;
      StackBottomUnique(cells, width, height, p, previous[p].bottom, r.bottom, y - 1);
      assert terminated[p] == r;
    }
    var all := rects + ended;
    forall i, j | 0 <= i < j < |all|
      ensures all[i] != all[j]
    {
      if i < |rects| && j >= |rects| {
        assert all[i] in rects && all[j] in ended;
      } else if j < |rects| {
        assert all[i] == rects[i] && all[j] == rects[j];
      } else {
        assert all[i] == ended[i - |rects|] && all[j] == ended[j - |rects|];
      }
    }
  }

  // ---------------------------------------------------------------------------
  // Properties of the maximal stacks

  /** Two maximal runs of one row that share a column are the same run. */
  lemma RunsOverlapEqual(cells: set<GridCoords>, width: int, y: int, p: Plate, q: Plate, x: int)
    requires IsRun(cells, width, y, p) && IsRun(cells, width, y, q)
    requires p.left <= x <= p.right && q.left <= x <= q.right
    ensures p == q
  {
    assert p.left < q.left ==> GridCoords(q.left - 1, y) in cells;
    assert q.left < p.left ==> GridCoords(p.left - 1, y) in cells;
    assert p.right < q.right ==> GridCoords(p.right + 1, y) in cells;
    assert q.right < p.right ==> GridCoords(q.right + 1, y) in cells;
  }

  /** Two maximal stacks that share a cell are the same rectangle. */
  lemma StacksDisjoint(cells: set<GridCoords>, width: int, height: int, r1: Rect, r2: Rect, c: GridCoords)
    requires MaximalStack(cells, width, height, r1) && MaximalStack(cells, width, height, r2)
    requires InRect(c, r1) && InRect(c, r2)
    ensures r1 == r2
  {
    var p1, p2 := PlateOf(r1), PlateOf(r2);
    assert RowHas(cells, width, height, c.y, p1) && RowHas(cells, width, height, c.y, p2);
    RunsOverlapEqual(cells, width, c.y, p1, p2, c.x);
    assert r1.bottom < r2.bottom ==> RowHas(cells, width, height, r2.bottom - 1, p1);
    assert r2.bottom < r1.bottom ==> RowHas(cells, width, height, r1.bottom - 1, p2);
    assert r1.top < r2.top ==> RowHas(cells, width, height, r1.top + 1, p2);
    assert r2.top < r1.top ==> RowHas(cells, width, height, r2.top + 1, p1);
  }

  ghost function RunLeft(cells: set<GridCoords>, y: int, x: int): int
    decreases x
  {
    if x > 0 && GridCoords(x - 1, y) in cells then RunLeft(cells, y, x - 1) else x
  }

  lemma {:induction false} RunLeftIsStart(cells: set<GridCoords>, y: int, x: int)
    requires 0 <= x && GridCoords(x, y) in cells
    ensures 0 <= RunLeft(cells, y, x) <= x
    ensures forall k :: RunLeft(cells, y, x) <= k <= x ==> GridCoords(k, y) in cells
    ensures RunLeft(cells, y, x) == 0 || GridCoords(RunLeft(cells, y, x) - 1, y) !in cells
    decreases x
  {
    if x > 0 && GridCoords(x - 1, y) in cells {
      RunLeftIsStart(cells, y, x - 1);
    }
  }

  ghost function RunRight(cells: set<GridCoords>, width: int, y: int, x: int): int
    decreases width - x
  {
    if x + 1 < width && GridCoords(x + 1, y) in cells then RunRight(cells, width, y, x + 1) else x
  }

  lemma {:induction false} RunRightIsEnd(cells: set<GridCoords>, width: int, y: int, x: int)
    requires x < width && GridCoords(x, y) in cells
    ensures x <= RunRight(cells, width, y, x) < width
    ensures forall k :: x <= k <= RunRight(cells, width, y, x) ==> GridCoords(k, y) in cells
    ensures RunRight(cells, width, y, x) + 1 == width || GridCoords(RunRight(cells, width, y, x) + 1, y) !in cells
    decreases width - x
  {
    if x + 1 < width && GridCoords(x + 1, y) in cells {
      RunRightIsEnd(cells, width, y, x + 1);
    }
  }

  ghost function StackBottom(cells: set<GridCoords>, width: int, height: int, p: Plate, y: int): int
    decreases y
  {
    if y > 0 && RowHas(cells, width, height, y - 1, p) then StackBottom(cells, width, height, p, y - 1) else y
  }

  lemma {:induction false} StackBottomIsStart(cells: set<GridCoords>, width: int, height: int, p: Plate, y: int)
    requires RowHas(cells, width, height, y, p)
    ensures StackFrom(cells, width, height, p, StackBottom(cells, width, height, p, y), y)
    decreases y
  {
    if y > 0 && RowHas(cells, width, height, y - 1, p) {
      StackBottomIsStart(cells, width, height, p, y - 1);
    }
  }

  ghost function StackTop(cells: set<GridCoords>, width: int, height: int, p: Plate, y: int): int
    decreases height - y
  {
    if RowHas(cells, width, height, y + 1, p) then StackTop(cells, width, height, p, y + 1) else y
  }

  lemma {:induction false} StackTopIsEnd(cells: set<GridCoords>, width: int, height: int, p: Plate, y: int)
    requires RowHas(cells, width, height, y, p)
    ensures y <= StackTop(cells, width, height, p, y)
    ensures forall k :: y <= k <= StackTop(cells, width, height, p, y) ==> RowHas(cells, width, height, k, p)
    ensures !RowHas(cells, width, height, StackTop(cells, width, height, p, y) + 1, p)
    decreases height - y
  {
    if RowHas(cells, width, height, y + 1, p) {
      StackTopIsEnd(cells, width, height, p, y + 1);
    }
  }

  /** Every occupied cell of the layer whose row is free at column `width` lies in a maximal stack. */
  lemma CoveringStack(cells: set<GridCoords>, width: int, height: int, c: GridCoords) returns (r: Rect)
    requires c in cells && InLayer(c, width, height) && GridCoords(width, c.y) !in cells
    ensures MaximalStack(cells, width, height, r) && InRect(c, r)
  {
    RunLeftIsStart(cells, c.y, c.x);
    RunRightIsEnd(cells, width, c.y, c.x);
    var p := Plate(RunLeft(cells, c.y, c.x), RunRight(cells, width, c.y, c.x));
    assert RowHas(cells, width, height, c.y, p);
    StackBottomIsStart(cells, width, height, p, c.y);
    StackTopIsEnd(cells, width, height, p, c.y);
    r := Rect(p.left, p.right, StackTop(cells, width, height, p, c.y), StackBottom(cells, width, height, p, c.y));
    forall k | r.bottom <= k <= r.top
      ensures RowHas(cells, width, height, k, p)
    {
      if k <= c.y {
        assert r.bottom <= k <= c.y;
      }
    }
  }

  // ---------------------------------------------------------------------------
  // Collider geometry

  /**
   * The cuboid spawned for a rectangle, in doubled units so that it stays integral: the
   * source's float centre is `centre2 / 2` and its half extent `half2 / 2`.
   */
  datatype Cuboid = Cuboid(centre2X: int, centre2Y: int, half2X: int, half2Y: int)

  /** Centre and half extents of a rectangle's collider: it spans exactly its tiles. */
  function ColliderOf(r: Rect, gridSize: int): (c: Cuboid)
    ensures c.centre2X - c.half2X == 2 * (r.left * gridSize)
    ensures c.centre2X + c.half2X == 2 * ((r.right + 1) * gridSize)
    ensures c.centre2Y - c.half2Y == 2 * (r.bottom * gridSize)
    ensures c.centre2Y + c.half2Y == 2 * ((r.top + 1) * gridSize)
  {
    Cuboid((r.left + r.right + 1) * gridSize, (r.bottom + r.top + 1) * gridSize,
           (r.right - r.left + 1) * gridSize, (r.top - r.bottom + 1) * gridSize)
  }
}
