/** ChunkMesher: the vertex and triangle buffers of a chunk's square grid of
    `gridCount` x `gridCount` cells, (gridCount + 1)^2 vertices.

    Vertices are filled in the x-fastest order of `Griderable.ForInclusive`,
    so the vertex of grid point (x, y) sits at x + y (n + 1), which is what
    `GridPositionToIndex` computes. The triangle loop walks the cells in the
    x-fastest order of `Griderable.For` but addresses cell (i, j) at
    i (n + 1) + j, i.e. the grid square whose lower corner is (j, i); every
    square still gets its two triangles.

    Floats are reals here; UVs, packed path flags, the path array and the
    Unity mesh are not modelled. */
module ChunkMeshers {
  import opened Common
  import opened Grids

  datatype Color = Color(r: real, g: real, b: real, a: real)

  const White := Color(1.0, 1.0, 1.0, 1.0)
  const Black := Color(0.0, 0.0, 0.0, 0.0)   // default(Color)
  const Zero3 := Vec3(0.0, 0.0, 0.0)         // default(Vector3)

  /** `gridCount * gridCount + 2 * gridCount + 1`. */
  function VertCount(n: int): int {
    n * n + 2 * n + 1
  }

  /** `gridCount * gridCount * 2 * 3`. */
  function TriSlots(n: int): int {
    n * n * 2 * 3
  }

  lemma {:induction false} SizesAreSquares(n: int)
    ensures VertCount(n) == (n + 1) * (n + 1) >= 0
    ensures TriSlots(n) == 6 * (n * n) >= 0
    ensures TriSlots(n) / 3 == 2 * (n * n) && TriSlots(n) % 3 == 0
  {
    MulNonNegative(if n + 1 >= 0 then n + 1 else -(n + 1), if n + 1 >= 0 then n + 1 else -(n + 1));
    MulNonNegative(if n >= 0 then n else -n, if n >= 0 then n else -n);
    assert (n + 1) * (n + 1) == (if n + 1 >= 0 then n + 1 else -(n + 1)) * (if n + 1 >= 0 then n + 1 else -(n + 1));
    assert n * n == (if n >= 0 then n else -n) * (if n >= 0 then n else -n);
  }

  /** How many grid points the vertex loop visits. */
  function PointCount(n: int): nat {
    Count(ForInclusive(n))
  }

  /** How many cells the triangle loop visits. */
  function CellCount(n: int): nat {
    Count(ForUpTo(Int2(n, n)))
  }

  /** The points `ForInclusive(n)` yields: all of [0, n]^2 for n >= 0, none
      otherwise. */
  lemma CountForInclusive(n: int)
    ensures PointCount(n) == if n >= 0 then VertCount(n) else 0
  {
    SizesAreSquares(n);
  }

  /** The cells `For(n)` yields: all of [0, n)^2 for n > 0, none otherwise. */
  lemma CountForCells(n: int)
    ensures CellCount(n) == if n > 0 then n * n else 0
  {
  }

  /** `GridPositionToIndex`. */
  function GridPositionToIndex(n: int, p: Int2): int {
    p.x + p.y * (n + 1)
  }

  predicate OnGrid(n: int, p: Int2) {
    0 <= p.x <= n && 0 <= p.y <= n
  }

  /** The vertex written for grid point `p`. */
  function VertexAt(p: Int2, unit: real): Vec3 {
    Vec3(p.x as real * unit, 0.0, p.y as real * unit)
  }

  /** The six indices the triangle loop writes for its cell (i, j): two
      triangles sharing the diagonal from base + (n + 1) to base + 1. */
  function CellTriangles(n: int, c: Int2): seq<int> {
    var b := c.x * (n + 1) + c.y;
    [b, b + (n + 1), b + 1, b + (n + 1), b + (n + 1) + 1, b + 1]
  }

  /** The first `upto` vertices (and colours) are those of the first `upto`
      grid points in iteration order. */
  ghost predicate VerticesWritten(n: int, unit: real, vs: seq<Vec3>, cs: seq<Color>, upto: nat)
    requires upto <= |vs| && upto <= |cs|
  {
    forall k | 0 <= k < upto :: vs[k] == VertexAt(YieldAt(ForInclusive(n), k), unit) && cs[k] == White
  }

  /** The triangle indices of the first `k` cells in iteration order, six per
      cell. */
  function GridTriangles(n: int, k: nat): (r: seq<int>)
    ensures |r| == 6 * k
  {
    if k == 0 then [] else GridTriangles(n, k - 1) + CellTriangles(n, YieldAt(ForUpTo(Int2(n, n)), k - 1))
  }

  /** Writing the next vertex extends the written prefix by one. */
  lemma VerticesWrittenStep(n: int, unit: real, vs: seq<Vec3>, cs: seq<Color>, k: nat)
    requires k < |vs| && k < |cs| && VerticesWritten(n, unit, vs, cs, k)
    ensures VerticesWritten(n, unit, vs[k := VertexAt(YieldAt(ForInclusive(n), k), unit)], cs[k := White], k + 1)
  {
  }

  // ---------------------------------------------------------------------------

  /** `GridPositionToIndex` is a bijection from [0, n]^2 onto the vertex
      range, and it agrees with the order the vertices are written in: the
      slot of grid point p holds p's vertex. */
  lemma {:induction false} GridIndexMatchesFill(n: int, p: Int2)
    requires OnGrid(n, p)
    ensures 0 <= GridPositionToIndex(n, p) < VertCount(n)
    ensures YieldAt(ForInclusive(n), GridPositionToIndex(n, p)) == p
  {
    var g := ForInclusive(n);
    assert InRect(g, p);
    assert IndexOf(g, p) == GridPositionToIndex(n, p);
    YieldCoversRect(g, p);
    CountForInclusive(n);
  }

  lemma {:induction false} GridIndexOfFill(n: int, k: nat)
    requires n >= 0 && k < VertCount(n)
    ensures OnGrid(n, YieldAt(ForInclusive(n), k))
    ensures GridPositionToIndex(n, YieldAt(ForInclusive(n), k)) == k
  {
    var g := ForInclusive(n);
    CountForInclusive(n);
    YieldInRect(g, k);
    YieldOnce(g, k);
  }

  /** The triangle loop's cell (i, j) covers the grid square with lower
      corner (j, i): in grid positions its triangles are
      (j,i) (j,i+1) (j+1,i) and (j,i+1) (j+1,i+1) (j+1,i). */
  lemma CellTrianglesAreTheTransposedSquare(n: int, c: Int2)
    ensures var G := (x: int, y: int) => GridPositionToIndex(n, Int2(x, y));
      var i, j := c.x, c.y;
      CellTriangles(n, c) == [G(j, i), G(j, i + 1), G(j + 1, i), G(j, i + 1), G(j + 1, i + 1), G(j + 1, i)]
  {
  }

  /** Every index a cell of [0, n)^2 writes lies in the vertex range. */
  lemma {:induction false} CellTrianglesInRange(n: int, c: Int2)
    requires 0 <= c.x < n && 0 <= c.y < n
    ensures forall m | 0 <= m < 6 :: 0 <= CellTriangles(n, c)[m] < VertCount(n)
  {
    var b := c.x * (n + 1) + c.y;
    MulNonNegative(c.x, n + 1);
    assert (n - 1 - c.x) * (n + 1) >= 0 by { MulNonNegative(n - 1 - c.x, n + 1); }
    assert b + (n + 1) + 1 <= (n - 1) * (n + 1) + (n - 1) + (n + 1) + 1;
    assert (n - 1) * (n + 1) + (n - 1) + (n + 1) + 1 == VertCount(n) - 1;
  }

  // ---------------------------------------------------------------------------
  // The Adaptor

  /** The `Adaptor` indexer's check: an InvalidOperationException when the
      flat index falls outside the array. */
  function AdaptorIndex(n: int, length: nat, p: Int2): Result<nat> {
    var idx := GridPositionToIndex(n, p);
    if idx < 0 || idx >= length then Err(InvalidOperation) else Ok(idx)
  }

  /** The indexer accepts exactly the points whose flat index is in the array,
      so it accepts every grid point of a full-size buffer. */
  lemma AdaptorAcceptsTheGrid(n: int, length: nat, p: Int2)
    ensures AdaptorIndex(n, length, p).Ok? <==> 0 <= GridPositionToIndex(n, p) < length
    ensures OnGrid(n, p) && length == VertCount(n) ==> AdaptorIndex(n, length, p) == Ok(GridPositionToIndex(n, p))
  {
    if OnGrid(n, p) && length == VertCount(n) {
      GridIndexMatchesFill(n, p);
    }
  }

  /** It checks the flat index only: a point past the end of a row is
      accepted and aliases the start of the next row. */
  lemma AdaptorAliasesPastRowEnd(n: int)
    requires n >= 1
    ensures AdaptorIndex(n, VertCount(n), Int2(n + 1, 0)) == AdaptorIndex(n, VertCount(n), Int2(0, 1))
    ensures AdaptorIndex(n, VertCount(n), Int2(n + 1, 0)).Ok?
  {
    MulNonNegative(n, n);
    assert GridPositionToIndex(n, Int2(n + 1, 0)) == n + 1 == GridPositionToIndex(n, Int2(0, 1));
  }

  /** Reading through the adaptor. */
  method AdaptorGet<T>(a: array<T>, n: int, p: Int2) returns (r: Result<T>)
    ensures AdaptorIndex(n, a.Length, p).Err? ==> r == Err(InvalidOperation)
    ensures AdaptorIndex(n, a.Length, p).Ok? ==> r == Ok(a[AdaptorIndex(n, a.Length, p).value])
  {
    var idx := GridPositionToIndex(n, p);
    if idx < 0 || idx >= a.Length {
      return Err(InvalidOperation);
    }
    r := Ok(a[idx]);
  }

  /** Writing through the adaptor: the one slot, or nothing and an error. */
  method AdaptorSet<T>(a: array<T>, n: int, p: Int2, v: T) returns (r: Result<()>)
    modifies a
    ensures r.Ok? <==> AdaptorIndex(n, a.Length, p).Ok?
    ensures r.Err? ==> r.error == InvalidOperation && a[..] == old(a[..])
    ensures r.Ok? ==> a[..] == old(a[..])[AdaptorIndex(n, a.Length, p).value := v]
  {
    var idx := GridPositionToIndex(n, p);
    if idx < 0 || idx >= a.Length {
      return Err(InvalidOperation);
    }
    a[idx] := v;
    r := Ok(());
  }

  // ---------------------------------------------------------------------------
  // The TriAdaptor

  /** `TriAdaptor[k]` pins `triangles[3k]` (bounds-checked) and reinterprets
      the three ints from there as one triangle. */
  function TriIndex(length: nat, k: int): Result<nat> {
    if 0 <= 3 * k < length then Ok(3 * k) else Err(IndexOutOfRange)
  }

  /** In a buffer whose length is a multiple of three, an accepted triangle's
      three slots are all inside the buffer, and triangle k is exactly slots
      3k, 3k + 1, 3k + 2. */
  lemma TriIndexInBuffer(length: nat, k: int)
    requires length % 3 == 0
    ensures TriIndex(length, k).Ok? <==> 0 <= k < length / 3
    ensures TriIndex(length, k).Ok? ==> TriIndex(length, k).value + 2 < length
  {
  }

  method TriGet(triangles: array<int>, k: int) returns (r: Result<(int, int, int)>)
    requires triangles.Length % 3 == 0
    ensures r.Err? <==> TriIndex(triangles.Length, k).Err?
    ensures r.Err? ==> r.error == IndexOutOfRange
    ensures r.Ok? ==> r.value == (triangles[3 * k], triangles[3 * k + 1], triangles[3 * k + 2])
  {
    if !(0 <= 3 * k < triangles.Length) {
      return Err(IndexOutOfRange);
    }
    r := Ok((triangles[3 * k], triangles[3 * k + 1], triangles[3 * k + 2]));
  }

  method TriSet(triangles: array<int>, k: int, t: (int, int, int)) returns (r: Result<()>)
    requires triangles.Length % 3 == 0
    modifies triangles
    ensures r.Err? <==> TriIndex(triangles.Length, k).Err?
    ensures r.Err? ==> r.error == IndexOutOfRange && triangles[..] == old(triangles[..])
    ensures r.Ok? ==> triangles[..] == old(triangles[..])[3 * k := t.0][3 * k + 1 := t.1][3 * k + 2 := t.2]
  {
    if !(0 <= 3 * k < triangles.Length) {
      return Err(IndexOutOfRange);
    }
    triangles[3 * k] := t.0;
    triangles[3 * k + 1] := t.1;
    triangles[3 * k + 2] := t.2;
    r := Ok(());
  }

  // ---------------------------------------------------------------------------
  // WorldToGridPosition

  /** One axis of `WorldToGridPosition` on `d = position / unitSideLength`:
      the int cast and the fractional part, pulled back into the last cell
      when the cast lands exactly on `gridCount`. */
  function GridAxis(n: int, d: real): (int, real) {
    var c := Trunc(d);
    var f := Frac(d);
    if c == n then (c - 1, f + 1.0) else (c, f)
  }

  /** For a position inside the chunk (0 <= d <= n), the cell and the
      fraction add up to d, the cell is one of the n cells, and the fraction
      lies in [0, 1]; at the far edge the fraction is exactly 1. */
  lemma {:induction false} GridAxisInChunk(n: int, d: real)
    requires n >= 1 && 0.0 <= d <= n as real
    ensures var (c, f) := GridAxis(n, d);
      && 0 <= c && c + 1 <= n
      && 0.0 <= f <= 1.0
      && c as real + f == d
    ensures d == n as real ==> GridAxis(n, d) == (n - 1, 1.0)
  {
    FracInUnitInterval(d);
    var c := Trunc(d);
    assert c == d.Floor;
    assert c <= n;
    if d == n as real {
      assert d.Floor == n;
    }
  }

  /** `WorldToGridPosition(position)`: both axes. */
  function WorldToGridPosition(n: int, unit: real, position: Vec2): (Int2, Vec2)
    requires unit != 0.0
  {
    var (cx, fx) := GridAxis(n, position.x / unit);
    var (cy, fy) := GridAxis(n, position.y / unit);
    (Int2(cx, cy), Vec2(fx, fy))
  }

  /** Left of the chunk the int cast rounds up while the fraction is taken
      from the floor, so cell and fraction no longer add up to the position. */
  lemma GridAxisLeftOfChunk()
    ensures GridAxis(4, -0.5) == (0, 0.5)
  {
    assert (-0.5).Floor == -1 && (0.5).Floor == 0;
  }

  // ---------------------------------------------------------------------------
  // The two loops of `GenerateGrid` (ChunkMesh.cs's `Reset` runs the same two)

  /** Slot t of the triangle list holds corner `t % 6` of cell `t / 6`. */
  lemma {:induction false} GridTrianglesSlot(n: int, k: nat, t: int)
    requires 0 <= t < 6 * k
    ensures GridTriangles(n, k)[t] == CellTriangles(n, YieldAt(ForUpTo(Int2(n, n)), t / 6))[t % 6]
  {
    if t < 6 * (k - 1) {
      GridTrianglesSlot(n, k - 1, t);
    } else {
      assert t / 6 == k - 1 && t % 6 == t - 6 * (k - 1);
    }
  }

  /** When all n^2 cells are written, every triangle index names a vertex of
      the (n + 1)^2 grid, and the list fills the whole triangle buffer. */
  lemma TrianglesIndexVertices(n: int)
    requires n >= 0
    ensures |GridTriangles(n, n * n)| == TriSlots(n)
    ensures forall t | 0 <= t < 6 * (n * n) :: 0 <= GridTriangles(n, n * n)[t] < VertCount(n)
  {
    SizesAreSquares(n);
    CountForCells(n);
    forall t | 0 <= t < 6 * (n * n)
      ensures 0 <= GridTriangles(n, n * n)[t] < VertCount(n)
    {
      GridTrianglesSlot(n, n * n, t);
      DivBelow(t, 6, n * n);
      assert n > 0;
      YieldInRect(ForUpTo(Int2(n, n)), t / 6);
      CellTrianglesInRange(n, YieldAt(ForUpTo(Int2(n, n)), t / 6));
    }
  }

  /** The vertex loop: a foreach over `ForInclusive(n)` writing one vertex (and
      one colour) per point at a running index; the slots past the last
      point visited are kept. */
  method WriteGridVertices(vertices: array<Vec3>, colors: array<Color>, n: int, unit: real)
    requires vertices.Length == VertCount(n) && colors.Length == VertCount(n)
    modifies vertices, colors
    ensures PointCount(n) <= VertCount(n)
    ensures VerticesWritten(n, unit, vertices[..], colors[..], PointCount(n))
    ensures vertices[PointCount(n)..] == old(vertices[PointCount(n)..])
    ensures colors[PointCount(n)..] == old(colors[PointCount(n)..])
  {
    var g := ForInclusive(n);
    CountForInclusive(n);
    var e := new Enumerator(g);
    var vertIndex := 0;
    var more := e.MoveNext();
    StepFromStart(g);
    while more
      invariant e.grid == g && e.value == YieldAt(g, vertIndex)
      invariant vertIndex <= Count(g) && (more <==> vertIndex < Count(g))
      invariant VerticesWritten(n, unit, vertices[..], colors[..], vertIndex)
      invariant vertices[Count(g)..] == old(vertices[Count(g)..]) && colors[Count(g)..] == old(colors[Count(g)..])
      decreases Count(g) - vertIndex
    {
      var p := e.Current();
      ghost var vs, cs := vertices[..], colors[..];
      VerticesWrittenStep(n, unit, vs, cs, vertIndex);
      vertices[vertIndex] := VertexAt(p, unit);
      colors[vertIndex] := White;
      assert vertices[..] == vs[vertIndex := VertexAt(p, unit)];
      assert colors[..] == cs[vertIndex := White];
      StepFromYield(g, vertIndex);
      vertIndex := vertIndex + 1;
      more := e.MoveNext();
    }
  }

  /** The six writes of one cell (i, j) of the triangle loop, from slot `at`:
      the next six slots hold the cell's triangles and all others are kept. */
  method WriteCell(triangles: array<int>, at: nat, n: int, i: int, j: int)
    requires at + 6 <= triangles.Length
    modifies triangles
    ensures triangles[..at + 6] == old(triangles[..at]) + CellTriangles(n, Int2(i, j))
    ensures triangles[at + 6..] == old(triangles[at + 6..])
  {
    var baseIndex := i * (n + 1) + j;
    triangles[at] := baseIndex;
    triangles[at + 1] := baseIndex + (n + 1);
    triangles[at + 2] := baseIndex + 1;
    triangles[at + 3] := baseIndex + (n + 1);
    triangles[at + 4] := baseIndex + (n + 1) + 1;
    triangles[at + 5] := baseIndex + 1;
    assert triangles[..at + 6] == old(triangles[..at]) + CellTriangles(n, Int2(i, j));
  }

  /** The triangle loop: a foreach over `For(n)` writing six indices per cell
      at a running index; the slots past the last cell visited are kept.
      ChunkMeshBuilder runs the same loop for `n - 1` cells per side (its
      stride `gridCount` is then `n + 1`). */
  method WriteGridTriangles(triangles: array<int>, n: int)
    requires 6 * CellCount(n) <= triangles.Length
    modifies triangles
    ensures triangles[..6 * CellCount(n)] == GridTriangles(n, CellCount(n))
    ensures triangles[6 * CellCount(n)..] == old(triangles[6 * CellCount(n)..])
  {
    var g := ForUpTo(Int2(n, n));
    var e := new Enumerator(g);
    var cell := 0;
    var triIndex := 0;
    var more := e.MoveNext();
    StepFromStart(g);
    while more
      invariant e.grid == g && e.value == YieldAt(g, cell)
      invariant cell <= Count(g) && (more <==> cell < Count(g))
      invariant triIndex == 6 * cell
      invariant triangles[..triIndex] == GridTriangles(n, cell)
      invariant triangles[6 * Count(g)..] == old(triangles[6 * Count(g)..])
      decreases Count(g) - cell
    {
      var p := e.Current();
      var i, j := p.x, p.y;
      WriteCell(triangles, triIndex, n, i, j);
      triIndex := triIndex + 6;
      StepFromYield(g, cell);
      cell := cell + 1;
      more := e.MoveNext();
    }
  }

  /** What the two loops leave: the first slots hold the vertices of the grid
      points in iteration order and the triangles of the cells in iteration
      order (for a non-negative `n`, every slot of full-size buffers). */
  ghost predicate GridWritten(n: int, unit: real, vs: seq<Vec3>, cs: seq<Color>, ts: seq<int>) {
    && PointCount(n) <= |vs| && PointCount(n) <= |cs| && 6 * CellCount(n) <= |ts|
    && VerticesWritten(n, unit, vs, cs, PointCount(n))
    && ts[..6 * CellCount(n)] == GridTriangles(n, CellCount(n))
  }

  /** In written buffers, the slot `GridPositionToIndex` gives for a grid
      point holds that point's vertex, coloured white. */
  lemma VertexOfGridPoint(n: int, unit: real, vs: seq<Vec3>, cs: seq<Color>, ts: seq<int>, p: Int2)
    requires n >= 0 && GridWritten(n, unit, vs, cs, ts) && OnGrid(n, p)
    ensures 0 <= GridPositionToIndex(n, p) < |vs| && 0 <= GridPositionToIndex(n, p) < |cs|
    ensures vs[GridPositionToIndex(n, p)] == VertexAt(p, unit) && cs[GridPositionToIndex(n, p)] == White
  {
    GridIndexMatchesFill(n, p);
    CountForInclusive(n);
  }

  // ---------------------------------------------------------------------------

  class ChunkMesher {
    const gridCount: int
    const unitSideLength: real
    const vertices: array<Vec3>
    const colors: array<Color>
    const triangles: array<int>

    predicate Sized() {
      && vertices.Length == VertCount(gridCount) && colors.Length == VertCount(gridCount)
      && triangles.Length == TriSlots(gridCount)
    }

    /** What `GenerateGrid` leaves. */
    ghost predicate Generated()
      reads vertices, colors, triangles
    {
      Sized() && GridWritten(gridCount, unitSideLength, vertices[..], colors[..], triangles[..])
    }

    /** `TriCount`. */
    function TriCount(): int
      reads this
    {
      triangles.Length / 3
    }

    /** The constructor: buffers sized for the grid, filled by `GenerateGrid`
        only when `setToGrid` holds; a negative `gridCount` fills nothing. */
    constructor (gridCount: int, unitSideLength: real, setToGrid: bool)
      ensures this.gridCount == gridCount && this.unitSideLength == unitSideLength && Sized()
      ensures fresh(vertices) && fresh(colors) && fresh(triangles)
      ensures TriCount() == 2 * (gridCount * gridCount)
      ensures setToGrid ==> Generated()
      ensures !setToGrid || gridCount < 0 ==>
                && (forall k | 0 <= k < vertices.Length :: vertices[k] == Zero3 && colors[k] == Black)
                && (forall t | 0 <= t < triangles.Length :: triangles[t] == 0)
    {
      SizesAreSquares(gridCount);
      this.gridCount := gridCount;
      this.unitSideLength := unitSideLength;
      vertices := new Vec3[VertCount(gridCount)](_ => Zero3);
      colors := new Color[VertCount(gridCount)](_ => Black);
      triangles := new int[TriSlots(gridCount)](_ => 0);
      new;
      if setToGrid {
        GenerateGrid();
      }
    }

    /** `GenerateGrid`: the vertex loop, then the triangle loop. For a
        non-negative `gridCount` they fill every slot and every triangle index
        names a vertex; for a negative one both loops are empty. */
    method GenerateGrid()
      requires Sized()
      modifies vertices, colors, triangles
      ensures Generated()
      ensures gridCount >= 0 ==> && PointCount(gridCount) == vertices.Length
                                 && 6 * CellCount(gridCount) == triangles.Length
                                 && forall t | 0 <= t < triangles.Length :: 0 <= triangles[t] < vertices.Length
      ensures gridCount < 0 ==> && vertices[..] == old(vertices[..]) && colors[..] == old(colors[..])
                                && triangles[..] == old(triangles[..])
    {
      CountForInclusive(gridCount);
      CountForCells(gridCount);
      SizesAreSquares(gridCount);
      WriteGridVertices(vertices, colors, gridCount, unitSideLength);
      WriteGridTriangles(triangles, gridCount);
      if gridCount >= 0 {
        TrianglesIndexVertices(gridCount);
        assert triangles[..] == triangles[..6 * CellCount(gridCount)];
      } else {
        assert vertices[..] == vertices[0..] && colors[..] == colors[0..] && triangles[..] == triangles[0..];
      }
    }
  }
}
