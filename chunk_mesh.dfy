/** The older ChunkMesher of ChunkMesh.cs: the same buffers and the same two
    fill loops as ChunkMeshers, but with the transposed grid index
    x (n + 1) + y, an indexer with no bounds check of its own (the array
    access throws), an unclamped WorldToGridPosition, and a constructor that
    always fills the grid.

    The vertex loop writes grid point (x, y) at x + y (n + 1) while the
    indexer reads (x, y) from x (n + 1) + y, so the indexer sees the grid
    transposed; the triangle loop uses the indexer's layout, so its cells are
    the squares of the indexer's grid. */
module ChunkMeshLegacy {
  import opened Common
  import opened Grids
  import M = ChunkMeshers

  /** `GridPositionToIndex`: x-major. */
  function GridPositionToIndex(n: int, p: Int2): int {
    p.x * (n + 1) + p.y
  }

  function Transpose(p: Int2): Int2 {
    Int2(p.y, p.x)
  }

  /** The x-major index of p is the row-major index of p transposed, so it is
      a bijection from [0, n]^2 onto the vertex range as well. */
  lemma GridIndexIsTransposed(n: int, p: Int2)
    ensures GridPositionToIndex(n, p) == M.GridPositionToIndex(n, Transpose(p))
    ensures M.OnGrid(n, p) ==> 0 <= GridPositionToIndex(n, p) < M.VertCount(n)
  {
    if M.OnGrid(n, p) {
      M.GridIndexMatchesFill(n, Transpose(p));
    }
  }

  /** After the fill, the indexer at grid point p reads the vertex of the
      transposed point: (y L, 0, x L) instead of (x L, 0, y L). Off the
      diagonal, with a non-zero unit length, that is not p's vertex. */
  lemma {:induction false} IndexerReadsTheTransposedVertex(n: int, unit: real, vs: seq<Vec3>, cs: seq<M.Color>, ts: seq<int>, p: Int2)
    requires n >= 0 && M.GridWritten(n, unit, vs, cs, ts) && M.OnGrid(n, p)
    ensures 0 <= GridPositionToIndex(n, p) < |vs|
    ensures vs[GridPositionToIndex(n, p)] == M.VertexAt(Transpose(p), unit)
    ensures unit != 0.0 && p.x != p.y ==> vs[GridPositionToIndex(n, p)] != M.VertexAt(p, unit)
  {
    GridIndexIsTransposed(n, p);
    M.VertexOfGridPoint(n, unit, vs, cs, ts, Transpose(p));
    if unit != 0.0 && p.x != p.y {
      TransposedVertexDiffers(p, unit);
    }
  }

  /** Off the diagonal, with a non-zero unit length, a point and its
      transpose have different vertices. */
  lemma TransposedVertexDiffers(p: Int2, unit: real)
    requires unit != 0.0 && p.x != p.y
    ensures M.VertexAt(Transpose(p), unit) != M.VertexAt(p, unit)
  {
    var a, b := p.y as real, p.x as real;
    assert a * unit - b * unit == (a - b) * unit;
    ProductNonZero(a - b, unit);
  }

  lemma ProductNonZero(x: real, y: real)
    requires x != 0.0 && y != 0.0
    ensures x * y != 0.0
  {
    if x > 0.0 {
      if y > 0.0 { assert x * y > 0.0; } else { assert x * y < 0.0; }
    } else {
      if y > 0.0 { assert x * y < 0.0; } else { assert x * y > 0.0; }
    }
  }

  /** The triangle loop's cell (i, j) is the square of the indexer's grid with
      lower corner (i, j): (i,j) (i+1,j) (i,j+1) and (i+1,j) (i+1,j+1) (i,j+1). */
  lemma CellTrianglesAreTheIndexerSquare(n: int, c: Int2)
    ensures var G := (x: int, y: int) => GridPositionToIndex(n, Int2(x, y));
      var i, j := c.x, c.y;
      M.CellTriangles(n, c) == [G(i, j), G(i + 1, j), G(i, j + 1), G(i + 1, j), G(i + 1, j + 1), G(i, j + 1)]
  {
  }

  // ---------------------------------------------------------------------------
  // The Adaptor

  /** The `Adaptor` indexer: the array access at the x-major index, which
      throws IndexOutOfRangeException outside the array. */
  function AdaptorIndex(n: int, length: nat, p: Int2): Result<nat> {
    var idx := GridPositionToIndex(n, p);
    if idx < 0 || idx >= length then Err(IndexOutOfRange) else Ok(idx)
  }

  /** It accepts exactly the points whose flat index is in the array, so
      every grid point of a full-size buffer. */
  lemma AdaptorAcceptsTheGrid(n: int, length: nat, p: Int2)
    ensures AdaptorIndex(n, length, p).Ok? <==> 0 <= GridPositionToIndex(n, p) < length
    ensures M.OnGrid(n, p) && length == M.VertCount(n) ==> AdaptorIndex(n, length, p) == Ok(GridPositionToIndex(n, p))
  {
    GridIndexIsTransposed(n, p);
  }

  /** A point past the end of a column is accepted and aliases the start of
      the next column. */
  lemma AdaptorAliasesPastColumnEnd(n: int)
    requires n >= 1
    ensures AdaptorIndex(n, M.VertCount(n), Int2(0, n + 1)) == AdaptorIndex(n, M.VertCount(n), Int2(1, 0))
    ensures AdaptorIndex(n, M.VertCount(n), Int2(0, n + 1)).Ok?
  {
    MulNonNegative(n, n);
    assert GridPositionToIndex(n, Int2(0, n + 1)) == n + 1 == GridPositionToIndex(n, Int2(1, 0));
  }

  // ---------------------------------------------------------------------------
  // WorldToGridPosition

  /** One axis of `WorldToGridPosition` on `d = position / unitSideLength`: the
      int cast and the fractional part, with no adjustment at the far edge. */
  function GridAxis(d: real): (int, real) {
    (Trunc(d), Frac(d))
  }

  /** Inside the chunk short of the far edge, the cell is one of the n cells
      and cell plus fraction is d. */
  lemma {:induction false} GridAxisInChunk(n: int, d: real)
    requires 0.0 <= d < n as real
    ensures var (c, f) := GridAxis(d);
      && 0 <= c < n && 0.0 <= f < 1.0 && c as real + f == d
  {
    FracInUnitInterval(d);
    assert Trunc(d) == d.Floor;
  }

  /** At the far edge the cell is n, one past the last cell, whose far corner
      n + 1 is off the grid; the newer mesher answers cell n - 1 with
      fraction 1 there. */
  lemma GridAxisAtFarEdge(n: int)
    requires n >= 1
    ensures GridAxis(n as real) == (n, 0.0)
    ensures !M.OnGrid(n, Int2(n + 1, 0))
    ensures M.GridAxis(n, n as real) == (n - 1, 1.0)
  {
    M.GridAxisInChunk(n, n as real);
  }

  /** `WorldToGridPosition(position)`: both axes. */
  function WorldToGridPosition(unit: real, position: Vec2): (Int2, Vec2)
    requires unit != 0.0
  {
    var (cx, fx) := GridAxis(position.x / unit);
    var (cy, fy) := GridAxis(position.y / unit);
    (Int2(cx, cy), Vec2(fx, fy))
  }

  // ---------------------------------------------------------------------------

  class ChunkMesher {
    const gridCount: int
    const unitSideLength: real
    const vertices: array<Vec3>
    const colors: array<M.Color>
    const triangles: array<int>

    predicate Sized() {
      && vertices.Length == M.VertCount(gridCount) && colors.Length == M.VertCount(gridCount)
      && triangles.Length == M.TriSlots(gridCount)
    }

    /** What `Reset` leaves. */
    ghost predicate Generated()
      reads vertices, colors, triangles
    {
      Sized() && M.GridWritten(gridCount, unitSideLength, vertices[..], colors[..], triangles[..])
    }

    /** The constructor: buffers sized for the grid, always filled by
        `Reset`. */
    constructor (gridCount: int, unitSideLength: real)
      ensures this.gridCount == gridCount && this.unitSideLength == unitSideLength
      ensures fresh(vertices) && fresh(colors) && fresh(triangles)
      ensures Generated()
      ensures gridCount >= 0 ==> forall t | 0 <= t < triangles.Length :: 0 <= triangles[t] < vertices.Length
    {
      M.SizesAreSquares(gridCount);
      this.gridCount := gridCount;
      this.unitSideLength := unitSideLength;
      vertices := new Vec3[M.VertCount(gridCount)](_ => M.Zero3);
      colors := new M.Color[M.VertCount(gridCount)](_ => M.Black);
      triangles := new int[M.TriSlots(gridCount)](_ => 0);
      new;
      Reset();
    }

    /** `Reset`: the same two loops as the newer `GenerateGrid`. */
    method Reset()
      requires Sized()
      modifies vertices, colors, triangles
      ensures Generated()
      ensures gridCount >= 0 ==> && M.PointCount(gridCount) == vertices.Length
                                 && 6 * M.CellCount(gridCount) == triangles.Length
                                 && forall t | 0 <= t < triangles.Length :: 0 <= triangles[t] < vertices.Length
      ensures gridCount < 0 ==> && vertices[..] == old(vertices[..]) && colors[..] == old(colors[..])
                                && triangles[..] == old(triangles[..])
    {
      M.CountForInclusive(gridCount);
      M.CountForCells(gridCount);
      M.SizesAreSquares(gridCount);
      M.WriteGridVertices(vertices, colors, gridCount, unitSideLength);
      M.WriteGridTriangles(triangles, gridCount);
      if gridCount >= 0 {
        M.TrianglesIndexVertices(gridCount);
        assert triangles[..] == triangles[..6 * M.CellCount(gridCount)];
      } else {
        assert vertices[..] == vertices[0..] && colors[..] == colors[0..] && triangles[..] == triangles[0..];
      }
    }
  }
}
