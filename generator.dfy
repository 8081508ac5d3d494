/** Generator.BuildSimpleGridMesh: the earliest grid mesh, built with two
    nested for loops over fresh arrays sized like ChunkMesher's buffers. The
    vertex loop writes point (i, j) of [0, n)^2 at slot i n + j, centred
    like ChunkMeshBuilder; the triangle loop writes the (n - 1)^2 cells
    i-major, each as two triangles over base b = i n + j listed as
    (b, b+1, b+n) and (b+n, b+1, b+n+1).

    The grid size and unit length come from the generator settings
    singleton; here they are parameters. The Unity mesh is not modelled. */
module SimpleGridMeshes {
  import opened Common
  import M = ChunkMeshers
  import B = ChunkMeshBuilders

  /** How many times `for (k = 0; k < n; k++)` runs. */
  function Iterations(n: int): nat {
    if n > 0 then n else 0
  }

  /** The vertices the inner loop writes for row i. */
  function Row(n: int, unit: real, i: int): (r: seq<Vec3>)
    ensures |r| == Iterations(n)
  {
    seq(Iterations(n), j requires 0 <= j < Iterations(n) => B.BuilderVertex(n, unit, Int2(i, j)))
  }

  /** The vertices of the first `rows` rows. */
  function GridVertices(n: int, unit: real, rows: nat): (r: seq<Vec3>)
    ensures |r| == rows * Iterations(n)
  {
    if rows == 0 then [] else GridVertices(n, unit, rows - 1) + Row(n, unit, rows - 1)
  }

  /** The six indices written for cell (i, j). */
  function Cell(n: int, i: int, j: int): seq<int> {
    var b := i * n + j;
    [b, b + 1, b + n, b + n, b + 1, b + n + 1]
  }

  /** The indices of the first `cols` cells of row i. */
  function RowTriangles(n: int, i: int, cols: nat): (r: seq<int>)
    ensures |r| == 6 * cols
  {
    if cols == 0 then [] else RowTriangles(n, i, cols - 1) + Cell(n, i, cols - 1)
  }

  /** The indices of the first `rows` rows of cells. */
  function GridTriangles(n: int, rows: nat): (r: seq<int>)
    ensures |r| == 6 * (rows * Iterations(n - 1))
  {
    if rows == 0 then [] else GridTriangles(n, rows - 1) + RowTriangles(n, rows - 1, Iterations(n - 1))
  }

  // ---------------------------------------------------------------------------

  lemma {:induction false} SlotBelow(i: int, j: int, p: int, rows: int)
    requires 0 <= i < rows && 0 <= j < p
    ensures 0 <= i * p + j < rows * p
  {
    assert i * p >= 0 by { MulNonNegative(i, p); }
    assert (rows - 1 - i) * p >= 0 by { MulNonNegative(rows - 1 - i, p); }
    assert rows * p == i * p + p + (rows - 1 - i) * p;
  }

  lemma MulNonNegative(a: int, b: int)
    requires a >= 0 && b >= 0
    ensures a * b >= 0
  {
  }

  /** Slot i n + j of the vertex list holds point (i, j): rows are i, columns
      j, with no transposition. */
  lemma {:induction false} GridVerticesSlot(n: int, unit: real, rows: nat, i: int, j: int)
    requires 0 <= i < rows && 0 <= j < Iterations(n)
    ensures 0 <= i * Iterations(n) + j < |GridVertices(n, unit, rows)|
    ensures GridVertices(n, unit, rows)[i * Iterations(n) + j] == B.BuilderVertex(n, unit, Int2(i, j))
  {
    var p := Iterations(n);
    SlotBelow(i, j, p, rows);
    if i < rows - 1 {
      GridVerticesSlot(n, unit, rows - 1, i, j);
    } else {
      assert (rows - 1) * p == |GridVertices(n, unit, rows - 1)|;
    }
  }

  /** Every index of a cell of [0, n - 1)^2 is below n^2. */
  lemma {:induction false} CellInRange(n: int, i: int, j: int)
    requires 0 <= i < n - 1 && 0 <= j < n - 1
    ensures forall m | 0 <= m < 6 :: 0 <= Cell(n, i, j)[m] < n * n
  {
    var b := i * n + j;
    assert i * n >= 0 by { MulNonNegative(i, n); }
    assert (n - 2 - i) * n >= 0 by { MulNonNegative(n - 2 - i, n); }
    assert n * n == i * n + 2 * n + (n - 2 - i) * n;
  }

  /** A list of indices all below `bound`. */
  ghost predicate AllBelow(ts: seq<int>, bound: int) {
    forall t | 0 <= t < |ts| :: 0 <= ts[t] < bound
  }

  lemma {:induction false} RowTrianglesInRange(n: int, i: int, cols: nat)
    requires 0 <= i < n - 1 && cols <= n - 1
    ensures AllBelow(RowTriangles(n, i, cols), n * n)
  {
    if cols > 0 {
      RowTrianglesInRange(n, i, cols - 1);
      CellInRange(n, i, cols - 1);
    }
  }

  /** Every index the triangle loop writes is below n^2: it names a vertex
      slot the vertex loop wrote. */
  lemma {:induction false} GridTrianglesInRange(n: int, rows: nat)
    requires rows <= Iterations(n - 1)
    ensures AllBelow(GridTriangles(n, rows), n * n)
  {
    if rows > 0 {
      GridTrianglesInRange(n, rows - 1);
      RowTrianglesInRange(n, rows - 1, Iterations(n - 1));
    }
  }

  /** The loops write n^2 vertices and 6 (n - 1)^2 indices (none for n <= 0,
      and no triangles for n = 1), and both fit the buffers. */
  lemma {:induction false} WrittenCounts(n: int)
    ensures Iterations(n) * Iterations(n) == (if n >= 1 then n * n else 0) <= M.VertCount(n)
    ensures Iterations(n - 1) * Iterations(n - 1) == (if n >= 1 then (n - 1) * (n - 1) else 0)
    ensures 6 * (Iterations(n - 1) * Iterations(n - 1)) <= M.TriSlots(n)
  {
    B.WrittenCounts(n);
    M.CountForCells(n);
    M.CountForCells(n - 1);
  }

  /** Which builder slot matches each generator slot of a cell: the first
      triangles agree corner by corner, the second ones are the same triangle
      started at another corner (a cyclic rotation, so the same winding). */
  function MatchingSlot(m: int): int {
    if m < 3 then m else if m == 3 then 5 else m - 1
  }

  /** The builder lists the same faces: the generator's cell (j, i) and the
      builder's cell (i, j) are the same two triangles over the same vertex
      positions, because the builder's vertex layout and its triangle winding
      are both transposed. */
  lemma {:induction false} SameFacesAsBuilder(n: int, unit: real, i: int, j: int)
    requires 0 <= i < n - 1 && 0 <= j < n - 1
    ensures var gs, bs := GridVertices(n, unit, n), B.GridVertices(n, unit, M.CellCount(n));
      var gc, bc := Cell(n, j, i), M.CellTriangles(n - 1, Int2(i, j));
      forall m | 0 <= m < 6 :: && 0 <= gc[m] < |gs| && 0 <= bc[MatchingSlot(m)] < |bs|
                              && gs[gc[m]] == bs[bc[MatchingSlot(m)]]
  {
    var gs, bs := GridVertices(n, unit, n), B.GridVertices(n, unit, M.CellCount(n));
    var gc, bc := Cell(n, j, i), M.CellTriangles(n - 1, Int2(i, j));
    SameCorner(n, unit, j, i);
    SameCorner(n, unit, j, i + 1);
    SameCorner(n, unit, j + 1, i);
    SameCorner(n, unit, j + 1, i + 1);
    assert gc == [j * n + i, j * n + (i + 1), (j + 1) * n + i, (j + 1) * n + i, j * n + (i + 1), (j + 1) * n + (i + 1)];
    assert bc == [i * n + j, (i + 1) * n + j, i * n + (j + 1), (i + 1) * n + j, (i + 1) * n + (j + 1), i * n + (j + 1)];
  }

  /** Point (x, y) sits at the generator's slot x n + y and at the builder's
      slot y n + x. */
  lemma SameCorner(n: int, unit: real, x: int, y: int)
    requires 0 <= x < n && 0 <= y < n
    ensures var gs, bs := GridVertices(n, unit, n), B.GridVertices(n, unit, M.CellCount(n));
      && 0 <= x * n + y < |gs| && 0 <= y * n + x < |bs| && gs[x * n + y] == bs[y * n + x]
  {
    GridVerticesSlot(n, unit, n, x, y);
    M.CountForCells(n);
    B.AdaptorReadsTheTransposedVertex(n, unit, B.GridVertices(n, unit, M.CellCount(n)), Int2(y, x));
  }

  // ---------------------------------------------------------------------------

  /** The six writes of cell (i, j), from slot `at`. */
  method WriteCell(triangles: array<int>, at: nat, n: int, i: int, j: int)
    requires at + 6 <= triangles.Length
    modifies triangles
    ensures triangles[..at + 6] == old(triangles[..at]) + Cell(n, i, j)
    ensures triangles[at + 6..] == old(triangles[at + 6..])
  {
    var baseIndex := i * n + j;
    triangles[at] := baseIndex;
    triangles[at + 1] := baseIndex + 1;
    triangles[at + 2] := baseIndex + n;
    triangles[at + 3] := baseIndex + n;
    triangles[at + 4] := baseIndex + 1;
    triangles[at + 5] := baseIndex + n + 1;
    assert triangles[..at + 6] == old(triangles[..at]) + Cell(n, i, j);
  }

  /** The inner vertex loop of row i, from slot `at`. */
  method WriteVertexRow(vertices: array<Vec3>, at: nat, n: int, unit: real, i: int)
    requires at + Iterations(n) <= vertices.Length
    modifies vertices
    ensures vertices[..at + Iterations(n)] == old(vertices[..at]) + Row(n, unit, i)
    ensures vertices[at + Iterations(n)..] == old(vertices[at + Iterations(n)..])
  {
    var vertIndex := at;
    var j := 0;
    while j < n
      invariant 0 <= j <= Iterations(n) && vertIndex == at + j
      invariant vertices[..vertIndex] == old(vertices[..at]) + Row(n, unit, i)[..j]
      invariant vertices[at + Iterations(n)..] == old(vertices[at + Iterations(n)..])
    {
      ghost var before := vertices[..vertIndex];
      vertices[vertIndex] := B.BuilderVertex(n, unit, Int2(i, j));
      assert vertices[..vertIndex + 1] == before + [Row(n, unit, i)[j]];
      assert Row(n, unit, i)[..j + 1] == Row(n, unit, i)[..j] + [Row(n, unit, i)[j]];
      vertIndex := vertIndex + 1;
      j := j + 1;
    }
    assert Row(n, unit, i)[..j] == Row(n, unit, i);
  }

  /** The vertex loops: row i, column j, into slot i n + j. */
  method WriteVertices(vertices: array<Vec3>, n: int, unit: real)
    requires Iterations(n) * Iterations(n) <= vertices.Length
    modifies vertices
    ensures var written := Iterations(n) * Iterations(n);
      && vertices[..written] == GridVertices(n, unit, Iterations(n))
      && vertices[written..] == old(vertices[written..])
  {
    var p := Iterations(n);
    var vertIndex := 0;
    var i := 0;
    while i < n
      invariant 0 <= i <= p && vertIndex == i * p
      invariant vertIndex <= p * p
      invariant vertices[..vertIndex] == GridVertices(n, unit, i)
      invariant vertices[p * p..] == old(vertices[p * p..])
    {
      SlotBelow(i, p - 1, p, p);
      WriteVertexRow(vertices, vertIndex, n, unit, i);
      assert vertIndex + p == (i + 1) * p;
      vertIndex := vertIndex + p;
      i := i + 1;
    }
    assert vertices[..p * p] == vertices[..vertIndex];
  }

  /** The inner triangle loop of row i, from slot `at`. */
  method WriteTriangleRow(triangles: array<int>, at: nat, n: int, i: int)
    requires at + 6 * Iterations(n - 1) <= triangles.Length
    modifies triangles
    ensures triangles[..at + 6 * Iterations(n - 1)] == old(triangles[..at]) + RowTriangles(n, i, Iterations(n - 1))
    ensures triangles[at + 6 * Iterations(n - 1)..] == old(triangles[at + 6 * Iterations(n - 1)..])
  {
    var triIndex := at;
    var j := 0;
    while j < n - 1
      invariant 0 <= j <= Iterations(n - 1) && triIndex == at + 6 * j
      invariant triangles[..triIndex] == old(triangles[..at]) + RowTriangles(n, i, j)
      invariant triangles[at + 6 * Iterations(n - 1)..] == old(triangles[at + 6 * Iterations(n - 1)..])
    {
      WriteCell(triangles, triIndex, n, i, j);
      triIndex := triIndex + 6;
      j := j + 1;
    }
  }

  /** The triangle loops: the (n - 1)^2 cells, row i, column j. */
  method WriteTriangles(triangles: array<int>, n: int)
    requires 6 * (Iterations(n - 1) * Iterations(n - 1)) <= triangles.Length
    modifies triangles
    ensures var written := 6 * (Iterations(n - 1) * Iterations(n - 1));
      && triangles[..written] == GridTriangles(n, Iterations(n - 1))
      && triangles[written..] == old(triangles[written..])
  {
    var q := Iterations(n - 1);
    var triIndex := 0;
    var i := 0;
    while i < n - 1
      invariant 0 <= i <= q && triIndex == 6 * (i * q)
      invariant triIndex <= 6 * (q * q)
      invariant triangles[..triIndex] == GridTriangles(n, i)
      invariant triangles[6 * (q * q)..] == old(triangles[6 * (q * q)..])
    {
      SlotBelow(i, q - 1, q, q);
      WriteTriangleRow(triangles, triIndex, n, i);
      assert triIndex + 6 * q == 6 * ((i + 1) * q);
      triIndex := triIndex + 6 * q;
      i := i + 1;
    }
    assert triangles[..6 * (q * q)] == triangles[..triIndex];
  }

  /** `BuildSimpleGridMesh`: fresh buffers for (n + 1)^2 vertices and 6 n^2
      indices; the first n^2 vertex slots and the first 6 (n - 1)^2 index
      slots are written, the rest keep their defaults. */
  method BuildSimpleGridMesh(gridCount: int, gridSize: real) returns (vertices: array<Vec3>, triangles: array<int>)
    ensures fresh(vertices) && fresh(triangles)
    ensures vertices.Length == M.VertCount(gridCount) && triangles.Length == M.TriSlots(gridCount)
    ensures var written := Iterations(gridCount) * Iterations(gridCount);
      && written <= vertices.Length
      && vertices[..written] == GridVertices(gridCount, gridSize, Iterations(gridCount))
      && forall k | written <= k < vertices.Length :: vertices[k] == M.Zero3
    ensures var written := 6 * (Iterations(gridCount - 1) * Iterations(gridCount - 1));
      && written <= triangles.Length
      && triangles[..written] == GridTriangles(gridCount, Iterations(gridCount - 1))
      && forall t | written <= t < triangles.Length :: triangles[t] == 0
  {
    M.SizesAreSquares(gridCount);
    WrittenCounts(gridCount);
    vertices := new Vec3[M.VertCount(gridCount)](_ => M.Zero3);
    triangles := new int[M.TriSlots(gridCount)](_ => 0);
    var p, q := Iterations(gridCount), Iterations(gridCount - 1);
    WriteVertices(vertices, gridCount, gridSize);
    WriteTriangles(triangles, gridCount);
    forall k | p * p <= k < vertices.Length
      ensures vertices[k] == M.Zero3
    {
      assert vertices[k] == vertices[p * p..][k - p * p];
    }
    forall t | 6 * (q * q) <= t < triangles.Length
      ensures triangles[t] == 0
    {
      assert triangles[t] == triangles[6 * (q * q)..][t - 6 * (q * q)];
    }
  }
}
