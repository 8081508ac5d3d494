/** ChunkMeshBuilder: a one-shot mesh of a square grid centred on the origin.
    Its buffers are sized like ChunkMesher's, for (n + 1)^2 vertices and
    6 n^2 triangle indices, but its loops fill less: the vertex loop visits
    the n^2 points of [0, n)^2 (in `Griderable.For` order, x fastest) and the
    triangle loop the (n - 1)^2 cells of [0, n - 1)^2, with stride n. The
    last 2n + 1 vertex slots, every colour, and the last
    6 (n^2 - (n - 1)^2) triangle slots keep their defaults.

    The `Adaptor` reads (x, y) from x n + y, which is the vertex loop's slot
    of the transposed point (y, x); the triangle loop uses the same x-major
    layout. */
module ChunkMeshBuilders {
  import opened Common
  import opened Grids
  import M = ChunkMeshers

  /** `gridCount / 2` on C# ints: the quotient truncated toward zero. */
  function HalfTowardZero(n: int): int {
    if n >= 0 then n / 2 else -((-n) / 2)
  }

  /** `offsetForCenter`: half the grid count (an int) times the unit length. */
  function CenterOffset(n: int, unit: real): real {
    HalfTowardZero(n) as real * unit
  }

  /** The vertex written for grid point p: (x L - off, 0, y L - off). */
  function BuilderVertex(n: int, unit: real, p: Int2): Vec3 {
    var off := CenterOffset(n, unit);
    Vec3(p.x as real * unit - off, 0.0, p.y as real * unit - off)
  }

  /** The vertices of the first `k` points of [0, n)^2 in iteration order. */
  function GridVertices(n: int, unit: real, k: nat): (r: seq<Vec3>)
    ensures |r| == k
  {
    if k == 0 then [] else GridVertices(n, unit, k - 1) + [BuilderVertex(n, unit, YieldAt(ForUpTo(Int2(n, n)), k - 1))]
  }

  /** Slot `i` of that list holds the vertex of the `i`-th point. */
  lemma {:induction false} GridVerticesSlot(n: int, unit: real, k: nat, i: nat)
    requires i < k
    ensures GridVertices(n, unit, k)[i] == BuilderVertex(n, unit, YieldAt(ForUpTo(Int2(n, n)), i))
  {
    if i < k - 1 {
      GridVerticesSlot(n, unit, k - 1, i);
    }
  }

  /** How many slots the two loops write: n^2 vertices and 6 (n - 1)^2
      triangle indices for n >= 1, none otherwise; both fit the buffers. */
  lemma {:induction false} WrittenCounts(n: int)
    ensures M.CellCount(n) == (if n >= 1 then n * n else 0) <= M.VertCount(n)
    ensures M.CellCount(n - 1) == (if n >= 1 then (n - 1) * (n - 1) else 0)
    ensures 6 * M.CellCount(n - 1) <= M.TriSlots(n)
  {
    M.CountForCells(n);
    M.CountForCells(n - 1);
    M.SizesAreSquares(n);
    if n >= 1 {
      assert M.VertCount(n) == n * n + 2 * n + 1;
      assert (n - 1) * (n - 1) == n * n - 2 * n + 1;
    }
  }

  // ---------------------------------------------------------------------------
  // The Adaptor

  /** The `Adaptor` index: x-major with stride n. */
  function AdaptorIndex(n: int, p: Int2): int {
    p.x * n + p.y
  }

  /** The indexer: the array access at `AdaptorIndex`, which throws
      IndexOutOfRangeException outside the array. */
  function Adaptor(n: int, length: nat, p: Int2): Result<nat> {
    var idx := AdaptorIndex(n, p);
    if idx < 0 || idx >= length then Err(IndexOutOfRange) else Ok(idx)
  }

  /** `AdaptorIndex` maps [0, n)^2 into [0, n^2), where the vertex loop wrote
      the transposed point ... */
  lemma {:induction false} AdaptorIndexIntoWritten(n: int, p: Int2)
    requires 0 <= p.x < n && 0 <= p.y < n
    ensures 0 <= AdaptorIndex(n, p) < n * n
    ensures YieldAt(ForUpTo(Int2(n, n)), AdaptorIndex(n, p)) == Int2(p.y, p.x)
  {
    var g := ForUpTo(Int2(n, n));
    assert IndexOf(g, Int2(p.y, p.x)) == AdaptorIndex(n, p);
    YieldCoversRect(g, Int2(p.y, p.x));
  }

  /** ... and every slot of [0, n^2) is the index of exactly one point of
      [0, n)^2: the transpose of the point the vertex loop wrote there. */
  lemma {:induction false} AdaptorIndexOntoWritten(n: int, k: nat)
    requires n >= 1 && k < n * n
    ensures var q := YieldAt(ForUpTo(Int2(n, n)), k);
      && 0 <= q.y < n && 0 <= q.x < n && AdaptorIndex(n, Int2(q.y, q.x)) == k
    ensures forall p: Int2 | 0 <= p.x < n && 0 <= p.y < n && AdaptorIndex(n, p) == k ::
      p == Int2(YieldAt(ForUpTo(Int2(n, n)), k).y, YieldAt(ForUpTo(Int2(n, n)), k).x)
  {
    var g := ForUpTo(Int2(n, n));
    YieldInRect(g, k);
    YieldOnce(g, k);
    forall p: Int2 | 0 <= p.x < n && 0 <= p.y < n && AdaptorIndex(n, p) == k
      ensures p == Int2(YieldAt(g, k).y, YieldAt(g, k).x)
    {
      AdaptorIndexIntoWritten(n, p);
    }
  }

  /** After the constructor, the indexer at a point p of [0, n)^2 reads the
      vertex of the transposed point. */
  lemma AdaptorReadsTheTransposedVertex(n: int, unit: real, vs: seq<Vec3>, p: Int2)
    requires 0 <= p.x < n && 0 <= p.y < n
    requires M.CellCount(n) <= |vs| && vs[..M.CellCount(n)] == GridVertices(n, unit, M.CellCount(n))
    ensures Adaptor(n, |vs|, p) == Ok(AdaptorIndex(n, p))
    ensures vs[AdaptorIndex(n, p)] == BuilderVertex(n, unit, Int2(p.y, p.x))
  {
    AdaptorIndexIntoWritten(n, p);
    M.CountForCells(n);
    GridVerticesSlot(n, unit, M.CellCount(n), AdaptorIndex(n, p));
    assert vs[AdaptorIndex(n, p)] == vs[..M.CellCount(n)][AdaptorIndex(n, p)];
  }

  /** Every index the triangle loop writes is below n^2: it names a vertex
      slot the vertex loop wrote. */
  lemma {:induction false} TrianglesIndexWrittenVertices(n: int)
    requires n >= 1
    ensures var ts := M.GridTriangles(n - 1, M.CellCount(n - 1));
      forall t | 0 <= t < |ts| :: 0 <= ts[t] < M.CellCount(n)
  {
    M.TrianglesIndexVertices(n - 1);
    WrittenCounts(n);
    M.SizesAreSquares(n - 1);
    assert M.VertCount(n - 1) == n * n;
  }

  /** The grid spans [-off, (n - 1) unit - off] on each axis: it is centred
      on the origin only for an odd n; for an even n it sits half a unit too
      far toward negative coordinates. */
  lemma {:induction false} CenteredOnlyForOddCounts(n: int, unit: real)
    requires n >= 1
    ensures var sum := BuilderVertex(n, unit, Int2(0, 0)).x + BuilderVertex(n, unit, Int2(n - 1, 0)).x;
      && sum == (if n % 2 == 1 then 0.0 else -unit)
      && (unit != 0.0 ==> (sum == 0.0 <==> n % 2 == 1))
  {
    var h := n / 2;
    assert HalfTowardZero(n) == h;
    var sum := BuilderVertex(n, unit, Int2(0, 0)).x + BuilderVertex(n, unit, Int2(n - 1, 0)).x;
    assert sum == (n - 1) as real * unit - 2.0 * (h as real * unit);
    assert sum == ((n - 1 - 2 * h) as real) * unit;
    if n % 2 == 1 {
      assert n - 1 - 2 * h == 0;
    } else {
      assert n - 1 - 2 * h == -1;
    }
  }

  // ---------------------------------------------------------------------------

  /** The vertex loop: a foreach over `For(n)` writing one centred vertex per
      point at a running index; the slots past the last point are kept. */
  method WriteVertices(vertices: array<Vec3>, n: int, unit: real)
    requires M.CellCount(n) <= vertices.Length
    modifies vertices
    ensures vertices[..M.CellCount(n)] == GridVertices(n, unit, M.CellCount(n))
    ensures vertices[M.CellCount(n)..] == old(vertices[M.CellCount(n)..])
  {
    var g := ForUpTo(Int2(n, n));
    var e := new Enumerator(g);
    var vertIndex := 0;
    var more := e.MoveNext();
    StepFromStart(g);
    while more
      invariant e.grid == g && e.value == YieldAt(g, vertIndex)
      invariant vertIndex <= Count(g) && (more <==> vertIndex < Count(g))
      invariant vertices[..vertIndex] == GridVertices(n, unit, vertIndex)
      invariant vertices[Count(g)..] == old(vertices[Count(g)..])
      decreases Count(g) - vertIndex
    {
      var p := e.Current();
      ghost var before := vertices[..vertIndex];
      vertices[vertIndex] := BuilderVertex(n, unit, p);
      assert vertices[..vertIndex + 1] == before + [BuilderVertex(n, unit, p)];
      StepFromYield(g, vertIndex);
      vertIndex := vertIndex + 1;
      more := e.MoveNext();
    }
  }

  class ChunkMeshBuilder {
    const gridCount: int
    const unitSideLength: real
    const vertices: array<Vec3>
    const colors: array<M.Color>
    const triangles: array<int>

    /** The constructor: buffers sized for (n + 1)^2 vertices and 6 n^2
        indices; the vertex loop fills the first n^2 vertex slots and the
        triangle loop (ChunkMesher's loop for n - 1 cells per side) the
        first 6 (n - 1)^2 index slots; everything else, including every
        colour, keeps its default. */
    constructor (gridCount: int, unitSideLength: real)
      ensures this.gridCount == gridCount && this.unitSideLength == unitSideLength
      ensures fresh(vertices) && fresh(colors) && fresh(triangles)
      ensures vertices.Length == M.VertCount(gridCount) && colors.Length == M.VertCount(gridCount)
      ensures triangles.Length == M.TriSlots(gridCount)
      ensures M.CellCount(gridCount) <= vertices.Length
      ensures vertices[..M.CellCount(gridCount)] == GridVertices(gridCount, unitSideLength, M.CellCount(gridCount))
      ensures forall k | M.CellCount(gridCount) <= k < vertices.Length :: vertices[k] == M.Zero3
      ensures forall k | 0 <= k < colors.Length :: colors[k] == M.Black
      ensures 6 * M.CellCount(gridCount - 1) <= triangles.Length
      ensures triangles[..6 * M.CellCount(gridCount - 1)] == M.GridTriangles(gridCount - 1, M.CellCount(gridCount - 1))
      ensures forall t | 6 * M.CellCount(gridCount - 1) <= t < triangles.Length :: triangles[t] == 0
    {
      M.SizesAreSquares(gridCount);
      WrittenCounts(gridCount);
      this.gridCount := gridCount;
      this.unitSideLength := unitSideLength;
      vertices := new Vec3[M.VertCount(gridCount)](_ => M.Zero3);
      colors := new M.Color[M.VertCount(gridCount)](_ => M.Black);
      triangles := new int[M.TriSlots(gridCount)](_ => 0);
      new;
      ghost var vs0, ts0 := vertices[..], triangles[..];
      WriteVertices(vertices, gridCount, unitSideLength);
      M.WriteGridTriangles(triangles, gridCount - 1);
      forall k | M.CellCount(gridCount) <= k < vertices.Length
        ensures vertices[k] == M.Zero3
      {
        assert vertices[k] == vertices[M.CellCount(gridCount)..][k - M.CellCount(gridCount)];
      }
      forall t | 6 * M.CellCount(gridCount - 1) <= t < triangles.Length
        ensures triangles[t] == 0
      {
        assert triangles[t] == triangles[6 * M.CellCount(gridCount - 1)..][t - 6 * M.CellCount(gridCount - 1)];
      }
    }
  }
}
