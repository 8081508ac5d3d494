/** GenerationUtils: which ground-mesh triangle lies under a world location,
    the path/ground height comparisons, and the height lookup with its
    raycast fallback and its warn-once flag.

    The chunk `GeneratorManager.WorldToChunkInstance` finds is a parameter,
    reduced to what the triangle selection reads of it. The barycentric
    interpolation over the mesher's vertices (`MathUtils.Barycentric`) and
    the physics raycast are parameters as well. */
module GenerationUtil {
  import opened Common
  import M = ChunkMeshers

  /** `DEFAULT_HEIGHT`: the height when the fallback raycast misses. */
  const DEFAULT_HEIGHT: real := -1.0

  /** What `GetTriangleInformation` reads of a chunk: the lower corner of its
      bounds and the ground mesher's grid. */
  datatype ChunkView = ChunkView(boundsMin: Vec2, gridCount: int, unitSideLength: real)

  /** An int2x3: three grid points. */
  datatype Tri = Tri(a: Int2, b: Int2, c: Int2)

  /** The three results of `GetTriangleInformation`. */
  datatype TriangleInfo = TriangleInfo(found: bool, localCoordinate: Vec2, tri: Tri)

  datatype ChunkMeshKind = Path | Ground

  const ZeroTri: Tri := Tri(Int2(0, 0), Int2(0, 0), Int2(0, 0))

  /** The half of cell `grid` the fraction falls in: below the diagonal from
      (1, 0) to (0, 1) the lower-left triangle, otherwise the upper-right. */
  function SelectTriangle(grid: Int2, frac: Vec2): Tri {
    if frac.x < 1.0 - frac.y then
      Tri(grid, grid.Plus(Int2(1, 0)), grid.Plus(Int2(0, 1)))
    else
      Tri(grid.Plus(Int2(1, 0)), grid.Plus(Int2(1, 1)), grid.Plus(Int2(0, 1)))
  }

  /** `GetTriangleInformation(location, ...)`, given the chunk under the
      location (None for a null chunk). */
  function GetTriangleInformation(location: Vec2, chunk: Option<ChunkView>): (r: TriangleInfo)
    requires chunk.Some? ==> chunk.value.unitSideLength != 0.0
    ensures chunk.None? <==> !r.found
    ensures chunk.None? ==> r.localCoordinate == location && r.tri == ZeroTri
    ensures chunk.Some? ==> r.localCoordinate == location.Minus(chunk.value.boundsMin)
  {
    match chunk
    case None => TriangleInfo(false, location, ZeroTri)
    case Some(c) =>
      var local := location.Minus(c.boundsMin);
      var (grid, frac) := M.WorldToGridPosition(c.gridCount, c.unitSideLength, local);
      TriangleInfo(true, local, SelectTriangle(grid, frac))
  }

  // ---------------------------------------------------------------------------
  // Point in triangle, by the signs of the three edge functions

  /** Twice the signed area of (a, b, p): positive when p is left of a -> b. */
  function Cross(a: Vec2, b: Vec2, p: Vec2): real {
    (b.x - a.x) * (p.y - a.y) - (b.y - a.y) * (p.x - a.x)
  }

  /** p lies in the closed triangle t: it is on the same side of all three
      edges. */
  predicate InTriangle(t: Tri, p: Vec2) {
    var a, b, c := AsReal(t.a), AsReal(t.b), AsReal(t.c);
    || (Cross(a, b, p) >= 0.0 && Cross(b, c, p) >= 0.0 && Cross(c, a, p) >= 0.0)
    || (Cross(a, b, p) <= 0.0 && Cross(b, c, p) <= 0.0 && Cross(c, a, p) <= 0.0)
  }

  /** The selected triangle contains the point: for a fraction in the unit
      square, grid + frac lies in the chosen half of the cell. */
  lemma SelectedTriangleContainsPoint(grid: Int2, frac: Vec2)
    requires 0.0 <= frac.x <= 1.0 && 0.0 <= frac.y <= 1.0
    ensures InTriangle(SelectTriangle(grid, frac), AsReal(grid).Plus(frac))
  {
    var g, p := AsReal(grid), AsReal(grid).Plus(frac);
    var t := SelectTriangle(grid, frac);
    var a, b, c := AsReal(t.a), AsReal(t.b), AsReal(t.c);
    if frac.x < 1.0 - frac.y {
      assert a == g && b == Vec2(g.x + 1.0, g.y) && c == Vec2(g.x, g.y + 1.0);
      assert Cross(a, b, p) == frac.y;
      assert Cross(b, c, p) == 1.0 - frac.x - frac.y;
      assert Cross(c, a, p) == frac.x;
    } else {
      assert a == Vec2(g.x + 1.0, g.y) && b == Vec2(g.x + 1.0, g.y + 1.0) && c == Vec2(g.x, g.y + 1.0);
      assert Cross(a, b, p) == 1.0 - frac.x;
      assert Cross(b, c, p) == 1.0 - frac.y;
      assert Cross(c, a, p) == frac.x + frac.y - 1.0;
    }
  }

  /** The two halves meet only on the diagonal: a point strictly below it is
      not in the upper-right triangle, so the rule picks the only triangle
      that contains the point. */
  lemma SelectionIsTheOnlyChoice(grid: Int2, frac: Vec2)
    requires 0.0 <= frac.x <= 1.0 && 0.0 <= frac.y <= 1.0 && frac.x + frac.y != 1.0
    ensures var lower := Tri(grid, grid.Plus(Int2(1, 0)), grid.Plus(Int2(0, 1)));
      var upper := Tri(grid.Plus(Int2(1, 0)), grid.Plus(Int2(1, 1)), grid.Plus(Int2(0, 1)));
      var p := AsReal(grid).Plus(frac);
      && (InTriangle(lower, p) <==> frac.x < 1.0 - frac.y)
      && (InTriangle(upper, p) <==> !(frac.x < 1.0 - frac.y))
  {
    var g, p := AsReal(grid), AsReal(grid).Plus(frac);
    var lower := Tri(grid, grid.Plus(Int2(1, 0)), grid.Plus(Int2(0, 1)));
    var upper := Tri(grid.Plus(Int2(1, 0)), grid.Plus(Int2(1, 1)), grid.Plus(Int2(0, 1)));
    var la, lb, lc := AsReal(lower.a), AsReal(lower.b), AsReal(lower.c);
    var ua, ub, uc := AsReal(upper.a), AsReal(upper.b), AsReal(upper.c);
    assert la == g && lb == Vec2(g.x + 1.0, g.y) && lc == Vec2(g.x, g.y + 1.0);
    assert ua == lb && ub == Vec2(g.x + 1.0, g.y + 1.0) && uc == lc;
    assert Cross(la, lb, p) == frac.y && Cross(lb, lc, p) == 1.0 - frac.x - frac.y && Cross(lc, la, p) == frac.x;
    assert Cross(ua, ub, p) == 1.0 - frac.x && Cross(ub, uc, p) == 1.0 - frac.y && Cross(uc, ua, p) == frac.x + frac.y - 1.0;
  }

  /** For a location inside a chunk of positive unit length, the triangle
      found has its three corners on the mesher's grid and contains the
      location's grid position (local coordinate over unit length). */
  lemma {:induction false} TriangleUnderLocation(location: Vec2, c: ChunkView)
    requires c.gridCount >= 1 && c.unitSideLength > 0.0
    requires var local := location.Minus(c.boundsMin);
      && 0.0 <= local.x / c.unitSideLength <= c.gridCount as real
      && 0.0 <= local.y / c.unitSideLength <= c.gridCount as real
    ensures var r := GetTriangleInformation(location, Some(c));
      var t, q := r.tri, r.localCoordinate;
      && r.found
      && M.OnGrid(c.gridCount, t.a) && M.OnGrid(c.gridCount, t.b) && M.OnGrid(c.gridCount, t.c)
      && InTriangle(t, Vec2(q.x / c.unitSideLength, q.y / c.unitSideLength))
  {
    var local := location.Minus(c.boundsMin);
    var dx, dy := local.x / c.unitSideLength, local.y / c.unitSideLength;
    M.GridAxisInChunk(c.gridCount, dx);
    M.GridAxisInChunk(c.gridCount, dy);
    var (grid, frac) := M.WorldToGridPosition(c.gridCount, c.unitSideLength, local);
    SelectedTriangleContainsPoint(grid, frac);
    assert AsReal(grid).Plus(frac) == Vec2(dx, dy);
  }

  // ---------------------------------------------------------------------------
  // Heights

  /** `IsPathAt`: the path mesh is strictly above the ground there. */
  predicate IsPathAt(pathHeight: real, groundHeight: real) {
    pathHeight > groundHeight
  }

  /** `StandHeightAt`: the higher of the two meshes. */
  function StandHeightAt(pathHeight: real, groundHeight: real): (h: real)
    ensures h >= pathHeight && h >= groundHeight
    ensures h == pathHeight || h == groundHeight
  {
    if pathHeight >= groundHeight then pathHeight else groundHeight
  }

  /** One stands on the path exactly where the path is the higher mesh:
      standing height above the ground means a path there, and the other way
      round. */
  lemma StandsOnPathExactlyWhereIsPath(pathHeight: real, groundHeight: real)
    ensures IsPathAt(pathHeight, groundHeight) <==> StandHeightAt(pathHeight, groundHeight) > groundHeight
    ensures !IsPathAt(pathHeight, groundHeight) <==> StandHeightAt(pathHeight, groundHeight) == groundHeight
  {
  }

  /** The process-wide `HasWarnedForInvalidGroundHeight` flag, and the
      warnings logged so far. */
  class HeightSampler {
    var hasWarnedForInvalidGroundHeight: bool
    var warningsLogged: nat

    /** A warning has been logged exactly when the flag is set, and once. */
    ghost predicate Valid()
      reads this
    {
      warningsLogged == if hasWarnedForInvalidGroundHeight then 1 else 0
    }

    constructor ()
      ensures Valid() && !hasWarnedForInvalidGroundHeight
    {
      hasWarnedForInvalidGroundHeight := false;
      warningsLogged := 0;
    }

    /** `HeightAt(location, mesh)`. Without a chunk it logs the warning (the
        first time only) and answers the raycast's hit height, or
        `DEFAULT_HEIGHT` on a miss; with one it interpolates over the chosen
        mesher's triangle. */
    method HeightAt(location: Vec2, mesh: ChunkMeshKind, chunk: Option<ChunkView>, raycast: Option<real>,
                    interpolate: (ChunkView, ChunkMeshKind, Vec2, Tri) -> real) returns (h: real)
      requires Valid()
      requires chunk.Some? ==> chunk.value.unitSideLength != 0.0
      modifies this
      ensures Valid()
      ensures chunk.None? ==> && hasWarnedForInvalidGroundHeight
                              && warningsLogged == old(warningsLogged) + (if old(hasWarnedForInvalidGroundHeight) then 0 else 1)
                              && h == raycast.GetOr(DEFAULT_HEIGHT)
      ensures chunk.Some? ==> && unchanged(this)
                              && var info := GetTriangleInformation(location, chunk);
                                 h == interpolate(chunk.value, mesh, info.localCoordinate, info.tri)
    {
      var info := GetTriangleInformation(location, chunk);
      if !info.found {
        if !hasWarnedForInvalidGroundHeight {
          warningsLogged := warningsLogged + 1;
          hasWarnedForInvalidGroundHeight := true;
        }
        if raycast.Some? {
          return raycast.value;
        }
        return DEFAULT_HEIGHT;
      }
      h := interpolate(chunk.value, mesh, info.localCoordinate, info.tri);
    }
  }
}
