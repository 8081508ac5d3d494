/** MathUtils over the reals: the smootherstep kernel, the four lattice corners
    of the unit cell holding a point, bilinear sampling between corner values,
    and gradient noise from four corner gradients. Floats are not modelled:
    these are the algebraic identities the samplers rely on. */
module MathUtils {
  import opened Common

  /** 6t^5 - 15t^4 + 10t^3, written as the source evaluates it. */
  function Smootherstep(t: real): real {
    t * t * t * (t * (6.0 * t - 15.0) + 10.0)
  }

  /** The kernel fixes both ends of [0, 1]. */
  lemma SmootherstepFixesEnds()
    ensures Smootherstep(0.0) == 0.0 && Smootherstep(1.0) == 1.0
  {
  }

  function Smootherstep2(v: Vec2): Vec2 {
    Vec2(Smootherstep(v.x), Smootherstep(v.y))
  }

  /** The corners of the integer-aligned unit square holding `x`, in the order
      floor(x) + (0,0), (0,1), (1,1), (1,0). */
  function Corners(x: Vec2): (r: Quad<Vec2>)
    // the first corner is a lattice point, and x lies in the unit square at it
    ensures r.c0.x.Floor as real == r.c0.x && r.c0.y.Floor as real == r.c0.y
    ensures r.c0.x <= x.x < r.c0.x + 1.0 && r.c0.y <= x.y < r.c0.y + 1.0
    // the other three are that square's corners, in the order (0,1), (1,1), (1,0)
    ensures r.c1 == Vec2(r.c0.x, r.c0.y + 1.0)
    ensures r.c2 == Vec2(r.c0.x + 1.0, r.c0.y + 1.0)
    ensures r.c3 == Vec2(r.c0.x + 1.0, r.c0.y)
  {
    var xf := Floor2(x);
    Quad(xf.Plus(Vec2(0.0, 0.0)), xf.Plus(Vec2(0.0, 1.0)), xf.Plus(Vec2(1.0, 1.0)), xf.Plus(Vec2(1.0, 0.0)))
  }

  /** math.lerp(a, b, t) = a + t (b - a). */
  function Lerp(a: real, b: real, t: real): real {
    a + t * (b - a)
  }

  /** Bilinear sampling between corner values ordered as `Corners` orders them,
      weighted by the smootherstep of the fractional position. */
  function SampleCorners(x: Vec2, corners: Quad<real>): real {
    var f := Smootherstep2(Frac2(x));
    Lerp(Lerp(corners.c0, corners.c1, f.y), Lerp(corners.c3, corners.c2, f.y), f.x)
  }

  /** The four dot products of each corner gradient with the offset of `x` from
      that corner, `x` being a position inside the unit cell. */
  function CornerDots(x: Vec2, grads: Quad<Vec2>): Quad<real> {
    Quad(grads.c0.Dot(x.Minus(Vec2(0.0, 0.0))),
         grads.c1.Dot(x.Minus(Vec2(0.0, 1.0))),
         grads.c2.Dot(x.Minus(Vec2(1.0, 1.0))),
         grads.c3.Dot(x.Minus(Vec2(1.0, 0.0))))
  }

  /** Gradient noise remapped from [-1, 1] to [0, 1]. */
  function PerlinNoiseFromGrads(x: Vec2, grads: Quad<Vec2>): real {
    SampleCorners(x, CornerDots(x, grads)) * 0.5 + 0.5
  }

  // ---------------------------------------------------------------------------

  /** The corners are pairwise distinct, each within one unit of floor(x) on
      each axis, and `x` lies in the square they span. */
  lemma CornersSpanCellOfX(x: Vec2)
    ensures var r := Corners(x);
      && r.c0 != r.c1 && r.c0 != r.c2 && r.c0 != r.c3
      && r.c1 != r.c2 && r.c1 != r.c3 && r.c2 != r.c3
      && r.c0.x <= x.x < r.c2.x && r.c0.y <= x.y < r.c2.y
      && r.c2.x - r.c0.x == 1.0 && r.c2.y - r.c0.y == 1.0
  {
  }

  /** On [0, 1] the kernel stays within [0, 1], as its documentation says. */
  lemma {:induction false} SmootherstepInUnitInterval(t: real)
    requires 0.0 <= t <= 1.0
    ensures 0.0 <= Smootherstep(t) <= 1.0
  {
    var q := t * (6.0 * t - 15.0) + 10.0;
    assert q == 6.0 * (t - 1.25) * (t - 1.25) + 0.625;
    assert (t - 1.25) * (t - 1.25) == (1.25 - t) * (1.25 - t);
    MulNonNegative(1.25 - t, 1.25 - t);
    assert q > 0.0;
    var cube := t * t * t;
    assert cube >= 0.0 by {
      assert t * t >= 0.0;
    }
    assert Smootherstep(t) == cube * q;
    var u := 1.0 - t;
    var p := 6.0 * t * t + 3.0 * t + 1.0;
    assert 1.0 - Smootherstep(t) == u * u * u * p;
    MulNonNegative(u, u);
    MulNonNegative(u * u, u);
    assert p >= 1.0;
    MulNonNegative(u * u * u, p);
  }

  lemma MulNonNegative(a: real, b: real)
    requires 0.0 <= a && 0.0 <= b
    ensures 0.0 <= a * b
  {
  }

  /** For a weight in [0, 1], `Lerp` stays between its two ends. */
  lemma LerpBetween(a: real, b: real, t: real, lo: real, hi: real)
    requires 0.0 <= t <= 1.0
    requires lo <= a <= hi && lo <= b <= hi
    ensures lo <= Lerp(a, b, t) <= hi
  {
    var d := b - a;
    var step := t * d;
    assert Lerp(a, b, t) == a + step;
    if d >= 0.0 {
      MulNonNegative(t, d);
      MulNonNegative(1.0 - t, d);
      assert d - step == (1.0 - t) * d;
    } else {
      MulNonNegative(t, -d);
      MulNonNegative(1.0 - t, -d);
      assert step - d == (1.0 - t) * -d;
    }
  }

  /** Bilinear sampling never leaves the range of its corner values. */
  lemma {:induction false} SampleCornersBounded(x: Vec2, corners: Quad<real>, lo: real, hi: real)
    requires lo <= corners.c0 <= hi && lo <= corners.c1 <= hi
    requires lo <= corners.c2 <= hi && lo <= corners.c3 <= hi
    ensures lo <= SampleCorners(x, corners) <= hi
  {
    var f := Smootherstep2(Frac2(x));
    FracInUnitInterval(x.x);
    FracInUnitInterval(x.y);
    SmootherstepInUnitInterval(Frac(x.x));
    SmootherstepInUnitInterval(Frac(x.y));
    LerpBetween(corners.c0, corners.c1, f.y, lo, hi);
    LerpBetween(corners.c3, corners.c2, f.y, lo, hi);
    LerpBetween(Lerp(corners.c0, corners.c1, f.y), Lerp(corners.c3, corners.c2, f.y), f.x, lo, hi);
  }

  /** Four equal corner values are sampled as that value, wherever `x` is. */
  lemma SampleCornersOfEqualValues(x: Vec2, v: real)
    ensures SampleCorners(x, Quad(v, v, v, v)) == v
  {
  }

  /** At a lattice point (fractional part (0, 0)) sampling returns corners.c0. */
  lemma SampleCornersAtLatticePoint(x: Vec2, corners: Quad<real>)
    requires Frac2(x) == Vec2(0.0, 0.0)
    ensures SampleCorners(x, corners) == corners.c0
  {
  }

  /** Noise is the sampled dot products remapped by `* 0.5 + 0.5`, and lies in
      [0, 1] whenever each dot product lies in [-1, 1]. */
  lemma {:induction false} PerlinNoiseInUnitInterval(x: Vec2, grads: Quad<Vec2>)
    requires var d := CornerDots(x, grads);
      -1.0 <= d.c0 <= 1.0 && -1.0 <= d.c1 <= 1.0 && -1.0 <= d.c2 <= 1.0 && -1.0 <= d.c3 <= 1.0
    ensures 0.0 <= PerlinNoiseFromGrads(x, grads) <= 1.0
  {
    SampleCornersBounded(x, CornerDots(x, grads), -1.0, 1.0);
  }
}
