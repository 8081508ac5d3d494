/** Griderable: iteration over the integer points of a rectangle [min, max)
    without nested loops. Its enumerator keeps one point, starts one step to
    the left of `min` and moves x fastest, wrapping to the next row when x
    reaches `max.x`; `MoveNext` reports whether the new row is still below
    `max.y`.

    The closed form of the sequence it yields is `YieldAt`, and `Count` is
    its length. For a non-empty x-range this is the row-major order of
    [min, max). For an empty x-range every step wraps, so the enumerator
    still yields points one column at x = min.x, from row min.y + 1 up to
    max.y - 1. */
module Grids {
  import opened Common

  datatype Griderable = Griderable(min: Int2, max: Int2)

  /** `Griderable.For(min, max)`. */
  function For(min: Int2, max: Int2): Griderable {
    Griderable(min, max)
  }

  /** `Griderable.For(max)`: from the origin. */
  function ForUpTo(max: Int2): Griderable {
    Griderable(Int2(0, 0), max)
  }

  /** `Griderable.ForInclusive(n)` is an external enumerator, used by the
      mesher's vertex loop and by the chunk manager; it is assumed to visit [0, n] x [0, n] in the same x-fastest order as `For`,
      i.e. to be `For` up to (n + 1, n + 1). */
  function ForInclusive(n: int): Griderable {
    Griderable(Int2(0, 0), Int2(n + 1, n + 1))
  }

  function Width(g: Griderable): int {
    g.max.x - g.min.x
  }

  function Height(g: Griderable): int {
    g.max.y - g.min.y
  }

  /** The enumerator's point after `Reset`: one unit left of `min`. */
  function Start(g: Griderable): Int2 {
    Int2(g.min.x - 1, g.min.y)
  }

  /** `MoveNext` from the point `v`: the new point, and whether it is reported. */
  function Step(g: Griderable, v: Int2): (Int2, bool) {
    var x := v.x + 1;
    var v' := if x >= g.max.x then Int2(g.min.x, v.y + 1) else Int2(x, v.y);
    (v', v'.y < g.max.y)
  }

  /** The point after `k` calls of `MoveNext` from `Reset`. */
  function After(g: Griderable, k: nat): Int2 {
    if k == 0 then Start(g) else Step(g, After(g, k - 1)).0
  }

  /** How many points the enumerator yields. */
  function Count(g: Griderable): nat {
    if Width(g) > 0 then
      (if Height(g) > 0 then Width(g) * Height(g) else 0)
    else
      (if Height(g) > 1 then Height(g) - 1 else 0)
  }

  /** The `i`-th point yielded (from 0). */
  function YieldAt(g: Griderable, i: nat): Int2 {
    if Width(g) > 0 then Int2(g.min.x + i % Width(g), g.min.y + i / Width(g))
    else Int2(g.min.x, g.min.y + 1 + i)
  }

  /** Where a point of [min, max) sits in the row-major order. */
  function IndexOf(g: Griderable, p: Int2): int {
    (p.y - g.min.y) * Width(g) + (p.x - g.min.x)
  }

  predicate InRect(g: Griderable, p: Int2) {
    g.min.x <= p.x < g.max.x && g.min.y <= p.y < g.max.y
  }

  // ---------------------------------------------------------------------------
  // Division facts

  lemma DivModUnique(a: int, w: int, q: int, r: int)
    requires w > 0 && 0 <= r < w && a == q * w + r
    ensures a / w == q && a % w == r
  {
    var q0, r0 := a / w, a % w;
    assert (q - q0) * w == r0 - r;
    if q > q0 {
      MulAtLeast(q - q0, w);
    } else if q < q0 {
      MulAtLeast(q0 - q, w);
    }
  }

  lemma MulAtLeast(a: int, w: int)
    requires a >= 1 && w > 0
    ensures a * w >= w
  {
    assert a * w == (a - 1) * w + w;
    MulNonNegative(a - 1, w);
  }

  lemma MulNonNegative(a: int, b: int)
    requires a >= 0 && b >= 0
    ensures a * b >= 0
  {
  }

  lemma DivModNext(i: nat, w: int)
    requires w > 0
    ensures i % w + 1 < w ==> (i + 1) / w == i / w && (i + 1) % w == i % w + 1
    ensures i % w + 1 == w ==> (i + 1) / w == i / w + 1 && (i + 1) % w == 0
  {
    var q, r := i / w, i % w;
    if r + 1 < w {
      DivModUnique(i + 1, w, q, r + 1);
    } else {
      assert i + 1 == (q + 1) * w + 0;
      DivModUnique(i + 1, w, q + 1, 0);
    }
  }

  /** `a / w < h` exactly when `a < w * h`, for a non-negative `a`. */
  lemma DivBelow(a: nat, w: int, h: int)
    requires w > 0
    ensures a / w < h <==> a < w * h
  {
    var q, r := a / w, a % w;
    assert a == q * w + r;
    if q < h {
      assert (h - q) * w >= w by { MulAtLeast(h - q, w); }
      assert w * h == q * w + (h - q) * w;
    } else {
      assert (q - h) * w >= 0 by { MulNonNegative(q - h, w); }
      assert w * h == q * w - (q - h) * w;
    }
  }

  // ---------------------------------------------------------------------------
  // What the enumerator yields

  /** The first `MoveNext` from `Reset` lands on the first yielded point, and
      reports it exactly when there is one. */
  lemma StepFromStart(g: Griderable)
    ensures Step(g, Start(g)) == (YieldAt(g, 0), 0 < Count(g))
  {
    if Width(g) > 0 {
      DivModUnique(0, Width(g), 0, 0);
      if Height(g) > 0 {
        MulAtLeast(Height(g), Width(g));
      }
    }
  }

  /** From the `i`-th yielded point, `MoveNext` lands on the next one, and
      reports it exactly when it is still within the count. */
  lemma {:induction false} StepFromYield(g: Griderable, i: nat)
    ensures Step(g, YieldAt(g, i)) == (YieldAt(g, i + 1), i + 1 < Count(g))
  {
    var w, h := Width(g), Height(g);
    if w > 0 {
      DivModNext(i, w);
      DivBelow(i + 1, w, h);
      if h <= 0 {
        assert (i + 1) / w >= 0;
      }
    }
  }

  /** The enumeration theorem: after `k >= 1` calls of `MoveNext` from
      `Reset`, the current point is the (k-1)-th of `YieldAt`, and the k-th
      call returned true exactly when k - 1 < Count. */
  lemma {:induction false} AfterIsYieldAt(g: Griderable, k: nat)
    requires k >= 1
    ensures After(g, k) == YieldAt(g, k - 1)
    ensures Step(g, After(g, k - 1)).1 <==> k - 1 < Count(g)
    decreases k
  {
    if k == 1 {
      StepFromStart(g);
    } else {
      AfterIsYieldAt(g, k - 1);
      StepFromYield(g, k - 2);
    }
  }

  /** For a non-empty x-range every yielded point lies in [min, max). */
  lemma YieldInRect(g: Griderable, i: nat)
    requires Width(g) > 0 && i < Count(g)
    ensures InRect(g, YieldAt(g, i))
  {
    var w := Width(g);
    DivBelow(i, w, Height(g));
  }

  /** For a non-empty x-range each point of [min, max) is yielded, at its
      row-major index. */
  lemma YieldCoversRect(g: Griderable, p: Int2)
    requires Width(g) > 0 && InRect(g, p)
    ensures 0 <= IndexOf(g, p) < Count(g)
    ensures YieldAt(g, IndexOf(g, p)) == p
  {
    var w, h := Width(g), Height(g);
    var q, r := p.y - g.min.y, p.x - g.min.x;
    MulNonNegative(q, w);
    DivModUnique(IndexOf(g, p), w, q, r);
    DivBelow(IndexOf(g, p), w, h);
  }

  /** ... and only once: the row-major index of the `i`-th point is `i`. */
  lemma YieldOnce(g: Griderable, i: nat)
    requires Width(g) > 0
    ensures IndexOf(g, YieldAt(g, i)) == i
  {
  }

  /** With `max.x <= min.x` the rectangle is empty, yet the enumerator yields
      `Height - 1` points (when that is positive), each at x = min.x, outside
      [min, max). */
  lemma EmptyWidthStillYields(g: Griderable, i: nat)
    requires Width(g) <= 0 && i < Count(g)
    ensures Count(g) == Height(g) - 1
    ensures YieldAt(g, i) == Int2(g.min.x, g.min.y + 1 + i) && !InRect(g, YieldAt(g, i))
  {
  }

  // ---------------------------------------------------------------------------

  /** `Griderable.Enumerator`: the grid and the current point. */
  class Enumerator {
    const grid: Griderable
    var value: Int2

    constructor (grid: Griderable)
      ensures this.grid == grid && value == Start(grid)
    {
      this.grid := grid;
      value := Int2(0, 0);
      new;
      Reset();
    }

    function Current(): Int2
      reads this
    {
      value
    }

    /** `Reset`: one unit before `min` in x, so that the first `MoveNext`
        lands on `min`. */
    method Reset()
      modifies this
      ensures value == Start(grid)
    {
      value := Int2(grid.min.x - 1, grid.min.y);
    }

    /** `MoveNext`: x first; past the row's end, back to min.x on the next
        row; true while the row is below max.y. */
    method MoveNext() returns (more: bool)
      modifies this
      ensures (value, more) == Step(grid, old(value))
    {
      value := value.(x := value.x + 1);
      if value.x >= grid.max.x {
        value := Int2(grid.min.x, value.y + 1);
      }
      more := value.y < grid.max.y;
    }
  }
}
