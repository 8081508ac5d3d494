/** Value types shared by the whole model: optional values and results for the
    source's nulls and exceptions, the integer and real vector types standing for
    Unity.Mathematics' int2/float2/float3, a float with its non-finite values for
    the scale checks, and the rounding operations the samplers use. */
module Common {

  datatype Option<T> = None | Some(value: T) {
    function GetOr(default: T): T {
      match this
      case Some(v) => v
      case None => default
    }
  }

  /** The exceptions the modelled code can throw. */
  datatype Error =
    | ArgumentError          // ArgumentException
    | ArgumentNullError      // ArgumentNullException
    | InvalidOperation       // InvalidOperationException
    | KeyNotFound            // KeyNotFoundException from a dictionary indexer
    | IndexOutOfRange        // IndexOutOfRangeException from an array access
    | NullReference          // NullReferenceException

  datatype Result<T> = Ok(value: T) | Err(error: Error)

  datatype Int2 = Int2(x: int, y: int) {
    function Plus(o: Int2): Int2 { Int2(x + o.x, y + o.y) }
  }

  datatype Vec2 = Vec2(x: real, y: real) {
    function Plus(o: Vec2): Vec2 { Vec2(x + o.x, y + o.y) }
    function Minus(o: Vec2): Vec2 { Vec2(x - o.x, y - o.y) }
    function Scale(s: real): Vec2 { Vec2(x * s, y * s) }
    function Dot(o: Vec2): real { x * o.x + y * o.y }
  }

  datatype Vec3 = Vec3(x: real, y: real, z: real)

  /** Four values in the corner order [t00, t01, t11, t10]: a float4 of corner
      values, a float2x4 of corners or gradients, or the four lattice keys. */
  datatype Quad<T> = Quad(c0: T, c1: T, c2: T, c3: T)

  function Elements<T>(q: Quad<T>): set<T> {
    {q.c0, q.c1, q.c2, q.c3}
  }

  /** A 32-bit float as far as the scale validation in the source can tell it apart:
      a finite value, NaN, or one of the two infinities. */
  datatype Float = Finite(value: real) | NaN | PositiveInfinity | NegativeInfinity

  /** The test every octave constructor makes before accepting a scale:
      it rejects `scale <= 0`, NaN and the infinities. */
  predicate IsValidScale(scale: Float) {
    scale.Finite? && scale.value > 0.0
  }

  /** IEEE equality: NaN is equal to nothing, not even itself. */
  predicate FloatEquals(a: Float, b: Float) {
    a == b && !a.NaN?
  }

  /** IEEE division of two finite values. */
  function FloatDiv(a: real, b: real): (r: Float)
    ensures b != 0.0 ==> r == Finite(a / b)
    ensures b == 0.0 ==> !r.Finite?
  {
    if b != 0.0 then Finite(a / b)
    else if a == 0.0 then NaN
    else if a > 0.0 then PositiveInfinity
    else NegativeInfinity
  }

  function AsReal(v: Int2): Vec2 {
    Vec2(v.x as real, v.y as real)
  }

  /** math.floor, componentwise. */
  function Floor2(v: Vec2): Vec2 {
    Vec2(v.x.Floor as real, v.y.Floor as real)
  }

  /** math.frac: the distance above the floor. */
  function Frac(x: real): real {
    x - x.Floor as real
  }

  /** The fractional part lies in [0, 1) and is what is left above the floor. */
  lemma FracInUnitInterval(x: real)
    ensures 0.0 <= Frac(x) < 1.0
    ensures x - Frac(x) == x.Floor as real
  {
  }

  function Frac2(v: Vec2): Vec2 {
    Vec2(Frac(v.x), Frac(v.y))
  }

  /** A C# cast from float to int: truncation toward zero. */
  function Trunc(x: real): int
  {
    if x >= 0.0 then x.Floor else -((-x).Floor)
  }

  /** The `(int2)` cast of a float2. */
  function Trunc2(v: Vec2): Int2 {
    Int2(Trunc(v.x), Trunc(v.y))
  }

  /** math.round, which is System.Math.Round: halfway cases go to the even neighbour. */
  function RoundHalfEven(x: real): (r: int)
    ensures -0.5 <= r as real - x <= 0.5
  {
    var f := x.Floor;
    var d := x - f as real;
    if d < 0.5 then f
    else if d > 0.5 then f + 1
    else if f % 2 == 0 then f else f + 1
  }

  /** The constructor check shared by every octave class: an ArgumentException
      for a scale that is not positive, NaN or infinite, else the scale. */
  function CheckScale(scale: Float): (r: Result<real>)
    ensures r.Ok? <==> IsValidScale(scale)
    ensures r.Ok? ==> r.value == scale.value && r.value > 0.0
    ensures r.Err? ==> r.error == ArgumentError
  {
    if scale.Finite? && scale.value > 0.0 then Ok(scale.value) else Err(ArgumentError)
  }

  /** A float cast to int of a whole number is that number. */
  lemma TruncOfWhole(n: int)
    ensures Trunc(n as real) == n
  {
  }

  function Abs(x: int): nat {
    if x < 0 then -x else x
  }
}
