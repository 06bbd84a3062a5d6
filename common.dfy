/** Shared vocabulary: optional values, the small vector types of the engine, and the
    numeric conversions the scripts rely on (Mathf and C# integer semantics), written out
    exactly so that every module states its rounding and wrap-around explicitly. */
module Common {

  datatype Option<T> = None | Some(value: T)

  datatype Vec2 = Vec2(x: real, y: real)
  {
    function Plus(o: Vec2): Vec2 { Vec2(x + o.x, y + o.y) }
    function Minus(o: Vec2): Vec2 { Vec2(x - o.x, y - o.y) }
    function Times(o: Vec2): Vec2 { Vec2(x * o.x, y * o.y) }
    function Scale(s: real): Vec2 { Vec2(s * x, s * y) }
    function Over(o: Vec2): Vec2
      requires o.x != 0.0 && o.y != 0.0
    {
      Vec2(x / o.x, y / o.y)
    }
  }

  /** Unity's Vector2Int. */
  datatype Vec2Int = Vec2Int(x: int, y: int)

  datatype Vec3 = Vec3(x: real, y: real, z: real)

  datatype Vec4 = Vec4(x: real, y: real, z: real, w: real)

  const Zero2: Vec2 := Vec2(0.0, 0.0)
  const One2: Vec2 := Vec2(1.0, 1.0)

  /** Mathf.Min / Mathf.Max on two floats. */
  function Min(a: real, b: real): (r: real)
    ensures r <= a && r <= b && (r == a || r == b)
  {
    if a < b then a else b
  }

  function Max(a: real, b: real): (r: real)
    ensures r >= a && r >= b && (r == a || r == b)
  {
    if a > b then a else b
  }

  /** Mathf.Min on two ints. */
  function MinInt(a: int, b: int): (r: int)
    ensures r <= a && r <= b && (r == a || r == b)
  {
    if a < b then a else b
  }

  /** Mathf.Clamp01. */
  function Clamp01(v: real): (r: real)
    ensures 0.0 <= r <= 1.0
    ensures 0.0 <= v <= 1.0 ==> r == v
  {
    if v < 0.0 then 0.0 else if v > 1.0 then 1.0 else v
  }

  /** Mathf.CeilToInt, on exact reals. */
  function Ceil(r: real): (c: int)
    ensures r <= c as real < r + 1.0
  {
    -((-r).Floor)
  }

  /** Mathf.RoundToInt, on exact reals: it rounds to the nearest integer, and a value
      exactly half-way between two integers goes to the even one (banker's rounding). */
  function RoundToInt(r: real): (n: int)
    ensures r - 0.5 <= n as real <= r + 0.5
  {
    var f := r.Floor;
    var d := r - f as real;
    if d < 0.5 then f
    else if d > 0.5 then f + 1
    else if f % 2 == 0 then f
    else f + 1
  }

  /** The C# `(int)` cast of a float: the fraction is dropped, rounding toward zero. */
  function TruncToInt(r: real): (n: int)
    ensures r >= 0.0 ==> n as real <= r < n as real + 1.0
    ensures r < 0.0 ==> n as real - 1.0 < r <= n as real
  {
    if r >= 0.0 then r.Floor else -((-r).Floor)
  }

  /** Mathf.Pow(2, n) taken as the exact power. */
  function Pow2(n: nat): (p: nat)
    ensures p >= 1
  {
    if n == 0 then 1 else 2 * Pow2(n - 1)
  }

  const Int32Min: int := -0x8000_0000
  const Int32Max: int := 0x7FFF_FFFF

  predicate IsInt32(i: int) { Int32Min <= i <= Int32Max }

  /** The value a 32-bit two's-complement C# int holds after unchecked arithmetic. */
  function WrapInt32(i: int): (r: int)
    ensures IsInt32(r)
    ensures IsInt32(i) ==> r == i
    ensures (r - i) % 0x1_0000_0000 == 0
  {
    (i - Int32Min) % 0x1_0000_0000 + Int32Min
  }

  /** C# integer division: the quotient is truncated toward zero. */
  function CsQuot(a: int, b: int): int
    requires b != 0
  {
    if (a >= 0) == (b > 0) then
      (if a >= 0 then a else -a) / (if b > 0 then b else -b)
    else
      -((if a >= 0 then a else -a) / (if b > 0 then b else -b))
  }

  /** C# integer remainder: it takes the sign of the dividend, so that
      a == CsQuot(a, b) * b + CsRem(a, b). */
  function CsRem(a: int, b: int): int
    requires b != 0
  {
    a - CsQuot(a, b) * b
  }
}
