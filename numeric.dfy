/**
 * The .NET numeric conventions the modelled code relies on: 32-bit integers,
 * casts from double to int (truncation toward zero), Math.Ceiling,
 * Math.Round (banker's rounding) and IEEE division by zero.
 * Doubles are modelled as exact reals; rounding error is not modelled.
 */
module Numeric {

  const IntMax: int := 0x7FFF_FFFF
  const IntMin: int := -0x8000_0000
  const UIntMax: int := 0xFFFF_FFFF

  predicate IsInt32(x: int) { IntMin <= x <= IntMax }
  predicate IsUInt32(x: int) { 0 <= x <= UIntMax }

  /** The int32 whose two's-complement bits are those of x. */
  function WrapInt32(x: int): (r: int)
    ensures IsInt32(r)
    ensures (r - x) % 0x1_0000_0000 == 0
    ensures IsInt32(x) ==> r == x
  {
    var m := x % 0x1_0000_0000;
    if m <= IntMax then m else m - 0x1_0000_0000
  }

  /** Addition of uint values, unchecked: wraps around modulo 2^32. */
  function WrapUInt32(x: int): (r: int)
    ensures IsUInt32(r)
    ensures (r - x) % 0x1_0000_0000 == 0
    ensures IsUInt32(x) ==> r == x
  {
    x % 0x1_0000_0000
  }

  /** The signed reading of a bv32, as `(int)` of a uint in an unchecked context. */
  function SignedOf(b: bv32): (r: int)
    ensures IsInt32(r)
    ensures r >= 0 <==> b as int < 0x8000_0000
  {
    var n := b as int;
    if n < 0x8000_0000 then n else n - 0x1_0000_0000
  }

  /** The two's-complement bits of an int, as `unchecked((uint)x)`; an int32's hash code is these bits. */
  function BitsOf(x: int): bv32
  {
    WrapUInt32(x) as bv32
  }

  function Abs(x: int): (r: nat)
    ensures r == x || r == -x
  {
    if x < 0 then -x else x
  }

  function AbsReal(x: real): (r: real)
    ensures r >= 0.0 && (r == x || r == -x)
  {
    if x < 0.0 then -x else x
  }

  function Min(a: int, b: int): (r: int)
    ensures r <= a && r <= b && (r == a || r == b)
  {
    if a <= b then a else b
  }

  function Max(a: int, b: int): (r: int)
    ensures r >= a && r >= b && (r == a || r == b)
  {
    if a >= b then a else b
  }

  /** A C# cast from double to int: the fractional part is dropped, toward zero. */
  function Truncate(x: real): (r: int)
    ensures x >= 0.0 ==> r >= 0 && r as real <= x < r as real + 1.0
    ensures x < 0.0 ==> r <= 0 && r as real - 1.0 < x <= r as real
  {
    if x >= 0.0 then x.Floor else -((-x).Floor)
  }

  /** A truncation gives back x exactly when x is a whole number. */
  lemma TruncateWhole(x: real)
    ensures Truncate(x) as real == x <==> x == x.Floor as real
  {
    if x < 0.0 {
      var n := (-x).Floor;
      if -x == n as real {
        assert x == (-n) as real;
        assert x.Floor == -n;
      }
      if x == x.Floor as real {
        assert -x == (-x.Floor) as real;
        assert (-x).Floor == -x.Floor;
      }
    }
  }

  /** Math.Ceiling: the least integer that is not below x. */
  function Ceiling(x: real): (r: int)
    ensures x <= r as real < x + 1.0
  {
    -((-x).Floor)
  }

  /** C# integer division, which truncates toward zero (Dafny's is Euclidean). */
  function CDiv(a: int, b: int): (q: int)
    requires b != 0
    ensures a >= 0 && b > 0 ==> q == a / b
    ensures a < 0 && b > 0 ==> q == -((-a) / b)
  {
    var q0 := Abs(a) / Abs(b);
    if (a >= 0) == (b > 0) then q0 else -q0
  }

  /** Truncating the quotient of a natural number by a positive one gives integer division. */
  lemma TruncateQuotient(a: nat, b: int)
    requires b > 0
    ensures Truncate(a as real / b as real) == a / b
  {
    var q := a / b;
    assert q * b <= a < q * b + b;
    QuotientBounds(a as real, b as real, q as real);
  }

  /** In the reals, a between q·b and q·b + b puts a/b between q and q + 1. */
  lemma QuotientBounds(a: real, b: real, q: real)
    requires b > 0.0 && q * b <= a < q * b + b
    ensures q <= a / b < q + 1.0
  {
    var x := a / b;
    assert x * b == a;
    if x >= q + 1.0 {
      var d := x - q - 1.0;
      assert d * b == x * b - q * b - b;
      MulMonotone(0.0, 0.0, d, b);
    }
  }

  /** Adding a whole number before truncating a non-negative value adds it to the result. */
  lemma TruncateShift(n: nat, x: real)
    requires x >= 0.0
    ensures Truncate(n as real + x) == n + Truncate(x)
  {
  }

  /** Products of non-negative reals grow with their factors. */
  lemma MulMonotone(a: real, b: real, c: real, d: real)
    requires 0.0 <= a <= c && 0.0 <= b <= d
    ensures 0.0 <= a * b <= c * d
  {
    assert a * b <= c * b;
    assert c * b <= c * d;
  }

  /** Math.Round(x): the nearest integer, a tie going to the even neighbour. */
  function RoundHalfEven(x: real): (r: int)
    ensures AbsReal(r as real - x) <= 0.5
    ensures AbsReal(r as real - x) == 0.5 ==> r % 2 == 0
  {
    var f := x.Floor;
    var d := x - f as real;
    if d < 0.5 then f
    else if d > 0.5 then f + 1
    else if f % 2 == 0 then f
    else f + 1
  }

  /** Rounding a value between two integers gives an integer between them. */
  lemma RoundBetween(x: real, lo: int, hi: int)
    requires lo as real <= x <= hi as real
    ensures lo <= RoundHalfEven(x) <= hi
  {
    var r := RoundHalfEven(x);
    assert r as real - x <= 0.5 && x - r as real <= 0.5;
  }

  /**
   * A double that may be infinite or NaN: the result of a division of an
   * amount by a number of days, which .NET evaluates to an infinity (or NaN
   * for 0/0) when the number of days is zero instead of throwing.
   */
  datatype Double = Num(r: real) | PositiveInfinity | NegativeInfinity | NaN

  /** x / days in double arithmetic. */
  function DivDays(x: real, days: int): (d: Double)
    ensures days != 0 ==> d == Num(x / days as real)
    ensures days == 0 ==> (d.NaN? <==> x == 0.0)
  {
    if days != 0 then Num(x / days as real)
    else if x > 0.0 then PositiveInfinity
    else if x < 0.0 then NegativeInfinity
    else NaN
  }

  /** a - b in double arithmetic. */
  function Sub(a: Double, b: Double): (d: Double)
    ensures a.Num? && b.Num? ==> d == Num(a.r - b.r)
    ensures a.NaN? || b.NaN? ==> d.NaN?
  {
    match (a, b)
    case (Num(x), Num(y)) => Num(x - y)
    case (NaN, _) => NaN
    case (_, NaN) => NaN
    case (PositiveInfinity, PositiveInfinity) => NaN
    case (NegativeInfinity, NegativeInfinity) => NaN
    case (PositiveInfinity, _) => PositiveInfinity
    case (NegativeInfinity, _) => NegativeInfinity
    case (Num(_), PositiveInfinity) => NegativeInfinity
    case (Num(_), NegativeInfinity) => PositiveInfinity
  }

  /** Position of a double in the total order of double.CompareTo: NaN sorts first. */
  function Rank(d: Double): nat
  {
    match d
    case NaN => 0
    case NegativeInfinity => 1
    case Num(_) => 2
    case PositiveInfinity => 3
  }

  /** double.CompareTo(a, b) <= 0, a total preorder on doubles. */
  predicate AtMost(a: Double, b: Double)
  {
    Rank(a) < Rank(b) || (Rank(a) == Rank(b) && (a.Num? ==> a.r <= b.r))
  }

  lemma AtMostTotal(a: Double, b: Double)
    ensures AtMost(a, b) || AtMost(b, a)
  {
  }

  lemma AtMostTransitive(a: Double, b: Double, c: Double)
    requires AtMost(a, b) && AtMost(b, c)
    ensures AtMost(a, c)
  {
  }

  /** Math.Abs(a - b) < tolerance: false whenever either side is not a finite number. */
  predicate Close(a: Double, b: Double, tolerance: real)
  {
    a.Num? && b.Num? && AbsReal(a.r - b.r) < tolerance
  }
}
