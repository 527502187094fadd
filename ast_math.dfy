/** The helper functions of rust/ast_utils/src/ast_math.rs. */
module AstMath {
  import opened Primitives
  import opened Traits

  /** The tolerance of is_close. */
  const EPS: real := 0.00000005

  /** frac: the fractional part of |x|, computed as |x| - |trunc(x)|. */
  function Frac(x: real): (r: real)
    ensures 0.0 <= r < 1.0
    ensures Abs(x) - r == Abs(x).Floor as real
  {
    Abs(x) - Abs(Trunc(x) as real)
  }

  /** The fractional part ignores the sign. */
  lemma FracEven(x: real)
    ensures Frac(-x) == Frac(x)
  {
    assert Abs(-x) == Abs(x);
  }

  /** A non-negative x with whole part k has trunc k and fractional part x - k. */
  lemma FracOfSplit(x: real, k: int)
    requires 0 <= k && k as real <= x < k as real + 1.0
    ensures Trunc(x) == k && Frac(x) == x - k as real
  {
  }

  /** The documented examples: frac(1.5) and frac(-1.5) are both 0.5. */
  lemma FracExamples()
    ensures Frac(1.5) == 0.5 && Frac(-1.5) == 0.5
  {
  }

  /** is_close: x and y differ by at most EPS. */
  predicate IsClose(x: real, y: real)
  {
    Abs(x - y) <= EPS
  }

  /** The looser tolerance, 10^-6, that the unit tests beside the conversion tables
      compare with. */
  predicate WithinTestTolerance(expected: real, actual: real)
  {
    Abs(expected - actual) <= 0.000001
  }

  /** is_close is reflexive and symmetric. */
  lemma IsCloseReflexiveSymmetric(x: real, y: real)
    ensures IsClose(x, x)
    ensures IsClose(x, y) <==> IsClose(y, x)
  {
  }

  /** f64::floor: the greatest whole number not above x. */
  function FloorOf(x: real): (k: int)
    ensures k as real <= x < k as real + 1.0
  {
    x.Floor
  }

  /** A whole number is its own floor. */
  lemma FloorOfWhole(x: real, k: int)
    requires x == k as real
    ensures FloorOf(x) == k
  {
  }

  /** floor's multiplier `10i64.pow(scale) as f64`, one entry per scale whose power fits
      in an i64 (the power overflows beyond 10^18, hence the bound on scale). */
  function Multiplier(scale: u8): (m: real)
    requires scale <= 18
    ensures m >= 1.0
  {
    match scale
    case 0 => 1.0
    case 1 => 10.0
    case 2 => 100.0
    case 3 => 1000.0
    case 4 => 10000.0
    case 5 => 100000.0
    case 6 => 1000000.0
    case 7 => 10000000.0
    case 8 => 100000000.0
    case 9 => 1000000000.0
    case 10 => 10000000000.0
    case 11 => 100000000000.0
    case 12 => 1000000000000.0
    case 13 => 10000000000000.0
    case 14 => 100000000000000.0
    case 15 => 1000000000000000.0
    case 16 => 10000000000000000.0
    case 17 => 100000000000000000.0
    case _ => 1000000000000000000.0
  }

  /** The multiplier is the integer power of ten converted to a float. */
  lemma {:induction false} MultiplierIsExp10(scale: u8)
    requires scale <= 18
    ensures Multiplier(scale) == Exp10(scale) as real
  {
    if scale > 0 {
      MultiplierIsExp10(scale - 1);
      assert Multiplier(scale) == 10.0 * Multiplier(scale - 1);
    }
  }

  /** floor: value rounded down to `scale` decimal places; FloorSpec states it in full. */
  function Floor(value: real, scale: u8): (r: real)
    requires scale <= 18
    ensures r <= value
  {
    FloorBy(value, Multiplier(scale))
  }

  /** With m the multiplier of `scale`, floor gives a whole number of units 1 / m, the
      largest such number not above value: value lies in [r, r + 1 / m). */
  lemma FloorSpec(value: real, scale: u8, m: real)
    requires scale <= 18 && m == Multiplier(scale)
    ensures Floor(value, scale) <= value < Floor(value, scale) + 1.0 / m
    ensures Floor(value, scale) * m == FloorOf(value * m) as real
  {
    var r := Floor(value, scale);
    FloorIs(value, scale, m);
    FloorAt(value, m, r);
  }

  lemma FloorIs(value: real, scale: u8, m: real)
    requires scale <= 18 && m == Multiplier(scale)
    ensures Floor(value, scale) == FloorBy(value, m)
  {
  }

  /** The bounds of FloorBy, stated of a value r known to equal it. */
  lemma FloorAt(value: real, m: real, r: real)
    requires m >= 1.0 && r == FloorBy(value, m)
    ensures r <= value < r + 1.0 / m
    ensures r * m == FloorOf(value * m) as real
  {
  }

  /** `(value * m).floor() / m` for a multiplier m >= 1. */
  function FloorBy(value: real, m: real): (r: real)
    requires m >= 1.0
    ensures r <= value < r + 1.0 / m
    ensures r * m == FloorOf(value * m) as real
  {
    var k := FloorOf(value * m);
    FloorBounds(value, m, k);
    k as real / m
  }

  /** Dividing k <= value * m < k + 1 by a positive m. */
  lemma FloorBounds(value: real, m: real, k: int)
    requires m >= 1.0 && k as real <= value * m < k as real + 1.0
    ensures k as real / m <= value < k as real / m + 1.0 / m
    ensures k as real / m * m == k as real
  {
    var c := k as real;
    assert c / m <= value * m / m;
    assert value * m / m == value;
    assert value * m / m < (c + 1.0) / m;
  }

  /** Flooring an already floored value changes nothing. */
  lemma FloorIdempotent(value: real, scale: u8)
    requires scale <= 18
    ensures Floor(Floor(value, scale), scale) == Floor(value, scale)
  {
    FloorByIdempotent(value, Multiplier(scale));
  }

  /** FloorBy with a fixed multiplier is idempotent. */
  lemma FloorByIdempotent(value: real, m: real)
    requires m >= 1.0
    ensures FloorBy(FloorBy(value, m), m) == FloorBy(value, m)
  {
    var r := FloorBy(value, m);
    var k := FloorOf(value * m);
    FloorOfWhole(r * m, k);
    assert FloorOf(r * m) == k;
    var s := FloorBy(r, m);
    FloorByWhole(r, m);
    assert s * m == r * m;
    CancelFactor(s, r, m);
  }

  /** FloorBy's result is a whole number of units 1 / m. */
  lemma FloorByWhole(value: real, m: real)
    requires m >= 1.0
    ensures FloorBy(value, m) <= value < FloorBy(value, m) + 1.0 / m
    ensures FloorBy(value, m) * m == FloorOf(value * m) as real
  {
  }

  /** Flooring is monotonic: a larger value never floors to a smaller result. */
  lemma FloorMonotonic(x: real, y: real, scale: u8)
    requires scale <= 18 && x <= y
    ensures Floor(x, scale) <= Floor(y, scale)
  {
    FloorByMonotonic(x, y, Multiplier(scale));
  }

  lemma FloorByMonotonic(x: real, y: real, m: real)
    requires m >= 1.0 && x <= y
    ensures FloorBy(x, m) <= FloorBy(y, m)
  {
    var a, b := FloorOf(x * m), FloorOf(y * m);
    MulRightMonotonic(x, y, m);
    assert a <= b;
    DivRightMonotonic(a as real, b as real, m);
  }

  /** Six places, the precision the exercises round to: a value whose millionths lie in
      [k, k + 1) floors to k millionths. */
  lemma FloorSixPlaces(x: real, k: int)
    requires k as real <= x * 1000000.0 < k as real + 1.0
    ensures Floor(x, 6) == k as real / 1000000.0
  {
    assert Multiplier(6) == 1000000.0;
    FloorByAt(x, 1000000.0, k);
  }

  /** A value whose multiple by m lies in [k, k + 1) floors by m to k / m. */
  lemma FloorByAt(x: real, m: real, k: int)
    requires m >= 1.0 && k as real <= x * m < k as real + 1.0
    ensures FloorBy(x, m) == k as real / m
  {
    assert FloorOf(x * m) == k;
  }
}
