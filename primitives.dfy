/** Rust's numeric primitives as the conversion engine uses them.
    An f64 is modelled as a finite real; the fixed-width integers as subset types of int. */
module Primitives {

  /** The integer types of the sexagesimal angle components. */
  type i8 = x: int | -128 <= x < 128
  type i16 = x: int | -32768 <= x < 32768
  type u8 = x: int | 0 <= x < 256

  /** std::f64::consts::PI, known to nine decimal places and otherwise left open. */
  type PiValue = x: real | 3.141592653 < x < 3.141592654 witness 3.1415926535
  const PI: PiValue

  /** f64::abs */
  function Abs(x: real): (r: real)
    ensures r >= 0.0 && (r == x || r == -x)
  {
    if x < 0.0 then -x else x
  }

  /** f64::trunc: the integer part, rounded toward zero. */
  function Trunc(x: real): (r: int)
    ensures x >= 0.0 ==> r >= 0 && r as real <= x < r as real + 1.0
    ensures x < 0.0 ==> r <= 0 && r as real - 1.0 < x <= r as real
  {
    if x >= 0.0 then x.Floor else -((-x).Floor)
  }

  /** f64::signum of a non-NaN value: 1.0 for every x >= 0 (the model has no -0.0), -1.0 below. */
  function RealSignum(x: real): real
  {
    if x >= 0.0 then 1.0 else -1.0
  }

  /** f64::rem_euclid for a positive modulus: the least non-negative remainder. */
  function RemEuclid(x: real, m: real): (r: real)
    requires m > 0.0
    ensures 0.0 <= r < m
    ensures ((x - r) / m).Floor as real == (x - r) / m
  {
    var q := (x / m).Floor;
    QuotientBracket(x, m, q);
    x - q as real * m
  }

  /** With q the floor of x / m, x - q m lies in [0, m) and (x - (x - q m)) / m is q. */
  lemma QuotientBracket(x: real, m: real, q: int)
    requires m > 0.0 && q as real <= x / m < q as real + 1.0
    ensures 0.0 <= x - q as real * m < m
    ensures (x - (x - q as real * m)) / m == q as real
    ensures ((x - (x - q as real * m)) / m).Floor as real == (x - (x - q as real * m)) / m
  {
    var c := q as real;
    MulRightMonotonic(c, x / m, m);
    MulRightMonotonic(x / m, c + 1.0, m);
    assert x / m * m == x;
  }

  /** Multiplying by a positive factor keeps the order of two reals. */
  lemma MulRightMonotonic(a: real, b: real, m: real)
    requires m > 0.0 && a <= b
    ensures a * m <= b * m
  {
  }

  /** Multiplying by a positive factor keeps a strict order. */
  lemma MulRightStrict(a: real, b: real, m: real)
    requires m > 0.0 && a < b
    ensures a * m < b * m
  {
  }

  /** Dividing by a positive factor keeps the order of two reals. */
  lemma DivRightMonotonic(a: real, b: real, m: real)
    requires m > 0.0 && a <= b
    ensures a / m <= b / m
  {
  }

  /** A positive factor cancels from both sides. */
  lemma CancelFactor(x: real, y: real, k: real)
    requires k > 0.0 && x * k == y * k
    ensures x == y
  {
  }

  /** From x k = y with k > 0, x is y / k. */
  lemma DivideBack(x: real, y: real, k: real)
    requires k > 0.0 && x * k == y
    ensures x == y / k
  {
  }

  /** The remainder is the unique r in [0, m) with x = k m + r for a whole k. */
  lemma RemEuclidUnique(x: real, m: real, k: int, r: real)
    requires m > 0.0 && 0.0 <= r < m && x == k as real * m + r
    ensures RemEuclid(x, m) == r
  {
    QuotientOf(x, m, k, r);
  }

  /** x = k m + r with 0 <= r < m puts x / m in [k, k + 1). */
  lemma QuotientOf(x: real, m: real, k: int, r: real)
    requires m > 0.0 && 0.0 <= r < m && x == k as real * m + r
    ensures (x / m).Floor == k
  {
    var c := k as real;
    assert x / m == c + r / m;
    if r / m >= 1.0 {
      MulRightMonotonic(1.0, r / m, m);
    }
    MulRightMonotonic(0.0, r, 1.0 / m);
  }

  /** The integer signum (i16::signum, i8::signum): -1, 0 or 1. */
  function IntSignum(x: int): int
  {
    if x > 0 then 1 else if x < 0 then -1 else 0
  }

  /** The integer absolute value (i16::abs, i8::abs) without overflow. */
  function IntAbs(x: int): nat
  {
    if x < 0 then -x else x
  }

  /** Rust's integer `/` by a positive divisor: the quotient rounded toward zero
      (Dafny's own `/` rounds toward negative infinity for a negative dividend). */
  function TruncDiv(a: int, b: int): (q: int)
    requires b > 0
    ensures IntAbs(a - b * q) < b
    ensures a >= 0 ==> 0 <= a - b * q
    ensures a < 0 ==> a - b * q <= 0
  {
    if a >= 0 then a / b else -((-a) / b)
  }

  /** Rust's integer `%` by a positive divisor: the remainder of TruncDiv, with the sign of a. */
  function TruncRem(a: int, b: int): (r: int)
    requires b > 0
    ensures a == b * TruncDiv(a, b) + r
    ensures IntAbs(r) < b
    ensures a >= 0 ==> r >= 0
    ensures a < 0 ==> r <= 0
  {
    a - b * TruncDiv(a, b)
  }

  /** Rust's truncating division and Dafny's Euclidean one differ on a negative dividend. */
  lemma TruncDivDiffersFromEuclidean()
    ensures TruncDiv(-20, 15) == -1 && TruncRem(-20, 15) == -5
    ensures (-20) / 15 == -2 && (-20) % 15 == 10
  {
  }

  /** `x as u8` for a finite f64: truncation toward zero, saturating at 0 and 255. */
  function AsU8(x: real): (r: u8)
    ensures 0 <= Trunc(x) < 256 ==> r == Trunc(x)
  {
    var t := Trunc(x);
    if t < 0 then 0 else if t > 255 then 255 else t
  }

  /** `x as i8` for a finite f64: truncation toward zero, saturating at -128 and 127. */
  function AsI8(x: real): (r: i8)
    ensures -128 <= Trunc(x) < 128 ==> r == Trunc(x)
  {
    var t := Trunc(x);
    if t < -128 then -128 else if t > 127 then 127 else t
  }

  /** `x as i16` for a finite f64: truncation toward zero, saturating at -32768 and 32767. */
  function AsI16(x: real): (r: i16)
    ensures -32768 <= Trunc(x) < 32768 ==> r == Trunc(x)
    ensures Trunc(x) >= 32768 ==> r == 32767
  {
    var t := Trunc(x);
    if t < -32768 then -32768 else if t > 32767 then 32767 else t
  }
}
