/** The conversion interfaces (rust/ast_utils/src/traits.rs). The two traits become a
    Result type: every quantity's ConvertScalar returns Result<real>, every converter's
    Convert returns Result<Quantity>; the per-family Quantity datatypes supply scalar,
    unit and convert_scalar. MetricScale::pow10 is modelled exactly over the reals. */
module Traits {

  /** The `Result<_, &str>` the traits return: a value or an error message. */
  datatype Result<T> = Ok(value: T) | Err(msg: string)

  /** 10^n for a natural n, as the integer `10i64.pow(n)`. */
  function Exp10(n: nat): (r: nat)
    ensures r >= 1
  {
    if n == 0 then 1 else 10 * Exp10(n - 1)
  }

  /** Integer powers of ten multiply by adding their exponents. */
  lemma {:induction false} Exp10Add(a: nat, b: nat)
    ensures Exp10(a + b) == Exp10(a) * Exp10(b)
  {
    if a > 0 {
      Exp10Add(a - 1, b);
      assert Exp10(a + b) == 10 * Exp10(a - 1 + b);
    }
  }

  /** MetricScale::pow10, `x * 10.0_f64.powi(n)` computed exactly: x multiplied by ten
      n times for a positive n, divided by ten -n times for a negative n. */
  function Pow10(x: real, n: int): real
    decreases if n >= 0 then n else -n
  {
    if n == 0 then x
    else if n > 0 then 10.0 * Pow10(x, n - 1)
    else Pow10(x, n + 1) / 10.0
  }

  /** One more power of ten is ten times as large, for exponents of either sign. */
  lemma Pow10Step(x: real, n: int)
    ensures Pow10(x, n + 1) == 10.0 * Pow10(x, n)
  {
  }

  /** Scaling commutes with multiplying the argument by ten. */
  lemma {:induction false} Pow10Times10(x: real, n: int)
    ensures Pow10(10.0 * x, n) == 10.0 * Pow10(x, n)
    decreases if n >= 0 then n else -n
  {
    if n > 0 {
      Pow10Times10(x, n - 1);
    } else if n < 0 {
      Pow10Times10(x, n + 1);
    }
  }

  /** Scaling commutes with dividing the argument by ten. */
  lemma Pow10Div10(x: real, n: int)
    ensures Pow10(x / 10.0, n) == Pow10(x, n) / 10.0
  {
    Pow10Times10(x / 10.0, n);
  }

  /** Scaling is linear: x scaled by ten to the n is x times the scale of 1. */
  lemma {:induction false} Pow10Linear(x: real, n: int)
    ensures Pow10(x, n) == x * Pow10(1.0, n)
    decreases if n >= 0 then n else -n
  {
    if n > 0 {
      Pow10Linear(x, n - 1);
    } else if n < 0 {
      Pow10Linear(x, n + 1);
    }
  }

  /** `x.pow10(a).pow10(b)` is `x.pow10(a + b)`. */
  lemma {:induction false} Pow10Compose(x: real, a: int, b: int)
    ensures Pow10(Pow10(x, a), b) == Pow10(x, a + b)
    decreases if a >= 0 then a else -a
  {
    if a > 0 {
      Pow10Compose(x, a - 1, b);
      Pow10Times10(Pow10(x, a - 1), b);
      Pow10Step(x, a - 1 + b);
    } else if a < 0 {
      Pow10Compose(x, a + 1, b);
      Pow10Div10(Pow10(x, a + 1), b);
      Pow10Step(x, a + b);
    }
  }

  /** Scaling by ten to the n and back by ten to the -n gives x again. */
  lemma Pow10Inverse(x: real, n: int)
    ensures Pow10(Pow10(x, n), -n) == x
  {
    Pow10Compose(x, n, -n);
  }

  /** For a non-negative n the scale is the integer 10^n; for a negative n it divides by 10^-n. */
  lemma Pow10Exact(x: real, n: int)
    ensures n >= 0 ==> Pow10(x, n) == x * Exp10(n) as real
    ensures n < 0 ==> Pow10(x, n) == x / Exp10(-n) as real
  {
    if n >= 0 {
      Pow10Up(x, n);
    } else {
      Pow10Down(x, -n);
    }
  }

  lemma {:induction false} Pow10Up(x: real, n: nat)
    ensures Pow10(x, n) == x * Exp10(n) as real
  {
    if n > 0 {
      Pow10Up(x, n - 1);
      var e := Exp10(n - 1);
      assert Exp10(n) == 10 * e;
      ScaleUp(x, e as real);
    }
  }

  lemma {:induction false} Pow10Down(x: real, k: nat)
    ensures Pow10(x, -(k as int)) == x / Exp10(k) as real
  {
    if k > 0 {
      Pow10Down(x, k - 1);
      var e := Exp10(k - 1);
      assert Exp10(k) == 10 * e;
      ScaleDown(x, e as real);
    }
  }

  lemma ScaleUp(x: real, e: real)
    ensures 10.0 * (x * e) == x * (10.0 * e)
  {
  }

  lemma ScaleDown(x: real, e: real)
    requires e > 0.0
    ensures (x / e) / 10.0 == x / (10.0 * e)
  {
  }

  /** `x.pow10(0)` is x, and `0.pow10(n)` is 0 for every n. */
  lemma {:induction false} Pow10Identities(x: real, n: int)
    ensures Pow10(x, 0) == x
    ensures Pow10(0.0, n) == 0.0
    decreases if n >= 0 then n else -n
  {
    if n > 0 {
      Pow10Identities(x, n - 1);
    } else if n < 0 {
      Pow10Identities(x, n + 1);
    }
  }
}
