/** Small facts about exact real arithmetic shared by the tax, loan and
    affordability modules: Python's `min`, `max` and `**` with an integer
    exponent, stated over `real` (no floating-point rounding). */
module RealOps {

  /** Python's `min(a, b)`. */
  function Min(a: real, b: real): real
  {
    if a <= b then a else b
  }

  /** Python's `max(a, b)`. */
  function Max(a: real, b: real): real
  {
    if a >= b then a else b
  }

  /** `base ** n` for a natural exponent. */
  function Pow(base: real, n: nat): (p: real)
    ensures base > 0.0 ==> p > 0.0
    ensures base != 0.0 ==> p != 0.0
  {
    if n == 0 then 1.0 else base * Pow(base, n - 1)
  }

  /** `base ** e` for any integer exponent; a negative exponent is the
      reciprocal of the positive power. */
  function PowInt(base: real, e: int): (p: real)
    requires base != 0.0 || e >= 0
    ensures base != 0.0 ==> p != 0.0
    ensures base > 0.0 ==> p > 0.0
  {
    if e >= 0 then Pow(base, e) else 1.0 / Pow(base, -e)
  }

  /** Growth: a base above one raised to a positive power stays above one. */
  lemma {:induction false} PowAboveOne(base: real, n: nat)
    requires base > 1.0 && n >= 1
    ensures Pow(base, n) > 1.0
  {
    if n > 1 {
      PowAboveOne(base, n - 1);
      MulGrows(base, Pow(base, n - 1));
    }
  }

  /** Decay: a base in (0, 1) raised to a positive power stays below one. */
  lemma {:induction false} PowBelowOne(base: real, n: nat)
    requires 0.0 < base < 1.0 && n >= 1
    ensures Pow(base, n) < 1.0
  {
    if n > 1 {
      PowBelowOne(base, n - 1);
      MulShrinks(base, Pow(base, n - 1));
    }
  }

  /** A positive base other than one never reaches one at a positive power,
      so `(1 + r) ** n - 1` is a safe divisor whenever `r != 0`. */
  lemma PowNotOne(base: real, n: nat)
    requires base > 0.0 && base != 1.0 && n >= 1
    ensures Pow(base, n) != 1.0
  {
    if base > 1.0 {
      PowAboveOne(base, n);
    } else {
      PowBelowOne(base, n);
    }
  }

  /** A negative base gives the power of its magnitude, up to sign. */
  lemma {:induction false} PowOfNegative(base: real, n: nat)
    ensures Pow(base, n) == Pow(-base, n) || Pow(base, n) == -Pow(-base, n)
  {
    if n > 0 {
      PowOfNegative(base, n - 1);
      assert Pow(base, n) == base * Pow(base, n - 1);
      assert Pow(-base, n) == -base * Pow(-base, n - 1);
    }
  }

  /** Only a base of one or minus one can reach one at a positive power. */
  lemma PowReachesOne(base: real, n: nat)
    requires n >= 1 && base != 1.0 && base != -1.0
    ensures Pow(base, n) != 1.0
  {
    if base > 0.0 {
      PowNotOne(base, n);
    } else if base < 0.0 {
      PowOfNegative(base, n);
      PowNotOne(-base, n);
    } else {
      assert Pow(base, n) == 0.0 * Pow(base, n - 1);
    }
  }

  lemma MulGrows(a: real, b: real)
    requires a > 1.0 && b > 1.0
    ensures a * b > 1.0
  {
    assert a * b > a * 1.0;
  }

  lemma MulShrinks(a: real, b: real)
    requires 0.0 < a < 1.0 && 0.0 < b < 1.0
    ensures a * b < 1.0
  {
    assert a * b < 1.0 * b;
  }

  /** Monotonicity of a product of non-negative factors. */
  lemma MulMonotone(a: real, b: real, c: real, d: real)
    requires 0.0 <= a <= b && 0.0 <= c <= d
    ensures a * c <= b * d
  {
    assert a * c <= b * c;
    assert b * c <= b * d;
  }
}
