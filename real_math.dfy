/**
 * The floating-point primitives the formulas call (`np.sqrt`, `np.exp` and
 * `**`), taken as parameters over the reals. Each predicate states the only
 * law of that primitive the model relies on.
 */
module RealMath {

  datatype Maths = Maths(sqrt: real -> real, exp: real -> real, pow: (real, real) -> real)

  /**
   * `sqrt` is the non-negative square root on the non-negative reals. Its
   * value at 0 follows from the first conjunct and is stated alongside it.
   */
  ghost predicate IsSqrt(sqrt: real -> real)
  {
    (forall x :: 0.0 <= x ==> 0.0 <= sqrt(x) && sqrt(x) * sqrt(x) == x) && sqrt(0.0) == 0.0
  }

  /** `exp` is positive everywhere and 1 at 0. */
  ghost predicate IsExp(exp: real -> real)
  {
    (forall y :: 0.0 < exp(y)) && exp(0.0) == 1.0
  }

  /** `pow` raises 1 to any power to 1. */
  ghost predicate IsPow(pow: (real, real) -> real)
  {
    forall e :: pow(1.0, e) == 1.0
  }

  lemma SquareNonNegative(x: real)
    ensures 0.0 <= x * x
  {
    if x < 0.0 {
      assert x * x == (-x) * (-x);
    }
  }

  lemma HalfProductNonNegative(k: real, s: real)
    ensures 0.0 <= k && 0.0 <= s ==> 0.0 <= 1.0 / 2.0 * k * s
  {
    if 0.0 <= k && 0.0 <= s {
      assert 0.0 <= k * s;
    }
  }

}
