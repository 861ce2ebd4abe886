/**
 * The force laws `F = f(dist, ...)` a force term may use. Each is applied
 * entry by entry to the distance matrix; the scalar law is stated first and
 * the matrix function after it.
 */
module ForceFuncs {

  import opened Matrices
  import opened RealMath

  /** Hooke's law for a spring of rest length `dist0` and constant `k`. */
  function HookeForce(d: real, dist0: real, k: real): (f: real)
    ensures k != 0.0 ==> (f == 0.0 <==> d == dist0)
    ensures 0.0 < k ==> (0.0 < f <==> dist0 < d) && (f < 0.0 <==> d < dist0)
  {
    k * (d - dist0)
  }

  /** The force of the exponentially decaying potential: `-e * pot0` at
      `dist0` when `exp(0) = 1`, and none at all when `pot0` is 0. */
  function ExpDecayForce(d: real, dist0: real, pot0: real, e: real, exp: real -> real): (f: real)
    ensures exp(0.0) == 1.0 && d == dist0 ==> f == -(e * pot0)
    ensures pot0 == 0.0 ==> f == 0.0
  {
    var x := -e * (d - dist0);
    assert d == dist0 ==> x == 0.0;
    -e * pot0 * exp(x)
  }

  /** The force of the negative exponential potential: `e * pot0` at
      `dist0` when `exp(0) = 1`, and none at all when `pot0` is 0. */
  function ExpNegForce(d: real, dist0: real, pot0: real, e: real, exp: real -> real): (f: real)
    ensures exp(0.0) == 1.0 && d == dist0 ==> f == e * pot0
    ensures pot0 == 0.0 ==> f == 0.0
  {
    var x := -e * (d - dist0);
    assert d == dist0 ==> x == 0.0;
    e * pot0 * exp(x)
  }

  /** The anharmonic force; zero where the distance is not positive, so it
      never divides by zero. */
  function AnharmonicForce(d: real, dist0: real, pot0: real, m: real, e1: real, e2: real,
                           pow: (real, real) -> real): (f: real)
    ensures d <= 0.0 ==> f == 0.0
  {
    if d > 0.0 then (pot0 * (e1 * pow(dist0 / d, e1) - m * e2 * pow(dist0 / d, e2))) / d else 0.0
  }

  /** `f_Hooke`: Hooke's law entry by entry. */
  function FHooke(dist: Matrix, dist0: real, k: real): (r: Matrix)
    ensures |r| == |dist| && forall i :: 0 <= i < |dist| ==> |r[i]| == |dist[i]|
    ensures forall i, j :: 0 <= i < |dist| && 0 <= j < |dist[i]| ==> r[i][j] == HookeForce(dist[i][j], dist0, k)
  {
    Elementwise(dist, d => HookeForce(d, dist0, k))
  }

  /** `f_expdecay`: the exponential decay force entry by entry. */
  function FExpDecay(dist: Matrix, dist0: real, pot0: real, e: real, exp: real -> real): (r: Matrix)
    ensures |r| == |dist| && forall i :: 0 <= i < |dist| ==> |r[i]| == |dist[i]|
    ensures forall i, j :: 0 <= i < |dist| && 0 <= j < |dist[i]| ==>
      r[i][j] == ExpDecayForce(dist[i][j], dist0, pot0, e, exp)
  {
    Elementwise(dist, d => ExpDecayForce(d, dist0, pot0, e, exp))
  }

  /** `f_expneg`: the negative exponential force entry by entry. */
  function FExpNeg(dist: Matrix, dist0: real, pot0: real, e: real, exp: real -> real): (r: Matrix)
    ensures |r| == |dist| && forall i :: 0 <= i < |dist| ==> |r[i]| == |dist[i]|
    ensures forall i, j :: 0 <= i < |dist| && 0 <= j < |dist[i]| ==>
      r[i][j] == ExpNegForce(dist[i][j], dist0, pot0, e, exp)
  {
    Elementwise(dist, d => ExpNegForce(d, dist0, pot0, e, exp))
  }

  /** `f_anharmonic`: the anharmonic force entry by entry, zero where `dist` is not positive. */
  function FAnharmonic(dist: Matrix, dist0: real, pot0: real, m: real, e1: real, e2: real,
                       pow: (real, real) -> real): (r: Matrix)
    ensures |r| == |dist| && forall i :: 0 <= i < |dist| ==> |r[i]| == |dist[i]|
    ensures forall i, j :: 0 <= i < |dist| && 0 <= j < |dist[i]| ==>
      r[i][j] == AnharmonicForce(dist[i][j], dist0, pot0, m, e1, e2, pow)
    ensures forall i, j :: 0 <= i < |dist| && 0 <= j < |dist[i]| && dist[i][j] <= 0.0 ==> r[i][j] == 0.0
  {
    Elementwise(dist, d => AnharmonicForce(d, dist0, pot0, m, e1, e2, pow))
  }

  /** With equal parameters the two exponential forces are negations of each other. */
  lemma ExpDecayNegatesExpNeg(dist: Matrix, dist0: real, pot0: real, e: real, exp: real -> real)
    ensures var decay, neg := FExpDecay(dist, dist0, pot0, e, exp), FExpNeg(dist, dist0, pot0, e, exp);
      forall i, j :: 0 <= i < |dist| && 0 <= j < |dist[i]| ==> decay[i][j] == -neg[i][j]
  {
  }

  /** `c * x` has the sign of `c` when `x` is positive. */
  lemma SignOfScaled(c: real, x: real)
    requires 0.0 < x
    ensures 0.0 < c ==> 0.0 < c * x
    ensures c < 0.0 ==> c * x < 0.0
    ensures c == 0.0 ==> c * x == 0.0
  {
    if c < 0.0 {
      assert c * x == -((-c) * x);
    }
  }

  /**
   * With a positive exponential, `f_expneg` has the sign of `e * pot0` and
   * `f_expdecay` the opposite sign; at `dist0` they are `e * pot0` and
   * `-e * pot0`.
   */
  lemma ExpForceSigns(d: real, dist0: real, pot0: real, e: real, exp: real -> real)
    requires IsExp(exp)
    ensures var neg, decay := ExpNegForce(d, dist0, pot0, e, exp), ExpDecayForce(d, dist0, pot0, e, exp);
      && (0.0 < e * pot0 ==> 0.0 < neg && decay < 0.0)
      && (e * pot0 < 0.0 ==> neg < 0.0 && 0.0 < decay)
      && (e * pot0 == 0.0 ==> neg == 0.0 && decay == 0.0)
      && (d == dist0 ==> neg == e * pot0 && decay == -(e * pot0))
  {
    var x := exp(-e * (d - dist0));
    SignOfScaled(e * pot0, x);
    assert ExpDecayForce(d, dist0, pot0, e, exp) == -(e * pot0 * x);
    if d == dist0 {
      assert -e * (d - dist0) == 0.0;
    }
  }

  /** At its rest distance the anharmonic force is `pot0 * (e1 - m * e2) / dist0`. */
  lemma AnharmonicForceAtRest(dist0: real, pot0: real, m: real, e1: real, e2: real, pow: (real, real) -> real)
    requires IsPow(pow)
    requires 0.0 < dist0
    ensures AnharmonicForce(dist0, dist0, pot0, m, e1, e2, pow) == pot0 * (e1 - m * e2) / dist0
  {
    assert dist0 / dist0 == 1.0;
  }

}
