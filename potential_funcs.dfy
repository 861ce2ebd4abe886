/**
 * The potential energies `E_pot = f(dist, ...)` that pair with the force
 * laws. The integrator does not use them; they document which landscape
 * each force law comes from.
 */
module PotentialFuncs {

  import opened Matrices
  import opened RealMath
  import ForceFuncs

  /** The spring potential `k/2 * (dist - dist0)^2`. */
  function HookePotential(d: real, dist0: real, k: real): (p: real)
    ensures 0.0 <= k ==> 0.0 <= p
    ensures d == dist0 ==> p == 0.0
  {
    SquareNonNegative(d - dist0);
    HalfProductNonNegative(k, (d - dist0) * (d - dist0));
    1.0 / 2.0 * k * ((d - dist0) * (d - dist0))
  }

  /** The exponentially decaying potential: `pot0` at `dist0` when
      `exp(0) = 1`, and 0 everywhere when `pot0` is 0. */
  function ExpDecayPotential(d: real, dist0: real, pot0: real, e: real, exp: real -> real): (p: real)
    ensures exp(0.0) == 1.0 && d == dist0 ==> p == pot0
    ensures pot0 == 0.0 ==> p == 0.0
  {
    var x := -e * (d - dist0);
    assert d == dist0 ==> x == 0.0;
    pot0 * exp(x)
  }

  /** The negative exponential potential: 0 at `dist0` when `exp(0) = 1`
      (not `-pot0`), and 0 everywhere when `pot0` is 0. */
  function ExpNegPotential(d: real, dist0: real, pot0: real, e: real, exp: real -> real): (p: real)
    ensures exp(0.0) == 1.0 && d == dist0 ==> p == 0.0
    ensures pot0 == 0.0 ==> p == 0.0
  {
    var x := -e * (d - dist0);
    assert d == dist0 ==> x == 0.0;
    pot0 - pot0 * exp(x)
  }

  /** The anharmonic potential; zero where the distance is not positive. */
  function AnharmonicPotential(d: real, dist0: real, pot0: real, m: real, e1: real, e2: real,
                               pow: (real, real) -> real): (p: real)
    ensures d <= 0.0 ==> p == 0.0
  {
    if d > 0.0 then -pot0 * (pow(dist0 / d, e1) - m * pow(dist0 / d, e2)) else 0.0
  }

  /** `pot_Hooke` entry by entry. */
  function PotHooke(dist: Matrix, dist0: real, k: real): (r: Matrix)
    ensures |r| == |dist| && forall i :: 0 <= i < |dist| ==> |r[i]| == |dist[i]|
    ensures forall i, j :: 0 <= i < |dist| && 0 <= j < |dist[i]| ==> r[i][j] == HookePotential(dist[i][j], dist0, k)
  {
    Elementwise(dist, d => HookePotential(d, dist0, k))
  }

  /** `pot_expdecay` entry by entry. */
  function PotExpDecay(dist: Matrix, dist0: real, pot0: real, e: real, exp: real -> real): (r: Matrix)
    ensures |r| == |dist| && forall i :: 0 <= i < |dist| ==> |r[i]| == |dist[i]|
    ensures forall i, j :: 0 <= i < |dist| && 0 <= j < |dist[i]| ==>
      r[i][j] == ExpDecayPotential(dist[i][j], dist0, pot0, e, exp)
  {
    Elementwise(dist, d => ExpDecayPotential(d, dist0, pot0, e, exp))
  }

  /** `pot_expneg` entry by entry. */
  function PotExpNeg(dist: Matrix, dist0: real, pot0: real, e: real, exp: real -> real): (r: Matrix)
    ensures |r| == |dist| && forall i :: 0 <= i < |dist| ==> |r[i]| == |dist[i]|
    ensures forall i, j :: 0 <= i < |dist| && 0 <= j < |dist[i]| ==>
      r[i][j] == ExpNegPotential(dist[i][j], dist0, pot0, e, exp)
  {
    Elementwise(dist, d => ExpNegPotential(d, dist0, pot0, e, exp))
  }

  /** `pot_anharmonic` entry by entry, zero where `dist` is not positive. */
  function PotAnharmonic(dist: Matrix, dist0: real, pot0: real, m: real, e1: real, e2: real,
                         pow: (real, real) -> real): (r: Matrix)
    ensures |r| == |dist| && forall i :: 0 <= i < |dist| ==> |r[i]| == |dist[i]|
    ensures forall i, j :: 0 <= i < |dist| && 0 <= j < |dist[i]| ==>
      r[i][j] == AnharmonicPotential(dist[i][j], dist0, pot0, m, e1, e2, pow)
    ensures forall i, j :: 0 <= i < |dist| && 0 <= j < |dist[i]| && dist[i][j] <= 0.0 ==> r[i][j] == 0.0
  {
    Elementwise(dist, d => AnharmonicPotential(d, dist0, pot0, m, e1, e2, pow))
  }

  /**
   * Moving a spring's length from `d` to `d + h` changes its energy by the
   * force times `h` plus `k * h^2 / 2`: Hooke's force is the slope of
   * Hooke's potential, exactly.
   */
  lemma HookeEnergyChange(d: real, h: real, dist0: real, k: real)
    ensures HookePotential(d + h, dist0, k) - HookePotential(d, dist0, k)
         == h * ForceFuncs.HookeForce(d, dist0, k) + k * h * h / 2.0
  {
  }

  /** The exponential decay potential is `pot0` at `dist0`. */
  lemma ExpDecayAtRest(dist0: real, pot0: real, e: real, exp: real -> real)
    requires IsExp(exp)
    ensures ExpDecayPotential(dist0, dist0, pot0, e, exp) == pot0
  {
    assert -e * (dist0 - dist0) == 0.0;
  }

  /**
   * The negative exponential potential is `pot0` minus the decay potential,
   * so at `dist0` it is 0 (the curve from `-pot0` to 0 shifted up by `pot0`).
   */
  lemma ExpNegIsShiftedDecay(d: real, dist0: real, pot0: real, e: real, exp: real -> real)
    requires IsExp(exp)
    ensures ExpNegPotential(d, dist0, pot0, e, exp) == pot0 - ExpDecayPotential(d, dist0, pot0, e, exp)
    ensures d == dist0 ==> ExpNegPotential(d, dist0, pot0, e, exp) == 0.0
  {
    if d == dist0 {
      ExpDecayAtRest(dist0, pot0, e, exp);
    }
  }

  /**
   * The exponential forces are the potentials' slopes: `f_expdecay` is
   * `-e` times `pot_expdecay`, and `f_expneg` is `e` times `pot0 - pot_expneg`.
   */
  lemma ExpForcesFollowPotentials(d: real, dist0: real, pot0: real, e: real, exp: real -> real)
    ensures ForceFuncs.ExpDecayForce(d, dist0, pot0, e, exp) == -e * ExpDecayPotential(d, dist0, pot0, e, exp)
    ensures ForceFuncs.ExpNegForce(d, dist0, pot0, e, exp) == e * (pot0 - ExpNegPotential(d, dist0, pot0, e, exp))
  {
  }

  /** At `dist0 > 0` the anharmonic potential is `-pot0 * (1 - m)`. */
  lemma AnharmonicAtRest(dist0: real, pot0: real, m: real, e1: real, e2: real, pow: (real, real) -> real)
    requires IsPow(pow)
    requires 0.0 < dist0
    ensures AnharmonicPotential(dist0, dist0, pot0, m, e1, e2, pow) == -pot0 * (1.0 - m)
  {
    assert dist0 / dist0 == 1.0;
  }

}
