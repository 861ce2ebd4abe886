/**
 * What one step promises beyond its own contract: pairs the range band or
 * the mask exclude feel nothing, a lone cell stays put, and when every term
 * acts alike on (i, j) and (j, i) the forces cancel in pairs (Newton's
 * third law), so the cells' centroid does not move.
 */
module SimulationProperties {

  import opened Wrappers
  import opened Matrices
  import opened RealMath
  import opened Distances
  import opened Simulation

  /** The y components of a force field. */
  function Ys(f: seq<Point>): (s: seq<real>)
    ensures |s| == |f| && forall i :: 0 <= i < |f| ==> s[i] == f[i].y
  {
    seq(|f|, i requires 0 <= i < |f| => f[i].y)
  }

  /** The x components of a force field. */
  function Xs(f: seq<Point>): (s: seq<real>)
    ensures |s| == |f| && forall i :: 0 <= i < |f| ==> s[i] == f[i].x
  {
    seq(|f|, i requires 0 <= i < |f| => f[i].x)
  }

  /** A pair cut off by the range band or the mask gets no force from the
      term, along either axis. */
  lemma ExcludedPairContributesNothing(term: ForceTerm, D: Dists, sample: Matrix, maths: Maths, i: nat, j: nat)
    requires Separated(D) && TermFits(term, sample, D.d, maths)
    requires i < |D.d| && j < |D.d|
    requires D.d[i][j] < term.minRange || term.maxRange < D.d[i][j] || !Allowed(term.stateMask, i, j)
    ensures var F := ScalarForces(term, D.d, sample, maths);
      F[i][j] == 0.0 && Projected(F, D.x, D.d, i, j) == 0.0 && Projected(F, D.y, D.d, i, j) == 0.0
  {
  }

  /** A term whose scalar force vanishes on every pair of distinct cells
      adds nothing, whatever it puts on the diagonal. */
  lemma SilentTermIsInert(term: ForceTerm, D: Dists, sample: Matrix, maths: Maths)
    requires Separated(D) && TermFits(term, sample, D.d, maths)
    requires forall i, j :: 0 <= i < |D.d| && 0 <= j < |D.d| && i != j ==>
      ScalarForces(term, D.d, sample, maths)[i][j] == 0.0
    ensures TermForce(term, D, sample, maths) == ZeroField(|D.d|)
  {
    var n := |D.d|;
    var F := ScalarForces(term, D.d, sample, maths);
    forall i | 0 <= i < n
      ensures TermForce(term, D, sample, maths)[i] == Point(0.0, 0.0)
    {
      var cy, cx := Components(F, D.y, D.d, i), Components(F, D.x, D.d, i);
      forall j | 0 <= j < n ensures cy[j] == 0.0 && cx[j] == 0.0 {
        if i != j {
          assert F[i][j] == 0.0;
        }
      }
      SumZero(cy);
      SumZero(cx);
    }
  }

  /** A term that reaches no pair of distinct cells adds nothing. */
  lemma OutOfReachTermIsInert(term: ForceTerm, D: Dists, sample: Matrix, maths: Maths)
    requires Separated(D) && TermFits(term, sample, D.d, maths)
    requires forall i, j :: 0 <= i < |D.d| && 0 <= j < |D.d| && i != j ==>
      D.d[i][j] < term.minRange || term.maxRange < D.d[i][j] || !Allowed(term.stateMask, i, j)
    ensures TermForce(term, D, sample, maths) == ZeroField(|D.d|)
  {
    SilentTermIsInert(term, D, sample, maths);
  }

  /** A term whose force law is zero everywhere and which adds no noise
      adds nothing. */
  lemma ZeroForceTermIsInert(term: ForceTerm, D: Dists, sample: Matrix, maths: Maths)
    requires Separated(D) && TermFits(term, sample, D.d, maths)
    requires term.rndStdev.None?
    requires forall i, j :: 0 <= i < |D.d| && 0 <= j < |D.d| ==> EvalForce(term.func, D.d, maths)[i][j] == 0.0
    ensures TermForce(term, D, sample, maths) == ZeroField(|D.d|)
  {
    SilentTermIsInert(term, D, sample, maths);
  }

  /** Terms that each add nothing add up to no force. */
  lemma {:induction false} InertTermsGiveNoForce(terms: seq<ForceTerm>, D: Dists, noise: seq<Matrix>, maths: Maths)
    requires Separated(D) && TermsFit(terms, noise, D.d, maths)
    requires forall t :: 0 <= t < |terms| ==> TermForce(terms[t], D, noise[t], maths) == ZeroField(|D.d|)
    ensures NetForce(terms, D, noise, maths) == ZeroField(|D.d|)
    decreases |terms|
  {
    if |terms| > 0 {
      var k := |terms| - 1;
      InertTermsGiveNoForce(terms[..k], D, noise[..k], maths);
    }
  }

  /** When every force law is zero everywhere and no term adds noise, one
      step leaves every cell where it was. */
  lemma ZeroForcesKeepPositions(pos: seq<Point>, terms: seq<ForceTerm>, noise: seq<Matrix>, deltaT: real, maths: Maths)
    requires Separated(GetDists(pos, maths.sqrt))
    requires TermsFit(terms, noise, GetDists(pos, maths.sqrt).d, maths)
    requires forall t :: 0 <= t < |terms| ==> terms[t].rndStdev.None?
    requires forall t, i, j :: 0 <= t < |terms| && 0 <= i < |pos| && 0 <= j < |pos| ==>
      EvalForce(terms[t].func, GetDists(pos, maths.sqrt).d, maths)[i][j] == 0.0
    ensures NetForce(terms, GetDists(pos, maths.sqrt), noise, maths) == ZeroField(|pos|)
    ensures EulerStep(pos, NetForce(terms, GetDists(pos, maths.sqrt), noise, maths), deltaT) == pos
  {
    var D := GetDists(pos, maths.sqrt);
    forall t | 0 <= t < |terms| ensures TermForce(terms[t], D, noise[t], maths) == ZeroField(|pos|) {
      ZeroForceTermIsInert(terms[t], D, noise[t], maths);
    }
    InertTermsGiveNoForce(terms, D, noise, maths);
  }

  /** A lone cell has no neighbour, so no term pushes it. */
  lemma SingleCellFeelsNoForce(terms: seq<ForceTerm>, D: Dists, noise: seq<Matrix>, maths: Maths)
    requires Separated(D) && TermsFit(terms, noise, D.d, maths)
    requires |D.d| == 1
    ensures NetForce(terms, D, noise, maths) == [Point(0.0, 0.0)]
  {
    forall t | 0 <= t < |terms| ensures TermForce(terms[t], D, noise[t], maths) == ZeroField(1) {
      OutOfReachTermIsInert(terms[t], D, noise[t], maths);
    }
    InertTermsGiveNoForce(terms, D, noise, maths);
  }

  /** One step leaves a lone cell where it was. */
  lemma SingleCellStaysPut(pos: seq<Point>, terms: seq<ForceTerm>, noise: seq<Matrix>, deltaT: real, maths: Maths)
    requires |pos| == 1
    requires Separated(GetDists(pos, maths.sqrt))
    requires TermsFit(terms, noise, GetDists(pos, maths.sqrt).d, maths)
    ensures EulerStep(pos, NetForce(terms, GetDists(pos, maths.sqrt), noise, maths), deltaT) == pos
  {
    SingleCellFeelsNoForce(terms, GetDists(pos, maths.sqrt), noise, maths);
  }

  lemma ScaledQuotientSign(f: real, disp: real, d: real)
    requires 0.0 < f && 0.0 < d
    ensures 0.0 < disp ==> 0.0 < f * disp / d
    ensures disp < 0.0 ==> f * disp / d < 0.0
    ensures disp == 0.0 ==> f * disp / d == 0.0
  {
    var q := f / d;
    assert 0.0 < q;
    assert f * disp / d == q * disp;
    if disp < 0.0 {
      assert q * disp == -(q * (-disp));
    }
  }

  /** A positive scalar force on (i, j) pushes cell i toward cell j on each
      axis: its component has the sign of `pos[j] - pos[i]`. */
  lemma PositiveForcePullsTogether(pos: seq<Point>, sqrt: real -> real, F: Matrix, i: nat, j: nat)
    requires IsSqrt(sqrt)
    requires Separated(GetDists(pos, sqrt))
    requires IsSquare(F, |pos|) && i < |pos| && j < |pos| && i != j
    requires 0.0 < F[i][j]
    ensures var D := GetDists(pos, sqrt);
      && (pos[i].x < pos[j].x ==> 0.0 < Projected(F, D.x, D.d, i, j))
      && (pos[j].x < pos[i].x ==> Projected(F, D.x, D.d, i, j) < 0.0)
      && (pos[i].x == pos[j].x ==> Projected(F, D.x, D.d, i, j) == 0.0)
      && (pos[i].y < pos[j].y ==> 0.0 < Projected(F, D.y, D.d, i, j))
      && (pos[j].y < pos[i].y ==> Projected(F, D.y, D.d, i, j) < 0.0)
      && (pos[i].y == pos[j].y ==> Projected(F, D.y, D.d, i, j) == 0.0)
  {
    var D := GetDists(pos, sqrt);
    DistanceProperties(pos, sqrt, i, j);
    ScaledQuotientSign(F[i][j], D.x[i][j], D.d[i][j]);
    ScaledQuotientSign(F[i][j], D.y[i][j], D.d[i][j]);
  }

  /** Every built-in force law gives a symmetric matrix on a symmetric
      distance matrix: the force depends on the distance alone. */
  lemma BuiltInForceSymmetric(func: ForceFunc, dist: Matrix, maths: Maths)
    requires !func.Custom?
    requires IsSquare(dist, |dist|) && Symmetric(dist)
    ensures IsSquare(EvalForce(func, dist, maths), |dist|)
    ensures Symmetric(EvalForce(func, dist, maths))
  {
  }

  /** The term treats (i, j) and (j, i) alike: a symmetric raw force, no
      noise or a symmetric noise sample, and a symmetric mask if any. */
  predicate ActsAlike(term: ForceTerm, sample: Matrix, dist: Matrix, maths: Maths)
    requires TermFits(term, sample, dist, maths)
  {
    Symmetric(EvalForce(term.func, dist, maths)) &&
    (term.rndStdev.None? || Symmetric(sample)) &&
    (term.stateMask.Some? ==> Symmetric(term.stateMask.value))
  }

  /** The scalar force of a term that acts alike on both orders of a pair
      is symmetric. */
  lemma ScalarForcesSymmetric(term: ForceTerm, dist: Matrix, sample: Matrix, maths: Maths)
    requires TermFits(term, sample, dist, maths) && Symmetric(dist)
    requires ActsAlike(term, sample, dist, maths)
    ensures Symmetric(ScalarForces(term, dist, sample, maths))
  {
    var F := ScalarForces(term, dist, sample, maths);
    var raw := EvalForce(term.func, dist, maths);
    forall i, j | 0 <= i < |dist| && 0 <= j < |dist| ensures F[i][j] == F[j][i] {
      assert AddedNoise(term, sample[i][j]) == AddedNoise(term, sample[j][i]) by {
        if term.rndStdev.Some? {
          assert sample[i][j] == sample[j][i];
        }
      }
      assert raw[i][j] == raw[j][i];
      assert Allowed(term.stateMask, i, j) == Allowed(term.stateMask, j, i);
    }
  }

  lemma ProjectedOfSwapped(f: real, x: real, d: real)
    requires d != 0.0
    ensures f * (-x) / d == -(f * x / d)
  {
  }

  /** On a symmetric force, an antisymmetric displacement and a symmetric
      distance, the projections of (i, j) and (j, i) are opposite. */
  lemma ProjectionOfPairOpposite(F: Matrix, disp: Matrix, dist: Matrix, i: nat, j: nat)
    requires IsSquare(F, |dist|) && IsSquare(disp, |dist|) && IsSquare(dist, |dist|)
    requires i < |dist| && j < |dist| && (i != j ==> dist[i][j] != 0.0)
    requires Symmetric(F) && Antisymmetric(disp) && Symmetric(dist)
    ensures Projected(F, disp, dist, i, j) == -Projected(F, disp, dist, j, i)
  {
    if i != j {
      assert F[j][i] == F[i][j] && disp[j][i] == -disp[i][j] && dist[j][i] == dist[i][j];
      ProjectedOfSwapped(F[i][j], disp[i][j], dist[i][j]);
    }
  }

  /** A symmetric scalar force projected on an antisymmetric displacement
      has projections that add up to 0 over all cells. */
  lemma ProjectionBalances(F: Matrix, disp: Matrix, dist: Matrix)
    requires IsSquare(F, |dist|) && IsSquare(disp, |dist|) && IsSquare(dist, |dist|)
    requires forall a, b :: 0 <= a < |dist| && 0 <= b < |dist| && a != b ==> dist[a][b] != 0.0
    requires Symmetric(F) && Antisymmetric(disp) && Symmetric(dist)
    ensures Sum(seq(|dist|, i requires 0 <= i < |dist| => Sum(Components(F, disp, dist, i)))) == 0.0
  {
    var n := |dist|;
    var P := seq(n, i requires 0 <= i < n => Components(F, disp, dist, i));
    forall i, j | 0 <= i < n && 0 <= j < n ensures P[i][j] == -P[j][i] {
      ProjectionOfPairOpposite(F, disp, dist, i, j);
    }
    AntisymmetricTotalIsZero(P);
    assert RowSums(P) == seq(n, i requires 0 <= i < n => Sum(Components(F, disp, dist, i)));
  }

  /** Newton's third law for one term: the force cell j exerts on cell i is
      equal and opposite to the force cell i exerts on cell j, on each axis. */
  lemma PairForcesOpposite(term: ForceTerm, D: Dists, sample: Matrix, maths: Maths, i: nat, j: nat)
    requires Separated(D) && TermFits(term, sample, D.d, maths)
    requires Symmetric(D.d) && Antisymmetric(D.x) && Antisymmetric(D.y)
    requires ActsAlike(term, sample, D.d, maths)
    requires i < |D.d| && j < |D.d|
    ensures var F := ScalarForces(term, D.d, sample, maths);
      && Projected(F, D.y, D.d, i, j) == -Projected(F, D.y, D.d, j, i)
      && Projected(F, D.x, D.d, i, j) == -Projected(F, D.x, D.d, j, i)
  {
    var F := ScalarForces(term, D.d, sample, maths);
    ScalarForcesSymmetric(term, D.d, sample, maths);
    ProjectionOfPairOpposite(F, D.y, D.d, i, j);
    ProjectionOfPairOpposite(F, D.x, D.d, i, j);
  }

  /** The forces of one term add up to zero on each axis. */
  lemma TermForceBalances(term: ForceTerm, D: Dists, sample: Matrix, maths: Maths)
    requires Separated(D) && TermFits(term, sample, D.d, maths)
    requires Symmetric(D.d) && Antisymmetric(D.x) && Antisymmetric(D.y)
    requires ActsAlike(term, sample, D.d, maths)
    ensures Sum(Ys(TermForce(term, D, sample, maths))) == 0.0
    ensures Sum(Xs(TermForce(term, D, sample, maths))) == 0.0
  {
    var n := |D.d|;
    var F := ScalarForces(term, D.d, sample, maths);
    var f := TermForce(term, D, sample, maths);
    ScalarForcesSymmetric(term, D.d, sample, maths);
    ProjectionBalances(F, D.y, D.d);
    ProjectionBalances(F, D.x, D.d);
    assert Ys(f) == seq(n, i requires 0 <= i < n => Sum(Components(F, D.y, D.d, i)));
    assert Xs(f) == seq(n, i requires 0 <= i < n => Sum(Components(F, D.x, D.d, i)));
  }

  lemma AddFieldsTotals(a: seq<Point>, b: seq<Point>)
    requires |a| == |b|
    ensures Sum(Ys(AddFields(a, b))) == Sum(Ys(a)) + Sum(Ys(b))
    ensures Sum(Xs(AddFields(a, b))) == Sum(Xs(a)) + Sum(Xs(b))
  {
    SumAdd(Ys(AddFields(a, b)), Ys(a), Ys(b));
    SumAdd(Xs(AddFields(a, b)), Xs(a), Xs(b));
  }

  /** When every term acts alike on both orders of every pair, the net
      forces over all cells add up to zero on each axis. */
  lemma {:induction false} ForcesBalance(terms: seq<ForceTerm>, D: Dists, noise: seq<Matrix>, maths: Maths)
    requires Separated(D) && TermsFit(terms, noise, D.d, maths)
    requires Symmetric(D.d) && Antisymmetric(D.x) && Antisymmetric(D.y)
    requires forall t :: 0 <= t < |terms| ==> ActsAlike(terms[t], noise[t], D.d, maths)
    ensures Sum(Ys(NetForce(terms, D, noise, maths))) == 0.0
    ensures Sum(Xs(NetForce(terms, D, noise, maths))) == 0.0
    decreases |terms|
  {
    var n := |D.d|;
    if |terms| == 0 {
      SumZero(Ys(ZeroField(n)));
      SumZero(Xs(ZeroField(n)));
    } else {
      var k := |terms| - 1;
      ForcesBalance(terms[..k], D, noise[..k], maths);
      TermForceBalances(terms[k], D, noise[k], maths);
      AddFieldsTotals(NetForce(terms[..k], D, noise[..k], maths), TermForce(terms[k], D, noise[k], maths));
    }
  }

  /** Moving every cell along a force field that adds up to zero keeps the
      sum of the coordinates, hence the centroid. */
  lemma EulerStepKeepsTotals(pos: seq<Point>, force: seq<Point>, deltaT: real)
    requires |force| == |pos|
    requires Sum(Ys(force)) == 0.0 && Sum(Xs(force)) == 0.0
    ensures Sum(Ys(EulerStep(pos, force, deltaT))) == Sum(Ys(pos))
    ensures Sum(Xs(EulerStep(pos, force, deltaT))) == Sum(Xs(pos))
  {
    var next := EulerStep(pos, force, deltaT);
    var ny, py, fy := Ys(next), Ys(pos), Ys(force);
    var nx, px, fx := Xs(next), Xs(pos), Xs(force);
    forall k | 0 <= k < |pos|
      ensures ny[k] == py[k] + deltaT * fy[k] && nx[k] == px[k] + deltaT * fx[k]
    {
      assert next[k] == Point(pos[k].y + deltaT * force[k].y, pos[k].x + deltaT * force[k].x);
    }
    ShiftKeepsTotal(ny, py, fy, deltaT);
    ShiftKeepsTotal(nx, px, fx, deltaT);
  }

  /** When every term acts alike on both orders of every pair, one step
      leaves the centroid of the cells where it was. */
  lemma CentroidFixed(pos: seq<Point>, terms: seq<ForceTerm>, noise: seq<Matrix>, deltaT: real, maths: Maths)
    requires Separated(GetDists(pos, maths.sqrt))
    requires TermsFit(terms, noise, GetDists(pos, maths.sqrt).d, maths)
    requires forall t :: 0 <= t < |terms| ==> ActsAlike(terms[t], noise[t], GetDists(pos, maths.sqrt).d, maths)
    ensures var next := EulerStep(pos, NetForce(terms, GetDists(pos, maths.sqrt), noise, maths), deltaT);
      Sum(Ys(next)) == Sum(Ys(pos)) && Sum(Xs(next)) == Sum(Xs(pos))
  {
    var D := GetDists(pos, maths.sqrt);
    DistanceSymmetric(pos, maths.sqrt);
    ForcesBalance(terms, D, noise, maths);
    EulerStepKeepsTotals(pos, NetForce(terms, D, noise, maths), deltaT);
  }

  lemma SquareAroundThree(r: real)
    ensures r > 3.0 ==> r * r > 9.0
    ensures 0.0 <= r < 3.0 ==> r * r < 9.0
  {
    if 0.0 <= r < 3.0 {
      assert r * r <= 3.0 * r;
    }
  }

  lemma RootOfNine(sqrt: real -> real)
    requires IsSqrt(sqrt)
    ensures sqrt(9.0) == 3.0
  {
    var r := sqrt(9.0);
    assert 0.0 <= r && r * r == 9.0;
    SquareAroundThree(r);
  }

  /** Two cells 3 apart on the x axis. */
  const twoCells := [Point(0.0, 0.0), Point(0.0, 3.0)]

  /** A Hooke spring of rest length 1 and stiffness 1 acting between
      distances 0 and 10, with no mask and no noise. */
  const spring := ForceTerm(Hooke(1.0, 1.0), 0.0, 10.0, None, None, None)

  /** The noise sample passed for the spring, which has no noise level. */
  const zeroSample: Matrix := [[0.0, 0.0], [0.0, 0.0]]

  /** The y displacements of the two cells, which share a row. */
  const twoCellYs: Matrix := [[0.0, 0.0], [0.0, 0.0]]

  lemma TwoCellDists(maths: Maths)
    requires IsSqrt(maths.sqrt)
    ensures GetDists(twoCells, maths.sqrt) == Dists([[0.0, 3.0], [-3.0, 0.0]], twoCellYs, [[0.0, 3.0], [3.0, 0.0]])
  {
    var D := GetDists(twoCells, maths.sqrt);
    RootOfNine(maths.sqrt);
    assert D.x[0] == [0.0, 3.0] && D.x[1] == [-3.0, 0.0];
    assert D.y[0] == [0.0, 0.0] && D.y[1] == [0.0, 0.0];
    assert SquaredLength(3.0, 0.0) == 9.0 && SquaredLength(-3.0, 0.0) == 9.0 && SquaredLength(0.0, 0.0) == 0.0;
    assert D.d[0] == [0.0, 3.0] && D.d[1] == [3.0, 0.0];
  }

  lemma TwoCellScalarForce(D: Dists, maths: Maths)
    requires D == Dists([[0.0, 3.0], [-3.0, 0.0]], twoCellYs, [[0.0, 3.0], [3.0, 0.0]])
    ensures Separated(D) && TermFits(spring, zeroSample, D.d, maths)
    ensures ScalarForces(spring, D.d, zeroSample, maths)[0][1] == 2.0
    ensures ScalarForces(spring, D.d, zeroSample, maths)[1][0] == 2.0
  {
    var raw := EvalForce(spring.func, D.d, maths);
    assert raw[0][1] == 2.0 && raw[1][0] == 2.0;
  }

  lemma TwoCellSpringForce(D: Dists, maths: Maths)
    requires D == Dists([[0.0, 3.0], [-3.0, 0.0]], twoCellYs, [[0.0, 3.0], [3.0, 0.0]])
    ensures Separated(D) && TermFits(spring, zeroSample, D.d, maths)
    ensures TermForce(spring, D, zeroSample, maths) == [Point(0.0, 2.0), Point(0.0, -2.0)]
  {
    TwoCellScalarForce(D, maths);
    var F := ScalarForces(spring, D.d, zeroSample, maths);
    var x0, x1 := Components(F, D.x, D.d, 0), Components(F, D.x, D.d, 1);
    var y0, y1 := Components(F, D.y, D.d, 0), Components(F, D.y, D.d, 1);
    assert x0 == [0.0, 2.0] && x1 == [-2.0, 0.0];
    assert y0 == [0.0, 0.0] && y1 == [0.0, 0.0];
    SumOfTwo(0.0, 2.0);
    SumOfTwo(-2.0, 0.0);
    SumOfTwo(0.0, 0.0);
    var f := TermForce(spring, D, zeroSample, maths);
    assert f[0] == Point(Sum(y0), Sum(x0)) && f[1] == Point(Sum(y1), Sum(x1));
  }

  lemma SumOfTwo(a: real, b: real)
    ensures Sum([a, b]) == a + b
  {
    assert [a][..0] == [];
    assert Sum([a]) == a;
    assert [a, b][..1] == [a];
  }

  /**
   * Two cells 3 apart under a Hooke spring of rest length 1: the stretched
   * spring pulls each toward the other with force 2, and a step of 0.1
   * moves each 0.2 inward.
   */
  lemma TwoCellHookeExample(maths: Maths)
    requires IsSqrt(maths.sqrt)
    ensures var D := GetDists(twoCells, maths.sqrt);
      && Separated(D)
      && TermsFit([spring], [zeroSample], D.d, maths)
      && NetForce([spring], D, [zeroSample], maths) == [Point(0.0, 2.0), Point(0.0, -2.0)]
      && EulerStep(twoCells, [Point(0.0, 2.0), Point(0.0, -2.0)], 0.1) == [Point(0.0, 0.2), Point(0.0, 2.8)]
  {
    var D := GetDists(twoCells, maths.sqrt);
    TwoCellDists(maths);
    TwoCellSpringForce(D, maths);
    var noMatrices: seq<Matrix> := [];
    assert [spring][..0] == [] && [zeroSample][..0] == noMatrices;
  }

}
