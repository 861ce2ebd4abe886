/**
 * The force integrator (`timestep`): evaluates every force term on the
 * distance matrix, adds clipped noise, cuts pairs outside the range band or
 * the interaction mask, projects the scalar forces onto the displacements
 * (never on the diagonal), sums over neighbours, and takes one Euler step.
 *
 * The specification functions come first; the arrays and loops of the step
 * itself follow, proved against them.
 */
module Simulation {

  import opened Wrappers
  import opened Matrices
  import opened RealMath
  import opened Distances
  import ForceFuncs

  /** A force law with its extra parameters (`force_func` with `force_params`). */
  datatype ForceFunc =
    | Hooke(dist0: real, k: real)
    | ExpDecay(dist0: real, pot0: real, e: real)
    | ExpNeg(dist0: real, pot0: real, e: real)
    | Anharmonic(dist0: real, pot0: real, m: real, e1: real, e2: real)
    | Custom(f: Matrix -> Matrix)

  /** `force_func(dist, *force_params)`. */
  function EvalForce(func: ForceFunc, dist: Matrix, maths: Maths): (r: Matrix)
    ensures !func.Custom? ==> |r| == |dist| && forall i :: 0 <= i < |dist| ==> |r[i]| == |dist[i]|
    ensures func.Anharmonic? ==>
      forall i, j :: 0 <= i < |dist| && 0 <= j < |dist[i]| && dist[i][j] <= 0.0 ==> r[i][j] == 0.0
    ensures func.Hooke? && func.k != 0.0 ==>
      forall i, j :: 0 <= i < |dist| && 0 <= j < |dist[i]| ==> (r[i][j] == 0.0 <==> dist[i][j] == func.dist0)
  {
    match func
    case Hooke(dist0, k) => ForceFuncs.FHooke(dist, dist0, k)
    case ExpDecay(dist0, pot0, e) => ForceFuncs.FExpDecay(dist, dist0, pot0, e, maths.exp)
    case ExpNeg(dist0, pot0, e) => ForceFuncs.FExpNeg(dist, dist0, pot0, e, maths.exp)
    case Anharmonic(dist0, pot0, m, e1, e2) => ForceFuncs.FAnharmonic(dist, dist0, pot0, m, e1, e2, maths.pow)
    case Custom(f) => f(dist)
  }

  /** One force term: the law, the distance band it acts in, the optional
      interaction mask, and the optional noise level and noise bound. */
  datatype ForceTerm = ForceTerm(
    func: ForceFunc,
    minRange: real,
    maxRange: real,
    stateMask: Option<Mask>,
    rndStdev: Option<real>,
    rndBound: Option<real>)

  /** The term's law gives an n×n matrix on the n×n distances, and its mask
      and the noise sample drawn for it are n×n too. */
  predicate TermFits(term: ForceTerm, sample: Matrix, dist: Matrix, maths: Maths)
  {
    var n := |dist|;
    IsSquare(dist, n) && IsSquare(EvalForce(term.func, dist, maths), n) && IsSquare(sample, n) &&
    (term.stateMask.Some? ==> IsSquare(term.stateMask.value, n))
  }

  /** Every term fits, with one noise sample per term. */
  predicate TermsFit(terms: seq<ForceTerm>, noise: seq<Matrix>, dist: Matrix, maths: Maths)
  {
    |noise| == |terms| && forall t :: 0 <= t < |terms| ==> TermFits(terms[t], noise[t], dist, maths)
  }

  /** The two masked assignments that bound a noise sample by `b`. */
  function Clip(s: real, b: real): (r: real)
    ensures 0.0 <= b ==> -b <= r <= b
    ensures -b <= s <= b ==> r == s
    ensures 0.0 <= b && b < s ==> r == b
    ensures 0.0 <= b && s < -b ==> r == -b
    ensures b < 0.0 ==> r == -b
  {
    var above := if s > b then b else s;
    if above < -b then -b else above
  }

  /** What the term adds to one entry given the raw sample there: nothing
      without a noise level, the sample itself without a bound, else the
      clipped sample. */
  function AddedNoise(term: ForceTerm, sample: real): (r: real)
    ensures term.rndStdev.None? ==> r == 0.0
    ensures term.rndStdev.Some? && term.rndBound.None? ==> r == sample
    ensures term.rndStdev.Some? && term.rndBound.Some? && 0.0 <= term.rndBound.value ==>
      -term.rndBound.value <= r <= term.rndBound.value
    ensures term.rndStdev.Some? && term.rndBound.Some? ==>
      (-term.rndBound.value <= sample <= term.rndBound.value ==> r == sample)
  {
    match term.rndStdev
    case None => 0.0
    case Some(_) =>
      match term.rndBound
      case None => sample
      case Some(b) => Clip(sample, b)
  }

  /** Whether the mask lets the pair (i, j) interact; no mask lets every pair. */
  function Allowed(mask: Option<Mask>, i: nat, j: nat): (ok: bool)
    requires mask.Some? ==> i < |mask.value| && j < |mask.value[i]|
    ensures mask.None? ==> ok
    ensures mask.Some? ==> (ok <==> mask.value[i][j])
  {
    mask.None? || mask.value[i][j]
  }

  /** One entry of a term's scalar force after noise, range and mask. */
  function Gate(term: ForceTerm, raw: real, sample: real, d: real, allowed: bool): (r: real)
    ensures d < term.minRange || term.maxRange < d || !allowed ==> r == 0.0
    ensures term.minRange <= d <= term.maxRange && allowed ==> r == raw + AddedNoise(term, sample)
  {
    var noisy := raw + AddedNoise(term, sample);
    var aboveMin := if d < term.minRange then 0.0 else noisy;
    var inRange := if d > term.maxRange then 0.0 else aboveMin;
    if !allowed then 0.0 else inRange
  }

  /** The term's scalar force matrix after noise, range cut-offs and mask. */
  function ScalarForces(term: ForceTerm, dist: Matrix, sample: Matrix, maths: Maths): (F: Matrix)
    requires TermFits(term, sample, dist, maths)
    ensures IsSquare(F, |dist|)
    ensures forall i, j :: 0 <= i < |dist| && 0 <= j < |dist| ==>
      F[i][j] == Gate(term, EvalForce(term.func, dist, maths)[i][j], sample[i][j], dist[i][j],
                      Allowed(term.stateMask, i, j))
  {
    var n := |dist|;
    var raw := EvalForce(term.func, dist, maths);
    seq(n, i requires 0 <= i < n =>
      seq(n, j requires 0 <= j < n =>
        Gate(term, raw[i][j], sample[i][j], dist[i][j], Allowed(term.stateMask, i, j))))
  }

  /** The component of the scalar force on pair (i, j) along one axis:
      zero on the diagonal, else scaled by displacement over distance. */
  function Projected(F: Matrix, disp: Matrix, dist: Matrix, i: nat, j: nat): (c: real)
    requires i < |F| && j < |F[i]| && i < |disp| && j < |disp[i]| && i < |dist| && j < |dist[i]|
    requires i != j ==> dist[i][j] != 0.0
    ensures i == j ==> c == 0.0
    ensures F[i][j] == 0.0 || disp[i][j] == 0.0 ==> c == 0.0
  {
    if i == j then 0.0 else F[i][j] * disp[i][j] / dist[i][j]
  }

  /** Row i of the projected force matrix along one axis. */
  function Components(F: Matrix, disp: Matrix, dist: Matrix, i: nat): (row: seq<real>)
    requires IsSquare(F, |dist|) && IsSquare(disp, |dist|) && IsSquare(dist, |dist|)
    requires forall a, b :: 0 <= a < |dist| && 0 <= b < |dist| && a != b ==> dist[a][b] != 0.0
    requires i < |dist|
    ensures |row| == |dist|
    ensures forall j :: 0 <= j < |dist| ==> row[j] == Projected(F, disp, dist, i, j)
  {
    seq(|dist|, j requires 0 <= j < |dist| => Projected(F, disp, dist, i, j))
  }

  /** The (y, x) force one term puts on every cell, summed over its neighbours. */
  function TermForce(term: ForceTerm, D: Dists, sample: Matrix, maths: Maths): (f: seq<Point>)
    requires Separated(D)
    requires TermFits(term, sample, D.d, maths)
    ensures |f| == |D.d|
  {
    var n := |D.d|;
    var F := ScalarForces(term, D.d, sample, maths);
    seq(n, i requires 0 <= i < n => Point(Sum(Components(F, D.y, D.d, i)), Sum(Components(F, D.x, D.d, i))))
  }

  function AddFields(a: seq<Point>, b: seq<Point>): (c: seq<Point>)
    requires |a| == |b|
    ensures |c| == |a|
    ensures forall i :: 0 <= i < |a| ==> c[i] == Point(a[i].y + b[i].y, a[i].x + b[i].x)
  {
    seq(|a|, i requires 0 <= i < |a| => Point(a[i].y + b[i].y, a[i].x + b[i].x))
  }

  function ZeroField(n: nat): (f: seq<Point>)
    ensures |f| == n && forall i :: 0 <= i < n ==> f[i] == Point(0.0, 0.0)
  {
    seq(n, i => Point(0.0, 0.0))
  }

  /** The net force: the per-term forces added up in the order of the terms. */
  function NetForce(terms: seq<ForceTerm>, D: Dists, noise: seq<Matrix>, maths: Maths): (f: seq<Point>)
    requires Separated(D)
    requires TermsFit(terms, noise, D.d, maths)
    ensures |f| == |D.d|
    decreases |terms|
  {
    if |terms| == 0 then ZeroField(|D.d|)
    else
      var k := |terms| - 1;
      AddFields(NetForce(terms[..k], D, noise[..k], maths), TermForce(terms[k], D, noise[k], maths))
  }

  /** `pos + delta_t * force`. */
  function EulerStep(pos: seq<Point>, force: seq<Point>, deltaT: real): (next: seq<Point>)
    requires |force| == |pos|
    ensures |next| == |pos|
    ensures forall i :: 0 <= i < |pos| ==>
      next[i] == Point(pos[i].y + deltaT * force[i].y, pos[i].x + deltaT * force[i].x)
  {
    seq(|pos|, i requires 0 <= i < |pos| => Point(pos[i].y + deltaT * force[i].y, pos[i].x + deltaT * force[i].x))
  }

  /** `~np.eye(n, dtype=bool)`: every pair but the self-pairs. */
  function SelfRefMask(n: nat): (m: Mask)
    ensures IsSquare(m, n)
    ensures forall i, j :: 0 <= i < n && 0 <= j < n ==> (m[i][j] <==> i != j)
  {
    seq(n, i requires 0 <= i < n => seq(n, j requires 0 <= j < n => i != j))
  }

  // ---------------------------------------------------------------------
  // The step itself, over arrays.
  // ---------------------------------------------------------------------

  /** The contents of an array as a matrix. */
  function Snapshot(a: array2<real>): (m: Matrix)
    reads a
    ensures |m| == a.Length0 && forall i :: 0 <= i < a.Length0 ==> |m[i]| == a.Length1
    ensures forall i, j :: 0 <= i < a.Length0 && 0 <= j < a.Length1 ==> m[i][j] == a[i, j]
  {
    seq(a.Length0, i requires 0 <= i < a.Length0 reads a =>
      seq(a.Length1, j requires 0 <= j < a.Length1 reads a => a[i, j]))
  }

  /** A fresh n×n array holding `m`. */
  method FromMatrix(m: Matrix, n: nat) returns (a: array2<real>)
    requires IsSquare(m, n)
    ensures fresh(a) && a.Length0 == n && a.Length1 == n
    ensures forall i, j :: 0 <= i < n && 0 <= j < n ==> a[i, j] == m[i][j]
  {
    a := new real[n, n]((i, j) requires 0 <= i < n && 0 <= j < n => m[i][j]);
  }

  /** `a[cond] = v`. */
  method AssignWhere(a: array2<real>, cond: Mask, v: real)
    requires a.Length1 == a.Length0 && IsSquare(cond, a.Length0)
    modifies a
    ensures forall i, j :: 0 <= i < a.Length0 && 0 <= j < a.Length1 ==>
      a[i, j] == (if cond[i][j] then v else old(a[i, j]))
  {
    var n := a.Length0;
    var i := 0;
    while i < n
      invariant 0 <= i <= n
      invariant forall r, c :: 0 <= r < n && 0 <= c < n ==>
        a[r, c] == (if r < i && cond[r][c] then v else old(a[r, c]))
    {
      var j := 0;
      while j < n
        invariant 0 <= j <= n
        invariant forall r, c :: 0 <= r < n && 0 <= c < n ==>
          a[r, c] == (if (r < i || (r == i && c < j)) && cond[r][c] then v else old(a[r, c]))
      {
        if cond[i][j] {
          a[i, j] := v;
        }
        j := j + 1;
      }
      i := i + 1;
    }
  }

  /** `a += b`. */
  method AddInto(a: array2<real>, b: array2<real>)
    requires a != b && a.Length1 == a.Length0 && b.Length0 == a.Length0 && b.Length1 == a.Length0
    modifies a
    ensures forall i, j :: 0 <= i < a.Length0 && 0 <= j < a.Length1 ==> a[i, j] == old(a[i, j]) + b[i, j]
  {
    var n := a.Length0;
    var i := 0;
    while i < n
      invariant 0 <= i <= n
      invariant forall r, c :: 0 <= r < n && 0 <= c < n ==>
        a[r, c] == (if r < i then old(a[r, c]) + b[r, c] else old(a[r, c]))
    {
      var j := 0;
      while j < n
        invariant 0 <= j <= n
        invariant forall r, c :: 0 <= r < n && 0 <= c < n ==>
          a[r, c] == (if r < i || (r == i && c < j) then old(a[r, c]) + b[r, c] else old(a[r, c]))
      {
        a[i, j] := a[i, j] + b[i, j];
        j := j + 1;
      }
      i := i + 1;
    }
  }

  /** `np.divide(num * disp, dist, out=out, where=where)`: writes the quotient
      where `where` holds and leaves `out` as it was elsewhere. */
  method DivideWhere(num: array2<real>, disp: Matrix, dist: Matrix, where: Mask, out: array2<real>)
    requires out != num
    requires num.Length1 == num.Length0 && out.Length0 == num.Length0 && out.Length1 == num.Length0
    requires IsSquare(disp, num.Length0) && IsSquare(dist, num.Length0) && IsSquare(where, num.Length0)
    requires forall i, j :: 0 <= i < num.Length0 && 0 <= j < num.Length0 && where[i][j] ==> dist[i][j] != 0.0
    modifies out
    ensures forall i, j :: 0 <= i < out.Length0 && 0 <= j < out.Length1 ==>
      out[i, j] == (if where[i][j] then num[i, j] * disp[i][j] / dist[i][j] else old(out[i, j]))
  {
    var n := num.Length0;
    var i := 0;
    while i < n
      invariant 0 <= i <= n
      invariant forall r, c :: 0 <= r < n && 0 <= c < n ==>
        out[r, c] == (if r < i && where[r][c] then num[r, c] * disp[r][c] / dist[r][c] else old(out[r, c]))
    {
      var j := 0;
      while j < n
        invariant 0 <= j <= n
        invariant forall r, c :: 0 <= r < n && 0 <= c < n ==>
          out[r, c] == (if (r < i || (r == i && c < j)) && where[r][c]
                        then num[r, c] * disp[r][c] / dist[r][c] else old(out[r, c]))
      {
        if where[i][j] {
          out[i, j] := num[i, j] * disp[i][j] / dist[i][j];
        }
        j := j + 1;
      }
      i := i + 1;
    }
  }

  /** `acc[:, col] += comp.sum(axis=1)`. */
  method AddRowSums(acc: array2<real>, col: nat, comp: array2<real>)
    requires acc != comp && comp.Length0 == acc.Length0 && col < acc.Length1
    modifies acc
    ensures forall i :: 0 <= i < acc.Length0 ==> acc[i, col] == old(acc[i, col]) + Sum(Snapshot(comp)[i])
    ensures forall i, c :: 0 <= i < acc.Length0 && 0 <= c < acc.Length1 && c != col ==> acc[i, c] == old(acc[i, c])
  {
    var n, m := acc.Length0, comp.Length1;
    ghost var rows := Snapshot(comp);
    var i := 0;
    while i < n
      invariant 0 <= i <= n
      invariant forall r :: 0 <= r < n ==> acc[r, col] == (if r < i then old(acc[r, col]) + Sum(rows[r]) else old(acc[r, col]))
      invariant forall r, c :: 0 <= r < n && 0 <= c < acc.Length1 && c != col ==> acc[r, c] == old(acc[r, c])
    {
      var s := 0.0;
      var j := 0;
      while j < m
        invariant 0 <= j <= m
        invariant s == Sum(rows[i][..j])
      {
        assert rows[i][..j + 1][..j] == rows[i][..j];
        s := s + comp[i, j];
        j := j + 1;
      }
      assert rows[i][..m] == rows[i];
      acc[i, col] := acc[i, col] + s;
      i := i + 1;
    }
  }

  /** `random_forces`, clipped to the noise bound when the term has one. */
  method RandomForces(term: ForceTerm, sample: Matrix, n: nat) returns (r: array2<real>)
    requires term.rndStdev.Some?
    requires IsSquare(sample, n)
    ensures fresh(r) && r.Length0 == n && r.Length1 == n
    ensures forall i, j :: 0 <= i < n && 0 <= j < n ==> r[i, j] == AddedNoise(term, sample[i][j])
  {
    r := FromMatrix(sample, n);
    if term.rndBound.Some? {
      var b := term.rndBound.value;
      AssignWhere(r, Above(Snapshot(r), b), b);
      AssignWhere(r, Below(Snapshot(r), -b), -b);
    }
  }

  /** Zeroes the entries whose distance lies outside the term's band and
      those its mask rules out. */
  method CutOff(forces: array2<real>, term: ForceTerm, dist: Matrix)
    requires forces.Length0 == forces.Length1 == |dist| && IsSquare(dist, |dist|)
    requires term.stateMask.Some? ==> IsSquare(term.stateMask.value, |dist|)
    modifies forces
    ensures forall i, j :: 0 <= i < |dist| && 0 <= j < |dist| ==>
      forces[i, j] == (if dist[i][j] < term.minRange || term.maxRange < dist[i][j] ||
                          !Allowed(term.stateMask, i, j) then 0.0 else old(forces[i, j]))
  {
    AssignWhere(forces, Below(dist, term.minRange), 0.0);
    AssignWhere(forces, Above(dist, term.maxRange), 0.0);
    if term.stateMask.Some? {
      AssignWhere(forces, Not(term.stateMask.value), 0.0);
    }
  }

  /**
   * One term's scalar forces: evaluate the law, add the noise, then zero
   * the entries outside the range band and outside the mask.
   */
  method TermScalarForces(term: ForceTerm, dist: Matrix, sample: Matrix, maths: Maths)
    returns (forces: array2<real>)
    requires TermFits(term, sample, dist, maths)
    ensures fresh(forces) && forces.Length0 == |dist| && forces.Length1 == |dist|
    ensures forall i, j :: 0 <= i < |dist| && 0 <= j < |dist| ==>
      forces[i, j] == ScalarForces(term, dist, sample, maths)[i][j]
  {
    var n := |dist|;
    var raw := EvalForce(term.func, dist, maths);
    forces := FromMatrix(raw, n);
    if term.rndStdev.Some? {
      var randomForces := RandomForces(term, sample, n);
      AddInto(forces, randomForces);
    }
    ghost var noisy := Snapshot(forces);
    assert forall i, j :: 0 <= i < n && 0 <= j < n ==> noisy[i][j] == raw[i][j] + AddedNoise(term, sample[i][j]);
    CutOff(forces, term, dist);
  }

  /** `x_forces` or `y_forces`: the scalar forces projected on one axis,
      written only off the diagonal of a zeroed array. */
  method ProjectOnAxis(forces: array2<real>, ghost F: Matrix, disp: Matrix, dist: Matrix)
    returns (out: array2<real>)
    requires forces.Length0 == forces.Length1 == |dist|
    requires IsSquare(F, |dist|) && IsSquare(disp, |dist|) && IsSquare(dist, |dist|)
    requires forall a, b :: 0 <= a < |dist| && 0 <= b < |dist| && a != b ==> dist[a][b] != 0.0
    requires forall a, b :: 0 <= a < |dist| && 0 <= b < |dist| ==> forces[a, b] == F[a][b]
    ensures fresh(out) && out.Length0 == |dist| && out.Length1 == |dist|
    ensures forall i :: 0 <= i < |dist| ==> Snapshot(out)[i] == Components(F, disp, dist, i)
  {
    var n := |dist|;
    out := new real[n, n]((i, j) => 0.0);
    DivideWhere(forces, disp, dist, SelfRefMask(n), out);
    forall i | 0 <= i < n
      ensures Snapshot(out)[i] == Components(F, disp, dist, i)
    {
      var row, expected := Snapshot(out)[i], Components(F, disp, dist, i);
      assert |row| == |expected| == n;
      forall j | 0 <= j < n ensures row[j] == expected[j] {
        assert row[j] == out[i, j];
      }
    }
  }

  /** Adds one term's force on every cell to the (y, x) accumulator. */
  method AccumulateTerm(acc: array2<real>, term: ForceTerm, D: Dists, sample: Matrix, maths: Maths)
    requires Separated(D) && TermFits(term, sample, D.d, maths)
    requires acc.Length0 == |D.d| && acc.Length1 == 2
    modifies acc
    ensures FieldOf(acc) == AddFields(old(FieldOf(acc)), TermForce(term, D, sample, maths))
  {
    ghost var before := FieldOf(acc);
    ghost var f := TermForce(term, D, sample, maths);
    var forces := TermScalarForces(term, D.d, sample, maths);
    ghost var F := ScalarForces(term, D.d, sample, maths);
    var xForces := ProjectOnAxis(forces, F, D.x, D.d);
    var yForces := ProjectOnAxis(forces, F, D.y, D.d);
    ghost var xRows, yRows := Snapshot(xForces), Snapshot(yForces);
    AddRowSums(acc, 0, yForces);
    AddRowSums(acc, 1, xForces);
    forall i | 0 <= i < |D.d| ensures FieldOf(acc)[i] == AddFields(before, f)[i] {
      assert yRows[i] == Components(F, D.y, D.d, i) && xRows[i] == Components(F, D.x, D.d, i);
      assert f[i] == Point(Sum(yRows[i]), Sum(xRows[i]));
    }
  }

  /** One more term adds its own force to the net force. */
  lemma NetForceStep(terms: seq<ForceTerm>, noise: seq<Matrix>, D: Dists, maths: Maths, t: nat)
    requires Separated(D)
    requires TermsFit(terms, noise, D.d, maths)
    requires t < |terms|
    ensures TermsFit(terms[..t], noise[..t], D.d, maths)
    ensures TermsFit(terms[..t + 1], noise[..t + 1], D.d, maths)
    ensures NetForce(terms[..t + 1], D, noise[..t + 1], maths) ==
      AddFields(NetForce(terms[..t], D, noise[..t], maths), TermForce(terms[t], D, noise[t], maths))
  {
    var ts, ns := terms[..t + 1], noise[..t + 1];
    assert ts[..t] == terms[..t] && ns[..t] == noise[..t];
  }

  /** The n×2 accumulator as (y, x) points: column 0 is y, column 1 is x. */
  function FieldOf(acc: array2<real>): (f: seq<Point>)
    reads acc
    requires acc.Length1 == 2
    ensures |f| == acc.Length0 && forall i :: 0 <= i < acc.Length0 ==> f[i] == Point(acc[i, 0], acc[i, 1])
  {
    seq(acc.Length0, i requires 0 <= i < acc.Length0 reads acc => Point(acc[i, 0], acc[i, 1]))
  }

  /**
   * One simulation step: the net force on every cell over all terms, and
   * the positions one Euler step on. The caller supplies one raw Gaussian
   * sample matrix per term (used only by terms with a noise level), and
   * the cells must be at non-zero distance from each other.
   */
  method Timestep(pos: seq<Point>, terms: seq<ForceTerm>, noise: seq<Matrix>, deltaT: real, maths: Maths)
    returns (posNew: seq<Point>, force: seq<Point>)
    requires Separated(GetDists(pos, maths.sqrt))
    requires TermsFit(terms, noise, GetDists(pos, maths.sqrt).d, maths)
    ensures force == NetForce(terms, GetDists(pos, maths.sqrt), noise, maths)
    ensures posNew == EulerStep(pos, force, deltaT)
  {
    var D := GetDists(pos, maths.sqrt);
    var n := |pos|;
    var acc := new real[n, 2]((i, c) => 0.0);
    var t := 0;
    while t < |terms|
      invariant 0 <= t <= |terms|
      invariant TermsFit(terms[..t], noise[..t], D.d, maths)
      invariant FieldOf(acc) == NetForce(terms[..t], D, noise[..t], maths)
    {
      NetForceStep(terms, noise, D, maths, t);
      AccumulateTerm(acc, terms[t], D, noise[t], maths);
      t := t + 1;
    }
    assert terms[..t] == terms && noise[..t] == noise;
    force := FieldOf(acc);
    posNew := EulerStep(pos, force, deltaT);
  }

}
