/**
 * The distance engine: pairwise displacement and Euclidean distance
 * matrices of the cell positions (`get_dists`).
 */
module Distances {

  import opened Matrices
  import opened RealMath

  /** A pair `(y, x)`: a cell position, one row of the position array, and
      also a force vector, one row of the n×2 force array. */
  datatype Point = Point(y: real, x: real)

  /** The x and y displacement matrices and the Euclidean distance matrix. */
  datatype Dists = Dists(x: Matrix, y: Matrix, d: Matrix)

  /** The three matrices are n×n and no off-diagonal distance is zero, so the
      decomposition may divide by every distance it uses. */
  predicate Separated(D: Dists)
  {
    var n := |D.d|;
    IsSquare(D.x, n) && IsSquare(D.y, n) && IsSquare(D.d, n) &&
    forall i, j :: 0 <= i < n && 0 <= j < n && i != j ==> D.d[i][j] != 0.0
  }

  /**
   * `x_dist[i][j] = pos[j].x - pos[i].x`, `y_dist` likewise, and
   * `dist[i][j] = sqrt(x_dist[i][j]^2 + y_dist[i][j]^2)`.
   */
  function GetDists(pos: seq<Point>, sqrt: real -> real): (D: Dists)
    ensures IsSquare(D.x, |pos|) && IsSquare(D.y, |pos|) && IsSquare(D.d, |pos|)
    ensures forall i, j :: 0 <= i < |pos| && 0 <= j < |pos| ==>
      D.x[i][j] == pos[j].x - pos[i].x && D.y[i][j] == pos[j].y - pos[i].y
    ensures Antisymmetric(D.x) && Antisymmetric(D.y)
    ensures forall i :: 0 <= i < |pos| ==> D.x[i][i] == 0.0 && D.y[i][i] == 0.0
    ensures forall i, j :: 0 <= i < |pos| && 0 <= j < |pos| ==>
      D.d[i][j] == sqrt(SquaredLength(D.x[i][j], D.y[i][j]))
  {
    var n := |pos|;
    var x := seq(n, i requires 0 <= i < n => seq(n, j requires 0 <= j < n => pos[j].x - pos[i].x));
    var y := seq(n, i requires 0 <= i < n => seq(n, j requires 0 <= j < n => pos[j].y - pos[i].y));
    var d := seq(n, i requires 0 <= i < n =>
                    seq(n, j requires 0 <= j < n => sqrt(SquaredLength(x[i][j], y[i][j]))));
    Dists(x, y, d)
  }

  /**
   * With a lawful square root the distance matrix is a Euclidean distance
   * matrix: non-negative, symmetric, its square is the sum of the squared
   * displacements, and zero between cells at the same place (so on the
   * diagonal).
   */
  lemma DistanceProperties(pos: seq<Point>, sqrt: real -> real, i: nat, j: nat)
    requires IsSqrt(sqrt)
    requires i < |pos| && j < |pos|
    ensures var D := GetDists(pos, sqrt);
      && 0.0 <= D.d[i][j]
      && D.d[i][j] * D.d[i][j] == D.x[i][j] * D.x[i][j] + D.y[i][j] * D.y[i][j]
      && D.d[i][j] == D.d[j][i]
      && (pos[i] == pos[j] ==> D.d[i][j] == 0.0)
  {
    var D := GetDists(pos, sqrt);
    var dx, dy := D.x[i][j], D.y[i][j];
    SquaredLengthNonNegative(dx, dy);
    assert SquaredLength(D.x[j][i], D.y[j][i]) == SquaredLength(dx, dy) by {
      assert D.x[j][i] == -dx && D.y[j][i] == -dy;
      SquaredLengthEven(dx, dy);
    }
    if pos[i] == pos[j] {
      assert dx == 0.0 && dy == 0.0;
      SquaredLengthZero();
    }
  }

  /** `dx^2 + dy^2`. */
  function SquaredLength(dx: real, dy: real): real
  {
    dx * dx + dy * dy
  }

  lemma SquaredLengthNonNegative(dx: real, dy: real)
    ensures 0.0 <= SquaredLength(dx, dy)
  {
  }

  lemma SquaredLengthEven(dx: real, dy: real)
    ensures SquaredLength(-dx, -dy) == SquaredLength(dx, dy)
  {
  }

  lemma SquaredLengthZero()
    ensures SquaredLength(0.0, 0.0) == 0.0
  {
  }

  /** The distance matrix is symmetric whatever square root is used, since
      swapping two cells only negates both displacements. */
  lemma DistanceSymmetric(pos: seq<Point>, sqrt: real -> real)
    ensures Symmetric(GetDists(pos, sqrt).d)
  {
    var D := GetDists(pos, sqrt);
    forall i, j | 0 <= i < |pos| && 0 <= j < |pos| ensures D.d[i][j] == D.d[j][i] {
      assert D.x[j][i] == -D.x[i][j] && D.y[j][i] == -D.y[i][j];
      SquaredLengthEven(D.x[i][j], D.y[i][j]);
    }
  }

}
