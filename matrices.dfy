/**
 * Dense matrices over the reals as sequences of rows, the finite sums the
 * simulation takes over them, and the facts about those sums that the
 * force balance rests on.
 */
module Matrices {

  type Matrix = seq<seq<real>>
  type Mask = seq<seq<bool>>

  /** `m` has `n` rows of `n` entries each. */
  predicate IsSquare<T>(m: seq<seq<T>>, n: nat)
  {
    |m| == n && forall i :: 0 <= i < n ==> |m[i]| == n
  }

  /** Every row of `m` has `k` entries. */
  predicate HasColumns<T>(m: seq<seq<T>>, k: nat)
  {
    forall i :: 0 <= i < |m| ==> |m[i]| == k
  }

  predicate Symmetric<T(==)>(m: seq<seq<T>>)
    requires IsSquare(m, |m|)
  {
    forall i, j :: 0 <= i < |m| && 0 <= j < |m| ==> m[i][j] == m[j][i]
  }

  predicate Antisymmetric(m: Matrix)
    requires IsSquare(m, |m|)
  {
    forall i, j :: 0 <= i < |m| && 0 <= j < |m| ==> m[i][j] == -m[j][i]
  }

  /** Applies `f` to every entry: the shape of NumPy's elementwise expressions. */
  function Elementwise(m: Matrix, f: real -> real): (r: Matrix)
    ensures |r| == |m|
    ensures forall i :: 0 <= i < |m| ==> |r[i]| == |m[i]|
    ensures forall i, j :: 0 <= i < |m| && 0 <= j < |m[i]| ==> r[i][j] == f(m[i][j])
  {
    seq(|m|, i requires 0 <= i < |m| => seq(|m[i]|, j requires 0 <= j < |m[i]| => f(m[i][j])))
  }

  /** The boolean matrix `m > v`. */
  function Above(m: Matrix, v: real): (r: Mask)
    ensures |r| == |m|
    ensures forall i :: 0 <= i < |m| ==> |r[i]| == |m[i]|
    ensures forall i, j :: 0 <= i < |m| && 0 <= j < |m[i]| ==> (r[i][j] <==> m[i][j] > v)
  {
    seq(|m|, i requires 0 <= i < |m| => seq(|m[i]|, j requires 0 <= j < |m[i]| => m[i][j] > v))
  }

  /** The boolean matrix `m < v`. */
  function Below(m: Matrix, v: real): (r: Mask)
    ensures |r| == |m|
    ensures forall i :: 0 <= i < |m| ==> |r[i]| == |m[i]|
    ensures forall i, j :: 0 <= i < |m| && 0 <= j < |m[i]| ==> (r[i][j] <==> m[i][j] < v)
  {
    seq(|m|, i requires 0 <= i < |m| => seq(|m[i]|, j requires 0 <= j < |m[i]| => m[i][j] < v))
  }

  /** The boolean matrix `~m`. */
  function Not(m: Mask): (r: Mask)
    ensures |r| == |m|
    ensures forall i :: 0 <= i < |m| ==> |r[i]| == |m[i]|
    ensures forall i, j :: 0 <= i < |m| && 0 <= j < |m[i]| ==> (r[i][j] <==> !m[i][j])
  {
    seq(|m|, i requires 0 <= i < |m| => seq(|m[i]|, j requires 0 <= j < |m[i]| => !m[i][j]))
  }

  /** The sum of a sequence, taken from the front. */
  function Sum(s: seq<real>): real
  {
    if |s| == 0 then 0.0 else Sum(s[..|s| - 1]) + s[|s| - 1]
  }

  lemma {:induction false} SumZero(s: seq<real>)
    requires forall k :: 0 <= k < |s| ==> s[k] == 0.0
    ensures Sum(s) == 0.0
  {
    if |s| > 0 {
      SumZero(s[..|s| - 1]);
    }
  }

  /** Summing is additive in the summands. */
  lemma {:induction false} SumAdd(c: seq<real>, a: seq<real>, b: seq<real>)
    requires |c| == |a| == |b|
    requires forall k :: 0 <= k < |c| ==> c[k] == a[k] + b[k]
    ensures Sum(c) == Sum(a) + Sum(b)
  {
    if |c| > 0 {
      var n := |c| - 1;
      SumAdd(c[..n], a[..n], b[..n]);
    }
  }

  /** A constant factor comes out of a sum. */
  lemma {:induction false} SumScale(c: seq<real>, a: seq<real>, factor: real)
    requires |c| == |a|
    requires forall k :: 0 <= k < |c| ==> c[k] == factor * a[k]
    ensures Sum(c) == factor * Sum(a)
  {
    if |c| > 0 {
      var n := |c| - 1;
      SumScale(c[..n], a[..n], factor);
    }
  }

  /** Shifting each value by `factor` times a summand of a zero sum keeps
      the total. */
  lemma ShiftKeepsTotal(next: seq<real>, base: seq<real>, delta: seq<real>, factor: real)
    requires |next| == |base| == |delta|
    requires forall k :: 0 <= k < |next| ==> next[k] == base[k] + factor * delta[k]
    requires Sum(delta) == 0.0
    ensures Sum(next) == Sum(base)
  {
    var scaled := seq(|delta|, k requires 0 <= k < |delta| => factor * delta[k]);
    SumScale(scaled, delta, factor);
    assert Sum(scaled) == 0.0;
    SumAdd(next, base, scaled);
  }

  /** The sums of the rows of `m`, as `m.sum(axis=1)`. */
  function RowSums(m: Matrix): (r: seq<real>)
    ensures |r| == |m|
    ensures forall i :: 0 <= i < |m| ==> r[i] == Sum(m[i])
  {
    seq(|m|, i requires 0 <= i < |m| => Sum(m[i]))
  }

  function Column(m: Matrix, j: nat): (c: seq<real>)
    requires forall i :: 0 <= i < |m| ==> j < |m[i]|
    ensures |c| == |m|
    ensures forall i :: 0 <= i < |m| ==> c[i] == m[i][j]
  {
    seq(|m|, i requires 0 <= i < |m| => m[i][j])
  }

  /** The sums of the `k` columns of `m`, as `m.sum(axis=0)`. */
  function ColumnSums(m: Matrix, k: nat): (r: seq<real>)
    requires HasColumns(m, k)
    ensures |r| == k
    ensures forall j :: 0 <= j < k ==> r[j] == Sum(Column(m, j))
  {
    seq(k, j requires 0 <= j < k => Sum(Column(m, j)))
  }

  /** Adding up a matrix row by row or column by column gives the same total. */
  lemma {:induction false} RowsThenColumns(m: Matrix, k: nat)
    requires HasColumns(m, k)
    ensures Sum(RowSums(m)) == Sum(ColumnSums(m, k))
    decreases k
  {
    if k == 0 {
      forall i | 0 <= i < |m| ensures RowSums(m)[i] == 0.0 {
        assert m[i] == [];
      }
      SumZero(RowSums(m));
    } else {
      var front := DropLastColumn(m, k);
      RowsThenColumns(front, k - 1);
      RowSumsSplit(m, k);
      ColumnSumsSplit(m, k);
    }
  }

  /** `m` without its last (k-th) column. */
  function DropLastColumn(m: Matrix, k: nat): (front: Matrix)
    requires 0 < k && HasColumns(m, k)
    ensures |front| == |m| && HasColumns(front, k - 1)
    ensures forall i :: 0 <= i < |m| ==> front[i] == m[i][..k - 1]
  {
    seq(|m|, i requires 0 <= i < |m| => m[i][..k - 1])
  }

  lemma RowSumsSplit(m: Matrix, k: nat)
    requires 0 < k && HasColumns(m, k)
    ensures Sum(RowSums(m)) == Sum(RowSums(DropLastColumn(m, k))) + Sum(Column(m, k - 1))
  {
    var front, last := DropLastColumn(m, k), Column(m, k - 1);
    forall i | 0 <= i < |m| ensures RowSums(m)[i] == RowSums(front)[i] + last[i] {
      assert m[i][..k - 1] == front[i];
    }
    SumAdd(RowSums(m), RowSums(front), last);
  }

  lemma ColumnSumsSplit(m: Matrix, k: nat)
    requires 0 < k && HasColumns(m, k)
    ensures Sum(ColumnSums(m, k)) == Sum(ColumnSums(DropLastColumn(m, k), k - 1)) + Sum(Column(m, k - 1))
  {
    var front := DropLastColumn(m, k);
    forall j | 0 <= j < k - 1 ensures ColumnSums(m, k)[j] == ColumnSums(front, k - 1)[j] {
      assert Column(m, j) == Column(front, j);
    }
    assert ColumnSums(m, k)[..k - 1] == ColumnSums(front, k - 1);
  }

  /** The entries of an antisymmetric matrix add up to zero. */
  lemma AntisymmetricTotalIsZero(m: Matrix)
    requires IsSquare(m, |m|)
    requires Antisymmetric(m)
    ensures Sum(RowSums(m)) == 0.0
  {
    ColumnTotalsNegateRowTotals(m);
    RowsThenColumns(m, |m|);
  }

  lemma ColumnTotalsNegateRowTotals(m: Matrix)
    requires IsSquare(m, |m|)
    requires Antisymmetric(m)
    ensures Sum(ColumnSums(m, |m|)) == -Sum(RowSums(m))
  {
    var rows, columns := RowSums(m), ColumnSums(m, |m|);
    forall j | 0 <= j < |m| ensures columns[j] == -rows[j] {
      ColumnIsNegatedRow(m, j);
    }
    SumNegate(columns, rows);
  }

  lemma ColumnIsNegatedRow(m: Matrix, j: nat)
    requires IsSquare(m, |m|)
    requires Antisymmetric(m)
    requires j < |m|
    ensures Sum(Column(m, j)) == -Sum(m[j])
  {
    var c := Column(m, j);
    forall i | 0 <= i < |m| ensures c[i] == -m[j][i] {
      assert m[i][j] == -m[j][i];
    }
    SumNegate(c, m[j]);
  }

  lemma {:induction false} SumNegate(c: seq<real>, a: seq<real>)
    requires |c| == |a|
    requires forall k :: 0 <= k < |c| ==> c[k] == -a[k]
    ensures Sum(c) == -Sum(a)
  {
    if |c| > 0 {
      var n := |c| - 1;
      SumNegate(c[..n], a[..n]);
    }
  }

}
