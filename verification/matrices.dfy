/**
 * Real vectors and row-major matrices, the shapes the numpy code works on.
 * A T×d matrix is a sequence of T rows of width d; numpy keeps d in
 * `X.shape`, here it travels beside the rows.
 */
module Matrices {

  /** A vector of `n` zeros, as `np.zeros` / `np.zeros_like` allocate it. */
  function Zeros(n: nat): (z: seq<real>)
    ensures |z| == n
    ensures forall k :: 0 <= k < n ==> z[k] == 0.0
  {
    seq(n, _ => 0.0)
  }

  /** `X` has every row of width `d`. */
  predicate IsMatrix(X: seq<seq<real>>, d: nat)
  {
    forall i :: 0 <= i < |X| ==> |X[i]| == d
  }

  /**
   * The number of rows of the slice `X[0:T-1]` of a T-row matrix: T - 1,
   * and 0 for an empty matrix (numpy reads `0:-1` on no rows as no rows).
   */
  function Transitions(T: nat): nat
  {
    if T == 0 then 0 else T - 1
  }

  function Cube(r: real): real
  {
    r * r * r
  }

  /** `v.reshape(-1, 1)`: a vector as a one-column matrix. */
  function Column(v: seq<real>): (c: seq<seq<real>>)
    ensures |c| == |v| && IsMatrix(c, 1)
    ensures forall i :: 0 <= i < |v| ==> c[i] == [v[i]]
  {
    seq(|v|, i requires 0 <= i < |v| => [v[i]])
  }

  /** `np.concatenate((A, B), 1)`: side by side, row by row. */
  function HCat(A: seq<seq<real>>, B: seq<seq<real>>): (C: seq<seq<real>>)
    requires |A| == |B|
    ensures |C| == |A|
    ensures forall i :: 0 <= i < |A| ==> C[i] == A[i] + B[i]
  {
    seq(|A|, i requires 0 <= i < |A| => A[i] + B[i])
  }

  /** Element-wise difference `a - b`. */
  function VecSub(a: seq<real>, b: seq<real>): (c: seq<real>)
    requires |a| == |b|
    ensures |c| == |a|
    ensures forall k :: 0 <= k < |a| ==> c[k] == a[k] - b[k]
  {
    seq(|a|, k requires 0 <= k < |a| => a[k] - b[k])
  }

  /** `r ** 2` */
  function Square(r: real): real
  {
    r * r
  }

  /** Element-wise negation `-v`. */
  function Neg(v: seq<real>): (w: seq<real>)
    ensures |w| == |v|
    ensures forall k :: 0 <= k < |v| ==> w[k] == -v[k]
  {
    seq(|v|, k requires 0 <= k < |v| => -v[k])
  }

  /** `np.sum(v ** 2)` on a vector. */
  function SumSquares(v: seq<real>): (r: real)
    ensures r >= 0.0
  {
    if |v| == 0 then 0.0 else Square(v[0]) + SumSquares(v[1..])
  }

  /** `np.sum(M ** 2)` on a matrix: the squares of every entry of every row. */
  function SumSquaresRows(M: seq<seq<real>>): (r: real)
    ensures r >= 0.0
  {
    if |M| == 0 then 0.0 else SumSquares(M[0]) + SumSquaresRows(M[1..])
  }

  /** A sum of squares vanishes exactly when every entry does. */
  lemma {:induction false} SumSquaresZero(v: seq<real>)
    ensures SumSquares(v) == 0.0 <==> v == Zeros(|v|)
  {
    if |v| > 0 {
      SumSquaresZero(v[1..]);
      assert Zeros(|v|) == [0.0] + Zeros(|v| - 1);
      assert v == [v[0]] + v[1..];
      if v[0] != 0.0 {
        SquarePositive(v[0]);
        assert v[0] != Zeros(|v|)[0];
      }
    }
  }

  /** A nonzero entry squares to a positive value. */
  lemma SquarePositive(h: real)
    requires h != 0.0
    ensures Square(h) > 0.0
  {
    var g := if h > 0.0 then h else -h;
    calc {
      Square(h);
      g * g;
    > { assert g * g > 0.0 * g; }
      0.0 * g;
      0.0;
    }
  }

  /** A matrix sum of squares vanishes exactly when every row is a zero vector. */
  lemma {:induction false} SumSquaresRowsZero(M: seq<seq<real>>)
    ensures SumSquaresRows(M) == 0.0 <==> forall i :: 0 <= i < |M| ==> M[i] == Zeros(|M[i]|)
  {
    if |M| > 0 {
      SumSquaresRowsZero(M[1..]);
      SumSquaresZero(M[0]);
      assert forall i :: 1 <= i < |M| ==> M[1..][i - 1] == M[i];
    }
  }

  /** Adding the same shift `c` to every entry: the squared distance is |x|·c². */
  lemma {:induction false} SumSquaresOfShift(a: seq<real>, b: seq<real>, c: real)
    requires |a| == |b|
    requires forall k :: 0 <= k < |a| ==> b[k] == a[k] + c
    ensures SumSquares(VecSub(a, b)) == (|a| as real) * c * c
  {
    if |a| > 0 {
      SumSquaresOfShift(a[1..], b[1..], c);
      assert VecSub(a, b)[1..] == VecSub(a[1..], b[1..]);
    }
  }

  lemma {:induction false} MulAtLeast(a: int, n: int)
    requires a >= 1 && n > 0
    ensures a * n >= n
  {
    if a > 1 {
      MulAtLeast(a - 1, n);
      assert a * n == (a - 1) * n + n;
    }
  }

  /** Euclidean division of `j*n + i` by `n` when `0 <= i < n`. */
  lemma DivModOfLinear(j: int, n: int, i: int)
    requires n > 0 && 0 <= i < n
    ensures (j * n + i) / n == j && (j * n + i) % n == i
  {
    var q, r := (j * n + i) / n, (j * n + i) % n;
    assert q * n + r == j * n + i;
    assert (q - j) * n == i - r;
    if q > j {
      MulAtLeast(q - j, n);
    } else if q < j {
      MulAtLeast(j - q, n);
    }
  }

  /** An index below `n * d` splits into a row below `n` and a column below `d`. */
  lemma IndexSplit(k: int, n: int, d: int)
    requires n > 0 && 0 <= k < n * d
    ensures 0 <= k / n < d && 0 <= k % n < n && (k / n) * n + k % n == k
  {
    var q := k / n;
    assert q * n + k % n == k;
    if q >= d {
      MulAtLeast(q - d + 1, n);
    }
  }

  /** Column `j` and row `i` of an n-row, d-column block land below `n * d`. */
  lemma IndexJoin(j: int, n: int, i: int, d: int)
    requires 0 <= i < n && 0 <= j < d
    ensures 0 <= j * n + i < d * n
  {
    if j < d - 1 {
      MulAtLeast(d - 1 - j, n);
      assert (d - 1) * n == j * n + (d - 1 - j) * n;
    }
    assert d * n == (d - 1) * n + n;
  }
}
