/**
 * The Lorenz-96 system on a ring of d >= 3 sites with forcing F = params[0]:
 *   x_i' = (x_{i+1} - x_{i-2}) x_{i-1} - x_i + F,   indices taken modulo d.
 */
module Lorenz96Ode {
  import opened Matrices

  /** One parameter, the forcing, is read. */
  predicate ParamsOk(params: seq<real>)
  {
    |params| >= 1
  }

  /** The unforced advection-and-damping term at a site, from its neighbours. */
  function Drift(prev2: real, prev: real, cur: real, next: real): real
  {
    (next - prev2) * prev - cur
  }

  /** Site `i` of a ring of `d` sites, for an index at most one lap off. */
  function Ring(i: int, d: int): (j: int)
    requires d > 0 && -d <= i < 2 * d
    ensures 0 <= j < d && (j == i - d || j == i || j == i + d)
  {
    if i < 0 then i + d else if i >= d then i - d else i
  }

  /** The unforced term at site `i` of the ring `x`, neighbours wrapping around. */
  function Site(x: seq<real>, i: int): real
    requires |x| >= 3 && 0 <= i < |x|
  {
    Drift(x[Ring(i - 2, |x|)], x[Ring(i - 1, |x|)], x[i], x[Ring(i + 1, |x|)])
  }

  /** The rate at one state: every site of the ring plus the forcing. */
  function Rate(x: seq<real>, params: seq<real>): (r: seq<real>)
    requires |x| >= 3 && ParamsOk(params)
    ensures |r| == |x|
  {
    seq(|x|, i requires 0 <= i < |x| => Site(x, i) + params[0])
  }

  /** The four shapes of neighbourhood: sites 0, 1, d-1 wrap, the interior does not. */
  lemma SiteCases(x: seq<real>, k: int)
    requires |x| >= 3 && 0 <= k < |x|
    ensures k == 0 ==> Site(x, k) == Drift(x[|x| - 2], x[|x| - 1], x[0], x[1])
    ensures k == 1 ==> Site(x, k) == Drift(x[|x| - 1], x[0], x[1], x[2])
    ensures k == |x| - 1 ==> Site(x, k) == Drift(x[|x| - 3], x[|x| - 2], x[|x| - 1], x[0])
    ensures 2 <= k < |x| - 1 ==> Site(x, k) == Drift(x[k - 2], x[k - 1], x[k], x[k + 1])
  {
  }

  /**
   * `lorenz96_ode(t, x, params)`: sites 0, 1 and d-1 are written first with
   * their wrapped neighbours, the interior 2 .. d-2 in a loop, and the
   * forcing is added to every site at the end.
   */
  method Ode(t: real, x: seq<real>, params: seq<real>) returns (xdot: seq<real>)
    requires |x| >= 3 && ParamsOk(params)
    ensures xdot == Rate(x, params)
  {
    var n := |x|;
    var buf := new real[n](_ => 0.0);
    buf[0] := Drift(x[n - 2], x[n - 1], x[0], x[1]);
    buf[1] := Drift(x[n - 1], x[0], x[1], x[2]);
    buf[n - 1] := Drift(x[n - 3], x[n - 2], x[n - 1], x[0]);
    SiteCases(x, 0);
    SiteCases(x, 1);
    SiteCases(x, n - 1);
    for i := 2 to n - 1
      invariant buf[0] == Site(x, 0) && buf[1] == Site(x, 1) && buf[n - 1] == Site(x, n - 1)
      invariant forall k :: 2 <= k < i ==> buf[k] == Site(x, k)
    {
      buf[i] := Drift(x[i - 2], x[i - 1], x[i], x[i + 1]);
      SiteCases(x, i);
    }
    var raw := buf[..];
    xdot := seq(n, k requires 0 <= k < n => raw[k] + params[0]);
  }

  /**
   * `lorenz96_ode_vec(X, params)`: over the rows `X[0:T-1]`, the columns
   * for sites 0 and 1, the block of interior sites 2 .. d-2, and the column
   * for site d-1, concatenated in that order.
   */
  function OdeVec(X: seq<seq<real>>, d: nat, params: seq<real>): (terms: seq<seq<real>>)
    requires IsMatrix(X, d) && d >= 3 && ParamsOk(params)
    ensures |terms| == Transitions(|X|) && IsMatrix(terms, d)
  {
    var F := params[0];
    var T := Transitions(|X|);
    var temp1 := seq(T, i requires 0 <= i < T =>
      seq(d - 3, j requires 0 <= j < d - 3 => Drift(X[i][j], X[i][j + 1], X[i][j + 2], X[i][j + 3]) + F));
    var temp2 := seq(T, i requires 0 <= i < T => Drift(X[i][d - 2], X[i][d - 1], X[i][0], X[i][1]) + F);
    var temp3 := seq(T, i requires 0 <= i < T => Drift(X[i][d - 1], X[i][0], X[i][1], X[i][2]) + F);
    var temp4 := seq(T, i requires 0 <= i < T => Drift(X[i][d - 3], X[i][d - 2], X[i][d - 1], X[i][0]) + F);
    HCat(HCat(HCat(Column(temp2), Column(temp3)), temp1), Column(temp4))
  }

  /** Row i of the batched form is the pointwise rate at `X[i]`, for every i < T - 1. */
  lemma OdeVecRow(X: seq<seq<real>>, d: nat, params: seq<real>, i: nat)
    requires IsMatrix(X, d) && d >= 3 && ParamsOk(params) && i + 1 < |X|
    ensures OdeVec(X, d, params)[i] == Rate(X[i], params)
  {
    var row, r := OdeVec(X, d, params)[i], Rate(X[i], params);
    forall k | 0 <= k < d
      ensures row[k] == r[k]
    {
      SiteCases(X[i], k);
    }
  }

  /** The uniform state F·1 is an equilibrium under forcing F. */
  lemma UniformStateIsEquilibrium(d: nat, params: seq<real>)
    requires d >= 3 && ParamsOk(params)
    ensures Rate(seq(d, _ => params[0]), params) == Zeros(d)
  {
    var F := params[0];
    var x := seq(d, _ => F);
    assert Drift(F, F, F, F) + F == 0.0 by {
      assert (F - F) * F == 0.0 * F;
    }
  }

  /** The forcing enters every site additively: the rate is the unforced rate plus F. */
  lemma ForcingIsUniform(x: seq<real>, params: seq<real>)
    requires |x| >= 3 && ParamsOk(params)
    ensures forall k :: 0 <= k < |x| ==> Rate(x, params)[k] == Rate(x, [0.0])[k] + params[0]
  {
  }
}
