/**
 * The FitzHugh–Nagumo vector field with parameters (a, b, c) = params[0..3]:
 *   v' = c (v - v³/3 + w),   w' = -(1/c) (v - a + b w),
 * where the state is x = (v, w).
 */
module FitzhughNagumoOde {
  import opened Matrices

  /** Three parameters are read; both forms divide by `c`. */
  predicate ParamsOk(params: seq<real>)
  {
    |params| >= 3 && params[2] != 0.0
  }

  /** The voltage equation c (v - v³/3 + w). */
  function VoltageRate(v: real, w: real, params: seq<real>): real
    requires ParamsOk(params)
  {
    params[2] * (v - Cube(v) / 3.0 + w)
  }

  /** The recovery equation -(1/c) (v - a + b w). */
  function RecoveryRate(v: real, w: real, params: seq<real>): real
    requires ParamsOk(params)
  {
    -(1.0 / params[2]) * (v - params[0] + params[1] * w)
  }

  /**
   * The rate at one state. Like `np.zeros_like(x)` filled at 0 and 1, the
   * result has the length of `x` and zeros beyond the first two entries.
   */
  function Rate(x: seq<real>, params: seq<real>): (r: seq<real>)
    requires |x| >= 2 && ParamsOk(params)
    ensures |r| == |x|
  {
    [VoltageRate(x[0], x[1], params), RecoveryRate(x[0], x[1], params)] + Zeros(|x| - 2)
  }

  /** `fitzhugh_nagumo_ode(t, x, params)`: fills a fresh zero array entry by entry. */
  method Ode(t: real, x: seq<real>, params: seq<real>) returns (xdot: seq<real>)
    requires |x| >= 2 && ParamsOk(params)
    ensures xdot == Rate(x, params)
  {
    var buf := new real[|x|](_ => 0.0);
    buf[0] := VoltageRate(x[0], x[1], params);
    buf[1] := RecoveryRate(x[0], x[1], params);
    xdot := buf[..];
    assert xdot == [buf[0], buf[1]] + Zeros(|x| - 2);
  }

  /**
   * `fitzhugh_nagumo_ode_vec(X, params)`: the two derivative columns over
   * the rows `X[0:T-1]`, concatenated side by side.
   */
  function OdeVec(X: seq<seq<real>>, d: nat, params: seq<real>): (terms: seq<seq<real>>)
    requires IsMatrix(X, d) && d >= 2 && ParamsOk(params)
    ensures |terms| == Transitions(|X|) && IsMatrix(terms, 2)
  {
    var T := Transitions(|X|);
    var t1 := seq(T, i requires 0 <= i < T => VoltageRate(X[i][0], X[i][1], params));
    var t2 := seq(T, i requires 0 <= i < T => RecoveryRate(X[i][0], X[i][1], params));
    HCat(Column(t1), Column(t2))
  }

  /** Row i of the batched form is the pointwise rate at `X[i]`, for every i < T - 1. */
  lemma OdeVecRow(X: seq<seq<real>>, params: seq<real>, i: nat)
    requires IsMatrix(X, 2) && ParamsOk(params) && i + 1 < |X|
    ensures OdeVec(X, 2, params)[i] == Rate(X[i], params)
  {
    assert Zeros(0) == [];
  }

  /** Only `x[0]` and `x[1]` are read; every later entry of the rate is 0. */
  lemma RateReadsFirstTwo(x: seq<real>, y: seq<real>, params: seq<real>)
    requires |x| >= 2 && |y| == |x| && ParamsOk(params)
    requires x[0] == y[0] && x[1] == y[1]
    ensures Rate(x, params) == Rate(y, params)
    ensures forall k :: 2 <= k < |x| ==> Rate(x, params)[k] == 0.0
  {
  }
}
