/**
 * The Lotka–Volterra vector field with parameters (a, b, c, d):
 *   x0' = a x0 - b x0 x1,   x1' = -c x1 + d x0 x1.
 */
module LotkaVolterraOde {
  import opened Matrices

  /** Four parameters are read. */
  predicate ParamsOk(params: seq<real>)
  {
    |params| >= 4
  }

  /** The prey equation, a u - b u v, at prey u and predators v. */
  function PreyRate(u: real, v: real, params: seq<real>): real
    requires ParamsOk(params)
  {
    params[0] * u - params[1] * u * v
  }

  /** The predator equation, -c v + d u v. */
  function PredatorRate(u: real, v: real, params: seq<real>): real
    requires ParamsOk(params)
  {
    -params[2] * v + params[3] * u * v
  }

  /** The rate at one state, with the length of `x` and zeros beyond entry 1. */
  function Rate(x: seq<real>, params: seq<real>): (r: seq<real>)
    requires |x| >= 2 && ParamsOk(params)
    ensures |r| == |x|
  {
    [PreyRate(x[0], x[1], params), PredatorRate(x[0], x[1], params)] + Zeros(|x| - 2)
  }

  /** `lotka_volterra_ode(t, x, params)`: fills a fresh zero array entry by entry. */
  method Ode(t: real, x: seq<real>, params: seq<real>) returns (xdot: seq<real>)
    requires |x| >= 2 && ParamsOk(params)
    ensures xdot == Rate(x, params)
  {
    var buf := new real[|x|](_ => 0.0);
    buf[0] := PreyRate(x[0], x[1], params);
    buf[1] := PredatorRate(x[0], x[1], params);
    xdot := buf[..];
    assert xdot == [buf[0], buf[1]] + Zeros(|x| - 2);
  }

  /** `lotka_volterra_ode_vec(X, params)`: two columns over the rows `X[0:T-1]`. */
  function OdeVec(X: seq<seq<real>>, d: nat, params: seq<real>): (terms: seq<seq<real>>)
    requires IsMatrix(X, d) && d >= 2 && ParamsOk(params)
    ensures |terms| == Transitions(|X|) && IsMatrix(terms, 2)
  {
    var T := Transitions(|X|);
    var t1 := seq(T, i requires 0 <= i < T => PreyRate(X[i][0], X[i][1], params));
    var t2 := seq(T, i requires 0 <= i < T => PredatorRate(X[i][0], X[i][1], params));
    HCat(Column(t1), Column(t2))
  }

  /** Row i of the batched form is the pointwise rate at `X[i]`, for every i < T - 1. */
  lemma OdeVecRow(X: seq<seq<real>>, params: seq<real>, i: nat)
    requires IsMatrix(X, 2) && ParamsOk(params) && i + 1 < |X|
    ensures OdeVec(X, 2, params)[i] == Rate(X[i], params)
  {
    assert Zeros(0) == [];
  }

  /** With no prey there is no prey growth, and (0, 0) does not move. */
  lemma NoPreyNoGrowth(x: seq<real>, params: seq<real>)
    requires |x| >= 2 && ParamsOk(params) && x[0] == 0.0
    ensures Rate(x, params)[0] == 0.0
    ensures x[1] == 0.0 ==> Rate(x, params) == Zeros(|x|)
  {
  }
}
