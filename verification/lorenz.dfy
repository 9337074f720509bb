/**
 * The Lorenz system with parameters (sigma, rho, beta) = params[0..3]:
 *   x' = sigma (y - x),   y' = x (rho - z) - y,   z' = x y - beta z.
 */
module LorenzOde {
  import opened Matrices

  /** Three parameters are read. */
  predicate ParamsOk(params: seq<real>)
  {
    |params| >= 3
  }

  function XRate(x: real, y: real, z: real, params: seq<real>): real
    requires ParamsOk(params)
  {
    params[0] * (y - x)
  }

  function YRate(x: real, y: real, z: real, params: seq<real>): real
    requires ParamsOk(params)
  {
    x * (params[1] - z) - y
  }

  function ZRate(x: real, y: real, z: real, params: seq<real>): real
    requires ParamsOk(params)
  {
    x * y - params[2] * z
  }

  /** The rate at one state, with the length of `s` and zeros beyond entry 2. */
  function Rate(s: seq<real>, params: seq<real>): (r: seq<real>)
    requires |s| >= 3 && ParamsOk(params)
    ensures |r| == |s|
  {
    [XRate(s[0], s[1], s[2], params), YRate(s[0], s[1], s[2], params), ZRate(s[0], s[1], s[2], params)]
      + Zeros(|s| - 3)
  }

  /** `lorenz_ode(t, x, params)`: fills a fresh zero array entry by entry. */
  method Ode(t: real, s: seq<real>, params: seq<real>) returns (xdot: seq<real>)
    requires |s| >= 3 && ParamsOk(params)
    ensures xdot == Rate(s, params)
  {
    var buf := new real[|s|](_ => 0.0);
    buf[0] := XRate(s[0], s[1], s[2], params);
    buf[1] := YRate(s[0], s[1], s[2], params);
    buf[2] := ZRate(s[0], s[1], s[2], params);
    xdot := buf[..];
    assert xdot == [buf[0], buf[1], buf[2]] + Zeros(|s| - 3);
  }

  /** `lorenz_ode_vec(X, params)`: three columns over the rows `X[0:T-1]`. */
  function OdeVec(X: seq<seq<real>>, d: nat, params: seq<real>): (terms: seq<seq<real>>)
    requires IsMatrix(X, d) && d >= 3 && ParamsOk(params)
    ensures |terms| == Transitions(|X|) && IsMatrix(terms, 3)
  {
    var T := Transitions(|X|);
    var t1 := seq(T, i requires 0 <= i < T => XRate(X[i][0], X[i][1], X[i][2], params));
    var t2 := seq(T, i requires 0 <= i < T => YRate(X[i][0], X[i][1], X[i][2], params));
    var t3 := seq(T, i requires 0 <= i < T => ZRate(X[i][0], X[i][1], X[i][2], params));
    HCat(HCat(Column(t1), Column(t2)), Column(t3))
  }

  /** Row i of the batched form is the pointwise rate at `X[i]`, for every i < T - 1. */
  lemma OdeVecRow(X: seq<seq<real>>, params: seq<real>, i: nat)
    requires IsMatrix(X, 3) && ParamsOk(params) && i + 1 < |X|
    ensures OdeVec(X, 3, params)[i] == Rate(X[i], params)
  {
    assert Zeros(0) == [];
  }

  /** The origin is an equilibrium for every choice of parameters. */
  lemma OriginIsEquilibrium(d: nat, params: seq<real>)
    requires d >= 3 && ParamsOk(params)
    ensures Rate(Zeros(d), params) == Zeros(d)
  {
  }
}
