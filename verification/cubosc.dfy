/**
 * The cubic oscillator with parameters (a, b) = params[0..2]:
 *   x' = -a x³ + b y³,   y' = -b x³ - a y³.
 * Only the pointwise form is modelled; no caller reaches it by name.
 */
module CuboscOde {
  import opened Matrices

  /** Two parameters are read. */
  predicate ParamsOk(params: seq<real>)
  {
    |params| >= 2
  }

  function XRate(x: real, y: real, params: seq<real>): real
    requires ParamsOk(params)
  {
    -params[0] * Cube(x) + params[1] * Cube(y)
  }

  function YRate(x: real, y: real, params: seq<real>): real
    requires ParamsOk(params)
  {
    -params[1] * Cube(x) - params[0] * Cube(y)
  }

  /** The rate at one state, with the length of `s` and zeros beyond entry 1. */
  function Rate(s: seq<real>, params: seq<real>): (r: seq<real>)
    requires |s| >= 2 && ParamsOk(params)
    ensures |r| == |s|
  {
    [XRate(s[0], s[1], params), YRate(s[0], s[1], params)] + Zeros(|s| - 2)
  }

  /** `cubosc_ode(t, x, params)`: fills a fresh zero array entry by entry. */
  method Ode(t: real, s: seq<real>, params: seq<real>) returns (xdot: seq<real>)
    requires |s| >= 2 && ParamsOk(params)
    ensures xdot == Rate(s, params)
  {
    var buf := new real[|s|](_ => 0.0);
    buf[0] := XRate(s[0], s[1], params);
    buf[1] := YRate(s[0], s[1], params);
    xdot := buf[..];
    assert xdot == [buf[0], buf[1]] + Zeros(|s| - 2);
  }

  /**
   * Only `params[0]` and `params[1]` are read, and every entry of the rate
   * past the second is 0.
   */
  lemma RateReadsTwoParams(s: seq<real>, p: seq<real>, q: seq<real>)
    requires |s| >= 2 && ParamsOk(p) && ParamsOk(q) && p[0] == q[0] && p[1] == q[1]
    ensures Rate(s, p) == Rate(s, q)
    ensures forall k :: 2 <= k < |s| ==> Rate(s, p)[k] == 0.0
  {
    assert p[..2] == q[..2];
    assert XRate(s[0], s[1], p) == XRate(s[0], s[1], q);
    assert YRate(s[0], s[1], p) == YRate(s[0], s[1], q);
  }

  lemma CubeOdd(r: real)
    ensures Cube(-r) == -Cube(r)
  {
    calc {
      Cube(-r);
      (-r) * (-r) * (-r);
      (r * r) * (-r);
      -(r * r * r);
    }
  }

  /** The field is odd, f(-s) = -f(s); in particular the origin does not move. */
  lemma RateIsOdd(s: seq<real>, params: seq<real>)
    requires |s| >= 2 && ParamsOk(params)
    ensures Rate(Neg(s), params) == Neg(Rate(s, params))
    ensures Rate(Zeros(|s|), params) == Zeros(|s|)
  {
    CubeOdd(s[0]);
    CubeOdd(s[1]);
    var r, n := Rate(Neg(s), params), Neg(Rate(s, params));
    assert r[0] == XRate(-s[0], -s[1], params) == -XRate(s[0], s[1], params);
    assert r[1] == YRate(-s[0], -s[1], params) == -YRate(s[0], s[1], params);
    assert forall k :: 0 <= k < |s| ==> r[k] == n[k];
    assert Cube(0.0) == 0.0;
    assert XRate(0.0, 0.0, params) == 0.0 && YRate(0.0, 0.0, params) == 0.0;
  }
}
