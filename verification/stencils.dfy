/**
 * The three explicit stencils shared by the forward predictor and the
 * residual objectives: the Euler step and the Adams–Bashforth 2- and
 * 3-step formulas, written once as a forward step (how the predictor
 * marches) and once as a residual (how the objectives score a row).
 */
module Stencils {
  import opened Matrices

  /** The discretisation tag `appr`. */
  datatype Scheme = Euler | AB2 | AB3

  /**
   * How the string `appr` selects a stencil: "euler", "ad2", and every
   * other string falls into the final `else` branches, which are the
   * 3-step method.
   */
  function SchemeOf(appr: string): (s: Scheme)
    ensures s == Euler <==> appr == "euler"
    ensures s == AB2 <==> appr == "ad2"
    ensures s == AB3 <==> appr != "euler" && appr != "ad2"
  {
    if appr == "euler" then Euler else if appr == "ad2" then AB2 else AB3
  }

  /** `x + f0 * dt` */
  function EulerStep(x: seq<real>, f0: seq<real>, dt: real): (y: seq<real>)
    requires |f0| == |x|
    ensures |y| == |x|
  {
    seq(|x|, k requires 0 <= k < |x| => x[k] + f0[k] * dt)
  }

  /** `x + (3/2)(f1 dt) - (1/2) dt f0`, with `f1` at `x` and `f0` one row earlier. */
  function AB2Step(x: seq<real>, f1: seq<real>, f0: seq<real>, dt: real): (y: seq<real>)
    requires |f1| == |x| && |f0| == |x|
    ensures |y| == |x|
  {
    seq(|x|, k requires 0 <= k < |x| => x[k] + (3.0 / 2.0) * (f1[k] * dt) - (1.0 / 2.0) * dt * f0[k])
  }

  /** `x + (23/12)(f2 dt) - (4/3) dt f1 + (5/12) dt f0`, newest derivative first. */
  function AB3Step(x: seq<real>, f2: seq<real>, f1: seq<real>, f0: seq<real>, dt: real): (y: seq<real>)
    requires |f2| == |x| && |f1| == |x| && |f0| == |x|
    ensures |y| == |x|
  {
    seq(|x|, k requires 0 <= k < |x| =>
      x[k] + (23.0 / 12.0) * (f2[k] * dt) - (4.0 / 3.0) * dt * f1[k] + (5.0 / 12.0) * dt * f0[k])
  }

  /** The Euler residual `xNext - x - f0 * dt`. */
  function EulerResidual(xNext: seq<real>, x: seq<real>, f0: seq<real>, dt: real): (r: seq<real>)
    requires |x| == |xNext| && |f0| == |xNext|
    ensures |r| == |xNext|
  {
    seq(|xNext|, k requires 0 <= k < |xNext| => xNext[k] - x[k] - f0[k] * dt)
  }

  /** The 2-step residual `(xNext - x - (3/2)(f1 dt)) + (1/2) f0 dt`. */
  function AB2Residual(xNext: seq<real>, x: seq<real>, f1: seq<real>, f0: seq<real>, dt: real): (r: seq<real>)
    requires |x| == |xNext| && |f1| == |xNext| && |f0| == |xNext|
    ensures |r| == |xNext|
  {
    seq(|xNext|, k requires 0 <= k < |xNext| =>
      (xNext[k] - x[k] - (3.0 / 2.0) * (f1[k] * dt)) + (1.0 / 2.0) * f0[k] * dt)
  }

  /** The 3-step residual `(xNext - x - (23/12)(f2 dt)) + (4/3) f1 dt - (5/12) f0 dt`. */
  function AB3Residual(xNext: seq<real>, x: seq<real>, f2: seq<real>, f1: seq<real>, f0: seq<real>, dt: real): (r: seq<real>)
    requires |x| == |xNext| && |f2| == |xNext| && |f1| == |xNext| && |f0| == |xNext|
    ensures |r| == |xNext|
  {
    seq(|xNext|, k requires 0 <= k < |xNext| =>
      (xNext[k] - x[k] - (23.0 / 12.0) * (f2[k] * dt)) + (4.0 / 3.0) * f1[k] * dt - (5.0 / 12.0) * f0[k] * dt)
  }

  /** The Euler residual vanishes exactly on an Euler step. */
  lemma EulerResidualZero(xNext: seq<real>, x: seq<real>, f0: seq<real>, dt: real)
    requires |x| == |xNext| && |f0| == |xNext|
    ensures EulerResidual(xNext, x, f0, dt) == Zeros(|xNext|) <==> xNext == EulerStep(x, f0, dt)
  {
    var r, y := EulerResidual(xNext, x, f0, dt), EulerStep(x, f0, dt);
    assert forall k :: 0 <= k < |xNext| ==> (r[k] == 0.0 <==> xNext[k] == y[k]);
    if r == Zeros(|xNext|) {
      assert forall k :: 0 <= k < |xNext| ==> xNext[k] == y[k];
    }
    if xNext == y {
      assert forall k :: 0 <= k < |xNext| ==> r[k] == Zeros(|xNext|)[k];
    }
  }

  /** The 2-step residual vanishes exactly on a 2-step Adams–Bashforth step. */
  lemma AB2ResidualZero(xNext: seq<real>, x: seq<real>, f1: seq<real>, f0: seq<real>, dt: real)
    requires |x| == |xNext| && |f1| == |xNext| && |f0| == |xNext|
    ensures AB2Residual(xNext, x, f1, f0, dt) == Zeros(|xNext|) <==> xNext == AB2Step(x, f1, f0, dt)
  {
    var r, y := AB2Residual(xNext, x, f1, f0, dt), AB2Step(x, f1, f0, dt);
    forall k | 0 <= k < |xNext| ensures r[k] == xNext[k] - y[k] {
      assert (1.0 / 2.0) * f0[k] * dt == (1.0 / 2.0) * dt * f0[k];
    }
    if r == Zeros(|xNext|) {
      assert forall k :: 0 <= k < |xNext| ==> xNext[k] == y[k];
    }
    if xNext == y {
      assert forall k :: 0 <= k < |xNext| ==> r[k] == Zeros(|xNext|)[k];
    }
  }

  /** The 3-step residual vanishes exactly on a 3-step Adams–Bashforth step. */
  lemma AB3ResidualZero(xNext: seq<real>, x: seq<real>, f2: seq<real>, f1: seq<real>, f0: seq<real>, dt: real)
    requires |x| == |xNext| && |f2| == |xNext| && |f1| == |xNext| && |f0| == |xNext|
    ensures AB3Residual(xNext, x, f2, f1, f0, dt) == Zeros(|xNext|) <==> xNext == AB3Step(x, f2, f1, f0, dt)
  {
    var r, y := AB3Residual(xNext, x, f2, f1, f0, dt), AB3Step(x, f2, f1, f0, dt);
    forall k | 0 <= k < |xNext| ensures r[k] == xNext[k] - y[k] {
      assert (4.0 / 3.0) * f1[k] * dt == (4.0 / 3.0) * dt * f1[k];
      assert (5.0 / 12.0) * f0[k] * dt == (5.0 / 12.0) * dt * f0[k];
    }
    if r == Zeros(|xNext|) {
      assert forall k :: 0 <= k < |xNext| ==> xNext[k] == y[k];
    }
    if xNext == y {
      assert forall k :: 0 <= k < |xNext| ==> r[k] == Zeros(|xNext|)[k];
    }
  }
}
