/**
 * The two objectives of the block-coordinate fit: the misfit of a T×d
 * state matrix to the Euler or the multistep stencil under the batched
 * vector field (`param_obj`), and the same misfit over the column-major
 * flattening of the states plus a proximal term (`X_obj`).
 */
module Objectives {
  import opened Matrices
  import opened Stencils
  import opened Models

  /**
   * `x.reshape((d, T)).T` with `T = len(x) / d`: the flat vector holds the
   * states column by column, so entry (i, j) is `x[j*T + i]`.
   */
  function Reshape(x: seq<real>, d: nat): (X: seq<seq<real>>)
    requires d > 0 && |x| % d == 0
    ensures |X| == |x| / d && IsMatrix(X, d)
  {
    var T := |x| / d;
    seq(T, i requires 0 <= i < T =>
      seq(d, j requires 0 <= j < d => (IndexJoin(j, T, i, d); x[j * T + i])))
  }

  /** `X.flatten('F')`, the layout the fitting loop hands to `X_obj`: column after column. */
  function Flatten(X: seq<seq<real>>, d: nat): (x: seq<real>)
    requires IsMatrix(X, d)
    ensures |x| == |X| * d
  {
    var T := |X|;
    seq(T * d, k requires 0 <= k < T * d => (IndexSplit(k, T, d); X[k % T][k / T]))
  }

  /** Decoding undoes the flattening: a state matrix survives the trip to the optimiser. */
  lemma ReshapeFlatten(X: seq<seq<real>>, d: nat)
    requires d > 0 && IsMatrix(X, d)
    ensures |Flatten(X, d)| % d == 0 && Reshape(Flatten(X, d), d) == X
  {
    var T, x := |X|, Flatten(X, d);
    DivModOfLinear(T, d, 0);
    assert |x| / d == T;
    var Y := Reshape(x, d);
    forall i | 0 <= i < T
      ensures Y[i] == X[i]
    {
      forall j | 0 <= j < d
        ensures Y[i][j] == X[i][j]
      {
        IndexJoin(j, T, i, d);
        DivModOfLinear(j, T, i);
      }
    }
  }

  /** Flattening undoes the decoding: every flat vector of a multiple of `d` entries is a state matrix. */
  lemma FlattenReshape(x: seq<real>, d: nat)
    requires d > 0 && |x| % d == 0
    ensures Flatten(Reshape(x, d), d) == x
  {
    var T, X := |x| / d, Reshape(x, d);
    assert T * d == |x|;
    var y := Flatten(X, d);
    forall k | 0 <= k < |x|
      ensures y[k] == x[k]
    {
      IndexSplit(k, T, d);
    }
  }

  /** The rows of `X[1:T, :] - X[0:T-1, :] - terms*dt`. */
  function EulerBlock(X: seq<seq<real>>, terms: seq<seq<real>>, dt: real, d: nat): (R: seq<seq<real>>)
    requires IsMatrix(X, d) && IsMatrix(terms, d) && |terms| == Transitions(|X|)
    ensures |R| == Transitions(|X|) && IsMatrix(R, d)
  {
    seq(Transitions(|X|), i requires 0 <= i < Transitions(|X|) => EulerResidual(X[i + 1], X[i], terms[i], dt))
  }

  /**
   * The rows of the 3-step block over `X[3:T, :]`, with `terms[2:T-1]`,
   * `terms[1:T-2]` and `terms[0:T-3]`; no rows when T = 3.
   */
  function AB3Block(X: seq<seq<real>>, terms: seq<seq<real>>, dt: real, d: nat): (R: seq<seq<real>>)
    requires IsMatrix(X, d) && IsMatrix(terms, d) && |terms| == Transitions(|X|) && |X| >= 3
    ensures |R| == |X| - 3 && IsMatrix(R, d)
  {
    seq(|X| - 3, j requires 0 <= j < |X| - 3 =>
      AB3Residual(X[j + 3], X[j + 2], terms[j + 2], terms[j + 1], terms[j], dt))
  }

  /**
   * The stencil misfit both objectives share, given the batched field
   * `terms`: for "euler" the squared Euler residuals of every transition;
   * for any other `appr` the squared Euler residual into row 1, the 2-step
   * residual into row 2 and the 3-step residuals into rows 3 .. T-1.
   */
  function Misfit(X: seq<seq<real>>, terms: seq<seq<real>>, dt: real, appr: string, d: nat): (r: real)
    requires IsMatrix(X, d) && IsMatrix(terms, d) && |terms| == Transitions(|X|)
    requires appr != "euler" ==> |X| >= 3
    ensures r >= 0.0
  {
    if appr == "euler" then SumSquaresRows(EulerBlock(X, terms, dt, d))
    else
      SumSquares(EulerResidual(X[1], X[0], terms[0], dt))
      + SumSquares(AB2Residual(X[2], X[1], terms[1], terms[0], dt))
      + SumSquaresRows(AB3Block(X, terms, dt, d))
  }

  /** `param_obj(params, X, dt, appr, ODE_str)`: the misfit of `X` under the model's batched field. */
  function ParamObj(params: seq<real>, X: seq<seq<real>>, dt: real, appr: string, m: Model, d: nat): (r: real)
    requires IsMatrix(X, d) && ObjectiveFits(m, params, d)
    requires appr != "euler" ==> |X| >= 3
    ensures r >= 0.0
  {
    Misfit(X, OdeVec(m, X, d, params), dt, appr, d)
  }

  /** `lam*np.sum((x - x0)**2)`: the proximal term of the state objective. */
  function Proximal(x: seq<real>, x0: seq<real>, lam: real): (p: real)
    requires |x0| == |x|
    ensures lam >= 0.0 ==> p >= 0.0
  {
    var s := SumSquares(VecSub(x, x0));
    assert lam >= 0.0 ==> lam * s >= 0.0 * s;
    lam * s
  }

  /**
   * The proximal term vanishes at the anchor, and for an anchor shifted by
   * `c` in every entry (the fitting loop passes `X0 + 0.000001`) it is
   * `lam · len(x) · c²`.
   */
  lemma ProximalAtShiftedAnchor(x: seq<real>, x0: seq<real>, lam: real, c: real)
    requires |x0| == |x| && forall k :: 0 <= k < |x| ==> x0[k] == x[k] + c
    ensures Proximal(x, x0, lam) == lam * ((|x| as real) * c * c)
    ensures c == 0.0 ==> x0 == x && Proximal(x, x0, lam) == 0.0
  {
    SumSquaresOfShift(x, x0, c);
  }

  /**
   * `X_obj(x, params, dt, x0, lam, d, appr, ODE_str)`: its residual block
   * is the text of `param_obj` at the decoded states `Reshape(x, d)`, to
   * which it adds the proximal term.
   */
  function XObj(x: seq<real>, params: seq<real>, dt: real, x0: seq<real>, lam: real, d: nat, appr: string, m: Model): (r: real)
    requires d > 0 && |x| % d == 0 && |x0| == |x| && ObjectiveFits(m, params, d)
    requires appr != "euler" ==> |x| / d >= 3
    ensures lam >= 0.0 ==> r >= 0.0
  {
    ParamObj(params, Reshape(x, d), dt, appr, m, d) + Proximal(x, x0, lam)
  }
}
