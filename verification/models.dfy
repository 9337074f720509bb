/**
 * The vector fields that the objectives and the predictor reach by name.
 * The source turns `ODE_str` into a function with `eval(ODE_str + '_ode')`
 * or `eval(ODE_str + '_ode_vec')`; here the name is a datatype and the
 * lookup is a `match`. The cubic oscillator is imported by neither caller
 * and has no constructor.
 */
module Models {
  import opened Matrices
  import FitzhughNagumoOde
  import LotkaVolterraOde
  import Lorenz96Ode
  import LorenzOde
  import RosslerOde

  datatype Model = FitzhughNagumo | LotkaVolterra | Lorenz96 | Lorenz | Rossler

  /**
   * The objectives module imports every plugin except the Lorenz system, so
   * `eval('lorenz_ode_vec')` there is a NameError; the predictor imports all five.
   */
  predicate InObjectives(m: Model)
  {
    m != Lorenz
  }

  /** The state width below which a plugin indexes past the end of `x`. */
  function MinWidth(m: Model): nat
  {
    match m
    case FitzhughNagumo => 2
    case LotkaVolterra => 2
    case Lorenz96 => 3
    case Lorenz => 3
    case Rossler => 3
  }

  /** The parameters and the state width `d` are ones the plugin can evaluate on. */
  predicate Fits(m: Model, params: seq<real>, d: nat)
  {
    d >= MinWidth(m) &&
    match m
    case FitzhughNagumo => FitzhughNagumoOde.ParamsOk(params)
    case LotkaVolterra => LotkaVolterraOde.ParamsOk(params)
    case Lorenz96 => Lorenz96Ode.ParamsOk(params)
    case Lorenz => LorenzOde.ParamsOk(params)
    case Rossler => RosslerOde.ParamsOk(params)
  }

  /** The number of columns the batched form returns for states of width `d`. */
  function Width(m: Model, d: nat): nat
  {
    match m
    case FitzhughNagumo => 2
    case LotkaVolterra => 2
    case Lorenz96 => d
    case Lorenz => 3
    case Rossler => 3
  }

  /**
   * What the objectives need of the model: it is importable there, it can
   * be evaluated, and its batched output has the width of `X`, so that
   * `X[1:T, :] - X[0:T-1, :] - terms*dt` broadcasts.
   */
  predicate ObjectiveFits(m: Model, params: seq<real>, d: nat)
  {
    InObjectives(m) && Fits(m, params, d) && Width(m, d) == d
  }

  /** The pointwise vector field `f(x)` of model `m`; it has the length of `x`. */
  function Rate(m: Model, x: seq<real>, params: seq<real>): (r: seq<real>)
    requires Fits(m, params, |x|)
    ensures |r| == |x|
  {
    match m
    case FitzhughNagumo => FitzhughNagumoOde.Rate(x, params)
    case LotkaVolterra => LotkaVolterraOde.Rate(x, params)
    case Lorenz96 => Lorenz96Ode.Rate(x, params)
    case Lorenz => LorenzOde.Rate(x, params)
    case Rossler => RosslerOde.Rate(x, params)
  }

  /**
   * The field of model `m` as a function value, for the stencil layer that
   * is written for any vector field. On a width the plugin rejects it
   * returns its argument, which only keeps the length.
   */
  function Field(m: Model, params: seq<real>): seq<real> -> seq<real>
  {
    x => if Fits(m, params, |x|) then Rate(m, x, params) else x
  }

  /** On the widths the plugin accepts, `Field` is the pointwise field; it keeps every length. */
  lemma FieldAt(m: Model, params: seq<real>, x: seq<real>)
    ensures |Field(m, params)(x)| == |x|
    ensures Fits(m, params, |x|) ==> Field(m, params)(x) == Rate(m, x, params)
  {
  }

  /** `eval(ODE_str + '_ode')(t, x, params)`. */
  method Ode(m: Model, t: real, x: seq<real>, params: seq<real>) returns (xdot: seq<real>)
    requires Fits(m, params, |x|)
    ensures xdot == Rate(m, x, params)
  {
    match m
    case FitzhughNagumo => xdot := FitzhughNagumoOde.Ode(t, x, params);
    case LotkaVolterra => xdot := LotkaVolterraOde.Ode(t, x, params);
    case Lorenz96 => xdot := Lorenz96Ode.Ode(t, x, params);
    case Lorenz => xdot := LorenzOde.Ode(t, x, params);
    case Rossler => xdot := RosslerOde.Ode(t, x, params);
  }

  /** `eval(ODE_str + '_ode_vec')(X, params)`: T - 1 rows of width `Width(m, d)`. */
  function OdeVec(m: Model, X: seq<seq<real>>, d: nat, params: seq<real>): (terms: seq<seq<real>>)
    requires IsMatrix(X, d) && Fits(m, params, d)
    ensures |terms| == Transitions(|X|) && IsMatrix(terms, Width(m, d))
  {
    match m
    case FitzhughNagumo => FitzhughNagumoOde.OdeVec(X, d, params)
    case LotkaVolterra => LotkaVolterraOde.OdeVec(X, d, params)
    case Lorenz96 => Lorenz96Ode.OdeVec(X, d, params)
    case Lorenz => LorenzOde.OdeVec(X, d, params)
    case Rossler => RosslerOde.OdeVec(X, d, params)
  }

  /**
   * Where the batched output has the width of the state, its row i is the
   * pointwise field at `X[i]`, for every row but the last.
   */
  lemma OdeVecRow(m: Model, X: seq<seq<real>>, d: nat, params: seq<real>, i: nat)
    requires IsMatrix(X, d) && Fits(m, params, d) && Width(m, d) == d && i + 1 < |X|
    ensures OdeVec(m, X, d, params)[i] == Rate(m, X[i], params)
  {
    match m
    case FitzhughNagumo => FitzhughNagumoOde.OdeVecRow(X, params, i);
    case LotkaVolterra => LotkaVolterraOde.OdeVecRow(X, params, i);
    case Lorenz96 => Lorenz96Ode.OdeVecRow(X, d, params, i);
    case Lorenz => LorenzOde.OdeVecRow(X, params, i);
    case Rossler => RosslerOde.OdeVecRow(X, params, i);
  }

  /** The batched form never reads the last row of `X`. */
  lemma OdeVecIgnoresLastRow(m: Model, X: seq<seq<real>>, Y: seq<seq<real>>, d: nat, params: seq<real>)
    requires IsMatrix(X, d) && IsMatrix(Y, d) && Fits(m, params, d) && Width(m, d) == d
    requires |X| == |Y| && forall i :: 0 <= i < |X| - 1 ==> X[i] == Y[i]
    ensures OdeVec(m, X, d, params) == OdeVec(m, Y, d, params)
  {
    var A, B := OdeVec(m, X, d, params), OdeVec(m, Y, d, params);
    forall i | 0 <= i < |A|
      ensures A[i] == B[i]
    {
      OdeVecRow(m, X, d, params, i);
      OdeVecRow(m, Y, d, params, i);
    }
  }
}
