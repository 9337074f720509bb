/**
 * What ties the fit to the predictor: the stencil misfit of a state matrix
 * vanishes exactly when the predictor, run with the same field and
 * stencil, would have produced that matrix.
 */
module Consistency {
  import opened Matrices
  import opened Stencils
  import opened Models
  import opened Simulate
  import opened Objectives

  /** The field `f` at every row but the last: what a batched form should compute. */
  ghost function Derivs(f: seq<real> -> seq<real>, X: seq<seq<real>>, d: nat): (D: seq<seq<real>>)
    requires Preserves(f, d) && IsMatrix(X, d)
    ensures |D| == Transitions(|X|) && IsMatrix(D, d)
  {
    seq(Transitions(|X|), i requires 0 <= i < Transitions(|X|) => f(X[i]))
  }

  /** Where its width is the state's, the batched form is the model's field at every row but the last. */
  lemma OdeVecIsDerivs(f: seq<real> -> seq<real>, m: Model, params: seq<real>, X: seq<seq<real>>, d: nat)
    requires FieldOf(f, m, params, d) && IsMatrix(X, d) && Width(m, d) == d
    ensures OdeVec(m, X, d, params) == Derivs(f, X, d)
  {
    var V, D := OdeVec(m, X, d, params), Derivs(f, X, d);
    forall i | 0 <= i < |V|
      ensures V[i] == D[i]
    {
      OdeVecRow(m, X, d, params, i);
    }
  }

  /** One Euler residual vanishes exactly when its row is the predictor's Euler step. */
  lemma EulerRowZero(f: seq<real> -> seq<real>, dt: real, X: seq<seq<real>>, d: nat, i: nat)
    requires Preserves(f, d) && IsMatrix(X, d) && i + 1 < |X|
    ensures EulerBlock(X, Derivs(f, X, d), dt, d)[i] == Zeros(d)
            <==> X[i + 1] == NextRow(f, dt, Euler, X[..i + 1], d)
  {
    assert X[..i + 1][i] == X[i];
    EulerResidualZero(X[i + 1], X[i], f(X[i]), dt);
  }

  /** Euler rows whose residuals all vanish form an Euler rollout, and conversely. */
  lemma EulerRowsZero(f: seq<real> -> seq<real>, dt: real, X: seq<seq<real>>, d: nat)
    requires Preserves(f, d) && IsMatrix(X, d)
    ensures (forall i :: 0 <= i < Transitions(|X|) ==> EulerBlock(X, Derivs(f, X, d), dt, d)[i] == Zeros(d))
            <==> IsRollout(f, dt, Euler, X, d)
  {
    var B := EulerBlock(X, Derivs(f, X, d), dt, d);
    if forall i :: 0 <= i < |B| ==> B[i] == Zeros(d) {
      forall i | 1 <= i < |X|
        ensures X[i] == NextRow(f, dt, Euler, X[..i], d)
      {
        EulerRowZero(f, dt, X, d, i - 1);
      }
    } else {
      var i :| 0 <= i < |B| && B[i] != Zeros(d);
      EulerRowZero(f, dt, X, d, i);
    }
  }

  /** The Euler misfit vanishes exactly on Euler rollouts of `f`. */
  lemma EulerMisfitZero(f: seq<real> -> seq<real>, dt: real, X: seq<seq<real>>, d: nat)
    requires Preserves(f, d) && IsMatrix(X, d)
    ensures Misfit(X, Derivs(f, X, d), dt, "euler", d) == 0.0 <==> IsRollout(f, dt, Euler, X, d)
  {
    var B := EulerBlock(X, Derivs(f, X, d), dt, d);
    assert Misfit(X, Derivs(f, X, d), dt, "euler", d) == SumSquaresRows(B);
    SumSquaresRowsZero(B);
    EulerRowsZero(f, dt, X, d);
  }

  /** One 3-step residual vanishes exactly when its row is the predictor's 3-step step. */
  lemma AB3RowZero(f: seq<real> -> seq<real>, dt: real, X: seq<seq<real>>, d: nat, j: nat)
    requires Preserves(f, d) && IsMatrix(X, d) && j + 3 < |X|
    ensures AB3Block(X, Derivs(f, X, d), dt, d)[j] == Zeros(d)
            <==> X[j + 3] == NextRow(f, dt, AB3, X[..j + 3], d)
  {
    var P := X[..j + 3];
    assert P[j + 2] == X[j + 2] && P[j + 1] == X[j + 1] && P[j] == X[j];
    AB3ResidualZero(X[j + 3], X[j + 2], f(X[j + 2]), f(X[j + 1]), f(X[j]), dt);
  }

  /** A 3-step rollout of `f` is exactly a matrix whose 3-step rows all have zero residual. */
  lemma AB3RowsZero(f: seq<real> -> seq<real>, dt: real, X: seq<seq<real>>, d: nat)
    requires Preserves(f, d) && IsMatrix(X, d) && |X| >= 3
    ensures (X[1] == NextRow(f, dt, AB3, X[..1], d) && X[2] == NextRow(f, dt, AB3, X[..2], d) &&
             forall j :: 0 <= j < |X| - 3 ==> AB3Block(X, Derivs(f, X, d), dt, d)[j] == Zeros(d))
            <==> IsRollout(f, dt, AB3, X, d)
  {
    var B := AB3Block(X, Derivs(f, X, d), dt, d);
    if X[1] == NextRow(f, dt, AB3, X[..1], d) && X[2] == NextRow(f, dt, AB3, X[..2], d) &&
       forall j :: 0 <= j < |B| ==> B[j] == Zeros(d) {
      forall i | 1 <= i < |X|
        ensures X[i] == NextRow(f, dt, AB3, X[..i], d)
      {
        if i >= 3 {
          AB3RowZero(f, dt, X, d, i - 3);
        }
      }
    } else if IsRollout(f, dt, AB3, X, d) {
      assert X[1] == NextRow(f, dt, AB3, X[..1], d);
      assert X[2] == NextRow(f, dt, AB3, X[..2], d);
      var j :| 0 <= j < |B| && B[j] != Zeros(d);
      AB3RowZero(f, dt, X, d, j);
    }
  }

  /** The start-up rows of the 3-step fit: an Euler step, then a 2-step one. */
  lemma AB3StartZero(f: seq<real> -> seq<real>, dt: real, X: seq<seq<real>>, d: nat)
    requires Preserves(f, d) && IsMatrix(X, d) && |X| >= 3
    ensures EulerResidual(X[1], X[0], Derivs(f, X, d)[0], dt) == Zeros(d)
            <==> X[1] == NextRow(f, dt, AB3, X[..1], d)
    ensures AB2Residual(X[2], X[1], Derivs(f, X, d)[1], Derivs(f, X, d)[0], dt) == Zeros(d)
            <==> X[2] == NextRow(f, dt, AB3, X[..2], d)
  {
    assert X[..1][0] == X[0];
    assert X[..2][1] == X[1] && X[..2][0] == X[0];
    EulerResidualZero(X[1], X[0], f(X[0]), dt);
    AB2ResidualZero(X[2], X[1], f(X[1]), f(X[0]), dt);
  }

  /**
   * For any `appr` other than "euler" (so for "ad2" as well) the misfit
   * vanishes exactly on 3-step rollouts of `f`: the Euler row, the 2-step
   * row and the 3-step rows are the three stages the predictor runs
   * through for the 3-step stencil.
   */
  lemma MultistepMisfitZero(f: seq<real> -> seq<real>, dt: real, appr: string, X: seq<seq<real>>, d: nat)
    requires Preserves(f, d) && IsMatrix(X, d) && |X| >= 3 && appr != "euler"
    ensures Misfit(X, Derivs(f, X, d), dt, appr, d) == 0.0 <==> IsRollout(f, dt, AB3, X, d)
  {
    var D := Derivs(f, X, d);
    var r1 := EulerResidual(X[1], X[0], D[0], dt);
    var r2 := AB2Residual(X[2], X[1], D[1], D[0], dt);
    var B := AB3Block(X, D, dt, d);
    assert Misfit(X, D, dt, appr, d) == SumSquares(r1) + SumSquares(r2) + SumSquaresRows(B);
    SumSquaresZero(r1);
    SumSquaresZero(r2);
    SumSquaresRowsZero(B);
    AB3StartZero(f, dt, X, d);
    AB3RowsZero(f, dt, X, d);
  }

  /** The stencil the objectives fit: Euler for "euler", the 3-step stencil for anything else. */
  function ObjectiveScheme(appr: string): (s: Scheme)
    ensures s == Euler <==> appr == "euler"
    ensures s != AB2
  {
    if appr == "euler" then Euler else AB3
  }

  /**
   * `param_obj` vanishes exactly on the matrices the predictor produces with
   * the model's field and the stencil the objective fits.
   */
  lemma ParamObjZeroIffRollout(f: seq<real> -> seq<real>, m: Model, params: seq<real>, X: seq<seq<real>>, dt: real, appr: string, d: nat)
    requires FieldOf(f, m, params, d) && IsMatrix(X, d) && ObjectiveFits(m, params, d)
    requires appr != "euler" ==> |X| >= 3
    ensures ParamObj(params, X, dt, appr, m, d) == 0.0 <==> IsRollout(f, dt, ObjectiveScheme(appr), X, d)
  {
    OdeVecIsDerivs(f, m, params, X, d);
    if appr == "euler" {
      EulerMisfitZero(f, dt, X, d);
    } else {
      MultistepMisfitZero(f, dt, appr, X, d);
    }
  }

  /**
   * The predictor's output with "euler", or with a 3-step `appr` and at
   * least three rows, is an exact zero of `param_obj` with the same `appr`.
   */
  lemma PredictionFitsExactly(m: Model, params: seq<real>, x0: seq<real>, endT: real, dt: real, appr: string)
    requires ObjectiveFits(m, params, |x0|) && dt != 0.0 && endT / dt >= 0.0
    requires appr == "euler" || (appr != "ad2" && Steps(endT, dt) >= 3)
    ensures ParamObj(params, Rollout(Field(m, params), dt, SchemeOf(appr), x0, Steps(endT, dt), |x0|), dt, appr, m, |x0|) == 0.0
  {
    var d, f, T := |x0|, Field(m, params), Steps(endT, dt);
    FieldIsFieldOf(m, params, d);
    assert SchemeOf(appr) == ObjectiveScheme(appr);
    RolloutIsRollout(f, dt, SchemeOf(appr), x0, T, d);
    ParamObjZeroIffRollout(f, m, params, Rollout(f, dt, SchemeOf(appr), x0, T, d), dt, appr, d);
  }

  /** Pure prey growth x' = x: Lotka–Volterra with a = 1 and b = c = d = 0. */
  const PreyGrowth: seq<real> := [1.0, 0.0, 0.0, 0.0]

  /** The four rows the 2-step stencil predicts for `PreyGrowth` from (1, 0) with dt = 1. */
  const PreyRows: seq<seq<real>> := [[1.0, 0.0], [2.0, 0.0], [4.5, 0.0], [10.25, 0.0]]

  /** The field of `PreyGrowth` at the rows of `PreyRows`. */
  lemma PreyRates(f: seq<real> -> seq<real>)
    requires FieldOf(f, LotkaVolterra, PreyGrowth, 2)
    ensures forall i :: 0 <= i < 4 ==> f(PreyRows[i]) == [PreyRows[i][0], 0.0]
  {
    forall i | 0 <= i < 4
      ensures f(PreyRows[i]) == [PreyRows[i][0], 0.0]
    {
      assert f(PreyRows[i]) == Rate(LotkaVolterra, PreyRows[i], PreyGrowth);
    }
  }

  /** `PreyRows` is a 2-step rollout of `PreyGrowth` and not a 3-step one. */
  lemma PreyRowsAreAB2Only(f: seq<real> -> seq<real>)
    requires FieldOf(f, LotkaVolterra, PreyGrowth, 2)
    ensures IsRollout(f, 1.0, AB2, PreyRows, 2)
    ensures !IsRollout(f, 1.0, AB3, PreyRows, 2)
  {
    var X := PreyRows;
    PreyRates(f);
    assert X[..1] == [X[0]] && X[..2] == [X[0], X[1]] && X[..3] == [X[0], X[1], X[2]];
    assert X[1] == NextRow(f, 1.0, AB2, X[..1], 2);
    assert X[2] == NextRow(f, 1.0, AB2, X[..2], 2);
    assert X[3] == NextRow(f, 1.0, AB2, X[..3], 2);
    assert NextRow(f, 1.0, AB3, X[..3], 2)[0] == 10.875;
  }

  /**
   * "ad2" is the one `appr` whose prediction the objectives do not fit: the
   * predictor steps with the 2-step stencil, `param_obj` scores the 3-step
   * one. For prey growth from (1, 0) with dt = 1 over four rows the predictor
   * gives 1, 2, 4.5, 10.25 for the prey, while the 3-step stencil expects
   * 10.875 in the last row.
   */
  lemma Ad2PredictionMisfits()
    ensures Preserves(Field(LotkaVolterra, PreyGrowth), 2)
    ensures Rollout(Field(LotkaVolterra, PreyGrowth), 1.0, SchemeOf("ad2"), [1.0, 0.0], 4, 2) == PreyRows
    ensures ParamObj(PreyGrowth, PreyRows, 1.0, "ad2", LotkaVolterra, 2) > 0.0
  {
    var f := Field(LotkaVolterra, PreyGrowth);
    FieldIsFieldOf(LotkaVolterra, PreyGrowth, 2);
    PreyRowsAreAB2Only(f);
    RolloutCharacterized(f, 1.0, AB2, [1.0, 0.0], 4, 2, PreyRows);
    ParamObjZeroIffRollout(f, LotkaVolterra, PreyGrowth, PreyRows, 1.0, "ad2", 2);
  }
}
