# BCDproxODE discretisation layer in Dafny

BCDproxODE fits the parameters and the states of an ODE `x' = f(x; θ)` to a
sampled trajectory by block-coordinate descent. This project models the part
of it that does not depend on the optimiser:

- **Vector-field plugins.** Lorenz-96, Lorenz, FitzHugh–Nagumo,
  Lotka–Volterra, Rössler and the cubic oscillator. Each has a pointwise form
  `*_ode(t, x, params)` that fills a fresh array, and a batched form
  `*_ode_vec(X, params)` built from column slices over the rows `X[0:T-1]`.
- **Two residual objectives** (`AUX/objectives.py`). `param_obj` is the sum of
  squared residuals of the Euler, Adams–Bashforth 2-step and 3-step stencils
  over consecutive rows of a T×d state matrix. `X_obj` is the same sum over
  the column-major decoding of a flat vector, plus the proximal term
  `lam·‖x − x0‖²`.
- **The forward predictor `predict`** (`AUX/simulate.py`). It marches the same
  stencils forward from an initial state. It fills a T×d array row by row and
  rotates up to three cached field values.

All arithmetic is over `real`.

A model name is the datatype `Models.Model`. The source turns `ODE_str` into a
function with `eval`; here it is a `match`. The stencil layer in `Simulate` is
written for any vector field `f` that keeps the state width. The predictor
instantiates it with the model's field. `Simulate.Rollout` is the
specification of a march, and `Simulate.RolloutCharacterized` says it is
exactly the matrices whose every row is the stencil step from the rows before
it.

`Consistency` ties the two halves together:

- `param_obj` vanishes exactly on rollouts of the stencil it scores.
- That stencil is Euler for "euler" and 3-step for every other `appr`.
- So the predictor's output with "euler", or with a 3-step `appr` and at
  least three rows, is an exact zero of `param_obj`.
- With "ad2" the predictor marches the 2-step stencil while `param_obj` scores
  the 3-step one. A concrete four-row Lotka–Volterra case shows a strictly
  positive objective on the predictor's own output.

Where the code and its documentation differ, the model follows the code:

- The 3-step objectives accept exactly three rows. The 3-step block is then
  empty and contributes 0; nothing rejects that shape.
- Fewer than three rows make the code fail indexing `X[2]`. That case is a
  precondition.
- Every `appr` other than "euler" and "ad2" behaves as the 3-step method, not
  only "ad3".

## Model

| member | source | states |
|---|---|---|
| Matrices.SumSquaresZero | AUX/objectives.py:94-98 | `np.sum(temp ** 2)` of a row is 0 exactly when every entry of the row is 0 |
| Matrices.SumSquaresRowsZero | AUX/objectives.py:90 | the sum of squares over a block of rows is 0 exactly when every row is all zeros |
| Matrices.SumSquaresOfShift | AUX/objectives.py:57 | the sum of squares of `x - x0` for `x0 = x + c` entrywise is `len(x)·c²` |
| Stencils.SchemeOf | AUX/simulate.py:81-105 | "euler" selects Euler, "ad2" selects the 2-step method, and every other string the 3-step method (each as an iff) |
| Stencils.EulerStep | AUX/simulate.py:83 | the Euler step `x + f0·dt` keeps the state width (its meaning is pinned by `EulerResidualZero`) |
| Stencils.AB2Step | AUX/simulate.py:90-91 | the 2-step formula with coefficients 3/2 and −1/2 keeps the state width |
| Stencils.AB3Step | AUX/simulate.py:103-104 | the 3-step formula with coefficients 23/12, −4/3, 5/12 keeps the state width |
| Stencils.EulerResidual | AUX/objectives.py:90 | the Euler residual row has the state width |
| Stencils.AB2Residual | AUX/objectives.py:96-97 | the 2-step residual row has the state width |
| Stencils.AB3Residual | AUX/objectives.py:100-101 | the 3-step residual row has the state width |
| Stencils.EulerResidualZero | AUX/objectives.py:90 | the objective's Euler residual is zero exactly when the next row is the predictor's Euler step (simulate.py:83) |
| Stencils.AB2ResidualZero | AUX/objectives.py:96-97 | the 2-step residual is zero exactly when the next row is the predictor's 2-step formula (simulate.py:90-91) |
| Stencils.AB3ResidualZero | AUX/objectives.py:100-101 | the 3-step residual is zero exactly when the next row is the predictor's 3-step formula (simulate.py:103-104) |
| Lorenz96Ode.Ring | ODEs/lorenz96.py:23-25 | the wrapped index of a neighbour at most one lap off lies in 0..d-1 and differs from it by a multiple of d |
| Lorenz96Ode.Rate | ODEs/lorenz96.py:20-28 | the rate has one component per site (d components) |
| Lorenz96Ode.SiteCases | ODEs/lorenz96.py:23-27 | the cyclic term at site i is the source's explicit expression for i = 0, 1, d-1 and for interior sites 2..d-2 |
| Lorenz96Ode.Ode | ODEs/lorenz96.py:4-29 | the three edge assignments, the loop over 2..d-2 and the final `+ F` produce exactly the cyclic rate at every site |
| Lorenz96Ode.OdeVec | ODEs/lorenz96.py:31-64 | the batched form has T-1 rows and d columns |
| Lorenz96Ode.OdeVecRow | ODEs/lorenz96.py:53-62 | row i < T-1 of the concatenation temp2, temp3, temp1, temp4 is the pointwise rate at `X[i]` |
| Lorenz96Ode.UniformStateIsEquilibrium | ODEs/lorenz96.py:23-28 | the constant state F·1 has zero rate |
| Lorenz96Ode.ForcingIsUniform | ODEs/lorenz96.py:28 | every component is the unforced component plus F |
| LorenzOde.Rate | ODEs/lorenz.py:19-23 | the rate has the length of `x` |
| LorenzOde.Ode | ODEs/lorenz.py:3-24 | the entry-by-entry fill of `xdot` is the rate σ(x1−x0), x0(ρ−x2)−x1, x0·x1−β·x2 |
| LorenzOde.OdeVec | ODEs/lorenz.py:45-52 | the batched form has T-1 rows and 3 columns |
| LorenzOde.OdeVecRow | ODEs/lorenz.py:47-51 | row i < T-1 of the batched form is the pointwise rate at `X[i]` |
| LorenzOde.OriginIsEquilibrium | ODEs/lorenz.py:21-23 | the origin has zero rate for every parameter choice |
| FitzhughNagumoOde.Rate | ODEs/fitzhugh_nagumo.py:19-22 | the rate has the length of `x` |
| FitzhughNagumoOde.Ode | ODEs/fitzhugh_nagumo.py:4-23 | the entry-by-entry fill of `xdot` is c(v − v³/3 + w), −(1/c)(v − a + b·w), then zeros |
| FitzhughNagumoOde.OdeVec | ODEs/fitzhugh_nagumo.py:47-53 | the batched form has T-1 rows and 2 columns |
| FitzhughNagumoOde.OdeVecRow | ODEs/fitzhugh_nagumo.py:49-51 | for a T×2 state matrix, row i < T-1 of the batched form is the pointwise rate at `X[i]` |
| FitzhughNagumoOde.RateReadsFirstTwo | ODEs/fitzhugh_nagumo.py:20-22 | states agreeing on entries 0 and 1 have the same rate, and entries past 1 are 0 |
| LotkaVolterraOde.Rate | ODEs/lotka_volterra.py:18-21 | the rate has the length of `x` |
| LotkaVolterraOde.Ode | ODEs/lotka_volterra.py:3-22 | the entry-by-entry fill of `xdot` is a·x0 − b·x0·x1, −c·x1 + d·x0·x1, then zeros |
| LotkaVolterraOde.OdeVec | ODEs/lotka_volterra.py:44-50 | the batched form has T-1 rows and 2 columns |
| LotkaVolterraOde.OdeVecRow | ODEs/lotka_volterra.py:46-49 | for a T×2 state matrix, row i < T-1 of the batched form is the pointwise rate at `X[i]` |
| LotkaVolterraOde.NoPreyNoGrowth | ODEs/lotka_volterra.py:20-21 | x0 = 0 gives a zero prey rate, and (0, 0) has zero rate |
| RosslerOde.Rate | ODEs/rossler.py:19-23 | the rate has the length of `x` |
| RosslerOde.Ode | ODEs/rossler.py:3-24 | the entry-by-entry fill of `xdot` is −x1−x2, x0 + a·x1, b + x2(x0−c) |
| RosslerOde.OdeVec | ODEs/rossler.py:45-52 | the batched form has T-1 rows and 3 columns |
| RosslerOde.OdeVecRow | ODEs/rossler.py:47-51 | row i < T-1 of the batched form is the pointwise rate at `X[i]` |
| RosslerOde.FirstComponentParameterFree | ODEs/rossler.py:21 | the first component is −x1 − x2 whatever the parameters |
| CuboscOde.Rate | ODEs/cubosc.py:19-22 | the rate has the length of `x` |
| CuboscOde.Ode | ODEs/cubosc.py:3-23 | the entry-by-entry fill of `xdot` is −a·x0³ + b·x1³, −b·x0³ − a·x1³, then zeros |
| CuboscOde.RateReadsTwoParams | ODEs/cubosc.py:19-22 | only `params[0]` and `params[1]` are read, and entries past 1 (such as `xdot[2]` for a 3-state) are 0 |
| CuboscOde.CubeOdd | ODEs/cubosc.py:21-22 | the cube is odd |
| CuboscOde.RateIsOdd | ODEs/cubosc.py:21-22 | f(−x) = −f(x), and the origin has zero rate |
| Models.Rate | AUX/simulate.py:74 | the pointwise field of the named model keeps the state width |
| Models.FieldAt | AUX/simulate.py:74 | the model's field as a function value keeps every width and is the pointwise rate where the plugin accepts the width |
| Models.Ode | AUX/simulate.py:74 | `eval(ODE_str + '_ode')` computes the model's rate, whatever `t` is |
| Models.OdeVec | AUX/objectives.py:84-85 | `eval(ODE_str + '_ode_vec')` returns T-1 rows of the model's output width |
| Models.OdeVecRow | AUX/objectives.py:84-85 | where the output width is the state width, row i < T-1 of the batched form is the pointwise field at `X[i]` |
| Models.OdeVecIgnoresLastRow | ODEs/lorenz96.py:53-60 | no batched form reads the last row `X[T-1]` |
| Objectives.Reshape | AUX/objectives.py:31-33 | decoding a flat vector of length T·d gives a T×d matrix |
| Objectives.Flatten | AUX/fit_direct.py:80 | `X.flatten('F')` has length T·d |
| Objectives.ReshapeFlatten | AUX/objectives.py:31-33 | decoding the column-major flattening of X gives back X |
| Objectives.FlattenReshape | AUX/objectives.py:31-33 | flattening the decoded matrix gives back the flat vector, so the two are inverse bijections |
| Objectives.EulerBlock | AUX/objectives.py:90 | the Euler residual block has T-1 rows of width d |
| Objectives.AB3Block | AUX/objectives.py:100-101 | the 3-step block has T-3 rows of width d (none when T = 3) |
| Objectives.Misfit | AUX/objectives.py:88-102 | the stencil misfit shared by both objectives is non-negative |
| Objectives.ParamObj | AUX/objectives.py:61-104 | `param_obj` is non-negative |
| Objectives.Proximal | AUX/objectives.py:57 | the proximal term is non-negative when `lam ≥ 0` |
| Objectives.ProximalAtShiftedAnchor | AUX/fit_direct.py:83 | with the anchor `X0 + c` the proximal term is `lam·len(x)·c²`, and it is 0 exactly at the unshifted anchor `x0 == x` |
| Objectives.XObj | AUX/objectives.py:10-58 | `X_obj` is non-negative when `lam ≥ 0` |
| Simulate.Steps | AUX/simulate.py:73 | the number of rows T satisfies T−1 ≤ end_t/dt < T, and T ≥ 1 |
| Simulate.StepsOfHorizon | AUX/fit_direct.py:89 | the horizon `(T-1)*dt` given to `predict` yields T rows again (over exact reals) |
| Simulate.NextRow | AUX/simulate.py:80-105 | the next row has the state width |
| Simulate.NextRowCases | AUX/simulate.py:80-105 | row 1, and every row under "euler", is an Euler step; later rows under the 2-step stencil are 2-step steps; under the 3-step stencil row 2 is a 2-step step and rows from 3 on are 3-step steps |
| Simulate.RolloutSnoc | AUX/simulate.py:80-105 | appending a row keeps a rollout exactly when the row is the next step |
| Simulate.RolloutPrefix | AUX/simulate.py:80-105 | every prefix of a rollout is a rollout: row i depends only on rows before i |
| Simulate.RolloutUnique | AUX/simulate.py:80-105 | two rollouts of equal length from the same initial state are equal |
| Simulate.Rollout | AUX/simulate.py:75-105 | the rollout of n rows is an n×d matrix starting with the initial state |
| Simulate.RolloutIsRollout | AUX/simulate.py:80-105 | every row of `Rollout` after the first is the next step from the rows before it |
| Simulate.RolloutCharacterized | AUX/simulate.py:80-105 | a matrix of n rows from x0 is a rollout exactly when it equals `Rollout(.., x0, n, ..)` |
| Simulate.FieldIsFieldOf | AUX/simulate.py:74 | the model's field keeps the state width and is the model's rate on it |
| Simulate.Advance | AUX/simulate.py:81-105 | one loop pass writes the next rollout row and leaves the cache as the source rotates it: for "ad2" `temp1` is f at the previous row; for the 3-step stencil `temp1` and `temp2` are f at the two rows before that |
| Simulate.March | AUX/simulate.py:75-106 | the array filled row by row in increasing order is the rollout of the model's field |
| Simulate.Predict | AUX/simulate.py:53-106 | `predict` returns `int(end_t/dt + 1)` rows, row 0 is `init_state`, and the whole output is the rollout of the model's field with the stencil `appr` names |
| Consistency.Derivs | AUX/objectives.py:84-85 | the field at every row but the last is a (T-1)×d matrix |
| Consistency.OdeVecIsDerivs | AUX/objectives.py:84-85 | the batched form equals the field applied to every row but the last |
| Consistency.EulerRowZero | AUX/objectives.py:90 | Euler residual row i is zero exactly when row i+1 is the predictor's Euler step from rows 0..i |
| Consistency.EulerRowsZero | AUX/objectives.py:90 | all Euler residual rows vanish exactly on Euler rollouts |
| Consistency.EulerMisfitZero | AUX/objectives.py:88-90 | the "euler" misfit is 0 exactly on Euler rollouts of the field |
| Consistency.AB3RowZero | AUX/objectives.py:100-101 | 3-step residual row j is zero exactly when row j+3 is the predictor's 3-step step |
| Consistency.AB3RowsZero | AUX/objectives.py:100-101 | start rows matching plus all 3-step rows vanishing is exactly a 3-step rollout |
| Consistency.AB3StartZero | AUX/objectives.py:93-97 | the row-1 Euler residual and the row-2 2-step residual vanish exactly when rows 1 and 2 are the predictor's start-up steps |
| Consistency.MultistepMisfitZero | AUX/objectives.py:91-102 | for any `appr` but "euler" the misfit is 0 exactly on 3-step rollouts |
| Consistency.ObjectiveScheme | AUX/objectives.py:88-102 | the objectives use Euler exactly for "euler" and never the 2-step stencil |
| Consistency.ParamObjZeroIffRollout | AUX/objectives.py:61-104 | `param_obj` is 0 exactly on rollouts of the model's field with the stencil it scores |
| Consistency.PredictionFitsExactly | AUX/simulate.py:53-106 | `param_obj` of the predictor's output is 0 for "euler", and for every 3-step `appr` with T ≥ 3 |
| Consistency.PreyRates | ODEs/lotka_volterra.py:20-21 | with a = 1 and b = c = d = 0 the field at the example rows is (x0, 0) |
| Consistency.PreyRowsAreAB2Only | AUX/simulate.py:84-92 | the example rows are a 2-step rollout and not a 3-step one |
| Consistency.Ad2PredictionMisfits | AUX/objectives.py:91-102 | the predictor's "ad2" output for that example has a strictly positive "ad2" `param_obj` |

## Left out

- `simulate()` (AUX/simulate.py:12-50) is not modelled. It wraps scipy's adaptive `dopri5` integrator and adds Gaussian noise: foreign numerics and randomness.
- `fit_direct` (AUX/fit_direct.py) and `demo.py` are not modelled: the optimiser, the autograd gradients, the stop rule and the plotting are foreign code. Three of its conventions are modelled: the flattening at line 80 (`Objectives.Flatten`), the shifted anchor at line 83 (`Objectives.ProximalAtShiftedAnchor`) and the horizon at line 89 (`Simulate.StepsOfHorizon`).
- `cubosc_ode_vec` is not modelled. It binds `sigma, rho, beta` but uses the unbound names `a, b`, so it raises a NameError. `cubosc` is not imported by either caller, so it is not a `Models.Model`.
- String dispatch: `eval(ODE_str + ...)` is a `match` on `Models.Model`. `lorenz` is not imported by AUX/objectives.py, so a Lorenz objective is a NameError there. It is excluded by `Models.InObjectives`.
- Floating point: the model computes over exact reals. There is no rounding, and no inf or NaN.
- Simulate.StepsOfHorizon: holds over reals only. Whether `(T-1)*dt/dt + 1` truncates back to T under IEEE rounding is not modelled.
- Simulate.Steps: `int()` truncates toward zero. Under the precondition `end_t/dt ≥ 0` that is the floor. A negative ratio makes the source fail allocating or writing row 0, so it is a precondition.
- FitzhughNagumoOde.ParamsOk: c = 0 is excluded. numpy would return inf or NaN for `1/c`, and reals have neither.
- Failures as preconditions. The source reports none of these itself; each surfaces as an IndexError or ValueError inside numpy or Python:
  - too few parameters;
  - a state narrower than the plugin indexes;
  - a flat vector whose length is not a multiple of d;
  - fewer than three rows in the multistep objectives;
  - a batched width that does not broadcast against the state width.
- Models.Field: on widths the plugin rejects, it returns its argument unchanged. This keeps it a total function value. Every theorem uses it only on accepted widths.
- Time: the `t` argument of the pointwise forms is accepted and never read, and `predict` always passes 0.
- Objectives.XObj: its residual block is written in the source as a textual copy of `param_obj`'s. The model defines it through `Objectives.ParamObj` on the decoded matrix, so the two cannot drift apart as copies could.
