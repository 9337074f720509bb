/**
 * The forward predictor: from an initial state, march the Euler, 2-step or
 * 3-step Adams–Bashforth stencil with a fixed step `dt` and collect the
 * states row by row. What a march produces is stated for any vector field
 * `f` that keeps the state width; the predictor uses the field of a model.
 */
module Simulate {
  import opened Matrices
  import opened Stencils
  import opened Models

  /**
   * The number of rows `int(end_t / dt + 1)`. On the non-negative values
   * the precondition admits, truncation toward zero is the floor; below
   * that the source either allocates no row and fails writing row 0, or
   * fails allocating a negative number of rows.
   */
  function Steps(endT: real, dt: real): (T: int)
    requires dt != 0.0 && endT / dt >= 0.0
    ensures T >= 1
    ensures (T - 1) as real <= endT / dt < T as real
  {
    (endT / dt + 1.0).Floor
  }

  /** A horizon of `(T - 1) * dt`, as the fitting loop passes it, gives back `T` rows. */
  lemma StepsOfHorizon(T: nat, dt: real)
    requires T >= 1 && dt != 0.0
    ensures ((T - 1) as real * dt) / dt == (T - 1) as real
    ensures Steps((T - 1) as real * dt, dt) == T
  {
  }

  /** `f` maps states of width `d` to derivatives of width `d`. */
  ghost predicate Preserves(f: seq<real> -> seq<real>, d: nat)
  {
    forall x :: |x| == d ==> |f(x)| == d
  }

  /**
   * The row the predictor writes after the rows `X`: the stencil of `s`,
   * cut down to the rows there are (one Euler step first, then one 2-step
   * step for the 3-step stencil).
   */
  ghost function NextRow(f: seq<real> -> seq<real>, dt: real, s: Scheme, X: seq<seq<real>>, d: nat): (y: seq<real>)
    requires Preserves(f, d) && IsMatrix(X, d) && |X| >= 1
    ensures |y| == d
  {
    var n := |X|;
    match s
    case Euler => EulerStep(X[n - 1], f(X[n - 1]), dt)
    case AB2 =>
      if n == 1 then EulerStep(X[n - 1], f(X[n - 1]), dt)
      else AB2Step(X[n - 1], f(X[n - 1]), f(X[n - 2]), dt)
    case AB3 =>
      if n == 1 then EulerStep(X[n - 1], f(X[n - 1]), dt)
      else if n == 2 then AB2Step(X[n - 1], f(X[n - 1]), f(X[n - 2]), dt)
      else AB3Step(X[n - 1], f(X[n - 1]), f(X[n - 2]), f(X[n - 3]), dt)
  }

  /**
   * `X` is what the predictor writes with stencil `s`: every row after the
   * first is the next step from the rows before it.
   */
  ghost predicate IsRollout(f: seq<real> -> seq<real>, dt: real, s: Scheme, X: seq<seq<real>>, d: nat)
    requires Preserves(f, d)
  {
    IsMatrix(X, d) && forall i {:trigger X[..i]} :: 1 <= i < |X| ==> X[i] == NextRow(f, dt, s, X[..i], d)
  }

  /** Appending the next step to a rollout gives a rollout, and only the next step does. */
  lemma RolloutSnoc(f: seq<real> -> seq<real>, dt: real, s: Scheme, X: seq<seq<real>>, v: seq<real>, d: nat)
    requires Preserves(f, d) && IsMatrix(X, d) && |X| >= 1 && |v| == d
    ensures IsRollout(f, dt, s, X + [v], d) <==>
            IsRollout(f, dt, s, X, d) && v == NextRow(f, dt, s, X, d)
  {
    var Y, n := X + [v], |X|;
    if IsRollout(f, dt, s, X, d) && v == NextRow(f, dt, s, X, d) {
      forall i | 1 <= i < |Y|
        ensures Y[i] == NextRow(f, dt, s, Y[..i], d)
      {
        if i < n {
          assert Y[..i] == X[..i];
        } else {
          assert Y[..i] == X;
        }
      }
    }
    if IsRollout(f, dt, s, Y, d) {
      forall i | 1 <= i < n
        ensures X[i] == NextRow(f, dt, s, X[..i], d)
      {
        assert Y[..i] == X[..i] && Y[i] == X[i];
      }
      assert Y[..n] == X;
    }
  }

  /** Each row depends only on the rows before it: a prefix of a rollout is a rollout. */
  lemma RolloutPrefix(f: seq<real> -> seq<real>, dt: real, s: Scheme, X: seq<seq<real>>, d: nat, k: nat)
    requires Preserves(f, d) && IsRollout(f, dt, s, X, d) && k <= |X|
    ensures IsRollout(f, dt, s, X[..k], d)
  {
    assert forall i :: 1 <= i < k ==> X[..k][..i] == X[..i];
  }

  /** A rollout is determined by its first row and its length. */
  lemma {:induction false} RolloutUnique(f: seq<real> -> seq<real>, dt: real, s: Scheme, X: seq<seq<real>>, Y: seq<seq<real>>, d: nat)
    requires Preserves(f, d) && IsRollout(f, dt, s, X, d) && IsRollout(f, dt, s, Y, d)
    requires |X| == |Y| >= 1 && X[0] == Y[0]
    ensures X == Y
  {
    var n := |X|;
    if n > 1 {
      RolloutPrefix(f, dt, s, X, d, n - 1);
      RolloutPrefix(f, dt, s, Y, d, n - 1);
      RolloutUnique(f, dt, s, X[..n - 1], Y[..n - 1], d);
      assert X == X[..n - 1] + [X[n - 1]];
      assert Y == Y[..n - 1] + [Y[n - 1]];
    }
  }

  /**
   * The first `n` rows the predictor writes from `x0`: row 0 is `x0`, and
   * each later row is the next step from the rows before it.
   */
  ghost function Rollout(f: seq<real> -> seq<real>, dt: real, s: Scheme, x0: seq<real>, n: nat, d: nat): (X: seq<seq<real>>)
    requires Preserves(f, d) && |x0| == d && n >= 1
    ensures |X| == n && IsMatrix(X, d) && X[0] == x0
  {
    if n == 1 then [x0]
    else
      var P := Rollout(f, dt, s, x0, n - 1, d);
      P + [NextRow(f, dt, s, P, d)]
  }

  /** One more row of a rollout is the next step from the rows so far. */
  lemma RolloutNext(f: seq<real> -> seq<real>, dt: real, s: Scheme, x0: seq<real>, n: nat, d: nat)
    requires Preserves(f, d) && |x0| == d && n >= 1
    ensures Rollout(f, dt, s, x0, n + 1, d) == Rollout(f, dt, s, x0, n, d) + [NextRow(f, dt, s, Rollout(f, dt, s, x0, n, d), d)]
  {
  }

  /** `Rollout` satisfies the row-by-row description of a rollout. */
  lemma {:induction false} RolloutIsRollout(f: seq<real> -> seq<real>, dt: real, s: Scheme, x0: seq<real>, n: nat, d: nat)
    requires Preserves(f, d) && |x0| == d && n >= 1
    ensures IsRollout(f, dt, s, Rollout(f, dt, s, x0, n, d), d)
  {
    if n > 1 {
      var P := Rollout(f, dt, s, x0, n - 1, d);
      RolloutIsRollout(f, dt, s, x0, n - 1, d);
      RolloutSnoc(f, dt, s, P, NextRow(f, dt, s, P, d), d);
    }
  }

  /** The rollouts of length `n` from `x0` are exactly `Rollout(.., x0, n, ..)`. */
  lemma RolloutCharacterized(f: seq<real> -> seq<real>, dt: real, s: Scheme, x0: seq<real>, n: nat, d: nat, Y: seq<seq<real>>)
    requires Preserves(f, d) && |x0| == d && n >= 1
    ensures IsRollout(f, dt, s, Y, d) && |Y| == n && Y[0] == x0 <==> Y == Rollout(f, dt, s, x0, n, d)
  {
    RolloutIsRollout(f, dt, s, x0, n, d);
    if IsRollout(f, dt, s, Y, d) && |Y| == n && Y[0] == x0 {
      RolloutUnique(f, dt, s, Rollout(f, dt, s, x0, n, d), Y, d);
    }
  }

  /** The stencil `NextRow` uses, by scheme and by the number of rows written so far. */
  lemma NextRowCases(f: seq<real> -> seq<real>, dt: real, s: Scheme, X: seq<seq<real>>, d: nat)
    requires Preserves(f, d) && IsMatrix(X, d) && |X| >= 1
    ensures s == Euler || |X| == 1 ==>
      NextRow(f, dt, s, X, d) == EulerStep(X[|X| - 1], f(X[|X| - 1]), dt)
    ensures (s == AB2 && |X| >= 2) || (s == AB3 && |X| == 2) ==>
      NextRow(f, dt, s, X, d) == AB2Step(X[|X| - 1], f(X[|X| - 1]), f(X[|X| - 2]), dt)
    ensures s == AB3 && |X| >= 3 ==>
      NextRow(f, dt, s, X, d) == AB3Step(X[|X| - 1], f(X[|X| - 1]), f(X[|X| - 2]), f(X[|X| - 3]), dt)
  {
  }

  /**
   * The derivatives the predictor carries into step `|X|` (after writing
   * the rows `X`): for the 2-step stencil `temp1` is the field at the row
   * before last; for the 3-step stencil `temp1` and `temp2` are the field at
   * the third- and second-to-last rows (only `temp1` when two rows exist).
   */
  ghost predicate Cached(f: seq<real> -> seq<real>, s: Scheme, X: seq<seq<real>>, temp1: seq<real>, temp2: seq<real>)
  {
    var n := |X|;
    (s == AB2 && n >= 2 ==> temp1 == f(X[n - 2])) &&
    (s == AB3 && n == 2 ==> temp1 == f(X[0])) &&
    (s == AB3 && n >= 3 ==> temp1 == f(X[n - 3]) && temp2 == f(X[n - 2]))
  }

  /**
   * `f` is the field of model `m` on states of width `d`. The equation is
   * instantiated only where the model's rate is mentioned (the values the
   * plugin returns), so the stencil layer sees `f` as an arbitrary field.
   */
  ghost predicate FieldOf(f: seq<real> -> seq<real>, m: Model, params: seq<real>, d: nat)
  {
    Fits(m, params, d) && Preserves(f, d) &&
    forall x {:trigger Rate(m, x, params)} :: |x| == d ==> f(x) == Rate(m, x, params)
  }

  /** The field of a model is its field on every width it accepts. */
  lemma FieldIsFieldOf(m: Model, params: seq<real>, d: nat)
    requires Fits(m, params, d)
    ensures FieldOf(Field(m, params), m, params, d)
  {
    forall x | |x| == d
      ensures |Field(m, params)(x)| == d && Field(m, params)(x) == Rate(m, x, params)
    {
      FieldAt(m, params, x);
    }
  }

  /**
   * One pass of the predictor's loop, for row i = |X|: evaluate the field
   * at row i-1, combine it with the cached derivatives by the stencil
   * `appr` names (cut down on the first rows), and rotate the cache.
   */
  method Advance(m: Model, params: seq<real>, appr: string, dt: real, i: nat, cur: seq<real>,
                 temp1: seq<real>, temp2: seq<real>, ghost f: seq<real> -> seq<real>, ghost s: Scheme,
                 ghost X: seq<seq<real>>, ghost d: nat)
    returns (next: seq<real>, temp1': seq<real>, temp2': seq<real>)
    requires FieldOf(f, m, params, d) && s == SchemeOf(appr)
    requires IsMatrix(X, d) && |X| == i >= 1 && cur == X[i - 1]
    requires Cached(f, s, X, temp1, temp2)
    ensures next == NextRow(f, dt, s, X, d)
    ensures Cached(f, s, X + [next], temp1', temp2')
  {
    ghost var n := |X|;
    NextRowCases(f, dt, s, X, d);
    temp1', temp2' := temp1, temp2;
    if appr == "euler" {
      temp1' := Ode(m, 0.0, cur, params);
      next := EulerStep(cur, temp1', dt);
    } else if appr == "ad2" {
      if i == 1 {
        temp1' := Ode(m, 0.0, cur, params);
        next := EulerStep(cur, temp1', dt);
      } else {
        temp2' := Ode(m, 0.0, cur, params);
        next := AB2Step(cur, temp2', temp1, dt);
        temp1' := temp2';
      }
      assert (X + [next])[n - 1] == cur;
    } else {
      if i == 1 {
        temp1' := Ode(m, 0.0, cur, params);
        next := EulerStep(cur, temp1', dt);
        assert (X + [next])[0] == cur;
      } else if i == 2 {
        temp2' := Ode(m, 0.0, cur, params);
        next := AB2Step(cur, temp2', temp1, dt);
        assert (X + [next])[n - 2] == X[n - 2] && (X + [next])[n - 1] == cur;
      } else {
        var temp3 := Ode(m, 0.0, cur, params);
        next := AB3Step(cur, temp3, temp2, temp1, dt);
        temp1', temp2' := temp2, temp3;
        assert (X + [next])[n - 2] == X[n - 2] && (X + [next])[n - 1] == cur;
      }
    }
  }

  /**
   * The body of the predictor for `T` rows: the output buffer starts as T
   * zero rows, and the loop writes row i from rows i-1, i-2, i-3 through
   * the cached derivatives, each row once and in increasing order.
   */
  method March(initState: seq<real>, T: nat, dt: real, params: seq<real>, m: Model, appr: string,
               ghost f: seq<real> -> seq<real>)
    returns (pX: seq<seq<real>>)
    requires T >= 1 && FieldOf(f, m, params, |initState|)
    ensures pX == Rollout(f, dt, SchemeOf(appr), initState, T, |initState|)
  {
    var d := |initState|;
    ghost var s := SchemeOf(appr);
    var rows := new seq<real>[T](_ => Zeros(d));
    rows[0] := initState;
    ghost var done := [initState];
    assert rows[..1] == done;
    var temp1, temp2 := Zeros(d), Zeros(d);
    for i := 1 to T
      invariant rows[..i] == done
      invariant done == Rollout(f, dt, s, initState, i, d)
      invariant Cached(f, s, done, temp1, temp2)
    {
      var cur := rows[i - 1];
      var next;
      next, temp1, temp2 := Advance(m, params, appr, dt, i, cur, temp1, temp2, f, s, done, d);
      RolloutNext(f, dt, s, initState, i, d);
      rows[i] := next;
      assert rows[..i + 1] == done + [next];
      done := done + [next];
    }
    pX := rows[..];
    assert pX == rows[..T];
  }

  /**
   * `predict(init_state, end_t, dt, params, ODE_str, appr)`: `T` rows of
   * the rollout of the model's field with the stencil `appr` names, the
   * field always evaluated at time 0 (`RolloutCharacterized` says what a
   * rollout is).
   */
  method Predict(initState: seq<real>, endT: real, dt: real, params: seq<real>, m: Model, appr: string)
    returns (pX: seq<seq<real>>)
    requires Fits(m, params, |initState|)
    requires dt != 0.0 && endT / dt >= 0.0
    ensures |pX| == Steps(endT, dt) && pX[0] == initState
    ensures Preserves(Field(m, params), |initState|)
    ensures pX == Rollout(Field(m, params), dt, SchemeOf(appr), initState, Steps(endT, dt), |initState|)
  {
    FieldIsFieldOf(m, params, |initState|);
    var T := (endT / dt + 1.0).Floor;
    pX := March(initState, T, dt, params, m, appr, Field(m, params));
  }
}
