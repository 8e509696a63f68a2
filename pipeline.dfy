/**
  `Compose`: a pipeline that threads X through its sub-transforms in list
  order. A sub-transform is any object with a `transform` method; here it is
  a state of type S, and its `transform` is the function `step`, which
  returns the sub-transform's new state (ToCategorical, say, remembers the
  number of classes it inferred) and the transformed X or the exception it
  raised. `fit` and `_reset` are forwarded to every sub-transform the same way.
*/
module Pipeline {
  import opened Outcomes

  /** A sub-transform's state after its `transform` call and what the call returned or raised. */
  datatype Stepped<S, X> = Stepped(state: S, out: Result<X>)

  /** The sub-transforms' states after a pipeline run and what the run returned or raised. */
  datatype Ran<S, X> = Ran(states: seq<S>, out: Result<X>)

  /**
    Runs the sub-transforms `ts` on x in list order: the first exception
    stops the pipeline, and the sub-transforms after it keep their states.
  */
  function Run<S, X>(step: (S, X) -> Stepped<S, X>, ts: seq<S>, x: X): (r: Ran<S, X>)
    ensures |r.states| == |ts|
    ensures ts == [] ==> r == Ran([], Success(x))
    decreases |ts|
  {
    if ts == [] then Ran([], Success(x))
    else
      var prior := Run(step, ts[..|ts| - 1], x);
      var last := ts[|ts| - 1];
      if prior.out.Failure? then Ran(prior.states + [last], prior.out)
      else
        var s := step(last, prior.out.value);
        Ran(prior.states + [s.state], s.out)
  }

  /** What running `ts2` after a run `first` gives: nothing more once `first` raised. */
  function Then<S, X>(step: (S, X) -> Stepped<S, X>, first: Ran<S, X>, ts2: seq<S>): Ran<S, X> {
    if first.out.Failure? then Ran(first.states + ts2, first.out)
    else
      var second := Run(step, ts2, first.out.value);
      Ran(first.states + second.states, second.out)
  }

  /** Running `ts1 + ts2` runs ts1, then ts2 on what ts1 produced unless ts1 raised. */
  lemma {:induction false} RunAppend<S, X>(step: (S, X) -> Stepped<S, X>, ts1: seq<S>, ts2: seq<S>, x: X)
    ensures Run(step, ts1 + ts2, x) == Then(step, Run(step, ts1, x), ts2)
    decreases |ts2|
  {
    var first := Run(step, ts1, x);
    if ts2 == [] {
      assert ts1 + ts2 == ts1;
      assert first.states + [] == first.states;
    } else {
      var n := |ts2| - 1;
      assert (ts1 + ts2)[..|ts1 + ts2| - 1] == ts1 + ts2[..n];
      assert (ts1 + ts2)[|ts1 + ts2| - 1] == ts2[n];
      RunAppend(step, ts1, ts2[..n], x);
      if first.out.Failure? {
        assert first.states + ts2[..n] + [ts2[n]] == first.states + ts2;
      } else {
        var second := Run(step, ts2[..n], first.out.value);
        assert ts2[..n] + [ts2[n]] == ts2;
        if second.out.Failure? {
          assert first.states + second.states + [ts2[n]] == first.states + (second.states + [ts2[n]]);
        } else {
          var s := step(ts2[n], second.out.value);
          assert first.states + second.states + [s.state] == first.states + (second.states + [s.state]);
        }
      }
    }
  }

  /** A one-element pipeline is its sub-transform. */
  lemma RunSingle<S, X>(step: (S, X) -> Stepped<S, X>, t: S, x: X)
    ensures Run(step, [t], x) == Ran([step(t, x).state], step(t, x).out)
  {
    assert [t][..0] == [];
  }

  /**
    `Compose([t1, t2]).transform(X)` is `t2.transform(t1.transform(X))`;
    when t1 raises, t2 is not run.
  */
  lemma RunTwo<S, X>(step: (S, X) -> Stepped<S, X>, t1: S, t2: S, x: X)
    ensures var s1 := step(t1, x);
            s1.out.Success? ==>
              Run(step, [t1, t2], x) == Ran([s1.state, step(t2, s1.out.value).state], step(t2, s1.out.value).out)
    ensures var s1 := step(t1, x);
            s1.out.Failure? ==> Run(step, [t1, t2], x) == Ran([s1.state, t2], s1.out)
  {
    RunSingle(step, t1, x);
    assert [t1, t2][..1] == [t1];
  }

  /** Once a sub-transform raises, the rest of the pipeline is neither run nor changed. */
  lemma {:induction false} RunStopsAtFailure<S, X>(step: (S, X) -> Stepped<S, X>, ts: seq<S>, rest: seq<S>, x: X)
    requires Run(step, ts, x).out.Failure?
    ensures Run(step, ts + rest, x) == Ran(Run(step, ts, x).states + rest, Run(step, ts, x).out)
  {
    RunAppend(step, ts, rest, x);
  }

  /** Running one more sub-transform after a successful prefix of the pipeline. */
  lemma RunExtend<S, X>(step: (S, X) -> Stepped<S, X>, ts: seq<S>, i: nat, x: X)
    requires i < |ts| && Run(step, ts[..i], x).out.Success?
    ensures var prior := Run(step, ts[..i], x);
            var s := step(ts[i], prior.out.value);
            Run(step, ts[..i + 1], x) == Ran(prior.states + [s.state], s.out)
  {
    assert ts[..i + 1][..i] == ts[..i];
  }

  /** Overwriting the first element after a prefix of length i moves the boundary by one. */
  lemma UpdateAtBoundary<S>(done: seq<S>, ts: seq<S>, i: nat, v: S)
    requires |done| == i < |ts|
    ensures (done + ts[i..])[i := v] == (done + [v]) + ts[i + 1..]
  {
  }

  /**
    `tx.fit(X, y)` as a step of a run: every sub-transform gets the same X
    and y, and the call returns nothing or raises.
  */
  function FitStep<S, X, Y>(fit: (S, X, Option<Y>) -> Stepped<S, ()>, x: X, y: Option<Y>): (S, ()) -> Stepped<S, ()> {
    (t, u) => fit(t, x, y)
  }

  /** `tx._reset()` as a step of a run. */
  function ResetStep<S>(reset: S -> Stepped<S, ()>): (S, ()) -> Stepped<S, ()> {
    (t, u) => reset(t)
  }

  /**
    A run whose steps pass nothing along (`fit`, `_reset`) succeeds exactly
    when no sub-transform raises, and then each sub-transform's new state is
    the one its own call left it in.
  */
  lemma {:induction false} ForwardAll<S>(step: (S, ()) -> Stepped<S, ()>, ts: seq<S>)
    ensures Run(step, ts, ()).out.Success? <==> forall i :: 0 <= i < |ts| ==> step(ts[i], ()).out.Success?
    ensures Run(step, ts, ()).out.Success? ==>
              forall i :: 0 <= i < |ts| ==> Run(step, ts, ()).states[i] == step(ts[i], ()).state
    decreases |ts|
  {
    if ts != [] {
      var n := |ts| - 1;
      ForwardAll(step, ts[..n]);
      assert forall i :: 0 <= i < n ==> ts[..n][i] == ts[i];
      var prior := Run(step, ts[..n], ());
      if prior.out.Success? {
        var s := step(ts[n], ());
        assert prior.out.value == ();
        assert Run(step, ts, ()) == Ran(prior.states + [s.state], s.out);
      } else {
        assert exists i :: 0 <= i < n && step(ts[i], ()).out.Failure?;
      }
    }
  }

  /** A Compose object: its list of sub-transforms. */
  class Compose<S, X, Y> {
    var transforms: seq<S>

    constructor (transforms: seq<S>)
      ensures this.transforms == transforms
    {
      this.transforms := transforms;
    }

    /**
      The loop shared by `transform`, `fit` and `_reset`: call every
      sub-transform in list order, passing on what each returns, and stop at
      the first exception.
    */
    method Forward<Z>(step: (S, Z) -> Stepped<S, Z>, x: Z) returns (r: Result<Z>)
      modifies this
      ensures Ran(transforms, r) == Run(step, old(transforms), x)
    {
      ghost var ts := transforms;
      ghost var done: seq<S> := [];
      var states := transforms;
      var current := x;
      var i := 0;
      while i < |states|
        invariant 0 <= i <= |ts| && |states| == |ts|
        invariant done == Run(step, ts[..i], x).states && states == done + ts[i..]
        invariant Run(step, ts[..i], x).out == Success(current)
      {
        var s := step(states[i], current);
        RunExtend(step, ts, i, x);
        UpdateAtBoundary(done, ts, i, s.state);
        states := states[i := s.state];
        done := done + [s.state];
        if s.out.Failure? {
          RunStopsAtFailure(step, ts[..i + 1], ts[i + 1..], x);
          assert ts[..i + 1] + ts[i + 1..] == ts;
          transforms := states;
          return s.out;
        }
        current := s.out.value;
        i := i + 1;
      }
      assert ts[..i] == ts && states == done + [];
      transforms := states;
      r := Success(current);
    }

    /**
      `transform(X, y)`: X goes through the sub-transforms in order; y is
      accepted and never passed on, so the result depends on X alone.
    */
    method Transform(step: (S, X) -> Stepped<S, X>, x: X, y: Option<Y>) returns (r: Result<X>)
      modifies this
      ensures Ran(transforms, r) == Run(step, old(transforms), x)
    {
      r := Forward(step, x);
    }

    /** `fit(X, y)`: every sub-transform in turn is fitted on the same X and y, up to the first that raises. */
    method Fit(fit: (S, X, Option<Y>) -> Stepped<S, ()>, x: X, y: Option<Y>) returns (r: Result<()>)
      modifies this
      ensures Ran(transforms, r) == Run(FitStep(fit, x, y), old(transforms), ())
    {
      r := Forward(FitStep(fit, x, y), ());
    }

    /** `_reset()`: every sub-transform in turn is reset, up to the first that raises. */
    method Reset(reset: S -> Stepped<S, ()>) returns (r: Result<()>)
      modifies this
      ensures Ran(transforms, r) == Run(ResetStep(reset), old(transforms), ())
    {
      r := Forward(ResetStep(reset), ());
    }
  }
}
