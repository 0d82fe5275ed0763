/** The per-video retry loop of the handler: call the step with a retry counter
    starting at 1; stop when it returns 0 or when the counter has passed the
    ceiling, otherwise bump the counter and call again. An exception from the
    step ends the loop at once. The step is any function of the state and the
    counter, so the loop is modelled once for every choice of external
    outcomes; the sleep between tries only delays and is not modelled. */
module Retry {
  import opened Wrappers
  import opened Numbers

  /** A result the loop retries: a returned non-zero code. */
  predicate Retried(o: PyResult<int>)
  {
    o.Returned? && o.value != 0
  }

  /** The trace of one run of the loop: the result of every call and the state
      before the first call and after each call. */
  datatype Trace<S> = Trace(results: seq<PyResult<int>>, states: seq<S>)
  {
    predicate WellFormed()
    {
      |results| >= 1 && |states| == |results| + 1
    }

    function Attempts(): nat
    {
      |results|
    }

    function Final(): PyResult<int>
      requires WellFormed()
    {
      results[|results| - 1]
    }

    function FinalState(): S
      requires WellFormed()
    {
      states[|states| - 1]
    }
  }

  /** The loop, entered with counter value `count`. */
  function Loop<S>(ceiling: int, step: (S, nat) -> (PyResult<int>, S), s: S, count: nat): (t: Trace<S>)
    ensures t.WellFormed()
    ensures t.states[0] == s
    // every try but the last returned non-zero with the counter still within the ceiling
    ensures forall i :: 0 <= i < |t.results| - 1 ==> Retried(t.results[i]) && count + i <= ceiling
    // the last try returned 0, raised, or ran with the counter past the ceiling
    ensures !Retried(t.Final()) || count + t.Attempts() - 1 > ceiling
    ensures t.Attempts() <= Max(1, ceiling + 2 - count)
    decreases Max(0, ceiling + 1 - count)
  {
    var (o, s1) := step(s, count);
    if !Retried(o) || count > ceiling then
      Trace([o], [s, s1])
    else
      var rest := Loop(ceiling, step, s1, count + 1);
      Trace([o] + rest.results, [s] + rest.states)
  }

  /** Every entry of the trace is the step applied to the state before it,
      with the counter at that try. */
  ghost predicate Follows<S>(step: (S, nat) -> (PyResult<int>, S), t: Trace<S>, count: nat)
    requires t.WellFormed()
  {
    forall i :: 0 <= i < |t.results| ==> step(t.states[i], count + i) == (t.results[i], t.states[i + 1])
  }

  /** The trace records the calls the loop actually made. */
  lemma {:induction false} LoopFollows<S>(ceiling: int, step: (S, nat) -> (PyResult<int>, S), s: S, count: nat)
    ensures Follows(step, Loop(ceiling, step, s, count), count)
    decreases Max(0, ceiling + 1 - count)
  {
    var (o, s1) := step(s, count);
    if Retried(o) && count <= ceiling {
      var rest := Loop(ceiling, step, s1, count + 1);
      LoopFollows(ceiling, step, s1, count + 1);
      var t := Loop(ceiling, step, s, count);
      assert t == Trace([o] + rest.results, [s] + rest.states);
      forall i | 0 < i < |t.results|
        ensures step(t.states[i], count + i) == (t.results[i], t.states[i + 1])
      {
        assert t.results[i] == rest.results[i - 1];
        assert t.states[i] == rest.states[i - 1] && t.states[i + 1] == rest.states[i];
        assert count + i == (count + 1) + (i - 1);
      }
    }
  }

  /** Retry bound: when every try returns non-zero, the loop calls the step
      exactly `max(1, ceiling + 2 - count)` times, so `max(1, ceiling + 1)`
      times from the handler's starting count of 1. */
  lemma {:induction false} AlwaysFailingAttempts<S>(ceiling: int, step: (S, nat) -> (PyResult<int>, S), s: S, count: nat)
    requires forall x, k :: Retried(step(x, k).0)
    ensures Loop(ceiling, step, s, count).Attempts() == Max(1, ceiling + 2 - count)
    ensures Retried(Loop(ceiling, step, s, count).Final())
    decreases Max(0, ceiling + 1 - count)
  {
    var (o, s1) := step(s, count);
    assert Retried(o);
    if count <= ceiling {
      AlwaysFailingAttempts(ceiling, step, s1, count + 1);
    }
  }

  /** The first try that does not call for a retry ends the loop: a step that
      succeeds or raises on its first call is called exactly once. */
  lemma FirstCallDecides<S>(ceiling: int, step: (S, nat) -> (PyResult<int>, S), s: S, count: nat)
    requires !Retried(step(s, count).0)
    ensures Loop(ceiling, step, s, count) == Trace([step(s, count).0], [s, step(s, count).1])
  {
  }

  /** From the handler's starting count the loop never makes more than
      `max(1, ceiling + 1)` calls, and a run that still ends non-zero made
      exactly that many. */
  lemma AttemptBound<S>(ceiling: int, step: (S, nat) -> (PyResult<int>, S), s: S)
    ensures 1 <= Loop(ceiling, step, s, 1).Attempts() <= Max(1, ceiling + 1)
    ensures Retried(Loop(ceiling, step, s, 1).Final()) ==> Loop(ceiling, step, s, 1).Attempts() == Max(1, ceiling + 1)
  {
  }
}
