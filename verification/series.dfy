/**
 * Sequential, short-circuiting execution of asynchronous steps, as the
 * `async.series` calls in lib/Middleware.js and lib/Engine.js use it: each
 * step is started only after the previous one reported success, the first
 * failure is handed to the final callback and nothing after it runs.
 * Callbacks are modelled as a step returning its status.
 */
module Series {

  /** What a step reports to its callback: no error, or an error with its message. */
  datatype Status = Done | Failed(message: string)

  /**
   * Running `steps` in order over the same `data`: the steps that were
   * invoked, in invocation order, and the status the final callback receives.
   */
  function Outcome<S, D>(steps: seq<S>, data: D, call: (S, D) -> Status): (r: (seq<S>, Status))
    ensures |r.0| <= |steps|
    ensures r.1 == Done ==> r.0 == steps
    decreases |steps|
  {
    if steps == [] then ([], Done)
    else match call(steps[0], data)
      case Failed(m) => ([steps[0]], Failed(m))
      case Done =>
        var rest := Outcome(steps[1..], data, call);
        ([steps[0]] + rest.0, rest.1)
  }

  /**
   * What the final callback sees: the invoked steps are a prefix of `steps`
   * in registration order; success means every step ran and succeeded;
   * failure means the last invoked step failed with exactly that error and
   * every step before it succeeded.
   */
  lemma {:induction false} OutcomeFacts<S, D>(steps: seq<S>, data: D, call: (S, D) -> Status)
    ensures var r := Outcome(steps, data, call);
      |r.0| <= |steps| && r.0 == steps[..|r.0|] &&
      (r.1 == Done <==> r.0 == steps && forall k :: 0 <= k < |steps| ==> call(steps[k], data) == Done) &&
      (r.1.Failed? ==>
         |r.0| > 0 && call(r.0[|r.0| - 1], data) == r.1 &&
         forall k :: 0 <= k < |r.0| - 1 ==> call(r.0[k], data) == Done)
    decreases |steps|
  {
    if steps != [] && call(steps[0], data) == Done {
      OutcomeFacts(steps[1..], data, call);
      var rest := Outcome(steps[1..], data, call);
      assert Outcome(steps, data, call) == ([steps[0]] + rest.0, rest.1);
      assert steps == [steps[0]] + steps[1..];
      forall k | 1 <= k < |rest.0| + 1
        ensures ([steps[0]] + rest.0)[k] == rest.0[k - 1]
      {
      }
    }
  }

  /** After a run of successful steps, the series continues as the series of what is left. */
  lemma {:induction false} OutcomeAfterDone<S, D>(steps: seq<S>, data: D, call: (S, D) -> Status, i: nat)
    requires i <= |steps|
    requires forall k :: 0 <= k < i ==> call(steps[k], data) == Done
    ensures Outcome(steps, data, call) ==
            (steps[..i] + Outcome(steps[i..], data, call).0, Outcome(steps[i..], data, call).1)
  {
    if i == 0 {
      assert steps[i..] == steps;
      assert steps[..i] + Outcome(steps, data, call).0 == Outcome(steps, data, call).0;
    } else {
      assert call(steps[0], data) == Done;
      var rest := Outcome(steps[1..], data, call);
      assert Outcome(steps, data, call) == ([steps[0]] + rest.0, rest.1);
      OutcomeAfterDone(steps[1..], data, call, i - 1);
      assert steps[1..][i - 1..] == steps[i..];
      assert [steps[0]] + steps[1..][..i - 1] == steps[..i];
      var tail := Outcome(steps[i..], data, call);
      assert rest == (steps[1..][..i - 1] + tail.0, tail.1);
      assert [steps[0]] + (steps[1..][..i - 1] + tail.0) == steps[..i] + tail.0;
    }
  }

  /** The step-by-step runner: invokes the steps one at a time and stops at the first failure. */
  method RunSeries<S, D>(steps: seq<S>, data: D, call: (S, D) -> Status) returns (invoked: seq<S>, status: Status)
    ensures (invoked, status) == Outcome(steps, data, call)
  {
    invoked, status := [], Done;
    var i := 0;
    while i < |steps|
      invariant 0 <= i <= |steps|
      invariant forall k :: 0 <= k < i ==> call(steps[k], data) == Done
      invariant invoked == steps[..i] && status == Done
    {
      var s := call(steps[i], data);
      invoked := invoked + [steps[i]];
      if s.Failed? {
        OutcomeAfterDone(steps, data, call, i);
        assert steps[i..][0] == steps[i];
        assert Outcome(steps[i..], data, call) == ([steps[i]], s);
        assert steps[..i] + [steps[i]] == invoked;
        status := s;
        return;
      }
      i := i + 1;
    }
    OutcomeAfterDone(steps, data, call, i);
    assert steps[i..] == [];
    assert Outcome(steps[i..], data, call) == ([], Done);
    assert steps[..i] + [] == invoked;
  }
}
