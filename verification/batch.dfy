/** The batch loop of `sendMessage`: the calls of one model turn run
    strictly in order, each awaited before the next starts and each against
    the state the previous one left. A failing call still yields its result
    and does not stop the calls after it. The loop does not depend on what a
    call does, so it is stated for any per-call step; the service runs it
    with `Dispatcher.Execute`. */
module Batch {
  import opened Values
  import opened Store
  import opened Dispatcher

  type Executor = (State, FunctionCall) -> Step

  /** The results of running `calls` from `st`, one per call, and the state
      left at the end. */
  function RunAll(exec: Executor, st: State, calls: seq<FunctionCall>): (r: (seq<CallResult>, State))
    ensures |r.0| == |calls|
    decreases |calls|
  {
    if calls == [] then ([], st)
    else
      var prior := RunAll(exec, st, calls[..|calls| - 1]);
      var s := exec(prior.1, calls[|calls| - 1]);
      (prior.0 + [s.result], s.state)
  }

  /** Running two batches back to back is running their concatenation: the
      second batch depends on the first only through the state it leaves,
      whatever the first batch's results were. */
  lemma {:induction false} RunAllAppend(exec: Executor, st: State, first: seq<FunctionCall>, second: seq<FunctionCall>)
    ensures var r1 := RunAll(exec, st, first);
            var r2 := RunAll(exec, r1.1, second);
            RunAll(exec, st, first + second) == (r1.0 + r2.0, r2.1)
    decreases |second|
  {
    if second == [] {
      assert first + second == first;
      var r1 := RunAll(exec, st, first);
      assert RunAll(exec, r1.1, second) == ([], r1.1);
      assert r1.0 + [] == r1.0;
    } else {
      var init := second[..|second| - 1];
      assert (first + second)[..|first + second| - 1] == first + init;
      assert (first + second)[|first + second| - 1] == second[|second| - 1];
      RunAllAppend(exec, st, first, init);
      var r1 := RunAll(exec, st, first);
      var mid := RunAll(exec, r1.1, init);
      var s := exec(mid.1, second[|second| - 1]);
      calc {
        RunAll(exec, st, first + second);
        (RunAll(exec, st, first + init).0 + [s.result], s.state);
        ((r1.0 + mid.0) + [s.result], s.state);
        { assert (r1.0 + mid.0) + [s.result] == r1.0 + (mid.0 + [s.result]); }
        (r1.0 + RunAll(exec, r1.1, second).0, RunAll(exec, r1.1, second).1);
      }
    }
  }

  /** The batch loop as the service writes it: a result is pushed for every
      call, in order. `states[i]` is the state call `i` ran against. */
  method RunBatch(exec: Executor, st: State, calls: seq<FunctionCall>)
    returns (results: seq<CallResult>, states: seq<State>)
    ensures |results| == |calls| && |states| == |calls| + 1
    ensures states[0] == st
    ensures forall i :: 0 <= i < |calls| ==> exec(states[i], calls[i]) == Step(results[i], states[i + 1])
    ensures RunAll(exec, st, calls) == (results, states[|calls|])
  {
    results := [];
    states := [st];
    var i := 0;
    while i < |calls|
      invariant 0 <= i <= |calls|
      invariant |results| == i && |states| == i + 1
      invariant states[0] == st
      invariant forall j :: 0 <= j < i ==> exec(states[j], calls[j]) == Step(results[j], states[j + 1])
      invariant RunAll(exec, st, calls[..i]) == (results, states[i])
    {
      var s := exec(states[i], calls[i]);
      assert calls[..i + 1][..i] == calls[..i];
      results := results + [s.result];
      states := states + [s.state];
      i := i + 1;
    }
    assert calls[..i] == calls;
  }

  /** The service's batch: every call through `executeFunctionCall`. */
  function DispatchAll(b: Backend, st: State, calls: seq<FunctionCall>): (r: (seq<CallResult>, State))
    ensures |r.0| == |calls|
  {
    RunAll((s, c) => Execute(b, s, c), st, calls)
  }

  /** A batch only appends to the call log, keeps the project, and leaves
      every result well formed. */
  lemma {:induction false} DispatchAllFrame(b: Backend, st: State, calls: seq<FunctionCall>)
    ensures var r := DispatchAll(b, st, calls);
            && st.log <= r.1.log
            && r.1.projectUid == st.projectUid
            && forall i :: 0 <= i < |r.0| ==> WellFormed(r.0[i])
    decreases |calls|
  {
    if calls != [] {
      var init := calls[..|calls| - 1];
      DispatchAllFrame(b, st, init);
      var prior := DispatchAll(b, st, init);
      var s := Execute(b, prior.1, calls[|calls| - 1]);
      assert DispatchAll(b, st, calls) == (prior.0 + [s.result], s.state);
    }
  }
}
