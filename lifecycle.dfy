/**
  The execution lifecycle behind `DAGTask.execute`: wait until the Tez client
  is ready, submit the DAG, wait for its terminal status, and stop the client
  whatever happened. The client is reduced to the calls made on it (a trace)
  and a script saying which of them throw and which status the DAG ends in.
*/
module Lifecycle {
  import opened Wrappers
  import opened TezDag

  /** The terminal states the run can observe; only `Succeeded` is treated specially. */
  datatype DagState = Succeeded | Failed | Killed | Error

  datatype DagStatus = DagStatus(state: DagState, diagnostics: string)

  /** How the client behaves: which calls throw, and the status the DAG ends
      in (None: waiting for it throws). */
  datatype ClientScript = ClientScript(
    readyFails: bool,
    submitFails: bool,
    completion: Option<DagStatus>,
    stopFails: bool)

  datatype Call = WaitTillReady | SubmitDag(dag: Dag) | WaitForCompletion | Stop

  /** What `run` ends with: a terminal status, with the diagnostics it
      reports when that status is not `Succeeded`, or the
      `IllegalStateException` it throws, naming the client call that failed. */
  datatype RunOutcome =
    | Completed(status: DagStatus, reported: Option<string>)
    | Raised(failedCall: Call)

  /** The calls `run` makes: each step only after the previous one succeeded. */
  function RunCalls(s: ClientScript, d: Dag): seq<Call> {
    [WaitTillReady] +
    if s.readyFails then [] else [SubmitDag(d)] + if s.submitFails then [] else [WaitForCompletion]
  }

  function RunResult(s: ClientScript, d: Dag): RunOutcome {
    if s.readyFails then Raised(WaitTillReady)
    else if s.submitFails then Raised(SubmitDag(d))
    else if s.completion.None? then Raised(WaitForCompletion)
    else
      var status := s.completion.value;
      Completed(status, if status.state != Succeeded then Some("DAG diagnostics: " + status.diagnostics) else None)
  }

  /** The calls `execute` makes: those of `run`, then `stop` in the `finally` block. */
  function ExecuteCalls(s: ClientScript, d: Dag): seq<Call> {
    RunCalls(s, d) + [Stop]
  }

  function Occurrences(calls: seq<Call>, c: Call): nat {
    if |calls| == 0 then 0
    else Occurrences(calls[..|calls| - 1], c) + if calls[|calls| - 1] == c then 1 else 0
  }

  lemma OccurrencesAppend(calls: seq<Call>, x: Call, c: Call)
    ensures Occurrences(calls + [x], c) == Occurrences(calls, c) + if x == c then 1 else 0
  {
    assert (calls + [x])[..|calls|] == calls;
  }

  lemma {:induction false} OccurrencesOfAbsent(calls: seq<Call>, c: Call)
    requires c !in calls
    ensures Occurrences(calls, c) == 0
  {
    if |calls| > 0 {
      OccurrencesOfAbsent(calls[..|calls| - 1], c);
    }
  }

  /** Whatever the client does, `execute` stops it exactly once, as its last
      call, and whether `stop` itself throws makes no difference. */
  lemma StopExactlyOnce(s: ClientScript, d: Dag)
    ensures Occurrences(ExecuteCalls(s, d), Stop) == 1
    ensures ExecuteCalls(s, d)[|ExecuteCalls(s, d)| - 1] == Stop
    ensures ExecuteCalls(s, d) == ExecuteCalls(s.(stopFails := !s.stopFails), d)
  {
    OccurrencesOfAbsent(RunCalls(s, d), Stop);
    OccurrencesAppend(RunCalls(s, d), Stop, Stop);
  }

  /** `run` follows wait-ready, submit, wait-for-completion in that order and
      stops at the first call that throws; it submits at most once, and only
      the DAG it was given. */
  lemma RunOrder(s: ClientScript, d: Dag)
    ensures RunCalls(s, d) <= [WaitTillReady, SubmitDag(d), WaitForCompletion]
    ensures |RunCalls(s, d)| == if s.readyFails then 1 else if s.submitFails then 2 else 3
    ensures forall c :: c in RunCalls(s, d) && c.SubmitDag? ==> c == SubmitDag(d)
  {
  }

  /** `run` throws exactly when one of its client calls throws; a terminal
      status other than `Succeeded` is only reported, never thrown. */
  lemma RunRaisesIff(s: ClientScript, d: Dag)
    ensures RunResult(s, d).Raised? <==> s.readyFails || s.submitFails || s.completion.None?
    ensures RunResult(s, d).Raised? ==> RunResult(s, d).failedCall == RunCalls(s, d)[|RunCalls(s, d)| - 1]
    ensures RunResult(s, d).Completed? ==>
      && RunResult(s, d).status == s.completion.value
      && (RunResult(s, d).reported.Some? <==> s.completion.value.state != Succeeded)
  {
  }

  /** The Tez client, reduced to the calls made on it and its script. */
  class TezClient {
    const script: ClientScript
    var calls: seq<Call>

    constructor (script: ClientScript)
      ensures this.script == script && calls == []
    {
      this.script := script;
      calls := [];
    }

    method WaitTillReady() returns (ok: bool)
      modifies this
      ensures calls == old(calls) + [Call.WaitTillReady]
      ensures ok == !script.readyFails
    {
      calls := calls + [Call.WaitTillReady];
      ok := !script.readyFails;
    }

    method SubmitDag(d: Dag) returns (ok: bool)
      modifies this
      ensures calls == old(calls) + [Call.SubmitDag(d)]
      ensures ok == !script.submitFails
    {
      calls := calls + [Call.SubmitDag(d)];
      ok := !script.submitFails;
    }

    method WaitForCompletion() returns (status: Option<DagStatus>)
      modifies this
      ensures calls == old(calls) + [Call.WaitForCompletion]
      ensures status == script.completion
    {
      calls := calls + [Call.WaitForCompletion];
      status := script.completion;
    }

    method Stop() returns (ok: bool)
      modifies this
      ensures calls == old(calls) + [Call.Stop]
      ensures ok == !script.stopFails
    {
      calls := calls + [Call.Stop];
      ok := !script.stopFails;
    }
  }
}
