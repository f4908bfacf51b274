/** Results of one execution of a generated test file, and what its harness status allows. */
module Harness {
  import opened Prelude

  datatype Outcome = Passed | Failed | Errored | Skipped

  datatype FailureKind = AssertionFailure | TestException | TestError | DuplicateNodeKey

  /** One test case of the JUnit report. */
  datatype Node = Node(id: string, testName: string, outcome: Outcome, failure: Option<FailureKind>)

  /** `report`: some JUnit text was produced. */
  datatype Execution = Execution(executed: bool, exitCode: Option<int>, timedOut: bool, report: bool, nodes: seq<Node>)

  datatype Status =
    | NotExecuted | Timeout | Interrupted | InternalError | UsageError | NoTests
    | SpawnError | JunitError | CompleteWithNodeErrors | Complete

  function HarnessStatus(x: Execution): Status {
    if !x.executed then NotExecuted
    else if x.timedOut then Timeout
    else if x.exitCode == Some(2) then Interrupted
    else if x.exitCode == Some(3) then InternalError
    else if x.exitCode == Some(4) then UsageError
    else if x.exitCode == Some(5) then NoTests
    else if x.exitCode != Some(0) && x.exitCode != Some(1) then SpawnError
    else if !x.report || x.nodes == [] then JunitError
    else if exists i :: 0 <= i < |x.nodes| && x.nodes[i].outcome == Errored then CompleteWithNodeErrors
    else Complete
  }

  predicate Scoreable(x: Execution) { HarnessStatus(x) == Complete }

  predicate InvalidGeneratedTest(x: Execution) {
    HarnessStatus(x) in {Timeout, Interrupted, NoTests, CompleteWithNodeErrors}
  }

  predicate InfrastructureError(x: Execution) {
    HarnessStatus(x) in {NotExecuted, InternalError, UsageError, SpawnError, JunitError}
  }

  predicate Eligible(n: Node) { n.outcome == Passed || n.failure == Some(AssertionFailure) }

  /** Every execution is scoreable, or the test's fault, or the evaluator's: exactly one. */
  lemma StatusPartition(x: Execution)
    ensures Scoreable(x) || InvalidGeneratedTest(x) || InfrastructureError(x)
    ensures !(Scoreable(x) && InvalidGeneratedTest(x))
    ensures !(Scoreable(x) && InfrastructureError(x))
    ensures !(InvalidGeneratedTest(x) && InfrastructureError(x))
  {
  }

  /** A complete harness ran to a pass/fail exit code, in time, with a report of at least one
      node, none of which errored. */
  lemma CompleteMeans(x: Execution)
    ensures Scoreable(x) <==>
      && x.executed && !x.timedOut && (x.exitCode == Some(0) || x.exitCode == Some(1))
      && x.report && x.nodes != []
      && forall i :: 0 <= i < |x.nodes| ==> x.nodes[i].outcome != Errored
  {
  }

  /** An execution is its test's fault exactly when it ran and timed out, was interrupted, collected
      no test, or reported an errored node. */
  lemma InvalidTestMeans(x: Execution)
    ensures InvalidGeneratedTest(x) <==>
      && x.executed
      && (|| x.timedOut || x.exitCode == Some(2) || x.exitCode == Some(5)
          || ((x.exitCode == Some(0) || x.exitCode == Some(1)) && x.report
              && exists i :: 0 <= i < |x.nodes| && x.nodes[i].outcome == Errored))
  {
  }

  /** It is the evaluator's exactly when it did not run or, in time, ended in another exit code or
      left no usable report. */
  lemma InfrastructureMeans(x: Execution)
    ensures InfrastructureError(x) <==>
      || !x.executed
      || (!x.timedOut && x.exitCode != Some(2) && x.exitCode != Some(5)
          && ((x.exitCode != Some(0) && x.exitCode != Some(1)) || !x.report || x.nodes == []))
  {
  }

  /** The status that is recorded, exactly. */
  lemma StatusMeans(x: Execution)
    ensures var s, code := HarnessStatus(x), x.exitCode;
            var ran, ended := x.executed && !x.timedOut, code == Some(0) || code == Some(1);
            && (s == NotExecuted <==> !x.executed)
            && (s == Status.Timeout <==> x.executed && x.timedOut)
            && (s == Interrupted <==> ran && code == Some(2))
            && (s == InternalError <==> ran && code == Some(3))
            && (s == UsageError <==> ran && code == Some(4))
            && (s == NoTests <==> ran && code == Some(5))
            && (s == SpawnError <==> ran && (code.None? || code.value < 0 || code.value > 5))
            && (s == JunitError <==> ran && ended && (!x.report || x.nodes == []))
            && (s == CompleteWithNodeErrors <==> ran && ended && x.report && exists i :: 0 <= i < |x.nodes| && x.nodes[i].outcome == Errored)
  {
  }
}
