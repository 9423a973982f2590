/** The entities of internal/domain/types.go that execution depends on. */
module Domain {

  datatype Option<+T> = None | Some(value: T)

  datatype TaskStatus = Success | Failed | Skipped

  /** The text a task status has in templates. */
  function StatusText(s: TaskStatus): string {
    match s
    case Success => "SUCCESS"
    case Failed => "FAILED"
    case Skipped => "SKIPPED"
  }

  /** The part of a task result that conditions and templates can read, and that
      does not depend on the clock. */
  datatype Outcome = Outcome(status: TaskStatus, output: string, error: string, attempts: nat)

  datatype TaskResult = TaskResult(outcome: Outcome, startedAt: int, finishedAt: int)

  datatype RunStatus = RunSucceeded | RunFailed | RunCancelled

  type Input = map<string, string>

  datatype CompensationSpec = CompensationSpec(action: string, input: Input, timeout: int)

  datatype RetryPolicy = RetryPolicy(maxAttempts: int, backoffBase: int)

  datatype TaskNode = TaskNode(
    id: string,
    action: string,
    input: Input,
    dependsOn: seq<string>,
    condition: string,
    runAfter: int,
    timeout: int,
    retryPolicy: RetryPolicy,
    allowFailure: bool,
    compensation: CompensationSpec)

  datatype Workflow = Workflow(
    id: string,
    maxConcurrency: int,
    failFast: bool,
    compensateOnFailure: bool,
    timeout: int,
    tasks: seq<TaskNode>)

  /** No element occurs twice. */
  ghost predicate Distinct<T>(s: seq<T>) {
    forall i, j :: 0 <= i < j < |s| ==> s[i] != s[j]
  }

  /** The clock-free part of a result map. */
  function Outcomes(results: map<string, TaskResult>): (m: map<string, Outcome>)
    ensures m.Keys == results.Keys
    ensures forall id :: id in results ==> m[id] == results[id].outcome
  {
    map id | id in results :: results[id].outcome
  }
}
