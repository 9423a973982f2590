/** runTask: attempts, retries and the outcome a task reports. */
module Retry {
  import opened Domain

  /** One call of the action. Errors that wrap a context error end the retries. */
  datatype Try = Done(output: string) | Error(message: string, contextual: bool)

  /** runTask. `tries(k)` is what the k-th call returns, and `interrupts(k)` the context error
      that ends the wait after it, if one does. */
  method RunTask(task: TaskNode, known: bool, tries: nat -> Try, interrupts: nat -> Option<string>) returns (o: Outcome)
    ensures o.status != Skipped
    ensures !known ==> o == Outcome(Failed, "", "action not found: " + task.action, 0)
    ensures known ==> o.attempts == 1 || 1 < o.attempts <= task.retryPolicy.maxAttempts
    ensures known ==> forall k :: 1 <= k < o.attempts ==> tries(k).Error? && !tries(k).contextual && interrupts(k).None?
    ensures known ==> (o.status == Success <==> tries(o.attempts).Done?)
    ensures known && o.status == Success ==> o.output == tries(o.attempts).output && o.error == ""
    ensures known && o.status == Failed ==>
      && o.output == ""
      && (tries(o.attempts).contextual || interrupts(o.attempts).Some? || o.attempts >= task.retryPolicy.maxAttempts)
      && o.error == if !tries(o.attempts).contextual && o.attempts < task.retryPolicy.maxAttempts
           then interrupts(o.attempts).value else tries(o.attempts).message
  {
    if !known {
      return Outcome(Failed, "", "action not found: " + task.action, 0);
    }
    var most := if task.retryPolicy.maxAttempts <= 0 then 1 else task.retryPolicy.maxAttempts;
    var attempt, attempts, lastError := 1, 0, "";
    while attempt <= most
      invariant 1 <= attempt && 0 <= attempts <= most
      invariant attempt <= most ==> attempts == attempt - 1
      invariant attempt <= most ==>
        forall k :: 1 <= k < attempt ==> tries(k).Error? && !tries(k).contextual && interrupts(k).None?
      invariant attempt > most ==>
        && 1 <= attempts && tries(attempts).Error? && !tries(attempts).contextual
        && (forall k :: 1 <= k < attempts ==> tries(k).Error? && !tries(k).contextual && interrupts(k).None?)
        && (attempts < most ==> interrupts(attempts).Some? && lastError == interrupts(attempts).value)
        && (attempts == most ==> lastError == tries(attempts).message)
    {
      attempts := attempt;
      match tries(attempt) {
        case Done(output) => return Outcome(Success, output, "", attempts);
        case Error(message, contextual) =>
          lastError := message;
          if contextual {
            break;
          }
      }
      if attempt < most {
        var interrupted := interrupts(attempt);
        if interrupted.Some? {
          lastError := interrupted.value;
          attempt := most;
        }
      }
      attempt := attempt + 1;
    }
    return Outcome(Failed, "", lastError, attempts);
  }

  /** Retrying is decided by the first attempt that does not go on: a task succeeds exactly
      when some allowed attempt succeeds and every earlier one failed plainly and was waited
      out. */
  lemma SucceedsIff(task: TaskNode, tries: nat -> Try, interrupts: nat -> Option<string>, o: Outcome)
    requires o.attempts == 1 || 1 < o.attempts <= task.retryPolicy.maxAttempts
    requires forall k :: 1 <= k < o.attempts ==> tries(k).Error? && !tries(k).contextual && interrupts(k).None?
    requires o.status == Success <==> tries(o.attempts).Done?
    requires o.status != Success ==>
      tries(o.attempts).contextual || interrupts(o.attempts).Some? || o.attempts >= task.retryPolicy.maxAttempts
    ensures o.status == Success <==> exists k: nat ::
      && (k == 1 || 1 < k <= task.retryPolicy.maxAttempts) && tries(k).Done?
      && (forall j :: 1 <= j < k ==> tries(j).Error? && !tries(j).contextual && interrupts(j).None?)
  {
    if k: nat :|
      && (k == 1 || 1 < k <= task.retryPolicy.maxAttempts) && tries(k).Done?
      && (forall j :: 1 <= j < k ==> tries(j).Error? && !tries(j).contextual && interrupts(j).None?)
    {
      assert k < o.attempts ==> tries(k).Error?;
      assert o.attempts < k ==> tries(o.attempts).Error?;
    }
  }
}
