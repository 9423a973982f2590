/** The scheduling loop of runWithID as a state machine. Every source of nondeterminism
    is an event: which in-flight task reports next and with what outcome, when the run
    context is done, which of two ready `select` branches is taken, which of several
    template errors is reported, and what the clock shows. */
module Scheduling {
  import opened Domain
  import opened Plans
  import Conditions
  import Templates

  type Results = map<string, TaskResult>

  /** Why a result was recorded. The code keeps this only as text in `error`. */
  datatype Cause = UpstreamFailed | ConditionUnmet | TemplateFailed | Executed

  /** A task whose goroutine has been started and has not been received from. */
  datatype Flight = Flight(input: Input, startedAt: int)

  datatype Phase = Looping | Left | Aborted

  datatype State = State(
    remaining: map<string, int>,
    ready: seq<string>,
    blocked: set<string>,
    results: Results,
    running: map<string, Flight>,
    active: int,
    completed: int,
    failFastTriggered: bool,
    ctxDone: bool,
    phase: Phase,
    clock: int,
    cause: map<string, Cause>,   // history: why each result was recorded
    started: seq<string>)        // history: every task whose action was started, in order

  datatype Event =
    | Pop(now: int, error: Templates.TemplateError)
    | ContextDone
    | Receive(id: string, outcome: Outcome, finishedAt: int, now: int)
    | TakeAbort
    | Leave

  const UPSTREAM := Outcome(Skipped, "", "skipped due to upstream failure", 0)

  function SkippedFor(reason: string): Outcome {
    Outcome(Skipped, "", reason, 0)
  }

  function Malformed(e: Templates.TemplateError): Outcome {
    Outcome(Failed, "", e.Message(), 1)
  }

  // ----- Steps -----

  /** The loop over a finished task's dependents: count down, and queue those at zero. */
  function Release(children: seq<string>, remaining: map<string, int>, ready: seq<string>): (map<string, int>, seq<string>)
    requires forall c :: c in children ==> c in remaining
    ensures Release(children, remaining, ready).0.Keys == remaining.Keys
  {
    if children == [] then (remaining, ready)
    else
      var front, child := children[..|children| - 1], children[|children| - 1];
      assert forall c :: c in front ==> c in children;
      var (counts, queue) := Release(front, remaining, ready);
      var left := counts[child] - 1;
      (counts[child := left], if left == 0 then queue + [child] else queue)
  }

  ghost predicate Tabled(p: Plan, s: State) {
    s.remaining.Keys == p.tasks.Keys && forall d, c :: c in Dependents(p, d) ==> c in p.tasks
  }

  /** A result enters the map; its dependents are counted down and, if it blocks, marked. */
  function Record(p: Plan, s: State, id: string, result: TaskResult, cause: Cause, blocks: bool): State
    requires s.remaining.Keys == p.tasks.Keys && forall c :: c in Dependents(p, id) ==> c in p.tasks
  {
    var children := Dependents(p, id);
    var (remaining, ready) := Release(children, s.remaining, s.ready);
    s.(
      results := s.results[id := result],
      completed := s.completed + 1,
      remaining := remaining,
      ready := ready,
      blocked := if blocks then s.blocked + (set c | c in children) else s.blocked,
      cause := s.cause[id := cause])
  }

  function TriggerFailFast(s: State, trigger: bool): State {
    if trigger then s.(failFastTriggered := true, ctxDone := true) else s
  }

  function Instant(o: Outcome, now: int): TaskResult {
    TaskResult(o, now, now)
  }

  /** What becomes of the task at the head of the queue. */
  datatype Branch = SkipUpstream | SkipCondition(reason: string) | Refuse(errors: set<Templates.TemplateError>) | Start(input: Input) | Stall

  ghost function BranchOf(t: TaskNode, blocked: bool, results: map<string, Outcome>): Branch {
    if blocked then SkipUpstream
    else
      match Conditions.Evaluate(t.condition, results)
      case Skip(reason) => SkipCondition(reason)
      case Run =>
        match Templates.ResolveInput(t.input, results)
        case Refused(errors) => Refuse(errors)
        case Hangs => Stall
        case Resolved(input) => Start(input)
  }

  ghost function HeadBranch(p: Plan, s: State): Branch
    requires s.ready != [] && s.ready[0] in p.tasks
  {
    BranchOf(p.tasks[s.ready[0]], s.ready[0] in s.blocked, Outcomes(s.results))
  }

  predicate InnerGuard(p: Plan, s: State) {
    s.active < p.limit && |s.ready| > 0
  }

  predicate Selecting(p: Plan, s: State) {
    s.phase == Looping && !InnerGuard(p, s) && s.active > 0
  }

  ghost predicate Enabled(p: Plan, s: State, e: Event) {
    match e
    case Pop(now, error) =>
      && s.phase == Looping && InnerGuard(p, s) && s.clock <= now && s.ready[0] in p.tasks
      && !HeadBranch(p, s).Stall?
      && (HeadBranch(p, s).Refuse? ==> error in HeadBranch(p, s).errors)
    case ContextDone => s.phase == Looping && !s.ctxDone
    case Receive(id, outcome, finishedAt, now) =>
      && Selecting(p, s) && id in s.running && outcome.status != Skipped
      && s.running[id].startedAt <= finishedAt <= now && s.clock <= now
    case TakeAbort => Selecting(p, s) && s.ctxDone
    case Leave => s.phase == Looping && !InnerGuard(p, s) && s.active == 0
  }

  /** The head of the queue has been taken off. */
  function Taken(s: State, now: int): State
    requires s.ready != []
  {
    s.(ready := s.ready[1..], clock := now)
  }

  function Launch(s: State, id: string, input: Input, now: int): State {
    s.(running := s.running[id := Flight(input, now)], active := s.active + 1, started := s.started + [id])
  }

  /** One result has been taken off the channel. */
  function Landed(s: State, id: string, now: int): State {
    s.(running := s.running - {id}, active := s.active - 1, clock := now)
  }

  predicate Fatal(p: Plan, id: string, o: Outcome)
    requires id in p.tasks
  {
    o.status == Failed && !p.tasks[id].allowFailure
  }

  ghost function Apply(p: Plan, s: State, e: Event): State
    requires Tabled(p, s) && Enabled(p, s, e)
    requires e.Receive? ==> e.id in p.tasks
  {
    match e
    case Pop(now, error) =>
      var id := s.ready[0];
      var t := Taken(s, now);
      (match HeadBranch(p, s)
       case SkipUpstream => Record(p, t, id, Instant(UPSTREAM, now), UpstreamFailed, true)
       case SkipCondition(reason) => Record(p, t, id, Instant(SkippedFor(reason), now), ConditionUnmet, false)
       case Refuse(_) =>
         TriggerFailFast(Record(p, t, id, Instant(Malformed(error), now), TemplateFailed, true),
           p.failFast && !p.tasks[id].allowFailure)
       case Start(input) => Launch(t, id, input, now))
    case ContextDone => s.(ctxDone := true)
    case Receive(id, outcome, finishedAt, now) =>
      var fatal := Fatal(p, id, outcome);
      TriggerFailFast(
        Record(p, Landed(s, id, now), id, TaskResult(outcome, s.running[id].startedAt, finishedAt), Executed, fatal),
        fatal && p.failFast)
    case TakeAbort => s.(phase := Aborted)
    case Leave => s.(phase := Left)
  }

  ghost predicate Initial(p: Plan, s: State) {
    && s.remaining.Keys == p.tasks.Keys
    && (forall id :: id in p.tasks ==> s.remaining[id] == |p.tasks[id].dependsOn|)
    && Distinct(s.ready)
    && (forall id :: id in s.ready <==> id in p.tasks && s.remaining[id] == 0)
    && s.blocked == {} && s.results == map[] && s.running == map[] && s.active == 0 && s.completed == 0
    && !s.failFastTriggered && s.phase == Looping && s.cause == map[] && s.started == []
  }

  // ----- Invariants -----

  /** A recorded task whose children must not run. */
  predicate Blocks(p: Plan, s: State, d: string) {
    && d in s.results && d in s.cause && d in p.tasks
    && match s.cause[d]
       case UpstreamFailed => true
       case TemplateFailed => true
       case ConditionUnmet => false
       case Executed => s.results[d].outcome.status == Failed && !p.tasks[d].allowFailure
  }

  /** Each task is in at most one of: the queue, flight, the results, the loop's hand. */
  ghost predicate Shape(p: Plan, s: State, held: set<string>) {
    && (forall id :: id in s.cause <==> id in s.results)
    && (forall id :: id in s.results ==> id in p.tasks && id !in s.running && id !in held)
    && (forall id :: id in s.running ==> id in p.tasks && id !in held)
    && (forall id :: id in held ==> id in p.tasks)
    && (forall id :: id in s.ready ==> id in p.tasks && id !in s.results && id !in s.running && id !in held)
    && Distinct(s.ready)
  }

  /** The counters are exact, and a task has been queued exactly when nothing is missing. */
  ghost predicate Counted(p: Plan, s: State, held: set<string>) {
    && (forall id :: id in s.remaining <==> id in p.tasks)
    && (forall id :: id in p.tasks ==> s.remaining[id] == Missing(p.tasks[id].dependsOn, s.results.Keys))
    && (forall id :: id in p.tasks ==>
         (s.remaining[id] == 0 <==> id in s.ready || id in s.running || id in s.results || id in held))
  }

  /** The two loop counters. */
  ghost predicate Tallied(p: Plan, s: State) {
    s.active == |s.running| && s.active <= p.limit && s.completed == |s.results|
  }

  /** The blocked set is exactly the children of blocking tasks. */
  ghost predicate BlockedExactly(p: Plan, s: State) {
    && s.blocked <= p.tasks.Keys
    && forall id :: id in p.tasks ==>
         (id in s.blocked <==> exists d :: d in p.tasks[id].dependsOn && Blocks(p, s, d))
  }

  /** Recorded outcomes fit their cause, and upstream failure is given as the cause exactly
      for blocked tasks. */
  ghost predicate Labelled(p: Plan, s: State) {
    forall id :: id in s.results && id in s.cause ==>
      Fits(s.cause[id], s.results[id].outcome) && (s.cause[id] == UpstreamFailed <==> id in s.blocked)
  }

  /** No blocked task is in flight. */
  ghost predicate Unblocked(p: Plan, s: State) {
    forall id :: id in s.running ==> id !in s.blocked
  }

  /** The task got past its condition. */
  predicate Passed(s: State, id: string) {
    id in s.running || (id in s.cause && s.cause[id] in {TemplateFailed, Executed})
  }

  /** Conditions that let a task through still hold. */
  ghost predicate StillMet(p: Plan, s: State) {
    forall id :: id in p.tasks && Passed(s, id) ==>
      Conditions.Evaluate(p.tasks[id].condition, Outcomes(s.results)) == Conditions.Run
  }

  ghost predicate Explained(p: Plan, s: State) {
    Labelled(p, s) && Unblocked(p, s) && StillMet(p, s)
  }

  predicate Fits(c: Cause, o: Outcome) {
    match c
    case UpstreamFailed => o == UPSTREAM
    case ConditionUnmet => o == SkippedFor(o.error)
    case TemplateFailed => o.status == Failed && o.attempts == 1 && o.output == ""
    case Executed => o.status != Skipped
  }

  /** The start history holds each started task once. */
  ghost predicate Starts(p: Plan, s: State, held: set<string>) {
    && Distinct(s.started)
    && (forall id :: id in s.started ==> id in s.running || id in s.results || id in held)
    && (forall id :: id in s.running ==> id in s.started)
    && (forall id :: id in s.results && id in s.cause ==> (id in s.started <==> s.cause[id] == Executed))
  }

  /** Some recorded failure is not allowed for. */
  ghost predicate Critical(p: Plan, results: Results) {
    exists id :: id in results && id in p.tasks && results[id].outcome.status == Failed && !p.tasks[id].allowFailure
  }

  /** Fail-fast is triggered exactly when it is asked for and there was a critical failure. */
  ghost predicate FailFastSound(p: Plan, s: State) {
    && (s.failFastTriggered <==> p.failFast && Critical(p, s.results))
    && (s.failFastTriggered ==> s.ctxDone)
    && (s.phase == Aborted ==> s.ctxDone && s.active > 0)
    && (s.phase == Left ==> s.active == 0 && s.ready == [])
  }

  /** Results are dated in order and not in the future. */
  ghost predicate Dated(p: Plan, s: State) {
    && (forall id :: id in s.results ==> s.results[id].startedAt <= s.results[id].finishedAt <= s.clock)
    && (forall id :: id in s.running ==> s.running[id].startedAt <= s.clock)
  }

  /** The start time of a recorded or flying task. */
  function StartOf(s: State, id: string): int
    requires id in s.results || id in s.running
  {
    if id in s.results then s.results[id].startedAt else s.running[id].startedAt
  }

  /** A task starts only after all its dependencies have finished. */
  ghost predicate InOrder(p: Plan, s: State) {
    forall id, d :: (id in s.results || id in s.running) && id in p.tasks && d in p.tasks[id].dependsOn ==>
      d in s.results && s.results[d].finishedAt <= StartOf(s, id)
  }

  ghost predicate Timed(p: Plan, s: State) {
    Dated(p, s) && InOrder(p, s)
  }

  ghost predicate Inv(p: Plan, s: State) {
    && Shape(p, s, {}) && Counted(p, s, {}) && Tallied(p, s) && BlockedExactly(p, s) && Explained(p, s)
    && Starts(p, s, {}) && FailFastSound(p, s) && Timed(p, s)
  }

  // ----- Executions -----

  ghost predicate Follows(p: Plan, s: State, e: Event, s': State) {
    Tabled(p, s) && Enabled(p, s, e) && (e.Receive? ==> e.id in p.tasks) && s' == Apply(p, s, e)
  }

  /** A finite run of the loop: an initial state and the states each event leads to. */
  ghost predicate Execution(p: Plan, states: seq<State>, events: seq<Event>) {
    && |states| == |events| + 1
    && Initial(p, states[0])
    && forall i :: 0 <= i < |events| ==> Follows(p, states[i], events[i], states[i + 1])
  }
}
