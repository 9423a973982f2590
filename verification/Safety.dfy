/** What holds of every execution of the scheduling loop, whatever order tasks finish in,
    whatever they return, and whenever the run is cancelled. */
module Safety {
  import opened Domain
  import opened Plans
  import opened Scheduling
  import opened Steps
  import Invariants
  import Conditions
  import Templates

  // ----- Conservation -----

  /** The tasks still waiting for a dependency. */
  ghost function Waiting(p: Plan, s: State): set<string> {
    set id | id in p.tasks && id !in s.ready && id !in s.running && id !in s.results
  }

  ghost function Queue(s: State): set<string> {
    set id | id in s.ready
  }

  lemma {:induction false} DistinctSize(s: seq<string>)
    requires Distinct(s)
    ensures |set x | x in s| == |s|
  {
    if s != [] {
      var front, last := s[..|s| - 1], s[|s| - 1];
      DistinctSize(front);
      assert (set x | x in s) == (set x | x in front) + {last};
      assert last !in front;
    }
  }

  /** Waiting + ready + active + completed tasks are all the tasks, each counted once; the
      counters are exact; and no more results are ever sent than the channel can hold. */
  lemma Conservation(p: Plan, states: seq<State>, events: seq<Event>, i: nat)
    requires Sound(p) && Execution(p, states, events) && i < |states|
    ensures var s := states[i];
      && s.completed + s.active + |s.ready| + |Waiting(p, s)| == |p.tasks|
      && |s.running| == s.active <= p.limit
      && (forall id :: id in p.tasks ==> id in s.remaining && s.remaining[id] == Missing(p.tasks[id].dependsOn, s.results.Keys))
      && Distinct(s.started) && |s.started| <= |p.tasks|
  {
    var s := states[i];
    AlwaysInv(p, states, events, i);
    hide Execution, Sound;
    InvConserves(p, s);
  }

  lemma Partition(p: Plan, s: State)
    requires Shape(p, s, {})
    ensures p.tasks.Keys == s.results.Keys + s.running.Keys + Queue(s) + Waiting(p, s)
    ensures s.results.Keys !! s.running.Keys !! Queue(s) !! Waiting(p, s)
  {
    hide Distinct;
  }

  lemma InvConserves(p: Plan, s: State)
    requires Inv(p, s)
    ensures s.completed + s.active + |s.ready| + |Waiting(p, s)| == |p.tasks|
    ensures Distinct(s.started) && |s.started| <= |p.tasks|
    ensures |s.running| == s.active <= p.limit
    ensures forall id :: id in p.tasks ==> id in s.remaining && s.remaining[id] == Missing(p.tasks[id].dependsOn, s.results.Keys)
  {
    hide BlockedExactly, Explained, FailFastSound, Timed, Missing;
    Partition(p, s);
    DistinctSize(s.ready);
    assert |p.tasks| == |p.tasks.Keys|;
    assert |s.results.Keys + s.running.Keys + Queue(s) + Waiting(p, s)| ==
      |s.results.Keys| + |s.running.Keys| + |Queue(s)| + |Waiting(p, s)|;
    StartsAreTasks(p, s);
  }

  lemma StartsAreTasks(p: Plan, s: State)
    requires Shape(p, s, {}) && Starts(p, s, {})
    ensures |s.started| <= |p.tasks|
  {
    DistinctSize(s.started);
    Subset((set x | x in s.started), p.tasks.Keys);
  }

  lemma {:induction false} Subset(a: set<string>, b: set<string>)
    requires a <= b
    ensures |a| <= |b|
  {
    assert b == a + (b - a);
  }

  // ----- Results are written once -----

  ghost predicate Keeps(s: State, s': State) {
    && (forall id :: id in s.results ==> id in s'.results && s'.results[id] == s.results[id])
    && (forall id :: id in s.cause ==> id in s'.cause && s'.cause[id] == s.cause[id])
    && s.clock <= s'.clock
    && |s.started| <= |s'.started| && s'.started[..|s.started|] == s.started
  }

  /** What an event leaves of the record. */
  lemma RecordKeeps(p: Plan, s: State, t: State, id: string, result: TaskResult, cause: Cause, blocks: bool, trigger: bool)
    requires Tabled(p, t) && t.results == s.results && t.cause == s.cause && t.started == s.started && s.clock <= t.clock
    requires id !in s.results && id !in s.cause
    ensures Keeps(s, TriggerFailFast(Record(p, t, id, result, cause, blocks), trigger))
  {
    Invariants.RecordWrites(p, t, id, result, cause, blocks);
    hide Record;
  }

  lemma LaunchKeeps(s: State, t: State, id: string, input: Input, now: int)
    requires t.results == s.results && t.cause == s.cause && t.started == s.started && s.clock <= t.clock
    ensures Keeps(s, Launch(t, id, input, now))
  {
  }

  lemma HeadUnrecorded(p: Plan, s: State)
    requires Shape(p, s, {}) && s.ready != []
    ensures s.ready[0] !in s.results && s.ready[0] !in s.cause && s.ready[0] !in s.running
  {
    assert s.ready[0] in s.ready;
    hide Distinct;
  }

  lemma FlightUnrecorded(p: Plan, s: State, id: string)
    requires Shape(p, s, {}) && id in s.running
    ensures id !in s.results && id !in s.cause
  {
    hide Distinct;
  }

  lemma StepWritesOnce(p: Plan, s: State, e: Event, s': State)
    requires Inv(p, s) && Follows(p, s, e, s')
    ensures Keeps(s, s')
  {
    hide Record, HeadBranch, Shape, Counted, Tallied, BlockedExactly, Explained, Starts, FailFastSound, Timed;
    match e
    case Pop(now, error) =>
      var id := s.ready[0];
      HeadUnrecorded(p, s);
      match HeadBranch(p, s) {
      case SkipUpstream => RecordKeeps(p, s, Taken(s, now), id, Instant(UPSTREAM, now), UpstreamFailed, true, false);
      case SkipCondition(reason) => RecordKeeps(p, s, Taken(s, now), id, Instant(SkippedFor(reason), now), ConditionUnmet, false, false);
      case Refuse(errors) =>
        RecordKeeps(p, s, Taken(s, now), id, Instant(Malformed(error), now), TemplateFailed, true, p.failFast && !p.tasks[id].allowFailure);
      case Start(input) => LaunchKeeps(s, Taken(s, now), id, input, now);
      case Stall =>
      }
    case Receive(id, outcome, finishedAt, now) =>
      FlightUnrecorded(p, s, id);
      var fatal := Fatal(p, id, outcome);
      RecordKeeps(p, s, Landed(s, id, now), id, TaskResult(outcome, s.running[id].startedAt, finishedAt), Executed, fatal, fatal && p.failFast);
    case _ =>
  }

  lemma KeepsReflexive(s: State)
    ensures Keeps(s, s)
  {
    assert s.started[..|s.started|] == s.started;
  }

  lemma KeepsTransitive(a: State, b: State, c: State)
    requires Keeps(a, b) && Keeps(b, c)
    ensures Keeps(a, c)
  {
    assert c.started[..|a.started|] == c.started[..|b.started|][..|a.started|];
  }

  /** A recorded result, its cause and the start history never change afterwards. */
  lemma {:induction false} WriteOnce(p: Plan, states: seq<State>, events: seq<Event>, i: nat, j: nat)
    requires Sound(p) && Execution(p, states, events) && i <= j < |states|
    ensures Keeps(states[i], states[j])
  {
    hide Keeps, Inv, Follows, Sound, Initial;
    if i == j {
      KeepsReflexive(states[i]);
    } else {
      WriteOnce(p, states, events, i, j - 1);
      AlwaysInv(p, states, events, j - 1);
      StepWritesOnce(p, states[j - 1], events[j - 1], states[j]);
      KeepsTransitive(states[i], states[j - 1], states[j]);
    }
  }

  // ----- No stall -----

  /** A waiting task of least rank has all its dependencies recorded. */
  lemma LeastWaiting(p: Plan, rank: map<string, nat>, todo: set<string>) returns (id: string)
    requires Ranks(p, rank) && todo != {} && todo <= p.tasks.Keys
    ensures id in todo && forall d :: d in p.tasks[id].dependsOn ==> d !in todo
    decreases todo
  {
    id :| id in todo;
    if x :| x in todo && rank[x] < rank[id] {
      var smaller := set y | y in todo && rank[y] < rank[id];
      assert id !in smaller && x in smaller;
      id := LeastWaiting(p, rank, smaller);
      forall d | d in p.tasks[id].dependsOn ensures d !in todo {
        assert rank[d] < rank[id];
      }
    }
  }

  /** A task whose dependencies are all recorded is queued, in flight or recorded. */
  lemma ReadyOnceFree(p: Plan, s: State, id: string)
    requires Counted(p, s, {}) && id in p.tasks && forall d :: d in p.tasks[id].dependsOn ==> d in s.results
    ensures id in s.ready || id in s.running || id in s.results
  {
    MissingZero(p.tasks[id].dependsOn, s.results.Keys);
    hide Missing;
  }

  lemma DependenciesKnown(p: Plan, rank: map<string, nat>, id: string)
    requires Ranks(p, rank) && id in p.tasks
    ensures forall d :: d in p.tasks[id].dependsOn ==> d in p.tasks
  {
  }

  lemma ResultsKnown(p: Plan, s: State)
    requires Shape(p, s, {})
    ensures s.results.Keys <= p.tasks.Keys
  {
  }

  /** With nothing in flight and nothing queued, every task has its result: the loop's idle
      `break` is never taken with tasks outstanding. */
  lemma NoStall(p: Plan, s: State)
    requires Sound(p) && Inv(p, s) && s.active == 0 && s.ready == []
    ensures s.results.Keys == p.tasks.Keys && s.completed == |p.tasks|
  {
    hide Shape, Counted, BlockedExactly, Explained, Starts, FailFastSound, Timed, Distinct, Mirrors, Ranks;
    var todo := p.tasks.Keys - s.results.Keys;
    if todo != {} {
      var rank :| Ranks(p, rank);
      var id := LeastWaiting(p, rank, todo);
      DependenciesKnown(p, rank, id);
      ReadyOnceFree(p, s, id);
    }
    ResultsKnown(p, s);
  }

  /** Without cancellation the loop ends with exactly one result per task. */
  lemma LeftComplete(p: Plan, states: seq<State>, events: seq<Event>)
    requires Sound(p) && Execution(p, states, events) && states[|events|].phase == Left
    ensures states[|events|].results.Keys == p.tasks.Keys && states[|events|].completed == |p.tasks|
  {
    AlwaysInv(p, states, events, |events|);
    hide Execution;
    NoStall(p, states[|events|]);
  }

  // ----- Progress and termination -----

  /** While the loop runs, some event other than cancellation is possible, unless the task at
      the head of the queue has a template that never finishes resolving. */
  lemma Progress(p: Plan, s: State) returns (e: Event)
    requires Sound(p) && Inv(p, s) && s.phase == Looping
    requires InnerGuard(p, s) && s.ready[0] in p.tasks ==> !HeadBranch(p, s).Stall?
    ensures Enabled(p, s, e) && !e.ContextDone? && !e.TakeAbort?
    ensures s.active > 0 && !InnerGuard(p, s) ==> e.Receive?
  {
    hide Counted, BlockedExactly, Explained, Starts, FailFastSound, Distinct;
    if InnerGuard(p, s) {
      assert s.ready[0] in s.ready;
      var error := Templates.Unclosed("");
      if HeadBranch(p, s).Refuse? {
        error := RefusalHasError(p, s);
      }
      e := Pop(s.clock, error);
    } else if s.active > 0 {
      assert s.running != map[];
      var id :| id in s.running;
      e := Receive(id, Outcome(Success, "", "", 1), s.clock, s.clock);
    } else {
      e := Leave;
    }
  }

  lemma RefusalHasError(p: Plan, s: State) returns (error: Templates.TemplateError)
    requires s.ready != [] && s.ready[0] in p.tasks && HeadBranch(p, s).Refuse?
    ensures error in HeadBranch(p, s).errors
  {
    var t := p.tasks[s.ready[0]];
    var results := Outcomes(s.results);
    hide Templates.Resolve, Conditions.Evaluate;
    assert Templates.ResolveInput(t.input, results).Refused?;
    var k :| k in t.input && Templates.Resolve(t.input[k], results).Rejected?;
    error := Templates.Resolve(t.input[k], results).error;
  }

  /** What is left to do: two for a task not started, one for a task in flight. */
  function Work(p: Plan, s: State): int {
    2 * (|p.tasks| - s.completed) - s.active
  }

  function Weight(e: Event): nat {
    if e.Pop? || e.Receive? then 1 else 0
  }

  /** What recording does to the loop's bookkeeping fields. */
  lemma RecordFields(p: Plan, t: State, id: string, result: TaskResult, cause: Cause, blocks: bool)
    requires Tabled(p, t)
    ensures var s' := Record(p, t, id, result, cause, blocks);
      s'.completed == t.completed + 1 && s'.active == t.active && s'.ctxDone == t.ctxDone && s'.phase == t.phase
  {
    hide Release, Dependents;
  }

  lemma StepWorks(p: Plan, s: State, e: Event, s': State)
    requires Follows(p, s, e, s')
    ensures Work(p, s') <= Work(p, s) - Weight(e)
    ensures s.ctxDone ==> s'.ctxDone
    ensures e.ContextDone? ==> s'.ctxDone && !s.ctxDone
    ensures s.phase == Looping && (e.TakeAbort? || e.Leave? ==> s'.phase != Looping)
  {
    hide Record, HeadBranch;
    match e
    case Pop(now, error) =>
      var id, t := s.ready[0], Taken(s, now);
      RecordFields(p, t, id, Instant(UPSTREAM, now), UpstreamFailed, true);
      RecordFields(p, t, id, Instant(Malformed(error), now), TemplateFailed, true);
      if HeadBranch(p, s).SkipCondition? {
        RecordFields(p, t, id, Instant(SkippedFor(HeadBranch(p, s).reason), now), ConditionUnmet, false);
      }
    case Receive(id, outcome, finishedAt, now) =>
      RecordFields(p, Landed(s, id, now), id, TaskResult(outcome, s.running[id].startedAt, finishedAt), Executed, Fatal(p, id, outcome));
    case _ =>
  }

  function Weights(events: seq<Event>): nat {
    if events == [] then 0 else Weights(events[..|events| - 1]) + Weight(events[|events| - 1])
  }

  function Flags(events: seq<Event>): nat {
    if events == [] then 0 else Flags(events[..|events| - 1]) + 1 - Weight(events[|events| - 1])
  }

  lemma {:induction false} WorkShrinks(p: Plan, states: seq<State>, events: seq<Event>)
    requires Execution(p, states, events)
    ensures Work(p, states[|events|]) + Weights(events) <= 2 * |p.tasks|
    ensures Flags(events) <= (if states[|events|].ctxDone then 1 else 0) + (if states[|events|].phase != Looping then 1 else 0)
    ensures Weights(events) + Flags(events) == |events|
  {
    if events != [] {
      var n := |events| - 1;
      assert Execution(p, states[..|events|], events[..n]);
      WorkShrinks(p, states[..|events|], events[..n]);
      assert Follows(p, states[n], events[n], states[n + 1]);
      hide Follows, Initial;
      StepWorks(p, states[n], events[n], states[n + 1]);
    }
  }

  /** Every execution is finite: two events per task, one cancellation and one exit at most. */
  lemma Terminates(p: Plan, states: seq<State>, events: seq<Event>)
    requires Sound(p) && Execution(p, states, events)
    ensures |events| <= 2 * |p.tasks| + 2
  {
    WorkShrinks(p, states, events);
    AlwaysInv(p, states, events, |events|);
    hide Execution;
    InvConserves(p, states[|events|]);
  }

  // ----- Transitive blocking -----

  /** `path` leads from a task to a transitive dependent. */
  ghost predicate Chain(p: Plan, path: seq<string>) {
    && |path| >= 2
    && forall i :: 0 <= i < |path| - 1 ==> Link(p, path[i], path[i + 1])
  }

  predicate Link(p: Plan, d: string, id: string) {
    id in p.tasks && d in p.tasks[id].dependsOn
  }

  /** A chain of dependencies leads from `d` to `id`. */
  ghost predicate Upstream(p: Plan, d: string, id: string) {
    exists path :: Chain(p, path) && path[0] == d && path[|path| - 1] == id
  }

  /** Whatever got past blocking has all its transitive dependencies recorded, none blocking. */
  lemma {:induction false} PassedIsClear(p: Plan, s: State, path: seq<string>)
    requires Inv(p, s) && Chain(p, path)
    requires var y := path[|path| - 1]; y in s.running || (y in s.results && s.cause[y] != UpstreamFailed)
    ensures path[0] in s.results && !Blocks(p, s, path[0])
    decreases |path|
  {
    hide Tallied, Starts, FailFastSound, Timed, Distinct, StillMet;
    var y, d := path[|path| - 1], path[|path| - 2];
    assert y !in s.blocked;
    assert Link(p, d, y);
    MissingZero(p.tasks[y].dependsOn, s.results.Keys);
    assert d in s.results && !Blocks(p, s, d);
    if |path| > 2 {
      assert s.cause[d] != UpstreamFailed;
      PassedIsClear(p, s, path[..|path| - 1]);
    }
  }

  lemma BlocksAgree(p: Plan, s: State, s': State, x: string)
    requires Keeps(s, s') && x in s.results && x in s.cause
    ensures Blocks(p, s', x) == Blocks(p, s, x)
  {
  }

  /** Once a task is recorded as failed by its action without allowFailure, or by its
      templates, no transitive dependent's action is ever started, before or after, and each
      is recorded, if at all, as skipped because of it. */
  lemma BlockedForGood(p: Plan, states: seq<State>, events: seq<Event>, i: nat, j: nat, path: seq<string>)
    requires Sound(p) && Execution(p, states, events) && i < |states| && j < |states|
    requires Chain(p, path) && Blocks(p, states[i], path[0])
    ensures var y := path[|path| - 1];
      && y !in states[j].started
      && (y in states[j].results ==> states[j].results[y].outcome == UPSTREAM)
  {
    var x, y := path[0], path[|path| - 1];
    AlwaysInv(p, states, events, j);
    if i <= j {
      WriteOnce(p, states, events, i, j);
      BlocksAgree(p, states[i], states[j], x);
    } else {
      WriteOnce(p, states, events, j, i);
    }
    var s := states[j];
    hide Execution, Sound, Counted, Tallied, BlockedExactly, StillMet, Unblocked, FailFastSound, Timed, Distinct;
    if y in s.running || (y in s.results && s.cause[y] != UpstreamFailed) {
      PassedIsClear(p, s, path);
      if j < i {
        BlocksAgree(p, states[j], states[i], x);
      }
      assert false;
    }
    if y in s.results {
      assert Fits(s.cause[y], s.results[y].outcome);
    }
  }

  // ----- Routing -----

  /** What a started task's condition asks for holds of the results. */
  lemma StartedMet(p: Plan, s: State, id: string)
    requires Inv(p, s) && id in s.started
    ensures id in p.tasks && Conditions.Evaluate(p.tasks[id].condition, Outcomes(s.results)) == Conditions.Run
    ensures Conditions.Met(p.tasks[id].condition, Outcomes(s.results))
  {
    hide Counted, Tallied, BlockedExactly, Labelled, Unblocked, FailFastSound, Timed, Distinct, Conditions.Evaluate, Conditions.Met;
    assert Passed(s, id);
    Conditions.EvaluateIff(p.tasks[id].condition, Outcomes(s.results));
  }

  /** At most one of an `on_success:x` and an `on_failed:x` task is ever started. */
  lemma RoutesExclude(p: Plan, states: seq<State>, events: seq<Event>, a: string, b: string, x: string)
    requires Sound(p) && Execution(p, states, events) && a in p.tasks && b in p.tasks
    requires Conditions.Parse(p.tasks[a].condition) == Conditions.OnSuccess(x)
    requires Conditions.Parse(p.tasks[b].condition) == Conditions.OnFailed(x)
    ensures !(a in states[|events|].started && b in states[|events|].started)
  {
    hide Inv, Conditions.Parse, Conditions.Evaluate;
    AlwaysInv(p, states, events, |events|);
    hide Execution, Sound;
    var s := states[|events|];
    if a in s.started && b in s.started {
      StartedMet(p, s, a);
      StartedMet(p, s, b);
      FailedRead(p.tasks[b].condition, x, Outcomes(s.results));
      SucceededRead(p.tasks[a].condition, x, Outcomes(s.results));
    }
  }

  lemma SucceededRead(condition: string, x: string, results: map<string, Outcome>)
    requires Conditions.Parse(condition) == Conditions.OnSuccess(x) && Conditions.Evaluate(condition, results) == Conditions.Run
    ensures x in results && results[x].status == Success
  {
    hide Conditions.Parse;
  }

  /** An `on_failed:x` task that depends on x is started only if x failed in its own action
      and x allows failure. */
  lemma FailureRouteNeedsAllowance(p: Plan, states: seq<State>, events: seq<Event>, b: string, x: string)
    requires Sound(p) && Execution(p, states, events) && b in p.tasks && x in p.tasks[b].dependsOn
    requires Conditions.Parse(p.tasks[b].condition) == Conditions.OnFailed(x)
    requires b in states[|events|].started
    ensures var s := states[|events|];
      && x in p.tasks && p.tasks[x].allowFailure
      && x in s.results && x in s.cause && s.cause[x] == Executed && s.results[x].outcome.status == Failed
  {
    hide Inv, Conditions.Parse, Conditions.Evaluate;
    AlwaysInv(p, states, events, |events|);
    hide Execution, Sound;
    var s := states[|events|];
    StartedMet(p, s, b);
    StartedPassed(p, s, b);
    assert Link(p, x, b);
    assert Chain(p, [x, b]);
    hide Chain;
    PassedIsClear(p, s, [x, b]);
    FailedMeansExecuted(p, s, x);
    FailedRead(p.tasks[b].condition, x, Outcomes(s.results));
  }

  lemma FailedRead(condition: string, x: string, results: map<string, Outcome>)
    requires Conditions.Parse(condition) == Conditions.OnFailed(x) && Conditions.Evaluate(condition, results) == Conditions.Run
    ensures x in results && results[x].status == Failed
  {
    hide Conditions.Parse;
  }

  lemma FailedMeansExecuted(p: Plan, s: State, x: string)
    requires Inv(p, s) && x in s.results && !Blocks(p, s, x)
    ensures x in p.tasks && x in s.cause
    ensures s.results[x].outcome.status == Failed ==> s.cause[x] == Executed && p.tasks[x].allowFailure
  {
    hide Counted, Tallied, BlockedExactly, StillMet, Unblocked, FailFastSound, Timed, Distinct, Starts;
    assert Fits(s.cause[x], s.results[x].outcome);
  }

  lemma StartedPassed(p: Plan, s: State, b: string)
    requires Inv(p, s) && b in s.started
    ensures b in s.running || (b in s.results && s.cause[b] != UpstreamFailed)
  {
    hide Counted, Tallied, BlockedExactly, Explained, FailFastSound, Timed, Distinct;
  }

  // ----- Which tasks are skipped, and why -----

  /** The dependency keeps its dependents from running: it was kept from running itself, its templates
      failed, or its action failed and that was not allowed. */
  ghost predicate HoldsBack(p: Plan, s: State, d: string) {
    && d in s.results && d in s.cause && d in p.tasks
    && (|| s.cause[d] == UpstreamFailed || s.cause[d] == TemplateFailed
        || (s.cause[d] == Executed && s.results[d].outcome.status == Failed && !p.tasks[d].allowFailure))
  }

  /** A recorded task was skipped for upstream failure exactly when a direct dependency holds it back. */
  ghost predicate HeldBackExactly(p: Plan, s: State) {
    forall id :: id in s.results && id in s.cause && id in p.tasks ==>
      (s.cause[id] == UpstreamFailed <==> exists d :: d in p.tasks[id].dependsOn && HoldsBack(p, s, d))
  }

  /** Fail-fast has triggered exactly when it is asked for and some task failed without being allowed to. */
  ghost predicate FailsFastExactly(p: Plan, s: State) {
    s.failFastTriggered <==>
      p.failFast && exists id :: id in s.results && id in p.tasks && s.results[id].outcome.status == Failed && !p.tasks[id].allowFailure
  }

  lemma InvHoldsBack(p: Plan, s: State)
    requires Inv(p, s)
    ensures HeldBackExactly(p, s) && FailsFastExactly(p, s)
  {
    hide Shape, Counted, Tallied, StillMet, Unblocked, Starts, Timed, Fits;
    forall d ensures HoldsBack(p, s, d) <==> Blocks(p, s, d) {
    }
  }

  /** An allowed failure lets dependents run: in every state of every execution. */
  lemma HeldBackAlways(p: Plan, states: seq<State>, events: seq<Event>, i: nat)
    requires Sound(p) && Execution(p, states, events) && i < |states|
    ensures HeldBackExactly(p, states[i]) && FailsFastExactly(p, states[i])
  {
    hide Inv, HeldBackExactly, FailsFastExactly;
    AlwaysInv(p, states, events, i);
    InvHoldsBack(p, states[i]);
  }

  /** What the result of a task looks like, by why it was recorded. */
  ghost predicate RecordedAs(s: State) {
    forall id :: id in s.results && id in s.cause ==>
      match s.cause[id]
      case UpstreamFailed => s.results[id].outcome == Outcome(Skipped, "", "skipped due to upstream failure", 0)
      case ConditionUnmet => s.results[id].outcome == Outcome(Skipped, "", s.results[id].outcome.error, 0)
      case TemplateFailed => s.results[id].outcome == Outcome(Failed, "", s.results[id].outcome.error, 1)
      case Executed => s.results[id].outcome.status != Skipped
  }

  lemma RecordedAlways(p: Plan, states: seq<State>, events: seq<Event>, i: nat)
    requires Sound(p) && Execution(p, states, events) && i < |states|
    ensures RecordedAs(states[i])
  {
    hide Inv, RecordedAs;
    AlwaysInv(p, states, events, i);
    InvRecorded(p, states[i]);
  }

  lemma InvRecorded(p: Plan, s: State)
    requires Inv(p, s)
    ensures RecordedAs(s)
  {
    hide Shape, Counted, Tallied, BlockedExactly, StillMet, Unblocked, Starts, FailFastSound, Timed;
    assert forall id :: id in s.results && id in s.cause ==> Fits(s.cause[id], s.results[id].outcome);
  }

  /** What happens to a task taken off the queue, by the branch it takes. */
  lemma PopFate(p: Plan, s: State, now: int, error: Templates.TemplateError)
    requires Tabled(p, s) && Enabled(p, s, Pop(now, error)) && s.ready[0] !in s.results && s.ready[0] !in s.cause
    requires s.ready[0] !in s.running
    ensures var id := s.ready[0]; var s' := Apply(p, s, Pop(now, error));
      match HeadBranch(p, s)
      case Start(input) => id in s'.running && s'.running[id] == Flight(input, now) && id !in s'.results && id !in s'.cause
      case SkipUpstream => id !in s'.running && id in s'.cause && s'.cause[id] == UpstreamFailed
      case SkipCondition(_) => id !in s'.running && id in s'.cause && s'.cause[id] == ConditionUnmet
      case Refuse(errors) =>
        && id !in s'.running && id in s'.cause && s'.cause[id] == TemplateFailed
        && id in s'.results && error in errors && s'.results[id].outcome.error == error.Message()
      case Stall => false
  {
    hide Record, BranchOf;
    var id, t := s.ready[0], Taken(s, now);
    match HeadBranch(p, s) {
      case SkipUpstream => Invariants.RecordWrites(p, t, id, Instant(UPSTREAM, now), UpstreamFailed, true);
      case SkipCondition(reason) => Invariants.RecordWrites(p, t, id, Instant(SkippedFor(reason), now), ConditionUnmet, false);
      case Refuse(errors) => Invariants.RecordWrites(p, t, id, Instant(Malformed(error), now), TemplateFailed, true);
      case Start(input) =>
      case Stall =>
    }
  }

  lemma BranchMeans(t: TaskNode, blocked: bool, results: map<string, Outcome>)
    ensures match BranchOf(t, blocked, results)
      case SkipUpstream => blocked
      case SkipCondition(_) => !blocked && !Conditions.Met(t.condition, results)
      case Start(input) =>
        && !blocked && Conditions.Met(t.condition, results) && input.Keys == t.input.Keys
        && forall k :: k in input ==> Templates.Resolve(t.input[k], results) == Templates.Text(input[k])
      case Refuse(errors) =>
        && !blocked && Conditions.Met(t.condition, results)
        && (exists k :: k in t.input && Templates.Resolve(t.input[k], results).Rejected?)
        && forall e :: e in errors <==> exists k :: k in t.input && Templates.Resolve(t.input[k], results) == Templates.Rejected(e)
      case Stall => exists k :: k in t.input && Templates.Resolve(t.input[k], results).Diverges?
  {
    hide Conditions.Evaluate, Conditions.Met, Templates.ResolveInput, Templates.Resolve;
    Conditions.EvaluateIff(t.condition, results);
    Templates.ResolveInputMeans(t.input, results);
  }

  predicate RejectedWith(r: Templates.Resolution, text: string) {
    r.Rejected? && r.error.Message() == text
  }

  /** A task taken off the queue that is not held back is skipped for its condition exactly when what the
      condition asks for does not hold of the results, fails exactly when it does and some entry of its
      input is rejected, and otherwise is started with each entry resolved. */
  lemma PopMeans(p: Plan, s: State, now: int, error: Templates.TemplateError, s': State)
    requires Inv(p, s) && Follows(p, s, Pop(now, error), s') && s.ready[0] !in s.blocked && s.ready[0] in p.tasks
    ensures var id := s.ready[0]; var t := p.tasks[id]; var results := Outcomes(s.results);
      var met := Conditions.Met(t.condition, results);
      var rejected := exists k :: k in t.input && Templates.Resolve(t.input[k], results).Rejected?;
      && ((id in s'.cause && s'.cause[id] == ConditionUnmet) <==> !met)
      && ((id in s'.cause && s'.cause[id] == TemplateFailed) <==> met && rejected)
      && (id in s'.running <==> met && !rejected)
      && (met && rejected ==>
           && id in s'.results
           && exists k :: k in t.input && RejectedWith(Templates.Resolve(t.input[k], results), s'.results[id].outcome.error))
      && (met && !rejected ==>
           && id in s'.running && s'.running[id].startedAt == now && s'.running[id].input.Keys == t.input.Keys
           && forall k :: k in t.input ==> Templates.Resolve(t.input[k], results) == Templates.Text(s'.running[id].input[k]))
  {
    hide Inv, Apply, BranchOf, Tabled, Conditions.Met, Templates.Resolve;
    InvShape(p, s);
    HeadUnrecorded(p, s);
    PopFate(p, s, now, error);
    var t, results := p.tasks[s.ready[0]], Outcomes(s.results);
    BranchMeans(t, false, results);
    assert HeadBranch(p, s) == BranchOf(t, false, results);
    if HeadBranch(p, s).Refuse? {
      var k :| k in t.input && Templates.Resolve(t.input[k], results) == Templates.Rejected(error);
      assert RejectedWith(Templates.Resolve(t.input[k], results), error.Message());
    }
  }

  /** What receiving one result does. */
  lemma ReceiveMeans(p: Plan, s: State, e: Event, s': State)
    requires Inv(p, s) && e.Receive? && Follows(p, s, e, s')
    ensures var failed := e.outcome.status == Failed && !p.tasks[e.id].allowFailure;
      && e.id in s.running && e.id !in s.results
      && s'.results == s.results[e.id := TaskResult(e.outcome, s.running[e.id].startedAt, e.finishedAt)]
      && s'.cause == s.cause[e.id := Executed] && s'.running == s.running - {e.id} && s'.active == s.active - 1
      && (s'.failFastTriggered <==> s.failFastTriggered || (failed && p.failFast))
      && (s'.ctxDone <==> s.ctxDone || (failed && p.failFast))
  {
    hide Inv, Release, Dependents;
    InvShape(p, s);
    FlightUnrecorded(p, s, e.id);
  }

  lemma InvShape(p: Plan, s: State)
    requires Inv(p, s)
    ensures Shape(p, s, {})
  {
  }
}
