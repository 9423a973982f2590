/** Every interleaving computes what a recursive evaluation of the dependency graph computes. */
module Confluence {
  import opened Domain
  import opened Plans
  import opened Scheduling
  import opened Steps
  import Conditions
  import Safety
  import Templates
  import Text

  /** A deterministic action, retries included: its result for a task and a resolved input. */
  type Action = (string, Input) -> Outcome

  /** `d` is a transitive dependency of `id`. */
  ghost predicate Above(p: Plan, rank: map<string, nat>, d: string, id: string)
    requires Ranks(p, rank) && id in p.tasks
    decreases rank[id]
  {
    exists e :: e in p.tasks[id].dependsOn && (d == e || Above(p, rank, d, e))
  }

  lemma {:induction false} AboveRanksLower(p: Plan, rank: map<string, nat>, d: string, id: string)
    requires Ranks(p, rank) && id in p.tasks && Above(p, rank, d, id)
    ensures d in p.tasks && rank[d] < rank[id]
    decreases rank[id]
  {
    var e :| e in p.tasks[id].dependsOn && (d == e || Above(p, rank, d, e));
    if d != e {
      AboveRanksLower(p, rank, d, e);
    }
  }

  /** The transitive dependencies are the tasks from which a chain of dependencies leads here. */
  lemma {:induction false} AboveIffUpstream(p: Plan, rank: map<string, nat>, d: string, id: string)
    requires Ranks(p, rank) && id in p.tasks
    ensures Above(p, rank, d, id) <==> Safety.Upstream(p, d, id)
    decreases rank[id]
  {
    forall e | e in p.tasks[id].dependsOn ensures AtOrBelow(p, d, e) <==> d == e || Above(p, rank, d, e) {
      AboveIffUpstream(p, rank, d, e);
    }
    hide Safety.Upstream;
    UpstreamUnfolds(p, d, id);
  }

  /** `e` is `d` or depends on it. */
  ghost predicate AtOrBelow(p: Plan, d: string, e: string) {
    d == e || Safety.Upstream(p, d, e)
  }

  /** A chain is one dependency, or a chain to a dependency. */
  lemma UpstreamUnfolds(p: Plan, d: string, id: string)
    requires id in p.tasks
    ensures Safety.Upstream(p, d, id) <==> exists e :: e in p.tasks[id].dependsOn && AtOrBelow(p, d, e)
  {
    if Safety.Upstream(p, d, id) {
      var path :| Safety.Chain(p, path) && path[0] == d && path[|path| - 1] == id;
      var e := path[|path| - 2];
      assert Safety.Link(p, e, id);
      if |path| > 2 {
        var front := path[..|path| - 1];
        assert Safety.Chain(p, front) && front[0] == d && front[|front| - 1] == e;
      }
      assert AtOrBelow(p, d, e);
    }
    if e :| e in p.tasks[id].dependsOn && AtOrBelow(p, d, e) {
      assert Safety.Link(p, e, id);
      if d == e {
        assert Safety.Chain(p, [d, id]);
      } else {
        var path :| Safety.Chain(p, path) && path[0] == d && path[|path| - 1] == e;
        var longer := path + [id];
        forall i | 0 <= i < |path| ensures Safety.Link(p, longer[i], longer[i + 1]) {
          assert i < |path| - 1 ==> Safety.Link(p, path[i], path[i + 1]);
        }
        assert Safety.Chain(p, longer);
      }
    }
  }

  /** What evaluation says about one task. */
  datatype Judgement = Blocked | Unmet(reason: string) | BadTemplate | Ran(outcome: Outcome)

  /** Whether a judgement keeps the task's dependents from running. */
  predicate Stops(p: Plan, id: string, j: Judgement)
    requires id in p.tasks
  {
    match j
    case Blocked => true
    case BadTemplate => true
    case Unmet(_) => false
    case Ran(o) => o.status == Failed && !p.tasks[id].allowFailure
  }

  function OutcomeOf(j: Judgement): Outcome {
    match j
    case Blocked => UPSTREAM
    case Unmet(reason) => SkippedFor(reason)
    case BadTemplate => Outcome(Failed, "", "", 1)
    case Ran(o) => o
  }

  ghost function Decide(t: TaskNode, id: string, stopped: bool, known: map<string, Outcome>, act: Action): Judgement {
    if stopped then Blocked
    else
      match Conditions.Evaluate(t.condition, known)
      case Skip(reason) => Unmet(reason)
      case Run =>
        match Templates.ResolveInput(t.input, known)
        case Resolved(input) => Ran(act(id, input))
        case _ => BadTemplate
  }

  /** The recursive bottom-up evaluation: a task is blocked by its dependencies' judgements,
      and otherwise decided from the outcomes of its transitive dependencies alone. */
  ghost function Judge(p: Plan, rank: map<string, nat>, act: Action, id: string): Judgement
    requires Ranks(p, rank) && id in p.tasks
    decreases rank[id], 1
  {
    var stopped := exists d :: d in p.tasks[id].dependsOn && Stops(p, d, Judge(p, rank, act, d));
    Decide(p.tasks[id], id, stopped, Context(p, rank, act, id), act)
  }

  /** The outcomes of a task's transitive dependencies. */
  ghost function Context(p: Plan, rank: map<string, nat>, act: Action, id: string): map<string, Outcome>
    requires Ranks(p, rank) && id in p.tasks
    decreases rank[id], 0
  {
    map d | d in p.tasks && rank[d] < rank[id] && Above(p, rank, d, id) :: OutcomeOf(Judge(p, rank, act, d))
  }

  /** The tasks that may or may not have been recorded when this one is taken off the queue: neither the
      task itself nor any that it depends on, or that depends on it. */
  ghost function Unordered(p: Plan, rank: map<string, nat>, id: string): set<string>
    requires Ranks(p, rank) && id in p.tasks
  {
    set t | t in p.tasks && t != id && !Above(p, rank, t, id) && !Above(p, rank, id, t)
  }

  /** Conditions and templates look at no task whose place in the order is open. */
  ghost predicate LooksOrdered(p: Plan, rank: map<string, nat>, act: Action)
    requires Ranks(p, rank)
  {
    forall id :: id in p.tasks && Judge(p, rank, act, id) != Blocked ==>
      && Conditions.Reads(p.tasks[id].condition) !! Unordered(p, rank, id)
      && (!Judge(p, rank, act, id).Unmet? ==>
           Templates.InputStaysWithin(p.tasks[id].input, Context(p, rank, act, id), Unordered(p, rank, id)))
  }

  /** Every reported outcome is the action's outcome for the input the task was started with. */
  ghost predicate Deterministic(states: seq<State>, events: seq<Event>, act: Action) {
    forall i :: 0 <= i < |events| && i < |states| && events[i].Receive? && events[i].id in states[i].running ==>
      events[i].outcome == act(events[i].id, states[i].running[events[i].id].input)
  }

  function CauseOf(j: Judgement): Cause {
    match j
    case Blocked => UpstreamFailed
    case Unmet(_) => ConditionUnmet
    case BadTemplate => TemplateFailed
    case Ran(_) => Executed
  }

  /** A recorded outcome is the judged one; of a template failure the text may vary. */
  predicate Agrees(j: Judgement, cause: Cause, o: Outcome) {
    && cause == CauseOf(j)
    && (if j.BadTemplate? then o.status == Failed && o.output == "" && o.attempts == 1 else o == OutcomeOf(j))
  }

  ghost predicate Matches(p: Plan, rank: map<string, nat>, act: Action, s: State)
    requires Ranks(p, rank)
  {
    && (forall id :: id in s.results && id in s.cause && id in p.tasks ==>
         Agrees(Judge(p, rank, act, id), s.cause[id], s.results[id].outcome))
    && (forall id :: id in s.running && id in p.tasks ==>
         Judge(p, rank, act, id) == Ran(act(id, s.running[id].input)))
  }

  // ----- The evaluation and one step -----

  /** Nothing above an unblocked task stops. */
  lemma {:induction false} ClearAbove(p: Plan, rank: map<string, nat>, act: Action, id: string, d: string)
    requires Ranks(p, rank) && id in p.tasks && Judge(p, rank, act, id) != Blocked && Above(p, rank, d, id)
    ensures d in p.tasks && !Stops(p, d, Judge(p, rank, act, d))
    decreases rank[id]
  {
    hide Judge, Stops;
    var e :| e in p.tasks[id].dependsOn && (d == e || Above(p, rank, d, e));
    ClearBelow(p, rank, act, id, e);
    if d != e {
      ClearAbove(p, rank, act, e, d);
    }
  }

  lemma ClearBelow(p: Plan, rank: map<string, nat>, act: Action, id: string, e: string)
    requires Ranks(p, rank) && id in p.tasks && Judge(p, rank, act, id) != Blocked && e in p.tasks[id].dependsOn
    ensures !Stops(p, e, Judge(p, rank, act, e)) && Judge(p, rank, act, e) != Blocked
  {
    hide Context;
  }

  /** Everything above a task whose dependencies are recorded is recorded. */
  lemma {:induction false} RecordedAbove(p: Plan, rank: map<string, nat>, s: State, id: string, d: string)
    requires Ranks(p, rank) && Counted(p, s, {}) && id in p.tasks && Above(p, rank, d, id)
    requires forall e :: e in p.tasks[id].dependsOn ==> e in s.results
    ensures d in s.results
    decreases rank[id]
  {
    var e :| e in p.tasks[id].dependsOn && (d == e || Above(p, rank, d, e));
    if d != e {
      MissingZero(p.tasks[e].dependsOn, s.results.Keys);
      RecordedAbove(p, rank, s, e, d);
    }
  }

  lemma BlocksIffStops(p: Plan, rank: map<string, nat>, act: Action, s: State, d: string)
    requires Ranks(p, rank) && Matches(p, rank, act, s) && d in s.results && d in s.cause && d in p.tasks
    ensures Blocks(p, s, d) <==> Stops(p, d, Judge(p, rank, act, d))
  {
    hide Judge;
    assert Agrees(Judge(p, rank, act, d), s.cause[d], s.results[d].outcome);
  }

  /** A task all of whose dependencies are recorded is marked blocked exactly when judged so. */
  lemma BlockedIffJudged(p: Plan, rank: map<string, nat>, act: Action, s: State, id: string)
    requires Ranks(p, rank) && Matches(p, rank, act, s) && Shape(p, s, {}) && BlockedExactly(p, s) && id in p.tasks
    requires forall d :: d in p.tasks[id].dependsOn ==> d in s.results
    ensures id in s.blocked <==> Judge(p, rank, act, id) == Blocked
  {
    forall d | d in p.tasks[id].dependsOn ensures Blocks(p, s, d) <==> Stops(p, d, Judge(p, rank, act, d)) {
      BlocksIffStops(p, rank, act, s, d);
    }
    hide Blocks, Stops, Matches, Distinct, Conditions.Evaluate, Templates.ResolveInput, Context;
  }

  /** For an unblocked task, the context is contained in the results recorded so far. */
  lemma ContextRecorded(p: Plan, rank: map<string, nat>, act: Action, s: State, id: string)
    requires Ranks(p, rank) && Matches(p, rank, act, s) && Shape(p, s, {}) && Counted(p, s, {}) && id in p.tasks
    requires forall d :: d in p.tasks[id].dependsOn ==> d in s.results
    requires Judge(p, rank, act, id) != Blocked
    ensures Templates.Extends(Context(p, rank, act, id), Outcomes(s.results))
    ensures forall d :: Above(p, rank, d, id) ==> d in Context(p, rank, act, id)
  {
    var known := Context(p, rank, act, id);
    forall d | d in known ensures d in s.results && known[d] == s.results[d].outcome {
      RecordedAbove(p, rank, s, id, d);
      ClearAbove(p, rank, act, id, d);
      assert Agrees(Judge(p, rank, act, d), s.cause[d], s.results[d].outcome);
    }
    forall d | Above(p, rank, d, id) ensures d in known {
      AboveRanksLower(p, rank, d, id);
    }
  }

  /** The branch a popped task takes is the judged one. */
  lemma BranchAsJudged(p: Plan, rank: map<string, nat>, act: Action, s: State, id: string)
    requires Ranks(p, rank) && LooksOrdered(p, rank, act) && Matches(p, rank, act, s)
    requires Shape(p, s, {}) && Counted(p, s, {}) && BlockedExactly(p, s) && id in p.tasks
    requires id !in s.results && forall d :: d in p.tasks[id].dependsOn ==> d in s.results
    ensures var b := BranchOf(p.tasks[id], id in s.blocked, Outcomes(s.results)); var j := Judge(p, rank, act, id);
      && (b.SkipUpstream? <==> j.Blocked?)
      && (b.SkipCondition? ==> j == Unmet(b.reason))
      && (b.Refuse? ==> j == BadTemplate)
      && (b.Start? ==> j == Ran(act(id, b.input)))
      && !b.Stall?
  {
    hide Matches, Counted, Shape, BlockedExactly, LooksOrdered, Ranks, Conditions.Evaluate, Templates.ResolveInput;
    BlockedIffJudged(p, rank, act, s, id);
    Safety.ResultsKnown(p, s);
    var j := Judge(p, rank, act, id);
    if j != Blocked {
      ContextRecorded(p, rank, act, s, id);
      RecordedKinds(p, rank, act, s, id);
      SameDecisions(p, rank, act, s, id);
    }
  }

  /** What is recorded when a task is taken off the queue: its transitive dependencies, and tasks whose
      place in the order is open. */
  lemma RecordedKinds(p: Plan, rank: map<string, nat>, act: Action, s: State, id: string)
    requires Ranks(p, rank) && Shape(p, s, {}) && Counted(p, s, {}) && id in p.tasks && id !in s.results
    requires forall d :: Above(p, rank, d, id) ==> d in Context(p, rank, act, id)
    ensures forall t :: t in s.results ==> t in Context(p, rank, act, id) || t in Unordered(p, rank, id)
  {
    hide Context, Above, Distinct;
    forall t | t in s.results ensures !Above(p, rank, id, t) {
      MissingZero(p.tasks[t].dependsOn, s.results.Keys);
      if Above(p, rank, id, t) {
        RecordedAbove(p, rank, s, t, id);
      }
    }
  }

  lemma SameDecisions(p: Plan, rank: map<string, nat>, act: Action, s: State, id: string)
    requires Ranks(p, rank) && LooksOrdered(p, rank, act) && id in p.tasks
    requires Judge(p, rank, act, id) != Blocked
    requires Templates.Extends(Context(p, rank, act, id), Outcomes(s.results))
    requires forall t :: t in s.results ==> t in Context(p, rank, act, id) || t in Unordered(p, rank, id)
    ensures var known, all := Context(p, rank, act, id), Outcomes(s.results);
      && Conditions.Evaluate(p.tasks[id].condition, all) == Conditions.Evaluate(p.tasks[id].condition, known)
      && (Conditions.Evaluate(p.tasks[id].condition, known) == Conditions.Run ==>
            Templates.ResolveInput(p.tasks[id].input, all) == Templates.ResolveInput(p.tasks[id].input, known)
            && !Templates.ResolveInput(p.tasks[id].input, all).Hangs?)
  {
    var known, all := Context(p, rank, act, id), Outcomes(s.results);
    hide Context, Unordered;
    Conditions.EvaluateReadsOnly(p.tasks[id].condition, known, all);
    if Conditions.Evaluate(p.tasks[id].condition, known) == Conditions.Run {
      assert !Judge(p, rank, act, id).Unmet?;
      StaysWithinOpen(p.tasks[id].input, known, Unordered(p, rank, id), all.Keys);
      Templates.ResolveInputLocal(p.tasks[id].input, known, all);
    }
  }

  lemma StaysWithinOpen(input: Input, known: map<string, Outcome>, open: set<string>, all: set<string>)
    requires Templates.InputStaysWithin(input, known, open) && all <= known.Keys + open
    ensures Templates.InputStaysWithin(input, known, all)
  {
    hide Templates.Resolve;
    forall k | k in input ensures Templates.StaysWithin(Templates.Resolve(input[k], known), all) {
      Templates.ResolveUnknown(input[k], known);
    }
  }

  // ----- Every step agrees with the evaluation -----

  lemma RecordMatches(p: Plan, rank: map<string, nat>, act: Action, s: State, t: State, id: string, result: TaskResult, cause: Cause, blocks: bool, trigger: bool)
    requires Ranks(p, rank) && Matches(p, rank, act, s) && Tabled(p, t) && id in p.tasks
    requires t.results == s.results && t.cause == s.cause
    requires forall x :: x in t.running ==> x in s.running && t.running[x] == s.running[x]
    requires Agrees(Judge(p, rank, act, id), cause, result.outcome)
    ensures Matches(p, rank, act, TriggerFailFast(Record(p, t, id, result, cause, blocks), trigger))
  {
    hide Judge, Agrees, Release, Ranks;
  }

  lemma LaunchMatches(p: Plan, rank: map<string, nat>, act: Action, s: State, t: State, id: string, input: Input, now: int)
    requires Ranks(p, rank) && Matches(p, rank, act, s)
    requires t.results == s.results && t.cause == s.cause && t.running == s.running
    requires id in p.tasks && Judge(p, rank, act, id) == Ran(act(id, input))
    ensures Matches(p, rank, act, Launch(t, id, input, now))
  {
    hide Judge, Agrees, Ranks;
  }

  lemma HeadFree(p: Plan, s: State)
    requires Shape(p, s, {}) && Counted(p, s, {}) && s.ready != []
    ensures s.ready[0] in p.tasks && s.ready[0] !in s.results && forall d :: d in p.tasks[s.ready[0]].dependsOn ==> d in s.results
  {
    var id := s.ready[0];
    assert id in s.ready;
    MissingZero(p.tasks[id].dependsOn, s.results.Keys);
  }

  lemma StepMatches(p: Plan, rank: map<string, nat>, act: Action, s: State, e: Event, s': State)
    requires Ranks(p, rank) && LooksOrdered(p, rank, act) && Matches(p, rank, act, s)
    requires Inv(p, s) && Follows(p, s, e, s')
    requires e.Receive? && e.id in s.running ==> e.outcome == act(e.id, s.running[e.id].input)
    ensures Matches(p, rank, act, s')
  {
    hide Record, LooksOrdered, Judge, Matches, Ranks, Shape, Counted, Tallied, BlockedExactly, Explained, Starts, FailFastSound, Timed, Conditions.Evaluate, Templates.ResolveInput;
    match e
    case Pop(now, error) =>
      var id, t := s.ready[0], Taken(s, now);
      HeadFree(p, s);
      BranchAsJudged(p, rank, act, s, id);
      match HeadBranch(p, s) {
        case SkipUpstream => RecordMatches(p, rank, act, s, t, id, Instant(UPSTREAM, now), UpstreamFailed, true, false);
        case SkipCondition(reason) => RecordMatches(p, rank, act, s, t, id, Instant(SkippedFor(reason), now), ConditionUnmet, false, false);
        case Refuse(errors) =>
          RecordMatches(p, rank, act, s, t, id, Instant(Malformed(error), now), TemplateFailed, true, p.failFast && !p.tasks[id].allowFailure);
        case Start(input) => LaunchMatches(p, rank, act, s, t, id, input, now);
        case Stall =>
      }
    case Receive(id, outcome, finishedAt, now) =>
      var fatal := Fatal(p, id, outcome);
      InFlightJudged(p, rank, act, s, id);
      RecordMatches(p, rank, act, s, Landed(s, id, now), id, TaskResult(outcome, s.running[id].startedAt, finishedAt), Executed, fatal, fatal && p.failFast);
    case _ => FlagsMatch(p, rank, act, s, s');
  }

  lemma InFlightJudged(p: Plan, rank: map<string, nat>, act: Action, s: State, id: string)
    requires Ranks(p, rank) && Matches(p, rank, act, s) && id in s.running && id in p.tasks
    ensures Judge(p, rank, act, id) == Ran(act(id, s.running[id].input))
  {
  }

  lemma FlagsMatch(p: Plan, rank: map<string, nat>, act: Action, s: State, s': State)
    requires Ranks(p, rank) && Matches(p, rank, act, s)
    requires s'.results == s.results && s'.cause == s.cause && s'.running == s.running
    ensures Matches(p, rank, act, s')
  {
    hide Judge, Agrees;
  }

  /** In every state of every execution, what has been recorded is what the evaluation says. */
  lemma {:induction false} AlwaysMatches(p: Plan, rank: map<string, nat>, act: Action, states: seq<State>, events: seq<Event>, i: nat)
    requires Sound(p) && Ranks(p, rank) && LooksOrdered(p, rank, act)
    requires Execution(p, states, events) && Deterministic(states, events, act) && i < |states|
    ensures Matches(p, rank, act, states[i])
  {
    hide Inv, Follows, Matches, LooksOrdered, Judge, Ranks, Mirrors;
    if i == 0 {
      InitialMatches(p, rank, act, states[0]);
    } else {
      AlwaysMatches(p, rank, act, states, events, i - 1);
      AlwaysInv(p, states, events, i - 1);
      StepMatches(p, rank, act, states[i - 1], events[i - 1], states[i]);
    }
  }

  lemma InitialMatches(p: Plan, rank: map<string, nat>, act: Action, s: State)
    requires Ranks(p, rank) && Initial(p, s)
    ensures Matches(p, rank, act, s)
  {
    hide Judge, Agrees;
  }

  /** Confluence: a run that is not cancelled ends with every task exactly as evaluated,
      whatever the interleaving and the concurrency limit. */
  lemma Confluent(p: Plan, rank: map<string, nat>, act: Action, states: seq<State>, events: seq<Event>)
    requires Sound(p) && Ranks(p, rank) && LooksOrdered(p, rank, act)
    requires Execution(p, states, events) && Deterministic(states, events, act) && states[|events|].phase == Left
    ensures var s := states[|events|];
      && s.results.Keys == p.tasks.Keys && s.cause.Keys == p.tasks.Keys
      && forall id :: id in p.tasks ==> Agrees(Judge(p, rank, act, id), s.cause[id], s.results[id].outcome)
  {
    hide Initial, Follows, Inv, Judge, Agrees, LooksOrdered, Ranks, Mirrors;
    AlwaysMatches(p, rank, act, states, events, |events|);
    AlwaysInv(p, states, events, |events|);
    Safety.LeftComplete(p, states, events);
    hide Execution;
    SameKeys(p, states[|events|]);
  }

  lemma SameKeys(p: Plan, s: State)
    requires Inv(p, s)
    ensures s.cause.Keys == s.results.Keys
  {
    hide Counted, Tallied, BlockedExactly, Explained, Starts, FailFastSound, Timed, Distinct;
  }

  // ----- The evaluation depends on the tasks only -----

  lemma {:induction false} AboveByTasks(p: Plan, q: Plan, rank: map<string, nat>, d: string, id: string)
    requires p.tasks == q.tasks && Ranks(p, rank) && id in p.tasks
    ensures Above(p, rank, d, id) <==> Above(q, rank, d, id)
    decreases rank[id]
  {
    forall e | e in p.tasks[id].dependsOn ensures Above(p, rank, d, e) <==> Above(q, rank, d, e) {
      AboveByTasks(p, q, rank, d, e);
    }
  }

  lemma {:induction false} JudgeByTasks(p: Plan, q: Plan, rank: map<string, nat>, act: Action, id: string)
    requires p.tasks == q.tasks && Ranks(p, rank) && id in p.tasks
    ensures Judge(p, rank, act, id) == Judge(q, rank, act, id)
    decreases rank[id]
  {
    hide Stops, Context, Decide;
    forall d | d in p.tasks && rank[d] < rank[id] ensures Judge(p, rank, act, d) == Judge(q, rank, act, d) {
      JudgeByTasks(p, q, rank, act, d);
    }
    forall d, j | d in p.tasks ensures Stops(p, d, j) == Stops(q, d, j) {
      StopsByTasks(p, q, d, j);
    }
    ContextByTasks(p, q, rank, act, id);
  }

  lemma StopsByTasks(p: Plan, q: Plan, d: string, j: Judgement)
    requires p.tasks == q.tasks && d in p.tasks
    ensures Stops(p, d, j) == Stops(q, d, j)
  {
  }

  lemma ContextByTasks(p: Plan, q: Plan, rank: map<string, nat>, act: Action, id: string)
    requires p.tasks == q.tasks && Ranks(p, rank) && id in p.tasks
    requires forall d :: d in p.tasks && rank[d] < rank[id] ==> Judge(p, rank, act, d) == Judge(q, rank, act, d)
    ensures Context(p, rank, act, id) == Context(q, rank, act, id)
  {
    hide Judge, Above, OutcomeOf;
    forall d ensures Above(p, rank, d, id) <==> Above(q, rank, d, id) {
      AboveByTasks(p, q, rank, d, id);
    }
  }

  lemma UnorderedByTasks(p: Plan, q: Plan, rank: map<string, nat>, id: string)
    requires p.tasks == q.tasks && Ranks(p, rank) && id in p.tasks
    ensures Unordered(p, rank, id) == Unordered(q, rank, id)
  {
    hide Above;
    forall t | t in p.tasks
      ensures Above(p, rank, t, id) <==> Above(q, rank, t, id)
      ensures Above(p, rank, id, t) <==> Above(q, rank, id, t)
    {
      AboveByTasks(p, q, rank, t, id);
      AboveByTasks(p, q, rank, id, t);
    }
  }

  lemma LooksOrderedByTasks(p: Plan, q: Plan, rank: map<string, nat>, act: Action)
    requires p.tasks == q.tasks && Ranks(p, rank) && LooksOrdered(p, rank, act)
    ensures LooksOrdered(q, rank, act)
  {
    hide Judge, Unordered, Context, Templates.InputStaysWithin, Conditions.Reads;
    forall id | id in q.tasks && Judge(q, rank, act, id) != Blocked
      ensures Conditions.Reads(q.tasks[id].condition) !! Unordered(q, rank, id)
      ensures !Judge(q, rank, act, id).Unmet? ==>
        Templates.InputStaysWithin(q.tasks[id].input, Context(q, rank, act, id), Unordered(q, rank, id))
    {
      JudgeByTasks(p, q, rank, act, id);
      forall d | d in p.tasks ensures Judge(p, rank, act, d) == Judge(q, rank, act, d) {
        JudgeByTasks(p, q, rank, act, d);
      }
      ContextByTasks(p, q, rank, act, id);
      UnorderedByTasks(p, q, rank, id);
    }
  }

  /** Two runs of the same tasks, under any two concurrency limits and interleavings, end with
      the same status, output and attempts for each task, and with the same error text unless
      the task's own templates are at fault. */
  lemma TwoRunsAgree(p: Plan, q: Plan, rank: map<string, nat>, act: Action,
                     states: seq<State>, events: seq<Event>, states': seq<State>, events': seq<Event>, id: string)
    requires Sound(p) && Sound(q) && p.tasks == q.tasks && Ranks(p, rank) && LooksOrdered(p, rank, act)
    requires Execution(p, states, events) && Deterministic(states, events, act) && states[|events|].phase == Left
    requires Execution(q, states', events') && Deterministic(states', events', act) && states'[|events'|].phase == Left
    requires id in p.tasks
    ensures var s, s' := states[|events|], states'[|events'|];
      && id in s.results && id in s'.results && id in s.cause && id in s'.cause
      && s.cause[id] == s'.cause[id]
      && s.results[id].outcome.status == s'.results[id].outcome.status
      && s.results[id].outcome.output == s'.results[id].outcome.output
      && s.results[id].outcome.attempts == s'.results[id].outcome.attempts
      && (s.cause[id] != TemplateFailed ==> s.results[id].outcome == s'.results[id].outcome)
  {
    hide Initial, Follows, Judge, LooksOrdered, Mirrors, Agrees;
    assert Ranks(q, rank);
    hide Ranks;
    LooksOrderedByTasks(p, q, rank, act);
    JudgeByTasks(p, q, rank, act, id);
    Confluent(p, rank, act, states, events);
    Confluent(q, rank, act, states', events');
    hide Execution, Deterministic, Agrees;
    var s, s' := states[|events|], states'[|events'|];
    AgreeAlike(Judge(p, rank, act, id), s.cause[id], s.results[id].outcome, s'.cause[id], s'.results[id].outcome);
  }

  lemma AgreeAlike(j: Judgement, c: Cause, o: Outcome, c': Cause, o': Outcome)
    requires Agrees(j, c, o) && Agrees(j, c', o')
    ensures c == c' && o.status == o'.status && o.output == o'.output && o.attempts == o'.attempts
    ensures c != TemplateFailed ==> o == o'
  {
  }

  // ----- A condition that can be read off the workflow -----

  /** The text a field of a task may have cannot bring a template about. */
  ghost predicate Quiet(p: Plan, act: Action, t: string, field: string)
    requires t in p.tasks
  {
    && (field == "output" ==> forall input :: Templates.Inert(act(t, input).output))
    && (field == "error" ==>
         Templates.Inert(Text.TrimSpace(p.tasks[t].condition)) && forall input :: Templates.Inert(act(t, input).error))
  }

  /** A token names no task whose place is open, and asks a transitive dependency for a quiet field only. */
  ghost predicate AsksOrdered(p: Plan, rank: map<string, nat>, act: Action, id: string, token: string)
    requires Ranks(p, rank) && id in p.tasks
  {
    Templates.Named(token).Some? ==>
      var t := Templates.Named(token).value;
      t !in Unordered(p, rank, id) && (t in p.tasks && Above(p, rank, t, id) ==> Quiet(p, act, t, Templates.FieldOf(token)))
  }

  /** Conditions and templates name no task whose place in the order is open, and no field that a
      template asks for can form a new template. Fields nobody asks for may hold anything. */
  ghost predicate NamesOrdered(p: Plan, rank: map<string, nat>, act: Action)
    requires Ranks(p, rank)
  {
    forall id :: id in p.tasks ==>
      && Conditions.Reads(p.tasks[id].condition) !! Unordered(p, rank, id)
      && (forall k :: k in p.tasks[id].input ==>
           && Templates.NoDoubleDollar(p.tasks[id].input[k])
           && forall token :: token in Templates.Tokens(p.tasks[id].input[k]) ==> AsksOrdered(p, rank, act, id, token))
  }

  /** Where the texts of a judgement come from. */
  lemma JudgedText(p: Plan, rank: map<string, nat>, act: Action, id: string)
    requires Ranks(p, rank) && id in p.tasks
    ensures var j := Judge(p, rank, act, id);
      && (j.Unmet? ==> Conditions.Evaluate(p.tasks[id].condition, Context(p, rank, act, id)) == Conditions.Skip(j.reason))
      && (j.Ran? ==> exists input :: j.outcome == act(id, input))
  {
    hide Context, Stops, Templates.ResolveInput, Conditions.Evaluate;
  }

  lemma NoDollars(s: TaskStatus)
    ensures '$' !in UPSTREAM.error && '$' !in StatusText(s)
  {
  }

  lemma FixedTextInert()
    ensures Templates.Inert(UPSTREAM.error) && Templates.Inert("") && forall s :: Templates.Inert(StatusText(s))
  {
    NoDollars(Success);
    hide Templates.Inert, StatusText;
    Templates.NoDollarInert(UPSTREAM.error);
    Templates.NoDollarInert("");
    forall s ensures Templates.Inert(StatusText(s)) {
      NoDollars(s);
      Templates.NoDollarInert(StatusText(s));
    }
  }

  /** A quiet field of a judged outcome is inert. */
  lemma JudgedTextInert(p: Plan, rank: map<string, nat>, act: Action, t: string, field: string)
    requires Ranks(p, rank) && t in p.tasks && Quiet(p, act, t, field)
    ensures var o := OutcomeOf(Judge(p, rank, act, t));
      && (field == "output" ==> Templates.Inert(o.output)) && (field == "error" ==> Templates.Inert(o.error))
  {
    JudgedText(p, rank, act, t);
    FixedTextInert();
    hide Judge, Context, Conditions.Evaluate, Ranks, Templates.Inert;
    match Judge(p, rank, act, t)
    case Blocked =>
    case Unmet(_) =>
      if field == "error" {
        Conditions.ReasonInert(p.tasks[t].condition, Context(p, rank, act, t));
      }
    case BadTemplate =>
    case Ran(o) =>
      var input :| o == act(t, input);
      assert Templates.Inert(act(t, input).output) || field != "output";
      assert Templates.Inert(act(t, input).error) || field != "error";
  }

  /** The readable condition suffices for confluence. */
  lemma NamesOrderedSuffices(p: Plan, rank: map<string, nat>, act: Action)
    requires Ranks(p, rank) && NamesOrdered(p, rank, act)
    ensures LooksOrdered(p, rank, act)
  {
    hide Judge, Quiet, Templates.InputStaysWithin, AsksOrdered, Ranks, Templates.NoDoubleDollar, Unordered;
    forall id | id in p.tasks
      ensures Templates.InputStaysWithin(p.tasks[id].input, Context(p, rank, act, id), Unordered(p, rank, id))
    {
      NamedInContext(p, rank, act, id);
    }
    hide Context;
  }

  lemma InContext(p: Plan, rank: map<string, nat>, act: Action, id: string, t: string)
    requires Ranks(p, rank) && id in p.tasks && t in Context(p, rank, act, id)
    ensures t in p.tasks && Above(p, rank, t, id) && Context(p, rank, act, id)[t] == OutcomeOf(Judge(p, rank, act, t))
  {
    hide Judge;
  }

  lemma TokenInert(p: Plan, rank: map<string, nat>, act: Action, id: string, token: string)
    requires Ranks(p, rank) && id in p.tasks && AsksOrdered(p, rank, act, id, token)
    ensures var known := Context(p, rank, act, id);
      Templates.LookUp(token, known).Value? ==> Templates.Inert(Templates.LookUp(token, known).text)
  {
    hide Judge, Context, Above, Quiet, Templates.Inert, OutcomeOf, Ranks, Unordered;
    FixedTextInert();
    if Templates.Named(token).Some? && Templates.Named(token).value in Context(p, rank, act, id) {
      var t := Templates.Named(token).value;
      InContext(p, rank, act, id, t);
      JudgedTextInert(p, rank, act, t, Templates.FieldOf(token));
    }
  }

  lemma NamedInContext(p: Plan, rank: map<string, nat>, act: Action, id: string)
    requires Ranks(p, rank) && NamesOrdered(p, rank, act) && id in p.tasks
    ensures Templates.InputStaysWithin(p.tasks[id].input, Context(p, rank, act, id), Unordered(p, rank, id))
  {
    hide Judge, Context, Above, Ranks, Unordered, Quiet, Templates.Resolve, Templates.Tokens, Templates.LookUp, Templates.Inert, Templates.Named, Templates.NoDoubleDollar;
    var known := Context(p, rank, act, id);
    forall k | k in p.tasks[id].input
      ensures !Templates.Resolve(p.tasks[id].input[k], known).Diverges?
      ensures Templates.StaysWithin(Templates.Resolve(p.tasks[id].input[k], known), Unordered(p, rank, id))
    {
      var raw := p.tasks[id].input[k];
      forall token | token in Templates.Tokens(raw)
        ensures Templates.Named(token).Some? ==> Templates.Named(token).value !in Unordered(p, rank, id)
        ensures Templates.LookUp(token, known).Value? ==> Templates.Inert(Templates.LookUp(token, known).text)
      {
        TokenInert(p, rank, act, id, token);
      }
      assert Templates.Names(raw) * Unordered(p, rank, id) == {};
      Templates.NamedStaysWithin(raw, known, Unordered(p, rank, id));
    }
  }
}
