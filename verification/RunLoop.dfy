/** runWithID: the loop itself, proved to take only steps of the state machine. */
module RunLoop {
  import opened Confluence
  import opened Domain
  import opened Plans
  import opened Scheduling
  import opened Steps
  import Compensation
  import Conditions
  import Graph
  import Safety
  import Templates
  import Text
  import Verdicts

  lemma HeadKnown(p: Plan, s: State)
    requires Inv(p, s) && s.ready != []
    ensures s.ready[0] in p.tasks
  {
    Confluence.HeadFree(p, s);
  }

  lemma StaysTabled(p: Plan, s: State, e: Event, s': State)
    requires Follows(p, s, e, s')
    ensures Tabled(p, s')
  {
    hide BranchOf, Record, Dependents;
    match e {
      case Pop(now, error) => PopTabled(p, s, now, error);
      case Receive(id, outcome, finishedAt, now) => RecordTabled(p);
      case _ =>
    }
  }

  lemma PopTabled(p: Plan, s: State, now: int, error: Templates.TemplateError)
    requires Tabled(p, s) && Enabled(p, s, Pop(now, error))
    ensures Tabled(p, Apply(p, s, Pop(now, error)))
  {
    hide BranchOf, Record, Dependents;
    RecordTabled(p);
  }

  lemma RecordTabled(p: Plan)
    ensures forall s: State, id, result, cause, blocks | Tabled(p, s) ::
      Record(p, s, id, result, cause, blocks).remaining.Keys == s.remaining.Keys
  {
    hide Release;
  }

  lemma ReleaseNothing(remaining: map<string, int>, ready: seq<string>)
    ensures Release([], remaining, ready) == (remaining, ready)
  {
  }

  lemma ReleaseOneMore(front: seq<string>, child: string, remaining: map<string, int>, ready: seq<string>)
    requires forall c :: c in front + [child] ==> c in remaining
    ensures child in remaining && forall c :: c in front ==> c in remaining
    ensures var (counts, queue) := Release(front, remaining, ready);
      Release(front + [child], remaining, ready) ==
        (counts[child := counts[child] - 1], if counts[child] - 1 == 0 then queue + [child] else queue)
  {
    assert (front + [child])[..|front|] == front;
    assert (front + [child])[|front|] == child;
    assert forall c :: c in front ==> c in front + [child];
  }

  /** A sound plan, and a state that fits it. */
  ghost predicate Fit(p: Plan, s: State) {
    Sound(p) && Tabled(p, s) && Inv(p, s)
  }

  /** The variables of runWithID that its loop and its closures update. */
  class Loop {
    const plan: Plan
    var remainingDeps: map<string, int>
    var ready: seq<string>
    var blockedByFailure: set<string>
    var results: Results
    var running: map<string, Flight>
    var active: int
    var completed: int
    var failFastTriggered: bool
    var ctxDone: bool
    var clock: int
    ghost var phase: Phase
    ghost var cause: map<string, Cause>
    ghost var started: seq<string>

    /** The machine state these variables stand for. */
    ghost function View(): State
      reads this
    {
      State(remainingDeps, ready, blockedByFailure, results, running, active, completed,
        failFastTriggered, ctxDone, phase, clock, cause, started)
    }

    /** The tables fit the plan. */
    ghost predicate Ready()
      reads this
    {
      Fit(plan, View())
    }

    constructor (plan: Plan, remaining: map<string, int>, now: int)
      requires Sound(plan) && remaining.Keys == plan.tasks.Keys
      requires forall id :: id in plan.tasks ==> remaining[id] == |plan.tasks[id].dependsOn|
      ensures this.plan == plan && Initial(plan, View()) && !ctxDone
    {
      this.plan := plan;
      remainingDeps := remaining;
      blockedByFailure := {};
      results := map[];
      running := map[];
      active, completed := 0, 0;
      failFastTriggered, ctxDone := false, false;
      clock := now;
      phase, cause, started := Looping, map[], [];
      new;
      ready := ZeroCounts(remaining);
    }

    /** Lines 104-109, for every iteration order of the counter map. */
    static method ZeroCounts(remaining: map<string, int>) returns (ready: seq<string>)
      ensures Distinct(ready) && forall id :: id in ready <==> id in remaining && remaining[id] == 0
    {
      ready := [];
      var todo := remaining.Keys;
      while todo != {}
        invariant todo <= remaining.Keys
        invariant Distinct(ready)
        invariant forall id :: id in ready <==> id in remaining && id !in todo && remaining[id] == 0
      {
        var id :| id in todo;
        todo := todo - {id};
        if remaining[id] == 0 {
          ready := ready + [id];
        }
      }
    }

    /** The loop over a recorded task's dependents that the four branches share. */
    method CountDown(id: string, block: bool)
      requires forall c :: c in Dependents(plan, id) ==> c in remainingDeps
      modifies this`remainingDeps, this`ready, this`blockedByFailure
      ensures (remainingDeps, ready) == Release(Dependents(plan, id), old(remainingDeps), old(ready))
      ensures blockedByFailure == old(blockedByFailure) + if block then (set c | c in Dependents(plan, id)) else {}
    {
      hide Release;
      var children := Dependents(plan, id);
      assert children[..0] == [];
      ReleaseNothing(remainingDeps, ready);
      var i := 0;
      while i < |children|
        invariant 0 <= i <= |children|
        invariant remainingDeps.Keys == old(remainingDeps).Keys
        invariant forall c :: c in children[..i] ==> c in old(remainingDeps)
        invariant (remainingDeps, ready) == Release(children[..i], old(remainingDeps), old(ready))
        invariant blockedByFailure == old(blockedByFailure) + if block then (set c | c in children[..i]) else {}
      {
        var child := children[i];
        assert children[..i + 1] == children[..i] + [child];
        ReleaseOneMore(children[..i], child, old(remainingDeps), old(ready));
        remainingDeps := remainingDeps[child := remainingDeps[child] - 1];
        if block {
          blockedByFailure := blockedByFailure + {child};
        }
        if remainingDeps[child] == 0 {
          ready := ready + [child];
        }
        i := i + 1;
      }
      assert children[..i] == children;
    }

    /** A result is stored and its dependents are counted down. */
    method Store(id: string, result: TaskResult, ghost why: Cause, block: bool)
      requires remainingDeps.Keys == plan.tasks.Keys && forall c :: c in Dependents(plan, id) ==> c in plan.tasks
      modifies this`remainingDeps, this`ready, this`blockedByFailure, this`results, this`completed, this`cause
      ensures View() == Record(plan, old(View()), id, result, why, block)
    {
      hide Release, Dependents;
      results := results[id := result];
      completed := completed + 1;
      cause := cause[id := why];
      CountDown(id, block);
    }

    method StopFast(trigger: bool)
      modifies this`failFastTriggered, this`ctxDone
      ensures View() == TriggerFailFast(old(View()), trigger)
    {
      if trigger {
        failFastTriggered := true;
        ctxDone := true;
      }
    }

    /** startTask: the goroutine is only counted here; what it reports is an event. */
    method StartTask(id: string, input: Input, now: int)
      modifies this`running, this`active, this`started
      ensures View() == Launch(old(View()), id, input, now)
    {
      running := running[id := Flight(input, now)];
      active := active + 1;
      started := started + [id];
    }

    /** Line 127: the head of the queue is taken off. */
    method TakeHead(now: int) returns (id: string)
      requires ready != []
      modifies this`ready, this`clock
      ensures id == old(ready)[0] && View() == Taken(old(View()), now)
    {
      id := ready[0];
      ready := ready[1..];
      clock := now;
    }

    /** The branch taken by the popped task. */
    method Settle(fate: Fate, now: int) returns (ghost e: Event)
      requires Tabled(plan, View()) && phase == Looping && InnerGuard(plan, View()) && clock <= now && ready[0] in plan.tasks
      requires !fate.Stuck? && Foretells(fate, HeadBranch(plan, View()))
      modifies this
      ensures e.Pop? && Follows(plan, old(View()), e, View())
    {
      hide Record, BranchOf;
      ghost var before := View();
      e := Pop(now, if fate.Faulty? then fate.error else Templates.Unclosed(""));
      var id := TakeHead(now);
      match fate {
        case Upstream => Store(id, Instant(UPSTREAM, now), UpstreamFailed, true);
        case Unmet(reason) => Store(id, Instant(SkippedFor(reason), now), ConditionUnmet, false);
        case Faulty(error) =>
          Store(id, Instant(Malformed(error), now), TemplateFailed, true);
          StopFast(plan.failFast && !plan.tasks[id].allowFailure);
        case Go(input) => StartTask(id, input, now);
      }
    }

    /** One round of the inner loop. A template that is still being rewritten after `patience`
        replacements leaves the loop stuck where it is. */
    method PopHead(now: int, patience: nat) returns (stuck: bool, ghost e: Event)
      requires Ready() && phase == Looping && InnerGuard(plan, View()) && clock <= now
      modifies this
      ensures stuck ==> View() == old(View()) && Undecided(plan, View(), patience)
      ensures !stuck ==> e.Pop? && Follows(plan, old(View()), e, View()) && Ready()
    {
      hide Inv, Sound, Tabled, BranchOf, Undecided, Follows;
      ghost var before := View();
      HeadKnown(plan, before);
      var id := ready[0];
      e := Pop(now, Templates.Unclosed(""));
      var fate := Assess(plan.tasks[id], id in blockedByFailure, Outcomes(results), patience);
      if fate.Stuck? {
        StuckUndecided(plan, before, patience, fate.key);
        return true, e;
      }
      e := Settle(fate, now);
      StepKeeps(plan, before, e, View());
      StaysTabled(plan, before, e, View());
      return false, e;
    }

    /** One result taken off the channel (lines 231-254). */
    method TakeResult(id: string, outcome: Outcome, finishedAt: int, now: int) returns (ghost e: Event)
      requires Ready() && Enabled(plan, View(), Receive(id, outcome, finishedAt, now)) && id in plan.tasks
      modifies this
      ensures e == Receive(id, outcome, finishedAt, now) && Follows(plan, old(View()), e, View()) && Ready()
    {
      hide Inv, Sound, Record;
      ghost var before := View();
      e := Receive(id, outcome, finishedAt, now);
      var startedAt := running[id].startedAt;
      running := running - {id};
      active := active - 1;
      clock := now;
      assert View() == Landed(before, id, now);
      var fatal := outcome.status == Failed && !plan.tasks[id].allowFailure;
      Store(id, TaskResult(outcome, startedAt, finishedAt), Executed, fatal);
      StopFast(fatal && plan.failFast);
      assert Follows(plan, before, e, View());
      hide Follows, Tabled;
      StepKeeps(plan, before, e, View());
      StaysTabled(plan, before, e, View());
    }
  }

  datatype Fate = Upstream | Unmet(reason: string) | Faulty(error: Templates.TemplateError) | Go(input: Input) | Stuck(key: string)

  ghost predicate Foretells(f: Fate, b: Branch) {
    match f
    case Upstream => b.SkipUpstream?
    case Unmet(reason) => b == SkipCondition(reason)
    case Faulty(error) => b.Refuse? && error in b.errors
    case Go(input) => b == Start(input)
    case Stuck(_) => true
  }

  /** The decisions taken about a popped task before anything is recorded (lines 130-175). */
  method Assess(t: TaskNode, blocked: bool, results: map<string, Outcome>, patience: nat) returns (f: Fate)
    ensures Foretells(f, BranchOf(t, blocked, results))
    ensures f.Stuck? ==> !blocked && f.key in t.input && Templates.Rewrite(patience, t.input[f.key], t.input[f.key], results).None?
  {
    if blocked {
      return Upstream;
    }
    match Conditions.Evaluate(t.condition, results)
    case Skip(reason) => return Fate.Unmet(reason);
    case Run =>
      var input := Templates.ResolveInputTemplates(t.input, results, patience);
      match input
      case Unfinished(key) => return Stuck(key);
      case Bad(error) => return Faulty(error);
      case Ready(resolved) => return Go(resolved);
  }

  lemma StuckUndecided(p: Plan, s: State, patience: nat, key: string)
    requires s.ready != [] && s.ready[0] in p.tasks && s.ready[0] !in s.blocked && key in p.tasks[s.ready[0]].input
    requires Templates.Rewrite(patience, p.tasks[s.ready[0]].input[key], p.tasks[s.ready[0]].input[key], Outcomes(s.results)).None?
    ensures Undecided(p, s, patience)
  {
  }

  /** `events` is how the loop got to its present state, each reported outcome being the action's. */
  ghost predicate History(p: Plan, act: Action, states: seq<State>, events: seq<Event>, now: State) {
    Execution(p, states, events) && Deterministic(states, events, act) && states[|events|] == now
  }

  lemma HistoryGrows(p: Plan, act: Action, states: seq<State>, events: seq<Event>, e: Event, s': State)
    requires Execution(p, states, events) && Deterministic(states, events, act) && Follows(p, states[|events|], e, s')
    requires e.Receive? && e.id in states[|events|].running ==> e.outcome == act(e.id, states[|events|].running[e.id].input)
    ensures History(p, act, states + [s'], events + [e], s')
  {
    hide Follows, Initial;
    var longer, more := states + [s'], events + [e];
    forall i | 0 <= i < |more| ensures Follows(p, longer[i], more[i], longer[i + 1]) {
      assert longer[i] == states[i];
      if i < |events| {
        assert longer[i + 1] == states[i + 1];
      }
    }
  }

  /** The inner loop (lines 125-212): pop until the limit is reached or the queue is empty. */
  method Drain(loop: Loop, ghost act: Action, patience: nat, ghost before: seq<State>, ghost past: seq<Event>)
    returns (stuck: bool, ghost states: seq<State>, ghost events: seq<Event>)
    requires loop.Ready() && loop.phase == Looping && History(loop.plan, act, before, past, loop.View())
    modifies loop
    ensures loop.Ready() && loop.phase == Looping && History(loop.plan, act, states, events, loop.View())
    ensures stuck ==> Undecided(loop.plan, loop.View(), patience)
    ensures !stuck ==> !InnerGuard(loop.plan, loop.View())
    ensures Work(loop) <= old(Work(loop))
  {
    hide Inv, Sound, Tabled, Undecided, Follows, History;
    states, events := before, past;
    while loop.active < loop.plan.limit && |loop.ready| > 0
      invariant loop.Ready() && loop.phase == Looping && History(loop.plan, act, states, events, loop.View())
      invariant Work(loop) <= old(Work(loop))
      decreases Work(loop)
    {
      ghost var prior := loop.View();
      var now: int :| loop.clock <= now;
      ghost var e;
      stuck, e := loop.PopHead(now, patience);
      if stuck {
        return;
      }
      PopGoesOn(loop.plan, prior, e, loop.View());
      HistoryOpens(loop.plan, act, states, events, prior);
      HistoryGrows(loop.plan, act, states, events, e, loop.View());
      states, events := states + [loop.View()], events + [e];
    }
    stuck := false;
  }

  lemma HistoryOpens(p: Plan, act: Action, states: seq<State>, events: seq<Event>, now: State)
    requires History(p, act, states, events, now)
    ensures Execution(p, states, events) && Deterministic(states, events, act) && states[|events|] == now
  {
  }

  ghost function Work(loop: Loop): nat
    requires loop.Ready()
    reads loop
  {
    Safety.InvConserves(loop.plan, loop.View());
    Safety.Work(loop.plan, loop.View())
  }

  lemma PopGoesOn(p: Plan, s: State, e: Event, s': State)
    requires Follows(p, s, e, s') && (e.Pop? || e.Receive?)
    ensures Safety.Work(p, s') < Safety.Work(p, s) && s'.phase == Looping
  {
    Safety.StepWorks(p, s, e, s');
    hide Record, BranchOf;
    RecordPhase(p);
  }

  lemma RecordPhase(p: Plan)
    ensures forall s: State, id, result, cause, blocks | Tabled(p, s) :: Record(p, s, id, result, cause, blocks).phase == s.phase
  {
    hide Release;
  }

  /** The head of the queue has an entry not resolved within `patience` replacements. */
  ghost predicate Undecided(p: Plan, s: State, patience: nat) {
    && s.ready != [] && s.ready[0] in p.tasks && s.ready[0] !in s.blocked
    && exists k :: k in p.tasks[s.ready[0]].input &&
         Templates.Rewrite(patience, p.tasks[s.ready[0]].input[k], p.tasks[s.ready[0]].input[k], Outcomes(s.results)).None?
  }

  /** One turn of the outer loop after the inner one: a result is received, or the done context
      is noticed. When both are possible, either may happen. */
  method Select(loop: Loop, act: Action, ghost before: seq<State>, ghost past: seq<Event>)
    returns (aborted: bool, ghost states: seq<State>, ghost events: seq<Event>)
    requires Reporting(act) && loop.Ready() && Selecting(loop.plan, loop.View()) && History(loop.plan, act, before, past, loop.View())
    modifies loop
    ensures loop.Ready() && History(loop.plan, act, states, events, loop.View())
    ensures loop.phase == if aborted then Aborted else Looping
    ensures !aborted ==> Work(loop) < old(Work(loop))
  {
    hide Inv, Sound, Tabled, Follows, History;
    ghost var s := loop.View();
    states, events := before, past;
    var cancelled: bool := *;
    if cancelled && !loop.ctxDone {
      loop.ctxDone := true;
      Flagged(loop.plan, s, ContextDone, loop.View());
      HistoryOpens(loop.plan, act, states, events, s);
      HistoryGrows(loop.plan, act, states, events, ContextDone, loop.View());
      states, events := states + [loop.View()], events + [ContextDone];
    }
    s := loop.View();
    HistoryOpens(loop.plan, act, states, events, s);
    var first: bool := *;
    if loop.ctxDone && first {
      loop.phase := Aborted;
      Flagged(loop.plan, s, TakeAbort, loop.View());
      HistoryGrows(loop.plan, act, states, events, TakeAbort, loop.View());
      return true, states + [loop.View()], events + [TakeAbort];
    }
    FlightExists(loop.plan, s);
    var id :| id in loop.running && id in loop.plan.tasks && loop.running[id].startedAt <= loop.clock;
    var outcome := act(id, loop.running[id].input);
    assert Reporting(act);
    var now: int :| loop.clock <= now;
    var finishedAt: int :| loop.running[id].startedAt <= finishedAt <= now;
    ghost var e := loop.TakeResult(id, outcome, finishedAt, now);
    PopGoesOn(loop.plan, s, e, loop.View());
    HistoryGrows(loop.plan, act, states, events, e, loop.View());
    return false, states + [loop.View()], events + [e];
  }

  lemma Flagged(p: Plan, s: State, e: Event, s': State)
    requires Sound(p) && Tabled(p, s) && Inv(p, s) && Enabled(p, s, e) && (e.ContextDone? || e.TakeAbort? || e.Leave?)
    requires s' == Apply(p, s, e)
    ensures Follows(p, s, e, s') && Tabled(p, s') && Inv(p, s')
    ensures Safety.Work(p, s') == Safety.Work(p, s)
  {
    hide Inv, Sound;
    FlagKeeps(p, s, e);
  }

  lemma FlightExists(p: Plan, s: State)
    requires Inv(p, s) && s.active > 0
    ensures exists id :: id in s.running && id in p.tasks && s.running[id].startedAt <= s.clock
  {
    hide Counted, BlockedExactly, Explained, Starts, FailFastSound, InOrder, Distinct;
    assert s.running != map[];
    var id :| id in s.running;
    assert id in p.tasks && s.running[id].startedAt <= s.clock;
  }

  /** With every result in, nothing is queued or in flight. */
  lemma AllDone(p: Plan, s: State)
    requires Inv(p, s) && s.completed >= |p.tasks|
    ensures s.active == 0 && s.ready == []
  {
    Safety.InvConserves(p, s);
    InvTallied(p, s);
  }

  lemma InvTallied(p: Plan, s: State)
    requires Inv(p, s)
    ensures Tallied(p, s)
  {
  }

  /** The loop's results with an entry added for every task that has none. */
  ghost predicate FilledIn(p: Plan, s: State, results: Results) {
    exists reason, now :: results == Verdicts.Completed(p.tasks.Keys, s.results, reason, now)
  }

  lemma FilledInBy(p: Plan, s: State, results: Results, reason: string, now: int)
    requires results == Verdicts.Completed(p.tasks.Keys, s.results, reason, now)
    ensures FilledIn(p, s, results)
  {
  }

  lemma FilledInKeeps(p: Plan, s: State, results: Results)
    requires FilledIn(p, s, results)
    ensures forall id :: id in s.results && id in p.tasks ==> id in results && results[id] == s.results[id]
  {
  }

  datatype RunEnd =
    | Invalid(error: Graph.ValidationError)
    | Hung
    | Finished(status: RunStatus, results: Results, undone: Undone)

  /** What compensation did; without a status it is still resolving an input. */
  datatype Undone = Undone(order: seq<TaskNode>, reports: seq<Outcome>, status: Option<Compensation.CompensationStatus>)

  /** The outer loop (lines 124-256). Its idle `continue` is dead: after the inner loop with
      nothing in flight the queue is empty. */
  method RunToEnd(loop: Loop, act: Action, patience: nat, ghost first: State)
    returns (hung: bool, aborted: bool, ghost states: seq<State>, ghost events: seq<Event>)
    requires Reporting(act) && Sound(loop.plan) && Initial(loop.plan, loop.View()) && first == loop.View()
    modifies loop
    ensures loop.Ready() && History(loop.plan, act, states, events, loop.View())
    ensures hung ==> Undecided(loop.plan, loop.View(), patience) && loop.phase == Looping
    ensures !hung ==> loop.phase == if aborted then Aborted else Left
  {
    hide Inv, Sound, Tabled, Follows, Undecided, Initial, Apply;
    InitialHolds(loop.plan, loop.View());
    StartsTabled(loop.plan, loop.View());
    states, events := [loop.View()], [];
    assert History(loop.plan, act, states, events, loop.View());
    hide History;
    aborted, hung := false, false;
    while loop.completed < |loop.plan.tasks|
      invariant loop.Ready() && loop.phase == Looping && History(loop.plan, act, states, events, loop.View())
      decreases Work(loop)
    {
      hung, states, events := Drain(loop, act, patience, states, events);
      if hung {
        return;
      }
      if loop.active == 0 {
        break;
      }
      ActiveIsCounted(loop.plan, loop.View());
      aborted, states, events := Select(loop, act, states, events);
      if aborted {
        return;
      }
    }
    if loop.completed >= |loop.plan.tasks| {
      AllDone(loop.plan, loop.View());
    }
    states, events := Exit(loop, act, states, events);
  }

  /** The loop is left with nothing in flight and nothing queued. */
  method Exit(loop: Loop, ghost act: Action, ghost before: seq<State>, ghost past: seq<Event>) returns (ghost states: seq<State>, ghost events: seq<Event>)
    requires loop.Ready() && History(loop.plan, act, before, past, loop.View())
    requires Enabled(loop.plan, loop.View(), Leave)
    modifies loop`phase
    ensures loop.Ready() && loop.phase == Left && History(loop.plan, act, states, events, loop.View())
  {
    hide Inv, Sound, Tabled, Follows, History;
    ghost var s := loop.View();
    loop.phase := Left;
    Flagged(loop.plan, s, Leave, loop.View());
    HistoryOpens(loop.plan, act, before, past, s);
    HistoryGrows(loop.plan, act, before, past, Leave, loop.View());
    states, events := before + [loop.View()], past + [Leave];
  }

  lemma StartsTabled(p: Plan, s: State)
    requires Sound(p) && Initial(p, s)
    ensures Tabled(p, s) && s.phase == Looping
  {
  }

  lemma ActiveIsCounted(p: Plan, s: State)
    requires Inv(p, s)
    ensures s.active >= 0
  {
    InvTallied(p, s);
  }

  predicate AsksToUndo(w: Workflow, status: RunStatus) {
    (status == RunFailed || status == RunCancelled) && w.compensateOnFailure
  }

  /** The registered actions, and what each reports as a compensation. */
  datatype Undoing = Undoing(registry: set<string>, undo: (string, Input) -> Outcome)

  /** Compensation as asked for: the eligible tasks in the one order, reported on one by one. */
  ghost predicate Compensated(w: Workflow, p: Plan, status: RunStatus, results: Results, how: Undoing, u: Undone) {
    if AsksToUndo(w, status) then
      && Compensation.UndoOrder(p.tasks, results, u.order) && |u.reports| <= |u.order|
      && (forall i :: 0 <= i < |u.reports| ==> Compensation.Reports(u.order[i], Outcomes(results), how.registry, how.undo, u.reports[i]))
      && (u.status.Some? ==>
           && |u.reports| == |u.order|
           && (u.status.value == Compensation.CompensationSkipped <==> u.reports == [])
           && (u.status.value == Compensation.CompensationFailed <==> exists o :: o in u.reports && o.status == Failed)
           && u.status.value != Compensation.NotRequired)
    else
      u == Undone([], [], Some(if status == RunSucceeded then Compensation.NotRequired else Compensation.CompensationSkipped))
  }

  lemma TasksOf(p: Plan, w: Workflow, t: TaskNode)
    requires PlanFor(p, w) && Sound(p)
    ensures t in w.tasks <==> t.id in p.tasks && p.tasks[t.id] == t
  {
    if t.id in p.tasks {
      assert t.id in Graph.Ids(w.tasks);
    }
  }

  /** When a failed or cancelled run asks for compensation, exactly the tasks that succeeded and whose
      compensation names an action are undone, the latest first. No other run undoes anything. */
  ghost predicate UndoesSuccesses(w: Workflow, status: RunStatus, results: Results, u: Undone) {
    if (status == RunFailed || status == RunCancelled) && w.compensateOnFailure then
      && Compensation.LatestFirst(results, u.order)
      && forall t :: t in u.order <==>
           && t in w.tasks && t.id in results && results[t.id].outcome.status == Success
           && exists c :: c in t.compensation.action && !Text.IsSpace(c)
    else
      u.order == [] && u.reports == []
  }

  lemma CompensatedMeans(w: Workflow, p: Plan, status: RunStatus, results: Results, how: Undoing, u: Undone)
    requires PlanFor(p, w) && Sound(p) && Compensated(w, p, status, results, how, u)
    ensures UndoesSuccesses(w, status, results, u)
  {
    hide PlanFor, Sound, Text.IsSpace, Compensation.UndoOrder, Compensation.LatestFirst, Compensation.Reports;
    forall t ensures t in w.tasks <==> t.id in p.tasks && p.tasks[t.id] == t {
      TasksOf(p, w, t);
    }
    if (status == RunFailed || status == RunCancelled) && w.compensateOnFailure {
      Compensation.OrderMeans(p.tasks, results, u.order);
    }
  }

  // Lines 270-277.
  method Compensate(w: Workflow, p: Plan, status: RunStatus, results: Results, how: Undoing, patience: nat) returns (u: Undone)
    requires Sound(p)
    ensures Compensated(w, p, status, results, how, u)
    ensures u.status.None? ==>
      |u.reports| < |u.order| && Compensation.Undecided(u.order[|u.reports|], Outcomes(results), how.registry, patience)
  {
    hide Compensation.UndoOrder, Compensation.Reports, Compensation.Undecided;
    if (status == RunFailed || status == RunCancelled) && w.compensateOnFailure {
      var order, reports, stuck := Compensation.RunCompensation(p.tasks, results, how.registry, how.undo, patience);
      if stuck {
        return Undone(order, reports, None);
      }
      var verdict := Compensation.DeriveCompensationStatus(reports);
      return Undone(order, reports, Some(verdict));
    } else if status == RunSucceeded {
      return Undone([], [], Some(Compensation.NotRequired));
    } else {
      return Undone([], [], Some(Compensation.CompensationSkipped));
    }
  }

  /** Where compensation was asked for, dependents are undone before their dependencies exactly when no tie
      of finish times contradicts the IDs. */
  ghost predicate UndoneInOrder(w: Workflow, p: Plan, s: State, status: RunStatus, u: Undone) {
    AsksToUndo(w, status) ==> (Compensation.DependentsFirst(p, u.order) <==> Compensation.TiesAgree(p, s.results))
  }

  lemma CompensatedInOrder(w: Workflow, p: Plan, states: seq<State>, events: seq<Event>, status: RunStatus, results: Results, how: Undoing, u: Undone)
    requires Sound(p) && Execution(p, states, events) && FilledIn(p, states[|events|], results)
    requires Compensated(w, p, status, results, how, u)
    ensures UndoneInOrder(w, p, states[|events|], status, u)
  {
    var s := states[|events|];
    hide Sound, Execution, Compensation.UndoOrder, Compensation.Reports, Compensation.DependentsFirst, Compensation.TiesAgree;
    if AsksToUndo(w, status) {
      var reason, now :| results == Verdicts.Completed(p.tasks.Keys, s.results, reason, now);
      Compensation.ReverseTopologicalIff(p, states, events, u.order, reason, now);
    }
  }

  /** runWithID: an invalid workflow is refused; any other run takes only steps of the machine
      and ends with the results and the status the machine's last state determines. A run that is not
      left through cancellation has the results that evaluating the graph with its actions gives. A failed
      or cancelled run is compensated if the workflow asks for it. */
  method RunWithID(w: Workflow, act: Action, how: Undoing, patience: nat, startedAt: int)
    returns (r: RunEnd, ghost p: Plan, ghost states: seq<State>, ghost events: seq<Event>)
    requires Reporting(act)
    ensures r.Invalid? <==> !Graph.Accepted(w)
    ensures !r.Invalid? ==> PlanFor(p, w) && Execution(p, states, events) && Fit(p, states[|events|])
    ensures !r.Invalid? ==> Deterministic(states, events, act)
    ensures r.Hung? ==> Undecided(p, states[|events|], patience)
    ensures r.Finished? ==> states[|events|].phase != Looping && r.status == Verdicts.FinalStatus(states[|events|], r.results)
    ensures r.Finished? ==> FilledIn(p, states[|events|], r.results)
    ensures r.Finished? && states[|events|].phase == Left ==> AsEvaluated(p, act, states[|events|], r.results)
    ensures r.Finished? ==>
      Compensated(w, p, r.status, r.results, how, r.undone) && UndoneInOrder(w, p, states[|events|], r.status, r.undone)
    ensures r.Finished? ==> UndoesSuccesses(w, r.status, r.results, r.undone)
    ensures !r.Invalid? ==> Safety.HeldBackExactly(p, states[|events|]) && Safety.FailsFastExactly(p, states[|events|])
    ensures !r.Invalid? ==> Safety.RecordedAs(states[|events|]) && KeepsToLimit(w, states)
  {
    hide Graph.Accepted, Graph.Ranked, Graph.Justified, Graph.Ids;
    hide Inv, Sound, Tabled, Follows, Undecided, Initial, Execution, Deterministic, Fit, AsEvaluated, Compensated, UndoneInOrder;
    hide Safety.HeldBackExactly, Safety.FailsFastExactly, Safety.RecordedAs, UndoesSuccesses, KeepsToLimit;
    p, states, events := Plan(map[], map[], 1, false), [], [];
    var error;
    ghost var rank;
    error, rank := Graph.ValidateWorkflow(w);
    if error.Some? {
      return Invalid(error.value), p, states, events;
    }
    var plan, remaining := Build(w, rank);
    p := plan;
    var loop := new Loop(plan, remaining, startedAt);
    var hung, aborted;
    hung, aborted, states, events := RunToEnd(loop, act, patience, loop.View());
    HistoryOpens(plan, act, states, events, loop.View());
    Safety.HeldBackAlways(plan, states, events, |events|);
    Safety.RecordedAlways(plan, states, events, |events|);
    LimitKept(w, plan, states, events);
    if hung {
      return Hung, p, states, events;
    }
    var reason: string := *;
    var now: int :| loop.clock <= now;
    var results := Verdicts.MarkUnfinishedTasksAsSkipped(w.tasks, loop.results, reason, now);
    FilledInBy(p, states[|events|], results, reason, now);
    if loop.phase == Left {
      LeftAsEvaluated(p, act, states, events, results);
    }
    var status := if loop.failFastTriggered then RunFailed else RunCancelled;
    if !aborted {
      status := Verdicts.DeriveFinalStatus(results);
    }
    var undone := Compensate(w, plan, status, results, how, patience);
    CompensatedMeans(w, p, status, results, how, undone);
    CompensatedInOrder(w, p, states, events, status, results, how, undone);
    return Finished(status, results, undone), p, states, events;
  }

  /** There are never more actions in flight than the workflow allows at once. */
  ghost predicate KeepsToLimit(w: Workflow, states: seq<State>) {
    forall k :: 0 <= k < |states| ==> |states[k].running| <= if w.maxConcurrency > 1 then w.maxConcurrency else 1
  }

  lemma LimitKept(w: Workflow, p: Plan, states: seq<State>, events: seq<Event>)
    requires Sound(p) && PlanFor(p, w) && Execution(p, states, events)
    ensures KeepsToLimit(w, states)
  {
    hide Sound, Execution, Tabled;
    forall k | 0 <= k < |states| ensures |states[k].running| <= p.limit {
      Safety.Conservation(p, states, events, k);
    }
  }

  /** Actions, retries included, succeed or fail. */
  ghost predicate Reporting(act: Action) {
    forall id, input :: act(id, input).status != Skipped
  }

  /** Where conditions and templates look at no task whose place is open, each task ends as the evaluation says. */
  ghost predicate AsEvaluated(p: Plan, act: Action, s: State, results: Results) {
    forall rank | Ranks(p, rank) && LooksOrdered(p, rank, act) ::
      forall id :: id in p.tasks ==> id in results && id in s.cause && Agrees(Judge(p, rank, act, id), s.cause[id], results[id].outcome)
  }

  lemma LeftAsEvaluated(p: Plan, act: Action, states: seq<State>, events: seq<Event>, results: Results)
    requires Sound(p) && Execution(p, states, events) && Deterministic(states, events, act) && states[|events|].phase == Left
    requires FilledIn(p, states[|events|], results)
    ensures AsEvaluated(p, act, states[|events|], results)
  {
    assert |states| == |events| + 1;
    hide Sound, Execution, Deterministic, LooksOrdered, Judge, Agrees, Ranks, FilledIn;
    FilledInKeeps(p, states[|events|], results);
    forall rank | Ranks(p, rank) && LooksOrdered(p, rank, act)
      ensures forall id :: id in p.tasks ==>
        id in results && id in states[|events|].cause && Agrees(Judge(p, rank, act, id), states[|events|].cause[id], results[id].outcome)
    {
      Confluent(p, rank, act, states, events);
    }
  }
}
