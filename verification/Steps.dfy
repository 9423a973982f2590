/** Every step of the scheduling loop keeps the invariant, so every execution does. */
module Steps {
  import opened Domain
  import opened Plans
  import opened Scheduling
  import opened Invariants
  import Conditions
  import Templates

  /** Only the fail-fast flags, the phase and the context flag differ. */
  ghost predicate SameCore(s: State, t: State) {
    && t.remaining == s.remaining && t.ready == s.ready && t.blocked == s.blocked && t.results == s.results
    && t.running == s.running && t.active == s.active && t.completed == s.completed
    && t.clock == s.clock && t.cause == s.cause && t.started == s.started
  }

  lemma ShapeKept(p: Plan, s: State, t: State)
    requires Shape(p, s, {}) && SameCore(s, t)
    ensures Shape(p, t, {})
  {
    hide Distinct;
  }

  lemma CountsKept(p: Plan, s: State, t: State)
    requires Shape(p, s, {}) && Counted(p, s, {}) && Tallied(p, s) && Starts(p, s, {}) && SameCore(s, t)
    ensures Shape(p, t, {}) && Counted(p, t, {}) && Tallied(p, t) && Starts(p, t, {})
  {
    hide Missing, Shape;
    ShapeKept(p, s, t);
  }

  lemma CausesKept(p: Plan, s: State, t: State)
    requires BlockedExactly(p, s) && Labelled(p, s) && Unblocked(p, s) && SameCore(s, t)
    ensures BlockedExactly(p, t) && Labelled(p, t) && Unblocked(p, t)
  {
    hide Fits, Fatal;
    assert forall d :: Blocks(p, s, d) <==> Blocks(p, t, d);
  }

  lemma OrderKept(p: Plan, s: State, t: State)
    requires StillMet(p, s) && Timed(p, s) && SameCore(s, t)
    ensures StillMet(p, t) && Timed(p, t)
  {
    hide Conditions.Evaluate;
    assert forall x :: Passed(s, x) <==> Passed(t, x);
    assert forall x :: x in s.results || x in s.running ==> StartOf(s, x) == StartOf(t, x);
  }

  lemma CoreKept(p: Plan, s: State, t: State)
    requires Core(p, s) && SameCore(s, t)
    ensures Core(p, t)
  {
    hide Shape, Counted, Tallied, BlockedExactly, Labelled, Unblocked, StillMet, Starts, Dated, InOrder;
    CountsKept(p, s, t);
    CausesKept(p, s, t);
    OrderKept(p, s, t);
  }

  /** The fail-fast flag after a result is recorded. */
  lemma FailFastAfter(p: Plan, s: State, t: State, id: string, result: TaskResult, cause: Cause, blocks: bool, trigger: bool)
    requires FailFastSound(p, s) && s.phase == Looping && Tabled(p, t)
    requires t.results == s.results && t.failFastTriggered == s.failFastTriggered && t.ctxDone == s.ctxDone && t.phase == s.phase
    requires id in p.tasks && id !in s.results
    requires trigger <==> p.failFast && Fatal(p, id, result.outcome)
    ensures FailFastSound(p, TriggerFailFast(Record(p, t, id, result, cause, blocks), trigger))
  {
    hide Release;
    var s' := TriggerFailFast(Record(p, t, id, result, cause, blocks), trigger);
    assert s'.results == s.results[id := result];
    assert forall w :: w in s.results ==> s'.results[w] == s.results[w];
    assert Fatal(p, id, result.outcome) <==> s'.results[id].outcome.status == Failed && !p.tasks[id].allowFailure;
  }

  lemma RecordedStep(p: Plan, s: State, t: State, id: string, result: TaskResult, cause: Cause, blocks: bool, trigger: bool)
    requires FailFastSound(p, s) && s.phase == Looping && Tabled(p, t)
    requires t.results == s.results && t.failFastTriggered == s.failFastTriggered && t.ctxDone == s.ctxDone && t.phase == s.phase
    requires id in p.tasks && id !in s.results
    requires trigger <==> p.failFast && Fatal(p, id, result.outcome)
    requires Core(p, Record(p, t, id, result, cause, blocks))
    ensures Inv(p, TriggerFailFast(Record(p, t, id, result, cause, blocks), trigger))
  {
    hide Core, Inv, Record, FailFastSound, Fatal;
    FailFastAfter(p, s, t, id, result, cause, blocks, trigger);
    CoreKept(p, Record(p, t, id, result, cause, blocks), TriggerFailFast(Record(p, t, id, result, cause, blocks), trigger));
    InvParts(p, TriggerFailFast(Record(p, t, id, result, cause, blocks), trigger));
  }

  lemma InvParts(p: Plan, s: State)
    ensures Inv(p, s) <==> Core(p, s) && FailFastSound(p, s)
  {
    hide Shape, Counted, Tallied, BlockedExactly, Labelled, Unblocked, StillMet, Starts, Dated, InOrder, FailFastSound;
  }

  lemma HeadSound(p: Plan, s: State, now: int)
    requires Inv(p, s) && s.ready != [] && s.clock <= now
    ensures var id := s.ready[0]; var t := Taken(s, now);
      && id in p.tasks && id !in s.results && id !in t.results && Tabled(p, t) == Tabled(p, s)
      && (forall d :: d in p.tasks[id].dependsOn && d in t.results ==> t.results[d].finishedAt <= now)
  {
    assert s.ready[0] in s.ready;
    hide Counted, Labelled, BlockedExactly, StillMet, InOrder, Starts, Distinct;
  }

  lemma PopKeeps(p: Plan, s: State, now: int, error: Templates.TemplateError)
    requires Sound(p) && Inv(p, s) && Tabled(p, s) && Enabled(p, s, Pop(now, error))
    ensures Inv(p, Apply(p, s, Pop(now, error)))
  {
    hide Shape, Counted, Tallied, BlockedExactly, Labelled, Unblocked, StillMet, Starts, Dated, InOrder, Record, FailFastSound, Conditions.Evaluate, Templates.ResolveInput;
    var id := s.ready[0];
    var t := Taken(s, now);
    TakenHolds(p, s, now);
    HeadSound(p, s, now);
    match HeadBranch(p, s)
    case SkipUpstream =>
      RecordCore(p, t, id, Instant(UPSTREAM, now), UpstreamFailed, true);
      RecordedStep(p, s, t, id, Instant(UPSTREAM, now), UpstreamFailed, true, false);
    case SkipCondition(reason) =>
      RecordCore(p, t, id, Instant(SkippedFor(reason), now), ConditionUnmet, false);
      RecordedStep(p, s, t, id, Instant(SkippedFor(reason), now), ConditionUnmet, false, false);
    case Refuse(errors) =>
      var trigger := p.failFast && !p.tasks[id].allowFailure;
      RecordCore(p, t, id, Instant(Malformed(error), now), TemplateFailed, true);
      RecordedStep(p, s, t, id, Instant(Malformed(error), now), TemplateFailed, true, trigger);
    case Start(input) =>
      TakenTallied(p, s, now);
      LaunchCore(p, t, id, input, now);
      LaunchFailFast(p, s, id, input, now);
  }

  lemma TakenTallied(p: Plan, s: State, now: int)
    requires InnerGuard(p, s)
    ensures Taken(s, now).active < p.limit && Taken(s, now).clock == now
  {
  }

  lemma LaunchFailFast(p: Plan, s: State, id: string, input: Input, now: int)
    requires FailFastSound(p, s) && s.phase == Looping && s.ready != []
    ensures FailFastSound(p, Launch(Taken(s, now), id, input, now))
  {
    hide Fatal;
  }

  lemma ReceiveApplies(p: Plan, s: State, id: string, outcome: Outcome, finishedAt: int, now: int)
    requires Tabled(p, s) && Enabled(p, s, Receive(id, outcome, finishedAt, now)) && id in p.tasks
    ensures s.phase == Looping && id in s.running && outcome.status != Skipped && s.clock <= now && Tabled(p, Landed(s, id, now))
    ensures s.running[id].startedAt <= finishedAt <= now
    ensures var fatal := Fatal(p, id, outcome);
      Apply(p, s, Receive(id, outcome, finishedAt, now)) ==
      TriggerFailFast(
        Record(p, Landed(s, id, now), id, TaskResult(outcome, s.running[id].startedAt, finishedAt), Executed, fatal),
        fatal && p.failFast)
  {
    hide Fatal, Record;
  }

  lemma ReceiveKeeps(p: Plan, s: State, id: string, outcome: Outcome, finishedAt: int, now: int)
    requires Sound(p) && Inv(p, s) && Tabled(p, s) && Enabled(p, s, Receive(id, outcome, finishedAt, now)) && id in p.tasks
    ensures Inv(p, Apply(p, s, Receive(id, outcome, finishedAt, now)))
  {
    hide Inv, Core, Sound, Fatal, Apply, Enabled, Tabled, Record, FailFastSound, Conditions.Evaluate, Holding, Tallied, BlockedExactly, Explained, Starts, Timed;
    InvParts(p, s);
    ReceiveApplies(p, s, id, outcome, finishedAt, now);
    LandedOrder(p, s, id);
    var t := Landed(s, id, now);
    var fatal := Fatal(p, id, outcome);
    var result := TaskResult(outcome, s.running[id].startedAt, finishedAt);
    LandedHolds(p, s, id, now);
    RecordCore(p, t, id, result, Executed, fatal);
    RecordedStep(p, s, t, id, result, Executed, fatal, fatal && p.failFast);
  }

  lemma LandedOrder(p: Plan, s: State, id: string)
    requires Inv(p, s) && id in s.running && id in p.tasks
    ensures id !in s.results
    ensures forall d :: d in p.tasks[id].dependsOn && d in s.results ==> s.results[d].finishedAt <= s.running[id].startedAt
  {
    hide Distinct, Counted, Tallied, BlockedExactly, Explained, Starts, FailFastSound, Dated;
    assert StartOf(s, id) == s.running[id].startedAt;
  }

  lemma FlagKeeps(p: Plan, s: State, e: Event)
    requires Sound(p) && Inv(p, s) && Tabled(p, s) && Enabled(p, s, e) && (e.ContextDone? || e.TakeAbort? || e.Leave?)
    ensures Inv(p, Apply(p, s, e))
  {
    hide Inv, Core, FailFastSound, Sound;
    var s' := Apply(p, s, e);
    InvParts(p, s);
    InvParts(p, s');
    assert SameCore(s, s');
    FlagFailFast(p, s, e);
    hide Apply;
    CoreKept(p, s, s');
  }

  lemma FlagFailFast(p: Plan, s: State, e: Event)
    requires Sound(p) && Tabled(p, s) && Enabled(p, s, e) && (e.ContextDone? || e.TakeAbort? || e.Leave?)
    requires FailFastSound(p, s)
    ensures FailFastSound(p, Apply(p, s, e))
  {
    hide Fatal;
    QueueDrained(p, s);
  }

  lemma QueueDrained(p: Plan, s: State)
    requires Sound(p)
    ensures !InnerGuard(p, s) && s.active == 0 ==> s.ready == []
  {
  }

  /** One step of the loop keeps everything. */
  lemma StepKeeps(p: Plan, s: State, e: Event, s': State)
    requires Sound(p) && Inv(p, s) && Follows(p, s, e, s')
    ensures Inv(p, s')
  {
    hide Inv, Apply, Ranks, Mirrors;
    match e
    case Pop(now, error) => PopKeeps(p, s, now, error);
    case Receive(id, outcome, finishedAt, now) => ReceiveKeeps(p, s, id, outcome, finishedAt, now);
    case ContextDone => FlagKeeps(p, s, e);
    case TakeAbort => FlagKeeps(p, s, e);
    case Leave => FlagKeeps(p, s, e);
  }

  lemma InitialCounts(p: Plan, s: State)
    requires Sound(p) && Initial(p, s)
    ensures Shape(p, s, {}) && Counted(p, s, {})
  {
    hide Ranks, Mirrors, Distinct;
    assert s.results.Keys == {};
    forall id | id in p.tasks ensures Missing(p.tasks[id].dependsOn, {}) == |p.tasks[id].dependsOn| {
      MissingAll(p.tasks[id].dependsOn);
    }
    hide Missing;
  }

  lemma InitialCauses(p: Plan, s: State)
    requires Sound(p) && Initial(p, s)
    ensures BlockedExactly(p, s) && Explained(p, s) && FailFastSound(p, s) && Timed(p, s)
  {
    hide Ranks, Mirrors, Distinct, Conditions.Evaluate, Fits, Fatal;
  }

  lemma InitialHolds(p: Plan, s: State)
    requires Sound(p) && Initial(p, s)
    ensures Inv(p, s)
  {
    InitialCounts(p, s);
    InitialCauses(p, s);
    NothingRepeats();
    hide Sound, Shape, Counted, BlockedExactly, Labelled, Unblocked, StillMet, Dated, InOrder, FailFastSound;
  }

  lemma NothingRepeats()
    ensures Distinct<string>([])
  {
  }

  /** The invariant holds in every state of every execution. */
  lemma {:induction false} AlwaysInv(p: Plan, states: seq<State>, events: seq<Event>, i: nat)
    requires Sound(p) && Execution(p, states, events) && i < |states|
    ensures Inv(p, states[i])
  {
    hide Inv, Follows, Initial, Ranks, Mirrors;
    if i == 0 {
      InitialHolds(p, states[0]);
    } else {
      AlwaysInv(p, states, events, i - 1);
      StepKeeps(p, states[i - 1], events[i - 1], states[i]);
    }
  }
}
