/** What fail-fast stops, and what it does not. */
module FailFast {
  import opened Domain
  import opened Plans
  import opened Scheduling
  import opened Steps
  import opened Pairs
  import Graph
  import Safety
  import Templates

  // ----- Exactly which events start a task -----

  /** There is room, and the task at the head of the queue is neither blocked, nor skipped by its
      condition, nor refused for its templates. */
  ghost predicate Launches(p: Plan, s: State) {
    InnerGuard(p, s) && s.ready[0] in p.tasks && HeadBranch(p, s).Start?
  }

  /** An event starts a task exactly when it takes one off the queue whose branch is to start. */
  lemma StepStarts(p: Plan, s: State, e: Event, s': State)
    requires Follows(p, s, e, s')
    ensures e.Pop? ==> InnerGuard(p, s) && s.phase == Looping
    ensures s'.started == s.started + if e.Pop? && Launches(p, s) then [s.ready[0]] else []
    ensures s'.active == s.active + if e.Pop? && Launches(p, s) then 1 else if e.Receive? then -1 else 0
    ensures s.failFastTriggered ==> s'.failFastTriggered
  {
    hide HeadBranch, Release, Dependents;
  }

  /** While there is room and the queue is not empty, a triggered loop does nothing but take tasks off
      the queue: it never looks at its cancelled context there. */
  lemma TriggeredPops(p: Plan, s: State, e: Event)
    requires Inv(p, s) && s.failFastTriggered && InnerGuard(p, s) && Enabled(p, s, e)
    ensures e.Pop?
  {
    hide Shape, Counted, Tallied, BlockedExactly, Explained, Starts, Timed, HeadBranch, Critical;
  }

  /** A triggered loop starts a task next exactly when it has room for one that is to start. */
  lemma StartsNextIff(p: Plan, s: State, e: Event, s': State)
    requires Inv(p, s) && s.failFastTriggered && Follows(p, s, e, s')
    ensures s'.started != s.started <==> Launches(p, s)
  {
    StepStarts(p, s, e, s');
    hide Inv, Apply, Tabled, HeadBranch;
    if InnerGuard(p, s) {
      TriggeredPops(p, s, e);
    }
  }

  // ----- From the trigger to the next select -----

  /** The states from `i` on take tasks off the queue until `j`, where the inner loop is left. */
  ghost predicate Drains(p: Plan, states: seq<State>, i: nat, j: nat) {
    && i <= j < |states|
    && (forall k :: i <= k < j ==> InnerGuard(p, states[k]))
    && !InnerGuard(p, states[j])
  }

  ghost predicate NoneStarts(p: Plan, states: seq<State>, i: nat, j: nat)
    requires i <= j < |states|
  {
    forall k :: i <= k < j ==> !Launches(p, states[k])
  }

  lemma {:induction false} StartsOnlyGrow(p: Plan, states: seq<State>, events: seq<Event>, i: nat, j: nat)
    requires Sound(p) && Execution(p, states, events) && i <= j < |states| && states[i].failFastTriggered
    requires forall k :: i <= k < j ==> InnerGuard(p, states[k])
    ensures states[j].failFastTriggered && forall k :: i <= k < j ==> events[k].Pop?
    ensures |states[j].started| >= |states[i].started|
    ensures states[j].started == states[i].started <==> NoneStarts(p, states, i, j)
    ensures |states[j].started| - states[j].active == |states[i].started| - states[i].active
    ensures forall id :: Queued(states[i], id) ==> Queued(states[j], id)
  {
    hide Inv, Launches, Follows, Initial, Sound, InnerGuard, Queued;
    if i < j {
      StartsOnlyGrow(p, states, events, i, j - 1);
      var s, e, s' := states[j - 1], events[j - 1], states[j];
      AlwaysInv(p, states, events, j - 1);
      AlwaysInv(p, states, events, j);
      TriggerStays(p, s, e, s');
      StepStarts(p, s, e, s');
      Leaves(p, s, e, s');
    }
  }

  lemma TriggerStays(p: Plan, s: State, e: Event, s': State)
    requires Inv(p, s) && Follows(p, s, e, s') && s.failFastTriggered && InnerGuard(p, s)
    ensures s'.failFastTriggered && e.Pop?
  {
    hide Inv, Apply, InnerGuard, Tabled;
    StepStarts(p, s, e, s');
    TriggeredPops(p, s, e);
  }

  predicate Queued(s: State, id: string) {
    id in s.ready || id in s.running || id in s.results
  }

  lemma QueuedIff(p: Plan, s: State, id: string)
    requires Inv(p, s) && id in p.tasks
    ensures Queued(s, id) <==> forall d :: d in p.tasks[id].dependsOn ==> d in s.results
  {
    MissingZero(p.tasks[id].dependsOn, s.results.Keys);
    hide Missing, Shape, Tallied, BlockedExactly, Explained, Starts, FailFastSound, Timed;
  }

  lemma QueuedIsTask(p: Plan, s: State, id: string)
    requires Inv(p, s) && Queued(s, id)
    ensures id in p.tasks
  {
    hide Counted, Tallied, BlockedExactly, Explained, Starts, FailFastSound, Timed, Distinct;
  }

  /** What leaves the queue is recorded or in flight. */
  lemma Leaves(p: Plan, s: State, e: Event, s': State)
    requires Inv(p, s) && Inv(p, s') && Follows(p, s, e, s')
    ensures forall id :: Queued(s, id) ==> Queued(s', id)
  {
    Safety.StepWritesOnce(p, s, e, s');
    hide Inv, Follows, Queued;
    forall id | Queued(s, id) ensures Queued(s', id) {
      QueuedIsTask(p, s, id);
      QueuedIff(p, s, id);
      QueuedIff(p, s', id);
    }
  }

  /** From any triggered state up to the next select nothing more is started exactly when no task
      reached on the way has a branch to start. Then every queued task has been recorded, unless the
      limit was reached already; and if the run is now left, by either way, that is final. */
  lemma DrainStartsIff(p: Plan, states: seq<State>, events: seq<Event>, i: nat, j: nat)
    requires Sound(p) && Execution(p, states, events) && Drains(p, states, i, j) && states[i].failFastTriggered
    ensures forall k :: i <= k < j ==> events[k].Pop?
    ensures states[j].started == states[i].started <==> NoneStarts(p, states, i, j)
    ensures states[j].started == states[i].started && states[i].active < p.limit ==>
      forall id :: id in states[i].ready ==> id in states[j].running || id in states[j].results
    ensures j < |events| && (events[j].TakeAbort? || events[j].Leave?) ==> states[j + 1].started == states[j].started
  {
    hide Inv, Launches, Follows, Initial, Sound, NoneStarts;
    StartsOnlyGrow(p, states, events, i, j);
    assert forall id :: id in states[i].ready ==> Queued(states[i], id);
    if j < |events| {
      StepStarts(p, states[j], events[j], states[j + 1]);
    }
  }

  // ----- A task started after the trigger -----

  const CRASH := Outcome(Failed, "", "crashed", 1)

  const PAIR := Pair("always", true)

  /** Two independent tasks under fail-fast, one at a time: the first fails, the second is started after
      that, and the run is then aborted with the second in flight. */
  lemma StartsAfterTrigger(error: Templates.TemplateError) returns (states: seq<State>, events: seq<Event>)
    ensures Graph.Accepted(TwoTasks("always", true)) && PlanFor(PAIR, TwoTasks("always", true)) && Sound(PAIR)
    ensures Execution(PAIR, states, events) && |events| == 4
    ensures states[2].failFastTriggered && "b" !in states[2].started
    ensures "b" in states[3].started && states[4].phase == Aborted && "b" !in states[4].results
  {
    hide BranchOf, Apply, Enabled, Tabled, Execution, Graph.Accepted, PlanFor, Sound;
    PairIsAccepted("always", true);
    PairIsSound("always", true);
    var s0 := Beginning(["a", "b"]);
    Begins("always", true, ["a", "b"]);
    states, events := [s0], [];
    AlwaysStarts("a", Outcomes(s0.results));
    StartsHead("always", true, s0, error);
    var s1 := Apply(PAIR, s0, Pop(0, error));
    GoesOn(PAIR, states, events, Pop(0, error));
    states, events := states + [s1], events + [Pop(0, error)];
    Reports("always", true, s1, "a", CRASH);
    var s2 := Apply(PAIR, s1, Receive("a", CRASH, 0, 0));
    GoesOn(PAIR, states, events, Receive("a", CRASH, 0, 0));
    states, events := states + [s2], events + [Receive("a", CRASH, 0, 0)];
    AlwaysStarts("b", Outcomes(s2.results));
    StartsHead("always", true, s2, error);
    var s3 := Apply(PAIR, s2, Pop(0, error));
    GoesOn(PAIR, states, events, Pop(0, error));
    states, events := states + [s3], events + [Pop(0, error)];
    Aborts(s3);
    GoesOn(PAIR, states, events, TakeAbort);
    states, events := states + [Apply(PAIR, s3, TakeAbort)], events + [TakeAbort];
  }

  lemma Aborts(s: State)
    requires OfPair(s) && s.active == 1 && s.ctxDone
    ensures Tabled(PAIR, s) && Enabled(PAIR, s, TakeAbort) && Apply(PAIR, s, TakeAbort) == s.(phase := Aborted)
  {
    hide Sound;
    PairIsSound("always", true);
  }
}
