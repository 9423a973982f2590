/** Why confluence asks conditions to look at dependencies only: validation accepts a condition on
    any task, and one that names a task it does not depend on is decided by the interleaving. */
module OffPath {
  import opened Domain
  import opened Plans
  import opened Scheduling
  import opened Pairs
  import Confluence
  import Graph
  import Templates

  const ON_OTHER := "on_success:a"

  const DONE := Outcome(Success, "", "", 1)

  /** Two independent tasks; the second is to run only if the first succeeded. */
  const PAIR := Pair(ON_OTHER, false)

  /** Every action succeeds. */
  function Succeeds(id: string, input: Input): Outcome {
    DONE
  }

  lemma DeterministicSnoc(states: seq<State>, events: seq<Event>, s: State, e: Event)
    requires |states| == |events| + 1 && Confluence.Deterministic(states, events, Succeeds) && (e.Receive? ==> e.outcome == DONE)
    ensures Confluence.Deterministic(states + [s], events + [e], Succeeds)
  {
  }

  /** One more event of a run in which every action succeeds. */
  lemma Extend(states: seq<State>, events: seq<Event>, e: Event)
    requires Execution(PAIR, states, events) && Confluence.Deterministic(states, events, Succeeds)
    requires var s := states[|events|]; Tabled(PAIR, s) && Enabled(PAIR, s, e) && (e.Receive? ==> e.id in PAIR.tasks && e.outcome == DONE)
    ensures Execution(PAIR, states + [Apply(PAIR, states[|events|], e)], events + [e])
    ensures Confluence.Deterministic(states + [Apply(PAIR, states[|events|], e)], events + [e], Succeeds)
  {
    hide Apply, Enabled, Tabled, Initial, Follows, Confluence.Deterministic;
    GoesOn(PAIR, states, events, e);
    DeterministicSnoc(states, events, Apply(PAIR, states[|events|], e), e);
  }

  /** The second task comes first and is skipped. */
  lemma EarlyRun(error: Templates.TemplateError) returns (states: seq<State>, events: seq<Event>)
    ensures Execution(PAIR, states, events) && Confluence.Deterministic(states, events, Succeeds)
    ensures var s := states[|events|]; s.phase == Left && "b" in s.results && s.results["b"].outcome.status == Skipped
  {
    hide BranchOf, Apply, Enabled, Tabled, Execution, Confluence.Deterministic;
    var s0 := Beginning(["b", "a"]);
    Begins(ON_OTHER, false, ["b", "a"]);
    states, events := [s0], [];
    FirstDeterministic(s0);
    ConditionDecides(Outcomes(map[]));
    var reason := BranchOf(Plain("b", ON_OTHER), false, Outcomes(map[])).reason;
    SkipsHead(ON_OTHER, false, s0, error, reason);
    var s1 := Apply(PAIR, s0, Pop(0, error));
    Extend(states, events, Pop(0, error));
    states, events := states + [s1], events + [Pop(0, error)];
    AlwaysStarts("a", Outcomes(s1.results));
    StartsHead(ON_OTHER, false, s1, error);
    var s2 := Apply(PAIR, s1, Pop(0, error));
    Extend(states, events, Pop(0, error));
    states, events := states + [s2], events + [Pop(0, error)];
    Reports(ON_OTHER, false, s2, "a", DONE);
    var s3 := Apply(PAIR, s2, Receive("a", DONE, 0, 0));
    Extend(states, events, Receive("a", DONE, 0, 0));
    states, events := states + [s3], events + [Receive("a", DONE, 0, 0)];
    Exits(s3);
    Extend(states, events, Leave);
    states, events := states + [Apply(PAIR, s3, Leave)], events + [Leave];
  }

  /** The first task comes first, and the second runs. */
  lemma LateRun(error: Templates.TemplateError) returns (states: seq<State>, events: seq<Event>)
    ensures Execution(PAIR, states, events) && Confluence.Deterministic(states, events, Succeeds)
    ensures var s := states[|events|]; s.phase == Left && "b" in s.results && s.results["b"].outcome.status == Success
  {
    hide BranchOf, Apply, Enabled, Tabled, Execution, Confluence.Deterministic;
    var s0 := Beginning(["a", "b"]);
    Begins(ON_OTHER, false, ["a", "b"]);
    states, events := [s0], [];
    FirstDeterministic(s0);
    AlwaysStarts("a", Outcomes(s0.results));
    StartsHead(ON_OTHER, false, s0, error);
    var s1 := Apply(PAIR, s0, Pop(0, error));
    Extend(states, events, Pop(0, error));
    states, events := states + [s1], events + [Pop(0, error)];
    Reports(ON_OTHER, false, s1, "a", DONE);
    var s2 := Apply(PAIR, s1, Receive("a", DONE, 0, 0));
    Extend(states, events, Receive("a", DONE, 0, 0));
    states, events := states + [s2], events + [Receive("a", DONE, 0, 0)];
    ConditionDecides(Outcomes(s2.results));
    StartsHead(ON_OTHER, false, s2, error);
    var s3 := Apply(PAIR, s2, Pop(0, error));
    Extend(states, events, Pop(0, error));
    states, events := states + [s3], events + [Pop(0, error)];
    Reports(ON_OTHER, false, s3, "b", DONE);
    var s4 := Apply(PAIR, s3, Receive("b", DONE, 0, 0));
    Extend(states, events, Receive("b", DONE, 0, 0));
    states, events := states + [s4], events + [Receive("b", DONE, 0, 0)];
    Exits(s4);
    Extend(states, events, Leave);
    states, events := states + [Apply(PAIR, s4, Leave)], events + [Leave];
  }

  lemma FirstDeterministic(s: State)
    ensures Confluence.Deterministic([s], [], Succeeds)
  {
  }

  lemma Exits(s: State)
    requires OfPair(s) && s.active == 0 && s.ready == []
    ensures Tabled(PAIR, s) && Enabled(PAIR, s, Leave) && Apply(PAIR, s, Leave) == s.(phase := Left)
  {
    hide Sound;
    PairIsSound(ON_OTHER, false);
  }

  /** Two uncancelled runs of one accepted workflow, with the same deterministic actions, that end with
      different statuses: what two runs must agree on fails for a condition on a task off the path. */
  lemma OffPathConditionSplits(error: Templates.TemplateError)
    returns (early: seq<State>, earlyEvents: seq<Event>, late: seq<State>, lateEvents: seq<Event>)
    ensures Graph.Accepted(TwoTasks(ON_OTHER, false)) && PlanFor(PAIR, TwoTasks(ON_OTHER, false)) && Sound(PAIR)
    ensures Execution(PAIR, early, earlyEvents) && Confluence.Deterministic(early, earlyEvents, Succeeds)
    ensures Execution(PAIR, late, lateEvents) && Confluence.Deterministic(late, lateEvents, Succeeds)
    ensures var s, s' := early[|earlyEvents|], late[|lateEvents|];
      && s.phase == Left && s'.phase == Left && "b" in s.results && "b" in s'.results
      && s.results["b"].outcome.status == Skipped && s'.results["b"].outcome.status == Success
  {
    hide Execution, Confluence.Deterministic, Graph.Accepted, PlanFor, Sound;
    PairIsAccepted(ON_OTHER, false);
    PairIsSound(ON_OTHER, false);
    early, earlyEvents := EarlyRun(error);
    late, lateEvents := LateRun(error);
  }
}
