/** Workflows of two independent tasks run one at a time, and the steps their runs take: enough to
    show what the loop does not promise. */
module Pairs {
  import opened Domain
  import opened Plans
  import opened Scheduling
  import Conditions
  import Graph
  import Templates
  import Text

  function Plain(id: string, condition: string): TaskNode {
    TaskNode(id, "log", map[], [], condition, 0, 0, RetryPolicy(1, 0), false, CompensationSpec("", map[], 0))
  }

  /** The second task has a condition. */
  function TwoTasks(condition: string, failFast: bool): Workflow {
    Workflow("pair", 1, failFast, false, 0, [Plain("a", "always"), Plain("b", condition)])
  }

  function Pair(condition: string, failFast: bool): Plan {
    Plan(map["a" := Plain("a", "always"), "b" := Plain("b", condition)], map[], 1, failFast)
  }

  function Beginning(ready: seq<string>): State {
    State(map["a" := 0, "b" := 0], ready, {}, map[], map[], 0, 0, false, false, Looping, 0, map[], [])
  }

  lemma PairIsSound(condition: string, failFast: bool)
    ensures var p := Pair(condition, failFast);
      && Sound(p) && p.tasks.Keys == {"a", "b"} && Ranks(p, map["a" := 0, "b" := 0]) && PlanFor(p, TwoTasks(condition, failFast))
  {
    var p := Pair(condition, failFast);
    var rank: map<string, nat> := map["a" := 0, "b" := 0];
    assert p.tasks.Keys == {"a", "b"};
    assert Ranks(p, rank);
    var w := TwoTasks(condition, failFast);
    assert w.tasks[0] in w.tasks && w.tasks[1] in w.tasks;
    assert Graph.Ids(w.tasks) == {"a", "b"};
  }

  lemma Readings()
    ensures Conditions.Parse("always") == Conditions.Always && Conditions.Parse("on_success:a") == Conditions.OnSuccess("a")
  {
    Text.TrimKeeps("on_success:a");
    Text.TrimKeeps("always");
    Text.TrimKeeps("a");
    assert "on_success:a"[..|Conditions.ON_SUCCESS|] == Conditions.ON_SUCCESS;
    assert "on_success:a"[|Conditions.ON_SUCCESS|..] == "a";
  }

  lemma SoundTasks(id: string, condition: string)
    requires condition in {"always", "on_success:a"}
    ensures Graph.SoundTask(Plain(id, condition), {"a", "b"})
  {
    Readings();
    hide Conditions.Parse;
  }

  /** Validation accepts both conditions. */
  lemma PairIsAccepted(condition: string, failFast: bool)
    requires condition in {"always", "on_success:a"}
    ensures Graph.Accepted(TwoTasks(condition, failFast))
  {
    hide Graph.SoundTask, Graph.Cyclic;
    var w := TwoTasks(condition, failFast);
    assert w.tasks[0] in w.tasks && w.tasks[1] in w.tasks;
    assert Graph.Ids(w.tasks) == {"a", "b"};
    SoundTasks("a", "always");
    SoundTasks("b", condition);
    Graph.RankedIsAcyclic(w.tasks, map["a" := 0, "b" := 0]);
  }

  lemma EmptyInput(results: map<string, Outcome>)
    ensures Templates.ResolveInput(map[], results) == Templates.Resolved(map[])
  {
  }

  lemma AlwaysStarts(id: string, results: map<string, Outcome>)
    ensures BranchOf(Plain(id, "always"), false, results) == Start(map[])
  {
    hide Conditions.Parse;
    Readings();
    EmptyInput(results);
  }

  lemma ConditionDecides(results: map<string, Outcome>)
    ensures var b := BranchOf(Plain("b", "on_success:a"), false, results);
      if "a" in results && results["a"].status == Success then b == Start(map[]) else b.SkipCondition?
  {
    hide Conditions.Parse;
    Readings();
    EmptyInput(results);
  }

  // ----- Steps -----

  /** A result that nothing waits for. */
  function Alone(s: State, id: string, result: TaskResult, cause: Cause): State {
    s.(results := s.results[id := result], completed := s.completed + 1, cause := s.cause[id := cause])
  }

  ghost predicate OfPair(s: State) {
    s.remaining.Keys == {"a", "b"} && s.blocked == {} && s.phase == Looping && s.clock == 0
  }

  lemma RecordsAlone(p: Plan, s: State, id: string, result: TaskResult, cause: Cause, blocks: bool)
    requires p.dependents == map[] && s.remaining.Keys == p.tasks.Keys && s.blocked == {}
    ensures Record(p, s, id, result, cause, blocks) == Alone(s, id, result, cause)
  {
    assert (set c | c in Dependents(p, id)) == {};
  }

  lemma StartsHead(condition: string, failFast: bool, s: State, error: Templates.TemplateError)
    requires OfPair(s) && s.active == 0 && s.ready != [] && s.ready[0] in {"a", "b"}
    requires BranchOf(Pair(condition, failFast).tasks[s.ready[0]], false, Outcomes(s.results)) == Start(map[])
    ensures var p := Pair(condition, failFast);
      && Tabled(p, s) && Enabled(p, s, Pop(0, error))
      && Apply(p, s, Pop(0, error)) == Launch(Taken(s, 0), s.ready[0], map[], 0)
  {
    hide BranchOf, Sound;
    PairIsSound(condition, failFast);
  }

  lemma SkipsHead(condition: string, failFast: bool, s: State, error: Templates.TemplateError, reason: string)
    requires OfPair(s) && s.active == 0 && s.ready != [] && s.ready[0] in {"a", "b"}
    requires BranchOf(Pair(condition, failFast).tasks[s.ready[0]], false, Outcomes(s.results)) == SkipCondition(reason)
    ensures var p := Pair(condition, failFast);
      && Tabled(p, s) && Enabled(p, s, Pop(0, error))
      && Apply(p, s, Pop(0, error)) == Alone(Taken(s, 0), s.ready[0], Instant(SkippedFor(reason), 0), ConditionUnmet)
  {
    hide BranchOf, Sound, Record;
    PairIsSound(condition, failFast);
    RecordsAlone(Pair(condition, failFast), Taken(s, 0), s.ready[0], Instant(SkippedFor(reason), 0), ConditionUnmet, false);
  }

  lemma Reports(condition: string, failFast: bool, s: State, id: string, o: Outcome)
    requires OfPair(s) && s.active == 1 && id in {"a", "b"} && s.running == map[id := Flight(map[], 0)] && o.status != Skipped
    ensures var p := Pair(condition, failFast);
      && Tabled(p, s) && id in p.tasks && Enabled(p, s, Receive(id, o, 0, 0))
      && Apply(p, s, Receive(id, o, 0, 0)) ==
           TriggerFailFast(Alone(s.(running := map[], active := 0), id, TaskResult(o, 0, 0), Executed), o.status == Failed && failFast)
  {
    hide Sound, Record;
    PairIsSound(condition, failFast);
    var p := Pair(condition, failFast);
    assert s.running - {id} == map[];
    RecordsAlone(p, Landed(s, id, 0), id, TaskResult(o, 0, 0), Executed, Fatal(p, id, o));
    assert !p.tasks[id].allowFailure;
  }

  /** An execution goes on with what is enabled. */
  lemma GoesOn(p: Plan, states: seq<State>, events: seq<Event>, e: Event)
    requires Execution(p, states, events)
    requires var s := states[|events|]; Tabled(p, s) && Enabled(p, s, e) && (e.Receive? ==> e.id in p.tasks)
    ensures Execution(p, states + [Apply(p, states[|events|], e)], events + [e])
  {
    hide Apply, Enabled, Tabled, Initial;
  }

  lemma Begins(condition: string, failFast: bool, ready: seq<string>)
    requires ready in {["a", "b"], ["b", "a"]}
    ensures Execution(Pair(condition, failFast), [Beginning(ready)], []) && OfPair(Beginning(ready))
  {
    assert Pair(condition, failFast).tasks.Keys == {"a", "b"};
  }
}
