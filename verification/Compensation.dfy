/** runCompensation: which tasks are undone, in which order, and what it reports. */
module Compensation {
  import opened Domain
  import opened Ordering
  import opened Plans
  import opened Scheduling
  import opened Steps
  import Graph
  import Safety
  import Verdicts
  import Templates
  import Text

  datatype CompensationStatus = NotRequired | CompensationSucceeded | CompensationFailed | CompensationSkipped

  /** A task that succeeded and says how to be undone. */
  predicate Eligible(t: TaskNode, results: Results) {
    t.id in results && results[t.id].outcome.status == Success && Text.TrimSpace(t.compensation.action) != ""
  }

  function FinishKey(t: TaskNode, results: Results): Key {
    Key(if t.id in results then results[t.id].finishedAt else 0, t.id)
  }

  /** The eligible tasks, each once, latest finish first and ties by descending ID. */
  ghost predicate UndoOrder(tasks: map<string, TaskNode>, results: Results, order: seq<TaskNode>) {
    && (forall t :: t in order <==> t.id in tasks && tasks[t.id] == t && Eligible(t, results))
    && SortedBy(Downward, order, t => FinishKey(t, results))
  }

  /** The order is determined by the results alone, not by how the result map is iterated. */
  lemma UndoOrderUnique(tasks: map<string, TaskNode>, results: Results, a: seq<TaskNode>, b: seq<TaskNode>)
    requires UndoOrder(tasks, results, a) && UndoOrder(tasks, results, b)
    ensures a == b
  {
    var key := t => FinishKey(t, results);
    assert SortedBy(Downward, a, key) && SortedBy(Downward, b, key);
    SortedUnique(Downward, a, b, key);
  }

  /** Exactly the tasks that succeeded and whose compensation names an action are undone. */
  ghost predicate UndoesSuccesses(tasks: map<string, TaskNode>, results: Results, order: seq<TaskNode>) {
    forall t :: t in order <==>
      && t.id in tasks && tasks[t.id] == t && t.id in results && results[t.id].outcome.status == Success
      && exists c :: c in t.compensation.action && !Text.IsSpace(c)
  }

  /** The later a task finished the sooner it is undone; of equally late ones the greater ID first. */
  ghost predicate LatestFirst(results: Results, order: seq<TaskNode>) {
    forall i, j :: 0 <= i < j < |order| && order[i].id in results && order[j].id in results ==>
      || results[order[i].id].finishedAt > results[order[j].id].finishedAt
      || (results[order[i].id].finishedAt == results[order[j].id].finishedAt && TextBefore(order[j].id, order[i].id))
  }

  lemma TrimsToNothing(s: string)
    ensures Text.TrimSpace(s) != "" <==> exists c :: c in s && !Text.IsSpace(c)
  {
    var front, back := Text.TrimMeans(s);
    hide Text.IsSpace;
    var t := Text.TrimSpace(s);
    assert t != "" ==> t[0] in s;
    assert t == "" ==> s == front + back;
  }

  lemma OrderMeans(tasks: map<string, TaskNode>, results: Results, order: seq<TaskNode>)
    requires UndoOrder(tasks, results, order)
    ensures UndoesSuccesses(tasks, results, order) && LatestFirst(results, order)
  {
    hide Text.TrimSpace, Text.IsSpace, TextBefore;
    forall t: TaskNode ensures Text.TrimSpace(t.compensation.action) != "" <==> exists c :: c in t.compensation.action && !Text.IsSpace(c) {
      TrimsToNothing(t.compensation.action);
    }
    forall i, j | 0 <= i < j < |order| ensures Before(FinishKey(order[j], results), FinishKey(order[i], results)) {
    }
  }

  /** What one compensation reports: a missing action or a bad template fails it. */
  ghost predicate Reports(t: TaskNode, results: map<string, Outcome>, registry: set<string>, undo: (string, Input) -> Outcome, o: Outcome) {
    if t.compensation.action !in registry then
      o == Outcome(Failed, "", "compensation action not found: " + t.compensation.action, 1)
    else
      match Templates.ResolveInput(t.compensation.input, results)
      case Refused(errors) => exists e :: e in errors && o == Outcome(Failed, "", e.Message(), 1)
      case Resolved(input) => o == undo(t.compensation.action, input).(attempts := 1)
      case Hangs => false
  }

  /** Some entry of the input is not resolved within so many replacements. */
  ghost predicate Undecided(t: TaskNode, results: map<string, Outcome>, registry: set<string>, patience: nat) {
    && t.compensation.action in registry
    && exists k :: k in t.compensation.input &&
         Templates.Rewrite(patience, t.compensation.input[k], t.compensation.input[k], results).None?
  }

  /** Lines 312-333: the eligible tasks, sorted. */
  method Arrange(tasks: map<string, TaskNode>, results: Results) returns (order: seq<TaskNode>)
    requires forall id :: id in tasks ==> tasks[id].id == id
    ensures UndoOrder(tasks, results, order)
  {
    hide Precedes, Eligible;
    var eligible := CollectEligible(tasks, results);
    var key := t => FinishKey(t, results);
    forall i, j | 0 <= i < j < |eligible| ensures key(eligible[i]) != key(eligible[j]) {
    }
    order := Sort(Downward, eligible, key);
    assert forall t :: t in order <==> t in multiset(order);
    assert forall t :: t in eligible <==> t in multiset(eligible);
  }

  /** Lines 335-341. Every eligible task is compensated, in the one order, unless one of them is still
      resolving its input after `patience` replacements; then the source may not return. */
  method RunCompensation(tasks: map<string, TaskNode>, results: Results, registry: set<string>, undo: (string, Input) -> Outcome, patience: nat)
    returns (order: seq<TaskNode>, reports: seq<Outcome>, stuck: bool)
    requires forall id :: id in tasks ==> tasks[id].id == id
    ensures UndoOrder(tasks, results, order) && |reports| <= |order|
    ensures UndoesSuccesses(tasks, results, order) && LatestFirst(results, order)
    ensures forall i :: 0 <= i < |reports| ==> Reports(order[i], Outcomes(results), registry, undo, reports[i])
    ensures !stuck ==> |reports| == |order|
    ensures stuck ==> |reports| < |order| && Undecided(order[|reports|], Outcomes(results), registry, patience)
  {
    hide Undecided, Reports, UndoOrder, UndoesSuccesses, LatestFirst;
    order := Arrange(tasks, results);
    OrderMeans(tasks, results, order);
    reports := [];
    var i := 0;
    while i < |order|
      invariant 0 <= i <= |order| && |reports| == i
      invariant forall k :: 0 <= k < i ==> Reports(order[k], Outcomes(results), registry, undo, reports[k])
    {
      var report := RunCompensationTask(order[i], Outcomes(results), registry, undo, patience);
      if report.None? {
        return order, reports, true;
      }
      reports := reports + [report.value];
      i := i + 1;
    }
    stuck := false;
  }

  /** The loop over the result map, in any iteration order. */
  method CollectEligible(tasks: map<string, TaskNode>, results: Results) returns (eligible: seq<TaskNode>)
    requires forall id :: id in tasks ==> tasks[id].id == id
    ensures forall t :: t in eligible <==> t.id in tasks && tasks[t.id] == t && Eligible(t, results)
    ensures forall i, j :: 0 <= i < j < |eligible| ==> eligible[i].id != eligible[j].id
  {
    eligible := [];
    var todo := results.Keys;
    while todo != {}
      invariant todo <= results.Keys
      invariant forall t :: t in eligible <==> t.id in tasks && tasks[t.id] == t && t.id !in todo && Eligible(t, results)
      invariant forall i, j :: 0 <= i < j < |eligible| ==> eligible[i].id != eligible[j].id
    {
      var id :| id in todo;
      assert forall i :: 0 <= i < |eligible| ==> eligible[i] in eligible;
      todo := todo - {id};
      if results[id].outcome.status == Success && id in tasks && Text.TrimSpace(tasks[id].compensation.action) != "" {
        eligible := eligible + [tasks[id]];
      }
    }
  }

  method RunCompensationTask(t: TaskNode, results: map<string, Outcome>, registry: set<string>, undo: (string, Input) -> Outcome, patience: nat)
    returns (o: Option<Outcome>)
    ensures o.Some? ==> Reports(t, results, registry, undo, o.value)
    ensures o.Some? && t.compensation.action !in registry ==>
      o.value == Outcome(Failed, "", "compensation action not found: " + t.compensation.action, 1)
    ensures o.Some? && t.compensation.action in registry ==>
      || (exists k :: k in t.compensation.input && Templates.Resolve(t.compensation.input[k], results).Rejected?
            && o.value == Outcome(Failed, "", Templates.Resolve(t.compensation.input[k], results).error.Message(), 1))
      || (exists input: Input :: input.Keys == t.compensation.input.Keys
            && (forall k :: k in input ==> Templates.Resolve(t.compensation.input[k], results) == Templates.Text(input[k]))
            && o.value == undo(t.compensation.action, input).(attempts := 1))
    ensures o.None? ==> Undecided(t, results, registry, patience)
  {
    if t.compensation.action !in registry {
      return Some(Outcome(Failed, "", "compensation action not found: " + t.compensation.action, 1));
    }
    var input := Templates.ResolveInputTemplates(t.compensation.input, results, patience);
    Templates.ResolveInputMeans(t.compensation.input, results);
    match input
    case Unfinished(_) => return None;
    case Bad(e) => return Some(Outcome(Failed, "", e.Message(), 1));
    case Ready(resolved) => return Some(undo(t.compensation.action, resolved).(attempts := 1));
  }

  /** deriveCompensationStatus. */
  method DeriveCompensationStatus(reports: seq<Outcome>) returns (status: CompensationStatus)
    ensures status == CompensationSkipped <==> reports == []
    ensures status == CompensationFailed <==> exists o :: o in reports && o.status == Failed
    ensures status in {CompensationSkipped, CompensationFailed, CompensationSucceeded}
  {
    if |reports| == 0 {
      return CompensationSkipped;
    }
    var i := 0;
    while i < |reports|
      invariant 0 <= i <= |reports|
      invariant forall o :: o in reports[..i] ==> o.status != Failed
    {
      if reports[i].status == Failed {
        return CompensationFailed;
      }
      assert reports[..i + 1] == reports[..i] + [reports[i]];
      i := i + 1;
    }
    assert reports[..i] == reports;
    return CompensationSucceeded;
  }

  // ----- Dependents are undone before their dependencies -----

  /** No task stands after one it transitively depends on. */
  ghost predicate DependentsFirst(p: Plan, order: seq<TaskNode>) {
    forall i, j :: 0 <= i < j < |order| ==> !Safety.Upstream(p, order[i].id, order[j].id)
  }

  /** Where a dependency finished in the same instant as an eligible dependent, its ID is the
      smaller one. */
  ghost predicate TiesAgree(p: Plan, results: Results) {
    forall d, id :: Tied(p, results, d, id) ==> TextBefore(d, id)
  }

  ghost predicate Tied(p: Plan, results: Results, d: string, id: string) {
    && d in p.tasks && id in p.tasks && Safety.Upstream(p, d, id)
    && d in results && id in results && Eligible(p.tasks[d], results) && Eligible(p.tasks[id], results)
    && results[d].finishedAt == results[id].finishedAt
  }

  lemma {:induction false} FinishesInOrder(p: Plan, s: State, path: seq<string>)
    requires Timed(p, s) && Safety.Chain(p, path) && path[|path| - 1] in s.results
    ensures path[0] in s.results && s.results[path[0]].finishedAt <= s.results[path[|path| - 1]].startedAt
    decreases |path|
  {
    var y, d := path[|path| - 1], path[|path| - 2];
    assert Safety.Link(p, d, y);
    assert d in s.results && s.results[d].finishedAt <= StartOf(s, y);
    if |path| > 2 {
      FinishesInOrder(p, s, path[..|path| - 1]);
    }
  }

  lemma UpstreamFinishesFirst(p: Plan, s: State, d: string, id: string)
    requires Timed(p, s) && Safety.Upstream(p, d, id) && id in s.results
    ensures d in s.results && s.results[d].finishedAt <= s.results[id].finishedAt
  {
    var path :| Safety.Chain(p, path) && path[0] == d && path[|path| - 1] == id;
    FinishesInOrder(p, s, path);
  }

  /** The entries added for unfinished tasks play no part in compensation. */
  lemma SkippedAreNotUndone(tasks: map<string, TaskNode>, results: Results, order: seq<TaskNode>, reason: string, now: int)
    requires UndoOrder(tasks, Verdicts.Completed(tasks.Keys, results, reason, now), order)
    ensures UndoOrder(tasks, results, order)
  {
    var final := Verdicts.Completed(tasks.Keys, results, reason, now);
    forall t ensures Eligible(t, final) <==> Eligible(t, results) {
    }
    forall i, j | 0 <= i < j < |order|
      ensures Precedes(Downward, FinishKey(order[i], results), FinishKey(order[j], results))
    {
      assert order[i] in order && order[j] in order;
      var key := t => FinishKey(t, final);
      assert SortedBy(Downward, order, key);
      assert Precedes(Downward, key(order[i]), key(order[j]));
    }
  }

  /** At the end of any run, compensation undoes dependents before their dependencies exactly
      when no tie between finish times contradicts the order of the IDs. */
  lemma ReverseTopologicalIff(p: Plan, states: seq<State>, events: seq<Event>, order: seq<TaskNode>, reason: string, now: int)
    requires Sound(p) && Execution(p, states, events)
    requires UndoOrder(p.tasks, Verdicts.Completed(p.tasks.Keys, states[|events|].results, reason, now), order)
    ensures DependentsFirst(p, order) <==> TiesAgree(p, states[|events|].results)
  {
    hide Initial, Follows, Inv;
    AlwaysInv(p, states, events, |events|);
    var s := states[|events|];
    SkippedAreNotUndone(p.tasks, s.results, order, reason, now);
    assert Timed(p, s) && forall id :: id in p.tasks ==> p.tasks[id].id == id by {
      InvTimed(p, s);
    }
    hide Execution, Timed;
    hide Sound;
    if TiesAgree(p, s.results) {
      forall i, j | 0 <= i < j < |order| ensures !Safety.Upstream(p, order[i].id, order[j].id) {
        AgreementOrders(p, s, order, i, j);
      }
    }
    if DependentsFirst(p, order) {
      forall d, id | Tied(p, s.results, d, id) ensures TextBefore(d, id) {
        OrderAgrees(p, s, order, d, id);
      }
    }
  }

  lemma InvTimed(p: Plan, s: State)
    requires Inv(p, s)
    ensures Timed(p, s)
  {
  }

  lemma AgreementOrders(p: Plan, s: State, order: seq<TaskNode>, i: nat, j: nat)
    requires Timed(p, s) && UndoOrder(p.tasks, s.results, order) && TiesAgree(p, s.results) && i < j < |order|
    ensures !Safety.Upstream(p, order[i].id, order[j].id)
  {
    hide Safety.Upstream, Timed, TextBefore;
    var a, b := order[i], order[j];
    assert a in order && b in order;
    assert Before(FinishKey(b, s.results), FinishKey(a, s.results));
    if Safety.Upstream(p, a.id, b.id) {
      UpstreamFinishesFirst(p, s, a.id, b.id);
      TextStrict(a.id, b.id);
    }
  }

  lemma {:induction false} RankGrowsAlongChain(p: Plan, rank: map<string, nat>, path: seq<string>)
    requires Ranks(p, rank) && Safety.Chain(p, path)
    ensures path[0] in rank && path[|path| - 1] in rank && rank[path[0]] < rank[path[|path| - 1]]
    decreases |path|
  {
    assert Safety.Link(p, path[|path| - 2], path[|path| - 1]);
    if |path| > 2 {
      RankGrowsAlongChain(p, rank, path[..|path| - 1]);
    }
  }

  lemma NotUpstreamOfItself(p: Plan, d: string)
    requires Sound(p)
    ensures !Safety.Upstream(p, d, d)
  {
    hide Mirrors;
    var rank :| Ranks(p, rank);
    forall path | Safety.Chain(p, path) ensures path[0] != path[|path| - 1] {
      RankGrowsAlongChain(p, rank, path);
    }
  }

  lemma OrderAgrees(p: Plan, s: State, order: seq<TaskNode>, d: string, id: string)
    requires Sound(p) && UndoOrder(p.tasks, s.results, order) && DependentsFirst(p, order)
    requires forall x :: x in p.tasks ==> p.tasks[x].id == x
    requires Tied(p, s.results, d, id)
    ensures TextBefore(d, id)
  {
    hide Safety.Upstream, TextBefore;
    assert p.tasks[d] in order && p.tasks[id] in order;
    var i :| 0 <= i < |order| && order[i] == p.tasks[d];
    var j :| 0 <= j < |order| && order[j] == p.tasks[id];
    NotUpstreamOfItself(p, d);
    assert i != j;
    assert Before(FinishKey(order[i], s.results), FinishKey(order[j], s.results));
  }
}
