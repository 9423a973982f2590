/** Workflow validation and the three-colour cycle search of internal/engine/graph.go. */
module Graph {
  import opened Text
  import opened Domain
  import Conditions

  /** Task `to` lists `from` among its dependencies. */
  ghost predicate Edge(tasks: seq<TaskNode>, from: string, to: string) {
    exists t :: t in tasks && t.id == to && from in t.dependsOn
  }

  ghost predicate Walk(tasks: seq<TaskNode>, path: seq<string>) {
    forall i :: 0 <= i < |path| - 1 ==> Edge(tasks, path[i], path[i + 1])
  }

  /** Some task transitively depends on itself. */
  ghost predicate Cyclic(tasks: seq<TaskNode>) {
    exists path :: ClosedWalk(tasks, path)
  }

  ghost predicate ClosedWalk(tasks: seq<TaskNode>, path: seq<string>) {
    |path| >= 2 && path[0] == path[|path| - 1] && Walk(tasks, path)
  }

  /** A numbering under which every dependency comes strictly before its dependents. */
  ghost predicate Ranked(tasks: seq<TaskNode>, rank: map<string, nat>) {
    forall t, d :: t in tasks && d in t.dependsOn ==>
      d in rank && t.id in rank && rank[d] < rank[t.id]
  }

  lemma {:induction false} RankGrowsAlongWalk(tasks: seq<TaskNode>, rank: map<string, nat>, path: seq<string>, k: nat)
    requires Ranked(tasks, rank) && Walk(tasks, path) && 1 <= k < |path|
    ensures path[0] in rank && path[k] in rank && rank[path[0]] < rank[path[k]]
  {
    assert Edge(tasks, path[k - 1], path[k]);
    if k > 1 {
      RankGrowsAlongWalk(tasks, rank, path, k - 1);
    }
  }

  /** A ranking rules out every cycle. */
  lemma RankedIsAcyclic(tasks: seq<TaskNode>, rank: map<string, nat>)
    requires Ranked(tasks, rank)
    ensures !Cyclic(tasks)
  {
    if Cyclic(tasks) {
      var path :| ClosedWalk(tasks, path);
      RankGrowsAlongWalk(tasks, rank, path, |path| - 1);
      assert false;
    }
  }

  type Adjacency = map<string, seq<string>>

  ghost predicate Closed(adj: Adjacency) {
    forall n, m :: n in adj && m in adj[n] ==> m in adj
  }

  ghost predicate Path(adj: Adjacency, path: seq<string>) {
    && (forall n :: n in path ==> n in adj)
    && forall i :: 0 <= i < |path| - 1 ==> path[i + 1] in adj[path[i]]
  }

  ghost predicate Loop(adj: Adjacency, path: seq<string>) {
    |path| >= 2 && path[0] == path[|path| - 1] && Path(adj, path)
  }

  datatype Colour = Unvisited | Visiting | Visited

  /** `finished` lists nodes so that each one's successors stand before it. */
  ghost predicate PostOrder(adj: Adjacency, finished: seq<string>) {
    forall i, m :: 0 <= i < |finished| && finished[i] in adj && m in adj[finished[i]] ==> m in finished[..i]
  }

  /** The variables captured by the recursive closure in hasCycle. */
  class Search {
    const adj: Adjacency
    var state: map<string, Colour>
    ghost var finished: seq<string>

    constructor (adj: Adjacency)
      requires Closed(adj)
      ensures Valid([]) && this.adj == adj && finished == []
    {
      this.adj := adj;
      state := map[];
      finished := [];
    }

    function ColourOf(n: string): Colour
      reads this
    {
      if n in state then state[n] else Unvisited
    }

    /** `stack` is the chain of nodes being visited, outermost first. */
    ghost predicate Valid(stack: seq<string>)
      reads this
    {
      && Closed(adj)
      && state.Keys <= adj.Keys
      && Path(adj, stack)
      && (forall n :: n in stack <==> ColourOf(n) == Visiting)
      && (forall n :: n in finished <==> ColourOf(n) == Visited)
      && Distinct(finished)
      && PostOrder(adj, finished)
    }

    ghost function Fresh(): set<string>
      reads this
    {
      set n | n in adj && ColourOf(n) == Unvisited
    }

    /** The node turns from unvisited to visiting and joins the stack. */
    method Enter(node: string, ghost stack: seq<string>)
      requires Valid(stack) && node in adj && ColourOf(node) == Unvisited
      requires stack != [] ==> node in adj[stack[|stack| - 1]]
      modifies this`state
      ensures Valid(stack + [node]) && Fresh() == old(Fresh()) - {node}
    {
      state := state[node := Visiting];
      assert forall n :: n in stack + [node] <==> n in stack || n == node;
    }

    /** The node turns from visiting to visited once all its successors are. */
    method Leave(node: string, ghost stack: seq<string>)
      requires Valid(stack + [node]) && node in adj && node !in stack
      requires forall m :: m in adj[node] ==> m in finished
      modifies this
      ensures Valid(stack) && finished == old(finished) + [node] && Fresh() == old(Fresh())
    {
      ghost var inner := stack + [node];
      assert node in inner;
      assert forall n :: n in inner <==> n in stack || n == node;
      assert Path(adj, stack) by {
        assert forall i :: 0 <= i < |stack| ==> inner[i] == stack[i];
      }
      state := state[node := Visited];
      finished := finished + [node];
      assert forall i :: 0 <= i < |finished| ==> finished[..i] == old(finished)[..i];
    }

    method Visit(node: string, ghost stack: seq<string>) returns (cycle: bool, ghost loop: seq<string>)
      requires Valid(stack) && node in adj
      requires stack != [] ==> node in adj[stack[|stack| - 1]]
      modifies this
      ensures cycle ==> Loop(adj, loop)
      ensures !cycle ==> Valid(stack) && node in finished && old(finished) <= finished && Fresh() <= old(Fresh())
      decreases Fresh()
    {
      loop := [];
      if ColourOf(node) == Visiting {
        ghost var i :| 0 <= i < |stack| && stack[i] == node;
        loop := stack[i..] + [node];
        return true, loop;
      }
      if ColourOf(node) == Visited {
        return false, loop;
      }
      assert node in Fresh();
      assert node !in stack;
      Enter(node, stack);
      ghost var inner := stack + [node];
      var k := 0;
      while k < |adj[node]|
        invariant 0 <= k <= |adj[node]|
        invariant Valid(inner) && old(finished) <= finished
        invariant Fresh() <= old(Fresh()) - {node}
        invariant forall m :: m in adj[node][..k] ==> m in finished
      {
        assert inner[|inner| - 1] == node;
        cycle, loop := Visit(adj[node][k], inner);
        if cycle {
          return;
        }
        assert adj[node][..k + 1] == adj[node][..k] + [adj[node][k]];
        k := k + 1;
      }
      assert adj[node][..k] == adj[node];
      Leave(node, stack);
      return false, [];
    }
  }

  /** `to` is listed as a successor of `from`. */
  ghost predicate Lists(adj: Adjacency, from: string, to: string) {
    from in adj && to in adj[from]
  }

  /** The adjacency map holds exactly the dependency edges of the tasks. */
  ghost predicate Represents(tasks: seq<TaskNode>, adj: Adjacency) {
    && (forall t :: t in tasks ==> t.id in adj)
    && (forall n, m :: Lists(adj, n, m) <==> Edge(tasks, n, m))
  }

  method Successors(tasks: seq<TaskNode>) returns (adj: Adjacency)
    ensures Closed(adj) && Represents(tasks, adj)
  {
    adj := map[];
    var i := 0;
    while i < |tasks|
      invariant 0 <= i <= |tasks|
      invariant Represents(tasks[..i], adj)
    {
      var t := tasks[i];
      ghost var before := adj;
      var j := 0;
      while j < |t.dependsOn|
        invariant 0 <= j <= |t.dependsOn|
        invariant before.Keys <= adj.Keys
        invariant forall n, m :: Lists(adj, n, m) <==> Lists(before, n, m) || (m == t.id && n in t.dependsOn[..j])
      {
        var dep := t.dependsOn[j];
        var list := if dep in adj then adj[dep] else [];
        assert t.dependsOn[..j + 1] == t.dependsOn[..j] + [dep];
        ghost var prior := adj;
        adj := adj[dep := list + [t.id]];
        assert forall n, m :: Lists(adj, n, m) <==> Lists(prior, n, m) || (m == t.id && n == dep);
        j := j + 1;
      }
      assert t.dependsOn[..j] == t.dependsOn;
      if t.id !in adj {
        ghost var prior := adj;
        adj := adj[t.id := []];
        assert forall n, m :: Lists(adj, n, m) <==> Lists(prior, n, m);
      }
      EdgeSnoc(tasks, i);
      assert tasks[..i + 1] == tasks[..i] + [t];
      i := i + 1;
    }
    assert tasks[..i] == tasks;
    forall n, m | n in adj && m in adj[n] ensures m in adj {
      assert Lists(adj, n, m);
    }
  }

  lemma EdgeSnoc(tasks: seq<TaskNode>, i: nat)
    requires i < |tasks|
    ensures forall n, m :: Edge(tasks[..i + 1], n, m) <==> Edge(tasks[..i], n, m) || (m == tasks[i].id && n in tasks[i].dependsOn)
  {
    assert tasks[..i + 1] == tasks[..i] + [tasks[i]];
    assert tasks[i] in tasks[..i + 1];
    forall n, m | Edge(tasks[..i], n, m) ensures Edge(tasks[..i + 1], n, m) {
      var t :| t in tasks[..i] && t.id == m && n in t.dependsOn;
      assert t in tasks[..i + 1];
    }
  }

  /** A loop in the adjacency map is a closed dependency walk. */
  lemma LoopIsCycle(tasks: seq<TaskNode>, adj: Adjacency, path: seq<string>)
    requires Represents(tasks, adj) && Loop(adj, path)
    ensures Cyclic(tasks)
  {
    forall i | 0 <= i < |path| - 1 ensures Edge(tasks, path[i], path[i + 1]) {
      assert Lists(adj, path[i], path[i + 1]);
    }
    assert ClosedWalk(tasks, path);
  }

  /** The position of the first occurrence, counted from the end of the list. */
  ghost function Position(s: seq<string>, x: string): (k: nat)
    requires x in s
    ensures k < |s| && s[k] == x
  {
    if s[0] == x then 0 else 1 + Position(s[1..], x)
  }

  /** Reversing the order in which the search finishes nodes ranks the tasks. */
  lemma FinishingOrderRanks(tasks: seq<TaskNode>, adj: Adjacency, finished: seq<string>) returns (rank: map<string, nat>)
    requires Represents(tasks, adj) && Distinct(finished) && PostOrder(adj, finished)
    requires forall n :: n in adj ==> n in finished
    ensures Ranked(tasks, rank)
  {
    rank := map n | n in finished :: |finished| - Position(finished, n);
    forall t, d | t in tasks && d in t.dependsOn
      ensures d in rank && t.id in rank && rank[d] < rank[t.id]
    {
      assert Lists(adj, d, t.id) by {
        assert Edge(tasks, d, t.id);
      }
      var i, j := Position(finished, d), Position(finished, t.id);
      assert t.id in finished[..i];
    }
  }

  /** hasCycle, for every order in which the map of nodes may be iterated. */
  method HasCycle(tasks: seq<TaskNode>) returns (cyclic: bool, ghost rank: map<string, nat>)
    ensures cyclic <==> Cyclic(tasks)
    ensures !cyclic ==> Ranked(tasks, rank)
  {
    rank := map[];
    var adj := Successors(tasks);
    var search := new Search(adj);
    var unseen := adj.Keys;
    while unseen != {}
      invariant search.adj == adj && search.Valid([])
      invariant unseen <= adj.Keys
      invariant forall n :: n in adj && n !in unseen ==> n in search.finished
    {
      var n :| n in unseen;
      unseen := unseen - {n};
      if search.ColourOf(n) == Unvisited {
        var found;
        ghost var loop;
        found, loop := search.Visit(n, []);
        if found {
          LoopIsCycle(tasks, adj, loop);
          return true, rank;
        }
      } else {
        assert n !in [];
        assert search.ColourOf(n) == Visited;
      }
    }
    rank := FinishingOrderRanks(tasks, adj, search.finished);
    RankedIsAcyclic(tasks, rank);
    return false, rank;
  }

  function Ids(tasks: seq<TaskNode>): set<string> {
    set t | t in tasks :: t.id
  }

  ghost predicate UniqueIds(tasks: seq<TaskNode>) {
    forall i, j :: 0 <= i < j < |tasks| ==> tasks[i].id != tasks[j].id
  }

  /** What validation asks of one task, given the IDs of all tasks. */
  ghost predicate SoundTask(t: TaskNode, known: set<string>) {
    && t.runAfter >= 0
    && (t.compensation.action == "" ==> t.compensation.input == map[])
    && t.compensation.timeout >= 0
    && (forall d :: d in t.dependsOn ==> d in known)
    && SoundCondition(t, known)
  }

  /** The condition parses, and the tasks it looks at exist. */
  ghost predicate SoundCondition(t: TaskNode, known: set<string>) {
    && !Conditions.Parse(t.condition).Malformed?
    && !Conditions.Parse(t.condition).Unsupported?
    && Conditions.Reads(t.condition) <= known
    && "" !in Conditions.Reads(t.condition)
  }

  /** The workflows the engine is willing to run. */
  ghost predicate Accepted(w: Workflow) {
    && w.id != "" && |w.tasks| > 0
    && (forall t :: t in w.tasks ==> t.id != "" && SoundTask(t, Ids(w.tasks)))
    && UniqueIds(w.tasks)
    && !Cyclic(w.tasks)
  }

  /** The same, said of the workflow's own fields. */
  lemma AcceptedIff(w: Workflow)
    ensures Accepted(w) <==>
      && w.id != "" && w.tasks != []
      && (forall t :: t in w.tasks ==> t.id != "" && t.runAfter >= 0 && t.compensation.timeout >= 0)
      && (forall t :: t in w.tasks && t.compensation.action == "" ==> t.compensation.input == map[])
      && (forall t, d :: t in w.tasks && d in t.dependsOn ==> exists other :: other in w.tasks && other.id == d)
      && (forall t :: t in w.tasks ==> Conditions.Usable(t.condition, set other | other in w.tasks :: other.id))
      && (forall i, j :: 0 <= i < j < |w.tasks| ==> w.tasks[i].id != w.tasks[j].id)
      && !Cyclic(w.tasks)
  {
    hide Conditions.Parse, Conditions.Reads, Conditions.Usable, Cyclic;
    var known := Ids(w.tasks);
    assert known == set other | other in w.tasks :: other.id;
    forall t | t in w.tasks ensures SoundCondition(t, known) <==> Conditions.Usable(t.condition, known) {
      Conditions.CheckIff(t.condition, known);
    }
    forall d ensures d in known <==> exists other :: other in w.tasks && other.id == d {
    }
  }

  datatype ValidationError =
    | MissingWorkflowId
    | NoTasks
    | MissingTaskId
    | DuplicateTaskId(task: string)
    | NegativeRunAfter(task: string)
    | InputWithoutCompensation(task: string)
    | NegativeCompensationTimeout(task: string)
    | UnknownDependency(task: string, dependency: string)
    | BadCondition(task: string, error: Conditions.ConditionError)
    | CyclicDependencies

  /** The defect an error reports is present in the workflow. */
  ghost predicate Justified(w: Workflow, e: ValidationError) {
    match e
    case MissingWorkflowId => w.id == ""
    case NoTasks => w.tasks == []
    case MissingTaskId => exists t :: t in w.tasks && t.id == ""
    case DuplicateTaskId(id) => exists i, j :: 0 <= i < j < |w.tasks| && w.tasks[i].id == w.tasks[j].id == id
    case NegativeRunAfter(id) => exists t :: t in w.tasks && t.id == id && t.runAfter < 0
    case InputWithoutCompensation(id) =>
      exists t :: t in w.tasks && t.id == id && t.compensation.action == "" && t.compensation.input != map[]
    case NegativeCompensationTimeout(id) => exists t :: t in w.tasks && t.id == id && t.compensation.timeout < 0
    case UnknownDependency(id, d) => d !in Ids(w.tasks) && Edge(w.tasks, d, id)
    case BadCondition(id, _) => exists t :: t in w.tasks && t.id == id && !SoundCondition(t, Ids(w.tasks))
    case CyclicDependencies => Cyclic(w.tasks) && UniqueIds(w.tasks)
  }

  /** The per-task checks of the second loop, in source order. */
  method CheckTask(t: TaskNode, known: set<string>) returns (r: Option<ValidationError>)
    ensures r.None? <==> SoundTask(t, known)
    ensures forall w: Workflow :: r.Some? && t in w.tasks && Ids(w.tasks) == known ==> Justified(w, r.value)
  {
    if t.runAfter < 0 {
      return Some(NegativeRunAfter(t.id));
    }
    if t.compensation.action == "" && |t.compensation.input| > 0 {
      return Some(InputWithoutCompensation(t.id));
    }
    if t.compensation.timeout < 0 {
      return Some(NegativeCompensationTimeout(t.id));
    }
    var i := 0;
    while i < |t.dependsOn|
      invariant 0 <= i <= |t.dependsOn|
      invariant forall d :: d in t.dependsOn[..i] ==> d in known
    {
      if t.dependsOn[i] !in known {
        return Some(UnknownDependency(t.id, t.dependsOn[i]));
      }
      assert t.dependsOn[..i + 1] == t.dependsOn[..i] + [t.dependsOn[i]];
      i := i + 1;
    }
    assert t.dependsOn[..i] == t.dependsOn;
    match Conditions.Check(t.condition, known)
    case Some(e) => return Some(BadCondition(t.id, e));
    case None => return None;
  }

  /** ValidateWorkflow. An accepted workflow comes with a ranking of its tasks. */
  method ValidateWorkflow(w: Workflow) returns (r: Option<ValidationError>, ghost rank: map<string, nat>)
    ensures r.None? <==> Accepted(w)
    ensures r.None? ==> Ranked(w.tasks, rank)
    ensures r.Some? ==> Justified(w, r.value)
  {
    hide SoundTask, Cyclic, Ranked;
    rank := map[];
    if w.id == "" {
      return Some(MissingWorkflowId), rank;
    }
    if |w.tasks| == 0 {
      return Some(NoTasks), rank;
    }
    var seen: set<string> := {};
    var i := 0;
    while i < |w.tasks|
      invariant 0 <= i <= |w.tasks|
      invariant seen == Ids(w.tasks[..i]) && UniqueIds(w.tasks[..i])
      invariant forall t :: t in w.tasks[..i] ==> t.id != ""
    {
      var t := w.tasks[i];
      if t.id == "" {
        assert t in w.tasks;
        return Some(MissingTaskId), rank;
      }
      if t.id in seen {
        ghost var u :| u in w.tasks[..i] && u.id == t.id;
        ghost var j :| 0 <= j < i && w.tasks[j] == u;
        return Some(DuplicateTaskId(t.id)), rank;
      }
      assert w.tasks[..i + 1] == w.tasks[..i] + [t];
      seen := seen + {t.id};
      i := i + 1;
    }
    assert w.tasks[..i] == w.tasks;
    i := 0;
    while i < |w.tasks|
      invariant 0 <= i <= |w.tasks|
      invariant forall t :: t in w.tasks[..i] ==> SoundTask(t, seen)
    {
      var e := CheckTask(w.tasks[i], seen);
      if e.Some? {
        return e, rank;
      }
      assert w.tasks[..i + 1] == w.tasks[..i] + [w.tasks[i]];
      i := i + 1;
    }
    assert w.tasks[..i] == w.tasks;
    var cyclic;
    cyclic, rank := HasCycle(w.tasks);
    return if cyclic then Some(CyclicDependencies) else None, rank;
  }
}
