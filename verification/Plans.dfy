/** The lookup tables runWithID builds before its loop: tasks by ID, and who waits for whom. */
module Plans {
  import opened Domain
  import Graph

  datatype Plan = Plan(
    tasks: map<string, TaskNode>,
    dependents: map<string, seq<string>>,
    limit: int,
    failFast: bool)

  /** The number of occurrences of `x` in `s`. */
  function Times(s: seq<string>, x: string): nat {
    if s == [] then 0
    else Times(s[..|s| - 1], x) + if s[|s| - 1] == x then 1 else 0
  }

  lemma TimesSnoc(s: seq<string>, y: string, x: string)
    ensures Times(s + [y], x) == Times(s, x) + if y == x then 1 else 0
  {
    assert (s + [y])[..|s|] == s;
  }

  lemma {:induction false} TimesAbsent(s: seq<string>, x: string)
    ensures Times(s, x) == 0 <==> x !in s
  {
    if s != [] {
      assert s == s[..|s| - 1] + [s[|s| - 1]];
      TimesAbsent(s[..|s| - 1], x);
    }
  }

  function Waiting(dependents: map<string, seq<string>>, id: string): seq<string> {
    if id in dependents then dependents[id] else []
  }

  function Dependents(p: Plan, id: string): seq<string> {
    Waiting(p.dependents, id)
  }

  /** `rank` orders the tasks so that dependencies come strictly first. */
  ghost predicate Ranks(p: Plan, rank: map<string, nat>) {
    && rank.Keys == p.tasks.Keys
    && forall id, d :: id in p.tasks && d in p.tasks[id].dependsOn ==> d in p.tasks && rank[d] < rank[id]
  }

  /** The dependents table lists every dependency occurrence, duplicates included, and no other. */
  ghost predicate Mirrors(p: Plan) {
    && (forall d, c :: c in Dependents(p, d) ==> c in p.tasks)
    && forall d, c :: c in p.tasks ==> Times(Dependents(p, d), c) == Times(p.tasks[c].dependsOn, d)
  }

  ghost predicate Sound(p: Plan) {
    && p.limit >= 1
    && (forall id :: id in p.tasks ==> p.tasks[id].id == id)
    && Mirrors(p)
    && exists rank :: Ranks(p, rank)
  }

  /** The tables hold the workflow's tasks and settings. */
  ghost predicate PlanFor(p: Plan, w: Workflow) {
    && p.tasks.Keys == Graph.Ids(w.tasks)
    && (forall t :: t in w.tasks ==> p.tasks[t.id] == t)
    && p.limit == (if w.maxConcurrency <= 0 then 1 else w.maxConcurrency)
    && p.failFast == w.failFast
  }

  /** `after` is `before` with `child` appended under each listed dependency. */
  ghost predicate Appended(before: map<string, seq<string>>, after: map<string, seq<string>>, child: string, deps: seq<string>) {
    && (forall d, c :: c in Waiting(after, d) ==> c in Waiting(before, d) || c == child)
    && (forall d, c :: c != child ==> Times(Waiting(after, d), c) == Times(Waiting(before, d), c))
    && (forall d :: Times(Waiting(after, d), child) == Times(Waiting(before, d), child) + Times(deps, d))
  }

  ghost predicate MirrorsSoFar(tasks: map<string, TaskNode>, dependents: map<string, seq<string>>) {
    && (forall d, c :: c in Waiting(dependents, d) ==> c in tasks)
    && forall d, c :: c in tasks ==> Times(Waiting(dependents, d), c) == Times(tasks[c].dependsOn, d)
  }

  lemma AppendNone(before: map<string, seq<string>>, child: string)
    ensures Appended(before, before, child, [])
  {
  }

  lemma AppendOne(before: map<string, seq<string>>, prior: map<string, seq<string>>, child: string, deps: seq<string>, dep: string)
    requires Appended(before, prior, child, deps)
    ensures Appended(before, prior[dep := Waiting(prior, dep) + [child]], child, deps + [dep])
  {
    hide Times;
    var after := prior[dep := Waiting(prior, dep) + [child]];
    forall d, c ensures Times(Waiting(after, d), c) == Times(Waiting(prior, d), c) + if d == dep && c == child then 1 else 0 {
      TimesSnoc(Waiting(prior, dep), child, c);
    }
    forall d ensures Times(deps + [dep], d) == Times(deps, d) + if d == dep then 1 else 0 {
      TimesSnoc(deps, dep, d);
    }
  }

  /** The inner loop: register one task under all its dependencies. */
  method Register(before: map<string, seq<string>>, t: TaskNode) returns (dependents: map<string, seq<string>>)
    ensures Appended(before, dependents, t.id, t.dependsOn)
  {
    hide Appended;
    dependents := before;
    AppendNone(before, t.id);
    var j := 0;
    while j < |t.dependsOn|
      invariant 0 <= j <= |t.dependsOn|
      invariant Appended(before, dependents, t.id, t.dependsOn[..j])
    {
      var dep := t.dependsOn[j];
      ghost var prior := dependents;
      dependents := dependents[dep := Waiting(dependents, dep) + [t.id]];
      assert t.dependsOn[..j + 1] == t.dependsOn[..j] + [dep];
      AppendOne(before, prior, t.id, t.dependsOn[..j], dep);
      j := j + 1;
    }
    assert t.dependsOn[..j] == t.dependsOn;
  }

  lemma MirrorsStep(tasks: map<string, TaskNode>, before: map<string, seq<string>>, after: map<string, seq<string>>, t: TaskNode)
    requires MirrorsSoFar(tasks, before) && t.id !in tasks && Appended(before, after, t.id, t.dependsOn)
    ensures MirrorsSoFar(tasks[t.id := t], after)
  {
    hide Times;
    forall d ensures Times(Waiting(before, d), t.id) == 0 {
      assert t.id !in Waiting(before, d);
      TimesAbsent(Waiting(before, d), t.id);
    }
  }

  /** A ranking of the task list is one of the plan. */
  lemma RankingCarriesOver(w: Workflow, p: Plan, rank: map<string, nat>)
    requires Graph.Accepted(w) && Graph.Ranked(w.tasks, rank) && PlanFor(p, w)
    ensures exists full :: Ranks(p, full)
  {
    var full := map id | id in p.tasks :: if id in rank then rank[id] else 0;
    forall id, d | id in p.tasks && d in p.tasks[id].dependsOn ensures d in p.tasks && full[d] < full[id] {
      var t :| t in w.tasks && t.id == id;
      assert Graph.SoundTask(t, Graph.Ids(w.tasks));
    }
    assert Ranks(p, full);
  }

  /** The ID table and the counters hold exactly the tasks seen so far. */
  ghost predicate Indexed(seen: seq<TaskNode>, tasks: map<string, TaskNode>, remaining: map<string, int>) {
    && tasks.Keys == Graph.Ids(seen) == remaining.Keys
    && (forall i :: 0 <= i < |seen| ==> seen[i].id in tasks && tasks[seen[i].id] == seen[i])
    && forall id :: id in tasks ==> tasks[id].id == id && remaining[id] == |tasks[id].dependsOn|
  }

  lemma IdsSnoc(seen: seq<TaskNode>, t: TaskNode)
    ensures Graph.Ids(seen + [t]) == Graph.Ids(seen) + {t.id}
  {
    forall id | id in Graph.Ids(seen) + {t.id} ensures id in Graph.Ids(seen + [t]) {
      var u :| (u in seen || u == t) && u.id == id;
      assert u in seen + [t];
    }
  }

  lemma IndexedStep(seen: seq<TaskNode>, t: TaskNode, tasks: map<string, TaskNode>, remaining: map<string, int>)
    requires t.id !in Graph.Ids(seen) && Indexed(seen, tasks, remaining)
    ensures Indexed(seen + [t], tasks[t.id := t], remaining[t.id := |t.dependsOn|])
  {
    hide Graph.Ids;
    IdsSnoc(seen, t);
    assert forall i :: 0 <= i < |seen| ==> seen[i] in seen;
    var all := seen + [t];
    assert forall i :: 0 <= i < |all| ==> all[i] == if i < |seen| then seen[i] else t;
  }

  lemma NewTask(tasks: seq<TaskNode>, i: nat)
    requires Graph.UniqueIds(tasks) && i < |tasks|
    ensures tasks[i].id !in Graph.Ids(tasks[..i])
  {
  }

  /** Lines 86-102 of runWithID. */
  method Build(w: Workflow, ghost rank: map<string, nat>) returns (p: Plan, remaining: map<string, int>)
    requires Graph.Accepted(w) && Graph.Ranked(w.tasks, rank)
    ensures Sound(p) && PlanFor(p, w) && |p.tasks| == |w.tasks|
    ensures remaining.Keys == p.tasks.Keys
    ensures forall id :: id in p.tasks ==> remaining[id] == |p.tasks[id].dependsOn|
  {
    hide Graph.Accepted, Graph.Ranked, Graph.UniqueIds, Graph.Ids, Appended, Times, Ranks, MirrorsSoFar;
    var tasks: map<string, TaskNode> := map[];
    var dependents: map<string, seq<string>> := map[];
    remaining := map[];
    NothingYet();
    assert w.tasks[..0] == [];
    var i := 0;
    while i < |w.tasks|
      invariant 0 <= i <= |w.tasks|
      invariant Indexed(w.tasks[..i], tasks, remaining) && |tasks| == i
      invariant MirrorsSoFar(tasks, dependents)
    {
      var t := w.tasks[i];
      assert w.tasks[..i + 1] == w.tasks[..i] + [t];
      assert Graph.UniqueIds(w.tasks) by {
        AcceptedIsUnique(w);
      }
      NewTask(w.tasks, i);
      IndexedStep(w.tasks[..i], t, tasks, remaining);
      var grown := Register(dependents, t);
      MirrorsStep(tasks, dependents, grown, t);
      dependents := grown;
      tasks := tasks[t.id := t];
      remaining := remaining[t.id := |t.dependsOn|];
      i := i + 1;
    }
    assert w.tasks[..i] == w.tasks;
    p := Plan(tasks, dependents, if w.maxConcurrency <= 0 then 1 else w.maxConcurrency, w.failFast);
    MirrorsAtLast(p);
    RankingCarriesOver(w, p, rank);
  }

  lemma AcceptedIsUnique(w: Workflow)
    requires Graph.Accepted(w)
    ensures Graph.UniqueIds(w.tasks)
  {
  }

  lemma NothingYet()
    ensures MirrorsSoFar(map[], map[]) && Indexed([], map[], map[])
  {
  }

  lemma MirrorsAtLast(p: Plan)
    requires MirrorsSoFar(p.tasks, p.dependents)
    ensures Mirrors(p)
  {
  }

  // ----- Counting outstanding dependencies -----

  /** The number of dependency occurrences that are not yet in `done`. */
  function Missing(deps: seq<string>, done: set<string>): nat {
    if deps == [] then 0
    else Missing(deps[..|deps| - 1], done) + if deps[|deps| - 1] in done then 0 else 1
  }

  lemma {:induction false} MissingAfter(deps: seq<string>, done: set<string>, d: string)
    requires d !in done
    ensures Missing(deps, done + {d}) == Missing(deps, done) - Times(deps, d)
  {
    if deps != [] {
      var front := deps[..|deps| - 1];
      assert deps == front + [deps[|deps| - 1]];
      MissingAfter(front, done, d);
    }
  }

  lemma {:induction false} MissingZero(deps: seq<string>, done: set<string>)
    ensures Missing(deps, done) == 0 <==> forall d :: d in deps ==> d in done
  {
    if deps != [] {
      assert deps == deps[..|deps| - 1] + [deps[|deps| - 1]];
      MissingZero(deps[..|deps| - 1], done);
    }
  }

  lemma {:induction false} MissingAll(deps: seq<string>)
    ensures Missing(deps, {}) == |deps|
  {
    if deps != [] {
      MissingAll(deps[..|deps| - 1]);
    }
  }
}
