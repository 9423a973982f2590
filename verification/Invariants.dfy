/** What every step of the scheduling loop keeps. */
module Invariants {
  import opened Domain
  import opened Plans
  import opened Scheduling
  import Conditions
  import Templates

  // ----- Releasing dependents -----

  lemma {:induction false} ReleaseCounts(children: seq<string>, remaining: map<string, int>, ready: seq<string>, x: string)
    requires (forall c :: c in children ==> c in remaining) && x in remaining
    ensures Release(children, remaining, ready).0[x] == remaining[x] - Times(children, x)
  {
    if children != [] {
      assert forall c :: c in children[..|children| - 1] ==> c in children;
      ReleaseCounts(children[..|children| - 1], remaining, ready, x);
    }
  }

  /** `queue` is `ready` with the children whose count has just reached zero. */
  ghost predicate Queued(children: seq<string>, remaining: map<string, int>, ready: seq<string>, queue: seq<string>) {
    && Distinct(queue)
    && forall x :: x in queue <==> x in ready || (x in remaining && x in children && Times(children, x) == remaining[x])
  }

  lemma DistinctSnoc(s: seq<string>, x: string)
    requires Distinct(s) && x !in s
    ensures Distinct(s + [x])
  {
  }

  lemma {:induction false} ReleaseQueues(children: seq<string>, remaining: map<string, int>, ready: seq<string>)
    requires forall c :: c in children ==> c in remaining
    requires Distinct(ready) && forall x :: x in ready ==> x in remaining && remaining[x] == 0
    requires forall x :: x in remaining ==> Times(children, x) <= remaining[x]
    ensures Queued(children, remaining, ready, Release(children, remaining, ready).1)
  {
    if children != [] {
      var front, child := children[..|children| - 1], children[|children| - 1];
      assert children == front + [child];
      assert forall c :: c in front ==> c in children;
      forall x | x in remaining ensures Times(children, x) == Times(front, x) + if x == child then 1 else 0 {
        TimesSnoc(front, child, x);
      }
      ReleaseQueues(front, remaining, ready);
      ReleaseCounts(front, remaining, ready, child);
      QueueStep(front, child, remaining, ready, Release(front, remaining, ready).1);
    }
  }

  lemma QueueStep(front: seq<string>, child: string, remaining: map<string, int>, ready: seq<string>, queue: seq<string>)
    requires child in remaining && Queued(front, remaining, ready, queue)
    requires forall x :: x in ready ==> x in remaining && remaining[x] == 0
    requires forall x :: x in remaining ==> Times(front + [child], x) <= remaining[x]
    requires forall x :: x in remaining ==> Times(front + [child], x) == Times(front, x) + if x == child then 1 else 0
    ensures Queued(front + [child], remaining, ready,
      if remaining[child] - Times(front, child) - 1 == 0 then queue + [child] else queue)
  {
    TimesAbsent(front, child);
    hide Times;
    assert child !in queue;
    DistinctSnoc(queue, child);
    var next := if remaining[child] - Times(front, child) - 1 == 0 then queue + [child] else queue;
    forall x ensures x in next <==> x in ready || (x in remaining && x in front + [child] && Times(front + [child], x) == remaining[x]) {
      assert x in front + [child] <==> x in front || x == child;
      assert x in next <==> x in queue || (x == child && remaining[child] - Times(front, child) - 1 == 0);
    }
    hide Distinct;
  }

  // ----- Recording one result -----

  /** The counting part of an invariant, with one task in the loop's hand. */
  ghost predicate Holding(p: Plan, s: State, id: string) {
    Shape(p, s, {id}) && Counted(p, s, {id})
  }

  /** Recording, seen by what it writes. */
  ghost predicate Wrote(s: State, s': State, id: string, result: TaskResult, cause: Cause) {
    && s'.results == s.results[id := result] && s'.cause == s.cause[id := cause]
    && s'.running == s.running && s'.active == s.active && s'.completed == s.completed + 1
    && s'.started == s.started && s'.clock == s.clock
  }

  ghost predicate Marked(p: Plan, s: State, s': State, id: string, blocks: bool) {
    forall x :: x in s'.blocked <==> x in s.blocked || (blocks && x in Dependents(p, id))
  }

  ghost predicate Ticked(p: Plan, s: State, s': State, id: string) {
    && s'.remaining.Keys == s.remaining.Keys
    && (forall x :: x in s.remaining ==> x in s'.remaining && s'.remaining[x] == s.remaining[x] - Times(Dependents(p, id), x))
    && Queued(Dependents(p, id), s.remaining, s.ready, s'.ready)
  }

  lemma CountsDown(p: Plan, s: State, id: string, x: string)
    requires Mirrors(p) && Holding(p, s, id) && x in p.tasks
    ensures Times(Dependents(p, id), x) <= s.remaining[x]
    ensures Missing(p.tasks[x].dependsOn, s.results.Keys + {id}) == s.remaining[x] - Times(Dependents(p, id), x)
  {
    assert Times(Dependents(p, id), x) == Times(p.tasks[x].dependsOn, id);
    assert id !in s.results;
    assert s.remaining[x] == Missing(p.tasks[x].dependsOn, s.results.Keys);
    hide Mirrors, Shape, Counted, Times, Dependents;
    MissingAfter(p.tasks[x].dependsOn, s.results.Keys, id);
  }

  lemma RecordTicks(p: Plan, s: State, id: string, result: TaskResult, cause: Cause, blocks: bool)
    requires Mirrors(p) && Holding(p, s, id)
    ensures Ticked(p, s, Record(p, s, id, result, cause, blocks), id)
  {
    forall x | x in s.remaining
      ensures Times(Dependents(p, id), x) <= s.remaining[x]
      ensures Release(Dependents(p, id), s.remaining, s.ready).0[x] == s.remaining[x] - Times(Dependents(p, id), x)
    {
      CountsDown(p, s, id, x);
      ReleaseCounts(Dependents(p, id), s.remaining, s.ready, x);
    }
    hide Times, Missing, Mirrors, Queued, Dependents, Distinct;
    ReleaseQueues(Dependents(p, id), s.remaining, s.ready);
  }

  lemma RecordWrites(p: Plan, s: State, id: string, result: TaskResult, cause: Cause, blocks: bool)
    requires s.remaining.Keys == p.tasks.Keys && forall c :: c in Dependents(p, id) ==> c in p.tasks
    ensures Wrote(s, Record(p, s, id, result, cause, blocks), id, result, cause)
    ensures Marked(p, s, Record(p, s, id, result, cause, blocks), id, blocks)
  {
    hide Release, Dependents;
  }

  /** A task that recording `id` makes ready was waiting until now. */
  lemma NewlyReady(p: Plan, s: State, id: string, x: string)
    requires Holding(p, s, id) && x in s.remaining
    requires x in Dependents(p, id) && Times(Dependents(p, id), x) == s.remaining[x]
    ensures x in p.tasks && x !in s.ready && x !in s.running && x !in s.results && x != id
  {
    TimesAbsent(Dependents(p, id), x);
    hide Times, Missing, Shape, Dependents;
  }

  lemma ReadyAfter(p: Plan, s: State, s': State, id: string, x: string)
    requires Holding(p, s, id) && Ticked(p, s, s', id) && x in s'.ready
    ensures x in p.tasks && x !in s.results && x !in s.running && x != id
  {
    hide Distinct, Missing, Dependents;
    if x !in s.ready {
      NewlyReady(p, s, id, x);
    }
  }

  lemma ReadyDistinct(p: Plan, s: State, s': State, id: string)
    requires Ticked(p, s, s', id)
    ensures Distinct(s'.ready)
  {
    hide Distinct, Dependents, Times;
  }

  lemma ShapeAfter(p: Plan, s: State, s': State, id: string, result: TaskResult, cause: Cause)
    requires Holding(p, s, id) && Wrote(s, s', id, result, cause) && Ticked(p, s, s', id)
    ensures Shape(p, s', {})
  {
    hide Distinct, Counted, Ticked, Dependents;
    ReadyDistinct(p, s, s', id);
    forall x | x in s'.ready ensures x in p.tasks && x !in s.results && x !in s.running && x != id {
      ReadyAfter(p, s, s', id, x);
    }
    assert forall x :: (x in s'.results <==> x in s.results || x == id) && (x in s'.cause <==> x in s.cause || x == id);
    assert s'.running == s.running;
    hide Wrote;
  }

  lemma CountAfter(p: Plan, s: State, s': State, id: string, x: string)
    requires Mirrors(p) && Holding(p, s, id) && Ticked(p, s, s', id) && x in p.tasks
    ensures x in s'.remaining && s'.remaining[x] == Missing(p.tasks[x].dependsOn, s.results.Keys + {id})
    ensures s'.remaining[x] == 0 <==> x in s'.ready || x in s.running || x in s.results || x == id
  {
    CountsDown(p, s, id, x);
    TimesAbsent(Dependents(p, id), x);
    hide Shape, Mirrors, Missing, Times, Dependents, Distinct;
  }

  lemma KeysAfter(p: Plan, s: State, s': State, id: string)
    requires Counted(p, s, {id}) && Ticked(p, s, s', id)
    ensures forall x :: x in s'.remaining <==> x in p.tasks
  {
    hide Queued, Missing, Times;
  }

  lemma WroteKeys(s: State, s': State, id: string, result: TaskResult, cause: Cause)
    requires Wrote(s, s', id, result, cause)
    ensures s'.results.Keys == s.results.Keys + {id} && s'.running == s.running
  {
  }

  lemma HoldingCounted(p: Plan, s: State, id: string)
    requires Holding(p, s, id)
    ensures Counted(p, s, {id})
  {
    hide Counted, Shape;
  }

  lemma CountedAfter(p: Plan, s: State, s': State, id: string, result: TaskResult, cause: Cause)
    requires Mirrors(p) && Holding(p, s, id) && Wrote(s, s', id, result, cause) && Ticked(p, s, s', id)
    ensures Counted(p, s', {})
  {
    HoldingCounted(p, s, id);
    hide Holding, Ticked, Missing, Mirrors, Wrote;
    KeysAfter(p, s, s', id);
    WroteKeys(s, s', id, result, cause);
    forall x | x in p.tasks
      ensures s'.remaining[x] == Missing(p.tasks[x].dependsOn, s'.results.Keys)
      ensures s'.remaining[x] == 0 <==> x in s'.ready || x in s'.running || x in s'.results
    {
      CountAfter(p, s, s', id, x);
    }
  }

  lemma TalliedAfter(p: Plan, s: State, s': State, id: string, result: TaskResult, cause: Cause)
    requires Tallied(p, s) && id !in s.results && Wrote(s, s', id, result, cause)
    ensures Tallied(p, s')
  {
  }

  /** Every dependency of a queued, flying, recorded or held task has its result. */
  lemma DependenciesRecorded(p: Plan, s: State, held: set<string>, id: string)
    requires Counted(p, s, held)
    requires id in p.tasks && (id in s.ready || id in s.running || id in s.results || id in held)
    ensures forall d :: d in p.tasks[id].dependsOn ==> d in s.results
  {
    MissingZero(p.tasks[id].dependsOn, s.results.Keys);
  }

  // ----- Blocking -----

  /** Recording a new result does not change whether an older one blocks. */
  lemma BlocksAfter(p: Plan, s: State, s': State, id: string, result: TaskResult, cause: Cause, d: string)
    requires Wrote(s, s', id, result, cause) && id !in s.results
    ensures Blocks(p, s', d) <==> if d == id then Blocks(p, s', id) else Blocks(p, s, d)
    ensures !Blocks(p, s, id)
  {
  }

  lemma ChildIffDependent(p: Plan, id: string, x: string)
    requires Mirrors(p) && x in p.tasks
    ensures x in Dependents(p, id) <==> id in p.tasks[x].dependsOn
  {
    TimesAbsent(Dependents(p, id), x);
    TimesAbsent(p.tasks[x].dependsOn, id);
    hide Times, Dependents;
  }

  lemma BlockedAfter(p: Plan, s: State, s': State, id: string, result: TaskResult, cause: Cause, blocks: bool)
    requires Mirrors(p) && BlockedExactly(p, s) && id !in s.results
    requires Wrote(s, s', id, result, cause) && Marked(p, s, s', id, blocks) && blocks == Blocks(p, s', id)
    ensures BlockedExactly(p, s')
  {
    assert forall c :: c in Dependents(p, id) ==> c in p.tasks;
    forall d ensures Blocks(p, s', d) <==> Blocks(p, s, d) || (blocks && d == id) {
      BlocksAfter(p, s, s', id, result, cause, d);
    }
    forall x | x in p.tasks ensures x in Dependents(p, id) <==> id in p.tasks[x].dependsOn {
      ChildIffDependent(p, id, x);
    }
    hide Wrote, Blocks, Mirrors, Dependents;
    forall x | x in p.tasks
      ensures x in s'.blocked <==> exists d :: d in p.tasks[x].dependsOn && Blocks(p, s', d)
    {
      if d :| d in p.tasks[x].dependsOn && Blocks(p, s, d) {
        assert Blocks(p, s', d);
      }
      if d :| d in p.tasks[x].dependsOn && Blocks(p, s', d) {
        assert Blocks(p, s, d) || (blocks && d == id);
      }
    }
  }

  /** A task that has left the waiting stage is not newly blocked by recording another. */
  lemma SettledNotChild(p: Plan, s: State, id: string, x: string)
    requires Mirrors(p) && Holding(p, s, id)
    requires x in s.running || x in s.results || x == id
    ensures x in p.tasks && x !in Dependents(p, id)
  {
    DependenciesRecorded(p, s, {id}, x);
    hide Counted;
    ChildIffDependent(p, id, x);
    hide Mirrors, Dependents, Distinct;
  }

  lemma LabelledAfter(p: Plan, s: State, s': State, id: string, result: TaskResult, cause: Cause, blocks: bool)
    requires Mirrors(p) && Holding(p, s, id) && Labelled(p, s) && Unblocked(p, s)
    requires Wrote(s, s', id, result, cause) && Marked(p, s, s', id, blocks)
    requires Fits(cause, result.outcome) && (cause == UpstreamFailed <==> id in s.blocked)
    ensures Labelled(p, s') && Unblocked(p, s')
  {
    hide Labelled, Unblocked;
    forall x | x in s.running || x in s.results || x == id
      ensures x in s'.blocked <==> x in s.blocked
    {
      SettledNotChild(p, s, id, x);
    }
    LabelsKept(p, s, s', id, result, cause);
  }

  lemma LabelsKept(p: Plan, s: State, s': State, id: string, result: TaskResult, cause: Cause)
    requires Labelled(p, s) && Unblocked(p, s) && Wrote(s, s', id, result, cause)
    requires forall x :: x in s.running || x in s.results || x == id ==> (x in s'.blocked <==> x in s.blocked)
    requires Fits(cause, result.outcome) && (cause == UpstreamFailed <==> id in s.blocked)
    ensures Labelled(p, s') && Unblocked(p, s')
  {
    hide Fits;
  }

  lemma StillMetAfter(p: Plan, s: State, s': State, id: string, result: TaskResult, cause: Cause)
    requires id !in s.results && id in p.tasks && StillMet(p, s) && Wrote(s, s', id, result, cause)
    requires cause in {TemplateFailed, Executed} ==>
      Conditions.Evaluate(p.tasks[id].condition, Outcomes(s.results)) == Conditions.Run
    ensures StillMet(p, s')
  {
    hide Conditions.Evaluate;
    forall x | x in p.tasks && Passed(s', x)
      ensures Conditions.Evaluate(p.tasks[x].condition, Outcomes(s'.results)) == Conditions.Run
    {
      Conditions.EvaluateMonotone(p.tasks[x].condition, Outcomes(s.results), Outcomes(s'.results));
    }
  }

  // ----- Histories and clocks -----

  lemma StartsAfter(p: Plan, s: State, s': State, id: string, result: TaskResult, cause: Cause)
    requires id !in s.results && id !in s.cause
    requires Starts(p, s, {id}) && Wrote(s, s', id, result, cause)
    requires id in s.started <==> cause == Executed
    ensures Starts(p, s', {})
  {
    hide Distinct;
  }

  lemma TimedAfter(p: Plan, s: State, s': State, id: string, result: TaskResult, cause: Cause)
    requires id !in s.results && id !in s.running && id in p.tasks
    requires Timed(p, s) && Wrote(s, s', id, result, cause)
    requires result.startedAt <= result.finishedAt <= s.clock
    requires forall d :: d in p.tasks[id].dependsOn ==> d in s.results && s.results[d].finishedAt <= result.startedAt
    ensures Timed(p, s')
  {
    forall x, d | (x in s'.results || x in s'.running) && x in p.tasks && d in p.tasks[x].dependsOn
      ensures d in s'.results && s'.results[d].finishedAt <= StartOf(s', x)
    {
      assert d in s.results && d != id;
    }
  }

  // ----- Taking a task in hand -----

  lemma TakenShape(p: Plan, s: State, now: int)
    requires Shape(p, s, {}) && s.ready != []
    ensures Shape(p, Taken(s, now), {s.ready[0]}) && s.ready[0] in p.tasks
  {
    var t := Taken(s, now);
    assert s.ready == [s.ready[0]] + t.ready;
    assert forall x :: x in t.ready ==> x in s.ready;
    assert s.ready[0] in s.ready;
  }

  lemma TakenCounted(p: Plan, s: State, now: int)
    requires Counted(p, s, {}) && s.ready != []
    ensures Counted(p, Taken(s, now), {s.ready[0]})
  {
    hide Missing;
    var t := Taken(s, now);
    assert s.ready == [s.ready[0]] + t.ready;
    assert forall x :: x in s.ready <==> x == s.ready[0] || x in t.ready;
  }

  /** Nothing but the queue and the clock changes, and the clock does not run backwards. */
  ghost predicate SameBut(s: State, t: State) {
    && t.results == s.results && t.cause == s.cause && t.blocked == s.blocked && t.started == s.started
    && s.clock <= t.clock && t.running.Keys <= s.running.Keys && forall x :: x in t.running ==> t.running[x] == s.running[x]
  }

  lemma SameKeeps(p: Plan, s: State, t: State)
    requires BlockedExactly(p, s) && SameBut(s, t)
    requires Labelled(p, s) && Unblocked(p, s) && Dated(p, s)
    ensures BlockedExactly(p, t) && Labelled(p, t) && Unblocked(p, t) && Dated(p, t)
  {
    hide Fits, Fatal;
    assert forall d :: Blocks(p, s, d) <==> Blocks(p, t, d);
  }

  lemma SameKeepsOrder(p: Plan, s: State, t: State)
    requires StillMet(p, s) && InOrder(p, s) && SameBut(s, t)
    ensures StillMet(p, t) && InOrder(p, t)
  {
    hide Conditions.Evaluate;
    assert forall x :: Passed(t, x) ==> Passed(s, x);
  }

  lemma TakenStarts(p: Plan, s: State, now: int)
    requires Shape(p, s, {}) && Starts(p, s, {}) && s.ready != []
    ensures Starts(p, Taken(s, now), {s.ready[0]}) && s.ready[0] !in s.started
  {
    assert s.ready[0] in s.ready;
    hide Distinct;
  }

  lemma TakenHolds(p: Plan, s: State, now: int)
    requires Inv(p, s) && s.ready != [] && s.clock <= now
    ensures var id := s.ready[0]; var t := Taken(s, now);
      && Holding(p, t, id) && Tallied(p, t) && BlockedExactly(p, t) && Explained(p, t) && Starts(p, t, {id}) && Timed(p, t)
      && id in p.tasks && id !in t.started
  {
    hide Counted, BlockedExactly, Labelled, Unblocked, StillMet, InOrder, Dated, Shape, FailFastSound, Starts;
    TakenShape(p, s, now);
    TakenCounted(p, s, now);
    TakenStarts(p, s, now);
    SameKeeps(p, s, Taken(s, now));
    SameKeepsOrder(p, s, Taken(s, now));
  }

  lemma LandedCounted(p: Plan, s: State, id: string, now: int)
    requires Counted(p, s, {}) && id in s.running
    ensures Counted(p, Landed(s, id, now), {id})
  {
    hide Missing;
    var t := Landed(s, id, now);
    assert forall x :: x in t.running <==> x in s.running && x != id;
    forall x | x in p.tasks
      ensures t.remaining[x] == 0 <==> x in t.ready || x in t.running || x in t.results || x == id
    {
      assert t.remaining[x] == s.remaining[x];
    }
  }

  lemma LandedShape(p: Plan, s: State, id: string, now: int)
    requires Shape(p, s, {}) && id in s.running
    ensures Shape(p, Landed(s, id, now), {id}) && id in p.tasks
  {
    hide Distinct;
    assert forall x :: x in Landed(s, id, now).running <==> x in s.running && x != id;
  }

  lemma LandedTallied(p: Plan, s: State, id: string, now: int)
    requires Tallied(p, s) && id in s.running
    ensures Tallied(p, Landed(s, id, now))
  {
    assert (s.running - {id}).Keys == s.running.Keys - {id};
  }

  lemma LandedHolds(p: Plan, s: State, id: string, now: int)
    requires Inv(p, s) && id in s.running && s.clock <= now
    ensures var t := Landed(s, id, now);
      && Holding(p, t, id) && Tallied(p, t) && BlockedExactly(p, t) && Explained(p, t) && Starts(p, t, {id}) && Timed(p, t)
      && id in p.tasks && id in t.started && id !in t.blocked
      && Conditions.Evaluate(p.tasks[id].condition, Outcomes(t.results)) == Conditions.Run
  {
    hide Counted, BlockedExactly, Labelled, InOrder, Dated, Conditions.Evaluate, Tallied, Shape, FailFastSound, Starts, Unblocked, StillMet;
    var t := Landed(s, id, now);
    LandedShape(p, s, id, now);
    LandedMet(p, s, id);
    LandedCounted(p, s, id, now);
    LandedTallied(p, s, id, now);
    LandedStarts(p, s, id, now);
    SameKeeps(p, s, t);
    SameKeepsOrder(p, s, t);
  }

  lemma LandedMet(p: Plan, s: State, id: string)
    requires Unblocked(p, s) && StillMet(p, s) && id in s.running && id in p.tasks
    ensures id !in s.blocked && Conditions.Evaluate(p.tasks[id].condition, Outcomes(s.results)) == Conditions.Run
  {
    assert Passed(s, id);
  }

  lemma LandedStarts(p: Plan, s: State, id: string, now: int)
    requires Starts(p, s, {}) && id in s.running
    ensures Starts(p, Landed(s, id, now), {id}) && id in Landed(s, id, now).started
  {
    hide Distinct;
  }

  /** All invariants except fail-fast, for a step that ends in recording a result. */
  ghost predicate Core(p: Plan, s: State) {
    Shape(p, s, {}) && Counted(p, s, {}) && Tallied(p, s) && BlockedExactly(p, s) && Explained(p, s) && Starts(p, s, {}) && Timed(p, s)
  }

  /** The held task is nowhere else. */
  lemma HeldAlone(p: Plan, t: State, id: string)
    requires Shape(p, t, {id})
    ensures id !in t.results && id !in t.running && id !in t.cause
  {
    hide Distinct;
  }

  lemma RecordedCounts(p: Plan, t: State, s': State, id: string, result: TaskResult, cause: Cause)
    requires Mirrors(p) && Holding(p, t, id) && Tallied(p, t) && Wrote(t, s', id, result, cause) && Ticked(p, t, s', id)
    ensures Shape(p, s', {}) && Counted(p, s', {}) && Tallied(p, s')
  {
    hide Shape, Counted, Ticked, Wrote, Mirrors, Tallied;
    HeldAlone(p, t, id);
    ShapeAfter(p, t, s', id, result, cause);
    CountedAfter(p, t, s', id, result, cause);
    TalliedAfter(p, t, s', id, result, cause);
  }

  lemma BlocksAs(p: Plan, t: State, s': State, id: string, result: TaskResult, cause: Cause)
    requires id in p.tasks && Wrote(t, s', id, result, cause)
    ensures Blocks(p, s', id) == (cause != ConditionUnmet && (cause != Executed || Fatal(p, id, result.outcome)))
  {
  }

  lemma RecordedCauses(p: Plan, t: State, s': State, id: string, result: TaskResult, cause: Cause, blocks: bool)
    requires Mirrors(p) && Holding(p, t, id) && BlockedExactly(p, t) && Explained(p, t) && id in p.tasks
    requires Wrote(t, s', id, result, cause) && Marked(p, t, s', id, blocks)
    requires blocks == (cause != ConditionUnmet && (cause != Executed || Fatal(p, id, result.outcome)))
    requires Fits(cause, result.outcome) && (cause == UpstreamFailed <==> id in t.blocked)
    requires cause in {TemplateFailed, Executed} ==>
      Conditions.Evaluate(p.tasks[id].condition, Outcomes(t.results)) == Conditions.Run
    ensures BlockedExactly(p, s') && Explained(p, s')
  {
    hide Shape, Counted, BlockedExactly, Labelled, Unblocked, StillMet, Wrote, Marked, Mirrors, Fits, Fatal, Blocks, Conditions.Evaluate;
    HeldAlone(p, t, id);
    BlocksAs(p, t, s', id, result, cause);
    BlockedAfter(p, t, s', id, result, cause, blocks);
    LabelledAfter(p, t, s', id, result, cause, blocks);
    StillMetAfter(p, t, s', id, result, cause);
  }

  lemma RecordedTimes(p: Plan, t: State, s': State, id: string, result: TaskResult, cause: Cause)
    requires Holding(p, t, id) && Starts(p, t, {id}) && Timed(p, t) && id in p.tasks && Wrote(t, s', id, result, cause)
    requires id in t.started <==> cause == Executed
    requires result.startedAt <= result.finishedAt <= t.clock
    requires forall d :: d in p.tasks[id].dependsOn && d in t.results ==> t.results[d].finishedAt <= result.startedAt
    ensures Starts(p, s', {}) && Timed(p, s')
  {
    hide Shape, Counted, Starts, Timed, Wrote;
    HeldAlone(p, t, id);
    DependenciesRecorded(p, t, {id}, id);
    StartsAfter(p, t, s', id, result, cause);
    TimedAfter(p, t, s', id, result, cause);
  }

  lemma RecordCore(p: Plan, t: State, id: string, result: TaskResult, cause: Cause, blocks: bool)
    requires id in p.tasks && Tabled(p, t)
    requires Sound(p) && Holding(p, t, id) && Tallied(p, t) && BlockedExactly(p, t) && Explained(p, t) && Starts(p, t, {id}) && Timed(p, t)
    requires cause != ConditionUnmet ==> blocks == (cause != Executed || Fatal(p, id, result.outcome))
    requires cause == ConditionUnmet ==> !blocks
    requires Fits(cause, result.outcome) && (cause == UpstreamFailed <==> id in t.blocked)
    requires cause in {TemplateFailed, Executed} ==>
      Conditions.Evaluate(p.tasks[id].condition, Outcomes(t.results)) == Conditions.Run
    requires id in t.started <==> cause == Executed
    requires result.startedAt <= result.finishedAt <= t.clock
    requires forall d :: d in p.tasks[id].dependsOn && d in t.results ==> t.results[d].finishedAt <= result.startedAt
    ensures Core(p, Record(p, t, id, result, cause, blocks))
  {
    hide Record, Holding, Tallied, BlockedExactly, Explained, Starts, Timed, Wrote, Ticked, Marked, Mirrors, Ranks, Fits, Fatal, Conditions.Evaluate;
    var s' := Record(p, t, id, result, cause, blocks);
    RecordTicks(p, t, id, result, cause, blocks);
    RecordWrites(p, t, id, result, cause, blocks);
    RecordedCounts(p, t, s', id, result, cause);
    RecordedCauses(p, t, s', id, result, cause, blocks);
    RecordedTimes(p, t, s', id, result, cause);
  }

  lemma LaunchCounted(p: Plan, t: State, id: string, input: Input, now: int)
    requires Holding(p, t, id)
    ensures Shape(p, Launch(t, id, input, now), {}) && Counted(p, Launch(t, id, input, now), {})
  {
    hide Missing, Distinct;
  }

  lemma LaunchTallied(p: Plan, t: State, id: string, input: Input, now: int)
    requires Tallied(p, t) && t.active < p.limit && id !in t.running
    ensures Tallied(p, Launch(t, id, input, now))
  {
  }

  lemma LaunchStarts(p: Plan, t: State, id: string, input: Input, now: int)
    requires Starts(p, t, {id}) && id !in t.started && id !in t.results
    ensures Starts(p, Launch(t, id, input, now), {})
  {
    DistinctSnoc(t.started, id);
    hide Distinct;
    assert forall x :: x in t.started + [id] <==> x in t.started || x == id;
  }

  lemma LaunchBlocked(p: Plan, t: State, id: string, input: Input, now: int)
    requires BlockedExactly(p, t) && Labelled(p, t) && Unblocked(p, t) && id !in t.blocked
    ensures var s' := Launch(t, id, input, now); BlockedExactly(p, s') && Labelled(p, s') && Unblocked(p, s')
  {
    hide Fits, Fatal;
    assert forall d :: Blocks(p, t, d) <==> Blocks(p, Launch(t, id, input, now), d);
  }

  lemma LaunchMet(p: Plan, t: State, id: string, input: Input, now: int)
    requires StillMet(p, t) && id in p.tasks
    requires Conditions.Evaluate(p.tasks[id].condition, Outcomes(t.results)) == Conditions.Run
    ensures StillMet(p, Launch(t, id, input, now))
  {
    hide Conditions.Evaluate;
    assert forall x :: Passed(Launch(t, id, input, now), x) ==> Passed(t, x) || x == id;
  }

  lemma LaunchTimed(p: Plan, t: State, id: string, input: Input, now: int)
    requires Timed(p, t) && now == t.clock && id !in t.results
    requires id in p.tasks && forall d :: d in p.tasks[id].dependsOn ==> d in t.results
    ensures Timed(p, Launch(t, id, input, now))
  {
    var s' := Launch(t, id, input, now);
    forall x, d | (x in s'.results || x in s'.running) && x in p.tasks && d in p.tasks[x].dependsOn
      ensures d in s'.results && s'.results[d].finishedAt <= StartOf(s', x)
    {
      if x != id {
        assert StartOf(s', x) == StartOf(t, x);
      }
    }
  }

  lemma LaunchCore(p: Plan, t: State, id: string, input: Input, now: int)
    requires Holding(p, t, id) && Tallied(p, t) && BlockedExactly(p, t) && Explained(p, t) && Starts(p, t, {id}) && Timed(p, t)
    requires id !in t.started && id !in t.blocked && t.active < p.limit && now == t.clock && id in p.tasks
    requires Conditions.Evaluate(p.tasks[id].condition, Outcomes(t.results)) == Conditions.Run
    ensures Core(p, Launch(t, id, input, now))
  {
    DependenciesRecorded(p, t, {id}, id);
    assert id !in t.running && id !in t.results;
    hide Shape, Counted, Tallied, BlockedExactly, Labelled, Unblocked, StillMet, Starts, Dated, InOrder, Conditions.Evaluate;
    LaunchCounted(p, t, id, input, now);
    LaunchTallied(p, t, id, input, now);
    LaunchStarts(p, t, id, input, now);
    LaunchBlocked(p, t, id, input, now);
    LaunchMet(p, t, id, input, now);
    LaunchTimed(p, t, id, input, now);
  }
}
