/** How a run ends: leftover tasks, and the run's status. */
module Verdicts {
  import opened Domain
  import opened Plans
  import opened Scheduling
  import opened Steps
  import Safety
  import Graph

  /** The result map once every task has an entry. */
  function Completed(ids: set<string>, results: Results, reason: string, now: int): Results {
    map id | id in ids + results.Keys ::
      if id in results then results[id]
      else Instant(SkippedFor(if reason == "" then "not executed" else reason), now)
  }

  lemma NothingToComplete(before: Results, reason: string, now: int)
    ensures Completed(Graph.Ids([]), before, reason, now) == before
  {
  }

  lemma CompletedSnoc(ids: set<string>, id: string, before: Results, reason: string, now: int)
    ensures var m := Completed(ids, before, reason, now);
      Completed(ids + {id}, before, reason, now) ==
        if id in m then m else m[id := Instant(SkippedFor(if reason == "" then "not executed" else reason), now)]
  {
  }

  /** markUnfinishedTasksAsSkipped. */
  method MarkUnfinishedTasksAsSkipped(tasks: seq<TaskNode>, before: Results, reason: string, now: int) returns (results: Results)
    ensures results == Completed(Graph.Ids(tasks), before, reason, now)
    ensures results.Keys == Graph.Ids(tasks) + before.Keys
    ensures forall id :: id in before ==> results[id] == before[id]
    ensures forall id :: id in results && id !in before ==>
      results[id] == TaskResult(Outcome(Skipped, "", if reason == "" then "not executed" else reason, 0), now, now)
  {
    hide Graph.Ids, Completed;
    var why := if reason == "" then "not executed" else reason;
    results := before;
    NothingToComplete(before, reason, now);
    var i := 0;
    while i < |tasks|
      invariant 0 <= i <= |tasks|
      invariant results == Completed(Graph.Ids(tasks[..i]), before, reason, now)
    {
      assert tasks[..i + 1] == tasks[..i] + [tasks[i]];
      Plans.IdsSnoc(tasks[..i], tasks[i]);
      CompletedSnoc(Graph.Ids(tasks[..i]), tasks[i].id, before, reason, now);
      if tasks[i].id !in results {
        results := results[tasks[i].id := Instant(SkippedFor(why), now)];
      }
      i := i + 1;
    }
    assert tasks[..i] == tasks;
    CompletedMeans(Graph.Ids(tasks), before, reason, now);
  }

  lemma CompletedMeans(ids: set<string>, before: Results, reason: string, now: int)
    ensures var results := Completed(ids, before, reason, now);
      && results.Keys == ids + before.Keys
      && (forall id :: id in before ==> results[id] == before[id])
      && (forall id :: id in results && id !in before ==>
            results[id] == TaskResult(Outcome(Skipped, "", if reason == "" then "not executed" else reason, 0), now, now))
  {
  }

  ghost predicate SomeFailed(results: Results) {
    exists id :: id in results && results[id].outcome.status == Failed
  }

  /** deriveFinalStatus, for every iteration order of the map. */
  method DeriveFinalStatus(results: Results) returns (status: RunStatus)
    ensures status == if results == map[] || SomeFailed(results) then RunFailed else RunSucceeded
  {
    if |results| == 0 {
      return RunFailed;
    }
    var todo := results.Keys;
    while todo != {}
      invariant todo <= results.Keys
      invariant forall id :: id in results && id !in todo ==> results[id].outcome.status != Failed
    {
      var id :| id in todo;
      todo := todo - {id};
      if results[id].outcome.status == Failed {
        return RunFailed;
      }
    }
    return RunSucceeded;
  }

  /** Lines 221-230 and 258-268: the status the run ends with. */
  ghost function FinalStatus(s: State, results: Results): RunStatus {
    if s.phase == Aborted then (if s.failFastTriggered then RunFailed else RunCancelled)
    else if results == map[] || SomeFailed(results) then RunFailed
    else RunSucceeded
  }

  /** Whichever way the loop is left: every task ends with a terminal result, recorded ones
      unchanged and in-flight or waiting ones skipped; after an ordinary exit nothing is
      added. Under fail-fast a recorded critical failure makes the run fail by either branch; the
      run is cancelled exactly when it was left through cancellation without one; it succeeds
      exactly when it was not left through cancellation and no task failed, allowed or not. */
  ghost predicate Concluded(p: Plan, s: State, final: Results) {
    && final.Keys == p.tasks.Keys
    && (forall id :: id in s.results ==> id in final && final[id] == s.results[id])
    && (forall id :: id in p.tasks && id !in s.results ==> final[id].outcome.status == Skipped && s.phase == Aborted)
    && (s.phase == Left ==> final == s.results)
    && (p.failFast && Critical(p, s.results) ==> FinalStatus(s, final) == RunFailed)
    && (FinalStatus(s, final) == RunCancelled <==> s.phase == Aborted && !(p.failFast && Critical(p, s.results)))
    && (FinalStatus(s, final) == RunSucceeded <==>
          s.phase == Left && forall id :: id in final ==> final[id].outcome.status != Failed)
  }

  lemma Ending(p: Plan, s: State, reason: string, now: int)
    requires p.tasks != map[] && Inv(p, s) && s.phase != Looping && (s.phase == Left ==> s.results.Keys == p.tasks.Keys)
    ensures Concluded(p, s, Completed(p.tasks.Keys, s.results, reason, now))
  {
    hide Inv;
    InvEnding(p, s);
    var final := Completed(p.tasks.Keys, s.results, reason, now);
    FailFastMeansFailed(p, s, final);
  }

  /** Every run that is over is concluded so. */
  lemma Verdict(p: Plan, states: seq<State>, events: seq<Event>, reason: string, now: int)
    requires Sound(p) && p.tasks != map[] && Execution(p, states, events)
    requires states[|events|].phase != Looping
    ensures var s := states[|events|]; Concluded(p, s, Completed(p.tasks.Keys, s.results, reason, now))
  {
    assert |states| == |events| + 1;
    hide Inv, Execution, Sound, Concluded;
    AlwaysInv(p, states, events, |events|);
    if states[|events|].phase == Left {
      Safety.LeftComplete(p, states, events);
    }
    Ending(p, states[|events|], reason, now);
  }

  lemma InvEnding(p: Plan, s: State)
    requires Inv(p, s)
    ensures s.results.Keys <= p.tasks.Keys && FailFastSound(p, s)
  {
    Safety.ResultsKnown(p, s);
  }

  lemma FailFastMeansFailed(p: Plan, s: State, final: Results)
    requires FailFastSound(p, s)
    requires forall id :: id in s.results ==> id in final && final[id] == s.results[id]
    ensures p.failFast && Critical(p, s.results) ==> s.failFastTriggered && SomeFailed(final)
  {
  }

  /** However the run ends, every transitive dependent of a task that blocks ends skipped, and its
      action was never started. */
  lemma BlockedEndsSkipped(p: Plan, states: seq<State>, events: seq<Event>, i: nat, path: seq<string>, reason: string, now: int)
    requires Sound(p) && p.tasks != map[] && Execution(p, states, events) && i < |states|
    requires states[|events|].phase != Looping && Safety.Chain(p, path) && Blocks(p, states[i], path[0])
    ensures var y := path[|path| - 1]; var final := Completed(p.tasks.Keys, states[|events|].results, reason, now);
      y in final && final[y].outcome.status == Skipped && y !in states[|events|].started
  {
    assert |states| == |events| + 1;
    hide Inv, Sound, Execution, Blocks, FinalStatus, Completed;
    Safety.BlockedForGood(p, states, events, i, |events|, path);
    Verdict(p, states, events, reason, now);
    assert Safety.Link(p, path[|path| - 2], path[|path| - 1]);
  }
}
