/** The ready queue is first in, first out. */
module Queueing {
  import opened Domain
  import opened Plans
  import opened Scheduling
  import opened Steps
  import Invariants
  import Safety
  import Templates

  lemma {:induction false} ReleaseAppends(children: seq<string>, remaining: map<string, int>, ready: seq<string>)
    requires forall c :: c in children ==> c in remaining
    ensures ready <= Release(children, remaining, ready).1
  {
    if children != [] {
      var front := children[..|children| - 1];
      assert forall c :: c in front ==> c in children;
      ReleaseAppends(front, remaining, ready);
    }
  }

  lemma RecordAppends(p: Plan, s: State, id: string, result: TaskResult, cause: Cause, blocks: bool, trigger: bool)
    requires Tabled(p, s)
    ensures s.ready <= TriggerFailFast(Record(p, s, id, result, cause, blocks), trigger).ready
  {
    hide Release, Dependents;
    ReleaseAppends(Dependents(p, id), s.remaining, s.ready);
  }

  /** Nothing is put in front of what is waiting. */
  lemma StepAppends(p: Plan, s: State, e: Event, s': State)
    requires Follows(p, s, e, s')
    ensures e.Pop? ==> s.ready != [] && s.ready[1..] <= s'.ready
    ensures !e.Pop? ==> s.ready <= s'.ready
  {
    hide Record, HeadBranch, Dependents;
    match e
    case Pop(now, error) =>
      var id, t := s.ready[0], Taken(s, now);
      match HeadBranch(p, s) {
        case SkipUpstream => RecordAppends(p, t, id, Instant(UPSTREAM, now), UpstreamFailed, true, false);
        case SkipCondition(reason) => RecordAppends(p, t, id, Instant(SkippedFor(reason), now), ConditionUnmet, false, false);
        case Refuse(_) =>
          RecordAppends(p, t, id, Instant(Malformed(error), now), TemplateFailed, true, p.failFast && !p.tasks[id].allowFailure);
        case Start(_) =>
        case Stall =>
      }
    case Receive(id, outcome, finishedAt, now) =>
      var fatal := Fatal(p, id, outcome);
      RecordAppends(p, Landed(s, id, now), id, TaskResult(outcome, s.running[id].startedAt, finishedAt), Executed, fatal, fatal && p.failFast);
    case _ =>
  }

  /** The task has been started or has its result. */
  predicate Gone(s: State, id: string) {
    id in s.running || id in s.results
  }

  lemma StepKeepsGone(p: Plan, s: State, e: Event, s': State, id: string)
    requires Inv(p, s) && Follows(p, s, e, s')
    requires Gone(s, id) || (e.Pop? && s.ready[0] == id)
    ensures Gone(s', id)
  {
    hide Inv, Record, HeadBranch, TriggerFailFast, Tabled;
    match e
    case Pop(now, error) => PopGone(p, s, now, error, id);
    case Receive(other, outcome, finishedAt, now) => Safety.ReceiveMeans(p, s, e, s');
    case _ =>
  }

  lemma PopGone(p: Plan, s: State, now: int, error: Templates.TemplateError, id: string)
    requires Inv(p, s) && Tabled(p, s) && Enabled(p, s, Pop(now, error)) && (Gone(s, id) || s.ready[0] == id)
    ensures Gone(Apply(p, s, Pop(now, error)), id)
  {
    hide Inv, Record, HeadBranch;
    var head, t := s.ready[0], Taken(s, now);
    match HeadBranch(p, s) {
      case SkipUpstream => Invariants.RecordWrites(p, t, head, Instant(UPSTREAM, now), UpstreamFailed, true);
      case SkipCondition(reason) => Invariants.RecordWrites(p, t, head, Instant(SkippedFor(reason), now), ConditionUnmet, false);
      case Refuse(errors) => Invariants.RecordWrites(p, t, head, Instant(Malformed(error), now), TemplateFailed, true);
      case Start(_) =>
      case Stall =>
    }
  }

  /** The first `k` tasks of the queue are gone, and the others still stand at the front. */
  predicate TakenUpTo(queue: seq<string>, k: nat, s: State) {
    k <= |queue| && queue[k..] <= s.ready && forall n :: 0 <= n < k ==> Gone(s, queue[n])
  }

  lemma TakenNext(p: Plan, s: State, e: Event, s': State, queue: seq<string>, k: nat) returns (k': nat)
    requires Inv(p, s) && Follows(p, s, e, s') && TakenUpTo(queue, k, s)
    ensures TakenUpTo(queue, k', s')
  {
    hide Inv, Follows, Gone;
    StepAppends(p, s, e, s');
    forall n | 0 <= n < k ensures Gone(s', queue[n]) {
      StepKeepsGone(p, s, e, s', queue[n]);
    }
    k' := k;
    if e.Pop? && k < |queue| {
      assert s.ready[0] == queue[k..][0] == queue[k];
      assert queue[k + 1..] == queue[k..][1..];
      StepKeepsGone(p, s, e, s', queue[k]);
      k' := k + 1;
    }
  }

  /** Tasks are taken off the queue in the order in which they were put in it. */
  lemma {:induction false} FirstInFirstOut(p: Plan, states: seq<State>, events: seq<Event>, i: nat, j: nat) returns (k: nat)
    requires Sound(p) && Execution(p, states, events) && i <= j < |states|
    ensures TakenUpTo(states[i].ready, k, states[j])
  {
    hide Inv, TakenUpTo, Sound, Initial, Follows;
    if i == j {
      NoneTaken(states[i]);
      k := 0;
    } else {
      var before := FirstInFirstOut(p, states, events, i, j - 1);
      AlwaysInv(p, states, events, j - 1);
      k := TakenNext(p, states[j - 1], events[j - 1], states[j], states[i].ready, before);
    }
  }

  lemma NoneTaken(s: State)
    ensures TakenUpTo(s.ready, 0, s)
  {
  }
}
