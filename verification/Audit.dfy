/** The transition log agrees with the jobs after every queue operation. */
module Audit {
  import opened Jobs

  // ----- Runs of the queue -----

  datatype Step = Step(op: Op, now: int)

  /** The queue after these operations on a new queue. */
  function After(steps: seq<Step>): Store {
    if steps == [] then EMPTY else
      var last := steps[|steps| - 1];
      Apply(After(steps[..|steps| - 1]), last.op, last.now)
  }

  /** Jobs are submitted waiting and untried, as every caller in the code base does. */
  predicate Fresh(op: Op) {
    op.Enqueue? ==> op.job.status in {Unset, Queued} && op.job.attempts == 0 && op.job.replayCount == 0
  }

  /** Each operation could happen where it did; enqueued jobs are new. */
  ghost predicate Played(steps: seq<Step>) {
    forall k :: 0 <= k < |steps| ==> Fresh(steps[k].op) && Possible(After(steps[..k]), steps[k].op, steps[k].now)
  }

  // ----- What a log says -----

  /** The edges of the status diagram. */
  predicate Legal(from: JobStatus, to: JobStatus) {
    match from
    case Unset => to == Queued
    case Queued => to in {Leased, Cancelled}
    case Leased => to in {Leased, Succeeded, Queued, Failed, DeadLettered, Cancelled}
    case Failed => to in {Queued, Cancelled}
    case DeadLettered => to in {Queued, Cancelled}
    case Succeeded => false
    case Cancelled => false
  }

  /** Where a log leads. */
  function Last(log: seq<Transition>): JobStatus {
    if log == [] then Unset else log[|log| - 1].to
  }

  /** Each entry leaves the status the entries before it lead to, along an edge of the diagram. */
  ghost predicate Path(log: seq<Transition>) {
    forall k :: 0 <= k < |log| ==> log[k].from == Last(log[..k]) && Legal(log[k].from, log[k].to)
  }

  predicate IsLease(t: Transition) {
    t.to == Leased
  }

  predicate IsTakeover(t: Transition) {
    t.from == Leased && t.to == Leased
  }

  predicate IsRetry(t: Transition) {
    t.from == Leased && t.to == Queued
  }

  predicate IsReplay(t: Transition) {
    t.from in {Failed, DeadLettered} && t.to == Queued
  }

  function Tally(log: seq<Transition>, p: Transition -> bool): nat {
    if log == [] then 0 else Tally(log[..|log| - 1], p) + if p(log[|log| - 1]) then 1 else 0
  }

  lemma TallySnoc(log: seq<Transition>, t: Transition, p: Transition -> bool)
    ensures Tally(log + [t], p) == Tally(log, p) + if p(t) then 1 else 0
  {
    assert (log + [t])[..|log|] == log;
  }

  lemma PathSnoc(log: seq<Transition>, t: Transition)
    requires Path(log) && t.from == Last(log) && Legal(t.from, t.to)
    ensures Path(log + [t]) && Last(log + [t]) == t.to
  {
    var longer := log + [t];
    forall k | 0 <= k < |longer| ensures longer[k].from == Last(longer[..k]) && Legal(longer[k].from, longer[k].to) {
      assert longer[..k] == if k < |log| then log[..k] else log;
    }
  }

  /** The log leads to the job's status and accounts for its counters. */
  ghost predicate Recorded(job: Job, log: seq<Transition>) {
    && log != [] && Path(log) && Last(log) == job.status
    && job.attempts == Tally(log, IsLease)
    && job.replayCount == Tally(log, IsReplay)
  }

  ghost predicate Audited(q: Store) {
    && q.jobs.Keys == q.log.Keys
    && forall id :: id in q.jobs ==> q.jobs[id].id == id && Recorded(q.jobs[id], q.log[id])
  }

  // ----- Every operation keeps the agreement -----

  /** Recording one more legal change of status. */
  lemma RecordedSnoc(job: Job, log: seq<Transition>, next: Job, t: Transition)
    requires Recorded(job, log) && t.from == job.status && t.to == next.status && Legal(t.from, t.to)
    requires next.attempts == job.attempts + if IsLease(t) then 1 else 0
    requires next.replayCount == job.replayCount + if IsReplay(t) then 1 else 0
    ensures Recorded(next, log + [t])
  {
    PathSnoc(log, t);
    TallySnoc(log, t, IsLease);
    TallySnoc(log, t, IsReplay);
  }

  lemma FirstRecorded(job: Job, t: Transition)
    requires job.status == Queued && job.attempts == 0 && job.replayCount == 0 && t.from == Unset && t.to == Queued
    ensures Recorded(job, [t])
  {
    PathSnoc([], t);
    TallySnoc([], t, IsLease);
    TallySnoc([], t, IsReplay);
    assert [] + [t] == [t];
  }

  lemma EnqueueRecorded(job: Job, now: int)
    requires Fresh(Enqueue(job))
    ensures Recorded(Filled(job, now), Entries(Filled(job, now), Enqueue(job), now)) && Filled(job, now).id == job.id
  {
    hide Recorded;
    FirstRecorded(Filled(job, now), Entries(Filled(job, now), Enqueue(job), now)[0]);
  }

  lemma NextRecorded(job: Job, log: seq<Transition>, op: Op, now: int)
    requires Recorded(job, log) && !op.Enqueue? && !op.Purge? && Takes(job, op)
    requires op.Lease? ==> Claimable(job, now)
    ensures Recorded(Next(job, op, now), log + Entries(job, op, now))
  {
    if op.Extend? {
      assert log + [] == log;
    } else {
      RecordedSnoc(job, log, Next(job, op, now), Entries(job, op, now)[0]);
    }
  }

  lemma PutAudits(q: Store, id: string, job: Job, entries: seq<Transition>)
    requires Audited(q) && job.id == id && Recorded(job, LogOf(q, id) + entries) && (id in q.jobs || entries != [])
    ensures Audited(Put(q, id, job, entries))
  {
    hide Recorded;
    assert LogOf(q, id) + [] == LogOf(q, id);
  }

  lemma StepAudits(q: Store, op: Op, now: int)
    requires Audited(q) && Fresh(op) && Possible(q, op, now)
    ensures Audited(Apply(q, op, now))
  {
    hide Recorded, Next, Entries, Takes, Filled, Fresh, Claimable, Put;
    if op.Enqueue? {
      var job := Filled(op.job, now);
      EnqueueRecorded(op.job, now);
      if op.job.id !in q.jobs {
        EntriesFirst(job, op, now);
        assert LogOf(q, job.id) + Entries(job, op, now) == Entries(job, op, now);
        PutAudits(q, job.id, job, Entries(job, op, now));
      }
    } else if !op.Purge? && op.id in q.jobs && Takes(q.jobs[op.id], op) {
      var job := q.jobs[op.id];
      NextRecorded(job, q.log[op.id], op, now);
      NextKeeps(job, op, now);
      PutAudits(q, op.id, Next(job, op, now), Entries(job, op, now));
    }
  }

  lemma EntriesFirst(job: Job, op: Op, now: int)
    requires op.Enqueue?
    ensures Entries(job, op, now) != []
  {
  }

  lemma NextKeeps(job: Job, op: Op, now: int)
    ensures Next(job, op, now).id == job.id && Next(job, op, now).maxAttempts == job.maxAttempts
    ensures Next(job, op, now).createdAt == job.createdAt
  {
  }

  /** After any operations at all the log agrees with the jobs. */
  lemma {:induction false} AlwaysAudited(steps: seq<Step>)
    requires Played(steps)
    ensures Audited(After(steps))
  {
    if steps != [] {
      var last := |steps| - 1;
      assert forall k :: 0 <= k < last ==> steps[..last][..k] == steps[..k];
      AlwaysAudited(steps[..last]);
      StepAudits(After(steps[..last]), steps[last].op, steps[last].now);
    }
  }

  // ----- Settled jobs -----

  predicate Removes(op: Op, id: string) {
    op.Purge? && id in op.ids
  }

  lemma KeyOf(q: Store, id: string)
    requires Audited(q) && id in q.jobs
    ensures q.jobs[id].id == id
  {
  }

  lemma SettledStep(q: Store, op: Op, now: int, id: string)
    requires id in q.jobs && q.jobs[id].status in {Succeeded, Cancelled} && q.jobs[id].id == id
    requires Possible(q, op, now) && !Removes(op, id)
    ensures var next := Apply(q, op, now); id in next.jobs && next.jobs[id] == q.jobs[id] && LogOf(next, id) == LogOf(q, id)
  {
    hide Next, Entries, Filled;
  }

  /** Succeeded and cancelled jobs never change again, and nothing more is logged, until a purge. */
  lemma {:induction false} Settled(steps: seq<Step>, n: nat, id: string)
    requires Played(steps) && n <= |steps|
    requires id in After(steps[..n]).jobs && After(steps[..n]).jobs[id].status in {Succeeded, Cancelled}
    requires forall k :: n <= k < |steps| ==> !Removes(steps[k].op, id)
    ensures id in After(steps).jobs && After(steps).jobs[id] == After(steps[..n]).jobs[id]
    ensures LogOf(After(steps), id) == LogOf(After(steps[..n]), id)
  {
    hide Apply, Possible, Fresh, Audited, Removes, LogOf;
    if n == |steps| {
      assert steps[..n] == steps;
    } else {
      var last := |steps| - 1;
      assert forall k :: 0 <= k <= last ==> steps[..last][..k] == steps[..k];
      assert steps[..last][..n] == steps[..n];
      Settled(steps[..last], n, id);
      AlwaysAudited(steps[..last]);
      KeyOf(After(steps[..last]), id);
      SettledStep(After(steps[..last]), steps[last].op, steps[last].now, id);
    }
  }

  /** A log is only ever extended, until a purge. */
  lemma {:induction false} HistoryKept(steps: seq<Step>, n: nat, id: string)
    requires n <= |steps| && forall k :: n <= k < |steps| ==> !Removes(steps[k].op, id)
    ensures LogOf(After(steps[..n]), id) <= LogOf(After(steps), id)
  {
    hide Apply, LogOf, Removes;
    if n == |steps| {
      assert steps[..n] == steps;
    } else {
      var last := |steps| - 1;
      assert steps[..last][..n] == steps[..n];
      HistoryKept(steps[..last], n, id);
      StepExtends(After(steps[..last]), steps[last].op, steps[last].now, id);
    }
  }

  lemma StepExtends(q: Store, op: Op, now: int, id: string)
    requires !Removes(op, id)
    ensures LogOf(q, id) <= LogOf(Apply(q, op, now), id)
  {
  }

  // ----- Counting attempts -----

  predicate IsPickup(t: Transition) {
    t.from == Queued && t.to == Leased
  }

  /** Along a path, a job is picked up at most once per time it was put in the queue. */
  lemma {:induction false} PickupsBounded(log: seq<Transition>)
    requires Path(log)
    ensures Tally(log, IsLease) == Tally(log, IsPickup) + Tally(log, IsTakeover)
    ensures Tally(log, IsPickup) + (if log != [] && Last(log) == Queued then 1 else 0)
         <= (if log == [] then 0 else 1) + Tally(log, IsRetry) + Tally(log, IsReplay)
  {
    if log != [] {
      var last := |log| - 1;
      PathPrefix(log, last);
      PickupsBounded(log[..last]);
      assert log[last].from == Last(log[..last]) && Legal(log[last].from, log[last].to);
    }
  }

  lemma PathPrefix(log: seq<Transition>, n: nat)
    requires Path(log) && n <= |log|
    ensures Path(log[..n])
  {
    forall k | 0 <= k < n ensures log[..n][k].from == Last(log[..n][..k]) && Legal(log[..n][k].from, log[..n][k].to) {
      assert log[..n][..k] == log[..k];
    }
  }

  /** Attempts are accounted for by the first queueing, retries, replays and takeovers. */
  lemma AttemptsBounded(job: Job, log: seq<Transition>)
    requires Recorded(job, log)
    ensures job.attempts <= 1 + Tally(log, IsRetry) + job.replayCount + Tally(log, IsTakeover)
  {
    PickupsBounded(log);
  }
}
