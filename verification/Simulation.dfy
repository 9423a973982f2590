/** The SQLite queue and the in-memory queue go through the same job tables. */
module Simulation {
  import opened Audit
  import opened Backoff
  import opened Jobs
  import opened Sqlite

  // ----- The relation -----

  /** Everything a row and a job have in common. The end of a lease counts only while there is one. */
  ghost predicate Mirrors(job: Job, row: Job) {
    && row == job.(leaseUntil := row.leaseUntil, replayedAt := UnixNano(job.replayedAt))
    && (job.status == Leased ==> row.leaseUntil == job.leaseUntil)
  }

  /** A leased job has a lease that ends, and was available when it was leased. */
  ghost predicate Leasing(job: Job, clock: int) {
    job.status == Leased ==> job.leaseUntil != ZERO && job.availableAt <= clock
  }

  /** The log of one job in the log table, without the entries of repeated submissions. */
  function Condensed(log: seq<LogRow>, id: string): seq<Transition> {
    if log == [] then [] else
      var last := log[|log| - 1];
      var earlier := Condensed(log[..|log| - 1], id);
      if last.jobID != id || (last.entry.from == Unset && earlier != []) then earlier else earlier + [last.entry]
  }

  ghost predicate SameLogs(q: Store, t: Table) {
    forall id :: Condensed(t.log, id) == LogOf(q, id)
  }

  ghost predicate SameJobs(q: Store, t: Table, clock: int) {
    && q.jobs.Keys == t.rows.Keys
    && forall id :: id in q.jobs ==> Mirrors(q.jobs[id], t.rows[id]) && Leasing(q.jobs[id], clock)
  }

  ghost predicate Related(q: Store, t: Table, clock: int) {
    Audited(q) && SameJobs(q, t, clock) && SameLogs(q, t)
  }

  /** What callers submit: an ID, a positive maximum, and times within 64 bits. */
  ghost predicate Sensible(op: Op, now: int) {
    && Fresh(op) && 0 < now && Fits(now)
    && match op
       case Enqueue(job) =>
         && job.id != "" && job.maxAttempts > 0
         && forall t :: t in {job.createdAt, job.updatedAt, job.availableAt} ==> t == ZERO || Fits(t)
       case Lease(_, _, duration) => duration > 0 && Fits(now + duration)
       case Extend(_, _, duration) => duration > 0 && Fits(now + duration)
       case Retry(_, after, _) => Fits(now + after)
       case Requeue(_, after, _, _) => Fits(now + after)
       case _ => true
  }

  // ----- One row -----

  lemma NanoFits(t: int)
    requires Fits(t)
    ensures UnixNano(t) == t
  {
    WrapSmall(t);
  }

  lemma EnqueueMirrors(job: Job, now: int)
    requires Sensible(Enqueue(job), now)
    ensures Mirrors(Filled(job, now), Stored(Prepared(job, now))) && Leasing(Filled(job, now), now)
    ensures Prepared(job, now) == Filled(job, now) && Filled(job, now).status == Queued
  {
    hide UnixNano;
    NanoFits(now);
    forall t | t in {job.createdAt, job.updatedAt, job.availableAt} && t != ZERO ensures UnixNano(t) == t {
      NanoFits(t);
    }
    assert job.createdAt in {job.createdAt, job.updatedAt, job.availableAt};
  }

  /** The guard of an UPDATE is the check the in-memory queue makes. */
  lemma GuardTakes(job: Job, row: Job, op: Op, now: int)
    requires Mirrors(job, row) && Leasing(job, now) && job.status != Unset && !op.Enqueue? && !op.Purge?
    requires op.Lease? ==> Claimable(job, now)
    ensures Guard(row, op, now) <==> Takes(job, op)
  {
    hide UnixNano;
  }

  lemma UpdateMirrors(job: Job, row: Job, op: Op, now: int)
    requires Mirrors(job, row) && Leasing(job, now) && Sensible(op, now) && !op.Enqueue? && !op.Purge?
    requires op.Lease? ==> Claimable(job, now)
    ensures Mirrors(Next(job, op, now), Update(row, op, now)) && Leasing(Next(job, op, now), now)
  {
    hide UnixNano, Fits;
    NanoFits(now);
    match op {
      case Lease(_, _, duration) => NanoFits(now + duration);
      case Extend(_, _, duration) => NanoFits(now + duration);
      case Retry(_, after, _) => NanoFits(now + after);
      case Requeue(_, after, _, _) => NanoFits(now + after);
      case _ =>
    }
  }

  // ----- The log table -----

  lemma CondensedSnoc(log: seq<LogRow>, row: LogRow, id: string)
    ensures Condensed(log + [row], id) ==
      if row.jobID != id || (row.entry.from == Unset && Condensed(log, id) != []) then Condensed(log, id)
      else Condensed(log, id) + [row.entry]
  {
    assert (log + [row])[..|log|] == log;
  }

  lemma {:induction false} CondensedWithout(log: seq<LogRow>, ids: set<string>, id: string)
    ensures Condensed(Without(log, ids), id) == if id in ids then [] else Condensed(log, id)
  {
    if log != [] {
      var last := log[|log| - 1];
      var rest := log[..|log| - 1];
      CondensedWithout(rest, ids, id);
      if last.jobID in ids {
        assert Without(rest, ids) + [] == Without(rest, ids);
      } else {
        CondensedSnoc(Without(rest, ids), last, id);
      }
    }
  }

  lemma StatusSet(job: Job, log: seq<Transition>)
    requires Recorded(job, log)
    ensures job.status != Unset
  {
    assert Legal(log[|log| - 1].from, log[|log| - 1].to);
  }

  lemma EntriesAgree(job: Job, row: Job, op: Op, now: int)
    requires row.status == job.status != Unset && !op.Enqueue? && !op.Purge?
    ensures var entries := Entries(job, op, now);
      && LogEntries(row, op, now) == (if entries == [] then [] else [LogRow(op.id, entries[0])])
      && (entries != [] ==> entries == [entries[0]] && entries[0].from != Unset)
  {
  }

  /** The logs still agree when both sides log what an update did. */
  lemma LogsAgree(log: seq<LogRow>, own: seq<Transition>, id: string, target: string, row: Job, job: Job, op: Op, now: int)
    requires Condensed(log, id) == own && row.status == job.status != Unset && !op.Enqueue? && !op.Purge? && target == op.id
    ensures Condensed(log + LogEntries(row, op, now), id) == if id == target then own + Entries(job, op, now) else own
  {
    hide Condensed, Entries, LogEntries;
    EntriesAgree(job, row, op, now);
    if Entries(job, op, now) == [] {
      assert log + [] == log && own + [] == own;
    } else {
      CondensedSnoc(log, LogRow(op.id, Entries(job, op, now)[0]), id);
    }
  }

  // ----- One operation -----

  lemma StepEnqueue(q: Store, t: Table, job: Job, now: int)
    requires Related(q, t, now) && Sensible(Enqueue(job), now)
    ensures SameJobs(Apply(q, Enqueue(job), now), Run(t, Enqueue(job), now), now)
    ensures SameLogs(Apply(q, Enqueue(job), now), Run(t, Enqueue(job), now))
  {
    hide Recorded, Mirrors, Leasing, Filled, Prepared, Stored, Condensed;
    EnqueueMirrors(job, now);
    var row := LogRow(job.id, Transition(Unset, Prepared(job, now).status, "enqueued", "system", now));
    forall id ensures Condensed(t.log + [row], id) == LogOf(Apply(q, Enqueue(job), now), id) {
      CondensedSnoc(t.log, row, id);
      LogPresent(q, id);
      assert [] + Entries(Filled(job, now), Enqueue(job), now) == Entries(Filled(job, now), Enqueue(job), now);
      FilledId(job, now);
    }
  }

  lemma FilledId(job: Job, now: int)
    ensures Filled(job, now).id == job.id
  {
  }

  /** A job has a log exactly while it is in the table. */
  lemma LogPresent(q: Store, id: string)
    requires Audited(q)
    ensures LogOf(q, id) != [] <==> id in q.jobs
  {
  }

  lemma StepUpdate(q: Store, t: Table, op: Op, now: int)
    requires Related(q, t, now) && Sensible(op, now) && !op.Enqueue? && !op.Purge? && Possible(q, op, now)
    ensures SameJobs(Apply(q, op, now), Run(t, op, now), now)
    ensures SameLogs(Apply(q, op, now), Run(t, op, now))
    ensures Accepts(t, op, now) <==> op.id in q.jobs && Takes(q.jobs[op.id], op)
  {
    hide Recorded, Mirrors, Leasing, Condensed, Next, Update, Entries, LogEntries, Guard, Takes, Claimable, Sensible;
    if op.id in q.jobs {
      var job, row := q.jobs[op.id], t.rows[op.id];
      StatusSet(job, q.log[op.id]);
      MirrorsStatus(job, row);
      GuardTakes(job, row, op, now);
      if Takes(job, op) {
        UpdateMirrors(job, row, op, now);
        forall id ensures Condensed(t.log + LogEntries(row, op, now), id) == LogOf(Apply(q, op, now), id) {
          LogsAgree(t.log, LogOf(q, id), id, op.id, row, job, op, now);
          assert LogOf(q, id) + [] == LogOf(q, id);
        }
      }
    }
  }

  lemma MirrorsStatus(job: Job, row: Job)
    requires Mirrors(job, row)
    ensures row.status == job.status && row.createdAt == job.createdAt && row.availableAt == job.availableAt
    ensures job.status == Leased ==> row.leaseUntil == job.leaseUntil
  {
  }

  lemma StepPurge(q: Store, t: Table, ids: set<string>, now: int)
    requires Related(q, t, now)
    ensures SameJobs(Apply(q, Purge(ids), now), Run(t, Purge(ids), now), now)
    ensures SameLogs(Apply(q, Purge(ids), now), Run(t, Purge(ids), now))
  {
    hide Recorded, Mirrors, Leasing, Condensed, Without;
    forall id ensures Condensed(Without(t.log, ids), id) == LogOf(Apply(q, Purge(ids), now), id) {
      CondensedWithout(t.log, ids, id);
    }
  }

  lemma StepSimulates(q: Store, t: Table, op: Op, now: int)
    requires Related(q, t, now) && Sensible(op, now) && Possible(q, op, now)
    ensures Related(Apply(q, op, now), Run(t, op, now), now)
  {
    hide Audited, SameJobs, SameLogs, Apply, Run, Possible;
    StepAudits(q, op, now);
    match op {
      case Enqueue(job) => StepEnqueue(q, t, job, now);
      case Purge(ids) => StepPurge(q, t, ids, now);
      case _ => StepUpdate(q, t, op, now);
    }
  }

  lemma RelatedLater(q: Store, t: Table, clock: int, now: int)
    requires Related(q, t, clock) && clock <= now
    ensures Related(q, t, now)
  {
    hide Mirrors, Audited;
  }

  // ----- What follows from the relation -----

  /** Asking for availability of expired leases changes nothing: both queues offer the same jobs. */
  lemma SameChoices(q: Store, t: Table, id: string, now: int)
    requires Related(q, t, now)
    ensures MaySelect(t, id, now) <==> MayLease(q, id, now)
    ensures id in q.jobs && q.jobs[id].status == Leased ==> t.rows[id].availableAt <= now
  {
    hide Recorded, Mirrors;
    forall other | other in q.jobs
      ensures Selectable(t.rows[other], now) == Claimable(q.jobs[other], now) && t.rows[other].createdAt == q.jobs[other].createdAt
    {
      MirrorsStatus(q.jobs[other], t.rows[other]);
    }
    if id in q.jobs {
      MirrorsStatus(q.jobs[id], t.rows[id]);
    }
  }

  /** Both report success or both an error, except that only SQLite refuses to cancel twice. */
  lemma SameReplies(q: Store, t: Table, op: Op, now: int)
    requires Related(q, t, now) && Sensible(op, now) && Possible(q, op, now)
    ensures Accepts(t, op, now) <==>
      Answer(q, op) == Done && !(op.Cancel? && q.jobs[op.id].status == Cancelled)
  {
    hide Audited, SameJobs, SameLogs, Run;
    if !op.Enqueue? && !op.Purge? {
      StepUpdate(q, t, op, now);
    }
  }

  // ----- Whole runs -----

  function TableAfter(steps: seq<Step>): Table {
    if steps == [] then NOTHING else
      var last := steps[|steps| - 1];
      Run(TableAfter(steps[..|steps| - 1]), last.op, last.now)
  }

  function Clock(steps: seq<Step>): int {
    if steps == [] then 0 else steps[|steps| - 1].now
  }

  /** The two queues, given the same operations, stay related. */
  lemma {:induction false} RunsAgree(steps: seq<Step>)
    requires Played(steps)
    requires forall k :: 0 <= k < |steps| ==> Sensible(steps[k].op, steps[k].now) && Clock(steps[..k]) <= steps[k].now
    ensures Related(After(steps), TableAfter(steps), Clock(steps))
  {
    hide Related, Apply, Run, Possible, Sensible;
    if steps == [] {
      NothingRelated();
    } else {
      var last := |steps| - 1;
      assert forall k :: 0 <= k <= last ==> steps[..last][..k] == steps[..k];
      RunsAgree(steps[..last]);
      RelatedLater(After(steps[..last]), TableAfter(steps[..last]), Clock(steps[..last]), steps[last].now);
      StepSimulates(After(steps[..last]), TableAfter(steps[..last]), steps[last].op, steps[last].now);
    }
  }

  lemma NothingRelated()
    ensures Related(EMPTY, NOTHING, 0)
  {
  }
}
