/** The run queue of SQLiteStore: rows changed by guarded updates, and a log table. */
module Sqlite {
  import opened Backoff
  import opened Jobs
  import Domain

  /** The integer a time column holds. Go's zero time does not fit, and wraps. */
  function UnixNano(t: int): int {
    Wrap64(t)
  }

  predicate Fits(t: int) {
    -TWO_TO_THE_63 <= t < TWO_TO_THE_63
  }

  datatype LogRow = LogRow(jobID: string, entry: Transition)

  datatype Table = Table(rows: map<string, Job>, log: seq<LogRow>)

  const NOTHING := Table(map[], [])

  /** The defaults of EnqueueRunJob. */
  function Prepared(job: Job, now: int): Job {
    Filled(job, now).(maxAttempts := if job.maxAttempts <= 0 then 5 else job.maxAttempts)
  }

  /** The row inserted for a job. */
  function Stored(job: Job): Job {
    job.(leaseUntil := UnixNano(job.leaseUntil), availableAt := UnixNano(job.availableAt), replayedAt := UnixNano(job.replayedAt),
         createdAt := UnixNano(job.createdAt), updatedAt := UnixNano(job.updatedAt))
  }

  /** The WHERE clause of an operation's UPDATE, beside the ID. */
  predicate Guard(row: Job, op: Op, now: int) {
    match op
    case Enqueue(_) => false
    case Purge(_) => false
    case Lease(_, _, _) => row.status == Queued || (row.status == Leased && row.leaseUntil < now)
    case Extend(_, worker, _) => row.status == Leased && row.leaseOwner == worker
    case Cancel(_, _) => row.status in {Queued, Failed, DeadLettered, Leased}
    case Requeue(_, _, _, _) => row.status in {DeadLettered, Failed}
    case _ => row.status == Leased
  }

  /** The SET clause of an operation's UPDATE. */
  function Update(row: Job, op: Op, now: int): Job {
    match op
    case Enqueue(_) => row
    case Purge(_) => row
    case Lease(_, worker, duration) =>
      row.(status := Leased, leaseOwner := worker, leaseUntil := UnixNano(now + duration), attempts := row.attempts + 1, updatedAt := now)
    case Extend(_, _, duration) => row.(leaseUntil := UnixNano(now + duration), updatedAt := now)
    case Complete(_) => row.(status := Succeeded, leaseOwner := "", leaseUntil := 0, updatedAt := now)
    case Cancel(_, reason) => row.(status := Cancelled, lastError := reason, leaseOwner := "", leaseUntil := 0, updatedAt := now)
    case Retry(_, after, error) =>
      row.(status := Queued, availableAt := UnixNano(now + after), leaseOwner := "", leaseUntil := 0, lastError := error, updatedAt := now)
    case Fail(_, error) => row.(status := Failed, leaseOwner := "", leaseUntil := 0, lastError := error, updatedAt := now)
    case DeadLetter(_, error) => row.(status := DeadLettered, leaseOwner := "", leaseUntil := 0, lastError := error, updatedAt := now)
    case Requeue(_, after, replayer, reason) =>
      row.(status := Queued, availableAt := UnixNano(now + after), leaseOwner := "", leaseUntil := 0,
           replayCount := row.replayCount + 1, replayedBy := replayer, replayReason := reason, replayedAt := now, updatedAt := now)
  }

  /** What an operation inserts into the log table, given the row it read. */
  function LogEntries(row: Job, op: Op, now: int): seq<LogRow> {
    match op
    case Enqueue(_) => []
    case Purge(_) => []
    case Lease(id, worker, _) => [LogRow(id, Transition(row.status, Leased, "leased", worker, now))]
    case Extend(_, _, _) => []
    case Complete(id) => [LogRow(id, Transition(row.status, Succeeded, "completed", "worker", now))]
    case Cancel(id, reason) => [LogRow(id, Transition(row.status, Cancelled, reason, "api", now))]
    case Retry(id, _, error) => [LogRow(id, Transition(row.status, Queued, error, "worker", now))]
    case Fail(id, error) => [LogRow(id, Transition(row.status, Failed, error, "worker", now))]
    case DeadLetter(id, error) => [LogRow(id, Transition(row.status, DeadLettered, error, "worker", now))]
    case Requeue(id, _, replayer, reason) => [LogRow(id, Transition(row.status, Queued, reason, replayer, now))]
  }

  function Without(log: seq<LogRow>, ids: set<string>): seq<LogRow> {
    if log == [] then [] else
      var last := log[|log| - 1];
      Without(log[..|log| - 1], ids) + if last.jobID in ids then [] else [last]
  }

  /** The table after an operation. A purge of rows takes their log rows along. */
  function Run(t: Table, op: Op, now: int): Table {
    match op
    case Enqueue(job) =>
      if job.id == "" then t
      else Table(if job.id in t.rows then t.rows else t.rows[job.id := Stored(Prepared(job, now))],
                 t.log + [LogRow(job.id, Transition(Unset, Prepared(job, now).status, "enqueued", "system", now))])
    case Purge(ids) => Table(t.rows - ids, Without(t.log, ids))
    case _ =>
      if op.id in t.rows && Guard(t.rows[op.id], op, now)
      then Table(t.rows[op.id := Update(t.rows[op.id], op, now)], t.log + LogEntries(t.rows[op.id], op, now))
      else t
  }

  /** The operation reports no error. */
  predicate Accepts(t: Table, op: Op, now: int) {
    match op
    case Enqueue(job) => job.id != ""
    case Purge(_) => true
    case _ => op.id in t.rows && Guard(t.rows[op.id], op, now)
  }

  /** The WHERE clause that looks for a job to lease also asks for availability. */
  predicate Selectable(row: Job, now: int) {
    (row.status == Queued || (row.status == Leased && row.leaseUntil < now)) && row.availableAt <= now
  }

  ghost predicate MaySelect(t: Table, id: string, now: int) {
    && id in t.rows && Selectable(t.rows[id], now)
    && forall other :: other in t.rows && Selectable(t.rows[other], now) ==> t.rows[id].createdAt <= t.rows[other].createdAt
  }

  // ----- The store -----

  class SQLiteStore {
    var rows: map<string, Job>
    var log: seq<LogRow>

    ghost function Model(): Table reads this {
      Table(rows, log)
    }

    constructor ()
      ensures Model() == NOTHING
    {
      rows, log := map[], [];
    }

    method AppendTransition(id: string, from: JobStatus, to: JobStatus, reason: string, actor: string, now: int)
      modifies this`log
      ensures log == old(log) + [LogRow(id, Transition(from, to, reason, actor, now))]
    {
      log := log + [LogRow(id, Transition(from, to, reason, actor, now))];
    }

    // Lines 442-493.
    method EnqueueRunJob(submitted: Job, now: int) returns (ok: bool)
      modifies this
      ensures Model() == Run(old(Model()), Enqueue(submitted), now) && ok == Accepts(old(Model()), Enqueue(submitted), now)
      ensures ok <==> submitted.id != ""
      ensures ok && submitted.id in old(rows) ==> rows == old(rows)
      ensures ok ==> submitted.id in rows
      ensures ok && submitted.id !in old(rows) ==>
        rows[submitted.id].maxAttempts == (if submitted.maxAttempts <= 0 then 5 else submitted.maxAttempts)
    {
      var job := submitted;
      if job.id == "" {
        return false;
      }
      if job.status == Unset {
        job := job.(status := Queued);
      }
      if job.createdAt == ZERO {
        job := job.(createdAt := now);
      }
      if job.updatedAt == ZERO {
        job := job.(updatedAt := now);
      }
      if job.availableAt == ZERO {
        job := job.(availableAt := now);
      }
      if job.maxAttempts <= 0 {
        job := job.(maxAttempts := 5);
      }
      if job.id !in rows {
        rows := rows[job.id := Stored(job)];
      }
      AppendTransition(job.id, Unset, job.status, "enqueued", "system", now);
      ok := true;
    }

    /** SELECT … ORDER BY created_at LIMIT 1. */
    method SelectNext(now: int) returns (found: Domain.Option<string>)
      ensures found.Some? ==> MaySelect(Model(), found.value, now)
      ensures found.None? ==> forall id :: id in rows ==> !Selectable(rows[id], now)
    {
      found := Domain.None;
      var left := rows.Keys;
      while left != {}
        invariant left <= rows.Keys
        invariant found.None? ==> forall id :: id in rows && id !in left ==> !Selectable(rows[id], now)
        invariant found.Some? ==> found.value in rows && Selectable(rows[found.value], now)
        invariant found.Some? ==>
          forall id :: id in rows && id !in left && Selectable(rows[id], now) ==> rows[found.value].createdAt <= rows[id].createdAt
      {
        var id :| id in left;
        left := left - {id};
        if Selectable(rows[id], now) && (found.None? || rows[id].createdAt < rows[found.value].createdAt) {
          found := Domain.Some(id);
        }
      }
    }

    // Lines 505-551, in one transaction.
    method LeaseNextRunJob(worker: string, duration: int, now: int) returns (leased: Domain.Option<Job>)
      requires forall id :: id in rows ==> rows[id].id == id
      modifies this
      ensures leased.None? ==> Model() == old(Model()) && forall id :: id in rows ==> !Selectable(rows[id], now)
      ensures leased.Some? ==>
        var id := leased.value.id;
        && MaySelect(old(Model()), id, now) && Model() == Run(old(Model()), Lease(id, worker, duration), now)
        && rows[id] == leased.value
    {
      var found := SelectNext(now);
      if found.None? {
        return Domain.None;
      }
      var id := found.value;
      var job := rows[id];
      if !(job.status == Queued || (job.status == Leased && job.leaseUntil < now)) {
        assert false; // "lease lost" cannot happen inside the transaction
      }
      var until := UnixNano(now + duration);
      rows := rows[id := job.(status := Leased, leaseOwner := worker, leaseUntil := until, attempts := job.attempts + 1, updatedAt := now)];
      AppendTransition(id, job.status, Leased, "leased", worker, now);
      leased := Domain.Some(rows[id]);
    }

    // Lines 553-565.
    method ExtendRunJobLease(id: string, worker: string, duration: int, now: int) returns (ok: bool)
      modifies this
      ensures Model() == Run(old(Model()), Extend(id, worker, duration), now)
      ensures ok == Accepts(old(Model()), Extend(id, worker, duration), now)
    {
      ok := id in rows && rows[id].status == Leased && rows[id].leaseOwner == worker;
      if ok {
        rows := rows[id := rows[id].(leaseUntil := UnixNano(now + duration), updatedAt := now)];
      }
    }

    // Lines 567-584.
    method CompleteRunJob(id: string, now: int) returns (ok: bool)
      modifies this
      ensures Model() == Run(old(Model()), Complete(id), now) && ok == Accepts(old(Model()), Complete(id), now)
    {
      if id !in rows {
        return false;
      }
      var job := rows[id];
      if !(job.status == Leased) {
        return false;
      }
      rows := rows[id := job.(status := Succeeded, leaseOwner := "", leaseUntil := 0, updatedAt := now)];
      AppendTransition(id, job.status, Succeeded, "completed", "worker", now);
      ok := true;
    }

    // Lines 586-605.
    method CancelRunJob(id: string, reason: string, now: int) returns (ok: bool)
      modifies this
      ensures Model() == Run(old(Model()), Cancel(id, reason), now) && ok == Accepts(old(Model()), Cancel(id, reason), now)
    {
      if id !in rows {
        return false;
      }
      var job := rows[id];
      if !(job.status in {Queued, Failed, DeadLettered, Leased}) {
        return false;
      }
      rows := rows[id := job.(status := Cancelled, lastError := reason, leaseOwner := "", leaseUntil := 0, updatedAt := now)];
      AppendTransition(id, job.status, Cancelled, reason, "api", now);
      ok := true;
    }

    // Lines 607-625.
    method RetryRunJob(id: string, after: int, error: string, now: int) returns (ok: bool)
      modifies this
      ensures Model() == Run(old(Model()), Retry(id, after, error), now) && ok == Accepts(old(Model()), Retry(id, after, error), now)
    {
      if id !in rows {
        return false;
      }
      var job := rows[id];
      if !(job.status == Leased) {
        return false;
      }
      rows := rows[id := job.(status := Queued, availableAt := UnixNano(now + after), leaseOwner := "", leaseUntil := 0, lastError := error,
                                     updatedAt := now)];
      AppendTransition(id, job.status, Queued, error, "worker", now);
      ok := true;
    }

    // Lines 627-644.
    method FailRunJob(id: string, error: string, now: int) returns (ok: bool)
      modifies this
      ensures Model() == Run(old(Model()), Fail(id, error), now) && ok == Accepts(old(Model()), Fail(id, error), now)
    {
      if id !in rows {
        return false;
      }
      var job := rows[id];
      if !(job.status == Leased) {
        return false;
      }
      rows := rows[id := job.(status := Failed, leaseOwner := "", leaseUntil := 0, lastError := error, updatedAt := now)];
      AppendTransition(id, job.status, Failed, error, "worker", now);
      ok := true;
    }

    // Lines 646-663.
    method DeadLetterRunJob(id: string, error: string, now: int) returns (ok: bool)
      modifies this
      ensures Model() == Run(old(Model()), DeadLetter(id, error), now) && ok == Accepts(old(Model()), DeadLetter(id, error), now)
    {
      if id !in rows {
        return false;
      }
      var job := rows[id];
      if !(job.status == Leased) {
        return false;
      }
      rows := rows[id := job.(status := DeadLettered, leaseOwner := "", leaseUntil := 0, lastError := error, updatedAt := now)];
      AppendTransition(id, job.status, DeadLettered, error, "worker", now);
      ok := true;
    }

    // Lines 665-684.
    method RequeueRunJob(id: string, after: int, replayer: string, reason: string, now: int) returns (ok: bool)
      modifies this
      ensures Model() == Run(old(Model()), Requeue(id, after, replayer, reason), now) && ok == Accepts(old(Model()), Requeue(id, after, replayer, reason), now)
    {
      if id !in rows {
        return false;
      }
      var job := rows[id];
      if !(job.status in {DeadLettered, Failed}) {
        return false;
      }
      rows := rows[id := job.(status := Queued, availableAt := UnixNano(now + after), leaseOwner := "", leaseUntil := 0,
                                     replayCount := job.replayCount + 1, replayedBy := replayer, replayReason := reason, replayedAt := now,
                                     updatedAt := now)];
      AppendTransition(id, job.status, Queued, reason, replayer, now);
      ok := true;
    }
  }
}
