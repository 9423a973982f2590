/** Run-queue jobs, and what each queue operation does to the table of jobs and to the
    transition log. Every operation happens at one instant `now`. */
module Jobs {

  datatype JobStatus = Unset | Queued | Leased | Succeeded | Failed | DeadLettered | Cancelled

  /** Go's zero time, in nanoseconds from the Unix epoch. */
  const ZERO: int := -62135596800_000_000_000

  datatype Job = Job(
    id: string,
    workflowID: string,
    runID: string,
    requestID: string,
    status: JobStatus,
    attempts: int,
    maxAttempts: int,
    lastError: string,
    leaseOwner: string,
    leaseUntil: int,
    availableAt: int,
    replayCount: int,
    replayedBy: string,
    replayReason: string,
    replayedAt: int,
    createdAt: int,
    updatedAt: int)

  datatype Transition = Transition(from: JobStatus, to: JobStatus, reason: string, actor: string, at: int)

  datatype Store = Store(jobs: map<string, Job>, log: map<string, seq<Transition>>)

  const EMPTY := Store(map[], map[])

  datatype Reply = Done | NotFound | NotLeased | OwnerMismatch | NotCancellable | NotReplayable

  datatype Op =
    | Enqueue(job: Job)
    | Lease(id: string, worker: string, duration: int)
    | Extend(id: string, worker: string, duration: int)
    | Complete(id: string)
    | Cancel(id: string, reason: string)
    | Retry(id: string, after: int, error: string)
    | Fail(id: string, error: string)
    | DeadLetter(id: string, error: string)
    | Requeue(id: string, after: int, replayer: string, reason: string)
    | Purge(ids: set<string>)

  // ----- One job -----

  /** The defaults EnqueueRunJob fills in. */
  function Filled(job: Job, now: int): Job {
    job.(
      createdAt := if job.createdAt == ZERO then now else job.createdAt,
      updatedAt := if job.updatedAt == ZERO then now else job.updatedAt,
      availableAt := if job.availableAt == ZERO then now else job.availableAt,
      status := if job.status == Unset then Queued else job.status)
  }

  function Granted(job: Job, worker: string, duration: int, now: int): Job {
    job.(status := Leased, leaseOwner := worker, leaseUntil := now + duration, attempts := job.attempts + 1, updatedAt := now)
  }

  /** The lease is given up and the job moves on. */
  function Moved(job: Job, to: JobStatus, now: int): Job {
    job.(status := to, leaseOwner := "", leaseUntil := ZERO, updatedAt := now)
  }

  function Replayed(job: Job, after: int, replayer: string, reason: string, now: int): Job {
    Moved(job, Queued, now).(
      availableAt := now + after,
      replayCount := job.replayCount + 1,
      replayedBy := replayer,
      replayReason := reason,
      replayedAt := now)
  }

  // ----- The table -----

  predicate Claimable(job: Job, now: int) {
    || (job.status == Queued && job.availableAt <= now)
    || (job.status == Leased && job.leaseUntil != ZERO && job.leaseUntil < now)
  }

  /** A job LeaseNextRunJob may hand out: claimable, and none claimable is older. Among equally
      old ones the map order and the unstable sort decide. */
  ghost predicate MayLease(q: Store, id: string, now: int) {
    && id in q.jobs && Claimable(q.jobs[id], now)
    && forall other :: other in q.jobs && Claimable(q.jobs[other], now) ==> q.jobs[id].createdAt <= q.jobs[other].createdAt
  }

  function LogOf(q: Store, id: string): seq<Transition> {
    if id in q.log then q.log[id] else []
  }

  /** The reply to an operation on an existing job. */
  function Answer(q: Store, op: Op): Reply {
    match op
    case Enqueue(_) => Done
    case Lease(_, _, _) => Done
    case Purge(_) => Done
    case _ =>
      if op.id !in q.jobs then NotFound
      else
        var job := q.jobs[op.id];
        match op
        case Cancel(_, _) => if job.status == Succeeded then NotCancellable else Done
        case Requeue(_, _, _, _) => if job.status !in {DeadLettered, Failed} then NotReplayable else Done
        case Extend(_, worker, _) =>
          if job.status != Leased then NotLeased else if job.leaseOwner != worker then OwnerMismatch else Done
        case _ => if job.status != Leased then NotLeased else Done
  }

  /** The operation changes a job in this state. */
  predicate Takes(job: Job, op: Op) {
    match op
    case Lease(_, _, _) => true
    case Extend(_, worker, _) => job.status == Leased && job.leaseOwner == worker
    case Cancel(_, _) => job.status !in {Succeeded, Cancelled}
    case Requeue(_, _, _, _) => job.status in {DeadLettered, Failed}
    case _ => job.status == Leased
  }

  /** The job an operation leaves. */
  function Next(job: Job, op: Op, now: int): Job {
    match op
    case Enqueue(_) => job
    case Purge(_) => job
    case Lease(_, worker, duration) => Granted(job, worker, duration, now)
    case Extend(_, _, duration) => job.(leaseUntil := now + duration, updatedAt := now)
    case Complete(_) => Moved(job, Succeeded, now)
    case Cancel(_, reason) => Moved(job, Cancelled, now).(lastError := reason)
    case Retry(_, after, error) => Moved(job, Queued, now).(availableAt := now + after, lastError := error)
    case Fail(_, error) => Moved(job, Failed, now).(lastError := error)
    case DeadLetter(_, error) => Moved(job, DeadLettered, now).(lastError := error)
    case Requeue(_, after, replayer, reason) => Replayed(job, after, replayer, reason, now)
  }

  /** What an operation logs; extending a lease logs nothing. */
  function Entries(job: Job, op: Op, now: int): seq<Transition> {
    var to := Next(job, op, now).status;
    match op
    case Enqueue(_) => [Transition(Unset, to, "enqueued", "system", now)]
    case Purge(_) => []
    case Lease(_, worker, _) => [Transition(job.status, to, "leased", worker, now)]
    case Extend(_, _, _) => []
    case Complete(_) => [Transition(job.status, to, "completed", "worker", now)]
    case Cancel(_, reason) => [Transition(job.status, to, reason, "api", now)]
    case Retry(_, _, error) => [Transition(job.status, to, error, "worker", now)]
    case Fail(_, error) => [Transition(job.status, to, error, "worker", now)]
    case DeadLetter(_, error) => [Transition(job.status, to, error, "worker", now)]
    case Requeue(_, _, replayer, reason) => [Transition(job.status, to, reason, replayer, now)]
  }

  /** A job is stored and its log extended. */
  function Put(q: Store, id: string, job: Job, entries: seq<Transition>): Store {
    Store(q.jobs[id := job], if entries == [] then q.log else q.log[id := LogOf(q, id) + entries])
  }

  /** The store after an operation; refused operations change nothing. */
  function Apply(q: Store, op: Op, now: int): Store {
    match op
    case Enqueue(job) =>
      if job.id in q.jobs then q else Put(q, job.id, Filled(job, now), Entries(Filled(job, now), op, now))
    case Purge(ids) => Store(q.jobs - ids, q.log - ids)
    case _ =>
      if op.id !in q.jobs || !Takes(q.jobs[op.id], op) then q
      else Put(q, op.id, Next(q.jobs[op.id], op, now), Entries(q.jobs[op.id], op, now))
  }

  /** Each operation on a stored job, field by field: whom it changes, and to what. */
  lemma Effects(q: Store, op: Op, now: int)
    requires !op.Enqueue? && !op.Purge? && op.id in q.jobs
    ensures var job := q.jobs[op.id];
      var free := job.(leaseOwner := "", leaseUntil := ZERO, updatedAt := now);
      Apply(q, op, now).jobs == q.jobs[op.id := match op
        case Lease(_, worker, duration) =>
          job.(status := Leased, leaseOwner := worker, leaseUntil := now + duration, attempts := job.attempts + 1, updatedAt := now)
        case Extend(_, worker, duration) =>
          if job.status == Leased && job.leaseOwner == worker then job.(leaseUntil := now + duration, updatedAt := now) else job
        case Complete(_) => if job.status == Leased then free.(status := Succeeded) else job
        case Cancel(_, reason) =>
          if job.status == Succeeded || job.status == Cancelled then job else free.(status := Cancelled, lastError := reason)
        case Retry(_, after, error) =>
          if job.status == Leased then free.(status := Queued, availableAt := now + after, lastError := error) else job
        case Fail(_, error) => if job.status == Leased then free.(status := Failed, lastError := error) else job
        case DeadLetter(_, error) => if job.status == Leased then free.(status := DeadLettered, lastError := error) else job
        case Requeue(_, after, replayer, reason) =>
          if job.status == Failed || job.status == DeadLettered then
            free.(status := Queued, availableAt := now + after, replayCount := job.replayCount + 1,
                  replayedBy := replayer, replayReason := reason, replayedAt := now)
          else job]
    ensures Answer(q, op) == Done <==> match op
      case Lease(_, _, _) => true
      case Extend(_, worker, _) => q.jobs[op.id].status == Leased && q.jobs[op.id].leaseOwner == worker
      case Cancel(_, _) => q.jobs[op.id].status != Succeeded
      case Requeue(_, _, _, _) => q.jobs[op.id].status == Failed || q.jobs[op.id].status == DeadLettered
      case _ => q.jobs[op.id].status == Leased
  {
    assert q.jobs == q.jobs[op.id := q.jobs[op.id]];
  }

  /** The operation may happen now: only leasing depends on the state. */
  ghost predicate Possible(q: Store, op: Op, now: int) {
    op.Lease? ==> MayLease(q, op.id, now)
  }
}
