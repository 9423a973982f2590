/** The worker service: leasing one job, keeping the lease, and closing the session. */
module Worker {
  import opened Jobs
  import opened MemoryQueue
  import opened Sessions
  import Backoff
  import Domain

  const MILLISECOND: int := 1_000_000

  /** What an undisturbed session leaves of its job, and why. A run that failed is retried after
      one second, doubled with every attempt up to thirty; the attempts after the 34th that are
      not listed wait no time at all, because the product has wrapped around. */
  ghost predicate Concluded(job: Job, after: Job, ending: Ending, end: int) {
    && after == job.(status := after.status, leaseOwner := "", leaseUntil := ZERO, updatedAt := end,
                     lastError := after.lastError, availableAt := after.availableAt)
    && (after.status != Queued ==> after.availableAt == job.availableAt)
    && match ending
       case NoWorkflow(error) => after.status == JobStatus.Failed && after.lastError == error
       case Ran(None, RunSucceeded, _) => after.status == Succeeded && after.lastError == job.lastError
       case Ran(None, RunCancelled, error) =>
         after.status == Cancelled && after.lastError == if error == "" then "run cancelled" else error
       case Ran(failure, _, error) =>
         && after.status == (if job.attempts < job.maxAttempts then Queued else DeadLettered)
         && after.lastError == (if failure.Some? then failure.value else if error != "" then error else "run failed")
         && (after.status == Queued ==>
               if 1 <= job.attempts <= 34 || job.attempts in {38, 42, 43, 46, 48, 51, 52, 54} then
                 after.availableAt == end + Least(Backoff.Pow2(job.attempts - 1), 30) * Backoff.SECOND
               else after.availableAt <= end)
  }

  function Least(a: int, b: int): int {
    if a < b then a else b
  }

  class Service {
    const workerID: string
    const queue: MemoryRunQueue
    var pollInterval: int
    var leaseDuration: int
    var draining: bool

    constructor (workerID: string, queue: MemoryRunQueue)
      ensures this.workerID == workerID && this.queue == queue && !draining
      ensures pollInterval == 500 * MILLISECOND && leaseDuration == 30 * Backoff.SECOND
    {
      this.workerID, this.queue := workerID, queue;
      pollInterval, leaseDuration, draining := 500 * MILLISECOND, 30 * Backoff.SECOND, false;
    }

    /** A lease always has a positive length. */
    method SetPolling(poll: int, lease: int)
      requires pollInterval > 0 && leaseDuration > 0
      modifies this`pollInterval, this`leaseDuration
      ensures pollInterval == (if poll > 0 then poll else old(pollInterval)) > 0
      ensures leaseDuration == (if lease > 0 then lease else old(leaseDuration)) > 0
    {
      if poll > 0 {
        pollInterval := poll;
      }
      if lease > 0 {
        leaseDuration := lease;
      }
    }

    method Drain()
      modifies this`draining
      ensures draining
    {
      draining := true;
    }

    // Line 125.
    method Heartbeat(job: Job, now: int)
      requires queue.Valid()
      modifies queue
      ensures queue.Valid() && queue.Model() == Apply(old(queue.Model()), Extend(job.id, workerID, leaseDuration), now)
    {
      var _ := queue.ExtendRunJobLease(job.id, workerID, leaseDuration, now);
    }

    // Lines 104-108 and 164-218. The reply of the queue is ignored.
    method Close(job: Job, ending: Ending, now: int) returns (ok: bool)
      requires queue.Valid() && job.attempts >= 1
      modifies queue
      ensures queue.Valid() && queue.Model() == Apply(old(queue.Model()), Closing(job, ending), now)
      ensures ok <==> Settles(job, ending) == Succeeded
    {
      hide Apply;
      match ending {
        case NoWorkflow(error) =>
          var _ := queue.FailRunJob(job.id, error, now);
          return false;
        case Ran(failure, status, error) =>
          if failure.None? && status != Domain.RunFailed && status != Domain.RunCancelled {
            var _ := queue.CompleteRunJob(job.id, now);
            return true;
          }
          if failure.None? && status == Domain.RunCancelled {
            var message := error;
            if message == "" {
              message := "run cancelled";
            }
            var _ := queue.CancelRunJob(job.id, message, now);
            return false;
          }
          var message := "run failed";
          if failure.Some? {
            message := failure.value;
          } else if error != "" {
            message := error;
          }
          if job.attempts < job.maxAttempts {
            var backoff := Backoff.Product(job.attempts);
            if backoff > 30 * Backoff.SECOND {
              backoff := 30 * Backoff.SECOND;
            }
            var _ := queue.RetryRunJob(job.id, backoff, message, now);
            return false;
          }
          var _ := queue.DeadLetterRunJob(job.id, message, now);
          return false;
      }
    }

    /** Lines 88-219, with nobody else at the queue: heartbeats at `beats`, the run ending at `end`. */
    method ProcessOne(now: int, beats: seq<int>, ending: Ending, end: int) returns (ok: bool, leased: Domain.Option<Job>)
      requires queue.Valid() && forall id :: id in queue.jobs ==> queue.jobs[id].attempts >= 0
      modifies queue
      ensures queue.Valid()
      ensures leased.None? ==> !ok && queue.Model() == old(queue.Model())
      ensures leased.Some? ==>
        var job := leased.value;
        && job.id in old(queue.jobs) && MayLease(old(queue.Model()), job.id, now)
        && queue.jobs.Keys == old(queue.jobs.Keys) && ok == (queue.jobs[job.id].status == Succeeded)
        && job == old(queue.jobs)[job.id].(status := Leased, leaseOwner := workerID, leaseUntil := now + leaseDuration,
                                           attempts := old(queue.jobs)[job.id].attempts + 1, updatedAt := now)
        && Concluded(job, queue.jobs[job.id], ending, end)
        && (forall id :: id in old(queue.jobs) && id != job.id ==>
              queue.jobs[id] == old(queue.jobs)[id] && LogOf(queue.Model(), id) == LogOf(old(queue.Model()), id))
        && LogOf(queue.Model(), job.id) == LogOf(old(queue.Model()), job.id) +
             [Transition(old(queue.jobs)[job.id].status, Leased, "leased", workerID, now),
              Transition(Leased, queue.jobs[job.id].status,
                         if ok then "completed" else queue.jobs[job.id].lastError,
                         if queue.jobs[job.id].status == Cancelled then "api" else "worker", end)]
    {
      hide Apply, Next, Entries, MayLease;
      leased := queue.LeaseNextRunJob(workerID, leaseDuration, now);
      if leased.None? {
        return false, leased;
      }
      var job := leased.value;
      LeaseEffect(old(queue.Model()), job.id, workerID, leaseDuration, now);
      ghost var begun := queue.Model();
      var i := 0;
      while i < |beats|
        invariant 0 <= i <= |beats| && queue.Valid()
        invariant Carried(begun, queue.Model(), job)
      {
        ExtendCarries(begun, queue.Model(), job, workerID, leaseDuration, beats[i]);
        Heartbeat(job, beats[i]);
        i := i + 1;
      }
      CloseEffect(begun, queue.Model(), job, ending, end);
      CloseMeans(job, ending, end);
      ok := Close(job, ending, end);
    }
  }

  /** The operation a session closes with, by what it leaves. */
  lemma CloseMeans(job: Job, ending: Ending, end: int)
    requires job.attempts >= 1 && job.status == Leased
    ensures var after := Next(job, Closing(job, ending), end);
      && Concluded(job, after, ending, end) && (Settles(job, ending) == Succeeded <==> after.status == Succeeded)
      && Entries(job, Closing(job, ending), end) ==
           [Transition(Leased, after.status, if after.status == Succeeded then "completed" else after.lastError,
                       if after.status == Cancelled then "api" else "worker", end)]
  {
    hide Backoff.Delay, Backoff.Intended, Backoff.Pow2;
    if ending.Ran? && Closing(job, ending).Retry? {
      WaitIntended(job.attempts);
    }
  }

  lemma WaitIntended(attempts: int)
    requires attempts >= 1
    ensures if attempts <= 34 || attempts in {38, 42, 43, 46, 48, 51, 52, 54}
            then Wait(attempts) == Least(Backoff.Pow2(attempts - 1), 30) * Backoff.SECOND else Wait(attempts) <= 0
  {
    hide Backoff.Delay, Backoff.Pow2;
    Backoff.DelayAsIntended(attempts);
  }

  lemma LeaseEffect(q: Store, id: string, worker: string, duration: int, now: int)
    requires MayLease(q, id, now) && Keyed(q.jobs)
    ensures var next := Apply(q, Lease(id, worker, duration), now);
      && next.jobs == q.jobs[id := next.jobs[id]]
      && next.jobs[id] == q.jobs[id].(status := Leased, leaseOwner := worker, leaseUntil := now + duration,
                                      attempts := q.jobs[id].attempts + 1, updatedAt := now)
      && id in q.jobs && next.jobs[id].id == id
      && (forall other :: other != id ==> LogOf(next, other) == LogOf(q, other))
      && LogOf(next, id) == LogOf(q, id) + [Transition(q.jobs[id].status, Leased, "leased", worker, now)]
  {
  }

  /** Since the lease, only the lease's end and the update time have moved. */
  ghost predicate Carried(begun: Store, q: Store, job: Job) {
    && job.id in begun.jobs && begun.jobs[job.id] == job && job.status == Leased
    && job.id in q.jobs && q.log == begun.log
    && q.jobs == begun.jobs[job.id := job.(leaseUntil := q.jobs[job.id].leaseUntil, updatedAt := q.jobs[job.id].updatedAt)]
  }

  lemma ExtendCarries(begun: Store, q: Store, job: Job, worker: string, duration: int, now: int)
    requires Carried(begun, q, job)
    ensures Carried(begun, Apply(q, Extend(job.id, worker, duration), now), job)
  {
  }

  /** The close forgets what the heartbeats moved. */
  lemma CloseForgets(job: Job, until: int, at: int, ending: Ending, now: int)
    requires job.status == Leased
    ensures var op := Closing(job, ending); var moved := job.(leaseUntil := until, updatedAt := at);
      && op.id == job.id && !op.Enqueue? && !op.Purge? && Takes(moved, op)
      && Next(moved, op, now) == Next(job, op, now) && Entries(moved, op, now) == Entries(job, op, now) != []
      && Next(job, op, now).status == Settles(job, ending) && Next(job, op, now).leaseOwner == ""
  {
    hide Wait;
  }

  lemma CloseEffect(begun: Store, q: Store, job: Job, ending: Ending, now: int)
    requires Carried(begun, q, job)
    ensures var op := Closing(job, ending); var next := Apply(q, op, now);
      && next.jobs == begun.jobs[job.id := Next(job, op, now)]
      && Next(job, op, now).status == Settles(job, ending) && Next(job, op, now).leaseOwner == ""
      && (forall other :: other != job.id ==> LogOf(next, other) == LogOf(begun, other))
      && LogOf(next, job.id) == LogOf(begun, job.id) + Entries(job, op, now)
  {
    hide Closing, Settles, Next, Entries, Takes;
    CloseForgets(job, q.jobs[job.id].leaseUntil, q.jobs[job.id].updatedAt, ending, now);
  }
}
