/** The loops of the API server that read a whole listing page by page. */
module Paging {
  import opened Jobs
  import opened MemoryQueue
  import opened Ordering
  import Domain

  /** A listing has as many jobs as the filtered count reports. */
  lemma {:induction false} ListingLength(jobs: map<string, Job>, keep: Job -> bool, key: Job -> Key, items: seq<Job>)
    requires Listing(jobs, keep, key, items) && Keyed(jobs)
    ensures |items| == |Kept(jobs, keep)|
  {
    hide Precedes;
    forall i, j | 0 <= i < j < |items| ensures items[i].id != items[j].id {
      PrecedesTotal(Upward, key(items[i]), key(items[i]));
      assert items[i] in items && items[j] in items;
    }
    CountDistinct(items);
    assert Ids(items) == Kept(jobs, keep) by {
      forall id | id in Kept(jobs, keep) ensures id in Ids(items) {
        assert jobs[id] in items;
      }
    }
  }

  lemma {:induction false} CountDistinct(items: seq<Job>)
    requires forall i, j :: 0 <= i < j < |items| ==> items[i].id != items[j].id
    ensures |Ids(items)| == |items|
  {
    if items == [] {
      IdsNone();
    } else {
      var last := |items| - 1;
      CountDistinct(items[..last]);
      assert items == items[..last] + [items[last]];
      IdsSnoc(items[..last], items[last]);
      assert forall job :: job in items[..last] ==> job.id != items[last].id;
    }
  }

  /** Reading on from `offset` extends what has been read, and a short page is the last. */
  lemma PageExtends<T>(items: seq<T>, size: int, offset: int)
    requires 0 < size && 0 <= offset <= |items|
    ensures var page := Page(items, size, offset);
      && offset + |page| <= |items| && items[..offset] + page == items[..offset + |page|]
      && (|page| < size ==> offset + |page| == |items|)
  {
  }

  // Lines 1403-1424.
  method ListAllRunJobsPaged(queue: MemoryRunQueue, status: JobStatus, pageSize: int) returns (all: seq<Job>)
    requires queue.Valid()
    ensures Listing(queue.jobs, ByStatus(status).Keeps, CreationKey, all)
    ensures |all| == |Kept(queue.jobs, ByStatus(status).Keeps)| && OldestFirst(all)
  {
    hide Listing, Page, Kept, OldestFirst;
    var size := if pageSize <= 0 then 500 else pageSize;
    var offset := 0;
    ghost var keep := ByStatus(status).Keeps;
    ghost var full: seq<Job>;
    all := [];
    var items;
    items, full := queue.ListRunJobs(status, size, offset);
    ListingLength(queue.jobs, keep, CreationKey, full);
    ListedOldestFirst(queue.jobs, keep, full);
    while items != []
      invariant Listing(queue.jobs, keep, CreationKey, full)
      invariant 0 <= offset <= |full| && all == full[..offset] && items == Page(full, size, offset)
      decreases |full| - offset
    {
      PageExtends(full, size, offset);
      all := all + items;
      offset := offset + |items|;
      if |items| < size {
        assert full[..offset] == full;
        return;
      }
      ghost var again;
      items, again := queue.ListRunJobs(status, size, offset);
      ListingUnique(queue.jobs, keep, CreationKey, again, full);
    }
    PageExtends(full, size, offset);
    assert full[..offset] == full;
  }

  predicate OfRun(job: Job, runID: string) {
    job.runID == runID
  }

  // Lines 1065-1081.
  method JobsOfRun(queue: MemoryRunQueue, runID: string) returns (jobs: seq<Job>)
    requires queue.Valid()
    ensures Listing(queue.jobs, (job: Job) => OfRun(job, runID), CreationKey, jobs) && OldestFirst(jobs)
    ensures forall job :: job in jobs <==> job.id in queue.jobs && queue.jobs[job.id] == job && job.runID == runID
  {
    hide Page, OldestFirst, SortedBy;
    ghost var keep := (job: Job) => OfRun(job, runID);
    ghost var full: seq<Job>;
    var offset := 0;
    jobs := [];
    var batch;
    batch, full := queue.ListRunJobsByRun(runID, 500, offset);
    SameListing(queue.jobs, (job: Job) => job.runID == runID, keep, full);
    ListedOldestFirst(queue.jobs, keep, full);
    while batch != []
      invariant Listing(queue.jobs, keep, CreationKey, full)
      invariant 0 <= offset <= |full| && jobs == full[..offset] && batch == Page(full, 500, offset)
      decreases |full| - offset
    {
      PageExtends(full, 500, offset);
      jobs := jobs + batch;
      offset := offset + |batch|;
      if |batch| < 500 {
        assert full[..offset] == full;
        return;
      }
      ghost var again;
      batch, again := queue.ListRunJobsByRun(runID, 500, offset);
      SameListing(queue.jobs, (job: Job) => job.runID == runID, keep, again);
      ListingUnique(queue.jobs, keep, CreationKey, again, full);
    }
    PageExtends(full, 500, offset);
    assert full[..offset] == full;
  }

  lemma SameListing(jobs: map<string, Job>, one: Job -> bool, other: Job -> bool, items: seq<Job>)
    requires Listing(jobs, one, CreationKey, items) && forall job :: one(job) == other(job)
    ensures Listing(jobs, other, CreationKey, items)
  {
  }

  // ----- Cancelling a whole run -----

  /** What cancelling a run does to one job: a job of the run that can still be cancelled is. */
  function Stopped(job: Job, runID: string, reason: string, now: int): Job {
    if OfRun(job, runID) && job.status !in {Succeeded, Cancelled} then Moved(job, Cancelled, now).(lastError := reason) else job
  }

  /** The jobs of `ids` are stopped, the others untouched; exactly the stopped ones get a log entry. */
  ghost predicate StoppedAmong(before: Store, after: Store, ids: set<string>, runID: string, reason: string, now: int) {
    && after.jobs.Keys == before.jobs.Keys
    && (forall id :: id in before.jobs ==>
         && after.jobs[id] == (if id in ids then Stopped(before.jobs[id], runID, reason, now) else before.jobs[id])
         && LogOf(after, id) == LogOf(before, id) +
            if after.jobs[id] == before.jobs[id] then [] else [Transition(before.jobs[id].status, Cancelled, reason, "api", now)])
  }

  /** Cancelling one job of the run stops it and touches no other. */
  lemma CancelStops(q: Store, id: string, runID: string, reason: string, now: int)
    requires id in q.jobs && OfRun(q.jobs[id], runID)
    ensures var next := Apply(q, Cancel(id, reason), now);
      && next.jobs == q.jobs[id := Stopped(q.jobs[id], runID, reason, now)]
      && (forall other :: other != id ==> LogOf(next, other) == LogOf(q, other))
      && LogOf(next, id) == LogOf(q, id) +
           if next.jobs[id] == q.jobs[id] then [] else [Transition(q.jobs[id].status, Cancelled, reason, "api", now)]
  {
    var job := q.jobs[id];
    if job.status in {Succeeded, Cancelled} {
      assert q.jobs[id := job] == q.jobs;
    }
  }

  lemma StopOne(before: Store, after: Store, ids: set<string>, id: string, runID: string, reason: string, now: int)
    requires StoppedAmong(before, after, ids, runID, reason, now) && id in before.jobs && id !in ids && OfRun(before.jobs[id], runID)
    ensures StoppedAmong(before, Apply(after, Cancel(id, reason), now), ids + {id}, runID, reason, now)
  {
    hide Apply, Stopped, LogOf;
    CancelStops(after, id, runID, reason, now);
  }

  lemma StoppedNone(before: Store, runID: string, reason: string, now: int)
    ensures StoppedAmong(before, before, {}, runID, reason, now) && Survivors([], runID, reason, now) == []
  {
  }

  /** What is known of one job. */
  lemma StoppedAt(before: Store, after: Store, ids: set<string>, id: string, runID: string, reason: string, now: int)
    requires StoppedAmong(before, after, ids, runID, reason, now) && id in before.jobs
    ensures id in after.jobs
    ensures after.jobs[id] == if id in ids then Stopped(before.jobs[id], runID, reason, now) else before.jobs[id]
  {
  }

  /** Once every job of the run has been visited, every job has the state it should have. */
  lemma StoppedAll(before: Store, after: Store, jobs: seq<Job>, runID: string, reason: string, now: int)
    requires Listing(before.jobs, (job: Job) => OfRun(job, runID), CreationKey, jobs) && Keyed(before.jobs)
    requires StoppedAmong(before, after, Ids(jobs), runID, reason, now)
    ensures StoppedAmong(before, after, before.jobs.Keys, runID, reason, now)
  {
    forall id | id in before.jobs && id !in Ids(jobs) ensures Stopped(before.jobs[id], runID, reason, now) == before.jobs[id] {
      assert before.jobs[id] !in jobs;
    }
  }

  lemma DistinctIds(jobs: seq<Job>, i: nat)
    requires i < |jobs| && SortedBy(Upward, jobs, CreationKey) && forall j, k :: 0 <= j < k < |jobs| && jobs[j].id == jobs[k].id ==> jobs[j] == jobs[k]
    ensures jobs[i].id !in Ids(jobs[..i])
  {
    hide Precedes;
    PrecedesTotal(Upward, CreationKey(jobs[i]), CreationKey(jobs[i]));
  }

  /** The jobs the response lists, when these jobs of the run have been visited. */
  function Survivors(jobs: seq<Job>, runID: string, reason: string, now: int): seq<Job> {
    if jobs == [] then [] else
      var last := jobs[|jobs| - 1];
      Survivors(jobs[..|jobs| - 1], runID, reason, now) + if last.status == Succeeded then [] else [Stopped(last, runID, reason, now)]
  }

  lemma SurvivorsSnoc(jobs: seq<Job>, job: Job, runID: string, reason: string, now: int)
    ensures Survivors(jobs + [job], runID, reason, now) ==
      Survivors(jobs, runID, reason, now) + if job.status == Succeeded then [] else [Stopped(job, runID, reason, now)]
  {
    assert (jobs + [job])[..|jobs|] == jobs;
  }

  lemma {:induction false} SurvivorsAre(jobs: seq<Job>, runID: string, reason: string, now: int)
    ensures forall k :: 0 <= k < |jobs| && jobs[k].status != Succeeded ==>
      Stopped(jobs[k], runID, reason, now) in Survivors(jobs, runID, reason, now)
    ensures forall job :: job in Survivors(jobs, runID, reason, now) ==>
      exists k :: 0 <= k < |jobs| && jobs[k].status != Succeeded && job == Stopped(jobs[k], runID, reason, now)
  {
    hide Stopped;
    if jobs != [] {
      SurvivorsAre(jobs[..|jobs| - 1], runID, reason, now);
    }
  }

  lemma {:induction false} SurvivorsSorted(jobs: seq<Job>, runID: string, reason: string, now: int)
    requires SortedBy(Upward, jobs, CreationKey)
    ensures SortedBy(Upward, Survivors(jobs, runID, reason, now), CreationKey)
  {
    hide Precedes;
    if jobs != [] {
      var rest := jobs[..|jobs| - 1];
      SurvivorsSorted(rest, runID, reason, now);
      SurvivorsAre(rest, runID, reason, now);
      var earlier := Survivors(rest, runID, reason, now);
      forall i | 0 <= i < |earlier| ensures Precedes(Upward, CreationKey(earlier[i]), CreationKey(jobs[|jobs| - 1])) {
        assert earlier[i] in earlier;
      }
    }
  }

  lemma StoppedFacts(job: Job, runID: string, reason: string, now: int)
    ensures var stopped := Stopped(job, runID, reason, now);
      && stopped.id == job.id && (OfRun(stopped, runID) <==> OfRun(job, runID))
      && (OfRun(job, runID) ==> stopped.status == if job.status == Succeeded then Succeeded else Cancelled)
  {
  }

  lemma SurvivorsListed(before: Store, after: Store, jobs: seq<Job>, runID: string, reason: string, now: int)
    requires Listing(before.jobs, (job: Job) => OfRun(job, runID), CreationKey, jobs) && Keyed(before.jobs)
    requires StoppedAmong(before, after, before.jobs.Keys, runID, reason, now)
    ensures Listing(after.jobs, job => OfRun(job, runID) && job.status == Cancelled, CreationKey, Survivors(jobs, runID, reason, now))
  {
    hide SortedBy, StoppedAmong, Stopped, OfRun, Survivors;
    SurvivorsSorted(jobs, runID, reason, now);
    SurvivorsAre(jobs, runID, reason, now);
    var listed := Survivors(jobs, runID, reason, now);
    forall job | job in listed
      ensures job.id in after.jobs && after.jobs[job.id] == job && OfRun(job, runID) && job.status == Cancelled
    {
      var k :| 0 <= k < |jobs| && jobs[k].status != Succeeded && job == Stopped(jobs[k], runID, reason, now);
      assert jobs[k] in jobs;
      StoppedFacts(jobs[k], runID, reason, now);
      StoppedAt(before, after, before.jobs.Keys, job.id, runID, reason, now);
    }
    StoppedKeys(before, after, before.jobs.Keys, runID, reason, now);
    forall id | id in before.jobs
      ensures OfRun(after.jobs[id], runID) && after.jobs[id].status == Cancelled ==> after.jobs[id] in listed && after.jobs[id].id == id
    {
      StoppedFacts(before.jobs[id], runID, reason, now);
      StoppedAt(before, after, before.jobs.Keys, id, runID, reason, now);
      assert OfRun(before.jobs[id], runID) ==> before.jobs[id] in jobs;
    }
  }

  lemma StoppedKeys(before: Store, after: Store, ids: set<string>, runID: string, reason: string, now: int)
    requires StoppedAmong(before, after, ids, runID, reason, now)
    ensures after.jobs.Keys == before.jobs.Keys
  {
  }

  // Lines 1082-1094, after the pages have been collected.
  method CancelRun(queue: MemoryRunQueue, runID: string, reason: string, now: int) returns (cancelled: seq<Job>)
    requires queue.Valid()
    modifies queue
    ensures queue.Valid()
    ensures queue.jobs.Keys == old(queue.jobs.Keys)
    ensures forall id :: id in queue.jobs ==>
      var was, log := old(queue.jobs)[id], LogOf(old(queue.Model()), id);
      if was.runID == runID && was.status != Succeeded && was.status != Cancelled then
        && queue.jobs[id] == was.(status := Cancelled, lastError := reason, leaseOwner := "", leaseUntil := ZERO, updatedAt := now)
        && LogOf(queue.Model(), id) == log + [Transition(was.status, Cancelled, reason, "api", now)]
      else queue.jobs[id] == was && LogOf(queue.Model(), id) == log
    ensures OldestFirst(cancelled)
    ensures forall job :: job in cancelled <==>
      job.id in queue.jobs && queue.jobs[job.id] == job && job.runID == runID && job.status == Cancelled
  {
    hide StoppedAmong, Precedes, OfRun, Apply, SortedBy, Stopped, Survivors, Ids;
    var jobs := JobsOfRun(queue, runID);
    ghost var before := queue.Model();
    cancelled := [];
    var i := 0;
    StoppedNone(before, runID, reason, now);
    assert jobs[..0] == [];
    IdsNone();
    while i < |jobs|
      invariant 0 <= i <= |jobs| && queue.Valid()
      invariant StoppedAmong(before, queue.Model(), Ids(jobs[..i]), runID, reason, now)
      invariant cancelled == Survivors(jobs[..i], runID, reason, now)
    {
      var job := jobs[i];
      assert job in jobs;
      assert jobs[..i + 1] == jobs[..i] + [job];
      IdsSnoc(jobs[..i], job);
      DistinctIds(jobs, i);
      StopOne(before, queue.Model(), Ids(jobs[..i]), job.id, runID, reason, now);
      StoppedAt(before, queue.Model(), Ids(jobs[..i]), job.id, runID, reason, now);
      StoppedFacts(job, runID, reason, now);
      var reply := queue.CancelRunJob(job.id, reason, now);
      StoppedAt(before, queue.Model(), Ids(jobs[..i + 1]), job.id, runID, reason, now);
      SurvivorsSnoc(jobs[..i], job, runID, reason, now);
      if reply == Done {
        var updated := queue.GetRunJob(job.id);
        if updated.Some? {
          cancelled := cancelled + [updated.value];
        }
      }
      i := i + 1;
    }
    assert jobs[..i] == jobs;
    StoppedAll(before, queue.Model(), jobs, runID, reason, now);
    SurvivorsListed(before, queue.Model(), jobs, runID, reason, now);
    StoppedMeans(before, queue.Model(), runID, reason, now);
    ListedOldestFirst(queue.jobs, job => OfRun(job, runID) && job.status == Cancelled, cancelled);
    CancelledOfRun(queue.jobs, runID, cancelled);
  }

  /** What cancelling a run leaves of each job and its log. */
  lemma StoppedMeans(before: Store, after: Store, runID: string, reason: string, now: int)
    requires StoppedAmong(before, after, before.jobs.Keys, runID, reason, now)
    ensures after.jobs.Keys == before.jobs.Keys
    ensures forall id :: id in before.jobs ==>
      var was, log := before.jobs[id], LogOf(before, id);
      if was.runID == runID && was.status != Succeeded && was.status != Cancelled then
        && after.jobs[id] == was.(status := Cancelled, lastError := reason, leaseOwner := "", leaseUntil := ZERO, updatedAt := now)
        && LogOf(after, id) == log + [Transition(was.status, Cancelled, reason, "api", now)]
      else after.jobs[id] == was && LogOf(after, id) == log
  {
    hide LogOf;
    forall id | id in before.jobs && after.jobs[id] == before.jobs[id] ensures LogOf(after, id) == LogOf(before, id) {
      assert LogOf(before, id) + [] == LogOf(before, id);
    }
  }

  lemma CancelledOfRun(jobs: map<string, Job>, runID: string, cancelled: seq<Job>)
    requires Listing(jobs, job => OfRun(job, runID) && job.status == Cancelled, CreationKey, cancelled)
    ensures forall job :: job in cancelled <==> job.id in jobs && jobs[job.id] == job && job.runID == runID && job.status == Cancelled
  {
  }
}
