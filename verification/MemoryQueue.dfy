/** MemoryRunQueue: the in-memory run queue, one method per queue operation. */
module MemoryQueue {
  import opened Jobs
  import Domain
  import opened Ordering

  function CreationKey(job: Job): Key {
    Key(job.createdAt, job.id)
  }

  function UpdateKey(job: Job): Key {
    Key(job.updatedAt, job.id)
  }

  /** The tests a filtered listing makes; an empty text or the zero time tests nothing. */
  datatype Filter = Filter(status: JobStatus, workflowID: string, requestID: string, updatedAfter: int, updatedBefore: int) {
    predicate Keeps(job: Job) {
      && (status != Unset ==> job.status == status)
      && (workflowID != "" ==> job.workflowID == workflowID)
      && (requestID != "" ==> job.requestID == requestID)
      && (updatedAfter != ZERO ==> job.updatedAt >= updatedAfter)
      && (updatedBefore != ZERO ==> job.updatedAt <= updatedBefore)
    }
  }

  function ByStatus(status: JobStatus): Filter {
    Filter(status, "", "", ZERO, ZERO)
  }

  /** Every kept job once, in the given order. */
  ghost predicate Listing(jobs: map<string, Job>, keep: Job -> bool, key: Job -> Key, items: seq<Job>) {
    && (forall job :: job in items <==> job.id in jobs && jobs[job.id] == job && keep(job))
    && SortedBy(Upward, items, key)
  }

  /** Oldest first, and by ID among equally old ones. */
  ghost predicate OldestFirst(items: seq<Job>) {
    forall i, j :: 0 <= i < j < |items| ==>
      items[i].createdAt < items[j].createdAt || (items[i].createdAt == items[j].createdAt && TextBefore(items[i].id, items[j].id))
  }

  /** Least recently updated first, and by ID among those updated at the same time. */
  ghost predicate StalestFirst(items: seq<Job>) {
    forall i, j :: 0 <= i < j < |items| ==>
      items[i].updatedAt < items[j].updatedAt || (items[i].updatedAt == items[j].updatedAt && TextBefore(items[i].id, items[j].id))
  }

  lemma ListedOldestFirst(jobs: map<string, Job>, keep: Job -> bool, items: seq<Job>)
    requires Listing(jobs, keep, CreationKey, items)
    ensures OldestFirst(items)
  {
    hide TextBefore;
    forall i, j | 0 <= i < j < |items| ensures Before(CreationKey(items[i]), CreationKey(items[j])) {
    }
  }

  lemma ListedStalestFirst(jobs: map<string, Job>, keep: Job -> bool, items: seq<Job>)
    requires Listing(jobs, keep, UpdateKey, items)
    ensures StalestFirst(items)
  {
    hide TextBefore;
    forall i, j | 0 <= i < j < |items| ensures Before(UpdateKey(items[i]), UpdateKey(items[j])) {
    }
  }

  lemma PageOldestFirst(items: seq<Job>, limit: int, offset: int)
    requires OldestFirst(items)
    ensures OldestFirst(Page(items, limit, offset))
  {
    hide TextBefore;
  }

  /** Neither the map order nor the sort leaves any choice. */
  lemma ListingUnique(jobs: map<string, Job>, keep: Job -> bool, key: Job -> Key, a: seq<Job>, b: seq<Job>)
    requires Listing(jobs, keep, key, a) && Listing(jobs, keep, key, b)
    ensures a == b
  {
    SortedUnique(Upward, a, b, key);
  }

  /** One page, with the defaults for the limit and the offset. */
  function Page<T>(items: seq<T>, limit: int, offset: int): (page: seq<T>)
    ensures var size := if limit <= 0 then 50 else limit; var from := if offset < 0 then 0 else offset;
      && |page| == (if from >= |items| then 0 else if size < |items| - from then size else |items| - from)
      && forall k :: 0 <= k < |page| ==> page[k] == items[from + k]
  {
    var limit := if limit <= 0 then 50 else limit;
    var offset := if offset < 0 then 0 else offset;
    if offset >= |items| then [] else items[offset..if offset + limit > |items| then |items| else offset + limit]
  }

  /** A page of the one listing there is. */
  ghost predicate IsPage(jobs: map<string, Job>, keep: Job -> bool, limit: int, offset: int, page: seq<Job>) {
    exists all :: Listing(jobs, keep, CreationKey, all) && page == Page(all, limit, offset)
  }

  ghost function Kept(jobs: map<string, Job>, keep: Job -> bool): set<string> {
    set id | id in jobs && keep(jobs[id])
  }

  /** The jobs a filter keeps, test by test. */
  lemma KeptByFilter(jobs: map<string, Job>, filter: Filter)
    ensures Kept(jobs, filter.Keeps) == set id | id in jobs
      && (filter.status == Unset || jobs[id].status == filter.status)
      && (filter.workflowID == "" || jobs[id].workflowID == filter.workflowID)
      && (filter.requestID == "" || jobs[id].requestID == filter.requestID)
      && (filter.updatedAfter == ZERO || filter.updatedAfter <= jobs[id].updatedAt)
      && (filter.updatedBefore == ZERO || jobs[id].updatedAt <= filter.updatedBefore)
  {
  }

  lemma KeptTaking(jobs: map<string, Job>, keep: Job -> bool, left: set<string>, id: string)
    requires id in left && id in jobs
    ensures |Kept(jobs, keep) - (left - {id})| == |Kept(jobs, keep) - left| + if keep(jobs[id]) then 1 else 0
  {
    var kept := Kept(jobs, keep);
    if keep(jobs[id]) {
      assert kept - (left - {id}) == kept - left + {id};
    } else {
      assert kept - (left - {id}) == kept - left;
    }
  }

  lemma KeptAll(jobs: map<string, Job>, keep: Job -> bool)
    ensures |Kept(jobs, keep) - jobs.Keys| == 0 && Kept(jobs, keep) - {} == Kept(jobs, keep)
  {
    assert Kept(jobs, keep) - jobs.Keys == {};
  }

  /** The kept jobs among those already passed, each once. */
  ghost predicate Gathered(jobs: map<string, Job>, keep: Job -> bool, left: set<string>, items: seq<Job>) {
    && (forall job :: job in items <==> job.id in jobs && jobs[job.id] == job && keep(job) && job.id !in left)
    && (forall i, j :: 0 <= i < j < |items| ==> items[i].id != items[j].id)
  }

  lemma GatherOne(jobs: map<string, Job>, keep: Job -> bool, left: set<string>, items: seq<Job>, id: string)
    requires Keyed(jobs) && id in jobs && id in left && Gathered(jobs, keep, left, items)
    ensures Gathered(jobs, keep, left - {id}, if keep(jobs[id]) then items + [jobs[id]] else items)
  {
    if keep(jobs[id]) {
      var more := items + [jobs[id]];
      forall job ensures job in more <==> job.id in jobs && jobs[job.id] == job && keep(job) && job.id !in left - {id} {
        assert job in more <==> job in items || job == jobs[id];
      }
      forall i | 0 <= i < |items| ensures items[i].id != id {
        assert items[i] in items;
      }
    }
  }

  ghost predicate Keyed(jobs: map<string, Job>) {
    forall id :: id in jobs ==> jobs[id].id == id
  }

  class MemoryRunQueue {
    var jobs: map<string, Job>
    var transitions: map<string, seq<Transition>>

    ghost function Model(): Store reads this {
      Store(jobs, transitions)
    }

    ghost predicate Valid() reads this {
      Keyed(jobs)
    }

    constructor ()
      ensures Valid() && Model() == EMPTY
    {
      jobs, transitions := map[], map[];
    }

    // Lines 524-533.
    method AppendTransition(id: string, from: JobStatus, to: JobStatus, reason: string, actor: string, now: int)
      modifies this`transitions
      ensures transitions == old(transitions)[id := LogOf(old(Model()), id) + [Transition(from, to, reason, actor, now)]]
    {
      var items := if id in transitions then transitions[id] else [];
      transitions := transitions[id := items + [Transition(from, to, reason, actor, now)]];
    }

    method EnqueueRunJob(submitted: Job, now: int)
      requires Valid()
      modifies this
      ensures Valid() && Model() == Apply(old(Model()), Enqueue(submitted), now)
      ensures submitted.id in old(jobs) ==> Model() == old(Model())
      ensures submitted.id in jobs
      ensures submitted.id !in old(jobs) ==>
        jobs[submitted.id] == submitted.(
          status := if submitted.status == Unset then Queued else submitted.status,
          createdAt := if submitted.createdAt == ZERO then now else submitted.createdAt,
          updatedAt := if submitted.updatedAt == ZERO then now else submitted.updatedAt,
          availableAt := if submitted.availableAt == ZERO then now else submitted.availableAt)
    {
      if submitted.id in jobs {
        return;
      }
      var job := submitted;
      if job.createdAt == ZERO {
        job := job.(createdAt := now);
      }
      if job.updatedAt == ZERO {
        job := job.(updatedAt := now);
      }
      if job.availableAt == ZERO {
        job := job.(availableAt := now);
      }
      if job.status == Unset {
        job := job.(status := Queued);
      }
      jobs := jobs[job.id := job];
      AppendTransition(job.id, Unset, job.status, "enqueued", "system", now);
    }

    method GetRunJob(id: string) returns (found: Domain.Option<Job>)
      ensures found == if id in jobs then Domain.Some(jobs[id]) else Domain.None
    {
      found := if id in jobs then Domain.Some(jobs[id]) else Domain.None;
    }

    /** The kept jobs, in whatever order the map is iterated. */
    method Collect(keep: Job -> bool) returns (items: seq<Job>)
      requires Valid()
      ensures Gathered(jobs, keep, {}, items)
      ensures |items| == |Kept(jobs, keep)|
    {
      hide Kept;
      items := [];
      var left := jobs.Keys;
      KeptAll(jobs, keep);
      while left != {}
        invariant left <= jobs.Keys
        invariant Gathered(jobs, keep, left, items)
        invariant |items| == |Kept(jobs, keep) - left|
      {
        var id :| id in left;
        KeptTaking(jobs, keep, left, id);
        GatherOne(jobs, keep, left, items, id);
        left := left - {id};
        var job := jobs[id];
        if keep(job) {
          items := items + [job];
        }
      }
    }

    /** A job created earliest; sort.Slice is not stable, so any of them may come first. */
    static method Earliest(candidates: seq<Job>) returns (first: Job)
      requires candidates != []
      ensures first in candidates && forall job :: job in candidates ==> first.createdAt <= job.createdAt
    {
      first := candidates[0];
      var i := 1;
      while i < |candidates|
        invariant 1 <= i <= |candidates| && first in candidates
        invariant forall k :: 0 <= k < i ==> first.createdAt <= candidates[k].createdAt
      {
        if candidates[i].createdAt < first.createdAt {
          first := candidates[i];
        }
        i := i + 1;
      }
    }

    // Lines 68-99.
    method LeaseNextRunJob(worker: string, duration: int, now: int) returns (leased: Domain.Option<Job>)
      requires Valid()
      modifies this
      ensures Valid()
      ensures match leased
        case None =>
          Model() == old(Model()) && forall id :: id in old(jobs) ==> !Claimable(old(jobs)[id], now)
        case Some(job) =>
          && MayLease(old(Model()), job.id, now) && Model() == Apply(old(Model()), Lease(job.id, worker, duration), now)
          && jobs[job.id] == job
      ensures leased.None? ==> forall id :: id in old(jobs) ==>
        && (old(jobs)[id].status == Queued ==> old(jobs)[id].availableAt > now)
        && (old(jobs)[id].status == Leased ==> old(jobs)[id].leaseUntil == ZERO || old(jobs)[id].leaseUntil >= now)
      ensures leased.Some? ==>
        var was := old(jobs)[leased.value.id];
        && (was.status == Queued ==> was.availableAt <= now)
        && (was.status != Queued ==> was.status == Leased && ZERO != was.leaseUntil < now)
        && (forall id :: id in old(jobs) && old(jobs)[id].status == Queued && old(jobs)[id].availableAt <= now ==>
              was.createdAt <= old(jobs)[id].createdAt)
        && (forall id :: id in old(jobs) && old(jobs)[id].status == Leased && ZERO != old(jobs)[id].leaseUntil < now ==>
              was.createdAt <= old(jobs)[id].createdAt)
    {
      var candidates := Collect(job => Claimable(job, now));
      if |candidates| == 0 {
        leased := Domain.None;
        forall id | id in jobs ensures !Claimable(jobs[id], now) {
          assert jobs[id] !in candidates;
        }
        return;
      }
      var job := Earliest(candidates);
      forall id | id in jobs && Claimable(jobs[id], now) ensures job.createdAt <= jobs[id].createdAt {
        assert jobs[id] in candidates;
      }
      var from := job.status;
      job := job.(status := Leased, leaseOwner := worker, leaseUntil := now + duration, attempts := job.attempts + 1, updatedAt := now);
      jobs := jobs[job.id := job];
      AppendTransition(job.id, from, Leased, "leased", worker, now);
      leased := Domain.Some(job);
    }

    method ExtendRunJobLease(id: string, worker: string, duration: int, now: int) returns (reply: Reply)
      requires Valid()
      modifies this
      ensures Valid() && Model() == Apply(old(Model()), Extend(id, worker, duration), now)
      ensures reply == Answer(old(Model()), Extend(id, worker, duration))
    {
      if id !in jobs {
        return NotFound;
      }
      var job := jobs[id];
      if job.status != Leased {
        return NotLeased;
      }
      if job.leaseOwner != worker {
        return OwnerMismatch;
      }
      jobs := jobs[id := job.(leaseUntil := now + duration, updatedAt := now)];
      reply := Done;
    }

    method CompleteRunJob(id: string, now: int) returns (reply: Reply)
      requires Valid()
      modifies this
      ensures Valid() && Model() == Apply(old(Model()), Complete(id), now)
      ensures reply == Answer(old(Model()), Complete(id))
    {
      if id !in jobs {
        return NotFound;
      }
      var job := jobs[id];
      if job.status != Leased {
        return NotLeased;
      }
      var from := job.status;
      job := job.(status := Succeeded, leaseOwner := "", leaseUntil := ZERO, updatedAt := now);
      jobs := jobs[id := job];
      AppendTransition(id, from, job.status, "completed", "worker", now);
      reply := Done;
    }

    method CancelRunJob(id: string, reason: string, now: int) returns (reply: Reply)
      requires Valid()
      modifies this
      ensures Valid() && Model() == Apply(old(Model()), Cancel(id, reason), now)
      ensures reply == Answer(old(Model()), Cancel(id, reason))
    {
      if id !in jobs {
        return NotFound;
      }
      var job := jobs[id];
      if job.status == Succeeded {
        return NotCancellable;
      }
      if job.status == Cancelled {
        return Done;
      }
      var from := job.status;
      job := job.(status := Cancelled, lastError := reason, leaseOwner := "", leaseUntil := ZERO, updatedAt := now);
      jobs := jobs[id := job];
      AppendTransition(id, from, job.status, reason, "api", now);
      reply := Done;
    }

    method RetryRunJob(id: string, after: int, error: string, now: int) returns (reply: Reply)
      requires Valid()
      modifies this
      ensures Valid() && Model() == Apply(old(Model()), Retry(id, after, error), now)
      ensures reply == Answer(old(Model()), Retry(id, after, error))
    {
      if id !in jobs {
        return NotFound;
      }
      var job := jobs[id];
      if job.status != Leased {
        return NotLeased;
      }
      var from := job.status;
      job := job.(status := Queued, availableAt := now + after, lastError := error, leaseOwner := "", leaseUntil := ZERO,
                  updatedAt := now);
      jobs := jobs[id := job];
      AppendTransition(id, from, job.status, error, "worker", now);
      reply := Done;
    }

    method FailRunJob(id: string, error: string, now: int) returns (reply: Reply)
      requires Valid()
      modifies this
      ensures Valid() && Model() == Apply(old(Model()), Fail(id, error), now)
      ensures reply == Answer(old(Model()), Fail(id, error))
    {
      if id !in jobs {
        return NotFound;
      }
      var job := jobs[id];
      if job.status != Leased {
        return NotLeased;
      }
      var from := job.status;
      job := job.(status := Failed, lastError := error, leaseOwner := "", leaseUntil := ZERO, updatedAt := now);
      jobs := jobs[id := job];
      AppendTransition(id, from, job.status, error, "worker", now);
      reply := Done;
    }

    method DeadLetterRunJob(id: string, error: string, now: int) returns (reply: Reply)
      requires Valid()
      modifies this
      ensures Valid() && Model() == Apply(old(Model()), DeadLetter(id, error), now)
      ensures reply == Answer(old(Model()), DeadLetter(id, error))
    {
      if id !in jobs {
        return NotFound;
      }
      var job := jobs[id];
      if job.status != Leased {
        return NotLeased;
      }
      var from := job.status;
      job := job.(status := DeadLettered, lastError := error, leaseOwner := "", leaseUntil := ZERO, updatedAt := now);
      jobs := jobs[id := job];
      AppendTransition(id, from, job.status, error, "worker", now);
      reply := Done;
    }

    method RequeueRunJob(id: string, after: int, replayer: string, reason: string, now: int) returns (reply: Reply)
      requires Valid()
      modifies this
      ensures Valid() && Model() == Apply(old(Model()), Requeue(id, after, replayer, reason), now)
      ensures reply == Answer(old(Model()), Requeue(id, after, replayer, reason))
    {
      if id !in jobs {
        return NotFound;
      }
      var job := jobs[id];
      if job.status != DeadLettered && job.status != Failed {
        return NotReplayable;
      }
      var from := job.status;
      job := job.(status := Queued, leaseOwner := "", leaseUntil := ZERO, availableAt := now + after,
                  replayCount := job.replayCount + 1, replayedBy := replayer, replayReason := reason, replayedAt := now,
                  updatedAt := now);
      jobs := jobs[id := job];
      AppendTransition(id, from, job.status, reason, replayer, now);
      reply := Done;
    }

    /** Every kept job, sorted. */
    method Sorted(keep: Job -> bool, key: Job -> Key) returns (items: seq<Job>)
      requires Valid() && forall a: Job, b: Job :: a.id != b.id ==> key(a) != key(b)
      ensures Listing(jobs, keep, key, items) && |items| == |Kept(jobs, keep)|
    {
      hide SortedBy, Kept;
      var found := Collect(keep);
      items := Sort(Upward, found, key);
      assert forall job :: job in items <==> job in multiset(items);
      assert forall job :: job in found <==> job in multiset(found);
    }

    // Lines 253-282.
    method ListRunJobs(status: JobStatus, limit: int, offset: int) returns (page: seq<Job>, ghost all: seq<Job>)
      requires Valid()
      ensures IsPage(jobs, ByStatus(status).Keeps, limit, offset, page) && OldestFirst(page)
      ensures forall job :: job in page ==> job.id in jobs && jobs[job.id] == job && (status == Unset || job.status == status)
      ensures Listing(jobs, ByStatus(status).Keeps, CreationKey, all) && page == Page(all, limit, offset)
    {
      var items := Sorted((job: Job) => status == Unset || job.status == status, CreationKey);
      all := items;
      page := Page(items, limit, offset);
      hide Precedes, SortedBy, TextBefore;
      ListedOldestFirst(jobs, ByStatus(status).Keeps, all);
      PageOldestFirst(all, limit, offset);
      assert forall job :: job in page ==> job in all;
    }

    // Lines 284-329.
    method ListRunJobsFiltered(filter: Filter, limit: int, offset: int) returns (page: seq<Job>, ghost all: seq<Job>)
      requires Valid()
      ensures IsPage(jobs, filter.Keeps, limit, offset, page) && OldestFirst(page)
      ensures forall job :: job in page ==>
        && job.id in jobs && jobs[job.id] == job && (filter.status == Unset || job.status == filter.status)
        && (filter.workflowID == "" || job.workflowID == filter.workflowID)
        && (filter.requestID == "" || job.requestID == filter.requestID)
        && (filter.updatedAfter == ZERO || filter.updatedAfter <= job.updatedAt)
        && (filter.updatedBefore == ZERO || job.updatedAt <= filter.updatedBefore)
      ensures Listing(jobs, filter.Keeps, CreationKey, all) && page == Page(all, limit, offset)
    {
      var items := Sorted(filter.Keeps, CreationKey);
      all := items;
      page := Page(items, limit, offset);
      hide Precedes, SortedBy, TextBefore;
      ListedOldestFirst(jobs, filter.Keeps, all);
      PageOldestFirst(all, limit, offset);
      assert forall job :: job in page ==> job in all;
    }

    // Lines 358-387.
    method ListRunJobsByRun(runID: string, limit: int, offset: int) returns (page: seq<Job>, ghost all: seq<Job>)
      requires Valid()
      ensures IsPage(jobs, (job: Job) => job.runID == runID, limit, offset, page) && OldestFirst(page)
      ensures forall job :: job in page ==> job.id in jobs && jobs[job.id] == job && job.runID == runID
      ensures Listing(jobs, (job: Job) => job.runID == runID, CreationKey, all) && page == Page(all, limit, offset)
    {
      var items := Sorted((job: Job) => job.runID == runID, CreationKey);
      all := items;
      page := Page(items, limit, offset);
      hide Precedes, SortedBy, TextBefore;
      ListedOldestFirst(jobs, (job: Job) => job.runID == runID, all);
      PageOldestFirst(all, limit, offset);
      assert forall job :: job in page ==> job in all;
    }

    // Lines 331-356.
    method CountRunJobsFiltered(filter: Filter) returns (count: nat)
      requires Valid()
      ensures count == |Kept(jobs, filter.Keeps)|
      ensures count == |set id | id in jobs
        && (filter.status == Unset || jobs[id].status == filter.status)
        && (filter.workflowID == "" || jobs[id].workflowID == filter.workflowID)
        && (filter.requestID == "" || jobs[id].requestID == filter.requestID)
        && (filter.updatedAfter == ZERO || filter.updatedAfter <= jobs[id].updatedAt)
        && (filter.updatedBefore == ZERO || jobs[id].updatedAt <= filter.updatedBefore)|
    {
      hide Kept, Filter.Keeps;
      count := 0;
      var left := jobs.Keys;
      KeptAll(jobs, filter.Keeps);
      while left != {}
        invariant left <= jobs.Keys && count == |Kept(jobs, filter.Keeps) - left|
      {
        var id :| id in left;
        KeptTaking(jobs, filter.Keeps, left, id);
        left := left - {id};
        if filter.Keeps(jobs[id]) {
          count := count + 1;
        }
      }
      KeptByFilter(jobs, filter);
    }

    // Lines 400-442.
    method PurgeRunJobs(status: JobStatus, olderThan: int, limit: int, now: int) returns (count: nat, ghost all: seq<Job>)
      requires Valid()
      modifies this
      ensures Valid() && StalestFirst(all)
      ensures forall job :: job in all <==>
        && job.id in old(jobs) && old(jobs)[job.id] == job && (status == Unset || job.status == status)
        && (olderThan > 0 && now - olderThan != ZERO ==> job.updatedAt <= now - olderThan)
      ensures var most := if limit <= 0 then 1000 else limit; count == (if |all| < most then |all| else most) <= |all|
      ensures Model() == Apply(old(Model()), Purge(Ids(all[..count])), now)
    {
      hide Listing, Purgeable, Ids, Apply, Keyed, StalestFirst;
      var limit := if limit <= 0 then 1000 else limit;
      var candidates := Sorted(job => Purgeable(job, status, olderThan, now), UpdateKey);
      all := candidates;
      if |candidates| > limit {
        candidates := candidates[..limit];
      }
      var i := 0;
      IdsNone();
      assert candidates[..0] == [];
      while i < |candidates|
        invariant 0 <= i <= |candidates|
        invariant jobs == old(jobs) - Ids(candidates[..i]) && transitions == old(transitions) - Ids(candidates[..i])
      {
        jobs := jobs - {candidates[i].id};
        transitions := transitions - {candidates[i].id};
        IdsSnoc(candidates[..i], candidates[i]);
        assert candidates[..i + 1] == candidates[..i] + [candidates[i]];
        i := i + 1;
      }
      assert candidates[..i] == candidates;
      PurgeDeletes(old(Model()), Ids(candidates), now);
      PurgedAre(old(jobs), status, olderThan, now, all);
      count := |candidates|;
    }
  }

  function Ids(jobs: seq<Job>): set<string> {
    set job | job in jobs :: job.id
  }

  lemma IdsNone()
    ensures Ids([]) == {}
  {
  }

  lemma IdsSnoc(jobs: seq<Job>, job: Job)
    ensures Ids(jobs + [job]) == Ids(jobs) + {job.id}
  {
    assert forall other :: other in jobs + [job] <==> other in jobs || other == job;
  }

  /** What a purge may take: the stalest jobs of the status, none updated after the cutoff. */
  lemma PurgedAre(jobs: map<string, Job>, status: JobStatus, olderThan: int, now: int, all: seq<Job>)
    requires Listing(jobs, job => Purgeable(job, status, olderThan, now), UpdateKey, all)
    ensures StalestFirst(all)
    ensures forall job :: job in all <==>
      && job.id in jobs && jobs[job.id] == job && (status == Unset || job.status == status)
      && (olderThan > 0 && now - olderThan != ZERO ==> job.updatedAt <= now - olderThan)
  {
    hide SortedBy, TextBefore;
    ListedStalestFirst(jobs, job => Purgeable(job, status, olderThan, now), all);
  }

  lemma PurgeDeletes(q: Store, ids: set<string>, now: int)
    requires Keyed(q.jobs)
    ensures Apply(q, Purge(ids), now) == Store(q.jobs - ids, q.log - ids) && Keyed(q.jobs - ids)
  {
  }

  /** A purge takes jobs of the status, last updated at or before the cutoff. */
  predicate Purgeable(job: Job, status: JobStatus, olderThan: int, now: int) {
    var cutoff := if olderThan > 0 then now - olderThan else ZERO;
    && (status != Unset ==> job.status == status)
    && (cutoff != ZERO ==> job.updatedAt <= cutoff)
  }
}
