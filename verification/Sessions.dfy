/** Worker sessions on the run queue: a lease, heartbeats, and one closing operation, decided from
    the copy of the job the session was given, however stale it has become. */
module Sessions {
  import opened Jobs
  import opened Audit
  import Backoff
  import Domain

  /** How the work of a session ends. */
  datatype Ending =
    | NoWorkflow(error: string)
    | Ran(failure: Domain.Option<string>, status: Domain.RunStatus, error: string)

  /** Lines 187-190. A shift count below zero would panic; AttemptsPositive rules it out. */
  function Wait(attempts: int): int {
    if attempts >= 1 then Backoff.Delay(attempts) else 0
  }

  /** The operation a session closes with; `job` is its own copy. */
  function Closing(job: Job, ending: Ending): Op {
    match ending
    case NoWorkflow(error) => Fail(job.id, error)
    case Ran(failure, status, error) =>
      if failure.None? && status == Domain.RunSucceeded then Complete(job.id)
      else if failure.None? && status == Domain.RunCancelled then Cancel(job.id, if error == "" then "run cancelled" else error)
      else
        var message := if failure.Some? then failure.value else if error != "" then error else "run failed";
        if job.attempts < job.maxAttempts then Retry(job.id, Wait(job.attempts), message) else DeadLetter(job.id, message)
  }

  /** Where a session leaves its job when nobody else touched it. */
  function Settles(job: Job, ending: Ending): JobStatus {
    match ending
    case NoWorkflow(_) => JobStatus.Failed
    case Ran(failure, status, _) =>
      if failure.None? && status == Domain.RunSucceeded then Succeeded
      else if failure.None? && status == Domain.RunCancelled then Cancelled
      else if job.attempts < job.maxAttempts then Queued
      else DeadLettered
  }

  datatype Session = Session(job: Job, worker: string, duration: int, begun: int, beats: nat, live: bool)

  datatype World = World(queue: Store, sessions: seq<Session>)

  datatype Act =
    | Client(op: Op)
    | Begin(id: string, worker: string, duration: int)
    | Beat(session: nat)
    | Conclude(session: nat, ending: Ending)
    | Vanish(session: nat)

  datatype Moment = Moment(act: Act, now: int)

  /** Who may do what: sessions act while they live, clients never use the worker's operations. */
  ghost predicate MayAct(w: World, act: Act, now: int) {
    match act
    case Client(op) => (op.Enqueue? || op.Cancel? || op.Requeue? || op.Purge?) && Fresh(op)
    case Begin(id, _, duration) => duration > 0 && MayLease(w.queue, id, now)
    case _ => act.session < |w.sessions| && w.sessions[act.session].live
  }

  /** The queue operation an act makes. */
  function Does(w: World, act: Act): Domain.Option<Op> {
    match act
    case Client(op) => Domain.Some(op)
    case Begin(id, worker, duration) => Domain.Some(Lease(id, worker, duration))
    case Beat(k) =>
      if k < |w.sessions| then Domain.Some(Extend(w.sessions[k].job.id, w.sessions[k].worker, w.sessions[k].duration))
      else Domain.None
    case Conclude(k, ending) =>
      if k < |w.sessions| then Domain.Some(Closing(w.sessions[k].job, ending)) else Domain.None
    case Vanish(_) => Domain.None
  }

  function QueueAfter(w: World, act: Act, now: int): Store {
    match Does(w, act)
    case Some(op) => Apply(w.queue, op, now)
    case None => w.queue
  }

  function SessionsAfter(w: World, act: Act, now: int): seq<Session> {
    match act
    case Client(_) => w.sessions
    case Begin(id, worker, duration) =>
      var q := QueueAfter(w, act, now);
      if id in q.jobs then w.sessions + [Session(q.jobs[id], worker, duration, now, 0, true)] else w.sessions
    case Beat(k) =>
      if k < |w.sessions| then w.sessions[k := w.sessions[k].(beats := w.sessions[k].beats + 1)] else w.sessions
    case Conclude(k, _) => Ended(w.sessions, k)
    case Vanish(k) => Ended(w.sessions, k)
  }

  function Ended(sessions: seq<Session>, k: nat): seq<Session> {
    if k < |sessions| then sessions[k := sessions[k].(live := false)] else sessions
  }

  function Perform(w: World, act: Act, now: int): World {
    World(QueueAfter(w, act, now), SessionsAfter(w, act, now))
  }

  /** The world after these moments, from an empty queue. */
  function WorldAfter(moments: seq<Moment>): World {
    if moments == [] then World(EMPTY, []) else
      var last := moments[|moments| - 1];
      Perform(WorldAfter(moments[..|moments| - 1]), last.act, last.now)
  }

  /** The world in which the k-th act happens. */
  function Before(moments: seq<Moment>, k: nat): World
    requires k <= |moments|
  {
    WorldAfter(moments[..k])
  }

  /** The clock starts after Go's zero time and never goes back. */
  ghost predicate Happens(moments: seq<Moment>) {
    forall k :: 0 <= k < |moments| ==>
      && ZERO < moments[k].now && (k > 0 ==> moments[k - 1].now <= moments[k].now)
      && MayAct(Before(moments, k), moments[k].act, moments[k].now)
  }

  lemma HappensPrefix(moments: seq<Moment>)
    requires Happens(moments) && moments != []
    ensures Happens(moments[..|moments| - 1])
    ensures forall k :: 0 <= k < |moments| ==> Before(moments[..|moments| - 1], k) == Before(moments, k)
    ensures var last := |moments| - 1; MayAct(Before(moments, last), moments[last].act, moments[last].now)
  {
    hide WorldAfter, MayAct;
    var rest := moments[..|moments| - 1];
    forall k | 0 <= k < |moments| ensures Before(rest, k) == Before(moments, k) {
      assert rest[..k] == moments[..k];
    }
    assert Before(moments, |moments| - 1) == WorldAfter(rest);
  }

  // ----- The queue stays audited -----

  lemma ActAudits(w: World, act: Act, now: int)
    requires Audited(w.queue) && MayAct(w, act, now)
    ensures Audited(Perform(w, act, now).queue)
  {
    hide Audited, Apply;
    match Does(w, act) {
      case Some(op) => StepAudits(w.queue, op, now);
      case None =>
    }
  }

  // ----- Attempt accounting -----

  predicate Mine(s: Session, id: string) {
    s.job.id == id
  }

  /** Attempt numbers of the finished sessions of a job that were below its maximum. */
  ghost function Retried(sessions: seq<Session>, id: string): set<int> {
    set k | 0 <= k < |sessions| && Mine(sessions[k], id) && !sessions[k].live && sessions[k].job.attempts < sessions[k].job.maxAttempts
      :: sessions[k].job.attempts
  }

  /** Sessions of a job hold attempt numbers it has reached, each one once. */
  ghost predicate Numbered(w: World, id: string) {
    && (forall k :: 0 <= k < |w.sessions| && Mine(w.sessions[k], id) ==>
         && id in w.queue.jobs
         && 1 <= w.sessions[k].job.attempts <= w.queue.jobs[id].attempts
         && w.sessions[k].job.maxAttempts == w.queue.jobs[id].maxAttempts)
    && (forall k, l :: 0 <= k < l < |w.sessions| && Mine(w.sessions[k], id) && Mine(w.sessions[l], id) ==>
         w.sessions[k].job.attempts != w.sessions[l].job.attempts)
  }

  /** Every retry in the log came from a finished session of its own. */
  ghost predicate Covered(w: World, id: string) {
    id in w.queue.jobs ==> Tally(LogOf(w.queue, id), IsRetry) <= |Retried(w.sessions, id)|
  }

  ghost predicate Accounted(w: World, id: string) {
    Audited(w.queue) && Numbered(w, id) && Covered(w, id)
  }

  /** What one operation does to a job's counters. */
  lemma OpCounts(q: Store, op: Op, now: int, id: string)
    requires Audited(q) && !Removes(op, id) && Fresh(op) && Possible(q, op, now)
    ensures var next := Apply(q, op, now);
      && (id in q.jobs ==> id in next.jobs && next.jobs[id].attempts >= q.jobs[id].attempts
                           && next.jobs[id].maxAttempts == q.jobs[id].maxAttempts)
      && (id in next.jobs && (id !in q.jobs || !op.Retry? || op.id != id) ==>
           Tally(LogOf(next, id), IsRetry) <= if id in q.jobs then Tally(LogOf(q, id), IsRetry) else 0)
      && (id in q.jobs ==> Tally(LogOf(next, id), IsRetry) <= Tally(LogOf(q, id), IsRetry) + 1)
  {
    hide Recorded, Tally, Filled, Claimable, Takes;
    if op.Enqueue? {
      FirstTally(Entries(Filled(op.job, now), op, now)[0]);
      assert LogOf(q, op.job.id) == [] || op.job.id in q.jobs;
      assert [] + Entries(Filled(op.job, now), op, now) == Entries(Filled(op.job, now), op, now);
    } else if !op.Purge? && op.id in q.jobs {
      EntriesTally(q.jobs[op.id], LogOf(q, op.id), op, now);
    }
  }

  lemma FirstTally(t: Transition)
    requires t.from == Unset
    ensures Tally([t], IsRetry) == 0
  {
    assert [t][..0] == [];
  }

  lemma EntriesTally(job: Job, log: seq<Transition>, op: Op, now: int)
    requires !op.Enqueue? && !op.Purge? && (op.Lease? ==> Claimable(job, now))
    ensures Tally(log + Entries(job, op, now), IsRetry) <= Tally(log, IsRetry) + 1
    ensures Takes(job, op) && !op.Retry? ==> Tally(log + Entries(job, op, now), IsRetry) == Tally(log, IsRetry)
  {
    var entries := Entries(job, op, now);
    if entries == [] {
      assert log + entries == log;
    } else {
      TallySnoc(log, entries[0], IsRetry);
      assert entries == [entries[0]];
    }
  }

  /** Only a session's own close retries a job. */
  lemma DoesAllowed(w: World, act: Act, now: int)
    requires MayAct(w, act, now) && Does(w, act).Some?
    ensures var op := Does(w, act).value;
      && Fresh(op) && Possible(w.queue, op, now)
      && (op.Retry? ==> act.Conclude? && op.id == w.sessions[act.session].job.id
                        && w.sessions[act.session].job.attempts < w.sessions[act.session].job.maxAttempts)
      && (op.Lease? ==> act.Begin?) && (op.Purge? ==> act.Client?)
  {
  }

  ghost predicate PurgeFree(act: Act, id: string) {
    !(act.Client? && Removes(act.op, id))
  }

  /** The queue's share of a step, for one job. */
  lemma ActCounts(w: World, act: Act, now: int, id: string)
    requires Audited(w.queue) && MayAct(w, act, now) && PurgeFree(act, id)
    ensures var next := QueueAfter(w, act, now);
      var retries := act.Conclude? && Mine(w.sessions[act.session], id)
        && w.sessions[act.session].job.attempts < w.sessions[act.session].job.maxAttempts;
      && (id in w.queue.jobs ==> id in next.jobs && next.jobs[id].attempts >= w.queue.jobs[id].attempts
                                 && next.jobs[id].maxAttempts == w.queue.jobs[id].maxAttempts)
      && (id in next.jobs && !(id in w.queue.jobs && retries) ==>
           Tally(LogOf(next, id), IsRetry) <= if id in w.queue.jobs then Tally(LogOf(w.queue, id), IsRetry) else 0)
      && (id in w.queue.jobs ==> Tally(LogOf(next, id), IsRetry) <= Tally(LogOf(w.queue, id), IsRetry) + 1)
  {
    hide Apply, Audited, Tally, LogOf;
    if Does(w, act).Some? {
      DoesAllowed(w, act, now);
      OpCounts(w.queue, Does(w, act).value, now, id);
    }
  }

  /** Beginning a session takes the next attempt number. */
  lemma BeginTakes(q: Store, id: string, worker: string, duration: int, now: int)
    requires Audited(q) && MayLease(q, id, now)
    ensures var next := Apply(q, Lease(id, worker, duration), now);
      id in next.jobs && next.jobs[id].attempts == q.jobs[id].attempts + 1 && next.jobs[id].id == id && q.jobs[id].attempts >= 0
  {
  }

  lemma StepNumbers(w: World, act: Act, now: int, id: string)
    requires Accounted(w, id) && MayAct(w, act, now) && PurgeFree(act, id)
    ensures Numbered(Perform(w, act, now), id)
  {
    hide Apply, Audited, Tally, LogOf, Covered, MayLease;
    ActCounts(w, act, now, id);
    if act.Begin? {
      BeginTakes(w.queue, act.id, act.worker, act.duration, now);
    }
  }

  lemma RetriedGrows(sessions: seq<Session>, k: nat, id: string)
    requires k < |sessions| && sessions[k].live
    requires forall i, j :: 0 <= i < j < |sessions| && Mine(sessions[i], id) && Mine(sessions[j], id) ==>
      sessions[i].job.attempts != sessions[j].job.attempts
    ensures Retried(Ended(sessions, k), id) == Retried(sessions, id) +
      if Mine(sessions[k], id) && sessions[k].job.attempts < sessions[k].job.maxAttempts then {sessions[k].job.attempts} else {}
    ensures Mine(sessions[k], id) ==> sessions[k].job.attempts !in Retried(sessions, id)
  {
    var ended := Ended(sessions, k);
    assert forall i :: 0 <= i < |sessions| && i != k ==> ended[i] == sessions[i];
    assert ended[k] == sessions[k].(live := false);
    var own := Mine(sessions[k], id) && sessions[k].job.attempts < sessions[k].job.maxAttempts;
    forall n | n in Retried(sessions, id) ensures n in Retried(ended, id) {
      var i :| 0 <= i < |sessions| && Mine(sessions[i], id) && !sessions[i].live
        && sessions[i].job.attempts < sessions[i].job.maxAttempts && n == sessions[i].job.attempts;
      assert ended[i] == sessions[i];
    }
    forall n | n in Retried(ended, id) ensures n in Retried(sessions, id) || (own && n == sessions[k].job.attempts) {
      var i :| 0 <= i < |sessions| && Mine(ended[i], id) && !ended[i].live
        && ended[i].job.attempts < ended[i].job.maxAttempts && n == ended[i].job.attempts;
      assert i != k ==> ended[i] == sessions[i];
    }
    assert own ==> Mine(ended[k], id) && ended[k].job.attempts in Retried(ended, id);
  }

  lemma RetriedSame(sessions: seq<Session>, others: seq<Session>, id: string)
    requires |sessions| <= |others| && forall k :: |sessions| <= k < |others| ==> others[k].live
    requires forall k :: 0 <= k < |sessions| ==> others[k].job == sessions[k].job && others[k].live == sessions[k].live
    ensures Retried(others, id) == Retried(sessions, id)
  {
    forall n | n in Retried(sessions, id) ensures n in Retried(others, id) {
      var k :| 0 <= k < |sessions| && Mine(sessions[k], id) && !sessions[k].live
        && sessions[k].job.attempts < sessions[k].job.maxAttempts && n == sessions[k].job.attempts;
      assert others[k].job == sessions[k].job;
    }
  }

  lemma StepCovers(w: World, act: Act, now: int, id: string)
    requires Accounted(w, id) && MayAct(w, act, now) && PurgeFree(act, id)
    ensures Covered(Perform(w, act, now), id)
  {
    hide Apply, Audited, Tally, LogOf, MayLease, Retried, PurgeFree, Does;
    ActCounts(w, act, now, id);
    var sessions := SessionsAfter(w, act, now);
    if act.Conclude? || act.Vanish? {
      RetriedGrows(w.sessions, act.session, id);
    } else {
      RetriedSame(w.sessions, sessions, id);
    }
  }

  lemma {:induction false} AlwaysAccounted(moments: seq<Moment>, id: string)
    requires Happens(moments) && forall k :: 0 <= k < |moments| ==> PurgeFree(moments[k].act, id)
    ensures Accounted(WorldAfter(moments), id)
  {
    hide PurgeFree, MayAct, Audited, Numbered, Covered, Perform, Happens;
    if moments == [] {
      NothingYet(id);
    } else {
      var last := |moments| - 1;
      HappensPrefix(moments);
      AlwaysAccounted(moments[..last], id);
      var w := WorldAfter(moments[..last]);
      assert Before(moments, last) == w;
      ActAudits(w, moments[last].act, moments[last].now);
      StepNumbers(w, moments[last].act, moments[last].now, id);
      StepCovers(w, moments[last].act, moments[last].now, id);
    }
  }

  lemma NothingYet(id: string)
    ensures Accounted(World(EMPTY, []), id)
  {
  }

  lemma {:induction false} Interval(numbers: set<int>, n: nat)
    requires forall x :: x in numbers ==> 1 <= x <= n
    ensures |numbers| <= n
  {
    if n == 0 {
      assert forall x :: x !in numbers;
      assert numbers == {};
    } else {
      Interval(numbers - {n}, n - 1);
      assert numbers <= (numbers - {n}) + {n};
    }
  }

  function Max(a: int, b: int): int {
    if a < b then b else a
  }

  /** However many sessions there are, however stale, a job that is not purged is attempted at most
      its maximum number of times, once more per replay and once more per lease taken over. */
  lemma AttemptsAccounted(moments: seq<Moment>, id: string)
    requires Happens(moments) && forall k :: 0 <= k < |moments| ==> PurgeFree(moments[k].act, id)
    requires id in WorldAfter(moments).queue.jobs
    ensures var q := WorldAfter(moments).queue;
      q.jobs[id].attempts <= Max(1, q.jobs[id].maxAttempts) + q.jobs[id].replayCount + Tally(LogOf(q, id), IsTakeover)
  {
    hide WorldAfter, PurgeFree, Happens, Tally, Recorded;
    AlwaysAccounted(moments, id);
    var w := WorldAfter(moments);
    AttemptsBounded(w.queue.jobs[id], LogOf(w.queue, id));
    Interval(Retried(w.sessions, id), Max(1, w.queue.jobs[id].maxAttempts) - 1);
  }

  ghost predicate Positive(sessions: seq<Session>) {
    forall k :: 0 <= k < |sessions| ==> sessions[k].job.attempts >= 1
  }

  lemma StepPositive(w: World, act: Act, now: int)
    requires Audited(w.queue) && Positive(w.sessions) && MayAct(w, act, now)
    ensures Positive(Perform(w, act, now).sessions)
  {
    hide Apply, Audited, MayLease;
    if act.Begin? {
      BeginTakes(w.queue, act.id, act.worker, act.duration, now);
    }
  }

  /** The backoff never shifts by a negative count. */
  lemma {:induction false} AttemptsPositive(moments: seq<Moment>)
    requires Happens(moments)
    ensures Audited(WorldAfter(moments).queue) && Positive(WorldAfter(moments).sessions)
  {
    hide MayAct, Perform, Happens, Audited, Positive;
    if moments == [] {
      NothingYet("");
      NobodyYet();
    } else {
      var last := |moments| - 1;
      HappensPrefix(moments);
      AttemptsPositive(moments[..last]);
      ActAudits(WorldAfter(moments[..last]), moments[last].act, moments[last].now);
      StepPositive(WorldAfter(moments[..last]), moments[last].act, moments[last].now);
    }
  }

  lemma NobodyYet()
    ensures Positive([])
  {
  }
}
