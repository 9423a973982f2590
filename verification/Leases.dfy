/** When two sessions can, and cannot, be at work on one job. */
module Leases {
  import opened Jobs
  import opened Sessions
  import Audit
  import Domain

  /** The n-th tick of a session's heartbeat. */
  function Due(s: Session, n: nat): int {
    s.begun + n * (s.duration / 2)
  }

  lemma DueNext(s: Session, n: nat)
    ensures Due(s, n + 1) == Due(s, n) + s.duration / 2
  {
  }

  /** No heartbeat of a live session is late by half a lease. */
  ghost predicate Timely(sessions: seq<Session>, now: int) {
    forall k :: 0 <= k < |sessions| && sessions[k].live ==> now < Due(sessions[k], sessions[k].beats + 2)
  }

  /** Heartbeats are not early, and a lease has two halves. */
  ghost predicate Ticking(sessions: seq<Session>, act: Act, now: int) {
    && (act.Beat? && act.session < |sessions| ==> now >= Due(sessions[act.session], sessions[act.session].beats + 1))
    && (act.Begin? ==> act.duration >= 2)
  }

  /** The ID of a job that was purged is not used again while a session still works on the old job. */
  ghost predicate NoReuse(w: World, act: Act) {
    act.Client? && act.op.Enqueue? && act.op.job.id !in w.queue.jobs ==>
      forall k :: 0 <= k < |w.sessions| && w.sessions[k].live ==> !Mine(w.sessions[k], act.op.job.id)
  }

  /** No lease is handed out for a job that a live session still works on. */
  ghost predicate NotTaken(w: World, act: Act) {
    act.Begin? ==> forall k :: 0 <= k < |w.sessions| && w.sessions[k].live ==> !Mine(w.sessions[k], act.id)
  }

  ghost predicate TicksRight(moments: seq<Moment>) {
    forall k :: 0 <= k < |moments| ==> Ticking(Before(moments, k).sessions, moments[k].act, moments[k].now)
  }

  ghost predicate NeverLate(moments: seq<Moment>) {
    forall k :: 0 <= k < |moments| ==> Timely(Before(moments, k).sessions, moments[k].now)
  }

  ghost predicate Punctual(moments: seq<Moment>) {
    TicksRight(moments) && NeverLate(moments)
  }

  ghost predicate NeverReused(moments: seq<Moment>) {
    forall k :: 0 <= k < |moments| ==> NoReuse(Before(moments, k), moments[k].act)
  }

  ghost predicate NeverTaken(moments: seq<Moment>) {
    forall k :: 0 <= k < |moments| ==> NotTaken(Before(moments, k), moments[k].act)
  }

  /** A live session's job is gone, cancelled, or leased to it until its next heartbeat is overdue. */
  ghost predicate Held(q: Store, s: Session) {
    s.job.id in q.jobs ==>
      var job := q.jobs[s.job.id];
      || job.status == Cancelled
      || (job.status == Leased && job.leaseOwner == s.worker && job.leaseUntil >= Due(s, s.beats + 2))
  }

  ghost predicate Apart(sessions: seq<Session>) {
    forall k, l :: 0 <= k < l < |sessions| && sessions[k].live && sessions[l].live ==> sessions[k].job.id != sessions[l].job.id
  }

  ghost predicate Sole(w: World) {
    && Audit.Audited(w.queue)
    && (forall k :: 0 <= k < |w.sessions| ==> w.sessions[k].duration >= 2)
    && (forall k :: 0 <= k < |w.sessions| && w.sessions[k].live ==> Held(w.queue, w.sessions[k]))
    && Apart(w.sessions)
  }

  /** Clients cannot take a held job away, short of cancelling or purging it. */
  lemma HeldThroughClient(q: Store, s: Session, op: Op, now: int)
    requires Audit.Audited(q) && Held(q, s) && (op.Enqueue? || op.Cancel? || op.Requeue? || op.Purge?)
    requires op.Enqueue? && op.job.id !in q.jobs ==> !Mine(s, op.job.id)
    ensures Held(Apply(q, op, now), s)
  {
    hide Due, Filled;
  }

  /** An operation on another job changes nothing. */
  lemma HeldThroughOther(q: Store, s: Session, op: Op, now: int)
    requires Held(q, s) && !op.Enqueue? && !op.Purge? && op.id != s.job.id
    ensures Held(Apply(q, op, now), s)
  {
    hide Due, Next, Entries;
  }

  lemma HeldBeat(q: Store, s: Session, now: int)
    requires Held(q, s) && now >= Due(s, s.beats + 1) && s.duration >= 2
    ensures Held(Apply(q, Extend(s.job.id, s.worker, s.duration), now), s.(beats := s.beats + 1))
  {
    hide Due;
    DueNext(s, s.beats + 1);
    DueNext(s, s.beats + 2);
    DueSame(s, s.beats + 3);
  }

  lemma DueSame(s: Session, n: nat)
    ensures Due(s.(beats := s.beats + 1), n) == Due(s, n)
  {
  }

  /** A held job is not handed out. */
  lemma HeldNotLeased(q: Store, s: Session, now: int)
    requires Held(q, s) && now < Due(s, s.beats + 2)
    ensures !MayLease(q, s.job.id, now)
  {
  }

  /** A new session holds its job. */
  lemma BeginHolds(q: Store, id: string, worker: string, duration: int, now: int)
    requires Audit.Audited(q) && MayLease(q, id, now) && duration >= 2
    ensures var next := Apply(q, Lease(id, worker, duration), now);
      id in next.jobs && Held(next, Session(next.jobs[id], worker, duration, now, 0, true)) && next.jobs[id].id == id
  {
  }

  lemma ClosingTarget(job: Job, ending: Ending)
    ensures var op := Closing(job, ending); !op.Enqueue? && !op.Purge? && op.id == job.id
  {
  }

  lemma StepSole(w: World, act: Act, now: int)
    requires Sole(w) && MayAct(w, act, now) && Ticking(w.sessions, act, now) && NoReuse(w, act) && NotTaken(w, act)
    ensures Sole(Perform(w, act, now))
  {
    hide Held, Apply, Audit.Audited, Due, MayLease, Closing;
    ActAudits(w, act, now);
    match act {
      case Client(op) =>
        forall k | 0 <= k < |w.sessions| && w.sessions[k].live ensures Held(Apply(w.queue, op, now), w.sessions[k]) {
          HeldThroughClient(w.queue, w.sessions[k], op, now);
        }
      case Begin(id, worker, duration) =>
        BeginHolds(w.queue, id, worker, duration, now);
        forall k | 0 <= k < |w.sessions| && w.sessions[k].live
          ensures w.sessions[k].job.id != id && Held(Apply(w.queue, Lease(id, worker, duration), now), w.sessions[k])
        {
          assert !Mine(w.sessions[k], id);
          HeldThroughOther(w.queue, w.sessions[k], Lease(id, worker, duration), now);
        }
      case Beat(n) =>
        var s := w.sessions[n];
        HeldBeat(w.queue, s, now);
        forall k | 0 <= k < |w.sessions| && w.sessions[k].live && k != n
          ensures Held(Apply(w.queue, Extend(s.job.id, s.worker, s.duration), now), w.sessions[k])
        {
          HeldThroughOther(w.queue, w.sessions[k], Extend(s.job.id, s.worker, s.duration), now);
        }
      case Conclude(n, ending) =>
        ClosingTarget(w.sessions[n].job, ending);
        forall k | 0 <= k < |w.sessions| && w.sessions[k].live && k != n
          ensures Held(Apply(w.queue, Closing(w.sessions[n].job, ending), now), w.sessions[k])
        {
          HeldThroughOther(w.queue, w.sessions[k], Closing(w.sessions[n].job, ending), now);
        }
      case Vanish(n) =>
    }
  }

  /** Timely heartbeats keep every lease from being handed out under its session. */
  lemma TimelyNotTaken(w: World, act: Act, now: int)
    requires Sole(w) && MayAct(w, act, now) && Timely(w.sessions, now)
    ensures NotTaken(w, act)
  {
    hide Held, Due, MayLease, Audit.Audited, Apart;
    if act.Begin? {
      forall k | 0 <= k < |w.sessions| && w.sessions[k].live ensures !Mine(w.sessions[k], act.id) {
        HeldNotLeased(w.queue, w.sessions[k], now);
      }
    }
  }

  /** A job enqueued under a live session is not that session's. */
  lemma ReuseUnholds(q: Store, s: Session, job: Job, now: int)
    requires Audit.Fresh(Enqueue(job)) && job.id !in q.jobs && Mine(s, job.id)
    ensures !Held(Apply(q, Enqueue(job), now), s)
  {
    hide Due;
  }

  lemma UnsoleReuse(w: World, act: Act, now: int)
    requires MayAct(w, act, now) && !NoReuse(w, act)
    ensures !Sole(Perform(w, act, now))
  {
    hide Held, Apply, Audit.Audited;
    var k :| 0 <= k < |w.sessions| && w.sessions[k].live && Mine(w.sessions[k], act.op.job.id);
    ReuseUnholds(w.queue, w.sessions[k], act.op.job, now);
    assert Perform(w, act, now).sessions[k] == w.sessions[k];
  }

  lemma UnsoleTaken(w: World, act: Act, now: int)
    requires Sole(w) && MayAct(w, act, now) && !NotTaken(w, act)
    ensures !Apart(Perform(w, act, now).sessions)
  {
    hide Held, Apply, Audit.Audited, MayLease;
    BeginTakes(w.queue, act.id, act.worker, act.duration, now);
    var k :| 0 <= k < |w.sessions| && w.sessions[k].live && Mine(w.sessions[k], act.id);
    var sessions := Perform(w, act, now).sessions;
    assert sessions[k] == w.sessions[k] && sessions[|w.sessions|].job.id == act.id;
  }

  /** An act keeps every live session alone on a job that is its own exactly when it neither reuses the
      ID of a job a session still works on nor hands that job out again; with timely heartbeats, exactly
      when it does not reuse such an ID. */
  lemma StepSoleIff(w: World, act: Act, now: int)
    requires Sole(w) && MayAct(w, act, now) && Ticking(w.sessions, act, now)
    ensures Sole(Perform(w, act, now)) <==> NoReuse(w, act) && NotTaken(w, act)
    ensures Timely(w.sessions, now) ==> (Sole(Perform(w, act, now)) <==> NoReuse(w, act))
  {
    if !NoReuse(w, act) {
      UnsoleReuse(w, act, now);
    } else if !NotTaken(w, act) {
      UnsoleTaken(w, act, now);
    } else {
      StepSole(w, act, now);
    }
    hide Sole, MayAct, Ticking, NoReuse, NotTaken, Perform;
    if Timely(w.sessions, now) {
      TimelyNotTaken(w, act, now);
    }
  }

  ghost predicate SoleThroughout(moments: seq<Moment>) {
    forall k :: 0 <= k <= |moments| ==> Sole(Before(moments, k))
  }

  lemma LastStep(moments: seq<Moment>)
    requires Happens(moments) && moments != []
    ensures var rest := moments[..|moments| - 1]; var w := WorldAfter(rest); var m := moments[|moments| - 1];
      && Happens(rest) && MayAct(w, m.act, m.now) && WorldAfter(moments) == Perform(w, m.act, m.now)
      && Before(moments, |rest|) == w && Before(rest, |rest|) == w && Before(moments, |moments|) == WorldAfter(moments)
      && forall k :: 0 <= k < |moments| ==> Before(moments, k) == Before(rest, k)
  {
    HappensPrefix(moments);
    hide MayAct, Happens;
    var rest := moments[..|moments| - 1];
    LastBefore(moments);
    LastBefore(rest);
  }

  lemma SameBefore(moments: seq<Moment>, k: nat)
    requires k < |moments|
    ensures Before(moments, k) == Before(moments[..|moments| - 1], k)
  {
    assert moments[..|moments| - 1][..k] == moments[..k];
  }

  lemma ReusePrefix(moments: seq<Moment>)
    requires moments != []
    ensures var rest := moments[..|moments| - 1]; var m := moments[|moments| - 1];
      NeverReused(moments) <==> NeverReused(rest) && NoReuse(WorldAfter(rest), m.act)
  {
    hide WorldAfter, Before, NoReuse, NotTaken, Timely, Ticking;
    var rest := moments[..|moments| - 1];
    LastBefore(rest);
    forall k | 0 <= k < |moments| ensures Before(moments, k) == Before(rest, k) {
      SameBefore(moments, k);
    }
    assert forall k :: 0 <= k < |rest| ==> moments[k] == rest[k];
    assert NoReuse(Before(moments, |rest|), moments[|rest|].act) <==> NoReuse(WorldAfter(rest), moments[|rest|].act);
    assert NeverReused(moments) ==> NeverReused(rest);
  }

  lemma TakenPrefix(moments: seq<Moment>)
    requires moments != []
    ensures var rest := moments[..|moments| - 1]; var m := moments[|moments| - 1];
      NeverTaken(moments) <==> NeverTaken(rest) && NotTaken(WorldAfter(rest), m.act)
  {
    hide WorldAfter, Before, NoReuse, NotTaken, Timely, Ticking;
    var rest := moments[..|moments| - 1];
    LastBefore(rest);
    forall k | 0 <= k < |moments| ensures Before(moments, k) == Before(rest, k) {
      SameBefore(moments, k);
    }
    assert forall k :: 0 <= k < |rest| ==> moments[k] == rest[k];
    assert NotTaken(Before(moments, |rest|), moments[|rest|].act) <==> NotTaken(WorldAfter(rest), moments[|rest|].act);
    assert NeverTaken(moments) ==> NeverTaken(rest);
  }

  lemma TickPrefix(moments: seq<Moment>)
    requires moments != []
    ensures var rest := moments[..|moments| - 1]; var m := moments[|moments| - 1];
      TicksRight(moments) <==> TicksRight(rest) && Ticking(WorldAfter(rest).sessions, m.act, m.now)
  {
    hide WorldAfter, Before, NoReuse, NotTaken, Timely, Ticking;
    var rest := moments[..|moments| - 1];
    LastBefore(rest);
    forall k | 0 <= k < |moments| ensures Before(moments, k) == Before(rest, k) {
      SameBefore(moments, k);
    }
    assert forall k :: 0 <= k < |rest| ==> moments[k] == rest[k];
    assert Ticking(Before(moments, |rest|).sessions, moments[|rest|].act, moments[|rest|].now) <==> Ticking(WorldAfter(rest).sessions, moments[|rest|].act, moments[|rest|].now);
    assert TicksRight(moments) ==> TicksRight(rest);
  }

  lemma LatePrefix(moments: seq<Moment>)
    requires moments != []
    ensures var rest := moments[..|moments| - 1]; var m := moments[|moments| - 1];
      NeverLate(moments) <==> NeverLate(rest) && Timely(WorldAfter(rest).sessions, m.now)
  {
    hide WorldAfter, Before, NoReuse, NotTaken, Timely, Ticking;
    var rest := moments[..|moments| - 1];
    LastBefore(rest);
    forall k | 0 <= k < |moments| ensures Before(moments, k) == Before(rest, k) {
      SameBefore(moments, k);
    }
    assert forall k :: 0 <= k < |rest| ==> moments[k] == rest[k];
    assert Timely(Before(moments, |rest|).sessions, moments[|rest|].now) <==> Timely(WorldAfter(rest).sessions, moments[|rest|].now);
    assert NeverLate(moments) ==> NeverLate(rest);
  }

  lemma SolePrefix(moments: seq<Moment>)
    requires moments != []
    ensures var rest := moments[..|moments| - 1];
      && (SoleThroughout(moments) <==> SoleThroughout(rest) && Sole(WorldAfter(moments)))
      && (SoleThroughout(rest) ==> Sole(WorldAfter(rest)))
  {
    hide WorldAfter, Before, Sole;
    var rest := moments[..|moments| - 1];
    LastBefore(rest);
    LastBefore(moments);
    forall k | 0 <= k < |moments| ensures Before(moments, k) == Before(rest, k) {
      SameBefore(moments, k);
    }
    assert SoleThroughout(moments) ==> SoleThroughout(rest);
  }

  lemma LastBefore(moments: seq<Moment>)
    ensures Before(moments, |moments|) == WorldAfter(moments)
  {
    assert moments[..|moments|] == moments;
  }

  /** Throughout a run every live session is alone on a job of its own, exactly when no ID is reused and
      no job handed out under a live session. */
  lemma {:induction false} SoleIff(moments: seq<Moment>)
    requires Happens(moments) && TicksRight(moments)
    ensures SoleThroughout(moments) <==> NeverReused(moments) && NeverTaken(moments)
  {
    if moments == [] {
      SoleAtFirst();
      assert moments[..0] == [];
    } else {
      var rest := moments[..|moments| - 1];
      var m := moments[|moments| - 1];
      hide WorldAfter, Perform, Sole, NoReuse, NotTaken, Ticking, Timely, MayAct, Happens, SoleThroughout, NeverReused, NeverTaken, TicksRight;
      LastStep(moments);
      SolePrefix(moments);
      ReusePrefix(moments);
      TakenPrefix(moments);
      TickPrefix(moments);
      SoleIff(rest);
      if Sole(WorldAfter(rest)) {
        StepSoleIff(WorldAfter(rest), m.act, m.now);
      }
    }
  }

  /** With heartbeats on time, exactly when no ID is reused. */
  lemma {:induction false} PunctualSoleIff(moments: seq<Moment>)
    requires Happens(moments) && Punctual(moments)
    ensures SoleThroughout(moments) <==> NeverReused(moments)
  {
    if moments == [] {
      SoleAtFirst();
      assert moments[..0] == [];
    } else {
      var rest := moments[..|moments| - 1];
      var m := moments[|moments| - 1];
      hide WorldAfter, Perform, Sole, NoReuse, NotTaken, Ticking, Timely, MayAct, Happens, SoleThroughout, NeverReused, TicksRight, NeverLate;
      LastStep(moments);
      SolePrefix(moments);
      ReusePrefix(moments);
      TickPrefix(moments);
      LatePrefix(moments);
      PunctualSoleIff(rest);
      if Sole(WorldAfter(rest)) {
        StepSoleIff(WorldAfter(rest), m.act, m.now);
      }
    }
  }

  lemma SoleAtFirst()
    ensures Sole(World(EMPTY, []))
  {
  }

  /** While heartbeats arrive in time and IDs are not reused, no two sessions work on one job.
      Any job may be purged at any time. */
  lemma SingleSession(moments: seq<Moment>)
    requires Happens(moments) && Punctual(moments) && NeverReused(moments)
    ensures Apart(WorldAfter(moments).sessions)
  {
    hide Happens, Punctual, NeverReused;
    PunctualSoleIff(moments);
    LastBefore(moments);
  }

  // ----- Closing somebody else's lease -----

  /** A sole session that closes a leased job closes its own lease. */
  lemma ClosesOwn(w: World, k: nat)
    requires Sole(w) && k < |w.sessions| && w.sessions[k].live && w.sessions[k].job.id in w.queue.jobs
    ensures var job := w.queue.jobs[w.sessions[k].job.id];
      job.status == Leased ==> job.leaseOwner == w.sessions[k].worker
    ensures forall l :: 0 <= l < |w.sessions| && w.sessions[l].live && l != k ==> !Mine(w.sessions[l], w.sessions[k].job.id)
  {
    hide Due, Audit.Audited;
  }

  lemma ClosingStatus(own: Job, current: Job, ending: Ending, now: int)
    requires current.status == Leased
    ensures var op := Closing(own, ending); Takes(current, op) && Next(current, op, now).status == Settles(own, ending)
  {
    hide Wait;
  }

  /** As soon as a job is handed out under a live session, that session can close the new lease, in
      whatever way its own run ends. */
  lemma TakenCanBeClosed(w: World, k: nat, worker: string, duration: int, now: int, ending: Ending)
    requires Sole(w) && k < |w.sessions| && w.sessions[k].live
    requires MayAct(w, Begin(w.sessions[k].job.id, worker, duration), now)
    ensures var id := w.sessions[k].job.id; var taken := Perform(w, Begin(id, worker, duration), now);
      && id in taken.queue.jobs && taken.queue.jobs[id].status == Leased && taken.queue.jobs[id].leaseOwner == worker
      && MayAct(taken, Conclude(k, ending), now)
      && var closed := Perform(taken, Conclude(k, ending), now);
         id in closed.queue.jobs && closed.queue.jobs[id].status == Settles(w.sessions[k].job, ending)
  {
    hide Held, Due, Closing, Settles, Apart, Takes, Next, Audit.Audited, MayLease;
    var id := w.sessions[k].job.id;
    LeaseGives(w.queue, id, worker, duration, now);
    var taken := Perform(w, Begin(id, worker, duration), now);
    assert taken.sessions[k] == w.sessions[k];
    ClosingStatus(w.sessions[k].job, taken.queue.jobs[id], ending, now);
    ClosingTarget(w.sessions[k].job, ending);
  }

  lemma LeaseGives(q: Store, id: string, worker: string, duration: int, now: int)
    requires MayLease(q, id, now)
    ensures var next := Apply(q, Lease(id, worker, duration), now);
      id in next.jobs && next.jobs[id].status == Leased && next.jobs[id].leaseOwner == worker
  {
  }

  // ----- Neither condition can go -----

  lemma WorldSnoc(moments: seq<Moment>, m: Moment)
    ensures WorldAfter(moments + [m]) == Perform(WorldAfter(moments), m.act, m.now)
  {
    assert (moments + [m])[..|moments|] == moments;
  }

  lemma BeforeSnoc(moments: seq<Moment>, m: Moment, k: nat)
    requires k <= |moments|
    ensures Before(moments + [m], k) == if k < |moments| then Before(moments, k) else WorldAfter(moments)
  {
    assert (moments + [m])[..k] == moments[..k];
    assert moments[..|moments|] == moments;
  }

  lemma HappensSnoc(moments: seq<Moment>, m: Moment)
    requires Happens(moments) && MayAct(WorldAfter(moments), m.act, m.now)
    requires ZERO < m.now && (moments != [] ==> moments[|moments| - 1].now <= m.now)
    ensures Happens(moments + [m]) && WorldAfter(moments + [m]) == Perform(WorldAfter(moments), m.act, m.now)
  {
    hide MayAct, WorldAfter, Perform, Before;
    WorldSnoc(moments, m);
    forall k | 0 <= k <= |moments|
      ensures Before(moments + [m], k) == if k < |moments| then Before(moments, k) else WorldAfter(moments)
    {
      BeforeSnoc(moments, m, k);
    }
  }

  lemma PunctualSnoc(moments: seq<Moment>, m: Moment)
    requires Punctual(moments)
    requires Timely(WorldAfter(moments).sessions, m.now) && Ticking(WorldAfter(moments).sessions, m.act, m.now)
    ensures Punctual(moments + [m])
  {
    hide WorldAfter, Timely, Ticking, Before;
    forall k | 0 <= k <= |moments|
      ensures Before(moments + [m], k) == if k < |moments| then Before(moments, k) else WorldAfter(moments)
    {
      BeforeSnoc(moments, m, k);
    }
  }

  lemma NeverReusedSnoc(moments: seq<Moment>, m: Moment)
    requires NeverReused(moments) && NoReuse(WorldAfter(moments), m.act)
    ensures NeverReused(moments + [m])
  {
    hide WorldAfter, NoReuse, Before;
    forall k | 0 <= k <= |moments|
      ensures Before(moments + [m], k) == if k < |moments| then Before(moments, k) else WorldAfter(moments)
    {
      BeforeSnoc(moments, m, k);
    }
  }

  /** The run goes on, and heartbeats stay on time. */
  lemma GoOn(moments: seq<Moment>, m: Moment)
    requires Happens(moments) && Punctual(moments)
    requires ZERO < m.now && (moments != [] ==> moments[|moments| - 1].now <= m.now)
    requires MayAct(WorldAfter(moments), m.act, m.now)
    requires Timely(WorldAfter(moments).sessions, m.now) && Ticking(WorldAfter(moments).sessions, m.act, m.now)
    ensures Happens(moments + [m]) && Punctual(moments + [m])
    ensures WorldAfter(moments + [m]) == Perform(WorldAfter(moments), m.act, m.now)
  {
    hide MayAct, WorldAfter, Perform, Timely, Ticking, Before, Happens, Punctual;
    HappensSnoc(moments, m);
    PunctualSnoc(moments, m);
  }

  predicate Submittable(job: Job, now: int) {
    job.status == Queued && job.attempts == 0 && job.replayCount == 0 && job.availableAt <= now && ZERO < now
  }

  /** A job is submitted and begun. */
  function Begun(job: Job, a: string, duration: int, now: int): seq<Moment> {
    [Moment(Client(Enqueue(job)), now), Moment(Begin(job.id, a, duration), now)]
  }

  lemma BegunWorld(job: Job, a: string, duration: int, now: int)
    requires Submittable(job, now) && duration >= 2
    ensures var moments := Begun(job, a, duration, now); var w := WorldAfter(moments);
      && Happens(moments) && Punctual(moments) && NeverReused(moments)
      && w.queue.jobs == map[job.id := Granted(Filled(job, now), a, duration, now)] && w.queue.log.Keys == {job.id}
      && w.sessions == [Session(w.queue.jobs[job.id], a, duration, now, 0, true)]
  {
    hide Happens, Punctual, NeverReused, WorldAfter;
    var all := Begun(job, a, duration, now);
    NothingHappened();
    var w0 := World(EMPTY, []);
    assert [] + [all[0]] == all[..1];
    GoOn([], all[0]);
    NeverReusedSnoc([], all[0]);
    var w1 := Perform(w0, all[0].act, now);
    assert w1.queue.jobs == map[job.id := Filled(job, now)];
    assert all[..1] + [all[1]] == all;
    GoOn(all[..1], all[1]);
    NeverReusedSnoc(all[..1], all[1]);
  }

  /** Then it is cancelled and purged; the worker has not noticed yet. */
  function Abandoned(job: Job, a: string, duration: int, now: int): seq<Moment> {
    Begun(job, a, duration, now) + [Moment(Client(Cancel(job.id, "stop")), now)] + [Moment(Client(Purge({job.id})), now)]
  }

  /** The purge takes nothing but the cancelled job. */
  lemma AbandonedLeavesSession(job: Job, a: string, duration: int, now: int)
    requires Submittable(job, now) && duration >= 2
    ensures var moments := Abandoned(job, a, duration, now);
      && Happens(moments) && Punctual(moments)
      && var w := WorldAfter(moments);
         && w.queue == EMPTY && |w.sessions| == 1 && w.sessions[0].job.id == job.id && w.sessions[0].live
         && w.sessions[0].begun == now && w.sessions[0].beats == 0 && w.sessions[0].duration == duration
    ensures var w := WorldAfter(Begun(job, a, duration, now) + [Moment(Client(Cancel(job.id, "stop")), now)]);
      w.queue.jobs.Keys == {job.id} && w.queue.jobs[job.id].status == Cancelled
  {
    hide Happens, Punctual, NeverReused, WorldAfter, Begun, Filled, Granted;
    BegunLast(job, a, duration, now);
    BegunWorld(job, a, duration, now);
    var begun := Begun(job, a, duration, now);
    var cancel := Moment(Client(Cancel(job.id, "stop")), now);
    GoOn(begun, cancel);
    var w3 := Perform(WorldAfter(begun), cancel.act, now);
    CancelsGranted(WorldAfter(begun).queue, job, a, duration, now);
    GoOn(begun + [cancel], Moment(Client(Purge({job.id})), now));
  }

  lemma BegunLast(job: Job, a: string, duration: int, now: int)
    ensures |Begun(job, a, duration, now)| == 2 && Begun(job, a, duration, now)[1].now == now
    ensures Granted(Filled(job, now), a, duration, now).id == job.id && Granted(Filled(job, now), a, duration, now).status == Leased
  {
  }

  lemma CancelsGranted(q: Store, job: Job, a: string, duration: int, now: int)
    requires q.jobs == map[job.id := Granted(Filled(job, now), a, duration, now)] && q.log.Keys == {job.id}
    ensures var next := Apply(q, Cancel(job.id, "stop"), now);
      && next.jobs.Keys == {job.id} && next.log.Keys == {job.id} && next.jobs[job.id].status == Cancelled
      && Apply(next, Purge({job.id}), now) == EMPTY
  {
    hide Filled;
    var next := Apply(q, Cancel(job.id, "stop"), now);
    assert next.jobs - {job.id} == map[] && next.log - {job.id} == map[];
  }

  lemma NothingHappened()
    ensures Happens([]) && Punctual([]) && NeverReused([]) && WorldAfter([]) == World(EMPTY, [])
  {
  }

  /** Reusing the ID of a cancelled, purged job can put two sessions on it, all heartbeats on time. */
  lemma ReuseBreaks(job: Job, a: string, b: string, duration: int, now: int)
    requires Submittable(job, now) && duration >= 2
    ensures var moments := Abandoned(job, a, duration, now) + [Moment(Client(Enqueue(job)), now)] + [Moment(Begin(job.id, b, duration), now)];
      Happens(moments) && Punctual(moments) && !Apart(WorldAfter(moments).sessions)
  {
    hide Happens, Punctual, WorldAfter, Abandoned;
    AbandonedLeavesSession(job, a, duration, now);
    AbandonedLast(job, a, duration, now);
    var moments := Abandoned(job, a, duration, now);
    var w := WorldAfter(moments);
    var again := Moment(Client(Enqueue(job)), now);
    GoOn(moments, again);
    var w1 := Perform(w, again.act, now);
    assert w1.queue.jobs == map[job.id := Filled(job, now)];
    var begin := Moment(Begin(job.id, b, duration), now);
    GoOn(moments + [again], begin);
    var w2 := Perform(w1, begin.act, now);
    assert |w2.sessions| == 2 && w2.sessions[1].live && w2.sessions[1].job.id == job.id && w2.sessions[0] == w.sessions[0];
  }

  lemma AbandonedLast(job: Job, a: string, duration: int, now: int)
    ensures var moments := Abandoned(job, a, duration, now); |moments| == 4 && moments[3].now == now
  {
  }

  /** A first session misses its heartbeats and a second takes the job over. */
  function TakenOver(job: Job, a: string, b: string, duration: int, now: int, later: int): seq<Moment> {
    Begun(job, a, duration, now) + [Moment(Begin(job.id, b, duration), later)]
  }

  /** Without timely heartbeats two sessions can be at work, and the overtaken one can still close the
      job that is leased to the other, in whatever way its own run ends. */
  lemma LatenessBreaks(job: Job, a: string, b: string, duration: int, now: int, later: int, ending: Ending)
    requires Submittable(job, now) && duration >= 2 && now + duration < later
    ensures var moments := TakenOver(job, a, b, duration, now, later);
      && Happens(moments) && NeverReused(moments) && !Apart(WorldAfter(moments).sessions)
      && var close := Conclude(0, ending);
         && MayAct(WorldAfter(moments), close, later) && job.id in WorldAfter(moments).queue.jobs
         && WorldAfter(moments).queue.jobs[job.id].leaseOwner == b
         && job.id in Perform(WorldAfter(moments), close, later).queue.jobs
         && Perform(WorldAfter(moments), close, later).queue.jobs[job.id].status == Settles(WorldAfter(moments).sessions[0].job, ending)
  {
    hide Happens, Punctual, NeverReused, WorldAfter, Begun, Filled;
    BegunLast(job, a, duration, now);
    BegunWorld(job, a, duration, now);
    var begun := Begun(job, a, duration, now);
    var w := WorldAfter(begun);
    var begin := Moment(Begin(job.id, b, duration), later);
    HappensSnoc(begun, begin);
    NeverReusedSnoc(begun, begin);
    hide Closing, Settles, Wait;
    var taken := Perform(w, begin.act, later);
    assert |taken.sessions| == 2 && taken.sessions[0] == w.sessions[0] && taken.sessions[1].live && taken.sessions[1].job.id == job.id;
    ClosingStatus(w.sessions[0].job, taken.queue.jobs[job.id], ending, later);
    ClosingTarget(w.sessions[0].job, ending);
  }
}
