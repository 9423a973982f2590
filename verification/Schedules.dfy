/** When the live triggers of the scheduler service are the registered schedules. */
module Schedules {
  import opened Triggers
  import Domain

  // ----- Acts that keep triggers faithful -----

  predicate Registered(jobs: map<string, Config>, config: Config) {
    config.workflowID in jobs && jobs[config.workflowID] == config
  }

  /** Every live trigger, and every copy about to be started, belongs to a registered schedule, as
      registered. */
  ghost predicate Faithful(s: State) {
    && Keyed(s.jobs)
    && (forall n, config :: Live(s, n, config) ==> Registered(s.jobs, config))
    && (forall config :: config in s.starting ==> Registered(s.jobs, config))
    && (!s.started ==> s.entries == map[] && s.tickers == map[] && s.starting == [])
  }

  /** No copy that Start has yet to start is unregistered or replaced by another config, and a loaded
      file holds all that is live or about to be. */
  ghost predicate Harmless(s: State, act: Act) {
    match act
    case Register(config, _) =>
      Valid(config) ==> forall copy :: copy in s.starting && copy.workflowID == config.workflowID ==> copy == config
    case Unregister(id) => forall copy :: copy in s.starting ==> copy.workflowID != id
    case Load(file) =>
      && (forall copy :: copy in s.starting ==> Registered(file.jobs, copy))
      && (forall n, config :: Live(s, n, config) ==> Registered(file.jobs, config))
    case _ => true
  }

  lemma ScheduledLive(s: State, config: Config, parses: bool, n: nat, other: Config)
    requires Bound(s) && Live(Scheduled(s, config, parses), n, other)
    ensures other == config || (Live(s, n, other) && other.workflowID != config.workflowID)
  {
    hide Bound, Unscheduled;
    var next := Unscheduled(s, config.workflowID);
    assert other == config || Live(next, n, other);
    if other != config {
      UnscheduledLive(s, config.workflowID, n, other);
    }
  }

  lemma UnscheduledLive(s: State, id: string, n: nat, other: Config)
    requires Bound(s) && Live(Unscheduled(s, id), n, other)
    ensures Live(s, n, other) && other.workflowID != id
  {
    UnscheduledBound(s, id);
  }

  predicate Triggered(s: State, id: string) {
    id in s.cronIDs || id in s.stops
  }

  lemma UnscheduledKeeps(s: State, id: string)
    ensures var next := Unscheduled(s, id);
      next.jobs == s.jobs && next.starting == s.starting && next.started == s.started && next.leader == s.leader
    ensures forall other :: other != id ==> (Triggered(Unscheduled(s, id), other) <==> Triggered(s, other))
    ensures !Triggered(Unscheduled(s, id), id)
  {
  }

  lemma ScheduledFields(s: State, config: Config, parses: bool)
    ensures var next := Scheduled(s, config, parses);
      next.jobs == s.jobs && next.starting == s.starting && next.started == s.started && next.leader == s.leader
  {
    hide Unscheduled;
    UnscheduledKeeps(s, config.workflowID);
  }

  lemma ScheduledMaps(s: State, config: Config, parses: bool)
    ensures var cut := Unscheduled(s, config.workflowID); var next := Scheduled(s, config, parses);
      && next.cronIDs == (if config.cron != "" && parses then cut.cronIDs[config.workflowID := cut.serial] else cut.cronIDs)
      && next.stops == (if config.cron == "" then cut.stops[config.workflowID := cut.serial] else cut.stops)
  {
    hide Unscheduled;
  }

  lemma ScheduledTriggers(s: State, config: Config, parses: bool, id: string)
    ensures id != config.workflowID ==> (Triggered(Scheduled(s, config, parses), id) <==> Triggered(s, id))
    ensures Triggered(Scheduled(s, config, parses), config.workflowID) <==> config.cron == "" || parses
  {
    hide Unscheduled, Scheduled;
    ScheduledMaps(s, config, parses);
    UnscheduledKeeps(s, config.workflowID);
    assert id != config.workflowID ==> (Triggered(Unscheduled(s, config.workflowID), id) <==> Triggered(s, id));
  }

  lemma ScheduledKeeps(s: State, config: Config, parses: bool)
    ensures var next := Scheduled(s, config, parses);
      next.jobs == s.jobs && next.starting == s.starting && next.started == s.started && next.leader == s.leader
    ensures forall id :: id != config.workflowID ==> (Triggered(Scheduled(s, config, parses), id) <==> Triggered(s, id))
    ensures Triggered(Scheduled(s, config, parses), config.workflowID) <==> config.cron == "" || parses
  {
    hide Scheduled, Triggered;
    ScheduledFields(s, config, parses);
    forall id ensures id != config.workflowID ==> (Triggered(Scheduled(s, config, parses), id) <==> Triggered(s, id)) {
      ScheduledTriggers(s, config, parses, id);
    }
    ScheduledTriggers(s, config, parses, "");
  }

  lemma RegisterFaithful(s: State, config: Config, parses: bool)
    requires Bound(s) && Faithful(s) && Harmless(s, Register(config, parses))
    ensures Faithful(Apply(s, Register(config, parses)))
  {
    hide Bound, Scheduled, Unscheduled, Live;
    var next := Apply(s, Register(config, parses));
    var cut := Unscheduled(s, config.workflowID).(jobs := s.jobs[config.workflowID := config]);
    UnscheduledBound(s, config.workflowID);
    BoundJobs(Unscheduled(s, config.workflowID), cut.jobs, s.paused);
    UnscheduledKeeps(s, config.workflowID);
    ScheduledKeeps(cut, config, parses);
    if Valid(config) {
      if s.started {
        forall n, other | Live(next, n, other) ensures other == config || (Live(s, n, other) && other.workflowID != config.workflowID) {
          ScheduledLive(cut, config, parses, n, other);
          if other != config {
            LiveJobs(Unscheduled(s, config.workflowID), cut.jobs, s.paused, n, other);
            UnscheduledLive(s, config.workflowID, n, other);
          }
        }
      } else {
        UnscheduledIdle(s, config.workflowID);
        forall n, other ensures !Live(next, n, other) {
          NotLive(next, n, other);
        }
      }
    }
  }

  lemma NotLive(s: State, n: nat, config: Config)
    requires s.entries == map[] && s.tickers == map[]
    ensures !Live(s, n, config)
  {
  }

  lemma UnscheduledIdle(s: State, id: string)
    requires s.entries == map[] && s.tickers == map[]
    ensures Unscheduled(s, id).entries == map[] && Unscheduled(s, id).tickers == map[]
  {
  }

  lemma BoundJobs(s: State, jobs: map<string, Config>, paused: set<string>)
    requires Bound(s)
    ensures Bound(s.(jobs := jobs)) && Bound(s.(jobs := jobs, paused := paused))
  {
  }

  lemma LiveJobs(s: State, jobs: map<string, Config>, paused: set<string>, n: nat, config: Config)
    ensures Live(s.(jobs := jobs), n, config) == Live(s, n, config)
    ensures Live(s.(jobs := jobs, paused := paused), n, config) == Live(s, n, config)
  {
  }

  lemma UnregisterFaithful(s: State, id: string)
    requires Bound(s) && Faithful(s) && Harmless(s, Unregister(id))
    ensures Faithful(Apply(s, Unregister(id)))
  {
    hide Bound, Unscheduled, Live;
    var next := Apply(s, Unregister(id));
    UnscheduledKeeps(s, id);
    if !s.started {
      UnscheduledIdle(s, id);
    }
    forall n, other | Live(next, n, other) ensures Live(s, n, other) && other.workflowID != id {
      LiveJobs(Unscheduled(s, id), s.jobs - {id}, s.paused - {id}, n, other);
      UnscheduledLive(s, id, n, other);
    }
  }

  lemma StartNextFaithful(s: State, parses: bool)
    requires Bound(s) && Faithful(s)
    ensures Faithful(Apply(s, StartNext(parses)))
  {
    hide Bound, Scheduled, Live;
    var next := Apply(s, StartNext(parses));
    if s.starting != [] {
      var config := s.starting[0];
      ScheduledKeeps(s, config, parses);
      forall n, other | Live(next, n, other) ensures other == config || Live(s, n, other) {
        LiveStarting(Scheduled(s, config, parses), s.starting[1..], n, other);
        ScheduledLive(s, config, parses, n, other);
      }
    }
  }

  lemma LiveStarting(s: State, starting: seq<Config>, n: nat, config: Config)
    ensures Live(s.(starting := starting), n, config) == Live(s, n, config)
  {
  }

  lemma LoadFaithful(s: State, file: Persisted)
    requires Faithful(s) && Keyed(file.jobs) && Harmless(s, Load(file))
    ensures Faithful(Apply(s, Load(file)))
  {
    hide Live;
    var next := Apply(s, Load(file));
    forall n, config ensures Live(next, n, config) == Live(s, n, config) {
      LiveJobs(s, file.jobs, file.paused, n, config);
    }
  }

  lemma StartFaithful(s: State, act: Act)
    requires Faithful(s) && act.Start? && Possible(s, act)
    ensures Faithful(Apply(s, act))
  {
    hide Live;
    var next := Apply(s, act);
    if !s.started {
      forall n, config ensures !Live(next, n, config) {
        NotLive(next, n, config);
      }
    }
  }

  lemma FrameFields(s: State, act: Act)
    requires act.Enter? || act.Leave? || act.Pause? || act.Resume?
    ensures var next := Apply(s, act);
      next.jobs == s.jobs && next.entries == s.entries && next.tickers == s.tickers && next.starting == s.starting && next.started == s.started
  {
  }

  lemma LiveSame(s: State, next: State, n: nat, config: Config)
    requires next.entries == s.entries && next.tickers == s.tickers
    ensures Live(next, n, config) == Live(s, n, config)
  {
  }

  lemma FrameFaithful(s: State, act: Act)
    requires Faithful(s) && (act.Enter? || act.Leave? || act.Pause? || act.Resume?)
    ensures Faithful(Apply(s, act))
  {
    hide Live, Apply;
    FrameFields(s, act);
    forall n, config ensures Live(Apply(s, act), n, config) == Live(s, n, config) {
      LiveSame(s, Apply(s, act), n, config);
    }
  }

  lemma StepFaithful(s: State, act: Act)
    requires Bound(s) && Faithful(s) && Possible(s, act) && Harmless(s, act)
    ensures Faithful(Apply(s, act))
  {
    hide Bound, Faithful, Apply, Harmless;
    match act {
      case Register(config, parses) => RegisterFaithful(s, config, parses);
      case Unregister(id) => UnregisterFaithful(s, id);
      case StartNext(parses) => StartNextFaithful(s, parses);
      case Load(file) => LoadFaithful(s, file);
      case Start(_, _, _) => StartFaithful(s, act);
      case _ => FrameFaithful(s, act);
    }
  }

  // ----- No other acts do -----

  lemma HarmlessRegister(s: State, config: Config, parses: bool)
    requires Faithful(Apply(s, Register(config, parses)))
    ensures Harmless(s, Register(config, parses))
  {
    hide Scheduled, Unscheduled, Live, Valid;
    var cut := Unscheduled(s, config.workflowID).(jobs := s.jobs[config.workflowID := config]);
    UnscheduledKeeps(s, config.workflowID);
    ScheduledFields(cut, config, parses);
  }

  lemma HarmlessUnregister(s: State, id: string)
    requires Faithful(Apply(s, Unregister(id)))
    ensures Harmless(s, Unregister(id))
  {
    hide Unscheduled, Live;
    UnscheduledKeeps(s, id);
  }

  lemma HarmlessLoad(s: State, file: Persisted)
    requires Faithful(Apply(s, Load(file)))
    ensures Harmless(s, Load(file))
  {
    hide Live;
    forall n, config ensures Live(Apply(s, Load(file)), n, config) == Live(s, n, config) {
      LiveJobs(s, file.jobs, file.paused, n, config);
    }
  }

  /** An act keeps the triggers faithful exactly when it is harmless. */
  lemma StepFaithfulIff(s: State, act: Act)
    requires Bound(s) && Faithful(s) && Possible(s, act)
    ensures Faithful(Apply(s, act)) <==> Harmless(s, act)
  {
    hide Bound, Faithful, Apply, Possible, Live;
    if Harmless(s, act) {
      StepFaithful(s, act);
    } else {
      match act {
        case Register(config, parses) =>
          if Faithful(Apply(s, act)) {
            HarmlessRegister(s, config, parses);
          }
        case Unregister(id) =>
          if Faithful(Apply(s, act)) {
            HarmlessUnregister(s, id);
          }
        case Load(file) =>
          if Faithful(Apply(s, act)) {
            HarmlessLoad(s, file);
          }
        case _ =>
      }
    }
  }

  // ----- Whole runs -----

  ghost predicate HarmlessRun(acts: seq<Act>) {
    forall k :: 0 <= k < |acts| ==> Harmless(After(acts[..k]), acts[k])
  }

  ghost predicate FaithfulThroughout(acts: seq<Act>) {
    forall k :: 0 <= k <= |acts| ==> Faithful(After(acts[..k]))
  }

  lemma Prefixes(acts: seq<Act>)
    requires acts != []
    ensures var rest := acts[..|acts| - 1];
      && (HarmlessRun(acts) <==> HarmlessRun(rest) && Harmless(After(rest), acts[|acts| - 1]))
      && (FaithfulThroughout(acts) <==> FaithfulThroughout(rest) && Faithful(After(acts)))
      && (FaithfulThroughout(rest) ==> Faithful(After(rest)))
  {
    hide After, Harmless, Faithful;
    var rest := acts[..|acts| - 1];
    assert forall k :: 0 <= k <= |rest| ==> rest[..k] == acts[..k];
    assert rest[..|rest|] == rest && acts[..|acts|] == acts;
  }

  /** Throughout a run every live trigger is a registered schedule, exactly when every act is harmless. */
  lemma {:induction false} FaithfulIff(acts: seq<Act>)
    requires Happens(acts)
    ensures FaithfulThroughout(acts) <==> HarmlessRun(acts)
  {
    if acts == [] {
      assert acts[..0] == acts;
      IdleFaithful();
    } else {
      HappensPrefix(acts);
      Prefixes(acts);
      hide Faithful, Apply, Possible, Harmless, Bound, Happens, HarmlessRun, FaithfulThroughout;
      var rest := acts[..|acts| - 1];
      FaithfulIff(rest);
      AlwaysBound(rest);
      if Faithful(After(rest)) {
        StepFaithfulIff(After(rest), acts[|acts| - 1]);
      }
    }
  }

  lemma IdleFaithful()
    ensures Faithful(IDLE) && Complete(IDLE)
  {
  }

  // ----- Acts that leave no schedule without a trigger -----

  /** A leader's schedules are live or about to be. */
  ghost predicate Complete(s: State) {
    s.started && s.leader ==> forall id :: id in s.jobs ==> Triggered(s, id) || s.jobs[id] in s.starting
  }

  /** A leader's registered or copied cron expressions are accepted, unless another copy is to come, and
      a loaded file has no schedule that is not live or about to be. */
  ghost predicate Covering(s: State, act: Act) {
    s.started && s.leader ==>
      match act
      case Register(config, parses) => Valid(config) ==> config.cron == "" || parses || config in s.starting
      case StartNext(parses) => s.starting != [] ==> s.starting[0].cron == "" || parses || s.starting[0] in s.starting[1..]
      case Load(file) => forall id :: id in file.jobs ==> Triggered(s, id) || file.jobs[id] in s.starting
      case _ => true
  }

  lemma RegisterCompleteIff(s: State, config: Config, parses: bool)
    requires Complete(s)
    ensures Complete(Apply(s, Register(config, parses))) <==> Covering(s, Register(config, parses))
  {
    hide Scheduled, Unscheduled, Triggered, Valid;
    var cut := Unscheduled(s, config.workflowID).(jobs := s.jobs[config.workflowID := config]);
    UnscheduledKeeps(s, config.workflowID);
    TriggeredJobs(Unscheduled(s, config.workflowID), cut.jobs);
    ScheduledKeeps(cut, config, parses);
  }

  lemma TriggeredJobs(s: State, jobs: map<string, Config>)
    ensures forall id :: Triggered(s.(jobs := jobs), id) <==> Triggered(s, id)
  {
  }

  lemma UnregisterComplete(s: State, id: string)
    requires Complete(s)
    ensures Complete(Apply(s, Unregister(id)))
  {
    hide Unscheduled;
    UnscheduledKeeps(s, id);
  }

  lemma StartNextCompleteIff(s: State, parses: bool)
    requires Faithful(s) && Complete(s)
    ensures Complete(Apply(s, StartNext(parses))) <==> Covering(s, StartNext(parses))
  {
    hide Scheduled, Live;
    if s.starting != [] {
      var head := s.starting[0];
      ScheduledKeeps(s, head, parses);
      assert forall config :: config in s.starting <==> config == head || config in s.starting[1..];
      assert Registered(s.jobs, head);
    }
  }

  lemma OthersComplete(s: State, act: Act)
    requires Keyed(s.jobs) && Complete(s) && Possible(s, act) && !act.Register? && !act.Unregister? && !act.StartNext? && !act.Load?
    ensures Complete(Apply(s, act))
  {
    hide Admits;
  }

  lemma LoadCompleteIff(s: State, file: Persisted)
    ensures Complete(Apply(s, Load(file))) <==> Covering(s, Load(file))
  {
  }

  /** An act leaves no schedule of a leader without a trigger exactly when it is covering. */
  lemma StepCompleteIff(s: State, act: Act)
    requires Faithful(s) && Complete(s) && Possible(s, act)
    ensures Complete(Apply(s, act)) <==> Covering(s, act)
  {
    hide Complete, Possible, Apply, Live;
    match act {
      case Register(config, parses) => RegisterCompleteIff(s, config, parses);
      case Unregister(id) => UnregisterComplete(s, id);
      case StartNext(parses) => StartNextCompleteIff(s, parses);
      case Load(file) => LoadCompleteIff(s, file);
      case _ => OthersComplete(s, act);
    }
  }

  ghost predicate CoveringRun(acts: seq<Act>) {
    forall k :: 0 <= k < |acts| ==> Covering(After(acts[..k]), acts[k])
  }

  ghost predicate CompleteThroughout(acts: seq<Act>) {
    forall k :: 0 <= k <= |acts| ==> Complete(After(acts[..k]))
  }

  lemma CoveringPrefixes(acts: seq<Act>)
    requires acts != []
    ensures var rest := acts[..|acts| - 1];
      && (CoveringRun(acts) <==> CoveringRun(rest) && Covering(After(rest), acts[|acts| - 1]))
      && (CompleteThroughout(acts) <==> CompleteThroughout(rest) && Complete(After(acts)))
      && (CompleteThroughout(rest) ==> Complete(After(rest)))
  {
    hide After, Covering, Complete;
    var rest := acts[..|acts| - 1];
    assert forall k :: 0 <= k <= |rest| ==> rest[..k] == acts[..k];
    assert rest[..|rest|] == rest && acts[..|acts|] == acts;
  }

  /** In a harmless run no schedule is ever left out, exactly when every act is covering. */
  lemma {:induction false} CompleteIff(acts: seq<Act>)
    requires Happens(acts) && HarmlessRun(acts)
    ensures CompleteThroughout(acts) <==> CoveringRun(acts)
  {
    if acts == [] {
      assert acts[..0] == acts;
      IdleFaithful();
    } else {
      HappensPrefix(acts);
      Prefixes(acts);
      CoveringPrefixes(acts);
      hide Faithful, Apply, Possible, Harmless, Bound, Happens, HarmlessRun, FaithfulThroughout, Complete, Covering, CoveringRun, CompleteThroughout;
      var rest := acts[..|acts| - 1];
      CompleteIff(rest);
      FaithfulIff(rest);
      if Complete(After(rest)) {
        StepCompleteIff(After(rest), acts[|acts| - 1]);
      }
    }
  }

  /** Once a leader has started all its copies, the live triggers are exactly the registered schedules. */
  lemma SchedulesAreLive(acts: seq<Act>, config: Config)
    requires Happens(acts) && HarmlessRun(acts) && CoveringRun(acts)
    requires After(acts).started && After(acts).leader && After(acts).starting == []
    ensures (exists n :: Live(After(acts), n, config)) <==> Registered(After(acts).jobs, config)
  {
    hide After, Happens, HarmlessRun, CoveringRun;
    FaithfulIff(acts);
    CompleteIff(acts);
    assert acts[..|acts|] == acts;
    AlwaysBound(acts);
    hide FaithfulThroughout, CompleteThroughout;
    var s := After(acts);
    var id := config.workflowID;
    if Registered(s.jobs, config) {
      assert Triggered(s, id);
      var n := if id in s.cronIDs then s.cronIDs[id] else s.stops[id];
      var live := if id in s.cronIDs then s.entries[n] else s.tickers[n];
      assert Live(s, n, live) && live.workflowID == id;
    }
  }

  /** Unregistering a workflow while Start is still going through its copy leaves it a live trigger. */
  lemma UnregisterDuringStart(config: Config)
    requires Valid(config)
    ensures var acts := [Register(config, true), Start(Domain.None, true, [config]), Unregister(config.workflowID), StartNext(true)];
      && Happens(acts) && config.workflowID !in After(acts).jobs && exists n :: Live(After(acts), n, config)
  {
    hide After, Happens;
    var acts := [Register(config, true), Start(Domain.None, true, [config]), Unregister(config.workflowID), StartNext(true)];
    IdleHappens();
    assert [] + [acts[0]] == acts[..1] && acts[..1] + [acts[1]] == acts[..2] && acts[..2] + [acts[2]] == acts[..3]
      && acts[..3] + [acts[3]] == acts;
    HappensSnoc([], acts[0]);
    HappensSnoc(acts[..1], acts[1]);
    HappensSnoc(acts[..2], acts[2]);
    HappensSnoc(acts[..3], acts[3]);
    assert Live(After(acts), 0, config);
  }
}
