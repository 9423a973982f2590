/** The scheduler service's bookkeeping of live triggers and of workflows being executed. */
module Triggers {
  import Domain

  datatype Config = Config(workflowID: string, cron: string, interval: int, runOnStartup: bool, allowOverlap: bool)

  /** The service's maps and, beside them, what they are meant to mirror: the entries of the cron
      engine, the interval goroutines not yet stopped, and the executeOnce bodies in flight.
      `starting` is what Start has copied and not yet started. */
  datatype State = State(
    jobs: map<string, Config>,
    paused: set<string>,
    running: map<string, bool>,
    cronIDs: map<string, nat>,
    stops: map<string, nat>,
    started: bool,
    leader: bool,
    starting: seq<Config>,
    entries: map<nat, Config>,
    tickers: map<nat, Config>,
    flights: map<nat, Config>,
    serial: nat)

  const IDLE := State(map[], {}, map[], map[], map[], false, false, [], map[], map[], map[], 0)

  /** The schedules a file holds. */
  datatype Persisted = Persisted(jobs: map<string, Config>, paused: set<string>)

  datatype Act =
    | Register(config: Config, parses: bool)
    | Unregister(workflowID: string)
    | Pause(workflowID: string)
    | Resume(workflowID: string)
    | Load(persisted: Persisted)
    | Start(file: Domain.Option<Persisted>, leads: bool, order: seq<Config>)
    | StartNext(parses: bool)
    | Enter(config: Config)
    | Leave(flight: nat)

  predicate Valid(config: Config) {
    config.workflowID != "" && (config.interval > 0 || config.cron != "") && !(config.interval > 0 && config.cron != "")
  }

  /** Lines 324-333. */
  function Unscheduled(s: State, id: string): State {
    s.(entries := if id in s.cronIDs then s.entries - {s.cronIDs[id]} else s.entries,
       cronIDs := s.cronIDs - {id},
       tickers := if id in s.stops then s.tickers - {s.stops[id]} else s.tickers,
       stops := s.stops - {id})
  }

  /** Lines 218-257. `parses` says whether the cron engine accepts the expression. */
  function Scheduled(before: State, config: Config, parses: bool): State {
    var s := Unscheduled(before, config.workflowID);
    if config.cron != "" then
      if parses then
        s.(entries := s.entries[s.serial := config], cronIDs := s.cronIDs[config.workflowID := s.serial], serial := s.serial + 1)
      else s
    else s.(tickers := s.tickers[s.serial := config], stops := s.stops[config.workflowID := s.serial], serial := s.serial + 1)
  }

  function Loaded(s: State, persisted: Persisted): State {
    s.(jobs := persisted.jobs, paused := persisted.paused)
  }

  /** executeOnce may run its body. */
  predicate Admits(s: State, config: Config) {
    var id := config.workflowID;
    id !in s.paused && !(id in s.running && s.running[id] && !config.allowOverlap)
  }

  function Apply(s: State, act: Act): State {
    match act
    case Register(config, parses) =>
      if !Valid(config) then s
      else
        var next := Unscheduled(s, config.workflowID).(jobs := s.jobs[config.workflowID := config]);
        if s.started then Scheduled(next, config, parses) else next
    case Unregister(id) => Unscheduled(s, id).(jobs := s.jobs - {id}, paused := s.paused - {id})
    case Pause(id) => if id in s.jobs then s.(paused := s.paused + {id}) else s
    case Resume(id) => if id in s.jobs then s.(paused := s.paused - {id}) else s
    case Load(persisted) => Loaded(s, persisted)
    case Start(file, leads, order) =>
      if s.started then s
      else
        var next := if file.Some? then Loaded(s, file.value) else s;
        next.(started := true, leader := leads, starting := if leads then order else [])
    case StartNext(parses) =>
      if s.starting == [] then s else Scheduled(s, s.starting[0], parses).(starting := s.starting[1..])
    case Enter(config) =>
      if Admits(s, config)
      then s.(running := s.running[config.workflowID := true], flights := s.flights[s.serial := config], serial := s.serial + 1)
      else s
    case Leave(flight) =>
      if flight in s.flights
      then s.(running := s.running[s.flights[flight].workflowID := false], flights := s.flights - {flight})
      else s
  }

  ghost predicate Keyed(jobs: map<string, Config>) {
    forall id :: id in jobs ==> jobs[id].workflowID == id
  }

  /** Loading files jobs by workflow; Start copies each once, in map order. */
  ghost predicate Possible(s: State, act: Act) {
    && (act.Start? ==> Domain.Distinct(act.order))
    && (act.Load? ==> Keyed(act.persisted.jobs))
    && (act.Start? && act.file.Some? ==> Keyed(act.file.value.jobs))
    && (act.Start? && !s.started ==>
      var jobs := if act.file.Some? then act.file.value.jobs else s.jobs;
      forall config :: config in act.order <==> config.workflowID in jobs && jobs[config.workflowID] == config)
  }

  function After(acts: seq<Act>): State {
    if acts == [] then IDLE else Apply(After(acts[..|acts| - 1]), acts[|acts| - 1])
  }

  ghost predicate Happens(acts: seq<Act>) {
    forall k :: 0 <= k < |acts| ==> Possible(After(acts[..k]), acts[k])
  }

  lemma HappensPrefix(acts: seq<Act>)
    requires Happens(acts) && acts != []
    ensures Happens(acts[..|acts| - 1]) && Possible(After(acts[..|acts| - 1]), acts[|acts| - 1])
  {
    hide After, Possible;
    var rest := acts[..|acts| - 1];
    assert forall k :: 0 <= k < |rest| ==> rest[..k] == acts[..k];
  }

  // ----- Live triggers are exactly those in the maps -----

  /** A map of handles and the live things behind them mirror each other. */
  ghost predicate Paired(ids: map<string, nat>, live: map<nat, Config>) {
    && (forall w :: w in ids ==> ids[w] in live && live[ids[w]].workflowID == w)
    && (forall n :: n in live ==> live[n].workflowID in ids && ids[live[n].workflowID] == n)
  }

  ghost predicate Older(live: map<nat, Config>, serial: nat) {
    forall n :: n in live ==> n < serial
  }

  /** No trigger is leaked, and no workflow has two. */
  ghost predicate Bound(s: State) {
    && Paired(s.cronIDs, s.entries) && Paired(s.stops, s.tickers)
    && s.cronIDs.Keys !! s.stops.Keys
    && Older(s.entries, s.serial) && Older(s.tickers, s.serial)
  }

  lemma UnscheduledBound(s: State, id: string)
    requires Bound(s)
    ensures Bound(Unscheduled(s, id)) && id !in Unscheduled(s, id).cronIDs && id !in Unscheduled(s, id).stops
  {
  }

  lemma PairedAdd(ids: map<string, nat>, live: map<nat, Config>, config: Config, serial: nat)
    requires Paired(ids, live) && Older(live, serial) && config.workflowID !in ids
    ensures Paired(ids[config.workflowID := serial], live[serial := config]) && Older(live[serial := config], serial + 1)
  {
  }

  lemma ScheduledBound(s: State, config: Config, parses: bool)
    requires Bound(s)
    ensures Bound(Scheduled(s, config, parses))
  {
    hide Paired, Unscheduled;
    UnscheduledBound(s, config.workflowID);
    var next := Unscheduled(s, config.workflowID);
    PairedAdd(next.cronIDs, next.entries, config, next.serial);
    PairedAdd(next.stops, next.tickers, config, next.serial);
  }

  lemma RegisterBound(s: State, config: Config, parses: bool)
    requires Bound(s)
    ensures Bound(Apply(s, Register(config, parses)))
  {
    hide Paired, Scheduled, Unscheduled, Older;
    UnscheduledBound(s, config.workflowID);
    ScheduledBound(Unscheduled(s, config.workflowID).(jobs := s.jobs[config.workflowID := config]), config, parses);
  }

  lemma StartNextBound(s: State, parses: bool)
    requires Bound(s)
    ensures Bound(Apply(s, StartNext(parses)))
  {
    hide Paired, Scheduled, Older;
    if s.starting != [] {
      ScheduledBound(s, s.starting[0], parses);
    }
  }

  lemma OthersBound(s: State, act: Act)
    requires Bound(s) && (act.Pause? || act.Resume? || act.Load? || act.Start?)
    ensures Bound(Apply(s, act))
  {
    OthersBook(s, act);
    hide Paired, Older, Apply;
  }

  lemma OthersBook(s: State, act: Act)
    requires act.Pause? || act.Resume? || act.Load? || act.Start?
    ensures SameBook(s, Apply(s, act))
  {
    LoadedFields(s);
    hide Loaded;
  }

  lemma FlightBound(s: State, act: Act)
    requires Bound(s) && (act.Enter? || act.Leave?)
    ensures Bound(Apply(s, act))
  {
    hide Paired, Admits;
  }

  lemma UnregisterBound(s: State, id: string)
    requires Bound(s)
    ensures Bound(Apply(s, Unregister(id)))
  {
    hide Paired, Unscheduled, Older;
    UnscheduledBound(s, id);
  }

  lemma StepBound(s: State, act: Act)
    requires Bound(s)
    ensures Bound(Apply(s, act))
  {
    hide Bound, Apply;
    match act {
      case Register(config, parses) => RegisterBound(s, config, parses);
      case Unregister(id) => UnregisterBound(s, id);
      case StartNext(parses) => StartNextBound(s, parses);
      case Enter(_) => FlightBound(s, act);
      case Leave(_) => FlightBound(s, act);
      case _ => OthersBound(s, act);
    }
  }

  /** After any acts, the live triggers are those in the cron and interval maps, one per workflow. */
  lemma {:induction false} AlwaysBound(acts: seq<Act>)
    ensures Bound(After(acts))
  {
    if acts != [] {
      AlwaysBound(acts[..|acts| - 1]);
      StepBound(After(acts[..|acts| - 1]), acts[|acts| - 1]);
    }
  }

  /** Cron expressions go to the cron engine, all other schedules to an interval goroutine. */
  ghost predicate Sorted(s: State) {
    && (forall n :: n in s.entries ==> s.entries[n].cron != "")
    && (forall n :: n in s.tickers ==> s.tickers[n].cron == "")
  }

  lemma ScheduledSorted(s: State, config: Config, parses: bool)
    requires Sorted(s)
    ensures Sorted(Unscheduled(s, config.workflowID)) && Sorted(Scheduled(s, config, parses))
  {
    UnscheduledSorted(s, config.workflowID);
    ScheduledFields(s, config, parses);
    hide Unscheduled, Scheduled;
  }

  lemma ScheduledFields(s: State, config: Config, parses: bool)
    ensures var u := Unscheduled(s, config.workflowID); var next := Scheduled(s, config, parses);
      && next.entries == (if config.cron != "" && parses then u.entries[u.serial := config] else u.entries)
      && next.tickers == (if config.cron == "" then u.tickers[u.serial := config] else u.tickers)
  {
    hide Unscheduled;
  }

  lemma UnscheduledSorted(s: State, id: string)
    requires Sorted(s)
    ensures Sorted(Unscheduled(s, id))
  {
  }

  lemma RegisterSorted(s: State, config: Config, parses: bool)
    requires Sorted(s)
    ensures Sorted(Apply(s, Register(config, parses)))
  {
    hide Scheduled, Unscheduled, Valid;
    ScheduledSorted(s, config, parses);
    ScheduledSorted(Unscheduled(s, config.workflowID).(jobs := s.jobs[config.workflowID := config]), config, parses);
  }

  lemma StartNextSorted(s: State, parses: bool)
    requires Sorted(s)
    ensures Sorted(Apply(s, StartNext(parses)))
  {
    hide Scheduled;
    if s.starting != [] {
      ScheduledSorted(s, s.starting[0], parses);
    }
  }

  lemma {:induction false} AlwaysSorted(acts: seq<Act>)
    ensures Sorted(After(acts))
  {
    if acts != [] {
      var s, act := After(acts[..|acts| - 1]), acts[|acts| - 1];
      AlwaysSorted(acts[..|acts| - 1]);
      hide Sorted, Apply;
      match act {
        case Register(config, parses) => RegisterSorted(s, config, parses);
        case StartNext(parses) => StartNextSorted(s, parses);
        case Unregister(id) => UnregisterSorted(s, id);
        case Enter(_) => FlightSorted(s, act);
        case Leave(_) => FlightSorted(s, act);
        case _ =>
          OthersBook(s, act);
          SortedSame(s, Apply(s, act));
      }
    }
  }

  lemma UnregisterSorted(s: State, id: string)
    requires Sorted(s)
    ensures Sorted(Apply(s, Unregister(id)))
  {
  }

  lemma FlightSorted(s: State, act: Act)
    requires Sorted(s) && (act.Enter? || act.Leave?)
    ensures Sorted(Apply(s, act))
  {
    hide Admits;
  }

  lemma SortedSame(s: State, next: State)
    requires Sorted(s) && SameBook(s, next)
    ensures Sorted(next)
  {
  }

  ghost predicate Live(s: State, n: nat, config: Config) {
    (n in s.entries && s.entries[n] == config) || (n in s.tickers && s.tickers[n] == config)
  }

  /** Two live triggers of one workflow are one trigger. */
  lemma OneTrigger(acts: seq<Act>, m: nat, one: Config, n: nat, other: Config)
    requires Live(After(acts), m, one) && Live(After(acts), n, other) && one.workflowID == other.workflowID
    ensures m == n && one == other
  {
    hide After;
    AlwaysBound(acts);
  }

  /** Unregistering leaves the workflow no live trigger. */
  lemma UnregisterStops(acts: seq<Act>, id: string, n: nat, config: Config)
    requires Live(After(acts + [Unregister(id)]), n, config)
    ensures config.workflowID != id
  {
    hide After;
    AfterSnoc(acts, Unregister(id));
    AlwaysBound(acts);
    UnscheduledBound(After(acts), id);
  }

  lemma AfterSnoc(acts: seq<Act>, act: Act)
    ensures After(acts + [act]) == Apply(After(acts), act)
  {
    assert (acts + [act])[..|acts|] == acts;
  }

  lemma IdleHappens()
    ensures Happens([]) && After([]) == IDLE
  {
  }

  lemma HappensSnoc(acts: seq<Act>, act: Act)
    requires Happens(acts) && Possible(After(acts), act)
    ensures Happens(acts + [act]) && After(acts + [act]) == Apply(After(acts), act)
  {
    hide After, Possible, Apply;
    AfterSnoc(acts, act);
    var more := acts + [act];
    forall k | 0 <= k <= |acts| ensures more[..k] == if k < |acts| then acts[..k] else acts {
    }
  }

  // ----- Overlap -----

  ghost predicate Aloft(s: State, n: nat, id: string) {
    n in s.flights && s.flights[n].workflowID == id
  }

  /** At most one body is in flight for the workflow, exactly while it is marked as running. */
  ghost predicate Single(s: State, id: string) {
    && Older(s.flights, s.serial)
    && ((id in s.running && s.running[id]) <==> exists n :: Aloft(s, n, id))
    && (forall m, n :: Aloft(s, m, id) && Aloft(s, n, id) ==> m == n)
  }

  /** Every config that is executed for the workflow forbids overlap. */
  predicate Forbids(act: Act, id: string) {
    act.Enter? && act.config.workflowID == id ==> !act.config.allowOverlap
  }

  lemma SingleSame(s: State, next: State, id: string)
    requires Single(s, id) && next.flights == s.flights && next.running == s.running && next.serial >= s.serial
    ensures Single(next, id)
  {
    assert forall n :: Aloft(next, n, id) <==> Aloft(s, n, id);
  }

  lemma EnterSingle(s: State, config: Config, id: string)
    requires Single(s, id) && Forbids(Enter(config), id)
    ensures Single(Apply(s, Enter(config)), id)
  {
    if Admits(s, config) {
      EnterFields(s, config);
      hide Apply, Admits;
      var next := Apply(s, Enter(config));
      if config.workflowID == id {
        AdmitsIdle(s, config);
        forall n ensures Aloft(next, n, id) <==> n == s.serial {
          assert !Aloft(s, n, id);
        }
        assert Aloft(next, s.serial, id);
      } else {
        assert forall n :: Aloft(next, n, id) <==> Aloft(s, n, id);
      }
    }
  }

  lemma EnterFields(s: State, config: Config)
    requires Admits(s, config)
    ensures var next := Apply(s, Enter(config));
      && next.flights == s.flights[s.serial := config] && next.serial == s.serial + 1
      && next.running == s.running[config.workflowID := true]
  {
    hide Admits;
  }

  lemma AdmitsIdle(s: State, config: Config)
    requires Admits(s, config) && !config.allowOverlap
    ensures !(config.workflowID in s.running && s.running[config.workflowID])
  {
  }

  lemma LeaveSingle(s: State, flight: nat, id: string)
    requires Single(s, id)
    ensures Single(Apply(s, Leave(flight)), id)
  {
    if flight in s.flights {
      LeaveFields(s, flight);
      hide Apply;
      var next := Apply(s, Leave(flight));
      if s.flights[flight].workflowID == id {
        assert Aloft(s, flight, id);
        forall n ensures !Aloft(next, n, id) {
          assert Aloft(next, n, id) ==> Aloft(s, n, id);
        }
      } else {
        assert forall n :: Aloft(next, n, id) <==> Aloft(s, n, id);
      }
    }
  }

  lemma LeaveFields(s: State, flight: nat)
    requires flight in s.flights
    ensures var next := Apply(s, Leave(flight));
      && next.flights == s.flights - {flight} && next.serial == s.serial
      && next.running == s.running[s.flights[flight].workflowID := false]
  {
  }

  ghost predicate SameAir(s: State, next: State) {
    next.flights == s.flights && next.running == s.running && next.serial >= s.serial
  }

  lemma RegisterQuiet(s: State, config: Config, parses: bool)
    ensures SameAir(s, Apply(s, Register(config, parses)))
  {
    hide Unscheduled, Scheduled, Valid;
    SameFlights(s, config, parses);
    SameFlights(Unscheduled(s, config.workflowID).(jobs := s.jobs[config.workflowID := config]), config, parses);
  }

  lemma UnregisterQuiet(s: State, id: string)
    ensures SameAir(s, Apply(s, Unregister(id)))
  {
    hide Unscheduled, Scheduled;
    SameFlights(s, Config(id, "", 0, false, false), false);
  }

  lemma StartNextQuiet(s: State, parses: bool)
    ensures SameAir(s, Apply(s, StartNext(parses)))
  {
    hide Unscheduled, Scheduled;
    if s.starting != [] {
      SameFlights(s, s.starting[0], parses);
    }
  }

  lemma OthersQuiet(s: State, act: Act)
    requires act.Pause? || act.Resume? || act.Load?
    ensures SameAir(s, Apply(s, act))
  {
  }

  lemma StartQuiet(s: State, act: Act)
    requires act.Start?
    ensures SameAir(s, Apply(s, act))
  {
    LoadedFields(s);
    hide Loaded;
  }

  lemma LoadedFields(s: State)
    ensures forall file :: SameBook(s, Loaded(s, file))
  {
  }

  /** Everything but the schedules and the pauses. */
  ghost predicate SameBook(s: State, next: State) {
    && next.flights == s.flights && next.running == s.running && next.serial == s.serial && next.cronIDs == s.cronIDs
    && next.stops == s.stops && next.entries == s.entries && next.tickers == s.tickers
  }

  /** Only entering and leaving change what is in flight. */
  lemma QuietFlights(s: State, act: Act)
    requires !act.Enter? && !act.Leave?
    ensures SameAir(s, Apply(s, act))
  {
    hide Apply, SameAir;
    match act {
      case Register(config, parses) => RegisterQuiet(s, config, parses);
      case Unregister(id) => UnregisterQuiet(s, id);
      case StartNext(parses) => StartNextQuiet(s, parses);
      case Start(_, _, _) => StartQuiet(s, act);
      case _ => OthersQuiet(s, act);
    }
  }

  lemma StepSingle(s: State, act: Act, id: string)
    requires Single(s, id) && Forbids(act, id)
    ensures Single(Apply(s, act), id)
  {
    hide Apply, Single, Forbids;
    match act {
      case Enter(config) => EnterSingle(s, config, id);
      case Leave(flight) => LeaveSingle(s, flight, id);
      case _ =>
        QuietFlights(s, act);
        SingleSame(s, Apply(s, act), id);
    }
  }

  lemma SameFlights(s: State, config: Config, parses: bool)
    ensures var next := Scheduled(s, config, parses);
      next.flights == s.flights && next.running == s.running && next.serial >= s.serial
    ensures var next := Unscheduled(s, config.workflowID);
      next.flights == s.flights && next.running == s.running && next.serial == s.serial
  {
  }

  /** When firing a trigger enters the body. */
  lemma EnterIff(s: State, config: Config)
    ensures var next := Apply(s, Enter(config)); var id := config.workflowID;
      if id !in s.paused && (config.allowOverlap || id !in s.running || !s.running[id])
      then next == s.(running := s.running[id := true], flights := s.flights[s.serial := config], serial := s.serial + 1)
      else next == s
  {
  }

  /** If overlap is forbidden, a trigger is ignored exactly while the workflow is paused or in flight. */
  lemma EntersUnlessBusy(acts: seq<Act>, config: Config)
    requires !config.allowOverlap && forall k :: 0 <= k < |acts| ==> Forbids(acts[k], config.workflowID)
    ensures var s := After(acts); var next := After(acts + [Enter(config)]);
      next.flights == (if config.workflowID in s.paused || exists n :: Aloft(s, n, config.workflowID) then s.flights
                       else s.flights[s.serial := config]) && s.serial !in s.flights
  {
    hide Apply, Forbids;
    NoOverlap(acts, config.workflowID);
    AfterSnoc(acts, Enter(config));
    EnterIff(After(acts), config);
  }

  /** At most one execution of the workflow is in flight, whichever triggers fire. */
  lemma {:induction false} NoOverlap(acts: seq<Act>, id: string)
    requires forall k :: 0 <= k < |acts| ==> Forbids(acts[k], id)
    ensures Single(After(acts), id)
  {
    hide Single, Apply, Forbids;
    if acts == [] {
      IdleSingle(id);
    } else {
      NoOverlap(acts[..|acts| - 1], id);
      StepSingle(After(acts[..|acts| - 1]), acts[|acts| - 1], id);
    }
  }

  lemma IdleSingle(id: string)
    ensures Single(IDLE, id)
  {
  }

  // ----- Pausing -----

  /** The acts after which a paused workflow may no longer be paused. */
  predicate Lifts(act: Act, id: string) {
    match act
    case Resume(w) => w == id
    case Unregister(w) => w == id
    case Load(_) => true
    case Start(file, _, _) => file.Some?
    case _ => false
  }

  /** Which workflows are paused, act by act. */
  lemma PausedIff(s: State, act: Act, id: string)
    ensures id in Apply(s, act).paused <==> match act
      case Pause(w) => id in s.paused || (w == id && id in s.jobs)
      case Resume(w) => id in s.paused && (w != id || id !in s.jobs)
      case Unregister(w) => id in s.paused && w != id
      case Load(file) => id in file.paused
      case Start(Some(file), _, _) => if s.started then id in s.paused else id in file.paused
      case _ => id in s.paused
  {
    hide Apply;
    match act {
      case Register(config, parses) => RegisterPauses(s, config, parses);
      case StartNext(parses) => StartNextPauses(s, parses);
      case Start(_, _, _) => StartPauses(s, act);
      case Enter(config) => EnterIff(s, config);
      case Unregister(w) => UnregisterPauses(s, w);
      case Load(file) => LoadPauses(s, file);
      case Leave(flight) => LeavePauses(s, flight);
      case _ => OthersPauses(s, act);
    }
  }

  lemma UnregisterPauses(s: State, id: string)
    ensures Apply(s, Unregister(id)).paused == s.paused - {id}
  {
    hide Unscheduled;
  }

  lemma LoadPauses(s: State, file: Persisted)
    ensures Apply(s, Load(file)).paused == file.paused
  {
  }

  lemma LeavePauses(s: State, flight: nat)
    ensures Apply(s, Leave(flight)).paused == s.paused
  {
  }

  lemma OthersPauses(s: State, act: Act)
    requires act.Pause? || act.Resume?
    ensures Apply(s, act).paused ==
      if act.workflowID !in s.jobs then s.paused
      else if act.Pause? then s.paused + {act.workflowID} else s.paused - {act.workflowID}
  {
  }

  lemma SamePauses(s: State, config: Config, parses: bool)
    ensures Scheduled(s, config, parses).paused == Unscheduled(s, config.workflowID).paused == s.paused
  {
  }

  lemma RegisterPauses(s: State, config: Config, parses: bool)
    ensures Apply(s, Register(config, parses)).paused == s.paused
  {
    hide Unscheduled, Scheduled, Valid;
    SamePauses(s, config, parses);
    SamePauses(Unscheduled(s, config.workflowID).(jobs := s.jobs[config.workflowID := config]), config, parses);
  }

  lemma StartNextPauses(s: State, parses: bool)
    ensures Apply(s, StartNext(parses)).paused == s.paused
  {
    hide Unscheduled, Scheduled;
    if s.starting != [] {
      SamePauses(s, s.starting[0], parses);
    }
  }

  lemma StartPauses(s: State, act: Act)
    requires act.Start?
    ensures Apply(s, act).paused == if s.started || act.file.None? then s.paused else act.file.value.paused
  {
  }

  lemma PausedStays(s: State, act: Act, id: string)
    requires id in s.paused && !Lifts(act, id)
    ensures id in Apply(s, act).paused
    ensures forall n :: Aloft(Apply(s, act), n, id) ==> Aloft(s, n, id)
  {
    PausedIff(s, act, id);
    hide Apply;
    match act {
      case Enter(config) => EnterIff(s, config);
      case Leave(flight) =>
        if flight in s.flights {
          LeaveFields(s, flight);
        } else {
          LeaveNothing(s, flight);
        }
      case _ => QuietFlights(s, act);
    }
  }

  lemma LeaveNothing(s: State, flight: nat)
    requires flight !in s.flights
    ensures Apply(s, Leave(flight)) == s
  {
  }

  /** Once a registered workflow is paused, no execution of it begins until it is resumed or
      unregistered or a file is loaded. */
  lemma {:induction false} PauseStops(acts: seq<Act>, later: seq<Act>, id: string)
    requires id in After(acts).jobs && forall k :: 0 <= k < |later| ==> !Lifts(later[k], id)
    ensures id in After(acts + [Pause(id)] + later).paused
    ensures forall n :: Aloft(After(acts + [Pause(id)] + later), n, id) ==> Aloft(After(acts), n, id)
  {
    hide Apply, Lifts;
    var paused := acts + [Pause(id)];
    if later == [] {
      assert paused + later == paused;
      AfterSnoc(acts, Pause(id));
      PauseLands(After(acts), id);
    } else {
      var last := |later| - 1;
      PauseStops(acts, later[..last], id);
      assert paused + later == paused + later[..last] + [later[last]];
      AfterSnoc(paused + later[..last], later[last]);
      PausedStays(After(paused + later[..last]), later[last], id);
    }
  }

  lemma PauseLands(s: State, id: string)
    requires id in s.jobs
    ensures id in Apply(s, Pause(id)).paused && Apply(s, Pause(id)).flights == s.flights
  {
  }

  /** One config that allows overlap is enough to let one that forbids it overlap. */
  lemma MixedOverlap(strict: Config, loose: Config)
    requires !strict.allowOverlap && loose.allowOverlap && strict.workflowID == loose.workflowID
    ensures var acts := [Enter(loose), Enter(loose), Leave(0), Enter(strict)];
      Happens(acts) && After(acts).flights == map[1 := loose, 2 := strict]
  {
    hide After, Happens;
    var acts := [Enter(loose), Enter(loose), Leave(0), Enter(strict)];
    IdleHappens();
    assert [] + [acts[0]] == acts[..1] && acts[..1] + [acts[1]] == acts[..2] && acts[..2] + [acts[2]] == acts[..3]
      && acts[..3] + [acts[3]] == acts;
    HappensSnoc([], acts[0]);
    HappensSnoc(acts[..1], acts[1]);
    HappensSnoc(acts[..2], acts[2]);
    HappensSnoc(acts[..3], acts[3]);
  }
}
