/** The scheduler service. Each method is one critical section of its mutex. */
module Scheduler {
  import opened Triggers
  import Domain

  class Service {
    var jobs: map<string, Config>
    var paused: set<string>
    var running: map<string, bool>
    var cronEntryIDs: map<string, nat>
    var intervalStop: map<string, nat>
    var started: bool
    var leader: bool
    var starting: seq<Config>
    // What the cron engine and the runtime hold.
    var entries: map<nat, Config>
    var tickers: map<nat, Config>
    var flights: map<nat, Config>
    var serial: nat

    ghost function Model(): State reads this {
      State(jobs, paused, running, cronEntryIDs, intervalStop, started, leader, starting, entries, tickers, flights, serial)
    }

    constructor ()
      ensures Model() == IDLE
    {
      jobs, paused, running, cronEntryIDs, intervalStop := map[], {}, map[], map[], map[];
      started, leader, starting := false, false, [];
      entries, tickers, flights, serial := map[], map[], map[], 0;
    }

    method Pause(id: string) returns (ok: bool)
      modifies this
      ensures Model() == Apply(old(Model()), Act.Pause(id)) && ok == (id in old(jobs))
    {
      if id !in jobs {
        return false;
      }
      paused := paused + {id};
      ok := true;
    }

    method Resume(id: string) returns (ok: bool)
      modifies this
      ensures Model() == Apply(old(Model()), Act.Resume(id)) && ok == (id in old(jobs))
    {
      if id !in jobs {
        return false;
      }
      paused := paused - {id};
      ok := true;
    }

    // Lines 324-333.
    method Unschedule(id: string)
      modifies this`cronEntryIDs, this`entries, this`intervalStop, this`tickers
      ensures Model() == Unscheduled(old(Model()), id)
    {
      if id in cronEntryIDs {
        entries := entries - {cronEntryIDs[id]};
        cronEntryIDs := cronEntryIDs - {id};
      }
      if id in intervalStop {
        tickers := tickers - {intervalStop[id]};
        intervalStop := intervalStop - {id};
      }
    }

    // Lines 218-257.
    method StartJob(config: Config, parses: bool) returns (ok: bool)
      modifies this`cronEntryIDs, this`entries, this`intervalStop, this`tickers, this`serial
      ensures Model() == Scheduled(old(Model()), config, parses) && ok == (config.cron == "" || parses)
    {
      Unschedule(config.workflowID);
      if config.cron != "" {
        if !parses {
          return false;
        }
        entries := entries[serial := config];
        cronEntryIDs := cronEntryIDs[config.workflowID := serial];
        serial := serial + 1;
        return true;
      }
      intervalStop := intervalStop[config.workflowID := serial];
      tickers := tickers[serial := config];
      serial := serial + 1;
      ok := true;
    }

    // Lines 108-131.
    method Register(config: Config, parses: bool) returns (ok: bool)
      modifies this
      ensures Model() == Apply(old(Model()), Act.Register(config, parses))
      ensures ok ==> config.workflowID != "" && (config.interval > 0 <==> config.cron == "")
      ensures config.workflowID != "" && (config.interval > 0 <==> config.cron == "") ==>
        ok == (!started || config.cron == "" || parses) && jobs == old(jobs)[config.workflowID := config]
    {
      if config.workflowID == "" {
        return false;
      }
      if config.interval <= 0 && config.cron == "" {
        return false;
      }
      if config.interval > 0 && config.cron != "" {
        return false;
      }
      Unschedule(config.workflowID);
      jobs := jobs[config.workflowID := config];
      if !started {
        return true;
      }
      ok := StartJob(config, parses);
    }

    // Lines 144-152.
    method Unregister(id: string)
      modifies this
      ensures Model() == Apply(old(Model()), Act.Unregister(id))
    {
      jobs := jobs - {id};
      paused := paused - {id};
      Unschedule(id);
    }

    // Lines 335-359.
    method Load(file: Domain.Option<Persisted>)
      modifies this`jobs, this`paused
      ensures Model() == if file.Some? then Apply(old(Model()), Act.Load(file.value)) else old(Model())
    {
      if file.Some? {
        jobs := file.value.jobs;
        paused := file.value.paused;
      }
    }

    // Lines 154-175: up to the first release of the mutex. `file` is what loading finds and `leads`
    // whether the leader lock is acquired.
    method Start(file: Domain.Option<Persisted>, leads: bool) returns (ghost order: seq<Config>)
      requires Keyed(jobs) && (file.Some? ==> Keyed(file.value.jobs))
      modifies this
      ensures Keyed(jobs) && Possible(old(Model()), Act.Start(file, leads, order))
      ensures Model() == Apply(old(Model()), Act.Start(file, leads, order))
      ensures old(started) ==> Model() == old(Model())
      ensures !old(started) ==>
        && started && leader == leads && jobs == (if file.Some? then file.value.jobs else old(jobs))
        && Domain.Distinct(order)
        && (forall config :: config in order <==> config.workflowID in jobs && jobs[config.workflowID] == config)
        && starting == (if leads then order else []) && entries == old(entries) && tickers == old(tickers)
    {
      if started {
        return [];
      }
      Load(file);
      leader := leads;
      started := true;
      var items := Copy();
      order := items;
      starting := if leads then items else [];
    }

    // Lines 170-173, for every map order.
    method Copy() returns (items: seq<Config>)
      requires Keyed(jobs)
      ensures Domain.Distinct(items)
      ensures forall config :: config in items <==> config.workflowID in jobs && jobs[config.workflowID] == config
    {
      items := [];
      var left := jobs.Keys;
      while left != {}
        invariant left <= jobs.Keys
        invariant forall config :: config in items <==>
          config.workflowID in jobs && config.workflowID !in left && jobs[config.workflowID] == config
        invariant Domain.Distinct(items)
      {
        var id :| id in left;
        left := left - {id};
        items := items + [jobs[id]];
      }
    }

    // Lines 184-188, one round.
    method StartNext(parses: bool)
      requires starting != []
      modifies this
      ensures Model() == Apply(old(Model()), Act.StartNext(parses))
    {
      var config := starting[0];
      var _ := StartJob(config, parses);
      starting := starting[1..];
    }

    // Lines 281-292: the flight's number, when the body is entered.
    method Enter(config: Config) returns (flight: Domain.Option<nat>)
      modifies this
      ensures Model() == Apply(old(Model()), Act.Enter(config))
      ensures flight.None? <==>
        config.workflowID in old(paused) || (config.workflowID in old(running) && old(running)[config.workflowID] && !config.allowOverlap)
      ensures paused == old(paused) && match flight
        case Some(n) => n == old(serial) && flights == old(flights)[n := config] && running == old(running)[config.workflowID := true]
        case None => flights == old(flights) && running == old(running)
    {
      if config.workflowID in paused {
        return Domain.None;
      }
      if config.workflowID in running && running[config.workflowID] && !config.allowOverlap {
        return Domain.None;
      }
      running := running[config.workflowID := true];
      flights := flights[serial := config];
      flight := Domain.Some(serial);
      serial := serial + 1;
    }

    // Lines 294-298.
    method Leave(flight: nat)
      requires flight in flights
      modifies this
      ensures Model() == Apply(old(Model()), Act.Leave(flight))
    {
      running := running[flights[flight].workflowID := false];
      flights := flights - {flight};
    }
  }
}
