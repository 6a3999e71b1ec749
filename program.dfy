/** The program thread of src/program.py: the start-up gate that waits for a
    valid service, the job table handed to the background scheduler, and the
    shutdown sequence. Threads, sleeping and the scheduler's own timing are
    not modelled; what the program logs and asks of others is recorded in a
    ghost event log, and the unload calls in the Ollama client's trace. */
module Orchestration {
  import opened Results
  import opened Version
  import opened Manager
  import opened Ollama

  /** A service as the program sees it: its name and whether it initialised. */
  datatype ServiceEntry = ServiceEntry(name: string, initialized: bool)

  /** `validate_services`: `any` over the services' `validate()`, in order;
      `valid` holds the names whose `validate()` answers true. */
  function AnyValid(services: seq<ServiceEntry>, valid: set<string>): (r: bool)
    ensures r <==> exists i :: 0 <= i < |services| && services[i].name in valid
    ensures services == [] ==> !r
  {
    if services == [] then false
    else if services[0].name in valid then true
    else
      var r := AnyValid(services[1..], valid);
      assert forall i :: 1 <= i < |services| ==> services[i] == services[1..][i - 1];
      r
  }

  /** The first index at or after `from` at which `validate_services` holds,
      where `polls[k]` is what `validate()` answers at its `k`-th evaluation. */
  function FirstValid(services: seq<ServiceEntry>, polls: seq<set<string>>, from: nat): (r: Option<nat>)
    ensures r.Some? ==> from <= r.value < |polls| && AnyValid(services, polls[r.value])
    ensures r.Some? ==> forall k :: from <= k < r.value ==> !AnyValid(services, polls[k])
    ensures r.None? ==> forall k :: from <= k < |polls| ==> !AnyValid(services, polls[k])
    decreases |polls| - from
  {
    if from >= |polls| then None
    else if AnyValid(services, polls[from]) then Some(from)
    else FirstValid(services, polls, from + 1)
  }

  /** An entry of the table of scheduled functions. */
  datatype JobConfig = JobConfig(func: string, interval: nat, args: Option<seq<string>>, maxInstances: Option<nat>)

  /** The table `_schedule_functions` registers: the log cleaner, hourly. */
  const ScheduledFunctions: seq<JobConfig> := [JobConfig("log_cleaner", 60 * 60, None, None)]

  /** A job as handed to the scheduler's `add_job`; `nextRunTime` is a clock
      reading. */
  datatype Job = Job(
    func: string,
    trigger: string,
    seconds: nat,
    args: Option<seq<string>>,
    id: string,
    maxInstances: nat,
    replaceExisting: bool,
    nextRunTime: int,
    misfireGraceTime: nat)

  /** The job registered for one table entry at time `now`. */
  function JobFor(c: JobConfig, now: int): (j: Job)
    ensures j.id == c.func && j.func == c.func
    ensures j.trigger == "interval" && j.seconds == c.interval && j.args == c.args
    ensures c.maxInstances.None? ==> j.maxInstances == 1
    ensures c.maxInstances.Some? ==> j.maxInstances == c.maxInstances.value
    ensures j.replaceExisting && j.nextRunTime == now && j.misfireGraceTime == 30
  {
    Job(c.func, "interval", c.interval, c.args, c.func,
        if c.maxInstances.Some? then c.maxInstances.value else 1,
        true, now, 30)
  }

  /** No two jobs share an id. */
  predicate IdsUnique(jobs: seq<Job>) {
    forall i, j :: 0 <= i < j < |jobs| ==> jobs[i].id != jobs[j].id
  }

  /** `add_job` with `replace_existing=True`: a job with the same id is
      replaced in place, otherwise the job is appended. */
  function AddJob(jobs: seq<Job>, job: Job): (r: seq<Job>)
    ensures job in r
  {
    if jobs == [] then [job]
    else if jobs[0].id == job.id then [job] + jobs[1..]
    else [jobs[0]] + AddJob(jobs[1..], job)
  }

  /** Adding a job keeps every job with another id, brings in nothing but the
      new job, and keeps ids unique. */
  lemma {:induction false} AddJobKeepsOthers(jobs: seq<Job>, job: Job)
    ensures forall k :: k in jobs && k.id != job.id ==> k in AddJob(jobs, job)
    ensures forall k :: k in AddJob(jobs, job) ==> k == job || k in jobs
    ensures IdsUnique(jobs) ==> IdsUnique(AddJob(jobs, job))
    decreases |jobs|
  {
    if jobs != [] && jobs[0].id != job.id {
      var tail := jobs[1..];
      var rest := AddJob(tail, job);
      AddJobKeepsOthers(tail, job);
      assert AddJob(jobs, job) == [jobs[0]] + rest;
      assert forall k :: k in jobs ==> k == jobs[0] || k in tail;
      if IdsUnique(jobs) {
        assert IdsUnique(tail);
        forall k | k in rest ensures k.id != jobs[0].id {
          assert k == job || k in tail;
        }
        UniqueCons(jobs[0], rest);
      }
    } else if jobs != [] {
      assert forall k :: k in jobs[1..] ==> k in jobs;
      if IdsUnique(jobs) {
        forall k | k in jobs[1..] ensures k.id != job.id {
          var i :| 0 <= i < |jobs[1..]| && jobs[1..][i] == k;
          assert jobs[i + 1] == k;
        }
        UniqueCons(job, jobs[1..]);
      }
    }
  }

  /** A job in front of jobs with other ids keeps ids unique. */
  lemma UniqueCons(head: Job, rest: seq<Job>)
    requires IdsUnique(rest)
    requires forall k :: k in rest ==> k.id != head.id
    ensures IdsUnique([head] + rest)
  {
    var r := [head] + rest;
    forall i, j | 0 <= i < j < |r| ensures r[i].id != r[j].id {
      if i == 0 {
        assert r[j] == rest[j - 1];
        assert rest[j - 1] in rest;
      } else {
        assert r[i] == rest[i - 1] && r[j] == rest[j - 1];
      }
    }
  }

  /** The jobs after registering every table entry in order. */
  function Scheduled(table: seq<JobConfig>, now: int, jobs: seq<Job>): seq<Job> {
    if table == [] then jobs
    else Scheduled(table[1..], now, AddJob(jobs, JobFor(table[0], now)))
  }

  /** The table's functions have distinct names. */
  predicate FuncsDistinct(table: seq<JobConfig>) {
    forall i, j :: 0 <= i < j < |table| ==> table[i].func != table[j].func
  }

  /** Scheduling keeps ids unique, and with distinct function names every
      entry of the table ends up registered, with its own job. */
  lemma {:induction false} ScheduledRegistersEach(table: seq<JobConfig>, now: int, jobs: seq<Job>)
    requires FuncsDistinct(table)
    ensures IdsUnique(jobs) ==> IdsUnique(Scheduled(table, now, jobs))
    ensures forall i :: 0 <= i < |table| ==> JobFor(table[i], now) in Scheduled(table, now, jobs)
    decreases |table|
  {
    if table != [] {
      var first := JobFor(table[0], now);
      var next := AddJob(jobs, first);
      AddJobKeepsOthers(jobs, first);
      assert FuncsDistinct(table[1..]);
      ScheduledRegistersEach(table[1..], now, next);
      KeptBy(table[1..], now, next, first);
      forall i | 1 <= i < |table|
        ensures JobFor(table[i], now) in Scheduled(table, now, jobs)
      {
        assert table[i] == table[1..][i - 1];
      }
    }
  }

  /** A registered job survives later entries with other names. */
  lemma {:induction false} KeptBy(table: seq<JobConfig>, now: int, jobs: seq<Job>, job: Job)
    requires job in jobs
    requires forall i :: 0 <= i < |table| ==> table[i].func != job.id
    ensures job in Scheduled(table, now, jobs)
    decreases |table|
  {
    if table != [] {
      AddJobKeepsOthers(jobs, JobFor(table[0], now));
      KeptBy(table[1..], now, AddJob(jobs, JobFor(table[0], now)), job);
    }
  }

  /** The program's own table yields exactly one job: the hourly log cleaner,
      first run now, with a 30-second grace time. */
  lemma DefaultSchedule(now: int)
    ensures Scheduled(ScheduledFunctions, now, []) ==
      [Job("log_cleaner", "interval", 3600, None, "log_cleaner", 1, true, now, 30)]
  {
  }

  /** The background scheduler: its jobs and whether it runs. */
  datatype Scheduler = Scheduler(jobs: seq<Job>, running: bool)

  /** What the program logs or asks of others, in order. */
  datatype Event =
    | OllamaUnavailable
    | Announced(version: string)
    | WaitingForConfiguration
    | ServiceStarted(name: string)
    | ThreadStarted
    | SchedulerStarted
    | Listening
    | Unloading(model: string)
    | ServiceStopped(name: string)
    | SchedulerShutdown(wait: bool)
    | Stopped

  /** How `start` ends: running, still polling for a valid service when the
      polls run out, `get_version` raising, or the services never assigned. */
  datatype StartOutcome = Started | StillWaiting | VersionMissing(error: VersionError) | NoServices

  /** One start event per service, in order. */
  function ServiceStarts(services: seq<ServiceEntry>): (es: seq<Event>)
    ensures |es| == |services|
    ensures forall i :: 0 <= i < |services| ==> es[i] == ServiceStarted(services[i].name)
  {
    seq(|services|, i requires 0 <= i < |services| => ServiceStarted(services[i].name))
  }

  /** The events of a `start` still waiting for a valid service after the
      announcement: the warning, when the first check failed. */
  function WaitTail(services: seq<ServiceEntry>, polls: seq<set<string>>): (es: seq<Event>)
    ensures forall e :: e in es ==> e == WaitingForConfiguration
  {
    if |polls| >= 1 && !AnyValid(services, polls[0]) then [WaitingForConfiguration] else []
  }

  /** The events of a successful `start` after the announcement. */
  function StartTail(services: seq<ServiceEntry>, polls: seq<set<string>>): seq<Event> {
    WaitTail(services, polls) + ServiceStarts(services) + [ThreadStarted, SchedulerStarted]
  }

  /** No service is started unless `validate_services` held at some poll of the
      waiting loop; a successful start starts every service, in order, after the
      optional warning. */
  lemma StartGate(services: seq<ServiceEntry>, polls: seq<set<string>>)
    requires |polls| >= 1
    ensures forall n :: ServiceStarted(n) !in WaitTail(services, polls)
    ensures var es := StartTail(services, polls); var w := |es| - |services| - 2;
      && es[w..w + |services|] == ServiceStarts(services)
      && es[|es| - 2..] == [ThreadStarted, SchedulerStarted]
      && (w == 1 <==> !AnyValid(services, polls[0]))
  {
    var es := StartTail(services, polls);
    var warn := WaitTail(services, polls);
    assert es[|warn|..|warn| + |services|] == ServiceStarts(services);
  }

  /** One unload log line per running model, in order. */
  function UnloadEvents(models: seq<ModelInfo>): (es: seq<Event>)
    ensures |es| == |models|
    ensures forall i :: 0 <= i < |models| ==> es[i] == Unloading(models[i].name)
  {
    seq(|models|, i requires 0 <= i < |models| => Unloading(models[i].name))
  }

  /** One unload call per running model, in order. */
  function UnloadCalls(models: seq<ModelInfo>): (cs: seq<BackendCall>)
    ensures |cs| == |models|
    ensures forall i :: 0 <= i < |models| ==> cs[i] == Unload(models[i].name)
  {
    seq(|models|, i requires 0 <= i < |models| => Unload(models[i].name))
  }

  /** One stop event per initialised service, in order. */
  function ServiceStops(services: seq<ServiceEntry>): (es: seq<Event>)
    ensures forall e :: e in es ==> e.ServiceStopped?
  {
    if services == [] then []
    else (if services[0].initialized then [ServiceStopped(services[0].name)] else []) + ServiceStops(services[1..])
  }

  /** The services stopped are exactly the initialised ones. */
  lemma {:induction false} ServiceStopsExactlyInitialized(services: seq<ServiceEntry>)
    ensures forall n :: ServiceStopped(n) in ServiceStops(services) <==>
      exists i :: 0 <= i < |services| && services[i].initialized && services[i].name == n
    decreases |services|
  {
    if services != [] {
      ServiceStopsExactlyInitialized(services[1..]);
      assert forall i :: 1 <= i < |services| ==> services[i] == services[1..][i - 1];
    }
  }

  /** The events of `stop` on an initialised program. */
  function StopEvents(models: seq<ModelInfo>, services: seq<ServiceEntry>, schedulerRunning: bool): seq<Event> {
    UnloadEvents(models) + ServiceStops(services) + ShutdownTail(schedulerRunning)
  }

  /** The end of `stop`: the scheduler shutdown when it runs, then the final line. */
  function ShutdownTail(schedulerRunning: bool): seq<Event> {
    (if schedulerRunning then [SchedulerShutdown(false)] else []) + [Stopped]
  }

  /** The phase of a shutdown event: unloads, then service stops, then the
      scheduler shutdown, then the final line. */
  function Phase(e: Event): nat {
    match e
    case Unloading(_) => 0
    case ServiceStopped(_) => 1
    case SchedulerShutdown(_) => 2
    case _ => 3
  }

  /** The shutdown events come phase by phase: every unload before every
      service stop, every service stop before the scheduler shutdown. */
  lemma StopPhasesInOrder(models: seq<ModelInfo>, services: seq<ServiceEntry>, schedulerRunning: bool)
    ensures var es := StopEvents(models, services, schedulerRunning);
      forall i, j :: 0 <= i < j < |es| ==> Phase(es[i]) <= Phase(es[j])
  {
    var u := UnloadEvents(models);
    var s := ServiceStops(services);
    var h: seq<Event> := if schedulerRunning then [SchedulerShutdown(false)] else [];
    var es := StopEvents(models, services, schedulerRunning);
    assert es == u + s + h + [Stopped];
    forall i | 0 <= i < |es|
      ensures Phase(es[i]) == if i < |u| then 0 else if i < |u| + |s| then 1 else if i < |u| + |s| + |h| then 2 else 3
    {
      if i < |u| {
        assert es[i] == u[i];
      } else if i < |u| + |s| {
        assert es[i] == s[i - |u|];
        assert s[i - |u|] in s;
      } else if i < |u| + |s| + |h| {
        assert es[i] == h[i - |u| - |s|];
      }
    }
  }

  /** The shutdown stops exactly the initialised services, and unloads the
      running models first, in list order. */
  lemma StopCoversServicesAndModels(models: seq<ModelInfo>, services: seq<ServiceEntry>, schedulerRunning: bool)
    ensures var es := StopEvents(models, services, schedulerRunning);
      && es[..|models|] == UnloadEvents(models)
      && forall n :: ServiceStopped(n) in es <==> exists i :: 0 <= i < |services| && services[i].initialized && services[i].name == n
  {
    var es := StopEvents(models, services, schedulerRunning);
    var tail := ShutdownTail(schedulerRunning);
    assert es == UnloadEvents(models) + (ServiceStops(services) + tail);
    assert es[..|models|] == UnloadEvents(models);
    ServiceStopsExactlyInitialized(services);
    forall n
      ensures ServiceStopped(n) in es <==> ServiceStopped(n) in ServiceStops(services)
    {
      assert ServiceStopped(n) !in UnloadEvents(models);
      assert ServiceStopped(n) !in tail;
    }
  }

  /** A second `stop` on the same models and services issues the same unloads
      and service stops again, with no scheduler shutdown. */
  lemma SecondStopRepeats(models: seq<ModelInfo>, services: seq<ServiceEntry>, schedulerRunning: bool)
    ensures var first := StopEvents(models, services, schedulerRunning);
      var second := StopEvents(models, services, false);
      && second[..|models|] == first[..|models|]
      && second == UnloadEvents(models) + ServiceStops(services) + [Stopped]
      && SchedulerShutdown(false) !in second
  {
    StopCoversServicesAndModels(models, services, schedulerRunning);
    StopCoversServicesAndModels(models, services, false);
    var second := StopEvents(models, services, false);
    assert SchedulerShutdown(false) !in UnloadEvents(models);
    assert SchedulerShutdown(false) !in ServiceStops(services);
  }

  /** The index of the first call that raises, or the number of calls when
      none does. */
  function FirstRaise(acks: seq<Ack>): (k: nat)
    ensures k <= |acks|
    ensures forall i :: 0 <= i < k ==> acks[i] == Done
    ensures k < |acks| ==> acks[k].Raises?
  {
    if acks == [] then 0
    else if acks[0].Raises? then 0
    else 1 + FirstRaise(acks[1..])
  }

  /** How many calls a loop makes that ends at the first call that raises:
      every call up to and including that one. */
  function Attempted(acks: seq<Ack>): (n: nat)
    ensures n <= |acks|
  {
    if FirstRaise(acks) < |acks| then FirstRaise(acks) + 1 else |acks|
  }

  /** How the unload of each running model ends, in order; `unloadAck` is the
      backend's answer by model name. */
  function UnloadAcks(models: seq<ModelInfo>, unloadAck: string -> Ack): (acks: seq<Ack>)
    ensures |acks| == |models|
    ensures forall i :: 0 <= i < |models| ==> acks[i] == unloadAck(models[i].name)
  {
    seq(|models|, i requires 0 <= i < |models| => unloadAck(models[i].name))
  }

  /** How the service loop's step for each service ends: an uninitialised
      service is skipped; `stopAck` is how a service's `stop()` ends, by name. */
  function StopAcks(services: seq<ServiceEntry>, stopAck: string -> Ack): (acks: seq<Ack>)
    ensures |acks| == |services|
    ensures forall i :: 0 <= i < |services| ==>
      acks[i] == (if services[i].initialized then stopAck(services[i].name) else Done)
  {
    seq(|services|, i requires 0 <= i < |services| =>
      if services[i].initialized then stopAck(services[i].name) else Done)
  }

  /** What `stop` on an initialised program does, or a part of it does: its
      events, its backend calls, and the exception that ends it early, if any. */
  datatype StopRecord = StopRecord(events: seq<Event>, calls: seq<BackendCall>, failure: Option<string>)

  /** The unload loop of `stop`: each running model is logged and unloaded,
      until an unload raises. */
  function UnloadPhase(models: seq<ModelInfo>, unloadAck: string -> Ack): StopRecord {
    var ua := UnloadAcks(models, unloadAck);
    var n := Attempted(ua);
    StopRecord(UnloadEvents(models[..n]), UnloadCalls(models[..n]),
               if FirstRaise(ua) < |ua| then Some(ua[FirstRaise(ua)].detail) else None)
  }

  /** The service loop of `stop`: each initialised service is stopped, until
      a stop raises. */
  function ServicePhase(services: seq<ServiceEntry>, stopAck: string -> Ack): StopRecord {
    var sa := StopAcks(services, stopAck);
    StopRecord(ServiceStops(services[..Attempted(sa)]), [],
               if FirstRaise(sa) < |sa| then Some(sa[FirstRaise(sa)].detail) else None)
  }

  /** `stop` on an initialised program when unloads and service stops may
      raise: nothing catches them, so the first one that raises ends `stop`,
      and no later unload, service stop, scheduler shutdown or final line
      happens. */
  function StopRun(models: seq<ModelInfo>, services: seq<ServiceEntry>, schedulerRunning: bool,
                   unloadAck: string -> Ack, stopAck: string -> Ack): StopRecord
  {
    var up := UnloadPhase(models, unloadAck);
    var sp := ServicePhase(services, stopAck);
    if up.failure.Some? then up
    else if sp.failure.Some? then StopRecord(up.events + sp.events, up.calls, sp.failure)
    else StopRecord(up.events + sp.events + ShutdownTail(schedulerRunning), up.calls, None)
  }

  /** Stop events of two tables one after the other. */
  lemma {:induction false} StopsConcat(a: seq<ServiceEntry>, b: seq<ServiceEntry>)
    ensures ServiceStops(a + b) == ServiceStops(a) + ServiceStops(b)
    decreases |a|
  {
    if a == [] {
      assert a + b == b;
    } else {
      assert (a + b)[0] == a[0];
      assert (a + b)[1..] == a[1..] + b;
      StopsConcat(a[1..], b);
    }
  }

  /** `stop` completes exactly when no unload and no stop of an initialised
      service raises, and then it is the full shutdown of `StopEvents`. */
  lemma StopRunCompletes(models: seq<ModelInfo>, services: seq<ServiceEntry>, schedulerRunning: bool,
                         unloadAck: string -> Ack, stopAck: string -> Ack)
    ensures var rec := StopRun(models, services, schedulerRunning, unloadAck, stopAck);
      && (rec.failure.None? <==>
            (forall i :: 0 <= i < |models| ==> unloadAck(models[i].name) == Done)
            && (forall i :: 0 <= i < |services| && services[i].initialized ==> stopAck(services[i].name) == Done))
      && (rec.failure.None? ==>
            rec.events == StopEvents(models, services, schedulerRunning) && rec.calls == UnloadCalls(models))
  {
    var ua := UnloadAcks(models, unloadAck);
    var sa := StopAcks(services, stopAck);
    if FirstRaise(ua) < |ua| {
      assert unloadAck(models[FirstRaise(ua)].name).Raises?;
    } else if FirstRaise(sa) < |sa| {
      var k := FirstRaise(sa);
      assert services[k].initialized && stopAck(services[k].name).Raises?;
    } else {
      assert models[..Attempted(ua)] == models;
      assert services[..Attempted(sa)] == services;
    }
  }

  /** The unload loop makes a prefix of the unloads, logging each one. */
  lemma UnloadPhaseIsPrefix(models: seq<ModelInfo>, unloadAck: string -> Ack)
    ensures var up := UnloadPhase(models, unloadAck);
      && |up.events| == |up.calls| <= |models|
      && up.events == UnloadEvents(models)[..|up.events|]
      && up.calls == UnloadCalls(models)[..|up.calls|]
      && (forall e :: e in up.events ==> e.Unloading?)
  {
    var n := Attempted(UnloadAcks(models, unloadAck));
    assert UnloadEvents(models[..n]) == UnloadEvents(models)[..n];
    assert UnloadCalls(models[..n]) == UnloadCalls(models)[..n];
  }

  /** The service loop makes a prefix of the service stops. */
  lemma ServicePhaseIsPrefix(services: seq<ServiceEntry>, stopAck: string -> Ack)
    ensures var sp := ServicePhase(services, stopAck);
      && |sp.events| <= |ServiceStops(services)|
      && sp.events == ServiceStops(services)[..|sp.events|]
      && (sp.failure.None? ==> sp.events == ServiceStops(services))
  {
    var n := Attempted(StopAcks(services, stopAck));
    assert services == services[..n] + services[n..];
    assert ServicePhase(services, stopAck).failure.None? ==> services[..n] == services;
    StopsConcat(services[..n], services[n..]);
  }

  /** Whatever raises, `stop` does a prefix of the full shutdown: its events
      are a prefix of `StopEvents`, its calls a prefix of the unloads. When
      something raises there is no scheduler shutdown and no final line, and
      when an unload raises no service is stopped at all. */
  lemma StopRunIsPrefix(models: seq<ModelInfo>, services: seq<ServiceEntry>, schedulerRunning: bool,
                        unloadAck: string -> Ack, stopAck: string -> Ack)
    ensures var rec := StopRun(models, services, schedulerRunning, unloadAck, stopAck);
      var full := StopEvents(models, services, schedulerRunning);
      |rec.events| <= |full| && rec.events == full[..|rec.events|]
    ensures var rec := StopRun(models, services, schedulerRunning, unloadAck, stopAck);
      |rec.calls| <= |models| && rec.calls == UnloadCalls(models)[..|rec.calls|]
    ensures var rec := StopRun(models, services, schedulerRunning, unloadAck, stopAck);
      rec.failure.Some? ==> Stopped !in rec.events && SchedulerShutdown(false) !in rec.events
    ensures (exists i :: 0 <= i < |models| && unloadAck(models[i].name).Raises?) ==>
      forall n :: ServiceStopped(n) !in StopRun(models, services, schedulerRunning, unloadAck, stopAck).events
  {
    var up := UnloadPhase(models, unloadAck);
    UnloadPhaseIsPrefix(models, unloadAck);
    if up.failure.None? {
      UnloadsAllDone(models, unloadAck);
      StopRunPrefixAfterUnloads(models, services, schedulerRunning, unloadAck, stopAck);
    } else {
      var u := UnloadEvents(models);
      var full := StopEvents(models, services, schedulerRunning);
      assert full == u + (ServiceStops(services) + ShutdownTail(schedulerRunning));
      assert full[..|up.events|] == u[..|up.events|];
    }
  }

  /** The part of `StopRunIsPrefix` once every unload returned. */
  lemma StopRunPrefixAfterUnloads(models: seq<ModelInfo>, services: seq<ServiceEntry>, schedulerRunning: bool,
                                  unloadAck: string -> Ack, stopAck: string -> Ack)
    requires UnloadPhase(models, unloadAck).failure.None?
    ensures var rec := StopRun(models, services, schedulerRunning, unloadAck, stopAck);
      var full := StopEvents(models, services, schedulerRunning);
      |rec.events| <= |full| && rec.events == full[..|rec.events|]
    ensures var rec := StopRun(models, services, schedulerRunning, unloadAck, stopAck);
      rec.failure.Some? ==> Stopped !in rec.events && SchedulerShutdown(false) !in rec.events
  {
    var up := UnloadPhase(models, unloadAck);
    var sp := ServicePhase(services, stopAck);
    var u := UnloadEvents(models);
    var st := ServiceStops(services);
    var full := StopEvents(models, services, schedulerRunning);
    assert full == u + st + ShutdownTail(schedulerRunning);
    UnloadsAllDone(models, unloadAck);
    ServicePhaseIsPrefix(services, stopAck);
    assert up.events == u;
    assert (u + sp.events) == full[..|u| + |sp.events|];
    if sp.failure.Some? {
      UnloadPhaseIsPrefix(models, unloadAck);
      forall e | e in up.events + sp.events ensures e.Unloading? || e.ServiceStopped? {
        if e !in up.events {
          assert e in sp.events;
          assert e in st;
        }
      }
    }
  }

  /** An unload loop that ends without an exception unloaded every model, none
      of them raising. */
  lemma UnloadsAllDone(models: seq<ModelInfo>, unloadAck: string -> Ack)
    requires UnloadPhase(models, unloadAck).failure.None?
    ensures UnloadPhase(models, unloadAck).events == UnloadEvents(models)
    ensures UnloadPhase(models, unloadAck).calls == UnloadCalls(models)
    ensures forall i :: 0 <= i < |models| ==> unloadAck(models[i].name) == Done
  {
    var ua := UnloadAcks(models, unloadAck);
    assert models[..Attempted(ua)] == models;
    forall i | 0 <= i < |models| ensures unloadAck(models[i].name) == Done {
      assert ua[i] == Done;
    }
  }

  /** One more round of the unload loop adds one log line and one call. */
  lemma UnloadStep(models: seq<ModelInfo>, i: nat)
    requires i < |models|
    ensures UnloadEvents(models[..i + 1]) == UnloadEvents(models[..i]) + [Unloading(models[i].name)]
    ensures UnloadCalls(models[..i + 1]) == UnloadCalls(models[..i]) + [Unload(models[i].name)]
  {
  }

  /** The unload loop's record when the `i`-th unload is the first to raise. */
  lemma UnloadPhaseRaisesAt(models: seq<ModelInfo>, unloadAck: string -> Ack, i: nat)
    requires i < |models| && unloadAck(models[i].name).Raises?
    requires forall j :: 0 <= j < i ==> unloadAck(models[j].name) == Done
    ensures UnloadPhase(models, unloadAck) ==
      StopRecord(UnloadEvents(models[..i + 1]), UnloadCalls(models[..i + 1]), Some(unloadAck(models[i].name).detail))
  {
    var ua := UnloadAcks(models, unloadAck);
    assert FirstRaise(ua) == i;
  }

  /** The unload loop's record when no unload raises. */
  lemma UnloadPhaseReturns(models: seq<ModelInfo>, unloadAck: string -> Ack)
    requires forall j :: 0 <= j < |models| ==> unloadAck(models[j].name) == Done
    ensures UnloadPhase(models, unloadAck) == StopRecord(UnloadEvents(models), UnloadCalls(models), None)
  {
    var ua := UnloadAcks(models, unloadAck);
    assert FirstRaise(ua) == |ua|;
    assert models[..|models|] == models;
  }

  /** The service loop's record when the `i`-th service's stop is the first to raise. */
  lemma ServicePhaseRaisesAt(services: seq<ServiceEntry>, stopAck: string -> Ack, i: nat)
    requires i < |services| && services[i].initialized && stopAck(services[i].name).Raises?
    requires forall j :: 0 <= j < i && services[j].initialized ==> stopAck(services[j].name) == Done
    ensures ServicePhase(services, stopAck) ==
      StopRecord(ServiceStops(services[..i + 1]), [], Some(stopAck(services[i].name).detail))
  {
    var sa := StopAcks(services, stopAck);
    assert FirstRaise(sa) == i;
  }

  /** The service loop's record when no initialised service's stop raises. */
  lemma ServicePhaseReturns(services: seq<ServiceEntry>, stopAck: string -> Ack)
    requires forall j :: 0 <= j < |services| && services[j].initialized ==> stopAck(services[j].name) == Done
    ensures ServicePhase(services, stopAck) == StopRecord(ServiceStops(services), [], None)
  {
    var sa := StopAcks(services, stopAck);
    assert FirstRaise(sa) == |sa|;
    assert services[..|services|] == services;
  }

  /** Regrouping the logs of the phases of `stop`. */
  lemma AppendRegroup(a: seq<Event>, b: seq<Event>, c: seq<Event>, d: seq<Event>)
    ensures a + b + c + d == a + (b + c + d)
    ensures d == [] ==> a + b + c + d == a + (b + c)
  {
  }

  class Program {
    const ollama: OllamaClient
    const manager: SettingsManager
    var initialized: bool
    var running: bool
    /** The service table; `None` while the attribute is unassigned. */
    var services: Option<seq<ServiceEntry>>
    /** The background scheduler; `None` until `start` creates it. */
    var scheduler: Option<Scheduler>
    ghost var events: seq<Event>

    /** An initialised program has its services and its scheduler. */
    predicate Valid()
      reads this
    {
      initialized ==> services.Some? && scheduler.Some?
    }

    /** `__init__`, given the client its `OllamaClient()` built (a client
        whose constructor raised never gets here: the exception ends
        `__init__` too): without an initialised client it stops before
        assigning the service table; otherwise the table starts empty. */
    constructor (ollama: OllamaClient, manager: SettingsManager)
      requires ollama.initFailure.None?
      ensures this.ollama == ollama && this.manager == manager
      ensures !initialized && !running && scheduler.None?
      ensures services == (if ollama.initialized then Some([]) else None)
      ensures events == (if ollama.initialized then [] else [OllamaUnavailable])
      ensures Valid()
    {
      this.ollama := ollama;
      this.manager := manager;
      initialized := false;
      running := false;
      services := None;
      scheduler := None;
      events := [];
      new;
      if !ollama.initialized {
        events := events + [OllamaUnavailable];
        return;
      }
      services := Some([]);
    }

    /** `start`, given what `get_version` returned: announce the version,
        write default settings when the file is absent, wait until some
        service validates (`polls[0]` is the check that logs the warning,
        `polls[1..]` the waiting loop), start every service, register the
        jobs, start the thread and the scheduler. */
    method Start(version: Result<string, VersionError>, polls: seq<set<string>>, now: int) returns (outcome: StartOutcome)
      requires !initialized && manager.settings.Some?
      modifies this`initialized, this`scheduler, this`events, manager`file, manager`writes
      ensures Valid()
      ensures version.Err? ==>
        && outcome == VersionMissing(version.error)
        && manager.writes == old(manager.writes) && manager.file == old(manager.file) && events == old(events)
      ensures version.Ok? && old(manager.file).None? ==>
        && manager.writes == old(manager.writes) + [manager.settings.value]
        && manager.file == Some(manager.kit.dump(manager.settings.value))
      ensures version.Ok? && old(manager.file).Some? ==>
        manager.writes == old(manager.writes) && manager.file == old(manager.file)
      ensures version.Ok? && services.None? ==>
        outcome == NoServices && events == old(events) + [Announced(version.value)]
      ensures outcome == Started <==>
        version.Ok? && services.Some? && |polls| >= 1 && FirstValid(services.value, polls, 1).Some?
      ensures initialized <==> outcome == Started
      ensures outcome == Started ==>
        && events == old(events) + [Announced(version.value)] + StartTail(services.value, polls)
        && scheduler == Some(Scheduler(Scheduled(ScheduledFunctions, now, []), true))
      ensures outcome == StillWaiting ==>
        events == old(events) + [Announced(version.value)] + WaitTail(services.value, polls)
      ensures outcome != Started ==> scheduler == old(scheduler)
    {
      if version.Err? {
        return VersionMissing(version.error);
      }
      events := events + [Announced(version.value)];
      SaveIfAbsent();
      if services.None? {
        return NoServices;
      }
      outcome := Launch(services.value, polls, now);
    }

    /** Write the held settings when the settings file does not exist. */
    method SaveIfAbsent()
      requires manager.settings.Some?
      modifies manager`file, manager`writes
      ensures old(manager.file).None? ==>
        && manager.writes == old(manager.writes) + [manager.settings.value]
        && manager.file == Some(manager.kit.dump(manager.settings.value))
      ensures old(manager.file).Some? ==> manager.writes == old(manager.writes) && manager.file == old(manager.file)
    {
      if manager.file.None? {
        manager.Save();
      }
    }

    /** The gate and the launch of `start`, once the service table exists. */
    method Launch(table: seq<ServiceEntry>, polls: seq<set<string>>, now: int) returns (outcome: StartOutcome)
      requires !initialized
      modifies this`initialized, this`scheduler, this`events
      ensures outcome == Started || outcome == StillWaiting
      ensures outcome == Started <==> |polls| >= 1 && FirstValid(table, polls, 1).Some?
      ensures initialized <==> outcome == Started
      ensures outcome == Started ==>
        && events == old(events) + StartTail(table, polls)
        && scheduler == Some(Scheduler(Scheduled(ScheduledFunctions, now, []), true))
      ensures outcome == StillWaiting ==> events == old(events) + WaitTail(table, polls) && scheduler == old(scheduler)
    {
      var ready := Gate(table, polls);
      if !ready {
        return StillWaiting;
      }
      StartServices(table);
      StartScheduler(now);
      initialized := true;
      outcome := Started;
    }

    /** The gate of `start`: the check that logs the warning, then the
        waiting loop. */
    method Gate(table: seq<ServiceEntry>, polls: seq<set<string>>) returns (ready: bool)
      modifies this`events
      ensures ready <==> |polls| >= 1 && FirstValid(table, polls, 1).Some?
      ensures events == old(events) + WaitTail(table, polls)
    {
      if |polls| == 0 {
        return false;
      }
      if !AnyValid(table, polls[0]) {
        events := events + [WaitingForConfiguration];
      }
      ready := AwaitConfiguration(table, polls);
    }

    /** The end of `start`: create the scheduler, register the jobs, start the
        program thread, then the scheduler. */
    method StartScheduler(now: int)
      modifies this`scheduler, this`events
      ensures scheduler == Some(Scheduler(Scheduled(ScheduledFunctions, now, []), true))
      ensures events == old(events) + [ThreadStarted, SchedulerStarted]
    {
      scheduler := Some(Scheduler([], false));
      ScheduleFunctions(now);
      events := events + [ThreadStarted];
      scheduler := Some(scheduler.value.(running := true));
      events := events + [SchedulerStarted];
    }

    /** The start-up loop of `start`: start every service, in order. */
    method StartServices(table: seq<ServiceEntry>)
      modifies this`events
      ensures events == old(events) + ServiceStarts(table)
    {
      for i := 0 to |table|
        invariant events == old(events) + ServiceStarts(table[..i])
      {
        events := events + [ServiceStarted(table[i].name)];
        assert ServiceStarts(table[..i + 1]) == ServiceStarts(table[..i]) + [ServiceStarted(table[i].name)];
      }
      assert table[..|table|] == table;
    }

    /** The waiting loop of `start`: poll `validate_services` until it holds;
        `false` when the polls run out first. */
    method AwaitConfiguration(table: seq<ServiceEntry>, polls: seq<set<string>>) returns (ready: bool)
      ensures ready <==> FirstValid(table, polls, 1).Some?
    {
      var k := 1;
      while k < |polls| && !AnyValid(table, polls[k])
        invariant 1 <= k
        invariant FirstValid(table, polls, 1) == FirstValid(table, polls, k)
        decreases |polls| - k
      {
        k := k + 1;
      }
      ready := k < |polls|;
    }

    /** `_schedule_functions`: register every entry of the table. */
    method ScheduleFunctions(now: int)
      requires scheduler.Some?
      modifies this`scheduler
      ensures scheduler == Some(old(scheduler).value.(jobs := Scheduled(ScheduledFunctions, now, old(scheduler).value.jobs)))
    {
      var table := ScheduledFunctions;
      for i := 0 to |table|
        invariant scheduler.Some? && scheduler.value.running == old(scheduler).value.running
        invariant Scheduled(table, now, old(scheduler).value.jobs) == Scheduled(table[i..], now, scheduler.value.jobs)
      {
        assert table[i..][1..] == table[i + 1..];
        scheduler := Some(scheduler.value.(jobs := AddJob(scheduler.value.jobs, JobFor(table[i], now))));
      }
    }

    /** `run`: mark the program running; the loop that sleeps while it runs is
        not modelled. */
    method Run()
      modifies this`running, this`events
      ensures running
      ensures events == old(events) + [Listening]
    {
      running := true;
      events := events + [Listening];
    }

    /** `stop`: always clear `running`; an initialised program then unloads
        every running model, stops every initialised service and shuts the
        scheduler down if it runs. Nothing records that it was stopped, and
        nothing catches an unload or a service stop that raises: the first one
        ends `stop`, and its exception is returned. `unloadAck` and `stopAck`
        say how each unload and each service's `stop()` ends, by name. */
    method Stop(unloadAck: string -> Ack, stopAck: string -> Ack) returns (failure: Option<string>)
      requires Valid()
      modifies this`running, this`scheduler, this`events, ollama`trace
      ensures !running && Valid()
      ensures !old(initialized) ==>
        failure == None && events == old(events) && ollama.trace == old(ollama.trace) && scheduler == old(scheduler)
      ensures old(initialized) ==>
        var rec := StopRun(ollama.runningModels, services.value, old(scheduler).value.running, unloadAck, stopAck);
        && events == old(events) + rec.events
        && ollama.trace == old(ollama.trace) + rec.calls
        && failure == rec.failure
        && scheduler == (if rec.failure.None? then Some(old(scheduler).value.(running := false)) else old(scheduler))
    {
      running := false;
      if !initialized {
        return None;
      }
      ghost var before := events;
      failure := UnloadAll(unloadAck);
      if failure.Some? {
        return;
      }
      ghost var unloads := UnloadPhase(ollama.runningModels, unloadAck).events;
      failure := FinishStop(stopAck);
      ghost var sp := ServicePhase(services.value, stopAck);
      ghost var tail := if sp.failure.None? then ShutdownTail(old(scheduler).value.running) else [];
      AppendRegroup(before, unloads, sp.events, tail);
    }

    /** The rest of `stop` once every model is unloaded: the service loop,
        then, unless a service's `stop()` raised, the scheduler shutdown and
        the final line. */
    method FinishStop(stopAck: string -> Ack) returns (failure: Option<string>)
      requires Valid() && initialized
      modifies this`scheduler, this`events
      ensures var sp := ServicePhase(services.value, stopAck);
        && failure == sp.failure
        && events == old(events) + sp.events + (if sp.failure.None? then ShutdownTail(old(scheduler).value.running) else [])
        && scheduler == (if sp.failure.None? then Some(old(scheduler).value.(running := false)) else old(scheduler))
    {
      failure := StopServices(services.value, stopAck);
      if failure.Some? {
        return;
      }
      if scheduler.value.running {
        scheduler := Some(scheduler.value.(running := false));
        events := events + [SchedulerShutdown(false)];
      }
      events := events + [Stopped];
    }

    /** The unload loop of `stop`: log, then unload, each running model, until
        an unload raises. */
    method UnloadAll(unloadAck: string -> Ack) returns (failure: Option<string>)
      modifies this`events, ollama`trace
      ensures var up := UnloadPhase(ollama.runningModels, unloadAck);
        && failure == up.failure
        && events == old(events) + up.events
        && ollama.trace == old(ollama.trace) + up.calls
    {
      var models := ollama.runningModels;
      for i := 0 to |models|
        invariant events == old(events) + UnloadEvents(models[..i])
        invariant ollama.trace == old(ollama.trace) + UnloadCalls(models[..i])
        invariant forall j :: 0 <= j < i ==> unloadAck(models[j].name) == Done
      {
        events := events + [Unloading(models[i].name)];
        var outcome := ollama.UnloadModel(models[i].name, unloadAck(models[i].name));
        UnloadStep(models, i);
        if outcome.Raises? {
          UnloadPhaseRaisesAt(models, unloadAck, i);
          return Some(outcome.detail);
        }
      }
      UnloadPhaseReturns(models, unloadAck);
      assert models[..|models|] == models;
      failure := None;
    }

    /** The service loop of `stop`: stop each initialised service, in order,
        until a stop raises. */
    method StopServices(table: seq<ServiceEntry>, stopAck: string -> Ack) returns (failure: Option<string>)
      modifies this`events
      ensures failure == ServicePhase(table, stopAck).failure
      ensures events == old(events) + ServicePhase(table, stopAck).events
    {
      for i := 0 to |table|
        invariant events == old(events) + ServiceStops(table[..i])
        invariant forall j :: 0 <= j < i && table[j].initialized ==> stopAck(table[j].name) == Done
      {
        if table[i].initialized {
          events := events + [ServiceStopped(table[i].name)];
        }
        StopsAppend(table[..i], table[i]);
        assert table[..i + 1] == table[..i] + [table[i]];
        if table[i].initialized && stopAck(table[i].name).Raises? {
          ServicePhaseRaisesAt(table, stopAck, i);
          return Some(stopAck(table[i].name).detail);
        }
      }
      ServicePhaseReturns(table, stopAck);
      assert table[..|table|] == table;
      failure := None;
    }
  }

  /** Stop events of a table extended by one service. */
  lemma {:induction false} StopsAppend(table: seq<ServiceEntry>, s: ServiceEntry)
    ensures ServiceStops(table + [s]) == ServiceStops(table) + (if s.initialized then [ServiceStopped(s.name)] else [])
    decreases |table|
  {
    if table != [] {
      assert (table + [s])[1..] == table[1..] + [s];
      StopsAppend(table[1..], s);
    }
  }
}
