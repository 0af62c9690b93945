/** The execution service as an object over its store, cache, quotas, scheduler and meter. Its
    methods, left alone, take exactly the steps of the control plane. */
module Services {
  import opened Common
  import opened Executions
  import opened Simulation
  import opened ControlPlane
  import R = Resources
  import C = Caching
  import M = Modules
  import T = Meters
  import F = FairQueues
  import opened Paths
  import opened Reachability
  import opened Uninterrupted
  import opened Scripts
  import opened Invariants
  import opened CacheMemories
  import opened Managers
  import opened MemoryStores
  import opened Schedulers
  import opened Simulators

  // ---- The objects ----

  /** What Submit hands to Run: the input of an execution, held once. */
  class Payloads {
    var values: map<Id, Bytes>

    constructor ()
      ensures values == map[]
    {
      values := map[];
    }

    method Put(id: Id, b: Bytes)
      modifies this
      ensures values == old(values)[id := b]
    {
      values := values[id := b];
    }

    method Take(id: Id) returns (b: Bytes)
      modifies this
      ensures b == if id in old(values) then old(values)[id] else []
      ensures values == old(values) - {id}
    {
      b := if id in values then values[id] else [];
      values := values - {id};
    }
  }

  class Service {
    const cfg: Config
    const repo: Memory
    const runtime: Simulator
    const cache: CacheMemory
    const resources: Manager
    const scheduler: Scheduler
    const meter: T.MemoryMeter
    const payloads: Payloads
    var cancels: set<Id>
    /** The runs whose context Cancel has ended. */
    var fired: set<Id>
    ghost var hist: History
    /** The instant of the last step; whether the workers' context is live; and where the workers
        stand while a call is in progress. */
    ghost var clock: Nanos
    ghost var live: bool
    ghost var workers: seq<Worker>

    ghost predicate Ok()
      reads this, repo, scheduler.queue, meter
    {
      && scheduler.queue.Ok() && meter.Valid()
      && runtime.lib == cfg.lib && runtime.version == cfg.version
      && forall id :: id in repo.executions ==> repo.executions[id].ticket.id == id
    }

    /** The state of the control plane with the given workers and calls in it. */
    ghost function View(live: bool, workers: seq<Worker>, calls: map<nat, Call>): State
      requires scheduler.queue.Ok()
      reads this, repo, runtime, cache, resources, scheduler, scheduler.queue, meter, payloads
    {
      State(
        Pool(scheduler.queue.View(), scheduler.queue.closed, scheduler.queue.notified, live, workers),
        Svc(scheduler.canceled, cancels, fired, resources.View(), cache.View(), runtime.closed, meter.usage,
            payloads.values),
        repo.View(),
        calls,
        clock,
        hist)
    }

    /** With the given calls, the workers standing still. */
    ghost function Calling(calls: map<nat, Call>): State
      requires scheduler.queue.Ok()
      reads this, repo, runtime, cache, resources, scheduler, scheduler.queue, meter, payloads
    {
      View(live, workers, calls)
    }

    constructor (cfg: Config, repo: Memory, runtime: Simulator, cache: CacheMemory, resources: Manager,
        scheduler: Scheduler, meter: T.MemoryMeter, payloads: Payloads)
      requires scheduler.queue.Ok() && meter.Valid() && runtime.lib == cfg.lib && runtime.version == cfg.version
      requires forall id :: id in repo.executions ==> repo.executions[id].ticket.id == id
      ensures Ok() && cancels == {} && fired == {}
      ensures this.cfg == cfg && this.repo == repo && this.runtime == runtime && this.cache == cache
      ensures this.resources == resources
      ensures this.scheduler == scheduler && this.meter == meter && this.payloads == payloads
    {
      this.cfg := cfg;
      this.repo, this.runtime, this.cache, this.resources := repo, runtime, cache, resources;
      this.scheduler, this.meter, this.payloads := scheduler, meter, payloads;
      cancels, fired := {}, {};
    }

    /** The steps of one worker with nothing in between, as a path of the control plane. */
    ghost predicate Takes(script: Script, s: State, s': State) {
      Leads(Visits(cfg, script), s, s')
    }

    // ---- Taking up an execution ----

    /** The record to run, unless it is missing or finished. */
    method TakeUp(script: Script, id: Id) returns (found: Option<Execution>)
      requires Ok()
      modifies this`hist, this`clock
      ensures Ok()
      ensures found.Some? ==> found.value.ticket.id == id && id in repo.executions
      ensures Takes(script, old(View(script.live, [Starting(id)], map[])),
                    View(script.live, [if found.Some? then Resolving(found.value) else Idle], map[]))
    {
      hide Next, Visits;
      TakeUpLeads(cfg, script, View(script.live, [Starting(id)], map[]), id);
      found := repo.GetExecution(if script.live then Live else Canceled, id);
      if found.Some? && Terminal(found.value) { found := None; }
      clock := script.begin.now;
      if found.None? { hist := Dropped(hist, id, UnlessLive(script.live)); }
    }

    method Resolve(script: Script, e: Execution) returns (m: Option<M.Module>)
      requires Ok()
      modifies this`clock
      ensures Ok()
      ensures var fault := if script.live then NotFound else ContextCanceled;
              var failed := FailedWith(e, ErrInvalid, fault, script.begin.now);
              var next := if m.Some? then Acquiring(e, m.value) else Rejecting(failed);
              Takes(script, old(View(script.live, [Resolving(e)], map[])), View(script.live, [next], map[]))
    {
      hide Next, Visits;
      ResolveLeads(cfg, script, View(script.live, [Resolving(e)], map[]), e);
      m := repo.Get(if script.live then Live else Canceled, e.ticket.moduleId);
      clock := script.begin.now;
    }

    method AcquireLease(script: Script, e: Execution, m: M.Module) returns (grant: R.Grant)
      requires Ok()
      modifies this`hist, this`clock, resources
      ensures Ok()
      ensures match grant
              case Granted(lease) => lease.id == e.ticket.id &&
                resources.leases == old(resources.leases)[e.ticket.id := lease]
              case Denied(_) => resources.leases == old(resources.leases)
      ensures var next := match grant
                case Granted(_) => Registering(e, m, Deadline(script, e))
                case Denied(why) => Rejecting(Refused(e, why, script.begin.now));
              Takes(script, old(View(script.live, [Acquiring(e, m)], map[])), View(script.live, [next], map[]))
    {
      hide Visits;
      ghost var s0 := View(script.live, [Acquiring(e, m)], map[]);
      var t, now := e.ticket, script.begin.now;
      grant := resources.Acquire(t.tenantId, t.id, t.budget.maxMemoryPages, script.live, now);
      AcquireLeads(cfg, script, s0, e, m, resources.View(), grant);
      clock := now;
      if grant.Denied? { hist := Met(hist, s0.svc.books, e, now); }
    }

    method Register(ghost script: Script, e: Execution, ghost m: M.Module, ghost deadline: Nanos)
      requires Ok()
      modifies this`cancels, this`clock
      ensures Ok() && cancels == old(cancels) + {e.ticket.id}
      ensures Takes(script, old(View(script.live, [Registering(e, m, deadline)], map[])),
                    View(script.live, [Marking(e, m, deadline)], map[]))
    {
      hide Next, Visits;
      RegisterLeads(cfg, script, View(script.live, [Registering(e, m, deadline)], map[]), e, m, deadline);
      cancels := cancels + {e.ticket.id};
      clock := script.begin.now;
    }

    /** fail before a lease is held, on the pool's own context. */
    method Refuse(script: Script, e: Execution, kind: ErrorClass, fault: Fault)
      requires Ok() && e.ticket.id in repo.executions
      modifies this`hist, this`clock, repo`executions
      ensures Ok()
      ensures Takes(script, old(View(script.live, [Rejecting(FailedWith(e, kind, fault, script.begin.now))], map[])),
                    View(script.live, [Idle], map[]))
    {
      hide Next, Visits;
      var e' := FailedWith(e, kind, fault, script.begin.now);
      RejectLeads(cfg, script, View(script.live, [Rejecting(e')], map[]), e');
      var stored := repo.UpdateExecution(if script.live then Live else Canceled, e');
      clock := script.begin.now;
      hist := Dropped(hist, e.ticket.id, UnlessLive(script.live));
    }

    // ---- Holding the lease ----

    /** Storing the running status; fails when the run's context is done. */
    method Mark(script: Script, e: Execution, ghost m: M.Module, ghost deadline: Nanos)
        returns (e': Execution, ok: bool)
      requires Ok() && e.ticket.id in repo.executions
      modifies this`hist, this`clock, repo`executions
      ensures Ok() && e.ticket.id in repo.executions
      ensures e'.ticket == e.ticket
      ensures var next := if ok then Loading(e', m, deadline) else Unwinding(e);
              Takes(script, old(View(script.live, [Marking(e, m, deadline)], map[])), View(script.live, [next], map[]))
    {
      hide Visits;
      MarkLeads(cfg, script, View(script.live, [Marking(e, m, deadline)], map[]), e, m, deadline);
      e' := e.(status := Running, startedAt := Some(script.mark.now), nodeId := cfg.nodeId);
      ok := repo.UpdateExecution(script.mark.input.ctx, e');
      clock := script.mark.now;
      if !ok { hist := Unmarked(hist, e.ticket.id, script.live, deadline, script.mark.input.ctx); }
    }

    method Load(script: Script, e: Execution, m: M.Module, ghost deadline: Nanos) returns (content: Option<Bytes>)
      requires Ok()
      modifies this`clock
      ensures Ok()
      ensures var fault := if script.load.input.ctx != Live then ContextFault(script.load.input.ctx) else NotFound;
              var next := if content.Some? then Looking(e, m, deadline, content.value)
                else Aborting(FailedWith(e, ErrInvalid, fault, script.load.now));
              Takes(script, old(View(script.live, [Loading(e, m, deadline)], map[])), View(script.live, [next], map[]))
    {
      hide Visits;
      LoadLeads(cfg, script, View(script.live, [Loading(e, m, deadline)], map[]), e, m, deadline);
      content := repo.Content(script.load.input.ctx, m.id);
      clock := script.load.now;
    }

    /** The lookup in the compile cache. */
    method LookUp(script: Script, e: Execution, m: M.Module, ghost deadline: Nanos, ghost content: Bytes)
        returns (found: C.Lookup)
      requires Ok()
      modifies this`clock, cache
      ensures Ok()
      ensures Takes(script, old(View(script.live, [Looking(e, m, deadline, content)], map[])),
                    View(script.live, [AfterLookup(e, m, deadline, content, found, script.look.now)], map[]))
    {
      hide Visits;
      ghost var s0 := View(script.live, [Looking(e, m, deadline, content)], map[]);
      found := cache.Get(script.look.input.ctx, C.Key(e.ticket.tenantId, cfg.version, m.digest), script.look.now);
      clock := script.look.now;
      LookUpLeads(cfg, script, s0, e, m, deadline, content, cache.View(), found);
    }

    /** Storing what a compile gave: a failure whatever the context, a module on a live one. */
    method Keep(key: C.Key, compiled: CompileResult, putCtx: Ctx, now: Nanos) returns (made: CompileResult)
      modifies cache
      ensures made == Made(compiled, putCtx)
      ensures cache.View() == Kept(cfg, old(cache.View()), key, compiled, putCtx, now)
    {
      made := compiled;
      if compiled.Rejected? {
        cache.PutFailure(Live, key, compiled.fault, MINUTE, now);
      } else {
        var stored := cache.Put(putCtx, key, compiled.compiled, cfg.cacheTtl, now);
        if !stored { made := Rejected(ContextFault(putCtx)); }
      }
    }

    /** Compiling after a miss, and storing what that gave. */
    method CompileAndKeep(script: Script, e: Execution, m: M.Module, ghost deadline: Nanos, content: Bytes)
        returns (made: CompileResult)
      requires Ok()
      modifies this`clock, cache
      ensures Ok()
      ensures Takes(script, old(View(script.live, [Compiling(e, m, deadline, content)], map[])),
                    View(script.live, [AfterCompile(e, m, deadline, made, script.compile.now)], map[]))
    {
      hide Next, Visits;
      ghost var s0 := View(script.live, [Compiling(e, m, deadline, content)], map[]);
      var at := script.compile;
      var compiled := runtime.Compile(at.input.ctx, content, m.digest);
      made := Keep(C.Key(e.ticket.tenantId, cfg.version, m.digest), compiled, at.input.putCtx, at.now);
      clock := at.now;
      CompileLeads(cfg, script, s0, e, m, deadline, content, compiled);
    }

    /** The record as the result of executing leaves it. */
    method Settle(e0: Execution, o: Outcome, finished: Nanos) returns (e: Execution)
      requires !o.Crashed?
      ensures e == Conclude(cfg, e0, o, finished) && e.ticket == e0.ticket
    {
      e := e0;
      e := e.(report := Report(o.result.usage, o.result.output, cfg.lib.digest(o.result.output), o.result.truncated,
                               o.result.exitCode));
      e := e.(finishedAt := Some(finished));
      if o.Stopped? {
        if o.fault == ContextCanceled {
          e := e.(status := CanceledBy, errorClass := ErrCanceled);
        } else if o.fault == ContextExpired {
          e := e.(status := TimedOut, errorClass := ErrTimeout);
        } else if o.fault == InstructionLimit || o.fault == MemoryLimit || o.fault == StackLimit {
          e := e.(status := Failed, errorClass := ErrResource);
        } else {
          e := e.(status := Failed, errorClass := ErrRuntime);
        }
        e := e.(fault := o.fault);
      } else {
        e := e.(status := Succeeded, errorClass := ErrNone);
      }
    }

    /** Executing with the payload taken. */
    method Perform(script: Script, e: Execution, m: M.Module, ghost deadline: Nanos, compiled: Compiled)
        returns (o: Outcome)
      requires Ok()
      modifies this`hist, this`clock, payloads, runtime`active
      ensures Ok()
      ensures !o.Crashed? ==>
                Takes(script, old(View(script.live, [Executing(e, m, deadline, compiled)], map[])),
                      View(script.live, [Finishing(Conclude(cfg, e, o, script.execute.now))], map[]))
      ensures o.Crashed? ==> GoesDown(cfg, script, old(View(script.live, [Executing(e, m, deadline, compiled)], map[])))
    {
      hide Visits, Conclude, RanOne;
      ghost var s0 := View(script.live, [Executing(e, m, deadline, compiled)], map[]);
      var input := script.execute.input;
      var payload := payloads.Take(e.ticket.id);
      o := runtime.Execute(input.ctx, compiled, m.entry, payload, e.ticket.budget, input.cpu);
      assert o == OutcomeOf(cfg, Then(s0, script.execute), e, m, compiled, input);
      if o.Crashed? {
        LeadsToItself(Visits(cfg, script), s0);
      } else {
        PerformLeads(cfg, script, s0, e, m, deadline, compiled, o);
      }
      clock := script.execute.now;
      hist := RanOne(Then(s0, script.execute), e, input.ctx);
    }

    method Finish(script: Script, e: Execution)
      requires Ok() && e.ticket.id in repo.executions
      modifies this`clock, repo`executions
      ensures Ok() && e.ticket.id in repo.executions
      ensures Takes(script, old(View(script.live, [Finishing(e)], map[])), View(script.live, [Metering(e)], map[]))
    {
      hide Next, Visits;
      FinishLeads(cfg, script, View(script.live, [Finishing(e)], map[]), e);
      var stored := repo.UpdateExecution(Live, e);
      clock := script.execute.now;
    }

    method Meter(script: Script, e: Execution)
      requires Ok()
      modifies this`clock, meter
      ensures Ok()
      ensures Takes(script, old(View(script.live, [Metering(e)], map[])), View(script.live, [Unwinding(e)], map[]))
    {
      hide Visits;
      MeterLeads(cfg, script, View(script.live, [Metering(e)], map[]), e);
      meter.Record(Live, e, script.record.now);
      clock := script.record.now;
    }

    /** fail once a lease is held: the record is stored as failed whatever the contexts. */
    method Abort(script: Script, e: Execution, kind: ErrorClass, fault: Fault, now: Nanos) returns (e': Execution)
      requires Ok() && e.ticket.id in repo.executions
      modifies this`clock, repo`executions
      ensures Ok() && e'.ticket == e.ticket
      ensures Takes(script, old(View(script.live, [Aborting(FailedWith(e, kind, fault, now))], map[])),
                    View(script.live, [Unwinding(e')], map[]))
    {
      hide Visits;
      e' := FailedWith(e, kind, fault, now);
      AbortLeads(cfg, script, View(script.live, [Aborting(e')], map[]), e');
      var stored := repo.UpdateExecution(Live, e');
      clock := script.record.now;
    }

    // ---- Giving it back ----

    method Unregister(ghost script: Script, e: Execution)
      requires Ok()
      modifies this`cancels, this`clock
      ensures Ok() && cancels == old(cancels) - {e.ticket.id}
      ensures Takes(script, old(View(script.live, [Unwinding(e)], map[])), View(script.live, [Releasing(e)], map[]))
    {
      hide Next, Visits;
      UnregisterLeads(cfg, script, View(script.live, [Unwinding(e)], map[]), e);
      cancels := cancels - {e.ticket.id};
      clock := script.end.now;
    }

    method ReleaseLease(script: Script, e: Execution)
      requires Ok()
      modifies this`hist, this`clock, resources
      ensures Ok() && resources.leases == old(resources.leases) - {e.ticket.id}
      ensures Takes(script, old(View(script.live, [Releasing(e)], map[])), View(script.live, [Idle], map[]))
    {
      hide Next, Visits;
      ReleaseLeads(cfg, script, View(script.live, [Releasing(e)], map[]), e);
      resources.Release(e.ticket.id, e.report.usage.cpuTime, script.end.now);
      clock := script.end.now;
      hist := ReleasedBy(hist, e);
    }

    /** What Run defers: the registration ends, then the lease is released. */
    method GiveBack(script: Script, e: Execution)
      requires Ok()
      modifies this`hist, this`clock, this`cancels, resources
      ensures Ok() && cancels == old(cancels) - {e.ticket.id}
      ensures resources.leases == old(resources.leases) - {e.ticket.id}
      ensures Takes(script, old(View(script.live, [Unwinding(e)], map[])), View(script.live, [Idle], map[]))
    {
      hide Visits;
      ghost var s0 := View(script.live, [Unwinding(e)], map[]);
      Unregister(script, e);
      ghost var s1 := View(script.live, [Releasing(e)], map[]);
      ReleaseLease(script, e);
      LeadsOn(Visits(cfg, script), s0, s1, View(script.live, [Idle], map[]));
    }

    // ---- Run ----

    /** The module of a run, from the cache or compiled afresh. */
    method Obtain(script: Script, e: Execution, m: M.Module, ghost deadline: Nanos, content: Bytes)
        returns (made: CompileResult, at: Nanos)
      requires Ok()
      modifies this`hist, this`clock, cache
      ensures Ok()
      ensures Takes(script, old(View(script.live, [Looking(e, m, deadline, content)], map[])),
                    View(script.live, [AfterCompile(e, m, deadline, made, at)], map[]))
    {
      hide Visits;
      ghost var s0 := View(script.live, [Looking(e, m, deadline, content)], map[]);
      at := script.look.now;
      var found := LookUp(script, e, m, deadline, content);
      match found {
        case Hit(compiled) => made := Ready(compiled);
        case KnownFailure(cause) => made := Rejected(CachedFailure(cause));
        case NoContext(fault) => made := Rejected(fault);
        case Miss =>
          ghost var s1 := View(script.live, [Compiling(e, m, deadline, content)], map[]);
          at := script.compile.now;
          made := CompileAndKeep(script, e, m, deadline, content);
          LeadsOn(Visits(cfg, script), s0, s1, View(script.live, [AfterCompile(e, m, deadline, made, at)], map[]));
      }
    }

    /** Executing a compiled module to the end of its record's life; None when the process goes
        down with it. */
    method Complete(script: Script, e: Execution, m: M.Module, ghost deadline: Nanos, compiled: Compiled)
        returns (done: Option<Execution>)
      requires Ok() && e.ticket.id in repo.executions
      modifies this`hist, this`clock, payloads, runtime`active, repo`executions, meter
      ensures Ok()
      ensures done.Some? ==> done.value.ticket == e.ticket
      ensures done.Some? ==>
                Takes(script, old(View(script.live, [Executing(e, m, deadline, compiled)], map[])),
                      View(script.live, [Unwinding(done.value)], map[]))
      ensures done.None? ==> GoesDown(cfg, script, old(View(script.live, [Executing(e, m, deadline, compiled)], map[])))
    {
      hide Next, Visits, Conclude;
      ghost var s0 := View(script.live, [Executing(e, m, deadline, compiled)], map[]);
      var o := Perform(script, e, m, deadline, compiled);
      if o.Crashed? { return None; }
      var e' := Settle(e, o, script.execute.now);
      ghost var s1 := View(script.live, [Finishing(e')], map[]);
      Finish(script, e');
      ghost var s2 := View(script.live, [Metering(e')], map[]);
      LeadsOn(Visits(cfg, script), s0, s1, s2);
      Meter(script, e');
      LeadsOn(Visits(cfg, script), s0, s2, View(script.live, [Unwinding(e')], map[]));
      return Some(e');
    }

    /** The part of Run that holds the lease. */
    method Leased(script: Script, e0: Execution, m: M.Module, ghost deadline: Nanos) returns (done: Option<Execution>)
      requires Ok() && e0.ticket.id in repo.executions
      modifies this`hist, this`clock, repo`executions, cache, payloads, runtime`active, meter
      ensures Ok()
      ensures done.Some? ==> done.value.ticket == e0.ticket
      ensures done.Some? ==>
                Takes(script, old(View(script.live, [Marking(e0, m, deadline)], map[])),
                      View(script.live, [Unwinding(done.value)], map[]))
      ensures done.None? ==> GoesDown(cfg, script, old(View(script.live, [Marking(e0, m, deadline)], map[])))
    {
      hide Next, Visits;
      ghost var s0 := View(script.live, [Marking(e0, m, deadline)], map[]);
      var e, ok := Mark(script, e0, m, deadline);
      if !ok { return Some(e0); }
      ghost var s1 := View(script.live, [Loading(e, m, deadline)], map[]);
      var content := Load(script, e, m, deadline);
      if content.None? {
        var fault := if script.load.input.ctx != Live then ContextFault(script.load.input.ctx) else NotFound;
        LeadsOn(Visits(cfg, script), s0, s1,
                View(script.live, [Aborting(FailedWith(e, ErrInvalid, fault, script.load.now))], map[]));
        ghost var s2 := View(script.live, [Aborting(FailedWith(e, ErrInvalid, fault, script.load.now))], map[]);
        var e' := Abort(script, e, ErrInvalid, fault, script.load.now);
        LeadsOn(Visits(cfg, script), s0, s2, View(script.live, [Unwinding(e')], map[]));
        return Some(e');
      }
      ghost var s2 := View(script.live, [Looking(e, m, deadline, content.value)], map[]);
      LeadsOn(Visits(cfg, script), s0, s1, s2);
      var made, at := Obtain(script, e, m, deadline, content.value);
      ghost var s3 := View(script.live, [AfterCompile(e, m, deadline, made, at)], map[]);
      LeadsOn(Visits(cfg, script), s0, s2, s3);
      if made.Rejected? {
        var e' := Abort(script, e, ErrRuntime, made.fault, at);
        done := Some(e');
      } else {
        done := Complete(script, e, m, deadline, made.compiled);
      }
      if done.None? {
        DownOn(cfg, script, s0, s3);
      } else {
        LeadsOn(Visits(cfg, script), s0, s3, View(script.live, [Unwinding(done.value)], map[]));
      }
    }

    /** Asking for the lease; a denial fails the execution. */
    method AcquireOrFail(script: Script, e: Execution, m: M.Module) returns (granted: bool)
      requires Ok() && e.ticket.id in repo.executions
      modifies this`hist, this`clock, repo`executions, resources
      ensures Ok() && (granted ==> e.ticket.id in repo.executions)
      ensures e.ticket.id !in old(resources.leases) ==> resources.leases - {e.ticket.id} == old(resources.leases)
      ensures !granted ==> resources.leases == old(resources.leases)
      ensures granted ==> Takes(script, old(View(script.live, [Acquiring(e, m)], map[])),
                                View(script.live, [Registering(e, m, Deadline(script, e))], map[]))
      ensures !granted ==> Takes(script, old(View(script.live, [Acquiring(e, m)], map[])),
                                 View(script.live, [Idle], map[]))
    {
      hide Visits;
      ghost var s0 := View(script.live, [Acquiring(e, m)], map[]);
      var grant := AcquireLease(script, e, m);
      granted := grant.Granted?;
      if !granted {
        ghost var s1 := View(script.live, [Rejecting(Refused(e, grant.why, script.begin.now))], map[]);
        Refuse(script, e, ErrResource, DenialFault(grant.why));
        LeadsOn(Visits(cfg, script), s0, s1, View(script.live, [Idle], map[]));
      }
    }

    /** Run from asking for a lease on. */
    method RunAcquired(script: Script, e: Execution, m: M.Module) returns (crashed: bool)
      requires Ok() && e.ticket.id in repo.executions
      modifies this`hist, this`clock, this`cancels, repo`executions, cache, resources, payloads, runtime`active, meter
      ensures Ok()
      ensures !crashed ==> Takes(script, old(View(script.live, [Acquiring(e, m)], map[])),
                                 View(script.live, [Idle], map[]))
      ensures crashed ==> GoesDown(cfg, script, old(View(script.live, [Acquiring(e, m)], map[])))
      ensures !crashed && e.ticket.id !in old(cancels) ==> cancels == old(cancels)
      ensures !crashed && e.ticket.id !in old(resources.leases) ==> resources.leases == old(resources.leases)
    {
      hide Visits;
      ghost var s0 := View(script.live, [Acquiring(e, m)], map[]);
      var granted := AcquireOrFail(script, e, m);
      if !granted { return false; }
      ghost var deadline := Deadline(script, e);
      ghost var s1 := View(script.live, [Registering(e, m, deadline)], map[]);
      crashed := RunRegistered(script, e, m, deadline);
      if crashed {
        DownOn(cfg, script, s0, s1);
      } else {
        LeadsOn(Visits(cfg, script), s0, s1, View(script.live, [Idle], map[]));
      }
    }

    /** Run once the lease is granted. */
    method RunRegistered(script: Script, e: Execution, m: M.Module, ghost deadline: Nanos) returns (crashed: bool)
      requires Ok() && e.ticket.id in repo.executions
      modifies this`hist, this`clock, this`cancels, repo`executions, cache, resources, payloads, runtime`active, meter
      ensures Ok()
      ensures !crashed ==> Takes(script, old(View(script.live, [Registering(e, m, deadline)], map[])),
                                 View(script.live, [Idle], map[]))
      ensures crashed ==> GoesDown(cfg, script, old(View(script.live, [Registering(e, m, deadline)], map[])))
      ensures !crashed ==> cancels == old(cancels) - {e.ticket.id}
      ensures !crashed ==> resources.leases == old(resources.leases) - {e.ticket.id}
    {
      hide Next, Visits;
      ghost var s0 := View(script.live, [Registering(e, m, deadline)], map[]);
      Register(script, e, m, deadline);
      ghost var s1 := View(script.live, [Marking(e, m, deadline)], map[]);
      var done := Leased(script, e, m, deadline);
      if done.None? {
        DownOn(cfg, script, s0, s1);
        return true;
      }
      ghost var s2 := View(script.live, [Unwinding(done.value)], map[]);
      LeadsOn(Visits(cfg, script), s0, s1, s2);
      GiveBack(script, done.value);
      LeadsOn(Visits(cfg, script), s0, s2, View(script.live, [Idle], map[]));
      crashed := false;
    }

    /** Run once the record is read. */
    method RunFound(script: Script, e: Execution) returns (crashed: bool)
      requires Ok() && e.ticket.id in repo.executions
      modifies this`hist, this`clock, this`cancels, repo`executions, cache, resources, payloads, runtime`active, meter
      ensures Ok()
      ensures !crashed ==> Takes(script, old(View(script.live, [Resolving(e)], map[])),
                                 View(script.live, [Idle], map[]))
      ensures crashed ==> GoesDown(cfg, script, old(View(script.live, [Resolving(e)], map[])))
      ensures !crashed && e.ticket.id !in old(cancels) ==> cancels == old(cancels)
      ensures !crashed && e.ticket.id !in old(resources.leases) ==> resources.leases == old(resources.leases)
    {
      hide Visits;
      ghost var s1 := View(script.live, [Resolving(e)], map[]);
      var m := Resolve(script, e);
      if m.None? {
        var fault := if script.live then NotFound else ContextCanceled;
        ghost var s2 := View(script.live, [Rejecting(FailedWith(e, ErrInvalid, fault, script.begin.now))], map[]);
        Refuse(script, e, ErrInvalid, fault);
        LeadsOn(Visits(cfg, script), s1, s2, View(script.live, [Idle], map[]));
        return false;
      }
      ghost var s2 := View(script.live, [Acquiring(e, m.value)], map[]);
      crashed := RunAcquired(script, e, m.value);
      if crashed {
        DownOn(cfg, script, s1, s2);
      } else {
        LeadsOn(Visits(cfg, script), s1, s2, View(script.live, [Idle], map[]));
      }
    }

    /** Run, left alone, is a path of the control plane from taking up the execution to being
        idle again, with its registration and its lease given back; or it takes the process down. By
        an allowed script it is a possible run, the process stays up, and a sound service stays
        sound. */
    method Run(script: Script, id: Id) returns (crashed: bool)
      requires Ok()
      modifies this`hist, this`clock, this`cancels, repo`executions, cache, resources, payloads, runtime`active, meter
      ensures Ok()
      ensures !crashed ==> Takes(script, old(View(script.live, [Starting(id)], map[])),
                                 View(script.live, [Idle], map[]))
      ensures crashed ==> GoesDown(cfg, script, old(View(script.live, [Starting(id)], map[])))
      ensures !crashed && id !in old(cancels) ==> cancels == old(cancels)
      ensures !crashed && id !in old(resources.leases) ==> resources.leases == old(resources.leases)
      ensures Allowed(cfg, script, old(View(script.live, [Starting(id)], map[]))) ==>
                !crashed && Reaches(cfg, old(View(script.live, [Starting(id)], map[])),
                                    View(script.live, [Idle], map[]))
      ensures CollisionFree(cfg.lib) && Allowed(cfg, script, old(View(script.live, [Starting(id)], map[]))) ==>
                Sound(cfg, old(View(script.live, [Starting(id)], map[]))) ==>
                  Sound(cfg, View(script.live, [Idle], map[]))
    {
      hide Next, Visits, Sound;
      crashed := false;
      ghost var s0 := View(script.live, [Starting(id)], map[]);
      var found := TakeUp(script, id);
      if found.Some? {
        ghost var s1 := View(script.live, [Resolving(found.value)], map[]);
        crashed := RunFound(script, found.value);
        if crashed {
          DownOn(cfg, script, s0, s1);
        } else {
          LeadsOn(Visits(cfg, script), s0, s1, View(script.live, [Idle], map[]));
        }
      }
      RunKeepsSound(cfg, script, s0, crashed, View(script.live, [Idle], map[]));
    }

    // ---- Submit ----

    /** The steps of one call with nothing in between. */
    ghost predicate Answers(id: Id, s: State, s': State) {
      Leads(Turns(cfg, id), s, s')
    }

    /** The record an idempotency key already has. */
    method Find(req: Request, dead: bool, ghost id: Id) returns (known: Option<Execution>)
      requires Ok() && req.tenantId != "" && req.moduleId != ""
      ensures Ok()
      ensures Answers(id, old(Calling(Only(Finding(req), dead))),
                      Calling(Only(if known.Some? then Answered(known, NoFault) else Asking(req), dead)))
    {
      StepLeads(cfg, id, Calling(Only(Finding(req), dead)), Finding(req), dead);
      known := None;
      if req.key != "" {
        known := repo.FindIdempotency(if dead then Canceled else Live, req.tenantId, req.key);
      }
    }

    /** The checks of an invocation: a known kind, and no environment variable that the module
        does not allow. */
    method ValidateInvocation(m: M.Module, req: Request) returns (ok: bool)
      ensures ok <==> InvocationOk(m, req)
    {
      if !KnownKind(req.kind) { return false; }
      var left := req.environment;
      while left != {}
        invariant left <= req.environment
        invariant forall v :: v in req.environment && v !in left ==> v in m.envAllowlist
        decreases left
      {
        var v :| v in left;
        if v !in m.envAllowlist { return false; }
        left := left - {v};
      }
      return true;
    }

    /** The checks between the lookup and the creation, in their order, and the record to create. */
    method Admit(req: Request, dead: bool, id: Id, now: Nanos) returns (step: CallStep)
      requires Ok() && clock == now
      ensures step == AskStep(cfg, Calling(Only(Asking(req), dead)), req, dead, id)
      ensures step.Creating? ==>
                Settles(req.budget, cfg.maxBudget, step.e.ticket.budget) && Within(step.e.ticket.budget, cfg.maxBudget)
    {
      BudgetAcceptedExactly(req.budget, cfg.maxBudget);
      var found := repo.Get(if dead then Canceled else Live, req.moduleId);
      if found.None? { return Answered(None, if dead then ContextCanceled else NotFound); }
      var m := found.value;
      if m.tenantId != req.tenantId { return Answered(None, NotOwner); }
      if !M.IsRunnable(m) { return Answered(None, NotPublished); }
      var valid := ValidateInvocation(m, req);
      if !valid { return Answered(None, BadInvocation); }
      var budget := Normalize(req.budget, cfg.maxBudget);
      if !Validate(budget, cfg.maxBudget) { return Answered(None, OverBudget); }
      var digest := cfg.requestDigest(req.(budget := budget));
      var ticket := Ticket(id, req.tenantId, m.id, m.version, m.digest, digest, budget, req.callbackUrl, now);
      return Creating(Execution(ticket, Queued, NO_REPORT, ErrNone, NoFault, "", None, None), req);
    }

    method CreateRecord(e: Execution, ghost req: Request, dead: bool, ghost id: Id) returns (ok: bool)
      requires Ok()
      modifies this`hist, repo`executions
      ensures Ok() && (ok ==> e.ticket.id in repo.executions)
      ensures var refused := Answered(None, if dead then ContextCanceled else AlreadyExists);
              var next := if ok then Saving(e, req.key, req.payload) else refused;
              Answers(id, old(Calling(Only(Creating(e, req), dead))), Calling(Only(next, dead)))
    {
      hide Proceed;
      CreateLeads(cfg, id, Calling(Only(Creating(e, req), dead)), e, req, dead);
      ok := repo.CreateExecution(if dead then Canceled else Live, e);
      if ok { hist := Created(hist, e.ticket.id, req); }
    }

    method SaveKey(e: Execution, key: string, ghost payload: Bytes, dead: bool, ghost id: Id)
      requires Ok()
      modifies repo`idempotency
      ensures Ok()
      ensures Answers(id, old(Calling(Only(Saving(e, key, payload), dead))), Calling(Only(Putting(e, payload), dead)))
    {
      hide Proceed;
      SaveLeads(cfg, id, Calling(Only(Saving(e, key, payload), dead)), e, key, payload, dead);
      repo.SaveIdempotency(if dead then Canceled else Live, e.ticket.tenantId, key, e.ticket.id);
    }

    method RememberPayload(e: Execution, payload: Bytes, dead: bool, ghost id: Id)
      requires Ok()
      modifies payloads
      ensures Ok()
      ensures Answers(id, old(Calling(Only(Putting(e, payload), dead))), Calling(Only(Scheduling(e), dead)))
    {
      hide Proceed;
      PutLeads(cfg, id, Calling(Only(Putting(e, payload), dead)), e, payload, dead);
      payloads.Put(e.ticket.id, payload);
    }

    /** Queueing the execution, or the record to store when it cannot be. */
    method Schedule(e: Execution, dead: bool, now: Nanos, ghost id: Id) returns (refused: Option<Execution>)
      requires Ok() && clock == now
      modifies this`hist, scheduler.queue
      ensures Ok()
      ensures refused.Some? ==> refused.value.ticket == e.ticket
      ensures var next := if refused.Some? then Reverting(refused.value) else Answered(Some(e), NoFault);
              Answers(id, old(Calling(Only(Scheduling(e), dead))), Calling(Only(next, dead)))
    {
      assert scheduler.queue.View().seam <= |scheduler.queue.View().entries| by {
        F.RingIsValid(scheduler.queue.tenants, scheduler.queue.cursor, scheduler.queue.byTenant);
      }
      ScheduleLeads(cfg, id, Calling(Only(Scheduling(e), dead)), e, dead);
      var res := scheduler.Submit(!dead, e.ticket.id, e.ticket.tenantId, now);
      match res {
        case Accepted =>
          hist := hist.(place := hist.place[e.ticket.id := Waiting]);
          refused := None;
        case ContextDone => refused := Some(Unscheduled(e, ContextCanceled));
        case QueueClosed => refused := Some(Unscheduled(e, QueueShut));
      }
    }

    method Revert(e: Execution, dead: bool, ghost id: Id)
      requires Ok() && e.ticket.id in repo.executions
      modifies this`hist, repo`executions
      ensures Ok()
      ensures Answers(id, old(Calling(Only(Reverting(e), dead))), Calling(Only(Answered(Some(e), e.fault), dead)))
    {
      hide Next, Proceed;
      RevertLeads(cfg, id, Calling(Only(Reverting(e), dead)), e, dead);
      var stored := repo.UpdateExecution(if dead then Canceled else Live, e);
      hist := Dropped(hist, e.ticket.id, if dead then Some(CallDone) else None);
    }

    /** Putting a created execution in the queue, with its key and payload kept first. */
    method Launch(e: Execution, key: string, payload: Bytes, dead: bool, now: Nanos, ghost id: Id)
        returns (answer: Execution, fault: Fault)
      requires Ok() && e.ticket.id in repo.executions && clock == now
      modifies this`hist, repo`executions, repo`idempotency, payloads, scheduler.queue
      ensures Ok()
      ensures Answers(id, old(Calling(Only(Saving(e, key, payload), dead))),
                      Calling(Only(Answered(Some(answer), fault), dead)))
    {
      hide Proceed;
      ghost var s0 := Calling(Only(Saving(e, key, payload), dead));
      SaveKey(e, key, payload, dead, id);
      ghost var s1 := Calling(Only(Putting(e, payload), dead));
      RememberPayload(e, payload, dead, id);
      ghost var s2 := Calling(Only(Scheduling(e), dead));
      LeadsOn(Turns(cfg, id), s0, s1, s2);
      var refused := Schedule(e, dead, now, id);
      if refused.None? {
        LeadsOn(Turns(cfg, id), s0, s2, Calling(Only(Answered(Some(e), NoFault), dead)));
        return e, NoFault;
      }
      ghost var s3 := Calling(Only(Reverting(refused.value), dead));
      LeadsOn(Turns(cfg, id), s0, s2, s3);
      Revert(refused.value, dead, id);
      LeadsOn(Turns(cfg, id), s0, s3, Calling(Only(Answered(refused, refused.value.fault), dead)));
      return refused.value, refused.value.fault;
    }

    /** Submit from resolving the module on. */
    method SubmitNew(req: Request, dead: bool, id: Id, now: Nanos) returns (answer: Option<Execution>, fault: Fault)
      requires Ok() && clock == now
      modifies this`hist, repo`executions, repo`idempotency, payloads, scheduler.queue
      ensures Ok()
      ensures Answers(id, old(Calling(Only(Asking(req), dead))), Calling(Only(Answered(answer, fault), dead)))
    {
      hide Proceed;
      ghost var s0 := Calling(Only(Asking(req), dead));
      StepLeads(cfg, id, s0, Asking(req), dead);
      var step := Admit(req, dead, id, now);
      if step.Answered? { return None, step.fault; }
      ghost var s1 := Calling(Only(step, dead));
      var e := step.e;
      var ok := CreateRecord(e, req, dead, id);
      if !ok {
        answer, fault := None, if dead then ContextCanceled else AlreadyExists;
        LeadsOn(Turns(cfg, id), s0, s1, Calling(Only(Answered(answer, fault), dead)));
        return;
      }
      ghost var s2 := Calling(Only(Saving(e, req.key, req.payload), dead));
      LeadsOn(Turns(cfg, id), s0, s1, s2);
      var record, why := Launch(e, req.key, req.payload, dead, now, id);
      answer, fault := Some(record), why;
      LeadsOn(Turns(cfg, id), s0, s2, Calling(Only(Answered(answer, fault), dead)));
    }

    /** Submit, once the call has come in: a path of the control plane to its answer. */
    method Accept(req: Request, dead: bool, id: Id, now: Nanos) returns (answer: Option<Execution>, fault: Fault)
      requires Ok() && clock == now
      modifies this`hist, repo`executions, repo`idempotency, payloads, scheduler.queue
      ensures Ok()
      ensures Answers(id, old(Calling(Only(Finding(req), dead))), Calling(Only(Answered(answer, fault), dead)))
    {
      ghost var s0 := Calling(Only(Finding(req), dead));
      StepLeads(cfg, id, s0, Finding(req), dead);
      if req.tenantId == "" || req.moduleId == "" { return None, Blank; }
      var known := Find(req, dead, id);
      if known.Some? { return known, NoFault; }
      ghost var s1 := Calling(Only(Asking(req), dead));
      answer, fault := SubmitNew(req, dead, id, now);
      LeadsOn(Turns(cfg, id), s0, s1, Calling(Only(Answered(answer, fault), dead)));
    }

    /** Submit, left alone, is a path of the control plane; unless the clock runs backwards it is a
        possible run, and leaves a sound service sound. */
    method Submit(req: Request, dead: bool, id: Id, now: Nanos) returns (answer: Option<Execution>, fault: Fault)
      requires Ok()
      modifies this`hist, this`clock, repo`executions, repo`idempotency, payloads, scheduler.queue
      ensures Ok()
      ensures Answers(id, Called(old(Calling(map[])), now, Finding(req), dead),
                      Calling(Only(Answered(answer, fault), dead)))
      ensures old(clock) <= now ==> Reaches(cfg, old(Calling(map[])), Calling(Only(Answered(answer, fault), dead)))
      ensures old(clock) <= now && CollisionFree(cfg.lib) && Sound(cfg, old(Calling(map[]))) ==>
                Sound(cfg, Calling(map[]))
    {
      hide Next, Proceed, Enabled, Sound;
      ghost var s0 := Calling(map[]);
      clock := now;
      answer, fault := Accept(req, dead, id, now);
      ghost var s' := Calling(Only(Answered(answer, fault), dead));
      if s0.now <= now { CallKeepsSound(cfg, id, s0, now, Finding(req), dead, answer, fault, s'); }
    }

    // ---- Cancel ----

    /** Ending the context of a run that has registered. */
    method Fire(id: Id, dead: bool, ghost x: Id)
      requires Ok()
      modifies this`fired
      ensures Ok() && fired == old(fired) + {id}
      ensures Answers(x, old(Calling(Only(Firing(id), dead))), Calling(Only(Reading(id), dead)))
    {
      hide Next, Proceed;
      CancelLeads(cfg, x, Calling(Only(Firing(id), dead)), Firing(id), dead);
      fired := fired + {id};
    }

    /** Flagging an execution that has not registered, and storing it as canceled. */
    method FlagAndStore(e: Execution, dead: bool, now: Nanos, ghost x: Id) returns (ok: bool)
      requires Ok() && e.ticket.id in repo.executions && clock == now
      modifies this`hist, scheduler, repo`executions
      ensures Ok()
      ensures var next := if ok then Reading(e.ticket.id) else Answered(None, ContextCanceled);
              Answers(x, old(Calling(Only(Flagging(e), dead))), Calling(Only(next, dead)))
    {
      ghost var s0 := Calling(Only(Flagging(e), dead));
      CancelLeads(cfg, x, s0, Flagging(e), dead);
      var flagged := scheduler.Cancel(e.ticket.id);
      var e' := CanceledEarly(e, now);
      ghost var s1 := Calling(Only(Writing(e'), dead));
      CancelLeads(cfg, x, s1, Writing(e'), dead);
      ok := repo.UpdateExecution(if dead then Canceled else Live, e');
      hist := Lapsed(hist, e.ticket.id, dead);
      LeadsOn(Turns(cfg, x), s0, s1,
              Calling(Only(if ok then Reading(e.ticket.id) else Answered(None, ContextCanceled), dead)));
    }

    /** The record that Cancel answers with. */
    method Answer(id: Id, dead: bool, ghost x: Id) returns (answer: Option<Execution>, fault: Fault)
      requires Ok()
      ensures Answers(x, old(Calling(Only(Reading(id), dead))), Calling(Only(Answered(answer, fault), dead)))
    {
      StepLeads(cfg, x, Calling(Only(Reading(id), dead)), Reading(id), dead);
      answer := repo.GetExecution(if dead then Canceled else Live, id);
      fault := if dead then ContextCanceled else if answer.None? then NotFound else NoFault;
    }

    /** Cancel of an unfinished execution. */
    method CancelUnfinished(e: Execution, dead: bool, now: Nanos, ghost x: Id)
        returns (answer: Option<Execution>, fault: Fault)
      requires Ok() && e.ticket.id in repo.executions && clock == now
      modifies this`hist, this`fired, scheduler, repo`executions
      ensures Ok()
      ensures Answers(x, old(Calling(Only(Probing(e), dead))), Calling(Only(Answered(answer, fault), dead)))
    {
      ghost var s0 := Calling(Only(Probing(e), dead));
      StepLeads(cfg, x, s0, Probing(e), dead);
      if e.ticket.id in cancels {
        ghost var s1 := Calling(Only(Firing(e.ticket.id), dead));
        Fire(e.ticket.id, dead, x);
        LeadsOn(Turns(cfg, x), s0, s1, Calling(Only(Reading(e.ticket.id), dead)));
      } else {
        ghost var s1 := Calling(Only(Flagging(e), dead));
        var ok := FlagAndStore(e, dead, now, x);
        if !ok {
          LeadsOn(Turns(cfg, x), s0, s1, Calling(Only(Answered(None, ContextCanceled), dead)));
          return None, ContextCanceled;
        }
        LeadsOn(Turns(cfg, x), s0, s1, Calling(Only(Reading(e.ticket.id), dead)));
      }
      ghost var s2 := Calling(Only(Reading(e.ticket.id), dead));
      answer, fault := Answer(e.ticket.id, dead, x);
      LeadsOn(Turns(cfg, x), s0, s2, Calling(Only(Answered(answer, fault), dead)));
    }

    /** Cancel, once the call has come in: a path of the control plane to its answer. */
    method Stop(id: Id, dead: bool, now: Nanos, ghost x: Id) returns (answer: Option<Execution>, fault: Fault)
      requires Ok() && clock == now
      modifies this`hist, this`fired, scheduler, repo`executions
      ensures Ok()
      ensures Answers(x, old(Calling(Only(Fetching(id), dead))), Calling(Only(Answered(answer, fault), dead)))
    {
      ghost var s0 := Calling(Only(Fetching(id), dead));
      StepLeads(cfg, x, s0, Fetching(id), dead);
      var found := repo.GetExecution(if dead then Canceled else Live, id);
      if found.None? { return None, if dead then ContextCanceled else NotFound; }
      if Terminal(found.value) { return found, NoFault; }
      ghost var s1 := Calling(Only(Probing(found.value), dead));
      answer, fault := CancelUnfinished(found.value, dead, now, x);
      LeadsOn(Turns(cfg, x), s0, s1, Calling(Only(Answered(answer, fault), dead)));
    }

    /** Cancel, left alone, is a path of the control plane; unless the clock runs backwards it is a
        possible run, and leaves a sound service sound. */
    method Cancel(id: Id, dead: bool, now: Nanos, ghost x: Id) returns (answer: Option<Execution>, fault: Fault)
      requires Ok()
      modifies this`hist, this`clock, this`fired, scheduler, repo`executions
      ensures Ok()
      ensures Answers(x, Called(old(Calling(map[])), now, Fetching(id), dead),
                      Calling(Only(Answered(answer, fault), dead)))
      ensures old(clock) <= now ==> Reaches(cfg, old(Calling(map[])), Calling(Only(Answered(answer, fault), dead)))
      ensures old(clock) <= now && CollisionFree(cfg.lib) && Sound(cfg, old(Calling(map[]))) ==>
                Sound(cfg, Calling(map[]))
    {
      hide Next, Proceed, Enabled, Sound;
      ghost var s0 := Calling(map[]);
      clock := now;
      answer, fault := Stop(id, dead, now, x);
      ghost var s' := Calling(Only(Answered(answer, fault), dead));
      if s0.now <= now { CallKeepsSound(cfg, x, s0, now, Fetching(id), dead, answer, fault, s'); }
    }
  }

  /** A call left alone keeps the service sound. */
  lemma CallKeepsSound(
    cfg: Config, id: Id, s: State, now: Nanos, step: CallStep, dead: bool, answer: Option<Execution>, fault: Fault,
        s': State)
    requires s.calls == map[] && s.now <= now && (step.Finding? || step.Fetching?)
    requires Leads(Turns(cfg, id), Called(s, now, step, dead), s') && s'.calls == Only(Answered(answer, fault), dead)
    ensures Reaches(cfg, s, s')
    ensures Sound(cfg, s) && CollisionFree(cfg.lib) ==> Sound(cfg, s'.(calls := map[]))
  {
    hide Next, Proceed, Enabled, Sound;
    CallIsPossible(cfg, id, s, now, step, dead, s');
    if Sound(cfg, s) && CollisionFree(cfg.lib) {
      ReachedIsSound(cfg, s, s');
      AnsweredIsOver(cfg, s', 0);
      assert s'.calls - {0} == map[];
    }
  }

  /** So does a run left alone, by an allowed script; and the process stays up. */
  lemma RunKeepsSound(cfg: Config, script: Script, s: State, crashed: bool, s': State)
    requires if crashed then GoesDown(cfg, script, s) else Leads(Visits(cfg, script), s, s')
    ensures Allowed(cfg, script, s) ==> !crashed && Reaches(cfg, s, s')
    ensures CollisionFree(cfg.lib) && Allowed(cfg, script, s) ==> Sound(cfg, s) ==> Sound(cfg, s')
  {
    hide Next, Visits, Enabled, Sound;
    if Allowed(cfg, script, s) {
      AllowedStaysUp(cfg, script, s);
      if !crashed {
        PathIsPossible(cfg, script, s, s');
        if Sound(cfg, s) && CollisionFree(cfg.lib) { ReachedIsSound(cfg, s, s'); }
      }
    }
  }
}
