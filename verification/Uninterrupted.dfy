/** One worker, or one call, with nothing in between its steps: the paths that the methods of the
    service take through the control plane. */
module Uninterrupted {
  import opened Common
  import opened Executions
  import opened Simulation
  import opened ControlPlane
  import opened Paths
  import Q = RingQueue
  import C = Caching
  import R = Resources
  import T = Meters
  import S = Stores
  import M = Modules

  // ---- A worker's steps with nothing in between ----

  /** The only worker's number, and the only call's. */
  const ONLY: nat := 0

  /** When a step is taken, and what it finds out about contexts and CPU time. */
  datatype Moment = Moment(now: Nanos, input: Input)

  /** The moments of one run: taking it up, marking it as running, loading its module, looking
      in the cache, compiling, executing, metering, and giving the lease back. */
  datatype Script = Script(live: bool, begin: Moment, mark: Moment, load: Moment, look: Moment, compile: Moment,
                           execute: Moment, record: Moment, end: Moment)

  function MomentOf(script: Script, w: Worker): Moment {
    match w
    case Marking(_, _, _) => script.mark
    case Loading(_, _, _) => script.load
    case Looking(_, _, _, _) => script.look
    case Compiling(_, _, _, _) => script.compile
    case Executing(_, _, _, _) => script.execute
    case Finishing(_) => script.execute
    case Metering(_) => script.record
    case Aborting(_) => script.record
    case Unwinding(_) => script.end
    case Releasing(_) => script.end
    case _ => script.begin
  }

  function Then(s: State, m: Moment): State {
    s.(now := m.now)
  }

  /** One step of the only worker, until it is idle again. */
  function Visit(cfg: Config, script: Script, s: State): State {
    if |s.pool.workers| != 1 || s.pool.workers[0].Idle? then s else
    var m := MomentOf(script, s.pool.workers[0]);
    Work(cfg, Then(s, m), ONLY, m.input)
  }

  function Visits(cfg: Config, script: Script): State -> State {
    s => Visit(cfg, script, s)
  }

  // ---- Each step of a worker, spelled out ----

  /** The only worker stands elsewhere, and nothing else changes. */
  function Moves(s: State, next: Worker): State {
    s.(pool := s.pool.(workers := [next]))
  }

  /** The history with the execution let go of. */
  function Dropped(h: History, id: Id, cause: Option<Cause>): History {
    h.(place := h.place[id := Gone], causes := Caused(h.causes, Some(id), cause))
  }

  /** The worker is idle, having let go of the execution. */
  function LetsGo(s: State, id: Id, cause: Option<Cause>): State {
    Moves(s, Idle).(hist := Dropped(s.hist, id, cause))
  }

  function Writes(s: State, write: Option<Execution>): State {
    s.(disk := s.disk.(executions := Write(s.disk.executions, write)))
  }

  /** Why it lets go, if it is because the pool's context is done. */
  function UnlessLive(live: bool): Option<Cause> {
    if live then None else Some(ShutDown)
  }

  lemma ByVisit(cfg: Config, script: Script, s: State, p: Worker, s': State)
    requires s.pool.workers == [p] && !p.Idle?
    requires var m := MomentOf(script, p); var here := Then(s, m); var t := TurnOf(cfg, here, ONLY, m.input);
             s' == here.(pool := s.pool.(queue := t.queue, notified := t.notified, workers := [t.next]),
                         svc := t.svc,
                         disk := s.disk.(executions := Write(s.disk.executions, t.write)),
                         hist := Work(cfg, here, ONLY, m.input).hist)
    ensures Leads(Visits(cfg, script), s, s')
  {
    hide TurnOf;
    var m := MomentOf(script, p);
    var t := TurnOf(cfg, Then(s, m), ONLY, m.input);
    assert s.pool.workers[0 := t.next] == [t.next];
    LeadsByStep(Visits(cfg, script), s, s');
  }

  /** The next look of an idle worker at the queue. */
  function Looks(cfg: Config, script: Script, s: State): State {
    if s.pool.workers != [Idle] then s else Work(cfg, Then(s, script.begin), 0, script.begin.input)
  }

  /** The state of an idle worker that has taken the job at the front. */
  function TakesFront(s: State, job: Q.Job): State
    requires Q.Valid(s.pool.queue) && s.pool.queue.entries != []
  {
    s.(pool := s.pool.(queue := Q.Dequeue(s.pool.queue), workers := [Holding(job)]),
       hist := s.hist.(place := s.hist.place[job.executionId := Held(0)]))
  }

  lemma LooksDirectly(cfg: Config, script: Script, s: State)
    requires s.pool.workers == [Idle] && Q.Valid(s.pool.queue)
    ensures var here := Then(s, script.begin);
            Looks(cfg, script, s) ==
            if s.pool.closed then Moves(here, Exited)
            else if s.pool.queue.entries == [] then Moves(here, Parked)
            else TakesFront(here, Q.Front(s.pool.queue))
  {
  }

  /** The state with the flag taken down. */
  function Unflagged(s: State, id: Id): State {
    s.(svc := s.svc.(canceled := s.svc.canceled - {id}))
  }

  lemma HoldLeads(cfg: Config, script: Script, s: State, job: Q.Job)
    requires s.pool.workers == [Holding(job)]
    ensures var here, id := Then(s, script.begin), job.executionId;
            && (id in s.svc.canceled ==>
                  Leads(Visits(cfg, script), s, LetsGo(Unflagged(here, id), id, Some(Flagged))))
            && (id !in s.svc.canceled ==> Leads(Visits(cfg, script), s, Moves(here, Starting(id))))
  {
    var here, id := Then(s, script.begin), job.executionId;
    assert TurnOf(cfg, here, ONLY, script.begin.input) == HoldTurn(here, job);
    if id in s.svc.canceled {
      ByVisit(cfg, script, s, Holding(job), LetsGo(Unflagged(here, id), id, Some(Flagged)));
    } else {
      ByVisit(cfg, script, s, Holding(job), Moves(here, Starting(id)));
    }
  }

  lemma TakeUpLeads(cfg: Config, script: Script, s: State, id: Id)
    requires s.pool.workers == [Starting(id)]
    ensures var here, ex := Then(s, script.begin), s.disk.executions;
            var stop := !s.pool.live || id !in ex || Terminal(ex[id]);
            && (stop ==> Leads(Visits(cfg, script), s, LetsGo(here, id, UnlessLive(s.pool.live))))
            && (!stop && ex[id].ticket.id == id ==> Leads(Visits(cfg, script), s, Moves(here, Resolving(ex[id]))))
  {
    var here, ex := Then(s, script.begin), s.disk.executions;
    assert TurnOf(cfg, here, ONLY, script.begin.input) == StartTurn(here, id);
    if !s.pool.live || id !in ex || Terminal(ex[id]) {
      ByVisit(cfg, script, s, Starting(id), LetsGo(here, id, UnlessLive(s.pool.live)));
    } else if ex[id].ticket.id == id {
      ByVisit(cfg, script, s, Starting(id), Moves(here, Resolving(ex[id])));
    }
  }

  lemma ResolveLeads(cfg: Config, script: Script, s: State, e: Execution)
    requires s.pool.workers == [Resolving(e)]
    ensures var here := Then(s, script.begin);
            Leads(Visits(cfg, script), s, Moves(here, ResolveTurn(here, e).next))
  {
    var here := Then(s, script.begin);
    var next := ResolveTurn(here, e).next;
    assert TurnOf(cfg, here, ONLY, script.begin.input) == ResolveTurn(here, e);
    ByVisit(cfg, script, s, Resolving(e), Moves(here, next));
  }

  function Deadline(script: Script, e: Execution): Nanos {
    script.begin.now + e.ticket.budget.timeout
  }

  /** The record of an execution whose lease was denied. */
  function Refused(e: Execution, why: R.Denial, now: Nanos): Execution {
    FailedWith(e, ErrResource, DenialFault(why), now)
  }

  /** The history with the quota that a denied execution met. */
  function Met(h: History, books: R.Books, e: Execution, now: Nanos): History {
    h.(past := h.past.(denied := h.past.denied + {(e.ticket.id, R.QuotaAt(books, e.ticket.tenantId, now))}))
  }

  lemma AcquireLeads(cfg: Config, script: Script, s: State, e: Execution, m: M.Module, books: R.Books, grant: R.Grant)
    requires s.pool.workers == [Acquiring(e, m)]
    requires var t := e.ticket;
             (books, grant) == R.Acquire(s.svc.books, t.tenantId, t.id, t.budget.maxMemoryPages, s.pool.live,
                                         script.begin.now)
    ensures var here := Then(s, script.begin);
            match grant
            case Granted(_) =>
              var next := Registering(e, m, Deadline(script, e));
              Leads(Visits(cfg, script), s, Moves(here, next).(svc := s.svc.(books := books)))
            case Denied(why) =>
              var next := Rejecting(Refused(e, why, script.begin.now));
              Leads(Visits(cfg, script), s, Moves(here, next).(hist := Met(s.hist, s.svc.books, e, script.begin.now)))
  {
    var here := Then(s, script.begin);
    assert TurnOf(cfg, here, ONLY, script.begin.input) == AcquireTurn(here, e, m);
    match grant
    case Granted(_) =>
      var next := Registering(e, m, Deadline(script, e));
      ByVisit(cfg, script, s, Acquiring(e, m), Moves(here, next).(svc := s.svc.(books := books)));
    case Denied(why) =>
      var next := Rejecting(Refused(e, why, script.begin.now));
      ByVisit(cfg, script, s, Acquiring(e, m),
              Moves(here, next).(hist := Met(s.hist, s.svc.books, e, script.begin.now)));
  }

  lemma RejectLeads(cfg: Config, script: Script, s: State, e: Execution)
    requires s.pool.workers == [Rejecting(e)]
    ensures var here, live := Then(s, script.begin), s.pool.live;
            Leads(Visits(cfg, script), s,
                  Writes(LetsGo(here, e.ticket.id, UnlessLive(live)), if live then Some(e) else None))
  {
    var here, live := Then(s, script.begin), s.pool.live;
    assert TurnOf(cfg, here, ONLY, script.begin.input) == RejectTurn(here, e);
    ByVisit(cfg, script, s, Rejecting(e),
            Writes(LetsGo(here, e.ticket.id, UnlessLive(live)), if live then Some(e) else None));
  }

  lemma RegisterLeads(cfg: Config, script: Script, s: State, e: Execution, m: M.Module, deadline: Nanos)
    requires s.pool.workers == [Registering(e, m, deadline)]
    ensures Leads(Visits(cfg, script), s,
                  Moves(Then(s, script.begin),
                        Marking(e, m, deadline)).(svc := s.svc.(cancels := s.svc.cancels + {e.ticket.id})))
  {
    var here := Then(s, script.begin);
    assert TurnOf(cfg, here, ONLY, script.begin.input) == RegisterTurn(here, e, m, deadline);
    ByVisit(cfg, script, s, Registering(e, m, deadline),
            Moves(here, Marking(e, m, deadline)).(svc := s.svc.(cancels := s.svc.cancels + {e.ticket.id})));
  }

  /** The history with what kept the execution from being marked as running. */
  function Unmarked(h: History, id: Id, live: bool, deadline: Nanos, ctx: Ctx): History {
    h.(causes := h.causes[id := if ctx == Expired then Overdue(deadline) else if live then Fired else ShutDown])
  }

  lemma MarkLeads(cfg: Config, script: Script, s: State, e: Execution, m: M.Module, deadline: Nanos)
    requires s.pool.workers == [Marking(e, m, deadline)]
    ensures var here, ctx := Then(s, script.mark), script.mark.input.ctx;
            var e' := e.(status := Running, startedAt := Some(script.mark.now), nodeId := cfg.nodeId);
            && (ctx == Live ==> Leads(Visits(cfg, script), s, Writes(Moves(here, Loading(e', m, deadline)), Some(e'))))
            && (ctx != Live ==>
                  Leads(Visits(cfg, script), s,
                        Moves(here, Unwinding(e)).(hist := Unmarked(s.hist, e.ticket.id, s.pool.live, deadline, ctx))))
  {
    var here, ctx := Then(s, script.mark), script.mark.input.ctx;
    var e' := e.(status := Running, startedAt := Some(script.mark.now), nodeId := cfg.nodeId);
    assert TurnOf(cfg, here, ONLY, script.mark.input) == MarkTurn(cfg, here, e, m, deadline, ctx);
    if ctx == Live {
      ByVisit(cfg, script, s, Marking(e, m, deadline), Writes(Moves(here, Loading(e', m, deadline)), Some(e')));
    } else {
      ByVisit(cfg, script, s, Marking(e, m, deadline),
              Moves(here, Unwinding(e)).(hist := Unmarked(s.hist, e.ticket.id, s.pool.live, deadline, ctx)));
    }
  }

  lemma LoadLeads(cfg: Config, script: Script, s: State, e: Execution, m: M.Module, deadline: Nanos)
    requires s.pool.workers == [Loading(e, m, deadline)]
    ensures var here := Then(s, script.load);
            Leads(Visits(cfg, script), s, Moves(here, LoadTurn(here, e, m, deadline, script.load.input.ctx).next))
  {
    var here := Then(s, script.load);
    var next := LoadTurn(here, e, m, deadline, script.load.input.ctx).next;
    assert TurnOf(cfg, here, ONLY, script.load.input) == LoadTurn(here, e, m, deadline, script.load.input.ctx);
    ByVisit(cfg, script, s, Loading(e, m, deadline), Moves(here, next));
  }

  /** What a lookup makes of the run. */
  function AfterLookup(e: Execution, m: M.Module, deadline: Nanos, content: Bytes, found: C.Lookup,
      now: Nanos): Worker {
    match found
    case Hit(compiled) => Executing(e, m, deadline, compiled)
    case Miss => Compiling(e, m, deadline, content)
    case KnownFailure(cause) => Aborting(FailedWith(e, ErrRuntime, CachedFailure(cause), now))
    case NoContext(fault) => Aborting(FailedWith(e, ErrRuntime, fault, now))
  }

  lemma LookUpLeads(cfg: Config, script: Script, s: State, e: Execution, m: M.Module, deadline: Nanos, content: Bytes,
      cache: C.Cache, found: C.Lookup)
    requires s.pool.workers == [Looking(e, m, deadline, content)]
    requires (cache, found) == C.Get(s.svc.cache, script.look.input.ctx, KeyOf(cfg, e, m), script.look.now)
    ensures Leads(Visits(cfg, script), s,
                  Moves(Then(s, script.look),
                        AfterLookup(e, m, deadline, content, found, script.look.now)).(svc := s.svc.(cache := cache)))
  {
    var here := Then(s, script.look);
    assert TurnOf(cfg, here, ONLY, script.look.input) == LookTurn(cfg, here, e, m, deadline, content,
                                                               script.look.input.ctx);
    ByVisit(cfg, script, s, Looking(e, m, deadline, content),
            Moves(here, AfterLookup(e, m, deadline, content, found, script.look.now)).(svc := s.svc.(cache := cache)));
  }

  /** What a compile, its outcome kept where the contexts allow it, makes of the run. */
  function AfterCompile(e: Execution, m: M.Module, deadline: Nanos, made: CompileResult, now: Nanos): Worker {
    match made
    case Ready(compiled) => Executing(e, m, deadline, compiled)
    case Rejected(fault) => Aborting(FailedWith(e, ErrRuntime, fault, now))
  }

  function Kept(cfg: Config, cache: C.Cache, key: C.Key, compiled: CompileResult, putCtx: Ctx, now: Nanos): C.Cache {
    if compiled.Rejected? then C.Store(cache, Live, key, compiled, MINUTE, now)
      else C.Store(cache, putCtx, key, compiled, cfg.cacheTtl, now)
  }

  function Made(compiled: CompileResult, putCtx: Ctx): CompileResult {
    if compiled.Ready? && putCtx != Live then Rejected(ContextFault(putCtx)) else compiled
  }

  lemma CompileLeads(
    cfg: Config, script: Script, s: State, e: Execution, m: M.Module, deadline: Nanos, content: Bytes,
    compiled: CompileResult)
    requires s.pool.workers == [Compiling(e, m, deadline, content)]
    requires compiled == Compile(cfg.lib, cfg.version, s.svc.runtimeClosed, script.compile.input.ctx, content, m.digest)
    ensures var at := script.compile;
            var next := AfterCompile(e, m, deadline, Made(compiled, at.input.putCtx), at.now);
            var cache := Kept(cfg, s.svc.cache, KeyOf(cfg, e, m), compiled, at.input.putCtx, at.now);
            Leads(Visits(cfg, script), s, Moves(Then(s, at), next).(svc := s.svc.(cache := cache)))
  {
    var at := script.compile;
    var here := Then(s, at);
    var next := AfterCompile(e, m, deadline, Made(compiled, at.input.putCtx), at.now);
    var cache := Kept(cfg, s.svc.cache, KeyOf(cfg, e, m), compiled, at.input.putCtx, at.now);
    assert TurnOf(cfg, here, ONLY, at.input) == CompileTurn(cfg, here, e, m, deadline, content, at.input.ctx,
                                                         at.input.putCtx);
    ByVisit(cfg, script, s, Compiling(e, m, deadline, content), Moves(here, next).(svc := s.svc.(cache := cache)));
  }

  /** The history with one more execution run. */
  function RanOne(s: State, e: Execution, ctx: Ctx): History {
    var t := e.ticket.tenantId;
    s.hist.(ran := s.hist.ran[t := Count(s.hist.ran, t) + 1],
            past := if ctx == Live then s.hist.past
                    else s.hist.past.(stops := s.hist.past.stops + Behind(s, e.ticket.id, ctx)))
  }

  /** The state once an execution has run: its payload is taken, it counts as run, and what was
      behind its context if that was done is remembered. */
  function Ran(s: State, e: Execution, ctx: Ctx): State {
    s.(svc := s.svc.(payloads := s.svc.payloads - {e.ticket.id}), hist := RanOne(s, e, ctx))
  }

  const NO_CPU: nat := 0

  lemma ExecutingHistory(cfg: Config, s: State, e: Execution, m: M.Module, deadline: Nanos, compiled: Compiled,
      input: Input, t: Turn, e': Execution)
    requires s.pool.workers == [Executing(e, m, deadline, compiled)] && t == TurnOf(cfg, s, ONLY, input)
    requires t.next == Finishing(e') && e'.ticket == e.ticket && t.ran && t.cpu == 0
    ensures Work(cfg, s, ONLY, input).hist == RanOne(s, e, input.ctx)
  {
    hide TurnOf;
  }

  lemma ConcludeKeeps(cfg: Config, e: Execution, o: Outcome, now: Nanos)
    ensures Conclude(cfg, e, o, now).ticket == e.ticket
  {
  }

  lemma ExecutesTo(cfg: Config, s: State, e: Execution, m: M.Module, compiled: Compiled, input: Input, o: Outcome)
    requires o == OutcomeOf(cfg, s, e, m, compiled, input)
    ensures ExecuteTurn(cfg, s, e, m, compiled, input) ==
            Turn(Finishing(Conclude(cfg, e, o, s.now)), s.pool.queue, s.pool.notified, Ran(s, e, Live).svc, None,
                 NO_CPU, true)
  {
  }

  lemma PerformLeads(cfg: Config, script: Script, s: State, e: Execution, m: M.Module, deadline: Nanos,
      compiled: Compiled, o: Outcome)
    requires s.pool.workers == [Executing(e, m, deadline, compiled)] && !o.Crashed?
    requires o == OutcomeOf(cfg, Then(s, script.execute), e, m, compiled, script.execute.input)
    ensures var next := Finishing(Conclude(cfg, e, o, script.execute.now));
            Leads(Visits(cfg, script), s, Moves(Ran(Then(s, script.execute), e, script.execute.input.ctx), next))
  {
    var here, input := Then(s, script.execute), script.execute.input;
    var e' := Conclude(cfg, e, o, script.execute.now);
    ConcludeKeeps(cfg, e, o, script.execute.now);
    ExecutesTo(cfg, here, e, m, compiled, input, o);
    var t := Turn(Finishing(e'), s.pool.queue, s.pool.notified, Ran(here, e, input.ctx).svc, None, NO_CPU, true);
    assert TurnOf(cfg, here, ONLY, input) == t;
    ExecutingHistory(cfg, here, e, m, deadline, compiled, input, t, e');
    ByVisit(cfg, script, s, Executing(e, m, deadline, compiled), Moves(Ran(here, e, input.ctx), Finishing(e')));
  }

  lemma FinishLeads(cfg: Config, script: Script, s: State, e: Execution)
    requires s.pool.workers == [Finishing(e)]
    ensures Leads(Visits(cfg, script), s, Writes(Moves(Then(s, script.execute), Metering(e)), Some(e)))
  {
    var here := Then(s, script.execute);
    assert TurnOf(cfg, here, ONLY, script.execute.input) == FinishTurn(here, e);
    ByVisit(cfg, script, s, Finishing(e), Writes(Moves(here, Metering(e)), Some(e)));
  }

  lemma MeterLeads(cfg: Config, script: Script, s: State, e: Execution)
    requires s.pool.workers == [Metering(e)]
    ensures Leads(Visits(cfg, script), s,
                  Moves(Then(s, script.record),
                        Unwinding(e)).(svc := s.svc.(usage := T.Add(s.svc.usage, e, script.record.now))))
  {
    var here := Then(s, script.record);
    assert TurnOf(cfg, here, ONLY, script.record.input) == MeterTurn(here, e);
    ByVisit(cfg, script, s, Metering(e),
            Moves(here, Unwinding(e)).(svc := s.svc.(usage := T.Add(s.svc.usage, e, script.record.now))));
  }

  lemma AbortLeads(cfg: Config, script: Script, s: State, e: Execution)
    requires s.pool.workers == [Aborting(e)]
    ensures Leads(Visits(cfg, script), s, Writes(Moves(Then(s, script.record), Unwinding(e)), Some(e)))
  {
    var here := Then(s, script.record);
    assert TurnOf(cfg, here, ONLY, script.record.input) == AbortTurn(here, e);
    ByVisit(cfg, script, s, Aborting(e), Writes(Moves(here, Unwinding(e)), Some(e)));
  }

  lemma UnregisterLeads(cfg: Config, script: Script, s: State, e: Execution)
    requires s.pool.workers == [Unwinding(e)]
    ensures Leads(Visits(cfg, script), s,
                  Moves(Then(s, script.end), Releasing(e)).(svc := s.svc.(cancels := s.svc.cancels - {e.ticket.id})))
  {
    var here := Then(s, script.end);
    assert TurnOf(cfg, here, ONLY, script.end.input) == UnwindTurn(here, e);
    ByVisit(cfg, script, s, Unwinding(e),
            Moves(here, Releasing(e)).(svc := s.svc.(cancels := s.svc.cancels - {e.ticket.id})));
  }

  /** The history with the execution let go of and its CPU time released. */
  function ReleasedBy(h: History, e: Execution): History {
    var cpu := e.report.usage.cpuTime;
    h.(place := h.place[e.ticket.id := Gone],
       released := if cpu == 0 then h.released
         else h.released[e.ticket.tenantId := Count(h.released, e.ticket.tenantId) + cpu])
  }

  lemma ReleaseLeads(cfg: Config, script: Script, s: State, e: Execution)
    requires s.pool.workers == [Releasing(e)]
    ensures Leads(Visits(cfg, script), s,
                  Moves(Then(s, script.end), Idle).(
                    svc := s.svc.(books := R.Release(s.svc.books, e.ticket.id, e.report.usage.cpuTime, script.end.now)),
                    hist := ReleasedBy(s.hist, e)))
  {
    hide Behind, R.Release, Leads, Visits, TakeTurn, StartTurn, MarkTurn, LookTurn, CompileTurn, ExecuteTurn;
    var here := Then(s, script.end);
    assert TurnOf(cfg, here, ONLY, script.end.input) == ReleaseTurn(here, e);
    ByVisit(cfg, script, s, Releasing(e),
            Moves(here, Idle).(
              svc := s.svc.(books := R.Release(s.svc.books, e.ticket.id, e.report.usage.cpuTime, script.end.now)),
              hist := ReleasedBy(s.hist, e)));
  }

  // ---- Going down ----

  /** The execution that the only worker is about to run takes the process down. */
  predicate Crashing(cfg: Config, script: Script, s: State) {
    |s.pool.workers| == 1 && s.pool.workers[0].Executing? &&
    var p := s.pool.workers[0];
    OutcomeOf(cfg, Then(s, script.execute), p.e, p.m, p.compiled, script.execute.input).Crashed?
  }

  /** The worker gets to where it does. */
  ghost predicate GoesDown(cfg: Config, script: Script, s: State) {
    exists s' :: Leads(Visits(cfg, script), s, s') && Crashing(cfg, script, s')
  }

  lemma DownOn(cfg: Config, script: Script, s: State, s': State)
    requires Leads(Visits(cfg, script), s, s') && GoesDown(cfg, script, s')
    ensures GoesDown(cfg, script, s)
  {
    hide Visits;
    var down :| Leads(Visits(cfg, script), s', down) && Crashing(cfg, script, down);
    LeadsOn(Visits(cfg, script), s, s', down);
  }

  // ---- A call's steps with nothing in between ----

  /** One step of the only call, until it is answered; `id` is what the identifier generator gives. */
  function Turned(cfg: Config, id: Id, s: State): State {
    if 0 in s.calls && !s.calls[0].step.Answered? then Proceed(cfg, s, 0, id) else s
  }

  function Turns(cfg: Config, id: Id): State -> State {
    s => Turned(cfg, id, s)
  }

  function Only(step: CallStep, dead: bool): map<nat, Call> {
    map[0 := Call(step, dead)]
  }

  /** The history with an execution created for a request by the only call. */
  function Created(h: History, id: Id, req: Request): History {
    h.(place := h.place[id := Submitting(0)], past := h.past.(asked := h.past.asked[id := req]))
  }

  lemma CreateLeads(cfg: Config, id: Id, s: State, e: Execution, req: Request, dead: bool)
    requires s.calls == Only(Creating(e, req), dead)
    ensures dead || e.ticket.id in s.disk.executions ==>
              Leads(Turns(cfg, id), s,
                    s.(calls := Only(Answered(None, if dead then ContextCanceled else AlreadyExists), dead)))
    ensures !(dead || e.ticket.id in s.disk.executions) ==>
              Leads(Turns(cfg, id), s,
                    s.(calls := Only(Saving(e, req.key, req.payload), dead),
                       disk := s.disk.(executions := s.disk.executions[e.ticket.id := e]),
                       hist := Created(s.hist, e.ticket.id, req)))
  {
    var s1 := Turned(cfg, id, s);
    assert s1.calls == Only(s1.calls[0].step, dead);
    LeadsByStep(Turns(cfg, id), s, s1);
  }

  lemma SaveLeads(cfg: Config, id: Id, s: State, e: Execution, key: string, payload: Bytes, dead: bool)
    requires s.calls == Only(Saving(e, key, payload), dead)
    ensures Leads(Turns(cfg, id), s,
                  s.(calls := Only(Putting(e, payload), dead),
                     disk := if dead then s.disk else S.SaveEntry(s.disk, e.ticket.tenantId, key, e.ticket.id)))
  {
    var s1 := Turned(cfg, id, s);
    assert s1.calls == Only(s1.calls[0].step, dead);
    LeadsByStep(Turns(cfg, id), s, s1);
  }

  lemma PutLeads(cfg: Config, id: Id, s: State, e: Execution, payload: Bytes, dead: bool)
    requires s.calls == Only(Putting(e, payload), dead)
    ensures Leads(Turns(cfg, id), s,
                  s.(calls := Only(Scheduling(e), dead),
                     svc := s.svc.(payloads := s.svc.payloads[e.ticket.id := payload])))
  {
    var s1 := Turned(cfg, id, s);
    assert s1.calls == Only(s1.calls[0].step, dead);
    LeadsByStep(Turns(cfg, id), s, s1);
  }

  lemma ScheduleLeads(cfg: Config, id: Id, s: State, e: Execution, dead: bool)
    requires s.calls == Only(Scheduling(e), dead) && s.pool.queue.seam <= |s.pool.queue.entries|
    ensures dead || s.pool.closed ==>
              Leads(Turns(cfg, id), s,
                    s.(calls := Only(Reverting(Unscheduled(e, if dead then ContextCanceled else QueueShut)), dead)))
    ensures !(dead || s.pool.closed) ==>
              Leads(Turns(cfg, id), s,
                    s.(calls := Only(Answered(Some(e), NoFault), dead),
                       pool := s.pool.(
                         queue := Q.Enqueue(s.pool.queue, Q.Job(e.ticket.id, e.ticket.tenantId, s.now, 0)),
                         notified := true),
                       hist := s.hist.(place := s.hist.place[e.ticket.id := Waiting])))
  {
    var s1 := Turned(cfg, id, s);
    assert s1.calls == Only(s1.calls[0].step, dead);
    LeadsByStep(Turns(cfg, id), s, s1);
  }

  lemma RevertLeads(cfg: Config, id: Id, s: State, e: Execution, dead: bool)
    requires s.calls == Only(Reverting(e), dead)
    ensures Leads(Turns(cfg, id), s,
                  s.(calls := Only(Answered(Some(e), e.fault), dead),
                     disk := s.disk.(executions := Write(s.disk.executions, if dead then None else Some(e))),
                     hist := Dropped(s.hist, e.ticket.id, if dead then Some(CallDone) else None)))
  {
    var s1 := Turned(cfg, id, s);
    assert s1.calls == Only(s1.calls[0].step, dead);
    LeadsByStep(Turns(cfg, id), s, s1);
  }

  /** The steps that leave everything but the call where it is. */
  lemma StepLeads(cfg: Config, id: Id, s: State, step: CallStep, dead: bool)
    requires s.calls == Only(step, dead)
    requires step.Finding? || step.Asking? || step.Fetching? || step.Probing? || step.Reading?
    ensures var next := match step
                        case Finding(req) => FindStep(s, req, dead)
                        case Asking(req) => AskStep(cfg, s, req, dead, id)
                        case Fetching(x) => FetchStep(s, x, dead)
                        case Probing(e) => if e.ticket.id in s.svc.cancels then Firing(e.ticket.id) else Flagging(e)
                        case Reading(x) => ReadStep(s, x, dead)
                        case _ => step;
            Leads(Turns(cfg, id), s, s.(calls := Only(next, dead)))
  {
    var s1 := Turned(cfg, id, s);
    assert s1.calls == Only(s1.calls[0].step, dead);
    LeadsByStep(Turns(cfg, id), s, s1);
  }

  /** The history with the Cancel ended between flagging and storing, if it was. */
  function Lapsed(h: History, id: Id, dead: bool): History {
    h.(lapsed := if dead then h.lapsed + {id} else h.lapsed)
  }

  lemma CancelLeads(cfg: Config, id: Id, s: State, step: CallStep, dead: bool)
    requires s.calls == Only(step, dead)
    ensures step.Firing? ==>
              Leads(Turns(cfg, id), s,
                    s.(calls := Only(Reading(step.id), dead), svc := s.svc.(fired := s.svc.fired + {step.id})))
    ensures step.Flagging? ==>
              Leads(Turns(cfg, id), s,
                    s.(calls := Only(Writing(CanceledEarly(step.e, s.now)), dead),
                       svc := s.svc.(canceled := s.svc.canceled + {step.e.ticket.id})))
    ensures step.Writing? ==>
              Leads(Turns(cfg, id), s,
                    s.(calls := Only(if dead then Answered(None, ContextCanceled) else Reading(step.e.ticket.id), dead),
                       disk := s.disk.(executions := Write(s.disk.executions, if dead then None else Some(step.e))),
                       hist := Lapsed(s.hist, step.e.ticket.id, dead)))
  {
    var s1 := Turned(cfg, id, s);
    assert s1.calls == Only(s1.calls[0].step, dead);
    LeadsByStep(Turns(cfg, id), s, s1);
  }

  // ---- Paths end once ----

  lemma IdleRests(cfg: Config, script: Script, s: State)
    requires s.pool.workers == [Idle]
    ensures Visits(cfg, script)(s) == s
  {
    hide Work;
  }

  lemma AnswerRests(cfg: Config, id: Id, s: State, answer: Option<Execution>, fault: Fault, dead: bool)
    requires s.calls == Only(Answered(answer, fault), dead)
    ensures Turns(cfg, id)(s) == s
  {
    hide Proceed;
  }

  /** The state in which a worker becomes idle again is determined by where it set out and its
      script; likewise the state in which a call is answered. */
  lemma RunEndsOnce(cfg: Config, script: Script, s: State, a: State, b: State)
    requires Leads(Visits(cfg, script), s, a) && Leads(Visits(cfg, script), s, b)
    requires a.pool.workers == [Idle] && b.pool.workers == [Idle]
    ensures a == b
  {
    hide Visits;
    IdleRests(cfg, script, a);
    IdleRests(cfg, script, b);
    RestIsUnique(Visits(cfg, script), s, a, b);
  }

  /** The only call has its answer. */
  predicate AnsweredOnly(s: State, dead: bool) {
    s.calls.Keys == {ONLY} && s.calls[ONLY].step.Answered? && s.calls[ONLY].dead == dead
  }

  lemma CallEndsOnce(cfg: Config, id: Id, s: State, a: State, b: State, dead: bool)
    requires Leads(Turns(cfg, id), s, a) && Leads(Turns(cfg, id), s, b)
    requires AnsweredOnly(a, dead) && AnsweredOnly(b, dead)
    ensures a == b
  {
    hide Proceed;
    assert a.calls == Only(a.calls[0].step, dead) && b.calls == Only(b.calls[0].step, dead);
    AnswerRests(cfg, id, a, a.calls[0].step.answer, a.calls[0].step.fault, dead);
    AnswerRests(cfg, id, b, b.calls[0].step.answer, b.calls[0].step.fault, dead);
    RestIsUnique(Turns(cfg, id), s, a, b);
  }
}
