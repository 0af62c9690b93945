/** The control plane as one step system: the worker pool, the service calls in progress, and
    the state they share. Every access to shared state is a step of its own, so that calls and
    workers interleave as their mutexes allow. */
module ControlPlane {
  import opened Common
  import opened Executions
  import opened Simulation
  import Q = RingQueue
  import R = Resources
  import C = Caching
  import S = Stores
  import M = Modules
  import T = Meters

  datatype Request = Request(
    tenantId: Tenant,
    moduleId: Id,
    kind: string,
    payload: Bytes,
    environment: set<string>,
    budget: Budget,
    callbackUrl: string,
    key: string)

  datatype Config = Config(
    lib: Library,
    requestDigest: Request -> string,
    version: string,
    maxBudget: Budget,
    nodeId: string,
    cacheTtl: Nanos,
    poolSize: int,
    maxConcurrent: int,
    maxCpu: Nanos,
    maxPages: nat,
    maxModuleBytes: int)

  // ---- State ----

  /** Where a worker stands: before which access to shared state, with what it has in hand. */
  datatype Worker =
    | Idle
    | Parked
    | Exited
    | Holding(job: Q.Job)
    | Starting(id: Id)
    | Resolving(e: Execution)
    | Acquiring(e: Execution, m: M.Module)
    | Rejecting(e: Execution)
    | Registering(e: Execution, m: M.Module, deadline: Nanos)
    | Marking(e: Execution, m: M.Module, deadline: Nanos)
    | Loading(e: Execution, m: M.Module, deadline: Nanos)
    | Looking(e: Execution, m: M.Module, deadline: Nanos, content: Bytes)
    | Compiling(e: Execution, m: M.Module, deadline: Nanos, content: Bytes)
    | Executing(e: Execution, m: M.Module, deadline: Nanos, compiled: Compiled)
    | Finishing(e: Execution)
    | Metering(e: Execution)
    | Aborting(e: Execution)
    | Unwinding(e: Execution)
    | Releasing(e: Execution)

  /** Where a Submit or Cancel call stands. */
  datatype CallStep =
    | Finding(req: Request)
    | Asking(req: Request)
    | Creating(e: Execution, req: Request)
    | Saving(e: Execution, key: string, payload: Bytes)
    | Putting(e: Execution, payload: Bytes)
    | Scheduling(e: Execution)
    | Reverting(e: Execution)
    | Fetching(id: Id)
    | Probing(e: Execution)
    | Firing(id: Id)
    | Flagging(e: Execution)
    | Writing(e: Execution)
    | Reading(id: Id)
    | Answered(answer: Option<Execution>, fault: Fault)

  /** `dead` says that the call's context is done. */
  datatype Call = Call(step: CallStep, dead: bool)

  datatype Pool = Pool(queue: Q.Ring, closed: bool, notified: bool, live: bool, workers: seq<Worker>)

  /** `cancels` are the runs registered for cancellation, `fired` those whose context was
      canceled through it. */
  datatype Svc = Svc(
    canceled: set<Id>,
    cancels: set<Id>,
    fired: set<Id>,
    books: R.Books,
    cache: C.Cache,
    runtimeClosed: bool,
    usage: map<Tenant, T.TenantUsage>,
    payloads: map<Id, Bytes>)

  datatype Place = Submitting(call: nat) | Waiting | Held(worker: nat) | Gone

  /** Why an execution was let go of without its end being stored: the pool was shut down; marking
      it as running failed on a context that Cancel had ended, or whose deadline had passed; a
      worker saw it flagged as canceled; or it could not be queued and the call's context was done. */
  datatype Cause = ShutDown | Fired | Overdue(deadline: Nanos) | Flagged | CallDone

  /** What was behind a context that was done when an execution ended: its deadline, the lease having
      been granted so long before; a Cancel; or the shutdown of the pool. */
  datatype Stop = Late(granted: Nanos, at: Nanos) | CalledOff | PoolShut

  /** What is remembered over restarts: the request each execution was created for, the quotas that
      denied executions met, and what was behind the contexts that were done when executions ended. */
  datatype Past = Past(asked: map<Id, Request>, denied: set<(Id, R.Quota)>, stops: set<(Id, Stop)>)

  const NO_PAST := Past(map[], {}, {})

  /** What the code does not store: who has custody of each execution, the CPU time released and
      the executions run per tenant since the start, the tenants whose concurrency limit was
      lowered, why executions were let go of, and those whose Cancel ended between flagging and
      storing them. */
  datatype History = History(
    place: map<Id, Place>,
    past: Past,
    released: map<Tenant, nat>,
    ran: map<Tenant, nat>,
    lowered: set<Tenant>,
    causes: map<Id, Cause>,
    lapsed: set<Id>)

  datatype State = State(pool: Pool, svc: Svc, disk: S.Disk, calls: map<nat, Call>, now: Nanos, hist: History)

  function Workers(cfg: Config): seq<Worker> {
    seq(if cfg.poolSize < 1 then 1 else cfg.poolSize, _ => Idle)
  }

  /** The process as it starts on what a store kept. */
  function Boot(cfg: Config, disk: S.Disk, now: Nanos, past: Past): State {
    var kept := disk.(executions := S.Recovered(disk.executions));
    State(
      Pool(Q.EMPTY, false, false, true, Workers(cfg)),
      Svc({}, {}, {}, R.NewBooks(cfg.maxConcurrent, cfg.maxCpu, cfg.maxPages), C.EMPTY_CACHE, false, map[], map[]),
      kept,
      map[],
      now,
      History(map id | id in kept.executions :: Gone, past, map[], map[], {}, map[], {}))
  }

  // ---- What a step may find out about a context ----

  /** The context of a run: canceled through `cancels` or with the pool, expired from its
      deadline on, and expired from the outset when the timeout is not positive. */
  predicate MaySee(s: State, e: Execution, deadline: Nanos, ctx: Ctx) {
    match ctx
    case Live => s.pool.live && e.ticket.id !in s.svc.fired && e.ticket.budget.timeout > 0
    case Canceled => !s.pool.live || e.ticket.id in s.svc.fired
    case Expired => s.now >= deadline
  }

  // ---- The stages of a worker ----

  predicate AtDoor(w: Worker) {
    w.Idle? || w.Parked? || w.Exited? || w.Holding? || w.Starting? || w.Resolving?
  }

  predicate AtLease(w: Worker) {
    w.Acquiring? || w.Rejecting? || w.Registering? || w.Marking?
  }

  predicate AtLoad(w: Worker) {
    w.Loading? || w.Looking? || w.Compiling?
  }

  predicate AtEnd(w: Worker) {
    w.Finishing? || w.Metering? || w.Aborting? || w.Unwinding? || w.Releasing?
  }

  // ---- One step of a worker ----

  datatype Input = Input(ctx: Ctx, putCtx: Ctx, cpu: nat)

  /** The outcome of a worker's step: where it stands next, the shared parts it may change, the
      record it writes, the CPU time it releases, and whether it ran the execution. */
  datatype Turn = Turn(next: Worker, queue: Q.Ring, notified: bool, svc: Svc, write: Option<Execution>, cpu: nat,
                       ran: bool)

  function Go(s: State, next: Worker): Turn {
    Turn(next, s.pool.queue, s.pool.notified, s.svc, None, 0, false)
  }

  function Count(counts: map<Tenant, nat>, t: Tenant): nat {
    if t in counts then counts[t] else 0
  }

  /** Nothing at the front of the ring, which a valid ring says only when it is empty. */
  predicate NothingInFront(r: Q.Ring) {
    r.entries == [] || r.entries[0].jobs == [] || r.seam > |r.entries|
  }

  /** pool.go: the locked part of Dequeue. */
  function TakeTurn(s: State): Turn {
    if s.pool.closed then Go(s, Exited)
    else if NothingInFront(s.pool.queue) then Go(s, Parked)
    else Go(s, Holding(Q.Front(s.pool.queue))).(queue := Q.Dequeue(s.pool.queue))
  }

  /** The select: the pool's context is done, or the channel has its token or is closed. */
  function WakeTurn(s: State, ctx: Ctx): Turn {
    if ctx != Live then Go(s, Exited) else Go(s, Idle).(notified := false)
  }

  function HoldTurn(s: State, job: Q.Job): Turn {
    if job.executionId in s.svc.canceled then
      Go(s, Idle).(svc := s.svc.(canceled := s.svc.canceled - {job.executionId}))
    else Go(s, Starting(job.executionId))
  }

  function StartTurn(s: State, id: Id): Turn {
    if !s.pool.live || id !in s.disk.executions || Terminal(s.disk.executions[id]) then Go(s, Idle)
    else Go(s, Resolving(s.disk.executions[id]))
  }

  function ResolveTurn(s: State, e: Execution): Turn {
    if !s.pool.live then Go(s, Rejecting(FailedWith(e, ErrInvalid, ContextCanceled, s.now)))
    else if e.ticket.moduleId !in s.disk.shelf.modules then Go(s, Rejecting(FailedWith(e, ErrInvalid, NotFound, s.now)))
    else Go(s, Acquiring(e, s.disk.shelf.modules[e.ticket.moduleId]))
  }

  function DenialFault(why: R.Denial): Fault {
    match why
    case NoSlot => NoSlot
    case TooManyPages => TooManyPages
    case CpuSpent => CpuSpent
    case ContextDone => ContextCanceled
  }

  function AcquireTurn(s: State, e: Execution, m: M.Module): Turn {
    var (books, grant) := R.Acquire(s.svc.books, e.ticket.tenantId, e.ticket.id, e.ticket.budget.maxMemoryPages,
                                    s.pool.live, s.now);
    match grant
    case Granted(_) => Go(s, Registering(e, m, s.now + e.ticket.budget.timeout)).(svc := s.svc.(books := books))
    case Denied(why) => Go(s, Rejecting(FailedWith(e, ErrResource, DenialFault(why), s.now)))
  }

  /** fail on the pool's context, before a lease is held. */
  function RejectTurn(s: State, e: Execution): Turn {
    Go(s, Idle).(write := if s.pool.live then Some(e) else None)
  }

  function RegisterTurn(s: State, e: Execution, m: M.Module, deadline: Nanos): Turn {
    Go(s, Marking(e, m, deadline)).(svc := s.svc.(cancels := s.svc.cancels + {e.ticket.id}))
  }

  function MarkTurn(cfg: Config, s: State, e: Execution, m: M.Module, deadline: Nanos, ctx: Ctx): Turn {
    if ctx != Live then Go(s, Unwinding(e)) else
    var e' := e.(status := Running, startedAt := Some(s.now), nodeId := cfg.nodeId);
    Go(s, Loading(e', m, deadline)).(write := Some(e'))
  }

  function LoadTurn(s: State, e: Execution, m: M.Module, deadline: Nanos, ctx: Ctx): Turn {
    if ctx != Live then Go(s, Aborting(FailedWith(e, ErrInvalid, ContextFault(ctx), s.now)))
    else if m.id !in s.disk.shelf.contents then Go(s, Aborting(FailedWith(e, ErrInvalid, NotFound, s.now)))
    else Go(s, Looking(e, m, deadline, s.disk.shelf.contents[m.id]))
  }

  function KeyOf(cfg: Config, e: Execution, m: M.Module): C.Key {
    C.Key(e.ticket.tenantId, cfg.version, m.digest)
  }

  function LookTurn(cfg: Config, s: State, e: Execution, m: M.Module, deadline: Nanos, content: Bytes, ctx: Ctx): Turn {
    var (cache, found) := C.Get(s.svc.cache, ctx, KeyOf(cfg, e, m), s.now);
    var next := match found
      case Hit(compiled) => Executing(e, m, deadline, compiled)
      case Miss => Compiling(e, m, deadline, content)
      case KnownFailure(cause) => Aborting(FailedWith(e, ErrRuntime, CachedFailure(cause), s.now))
      case NoContext(fault) => Aborting(FailedWith(e, ErrRuntime, fault, s.now));
    Go(s, next).(svc := s.svc.(cache := cache))
  }

  function CompileTurn(cfg: Config, s: State, e: Execution, m: M.Module, deadline: Nanos, content: Bytes, ctx: Ctx,
      putCtx: Ctx): Turn {
    var key := KeyOf(cfg, e, m);
    match Compile(cfg.lib, cfg.version, s.svc.runtimeClosed, ctx, content, m.digest)
    case Rejected(fault) =>
      Go(s, Aborting(FailedWith(e, ErrRuntime, fault, s.now)))
        .(svc := s.svc.(cache := C.Store(s.svc.cache, Live, key, Rejected(fault), MINUTE, s.now)))
    case Ready(compiled) =>
      if putCtx != Live then Go(s, Aborting(FailedWith(e, ErrRuntime, ContextFault(putCtx), s.now)))
      else
        Go(s, Executing(e, m, deadline, compiled))
          .(svc := s.svc.(cache := C.Store(s.svc.cache, Live, key, Ready(compiled), cfg.cacheTtl, s.now)))
  }

  function PayloadOf(s: State, id: Id): Bytes {
    if id in s.svc.payloads then s.svc.payloads[id] else []
  }

  function OutcomeOf(cfg: Config, s: State, e: Execution, m: M.Module, compiled: Compiled, input: Input): Outcome {
    Execute(cfg.lib, s.svc.runtimeClosed, input.ctx, compiled, m.entry, PayloadOf(s, e.ticket.id), e.ticket.budget,
            input.cpu)
  }

  /** The fields a finished execution takes from its result. */
  function WithResult(cfg: Config, e: Execution, r: Result, now: Nanos): Execution {
    e.(report := Report(r.usage, r.output, cfg.lib.digest(r.output), r.truncated, r.exitCode), finishedAt := Some(now))
  }

  function Conclude(cfg: Config, e: Execution, o: Outcome, now: Nanos): Execution {
    match o
    case Done(r) => WithResult(cfg, e, r, now).(status := Succeeded, errorClass := ErrNone)
    case Stopped(r, fault) =>
      var f := WithResult(cfg, e, r, now).(fault := fault);
      if fault == ContextCanceled then f.(status := CanceledBy, errorClass := ErrCanceled)
      else if fault == ContextExpired then f.(status := TimedOut, errorClass := ErrTimeout)
      else if IsLimit(fault) then f.(status := Failed, errorClass := ErrResource)
      else f.(status := Failed, errorClass := ErrRuntime)
    case Crashed => e
  }

  function ExecuteTurn(cfg: Config, s: State, e: Execution, m: M.Module, compiled: Compiled, input: Input): Turn {
    Go(s, Finishing(Conclude(cfg, e, OutcomeOf(cfg, s, e, m, compiled, input), s.now)))
      .(svc := s.svc.(payloads := s.svc.payloads - {e.ticket.id}), ran := true)
  }

  function FinishTurn(s: State, e: Execution): Turn {
    Go(s, Metering(e)).(write := Some(e))
  }

  function MeterTurn(s: State, e: Execution): Turn {
    Go(s, Unwinding(e)).(svc := s.svc.(usage := T.Add(s.svc.usage, e, s.now)))
  }

  /** fail after a lease was taken. */
  function AbortTurn(s: State, e: Execution): Turn {
    Go(s, Unwinding(e)).(write := Some(e))
  }

  function UnwindTurn(s: State, e: Execution): Turn {
    Go(s, Releasing(e)).(svc := s.svc.(cancels := s.svc.cancels - {e.ticket.id}))
  }

  function ReleaseTurn(s: State, e: Execution): Turn {
    Go(s, Idle).(svc := s.svc.(books := R.Release(s.svc.books, e.ticket.id, e.report.usage.cpuTime, s.now)),
                 cpu := e.report.usage.cpuTime)
  }

  /** A worker that is not there is one that has left. */
  function WorkerAt(s: State, w: nat): Worker {
    if w < |s.pool.workers| then s.pool.workers[w] else Exited
  }

  function TurnOf(cfg: Config, s: State, w: nat, input: Input): Turn {
    match WorkerAt(s, w)
    case Idle => TakeTurn(s)
    case Parked => WakeTurn(s, input.ctx)
    case Exited => Go(s, Exited)
    case Holding(job) => HoldTurn(s, job)
    case Starting(id) => StartTurn(s, id)
    case Resolving(e) => ResolveTurn(s, e)
    case Acquiring(e, m) => AcquireTurn(s, e, m)
    case Rejecting(e) => RejectTurn(s, e)
    case Registering(e, m, deadline) => RegisterTurn(s, e, m, deadline)
    case Marking(e, m, deadline) => MarkTurn(cfg, s, e, m, deadline, input.ctx)
    case Loading(e, m, deadline) => LoadTurn(s, e, m, deadline, input.ctx)
    case Looking(e, m, deadline, content) => LookTurn(cfg, s, e, m, deadline, content, input.ctx)
    case Compiling(e, m, deadline, content) => CompileTurn(cfg, s, e, m, deadline, content, input.ctx, input.putCtx)
    case Executing(e, m, _, compiled) => ExecuteTurn(cfg, s, e, m, compiled, input)
    case Finishing(e) => FinishTurn(s, e)
    case Metering(e) => MeterTurn(s, e)
    case Aborting(e) => AbortTurn(s, e)
    case Unwinding(e) => UnwindTurn(s, e)
    case Releasing(e) => ReleaseTurn(s, e)
  }

  /** Which inputs a worker's step can meet. A worker waits while the channel is open and empty
      and its context live; an execution that panics takes the process down, which is Restart. */
  predicate MayWork(cfg: Config, s: State, w: nat, input: Input) {
    match WorkerAt(s, w)
    case Exited => false
    case Parked => if input.ctx == Live then s.pool.notified || s.pool.closed else !s.pool.live
    case Marking(e, _, deadline) => MaySee(s, e, deadline, input.ctx)
    case Loading(e, _, deadline) => MaySee(s, e, deadline, input.ctx)
    case Looking(e, _, deadline, _) => MaySee(s, e, deadline, input.ctx)
    case Compiling(e, _, deadline, _) => MaySee(s, e, deadline, input.ctx) && MaySee(s, e, deadline, input.putCtx)
    case Executing(e, m, deadline, compiled) =>
      MaySee(s, e, deadline, input.ctx) && !OutcomeOf(cfg, s, e, m, compiled, input).Crashed?
    case _ => true
  }

  /** The execution a worker has custody of. */
  function HeldId(w: Worker): Option<Id> {
    match w
    case Idle => None
    case Parked => None
    case Exited => None
    case Holding(job) => Some(job.executionId)
    case Starting(id) => Some(id)
    case _ => Some(w.e.ticket.id)
  }

  function Moved(place: map<Id, Place>, w: nat, before: Option<Id>, after: Option<Id>): map<Id, Place> {
    if before == after then place
    else if after.Some? then place[after.value := Held(w)]
    else place[before.value := Gone]
  }

  function Write(executions: map<Id, Execution>, write: Option<Execution>): map<Id, Execution> {
    match write
    case None => executions
    case Some(e) => if e.ticket.id in executions then executions[e.ticket.id := e] else executions
  }

  function TenantOf(w: Worker): Tenant {
    match w
    case Idle => ""
    case Parked => ""
    case Exited => ""
    case Holding(job) => job.tenantId
    case Starting(_) => ""
    case _ => w.e.ticket.tenantId
  }

  /** Why a worker's step lets go of an execution, if it is not because of its end. */
  function CauseOf(s: State, w: Worker, input: Input): Option<Cause> {
    match w
    case Holding(job) => if job.executionId in s.svc.canceled then Some(Flagged) else None
    case Starting(_) => if s.pool.live then None else Some(ShutDown)
    case Rejecting(_) => if s.pool.live then None else Some(ShutDown)
    case Marking(_, _, deadline) =>
      if input.ctx == Live then None else if input.ctx == Expired then Some(Overdue(deadline))
      else if s.pool.live then Some(Fired) else Some(ShutDown)
    case _ => None
  }

  function Caused(causes: map<Id, Cause>, id: Option<Id>, cause: Option<Cause>): map<Id, Cause> {
    if id.Some? && cause.Some? then causes[id.value := cause.value] else causes
  }

  /** What stands behind the end of a run's context as things are. */
  function Behind(s: State, id: Id, ctx: Ctx): set<(Id, Stop)> {
    match ctx
    case Live => {}
    case Expired => if id in s.svc.books.leases then {(id, Late(s.svc.books.leases[id].grantedAt, s.now))} else {}
    case Canceled => if id in s.svc.fired then {(id, CalledOff)} else if s.pool.live then {} else {(id, PoolShut)}
  }

  /** The quota that a worker's denied acquisition met is remembered, and what stands behind the
      context that an execution ends on. */
  function PastAfter(s: State, w: Worker, ctx: Ctx, next: Worker): Past {
    if w.Acquiring? && next.Rejecting? then
      s.hist.past.(denied := s.hist.past.denied + {(w.e.ticket.id, R.QuotaAt(s.svc.books, w.e.ticket.tenantId, s.now))})
    else if w.Executing? && ctx != Live then
      s.hist.past.(stops := s.hist.past.stops + Behind(s, w.e.ticket.id, ctx))
    else s.hist.past
  }

  function Work(cfg: Config, s: State, w: nat, input: Input): State {
    if w >= |s.pool.workers| then s else
    var t := TurnOf(cfg, s, w, input);
    var before := s.pool.workers[w];
    var tenant := TenantOf(before);
    State(
      s.pool.(queue := t.queue, notified := t.notified, workers := s.pool.workers[w := t.next]),
      t.svc,
      s.disk.(executions := Write(s.disk.executions, t.write)),
      s.calls,
      s.now,
      s.hist.(
        place := Moved(s.hist.place, w, HeldId(before), HeldId(t.next)),
        released :=
          if t.cpu == 0 then s.hist.released else s.hist.released[tenant := Count(s.hist.released, tenant) + t.cpu],
        ran := if t.ran then s.hist.ran[tenant := Count(s.hist.ran, tenant) + 1] else s.hist.ran,
        causes := Caused(s.hist.causes, HeldId(before), CauseOf(s, before, input)),
        past := PastAfter(s, before, input.ctx, t.next)))
  }

  // ---- One step of a call ----

  predicate KnownKind(kind: string) {
    kind in ["", "json", "binary", "stream"]
  }

  predicate InvocationOk(m: M.Module, req: Request) {
    KnownKind(req.kind) && forall v :: v in req.environment ==> v in m.envAllowlist
  }

  /** The record a Submit creates. */
  function NewExecution(cfg: Config, id: Id, req: Request, m: M.Module, now: Nanos): Execution {
    var b := Normalize(req.budget, cfg.maxBudget);
    var ticket := Ticket(id, req.tenantId, m.id, m.version, m.digest, cfg.requestDigest(req.(budget := b)), b,
                         req.callbackUrl, now);
    Execution(ticket, Queued, NO_REPORT, ErrNone, NoFault, "", None, None)
  }

  function AskStep(cfg: Config, s: State, req: Request, dead: bool, id: Id): CallStep {
    if dead then Answered(None, ContextCanceled)
    else if req.moduleId !in s.disk.shelf.modules then Answered(None, NotFound) else
    var m := s.disk.shelf.modules[req.moduleId];
    if m.tenantId != req.tenantId then Answered(None, NotOwner)
    else if !M.IsRunnable(m) then Answered(None, NotPublished)
    else if !InvocationOk(m, req) then Answered(None, BadInvocation)
    else if !Validate(Normalize(req.budget, cfg.maxBudget), cfg.maxBudget) then Answered(None, OverBudget)
    else Creating(NewExecution(cfg, id, req, m, s.now), req)
  }

  function FindStep(s: State, req: Request, dead: bool): CallStep {
    if req.tenantId == "" || req.moduleId == "" then Answered(None, Blank)
    else if req.key != "" && !dead && S.Lookup(s.disk, req.tenantId, req.key).Some? then
      Answered(S.Lookup(s.disk, req.tenantId, req.key), NoFault)
    else Asking(req)
  }

  /** A record as Submit leaves it when it cannot be queued. */
  function Unscheduled(e: Execution, fault: Fault): Execution {
    e.(status := Failed, errorClass := ErrUnavailable, fault := fault)
  }

  /** A call that is not there is one that is over. */
  function CallAt(s: State, c: nat): Call {
    if c in s.calls then s.calls[c] else Call(Answered(None, NoFault), true)
  }

  function SetStep(s: State, c: nat, step: CallStep): State {
    if c !in s.calls then s else s.(calls := s.calls[c := s.calls[c].(step := step)])
  }

  function CreateTurn(s: State, c: nat, e: Execution, req: Request): State {
    if CallAt(s, c).dead then SetStep(s, c, Answered(None, ContextCanceled))
    else if e.ticket.id in s.disk.executions then SetStep(s, c, Answered(None, AlreadyExists))
    else
      SetStep(s, c, Saving(e, req.key, req.payload)).(
        disk := s.disk.(executions := s.disk.executions[e.ticket.id := e]),
        hist := s.hist.(place := s.hist.place[e.ticket.id := Submitting(c)],
                        past := s.hist.past.(asked := s.hist.past.asked[e.ticket.id := req])))
  }

  function ScheduleTurn(s: State, c: nat, e: Execution): State {
    if CallAt(s, c).dead then SetStep(s, c, Reverting(Unscheduled(e, ContextCanceled)))
    else if s.pool.closed || s.pool.queue.seam > |s.pool.queue.entries| then
      SetStep(s, c, Reverting(Unscheduled(e, QueueShut)))
    else
      SetStep(s, c, Answered(Some(e), NoFault)).(
        pool := s.pool.(queue := Q.Enqueue(s.pool.queue, Q.Job(e.ticket.id, e.ticket.tenantId, s.now, 0)),
                        notified := true),
        hist := s.hist.(place := s.hist.place[e.ticket.id := Waiting]))
  }

  function RevertTurn(s: State, c: nat, e: Execution): State {
    SetStep(s, c, Answered(Some(e), e.fault)).(
      disk := s.disk.(executions := Write(s.disk.executions, if CallAt(s, c).dead then None else Some(e))),
      hist := s.hist.(
        place := s.hist.place[e.ticket.id := Gone],
        causes := if CallAt(s, c).dead then s.hist.causes[e.ticket.id := CallDone] else s.hist.causes))
  }

  function FetchStep(s: State, id: Id, dead: bool): CallStep {
    if dead then Answered(None, ContextCanceled)
    else if id !in s.disk.executions then Answered(None, NotFound)
    else if Terminal(s.disk.executions[id]) then Answered(Some(s.disk.executions[id]), NoFault)
    else Probing(s.disk.executions[id])
  }

  /** The record Cancel answers with: what is stored by then. */
  function ReadStep(s: State, id: Id, dead: bool): CallStep {
    if dead then Answered(None, ContextCanceled)
    else if id !in s.disk.executions then Answered(None, NotFound)
    else Answered(Some(s.disk.executions[id]), NoFault)
  }

  function Proceed(cfg: Config, s: State, c: nat, id: Id): State {
    var dead := CallAt(s, c).dead;
    match CallAt(s, c).step
    case Finding(req) => SetStep(s, c, FindStep(s, req, dead))
    case Asking(req) => SetStep(s, c, AskStep(cfg, s, req, dead, id))
    case Creating(e, req) => CreateTurn(s, c, e, req)
    case Saving(e, key, payload) =>
      SetStep(s, c, Putting(e, payload)).(
        disk := if dead then s.disk else S.SaveEntry(s.disk, e.ticket.tenantId, key, e.ticket.id))
    case Putting(e, payload) =>
      SetStep(s, c, Scheduling(e)).(svc := s.svc.(payloads := s.svc.payloads[e.ticket.id := payload]))
    case Scheduling(e) => ScheduleTurn(s, c, e)
    case Reverting(e) => RevertTurn(s, c, e)
    case Fetching(x) => SetStep(s, c, FetchStep(s, x, dead))
    case Probing(e) => SetStep(s, c, if e.ticket.id in s.svc.cancels then Firing(e.ticket.id) else Flagging(e))
    case Firing(x) =>
      SetStep(s, c, Reading(x)).(svc := s.svc.(fired := s.svc.fired + {x}))
    case Flagging(e) =>
      SetStep(s, c, Writing(CanceledEarly(e, s.now))).(svc := s.svc.(canceled := s.svc.canceled + {e.ticket.id}))
    case Writing(e) =>
      SetStep(s, c, if dead then Answered(None, ContextCanceled) else Reading(e.ticket.id))
        .(disk := s.disk.(executions := Write(s.disk.executions, if dead then None else Some(e))),
          hist := s.hist.(lapsed := if dead then s.hist.lapsed + {e.ticket.id} else s.hist.lapsed))
    case Reading(x) => SetStep(s, c, ReadStep(s, x, dead))
    case Answered(_, _) => s
  }

  /** A call's next `n` steps with nothing in between. */
  function Onward(cfg: Config, s: State, c: nat, id: Id, n: nat): State
    decreases n
  {
    if n == 0 then s else Onward(cfg, Proceed(cfg, s, c, id), c, id, n - 1)
  }

  // ---- Actions ----

  datatype Action =
    | DoWork(w: nat, input: Input)
    | Begin(c: nat, step: CallStep)
    | Continue(c: nat, id: Id)
    | Abandon(c: nat)
    | Tick(time: nat)
    | Shutdown
    | CloseQueue
    | CloseRuntime
    | ModuleStep(op: M.Op)
    | SetQuota(tenant: Tenant, limits: R.Limits)
    | ReadQuota(tenant: Tenant)
    | ForgetTenant(tenant: Tenant)
    | ForgetKey(key: C.Key)
    | Restart

  predicate Enabled(cfg: Config, s: State, a: Action) {
    match a
    case DoWork(w, input) => MayWork(cfg, s, w, input)
    case Begin(c, step) => c !in s.calls && (step.Finding? || step.Fetching?)
    case Continue(c, _) => c in s.calls && !s.calls[c].step.Answered?
    case Abandon(c) => c in s.calls
    case _ => true
  }

  predicate Lowers(s: State, t: Tenant, limits: R.Limits) {
    limits.concurrent < R.QuotaAt(s.svc.books, t, s.now).limits.concurrent
  }

  function Next(cfg: Config, s: State, a: Action): State {
    match a
    case DoWork(w, input) => Work(cfg, s, w, input)
    case Begin(c, step) => s.(calls := s.calls[c := Call(step, false)])
    case Continue(c, id) => Proceed(cfg, s, c, id)
    case Abandon(c) => if c !in s.calls then s else s.(calls := s.calls[c := s.calls[c].(dead := true)])
    case Tick(time) => s.(now := s.now + time)
    case Shutdown => s.(pool := s.pool.(live := false))
    case CloseQueue => s.(pool := s.pool.(closed := true))
    case CloseRuntime => s.(svc := s.svc.(runtimeClosed := true))
    case ModuleStep(op) => s.(disk := s.disk.(shelf := M.Apply(cfg.lib, cfg.maxModuleBytes, s.disk.shelf, op, s.now).0))
    case SetQuota(t, limits) =>
      s.(svc := s.svc.(books := R.SetLimits(s.svc.books, t, limits, s.now)),
         hist := s.hist.(lowered := if Lowers(s, t, limits) then s.hist.lowered + {t} else s.hist.lowered))
    case ReadQuota(t) => s.(svc := s.svc.(books := R.Read(s.svc.books, t, s.now)))
    case ForgetTenant(t) => s.(svc := s.svc.(cache := C.DropTenant(s.svc.cache, Live, t)))
    case ForgetKey(key) => s.(svc := s.svc.(cache := C.Drop(s.svc.cache, Live, key)))
    case Restart => Boot(cfg, s.disk, s.now, s.hist.past)
  }

  // ---- Runs ----

  ghost predicate Possible(cfg: Config, s: State, run: seq<Action>)
    decreases run
  {
    run != [] ==> Enabled(cfg, s, run[0]) && Possible(cfg, Next(cfg, s, run[0]), run[1..])
  }

  function Exec(cfg: Config, s: State, run: seq<Action>): State
    decreases run
  {
    if run == [] then s else Exec(cfg, Next(cfg, s, run[0]), run[1..])
  }

  /** In the middle of the segment of Run from reading the record to marking it as running. */
  predicate MidStart(w: Worker) {
    w.Resolving? || w.Acquiring? || w.Rejecting? || w.Registering? || w.Marking?
  }

  /** In the middle of Submit, after the idempotency lookup. */
  predicate MidSubmit(step: CallStep) {
    step.Asking? || step.Creating? || step.Saving? || step.Putting? || step.Scheduling? || step.Reverting?
  }

  /** In the middle of Cancel, after reading the record. */
  predicate MidCancel(step: CallStep) {
    step.Probing? || step.Firing? || step.Flagging? || step.Writing?
  }
}
