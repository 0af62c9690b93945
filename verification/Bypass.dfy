/** A run with the compile cache has a counterpart in which every lookup finds nothing, so that
    everything is compiled: the two stay alike but for the cache and the text of errors. */
module Bypass {
  import opened Common
  import opened Executions
  import opened Simulation
  import opened ControlPlane
  import opened Reachability
  import opened Transparency
  import C = Caching
  import M = Modules
  import Q = RingQueue
  import S = Stores

  // ---- Alike but for the text of errors ----

  /** The texts agree unless the first is that of a cached failure. */
  predicate TextAlike(f: Fault, g: Fault) {
    f == g || f.CachedFailure?
  }

  predicate RecordAlike(a: Execution, b: Execution) {
    a == b.(fault := a.fault) && TextAlike(a.fault, b.fault)
  }

  predicate MaybeAlike(a: Option<Execution>, b: Option<Execution>) {
    a.Some? == b.Some? && (a.Some? ==> RecordAlike(a.value, b.value))
  }

  ghost predicate RecordsAlike(a: map<Id, Execution>, b: map<Id, Execution>) {
    a.Keys == b.Keys && forall id :: id in a ==> RecordAlike(a[id], b[id])
  }

  predicate HasRecord(w: Worker) {
    !(w.Idle? || w.Parked? || w.Exited? || w.Holding? || w.Starting?)
  }

  predicate WorkerAlike(a: Worker, b: Worker) {
    if HasRecord(a) then HasRecord(b) && RecordAlike(a.e, b.e) && a == b.(e := a.e) else a == b
  }

  predicate CarriesRecord(step: CallStep) {
    step.Creating? || step.Saving? || step.Putting? || step.Scheduling? || step.Reverting? || step.Probing?
    || step.Flagging? || step.Writing?
  }

  predicate StepAlike(a: CallStep, b: CallStep) {
    if a.Answered? then b.Answered? && MaybeAlike(a.answer, b.answer) && TextAlike(a.fault, b.fault)
    else if CarriesRecord(a) then CarriesRecord(b) && RecordAlike(a.e, b.e) && a == b.(e := a.e)
    else a == b
  }

  ghost predicate CallsAlike(a: map<nat, Call>, b: map<nat, Call>) {
    a.Keys == b.Keys && forall c :: c in a ==> StepAlike(a[c].step, b[c].step) && a[c].dead == b[c].dead
  }

  ghost predicate WorkersAlike(a: seq<Worker>, b: seq<Worker>) {
    |a| == |b| && forall w :: 0 <= w < |a| ==> WorkerAlike(a[w], b[w])
  }

  /** All but the workers, the calls, the records and the cache. */
  predicate RestAlike(s: State, t: State) {
    && s.pool.(workers := t.pool.workers) == t.pool && s.svc.(cache := t.svc.cache) == t.svc
    && s.disk.(executions := t.disk.executions) == t.disk && s.now == t.now && s.hist == t.hist
  }

  ghost predicate Alike(s: State, t: State) {
    && WorkersAlike(s.pool.workers, t.pool.workers) && RecordsAlike(s.disk.executions, t.disk.executions)
    && CallsAlike(s.calls, t.calls) && RestAlike(s, t)
  }

  lemma AlikeItself(s: State)
    ensures Alike(s, s)
  {
  }

  // ---- A worker's step ----

  predicate TurnAlike(a: Turn, b: Turn) {
    && WorkerAlike(a.next, b.next) && MaybeAlike(a.write, b.write) && a.svc.(cache := b.svc.cache) == b.svc
    && a.queue == b.queue && a.notified == b.notified && a.cpu == b.cpu && a.ran == b.ran
  }

  lemma QueueAlike(s: State, t: State, job: Q.Job, ctx: Ctx)
    requires RestAlike(s, t)
    ensures TurnAlike(TakeTurn(s), TakeTurn(t)) && TurnAlike(WakeTurn(s, ctx), WakeTurn(t, ctx))
    ensures TurnAlike(HoldTurn(s, job), HoldTurn(t, job)) && TurnAlike(Go(s, Exited), Go(t, Exited))
  {
    hide Q.Dequeue, Q.Front;
  }

  lemma StartAlike(s: State, t: State, id: Id)
    requires RestAlike(s, t) && RecordsAlike(s.disk.executions, t.disk.executions)
    ensures TurnAlike(StartTurn(s, id), StartTurn(t, id))
  {
  }

  lemma ResolveAlike(s: State, t: State, a: Execution, b: Execution)
    requires RestAlike(s, t) && RecordAlike(a, b)
    ensures TurnAlike(ResolveTurn(s, a), ResolveTurn(t, b))
  {
  }

  lemma DoorAlike(cfg: Config, s: State, t: State, w: nat, input: Input)
    requires Alike(s, t) && AtDoor(WorkerAt(s, w))
    ensures TurnAlike(TurnOf(cfg, s, w, input), TurnOf(cfg, t, w, input))
  {
    hide TurnAlike;
    var p, q := WorkerAt(s, w), WorkerAt(t, w);
    assert WorkerAlike(p, q);
    match p
    case Holding(job) => QueueAlike(s, t, job, input.ctx);
    case Starting(id) => StartAlike(s, t, id);
    case Resolving(e) => ResolveAlike(s, t, e, q.e);
    case _ => QueueAlike(s, t, Q.Job("", "", 0, 0), input.ctx);
  }

  lemma AcquireAlike(s: State, t: State, a: Execution, b: Execution, m: M.Module)
    requires RestAlike(s, t) && RecordAlike(a, b)
    ensures TurnAlike(AcquireTurn(s, a, m), AcquireTurn(t, b, m))
  {
  }

  lemma RejectAlike(s: State, t: State, a: Execution, b: Execution)
    requires RestAlike(s, t) && RecordAlike(a, b)
    ensures TurnAlike(RejectTurn(s, a), RejectTurn(t, b))
  {
  }

  lemma RegisterAlike(cfg: Config, s: State, t: State, a: Execution, b: Execution, m: M.Module, deadline: Nanos,
      ctx: Ctx)
    requires RestAlike(s, t) && RecordAlike(a, b)
    ensures TurnAlike(RegisterTurn(s, a, m, deadline), RegisterTurn(t, b, m, deadline))
    ensures TurnAlike(MarkTurn(cfg, s, a, m, deadline, ctx), MarkTurn(cfg, t, b, m, deadline, ctx))
  {
  }

  lemma LeaseAlike(cfg: Config, s: State, t: State, w: nat, input: Input)
    requires Alike(s, t) && AtLease(WorkerAt(s, w))
    ensures TurnAlike(TurnOf(cfg, s, w, input), TurnOf(cfg, t, w, input))
  {
    hide TurnAlike, Execute;
    var p, q := WorkerAt(s, w), WorkerAt(t, w);
    assert WorkerAlike(p, q);
    match p
    case Registering(e, m, deadline) => RegisterAlike(cfg, s, t, e, q.e, m, deadline, input.ctx);
    case Marking(e, m, deadline) => RegisterAlike(cfg, s, t, e, q.e, m, deadline, input.ctx);
    case Acquiring(e, m) => AcquireAlike(s, t, e, q.e, m);
    case Rejecting(e) => RejectAlike(s, t, e, q.e);
  }

  lemma LoadAlike(s: State, t: State, a: Execution, b: Execution, m: M.Module, deadline: Nanos, ctx: Ctx)
    requires RestAlike(s, t) && RecordAlike(a, b)
    ensures TurnAlike(LoadTurn(s, a, m, deadline, ctx), LoadTurn(t, b, m, deadline, ctx))
  {
  }

  lemma CompileAlike(cfg: Config, s: State, t: State, p: Worker, q: Worker, input: Input)
    requires RestAlike(s, t) && WorkerAlike(p, q) && p.Compiling?
    ensures TurnAlike(CompileTurn(cfg, s, p.e, p.m, p.deadline, p.content, input.ctx, input.putCtx),
                      CompileTurn(cfg, t, q.e, q.m, q.deadline, q.content, input.ctx, input.putCtx))
  {
    hide Compile;
  }

  lemma LoadsAlike(cfg: Config, s: State, t: State, w: nat, input: Input)
    requires Alike(s, t) && (WorkerAt(s, w).Loading? || WorkerAt(s, w).Compiling?)
    ensures TurnAlike(TurnOf(cfg, s, w, input), TurnOf(cfg, t, w, input))
  {
    hide TurnAlike;
    var p, q := WorkerAt(s, w), WorkerAt(t, w);
    assert WorkerAlike(p, q);
    if p.Loading? {
      LoadAlike(s, t, p.e, q.e, p.m, p.deadline, input.ctx);
    } else {
      CompileAlike(cfg, s, t, p, q, input);
    }
  }

  lemma ConcludeAlike(cfg: Config, a: Execution, b: Execution, o: Outcome, now: Nanos)
    requires RecordAlike(a, b)
    ensures RecordAlike(Conclude(cfg, a, o, now), Conclude(cfg, b, o, now))
  {
  }

  lemma ExecuteAlike(cfg: Config, s: State, t: State, w: nat, input: Input)
    requires Alike(s, t) && WorkerAt(s, w).Executing?
    ensures TurnAlike(TurnOf(cfg, s, w, input), TurnOf(cfg, t, w, input))
  {
    var p, q := WorkerAt(s, w), WorkerAt(t, w);
    assert WorkerAlike(p, q);
    ConcludeAlike(cfg, p.e, q.e, OutcomeOf(cfg, s, p.e, p.m, p.compiled, input), s.now);
  }

  lemma EndAlike(s: State, t: State, a: Execution, b: Execution)
    requires RestAlike(s, t) && RecordAlike(a, b)
    ensures TurnAlike(FinishTurn(s, a), FinishTurn(t, b)) && TurnAlike(MeterTurn(s, a), MeterTurn(t, b))
    ensures TurnAlike(AbortTurn(s, a), AbortTurn(t, b)) && TurnAlike(UnwindTurn(s, a), UnwindTurn(t, b))
    ensures TurnAlike(ReleaseTurn(s, a), ReleaseTurn(t, b))
  {
  }

  lemma EndsAlike(cfg: Config, s: State, t: State, w: nat, input: Input)
    requires Alike(s, t) && AtEnd(WorkerAt(s, w))
    ensures TurnAlike(TurnOf(cfg, s, w, input), TurnOf(cfg, t, w, input))
  {
    hide TurnAlike, RestAlike, FinishTurn, MeterTurn, AbortTurn, UnwindTurn, ReleaseTurn, Conclude;
    var p, q := WorkerAt(s, w), WorkerAt(t, w);
    assert WorkerAlike(p, q);
    EndAlike(s, t, p.e, q.e);
  }

  /** Every step but a lookup. */
  lemma TurnsAlike(cfg: Config, s: State, t: State, w: nat, input: Input)
    requires Alike(s, t) && !WorkerAt(s, w).Looking?
    ensures TurnAlike(TurnOf(cfg, s, w, input), TurnOf(cfg, t, w, input))
  {
    hide TurnOf, TurnAlike;
    var p := WorkerAt(s, w);
    if AtDoor(p) { DoorAlike(cfg, s, t, w, input); }
    else if AtLease(p) { LeaseAlike(cfg, s, t, w, input); }
    else if AtLoad(p) { LoadsAlike(cfg, s, t, w, input); }
    else if p.Executing? { ExecuteAlike(cfg, s, t, w, input); }
    else { EndsAlike(cfg, s, t, w, input); }
  }

  lemma WriteAlike(a: map<Id, Execution>, b: map<Id, Execution>, x: Option<Execution>, y: Option<Execution>)
    requires RecordsAlike(a, b) && MaybeAlike(x, y)
    ensures RecordsAlike(Write(a, x), Write(b, y))
  {
  }

  /** What the history takes from a worker's record is the same. */
  lemma HeldAlike(p: Worker, q: Worker)
    requires WorkerAlike(p, q)
    ensures HeldId(p) == HeldId(q) && TenantOf(p) == TenantOf(q)
  {
  }

  lemma CauseAlike(s: State, t: State, p: Worker, q: Worker, input: Input)
    requires WorkerAlike(p, q) && RestAlike(s, t)
    ensures CauseOf(s, p, input) == CauseOf(t, q, input)
  {
  }

  lemma BehindAlike(s: State, t: State, id: Id, ctx: Ctx)
    requires RestAlike(s, t)
    ensures Behind(s, id, ctx) == Behind(t, id, ctx)
  {
  }

  lemma StageAlike(p: Worker, q: Worker)
    requires WorkerAlike(p, q)
    ensures (p.Acquiring? <==> q.Acquiring?) && (p.Executing? <==> q.Executing?) && (p.Rejecting? <==> q.Rejecting?)
    ensures p.Acquiring? || p.Executing? ==> p.e.ticket == q.e.ticket
  {
  }

  lemma PastAlike(s: State, t: State, p: Worker, q: Worker, ctx: Ctx, next: Worker, next': Worker)
    requires WorkerAlike(p, q) && WorkerAlike(next, next') && RestAlike(s, t)
    ensures PastAfter(s, p, ctx, next) == PastAfter(t, q, ctx, next')
  {
    hide Behind, WorkerAlike;
    StageAlike(p, q);
    StageAlike(next, next');
    if p.Executing? { BehindAlike(s, t, p.e.ticket.id, ctx); }
  }

  lemma WorkAlike(cfg: Config, s: State, t: State, w: nat, input: Input)
    requires Alike(s, t) && TurnAlike(TurnOf(cfg, s, w, input), TurnOf(cfg, t, w, input))
    ensures Alike(Work(cfg, s, w, input), Work(cfg, t, w, input))
  {
    hide TurnOf;
    if w < |s.pool.workers| {
      var a, b := TurnOf(cfg, s, w, input), TurnOf(cfg, t, w, input);
      var p, q := s.pool.workers[w], t.pool.workers[w];
      assert WorkerAlike(p, q);
      HeldAlike(p, q);
      HeldAlike(a.next, b.next);
      CauseAlike(s, t, p, q, input);
      PastAlike(s, t, p, q, input.ctx, a.next, b.next);
      WriteAlike(s.disk.executions, t.disk.executions, a.write, b.write);
    }
  }

  lemma MayWorkAlike(cfg: Config, s: State, t: State, w: nat, input: Input)
    requires Alike(s, t) && MayWork(cfg, s, w, input)
    ensures MayWork(cfg, t, w, input)
  {
    assert WorkerAlike(WorkerAt(s, w), WorkerAt(t, w));
  }

  // ---- A call's step ----

  lemma CallAlike(s: State, t: State, c: nat)
    requires CallsAlike(s.calls, t.calls)
    ensures (c in s.calls <==> c in t.calls) && CallAt(s, c).dead == CallAt(t, c).dead
    ensures StepAlike(CallAt(s, c).step, CallAt(t, c).step)
  {
  }

  lemma PutAlike(a: map<Id, Execution>, b: map<Id, Execution>, id: Id, e: Execution, f: Execution)
    requires RecordsAlike(a, b) && RecordAlike(e, f)
    ensures RecordsAlike(a[id := e], b[id := f]) && (id in a <==> id in b)
  {
  }

  lemma SetStepAlike(s: State, t: State, c: nat, a: CallStep, b: CallStep)
    requires Alike(s, t) && StepAlike(a, b)
    ensures Alike(SetStep(s, c, a), SetStep(t, c, b))
  {
  }

  lemma LookupAlike(a: S.Disk, b: S.Disk, t: Tenant, key: string)
    requires RecordsAlike(a.executions, b.executions) && a.idempotency == b.idempotency
    ensures MaybeAlike(S.Lookup(a, t, key), S.Lookup(b, t, key))
  {
  }

  lemma AnswersAlike(cfg: Config, s: State, t: State, req: Request, dead: bool, id: Id)
    requires Alike(s, t)
    ensures StepAlike(FindStep(s, req, dead), FindStep(t, req, dead))
    ensures StepAlike(AskStep(cfg, s, req, dead, id), AskStep(cfg, t, req, dead, id))
  {
    LookupAlike(s.disk, t.disk, req.tenantId, req.key);
  }

  lemma ReadsAlike(s: State, t: State, id: Id, dead: bool)
    requires Alike(s, t)
    ensures StepAlike(FetchStep(s, id, dead), FetchStep(t, id, dead))
    ensures StepAlike(ReadStep(s, id, dead), ReadStep(t, id, dead))
  {
  }

  lemma CreateAlike(s: State, t: State, c: nat, e: Execution, f: Execution, req: Request)
    requires Alike(s, t) && RecordAlike(e, f)
    ensures Alike(CreateTurn(s, c, e, req), CreateTurn(t, c, f, req))
  {
    hide CallsAlike, RecordsAlike, WorkersAlike, SetStep;
    CallAlike(s, t, c);
    PutAlike(s.disk.executions, t.disk.executions, e.ticket.id, e, f);
    SetStepAlike(s, t, c, Answered(None, ContextCanceled), Answered(None, ContextCanceled));
    SetStepAlike(s, t, c, Answered(None, AlreadyExists), Answered(None, AlreadyExists));
    SetStepAlike(s, t, c, Saving(e, req.key, req.payload), Saving(f, req.key, req.payload));
  }

  lemma ScheduleAlike(s: State, t: State, c: nat, e: Execution, f: Execution)
    requires Alike(s, t) && RecordAlike(e, f)
    ensures Alike(ScheduleTurn(s, c, e), ScheduleTurn(t, c, f))
  {
    hide CallsAlike, RecordsAlike, WorkersAlike, SetStep;
    CallAlike(s, t, c);
    SetStepAlike(s, t, c, Reverting(Unscheduled(e, ContextCanceled)), Reverting(Unscheduled(f, ContextCanceled)));
    SetStepAlike(s, t, c, Reverting(Unscheduled(e, QueueShut)), Reverting(Unscheduled(f, QueueShut)));
    SetStepAlike(s, t, c, Answered(Some(e), NoFault), Answered(Some(f), NoFault));
  }

  lemma RevertAlike(s: State, t: State, c: nat, e: Execution, f: Execution)
    requires Alike(s, t) && RecordAlike(e, f)
    ensures Alike(RevertTurn(s, c, e), RevertTurn(t, c, f))
  {
    hide CallsAlike, RecordsAlike, WorkersAlike, SetStep;
    CallAlike(s, t, c);
    SetStepAlike(s, t, c, Answered(Some(e), e.fault), Answered(Some(f), f.fault));
    var write, write' := if CallAt(s, c).dead then None else Some(e), if CallAt(s, c).dead then None else Some(f);
    WriteAlike(s.disk.executions, t.disk.executions, write, write');
  }

  lemma SubmitAlike(cfg: Config, s: State, t: State, c: nat, id: Id)
    requires Alike(s, t) && MidSubmit(CallAt(s, c).step)
    ensures Alike(Proceed(cfg, s, c, id), Proceed(cfg, t, c, id))
  {
    hide CallsAlike, RecordsAlike, WorkersAlike, SetStep;
    var a, b := CallAt(s, c).step, CallAt(t, c).step;
    CallAlike(s, t, c);
    match a
    case Asking(req) =>
      AnswersAlike(cfg, s, t, req, CallAt(s, c).dead, id);
      SetStepAlike(s, t, c, AskStep(cfg, s, req, CallAt(s, c).dead, id), AskStep(cfg, t, req, CallAt(s, c).dead, id));
    case Creating(e, req) => CreateAlike(s, t, c, e, b.e, req);
    case Saving(e, key, payload) => SetStepAlike(s, t, c, Putting(e, payload), Putting(b.e, payload));
    case Putting(e, payload) => SetStepAlike(s, t, c, Scheduling(e), Scheduling(b.e));
    case Scheduling(e) => ScheduleAlike(s, t, c, e, b.e);
    case Reverting(e) => RevertAlike(s, t, c, e, b.e);
  }

  lemma WritingAlike(cfg: Config, s: State, t: State, c: nat, id: Id)
    requires Alike(s, t) && CallAt(s, c).step.Writing?
    ensures Alike(Proceed(cfg, s, c, id), Proceed(cfg, t, c, id))
  {
    hide CallsAlike, RecordsAlike, WorkersAlike, SetStep;
    CallAlike(s, t, c);
    var e, f := CallAt(s, c).step.e, CallAt(t, c).step.e;
    SetStepAlike(s, t, c, Answered(None, ContextCanceled), Answered(None, ContextCanceled));
    SetStepAlike(s, t, c, Reading(e.ticket.id), Reading(f.ticket.id));
    var write, write' := if CallAt(s, c).dead then None else Some(e), if CallAt(s, c).dead then None else Some(f);
    WriteAlike(s.disk.executions, t.disk.executions, write, write');
  }

  lemma ProbingAlike(cfg: Config, s: State, t: State, c: nat, id: Id)
    requires Alike(s, t) && CallAt(s, c).step.Probing?
    ensures Alike(Proceed(cfg, s, c, id), Proceed(cfg, t, c, id))
  {
    hide CallsAlike, RecordsAlike, WorkersAlike, SetStep;
    CallAlike(s, t, c);
    var e, f := CallAt(s, c).step.e, CallAt(t, c).step.e;
    SetStepAlike(s, t, c, Firing(e.ticket.id), Firing(f.ticket.id));
    SetStepAlike(s, t, c, Flagging(e), Flagging(f));
  }

  lemma CancelAlike(cfg: Config, s: State, t: State, c: nat, id: Id)
    requires Alike(s, t) && MidCancel(CallAt(s, c).step)
    ensures Alike(Proceed(cfg, s, c, id), Proceed(cfg, t, c, id))
  {
    hide CallsAlike, RecordsAlike, WorkersAlike, SetStep;
    var a, b := CallAt(s, c).step, CallAt(t, c).step;
    CallAlike(s, t, c);
    match a
    case Probing(e) => ProbingAlike(cfg, s, t, c, id);
    case Firing(x) => SetStepAlike(s, t, c, Reading(x), Reading(x));
    case Flagging(e) => SetStepAlike(s, t, c, Writing(CanceledEarly(e, s.now)), Writing(CanceledEarly(b.e, s.now)));
    case Writing(_) => WritingAlike(cfg, s, t, c, id);
  }

  lemma ProceedAlike(cfg: Config, s: State, t: State, c: nat, id: Id)
    requires Alike(s, t)
    ensures Alike(Proceed(cfg, s, c, id), Proceed(cfg, t, c, id))
  {
    hide CallsAlike, RecordsAlike, WorkersAlike, SetStep;
    var a, dead := CallAt(s, c).step, CallAt(s, c).dead;
    CallAlike(s, t, c);
    if MidSubmit(a) {
      SubmitAlike(cfg, s, t, c, id);
    } else if MidCancel(a) {
      CancelAlike(cfg, s, t, c, id);
    } else {
      match a
      case Finding(req) =>
        AnswersAlike(cfg, s, t, req, dead, id);
        SetStepAlike(s, t, c, FindStep(s, req, dead), FindStep(t, req, dead));
      case Fetching(x) =>
        ReadsAlike(s, t, x, dead);
        SetStepAlike(s, t, c, FetchStep(s, x, dead), FetchStep(t, x, dead));
      case Reading(x) =>
        ReadsAlike(s, t, x, dead);
        SetStepAlike(s, t, c, ReadStep(s, x, dead), ReadStep(t, x, dead));
      case _ =>
    }
  }

  // ---- Other steps ----

  lemma RecoveredAlike(a: map<Id, Execution>, b: map<Id, Execution>)
    requires RecordsAlike(a, b)
    ensures RecordsAlike(S.Recovered(a), S.Recovered(b))
  {
  }

  lemma BootAlike(cfg: Config, s: State, t: State)
    requires Alike(s, t)
    ensures Alike(Boot(cfg, s.disk, s.now, s.hist.past), Boot(cfg, t.disk, t.now, t.hist.past))
  {
    RecoveredAlike(s.disk.executions, t.disk.executions);
  }

  lemma OthersAlike(cfg: Config, s: State, t: State, a: Action)
    requires Alike(s, t) && !a.DoWork? && !a.Continue? && !a.Restart?
    ensures Alike(Next(cfg, s, a), Next(cfg, t, a))
  {
    hide RecordsAlike, WorkersAlike, Work, Proceed, Boot;
  }

  predicate LooksUp(s: State, a: Action) {
    a.DoWork? && WorkerAt(s, a.w).Looking?
  }

  lemma EnabledAlike(cfg: Config, s: State, t: State, a: Action)
    requires Alike(s, t) && Enabled(cfg, s, a)
    ensures Enabled(cfg, t, a) && (LooksUp(s, a) <==> LooksUp(t, a))
  {
    hide MayWork;
    match a
    case DoWork(w, input) =>
      assert WorkerAlike(WorkerAt(s, w), WorkerAt(t, w));
      MayWorkAlike(cfg, s, t, w, input);
    case Continue(c, id) => CallAlike(s, t, c);
    case _ =>
  }

  /** Every step but a lookup is the same step for the other. */
  lemma SameStepAlike(cfg: Config, s: State, t: State, a: Action)
    requires Alike(s, t) && Enabled(cfg, s, a) && !LooksUp(s, a)
    ensures Alike(Next(cfg, s, a), Next(cfg, t, a))
  {
    hide Alike, Work, Proceed, Boot, TurnOf;
    match a
    case DoWork(w, input) =>
      TurnsAlike(cfg, s, t, w, input);
      WorkAlike(cfg, s, t, w, input);
    case Continue(c, id) => ProceedAlike(cfg, s, t, c, id);
    case Restart => BootAlike(cfg, s, t);
    case _ => OthersAlike(cfg, s, t, a);
  }

  // ---- Runs in which nothing cached is found ----

  /** No lookup, or one that does not come back with anything cached. */
  predicate FindsNothing(cfg: Config, s: State, a: Action) {
    LooksUp(s, a) ==>
      var p := WorkerAt(s, a.w);
      var found := C.Get(s.svc.cache, a.input.ctx, KeyOf(cfg, p.e, p.m), s.now).1;
      found.Miss? || found.NoContext?
  }

  ghost predicate AlwaysCompiles(cfg: Config, s: State, run: seq<Action>)
    decreases run
  {
    run != [] ==> FindsNothing(cfg, s, run[0]) && AlwaysCompiles(cfg, Next(cfg, s, run[0]), run[1..])
  }

  /** A possible run, in which everything is compiled, leads from the one state to the other. */
  ghost predicate Bypasses(cfg: Config, s: State, run: seq<Action>, s': State) {
    RunsTo(cfg, s, run, s') && AlwaysCompiles(cfg, s, run)
  }

  lemma BypassesItself(cfg: Config, s: State)
    ensures Bypasses(cfg, s, [], s)
  {
    hide Next, Enabled;
  }

  lemma BypassesFirst(cfg: Config, s: State, a: Action, run: seq<Action>, s': State)
    requires Enabled(cfg, s, a) && FindsNothing(cfg, s, a) && Bypasses(cfg, Next(cfg, s, a), run, s')
    ensures Bypasses(cfg, s, [a] + run, s')
  {
    hide Next, Enabled, FindsNothing;
    assert ([a] + run)[0] == a && ([a] + run)[1..] == run;
  }

  lemma BypassesOnce(cfg: Config, s: State, a: Action)
    requires Enabled(cfg, s, a) && FindsNothing(cfg, s, a)
    ensures Bypasses(cfg, s, [a], Next(cfg, s, a))
  {
    hide Next, Enabled, FindsNothing;
    BypassesItself(cfg, Next(cfg, s, a));
    BypassesFirst(cfg, s, a, [], Next(cfg, s, a));
    assert [a] + [] == [a];
  }

  lemma {:induction false} BypassesOn(cfg: Config, s: State, run: seq<Action>, s': State, more: seq<Action>, s'': State)
    requires Bypasses(cfg, s, run, s') && Bypasses(cfg, s', more, s'')
    ensures Bypasses(cfg, s, run + more, s'')
    decreases run
  {
    hide Next, Enabled, FindsNothing;
    if run == [] {
      assert run + more == more;
    } else {
      BypassesOn(cfg, Next(cfg, s, run[0]), run[1..], s', more, s'');
      BypassesFirst(cfg, s, run[0], run[1..] + more, s'');
      assert [run[0]] + (run[1..] + more) == run + more;
    }
  }

  // ---- Lookups ----

  /** A worker stands elsewhere, and the cache is another. */
  function Stands(s: State, w: nat, p: Worker, cache: C.Cache): State {
    if w >= |s.pool.workers| then s
    else s.(pool := s.pool.(workers := s.pool.workers[w := p]), svc := s.svc.(cache := cache))
  }

  lemma StandsAlike(s: State, t: State, w: nat, p: Worker, q: Worker, c: C.Cache, d: C.Cache)
    requires Alike(s, t) && WorkerAlike(p, q)
    ensures Alike(Stands(s, w, p, c), Stands(t, w, q, d))
  {
    hide RecordsAlike, CallsAlike, WorkerAlike;
  }

  /** That is all that a lookup or a compile does. */
  lemma LookStands(cfg: Config, s: State, w: nat, input: Input)
    requires WorkerAt(s, w).Looking? || WorkerAt(s, w).Compiling?
    ensures Work(cfg, s, w, input)
         == Stands(s, w, TurnOf(cfg, s, w, input).next, TurnOf(cfg, s, w, input).svc.cache)
  {
    hide C.Get, Compile;
  }

  /** Where compiling on live contexts leads a worker that is about to look its module up. */
  function OnceCompiled(cfg: Config, p: Worker, now: Nanos): Worker {
    if !p.Looking? then p else
    match Translate(cfg.lib, cfg.version, p.content, p.m.digest)
    case Ready(compiled) => Executing(p.e, p.m, p.deadline, compiled)
    case Rejected(fault) => Aborting(FailedWith(p.e, ErrRuntime, fault, now))
  }

  /** Where a lookup on a live context leads, if anything is found, is where compiling leads. */
  lemma LookAlike(cfg: Config, s: State, p: Worker, q: Worker)
    requires Prepared(cfg, s, p) && p.Looking? && C.Faithful(cfg.lib, s.svc.cache, true) && WorkerAlike(p, q)
    ensures var next := LookTurn(cfg, s, p.e, p.m, p.deadline, p.content, Live).next;
            if next.Compiling? then WorkerAlike(next, Compiling(q.e, q.m, q.deadline, q.content))
            else WorkerAlike(next, OnceCompiled(cfg, q, s.now))
  {
    hide C.Get, Translate, C.Faithful;
    C.LookupAgrees(cfg.lib, s.svc.cache, true, KeyOf(cfg, p.e, p.m), p.content, s.now);
  }

  /** Nothing is cached under the key of the worker's module. */
  predicate NotCached(cfg: Config, s: State, p: Worker) {
    p.Looking? ==> KeyOf(cfg, p.e, p.m) !in s.svc.cache.items
  }

  lemma MissStands(cfg: Config, s: State, w: nat, input: Input)
    requires WorkerAt(s, w).Looking? && NotCached(cfg, s, WorkerAt(s, w)) && input.ctx == Live
    ensures FindsNothing(cfg, s, DoWork(w, input))
    ensures var p := WorkerAt(s, w);
            TurnOf(cfg, s, w, input).next == Compiling(p.e, p.m, p.deadline, p.content)
  {
  }

  /** The worker compiles on live contexts. */
  const ALL_LIVE := Input(Live, Live, 0)

  lemma CompileStands(cfg: Config, s: State, w: nat, q: Worker)
    requires q.Looking? && WorkerAt(s, w) == Compiling(q.e, q.m, q.deadline, q.content) && !s.svc.runtimeClosed
    ensures TurnOf(cfg, s, w, ALL_LIVE).next == OnceCompiled(cfg, q, s.now)
  {
    hide Translate;
  }

  /** The key is dropped and then looked up in vain. */
  lemma MissBypasses(cfg: Config, t: State, w: nat, input: Input) returns (run: seq<Action>, t': State)
    requires LooksUp(t, DoWork(w, input)) && MayWork(cfg, t, w, input) && input.ctx == Live
    ensures Bypasses(cfg, t, run, t')
    ensures var q := WorkerAt(t, w);
            t' == Stands(t, w, Compiling(q.e, q.m, q.deadline, q.content), t'.svc.cache)
  {
    hide TurnOf, Work, C.Get, Proceed;
    var q := WorkerAt(t, w);
    var forget, look := ForgetKey(KeyOf(cfg, q.e, q.m)), DoWork(w, input);
    var t1 := Next(cfg, t, forget);
    t' := Next(cfg, t1, look);
    run := [forget] + [look];
    MissStands(cfg, t1, w, input);
    LookStands(cfg, t1, w, input);
    BypassesOnce(cfg, t, forget);
    BypassesOnce(cfg, t1, look);
    BypassesOn(cfg, t, [forget], t1, [look], t');
  }

  /** And then its content is compiled on live contexts. */
  lemma CompileBypasses(cfg: Config, t: State, w: nat, input: Input) returns (run: seq<Action>, t': State)
    requires LooksUp(t, DoWork(w, input)) && MayWork(cfg, t, w, input) && input.ctx == Live && !t.svc.runtimeClosed
    ensures Bypasses(cfg, t, run, t')
    ensures t' == Stands(t, w, OnceCompiled(cfg, WorkerAt(t, w), t.now), t'.svc.cache)
  {
    hide TurnOf, Work, Translate, Proceed, Execute;
    var q := WorkerAt(t, w);
    var first, t2 := MissBypasses(cfg, t, w, input);
    var compile := DoWork(w, ALL_LIVE);
    run, t' := first + [compile], Next(cfg, t2, compile);
    CompileStands(cfg, t2, w, q);
    LookStands(cfg, t2, w, ALL_LIVE);
    BypassesOnce(cfg, t2, compile);
    BypassesOn(cfg, t, first, t2, [compile], t');
  }

  /** The other system drops the key, looks it up in vain and, unless the first found nothing
      either, compiles. */
  lemma LookBypassed(cfg: Config, s: State, t: State, w: nat, input: Input) returns (run: seq<Action>, t': State)
    requires Alike(s, t) && LooksUp(s, DoWork(w, input)) && MayWork(cfg, s, w, input) && !s.svc.runtimeClosed
    requires Prepared(cfg, s, WorkerAt(s, w)) && C.Faithful(cfg.lib, s.svc.cache, true) && input.ctx == Live
    ensures Bypasses(cfg, t, run, t') && Alike(Work(cfg, s, w, input), t')
  {
    hide RecordsAlike, CallsAlike, Work, C.Get, Translate, C.Faithful, Prepared, OnceCompiled, Bypasses;
    var p, q := WorkerAt(s, w), WorkerAt(t, w);
    assert WorkerAlike(p, q);
    MayWorkAlike(cfg, s, t, w, input);
    LookStands(cfg, s, w, input);
    LookAlike(cfg, s, p, q);
    var moved := TurnOf(cfg, s, w, input);
    if moved.next.Compiling? {
      run, t' := MissBypasses(cfg, t, w, input);
      StandsAlike(s, t, w, moved.next, Compiling(q.e, q.m, q.deadline, q.content), moved.svc.cache, t'.svc.cache);
    } else {
      run, t' := CompileBypasses(cfg, t, w, input);
      StandsAlike(s, t, w, moved.next, OnceCompiled(cfg, q, t.now), moved.svc.cache, t'.svc.cache);
    }
  }

  /** A lookup whose context is done finds that out before it finds anything. */
  lemma DeadLookAlike(cfg: Config, s: State, t: State, w: nat, input: Input)
    requires Alike(s, t) && LooksUp(s, DoWork(w, input)) && input.ctx != Live
    ensures TurnAlike(TurnOf(cfg, s, w, input), TurnOf(cfg, t, w, input)) && FindsNothing(cfg, t, DoWork(w, input))
  {
    assert WorkerAlike(WorkerAt(s, w), WorkerAt(t, w));
  }

  // ---- Steps and runs ----

  /** What a run with a cache that agrees with compiling rests on. */
  ghost predicate Open(cfg: Config, s: State) {
    CacheOk(cfg, s, true) && !s.svc.runtimeClosed
  }

  lemma StepBypassed(cfg: Config, s: State, t: State, a: Action) returns (run: seq<Action>, t': State)
    requires Alike(s, t) && Open(cfg, s) && Enabled(cfg, s, a)
    ensures Bypasses(cfg, t, run, t') && Alike(Next(cfg, s, a), t')
  {
    hide Alike, Work, Proceed, Boot, TurnOf, Bypasses, MayWork, WorkerFaithful;
    if LooksUp(s, a) && a.input.ctx == Live {
      PreparedBy(cfg, s, WorkerAt(s, a.w));
      run, t' := LookBypassed(cfg, s, t, a.w, a.input);
    } else {
      EnabledAlike(cfg, s, t, a);
      run, t' := [a], Next(cfg, t, a);
      if LooksUp(s, a) {
        DeadLookAlike(cfg, s, t, a.w, a.input);
        WorkAlike(cfg, s, t, a.w, a.input);
      } else {
        SameStepAlike(cfg, s, t, a);
      }
      BypassesOnce(cfg, t, a);
    }
  }

  predicate StaysOpen(run: seq<Action>) {
    forall i :: 0 <= i < |run| ==> !run[i].CloseRuntime?
  }

  lemma CallLeavesOpen(cfg: Config, s: State, c: nat, id: Id)
    ensures Proceed(cfg, s, c, id).svc.runtimeClosed == s.svc.runtimeClosed
  {
    hide FindStep, AskStep, FetchStep, ReadStep;
  }

  lemma RuntimeStaysOpen(cfg: Config, s: State, a: Action)
    requires Open(cfg, s) && Enabled(cfg, s, a) && SoundCompile(cfg, s, a) && CollisionFree(cfg.lib) && !a.CloseRuntime?
    ensures !Next(cfg, s, a).svc.runtimeClosed
  {
    hide CacheOk, TurnOf, Proceed, Enabled;
    match a
    case DoWork(w, input) => if w < |s.pool.workers| { TurnFaithful(cfg, s, true, w, input); }
    case Continue(c, id) => CallLeavesOpen(cfg, s, c, id);
    case _ =>
  }

  lemma StepStaysOpen(cfg: Config, s: State, a: Action)
    requires Open(cfg, s) && Enabled(cfg, s, a) && SoundCompile(cfg, s, a) && CollisionFree(cfg.lib) && !a.CloseRuntime?
    ensures Open(cfg, Next(cfg, s, a))
  {
    hide CacheOk, Next, Enabled;
    StepKeepsCache(cfg, s, true, a);
    RuntimeStaysOpen(cfg, s, a);
  }

  /** Every run in which no compile of content that compiles sees a dead context has a counterpart
      in which everything is compiled and that ends alike: with the same queue, leases, books,
      usage, history and calls, and with the same records but for the texts of cached failures. */
  lemma {:induction false} RunsBypassed(cfg: Config, s: State, t: State, run: seq<Action>)
      returns (direct: seq<Action>, t': State)
    requires Alike(s, t) && Open(cfg, s) && CollisionFree(cfg.lib)
    requires Possible(cfg, s, run) && SoundRun(cfg, s, run) && StaysOpen(run)
    ensures Bypasses(cfg, t, direct, t') && Alike(Exec(cfg, s, run), t')
    decreases run
  {
    hide Next, Enabled, Alike, Open, Bypasses, SoundCompile;
    if run == [] {
      direct, t' := [], t;
      BypassesItself(cfg, t);
    } else {
      var first, t1 := StepBypassed(cfg, s, t, run[0]);
      StepStaysOpen(cfg, s, run[0]);
      var rest;
      rest, t' := RunsBypassed(cfg, Next(cfg, s, run[0]), t1, run[1..]);
      direct := first + rest;
      BypassesOn(cfg, t, first, t1, rest, t');
    }
  }

  /** From a start on, whatever its workers and calls do: what the cache answers cannot be told
      from what compiling would have given, but by the text of a failure that was cached. */
  lemma CacheIsInvisible(cfg: Config, disk: S.Disk, now: Nanos, past: Past, run: seq<Action>)
      returns (direct: seq<Action>, t': State)
    requires M.Coherent(cfg.lib, disk.shelf) && CollisionFree(cfg.lib)
    requires Possible(cfg, Boot(cfg, disk, now, past), run) && SoundRun(cfg, Boot(cfg, disk, now, past), run)
    requires StaysOpen(run)
    ensures Bypasses(cfg, Boot(cfg, disk, now, past), direct, t')
    ensures Alike(Exec(cfg, Boot(cfg, disk, now, past), run), t')
  {
    hide Next, Enabled, Alike, Bypasses, SoundCompile;
    var first := Boot(cfg, disk, now, past);
    AlikeItself(first);
    direct, t' := RunsBypassed(cfg, first, first, run);
  }
}
