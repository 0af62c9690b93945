/** What every stored record satisfies, whatever the interleaving: the fields of its request
    never change, and its status, error class, usage and output fit its budget. */
module Records {
  import opened Common
  import opened Executions
  import opened Simulation
  import opened ControlPlane
  import R = Resources
  import S = Stores
  import M = Modules

  predicate SameRequest(a: Execution, b: Execution) {
    a.ticket == b.ticket
  }

  /** A record of an execution refused for resources names the denied lease, or the limit that
      the program's demand exceeds. */
  predicate ResourceCause(e: Execution) {
    match e.fault
    case NoSlot => true
    case TooManyPages => true
    case CpuSpent => true
    case InstructionLimit => e.report.usage.instructions > e.ticket.budget.maxInstructions
    case MemoryLimit => e.report.usage.memoryPages > e.ticket.budget.maxMemoryPages
    case StackLimit => true
    case _ => false
  }

  predicate ClassFits(e: Execution) {
    match e.status
    case Queued => e.errorClass == ErrNone
    case Running => e.errorClass == ErrNone
    case Succeeded => e.errorClass == ErrNone
    case CanceledBy => e.errorClass == ErrCanceled
    case TimedOut => e.errorClass == ErrTimeout
    case Failed =>
      || e.errorClass == ErrInvalid || e.errorClass == ErrResource
      || e.errorClass == ErrRuntime || e.errorClass == ErrUnavailable
  }

  predicate SuccessFits(e: Execution) {
    e.status == Succeeded ==>
      && e.report.usage.instructions <= e.ticket.budget.maxInstructions
      && e.report.usage.memoryPages <= e.ticket.budget.maxMemoryPages
      && |e.report.output| == e.report.usage.outputBytes <= e.ticket.budget.maxOutputBytes
  }

  predicate Fit(cfg: Config, e: Execution) {
    && Within(e.ticket.budget, cfg.maxBudget)
    && ClassFits(e)
    && SuccessFits(e)
    && (e.errorClass == ErrResource ==> ResourceCause(e))
  }

  // ---- The invariant ----

  function RecordOf(w: Worker): Option<Execution> {
    match w
    case Idle => None
    case Parked => None
    case Exited => None
    case Holding(_) => None
    case Starting(_) => None
    case _ => Some(w.e)
  }

  /** The stored record a call has in hand. */
  function CallRecord(step: CallStep): Option<Execution> {
    match step
    case Saving(e, _, _) => Some(e)
    case Putting(e, _) => Some(e)
    case Scheduling(e) => Some(e)
    case Reverting(e) => Some(e)
    case Probing(e) => Some(e)
    case Flagging(e) => Some(e)
    case Writing(e) => Some(e)
    case _ => None
  }

  /** The execution is stored with a terminal status. */
  predicate Over(executions: map<Id, Execution>, id: Id) {
    id in executions && Terminal(executions[id])
  }

  predicate Linked(executions: map<Id, Execution>, e: Execution) {
    e.ticket.id in executions && SameRequest(e, executions[e.ticket.id])
  }

  ghost predicate StoreOk(cfg: Config, executions: map<Id, Execution>) {
    forall id :: id in executions ==> executions[id].ticket.id == id && Fit(cfg, executions[id])
  }

  /** The status of the record in a worker's hands: unfinished up to marking it as running,
      running up to its end, and then terminal. */
  predicate StatusFits(w: Worker, status: Status) {
    if MidStart(w) && !w.Rejecting? then status == Queued || status == Running
    else if AtLoad(w) || w.Executing? then status == Running
    else if w.Rejecting? || w.Finishing? || w.Aborting? || w.Metering? then status != Queued && status != Running
    else true
  }

  predicate WorkerOk(cfg: Config, executions: map<Id, Execution>, live: bool, w: Worker) {
    match RecordOf(w)
    case None => true
    case Some(e) =>
      && Linked(executions, e)
      && (Fit(cfg, e) || (w.Rejecting? && !live))
      && StatusFits(w, e.status)
  }

  predicate CallOk(cfg: Config, executions: map<Id, Execution>, step: CallStep) {
    && (step.Creating? ==> Fit(cfg, step.e) && step.e.status == Queued)
    && (step.Reverting? ==> step.e.status == Failed)
    && (step.Writing? ==> step.e.status == CanceledBy)
    && (CallRecord(step).Some? ==> Linked(executions, CallRecord(step).value) && Fit(cfg, CallRecord(step).value))
  }

  ghost predicate RecordsOk(cfg: Config, s: State) {
    && StoreOk(cfg, s.disk.executions)
    && (forall w :: 0 <= w < |s.pool.workers| ==> WorkerOk(cfg, s.disk.executions, s.pool.live, s.pool.workers[w]))
    && (forall c :: c in s.calls ==> CallOk(cfg, s.disk.executions, s.calls[c].step))
  }

  /** From one state of a run to a later one: records stay, with the fields of their request. */
  ghost predicate RequestsKept(before: map<Id, Execution>, after: map<Id, Execution>) {
    forall id :: id in before ==> id in after && SameRequest(before[id], after[id])
  }

  // ---- Workers ----

  /** Completed within the budget, or stopped, for a limit only when it was exceeded. */
  predicate OutcomeFits(o: Outcome, b: Budget) {
    match o
    case Done(r) =>
      && r.usage.instructions <= b.maxInstructions && r.usage.memoryPages <= b.maxMemoryPages
      && |r.output| == r.usage.outputBytes <= b.maxOutputBytes
    case Stopped(r, fault) =>
      && (fault == InstructionLimit ==> r.usage.instructions > b.maxInstructions)
      && (fault == MemoryLimit ==> r.usage.memoryPages > b.maxMemoryPages)
    case Crashed => false
  }

  lemma OutcomesFit(lib: Library, closed: bool, ctx: Ctx, m: Compiled, entry: string, payload: Bytes, b: Budget,
      cpu: nat)
    ensures var o := Execute(lib, closed, ctx, m, entry, payload, b, cpu); !o.Crashed? ==> OutcomeFits(o, b)
  {
  }

  lemma ConcludeFits(cfg: Config, e: Execution, o: Outcome, now: Nanos)
    requires Fit(cfg, e) && OutcomeFits(o, e.ticket.budget)
    ensures Fit(cfg, Conclude(cfg, e, o, now)) && SameRequest(Conclude(cfg, e, o, now), e)
  {
  }

  lemma ExecuteFits(cfg: Config, s: State, e: Execution, m: M.Module, compiled: Compiled, input: Input)
    requires Fit(cfg, e) && !OutcomeOf(cfg, s, e, m, compiled, input).Crashed?
    ensures Fit(cfg, Conclude(cfg, e, OutcomeOf(cfg, s, e, m, compiled, input), s.now))
    ensures SameRequest(Conclude(cfg, e, OutcomeOf(cfg, s, e, m, compiled, input), s.now), e)
  {
    OutcomesFit(cfg.lib, s.svc.runtimeClosed, input.ctx, compiled, m.entry, PayloadOf(s, e.ticket.id), e.ticket.budget,
                input.cpu);
    ConcludeFits(cfg, e, OutcomeOf(cfg, s, e, m, compiled, input), s.now);
  }

  /** Both ways, for an execution on an open runtime: its record says that resources ran out if
      and only if the program demands more than a field of its budget. */
  lemma ExhaustedExactly(cfg: Config, s: State, e: Execution, m: M.Module, compiled: Compiled, input: Input)
    requires e.errorClass == ErrNone && m.entry != "" && !s.svc.runtimeClosed
    requires !OutcomeOf(cfg, s, e, m, compiled, input).Crashed?
    ensures Conclude(cfg, e, OutcomeOf(cfg, s, e, m, compiled, input), s.now).errorClass == ErrResource <==>
            OverDemand(compiled, e.ticket.budget)
  {
    StopsForResourcesExactly(cfg.lib, false, input.ctx, compiled, m.entry, PayloadOf(s, e.ticket.id), e.ticket.budget,
                             input.cpu);
  }

  /** And before that: on a live pool the execution is failed for resources if and only if its
      tenant is out of slots or of CPU time, or it asks for more pages than the tenant has. */
  lemma DeniedExactly(s: State, e: Execution, m: M.Module)
    requires s.pool.live
    ensures var q := R.QuotaAt(s.svc.books, e.ticket.tenantId, s.now); var next := AcquireTurn(s, e, m).next;
            (next.Rejecting? && next.e.errorClass == ErrResource && next.e.status == Failed)
            <==>
            || q.active >= q.limits.concurrent
            || e.ticket.budget.maxMemoryPages > q.limits.memoryPages
            || q.cpuUsed >= q.limits.cpuPerMinute
  {
  }

  /** A turn hands on, and writes, records of the same request that fit. */
  ghost predicate TurnFits(cfg: Config, executions: map<Id, Execution>, live: bool, t: Turn) {
    && WorkerOk(cfg, executions, live, t.next)
    && (t.write.Some? ==> Linked(executions, t.write.value) && Fit(cfg, t.write.value))
  }

  lemma StartFits(cfg: Config, s: State, id: Id)
    requires StoreOk(cfg, s.disk.executions)
    ensures TurnFits(cfg, s.disk.executions, s.pool.live, StartTurn(s, id))
  {
  }

  lemma ResolveFits(cfg: Config, s: State, e: Execution)
    requires WorkerOk(cfg, s.disk.executions, s.pool.live, Resolving(e))
    ensures TurnFits(cfg, s.disk.executions, s.pool.live, ResolveTurn(s, e))
  {
  }

  lemma DoorTurnFits(cfg: Config, s: State, w: nat, input: Input)
    requires w < |s.pool.workers| && AtDoor(WorkerAt(s, w)) && StoreOk(cfg, s.disk.executions)
    requires WorkerOk(cfg, s.disk.executions, s.pool.live, WorkerAt(s, w))
    ensures TurnFits(cfg, s.disk.executions, s.pool.live, TurnOf(cfg, s, w, input))
  {
    match s.pool.workers[w]
    case Starting(id) => StartFits(cfg, s, id);
    case Resolving(e) => ResolveFits(cfg, s, e);
    case _ =>
  }

  lemma AcquireFits(cfg: Config, s: State, e: Execution, m: M.Module)
    requires WorkerOk(cfg, s.disk.executions, s.pool.live, Acquiring(e, m))
    ensures TurnFits(cfg, s.disk.executions, s.pool.live, AcquireTurn(s, e, m))
  {
  }

  lemma LeaseTurnFits(cfg: Config, s: State, w: nat, input: Input)
    requires w < |s.pool.workers| && AtLease(WorkerAt(s, w))
    requires WorkerOk(cfg, s.disk.executions, s.pool.live, WorkerAt(s, w))
    ensures TurnFits(cfg, s.disk.executions, s.pool.live, TurnOf(cfg, s, w, input))
  {
    match s.pool.workers[w]
    case Acquiring(e, m) => AcquireFits(cfg, s, e, m);
    case _ =>
  }

  lemma LoadTurnFits(cfg: Config, s: State, w: nat, input: Input)
    requires w < |s.pool.workers| && WorkerAt(s, w).Loading?
    requires WorkerOk(cfg, s.disk.executions, s.pool.live, WorkerAt(s, w))
    ensures TurnFits(cfg, s.disk.executions, s.pool.live, TurnOf(cfg, s, w, input))
  {
  }

  lemma LookTurnFits(cfg: Config, s: State, w: nat, input: Input)
    requires w < |s.pool.workers| && WorkerAt(s, w).Looking?
    requires WorkerOk(cfg, s.disk.executions, s.pool.live, WorkerAt(s, w))
    ensures TurnFits(cfg, s.disk.executions, s.pool.live, TurnOf(cfg, s, w, input))
  {
  }

  lemma CompileTurnFits(cfg: Config, s: State, w: nat, input: Input)
    requires w < |s.pool.workers| && WorkerAt(s, w).Compiling?
    requires WorkerOk(cfg, s.disk.executions, s.pool.live, WorkerAt(s, w))
    ensures TurnFits(cfg, s.disk.executions, s.pool.live, TurnOf(cfg, s, w, input))
  {
  }

  lemma RunTurnFits(cfg: Config, s: State, w: nat, input: Input)
    requires w < |s.pool.workers| && WorkerAt(s, w).Executing? && MayWork(cfg, s, w, input)
    requires WorkerOk(cfg, s.disk.executions, s.pool.live, WorkerAt(s, w))
    ensures TurnFits(cfg, s.disk.executions, s.pool.live, TurnOf(cfg, s, w, input))
  {
    var p := s.pool.workers[w];
    ExecuteFits(cfg, s, p.e, p.m, p.compiled, input);
  }

  lemma EndTurnFits(cfg: Config, s: State, w: nat, input: Input)
    requires w < |s.pool.workers| && AtEnd(WorkerAt(s, w))
    requires WorkerOk(cfg, s.disk.executions, s.pool.live, WorkerAt(s, w))
    ensures TurnFits(cfg, s.disk.executions, s.pool.live, TurnOf(cfg, s, w, input))
  {
  }

  lemma TurnIsFit(cfg: Config, s: State, w: nat, input: Input)
    requires w < |s.pool.workers| && MayWork(cfg, s, w, input) && StoreOk(cfg, s.disk.executions)
    requires WorkerOk(cfg, s.disk.executions, s.pool.live, WorkerAt(s, w))
    ensures TurnFits(cfg, s.disk.executions, s.pool.live, TurnOf(cfg, s, w, input))
  {
    hide TurnOf, MayWork;
    var p := s.pool.workers[w];
    if AtDoor(p) { DoorTurnFits(cfg, s, w, input); }
    else if AtLease(p) { LeaseTurnFits(cfg, s, w, input); }
    else if p.Loading? { LoadTurnFits(cfg, s, w, input); }
    else if p.Looking? { LookTurnFits(cfg, s, w, input); }
    else if p.Compiling? { CompileTurnFits(cfg, s, w, input); }
    else if AtEnd(p) { EndTurnFits(cfg, s, w, input); }
    else { RunTurnFits(cfg, s, w, input); }
  }

  /** Storing a record that fits, of a request that is stored or of a new identifier. */
  lemma PutKeeps(cfg: Config, executions: map<Id, Execution>, e: Execution)
    requires StoreOk(cfg, executions) && Fit(cfg, e)
    requires Linked(executions, e) || e.ticket.id !in executions
    ensures StoreOk(cfg, executions[e.ticket.id := e]) && RequestsKept(executions, executions[e.ticket.id := e])
  {
  }

  lemma OkAfter(cfg: Config, before: map<Id, Execution>, after: map<Id, Execution>, live: bool, workers: seq<Worker>,
      calls: map<nat, Call>)
    requires RequestsKept(before, after)
    requires forall w :: 0 <= w < |workers| ==> WorkerOk(cfg, before, live, workers[w])
    requires forall c :: c in calls ==> CallOk(cfg, before, calls[c].step)
    ensures forall w :: 0 <= w < |workers| ==> WorkerOk(cfg, after, live, workers[w])
    ensures forall c :: c in calls ==> CallOk(cfg, after, calls[c].step)
  {
    forall w | 0 <= w < |workers| ensures WorkerOk(cfg, after, live, workers[w]) {
      assert WorkerOk(cfg, before, live, workers[w]);
    }
    forall c | c in calls ensures CallOk(cfg, after, calls[c].step) {
      assert CallOk(cfg, before, calls[c].step);
    }
  }

  lemma WriteKeeps(cfg: Config, executions: map<Id, Execution>, write: Option<Execution>)
    requires StoreOk(cfg, executions)
    requires write.Some? ==> Linked(executions, write.value) && Fit(cfg, write.value)
    ensures StoreOk(cfg, Write(executions, write)) && RequestsKept(executions, Write(executions, write))
  {
    if write.Some? { PutKeeps(cfg, executions, write.value); }
  }

  lemma WorkKeepsRecords(cfg: Config, s: State, w: nat, input: Input)
    requires RecordsOk(cfg, s) && w < |s.pool.workers| && MayWork(cfg, s, w, input)
    ensures RecordsOk(cfg, Work(cfg, s, w, input))
    ensures RequestsKept(s.disk.executions, Work(cfg, s, w, input).disk.executions)
  {
    hide TurnOf, MayWork;
    var t := TurnOf(cfg, s, w, input);
    var after := Write(s.disk.executions, t.write);
    TurnIsFit(cfg, s, w, input);
    WriteKeeps(cfg, s.disk.executions, t.write);
    OkAfter(cfg, s.disk.executions, after, s.pool.live, s.pool.workers[w := t.next], s.calls);
  }

  // ---- Calls ----

  lemma AskFits(cfg: Config, s: State, req: Request, dead: bool, id: Id)
    ensures CallOk(cfg, s.disk.executions, AskStep(cfg, s, req, dead, id))
  {
  }

  /** The record, if any, that a call's step stores. */
  function CallWrite(s: State, c: nat): Option<Execution> {
    match CallAt(s, c).step
    case Creating(e, _) => if CallAt(s, c).dead || e.ticket.id in s.disk.executions then None else Some(e)
    case Reverting(e) => if CallAt(s, c).dead then None else Some(e)
    case Writing(e) => if CallAt(s, c).dead then None else Some(e)
    case _ => None
  }

  function Put(executions: map<Id, Execution>, write: Option<Execution>): map<Id, Execution> {
    match write
    case None => executions
    case Some(e) => executions[e.ticket.id := e]
  }

  lemma SubmitShape(cfg: Config, s: State, c: nat, id: Id)
    requires c in s.calls && StoreOk(cfg, s.disk.executions) && CallOk(cfg, s.disk.executions, CallAt(s, c).step)
    requires (CallAt(s, c).step.Finding? || MidSubmit(CallAt(s, c).step))
    ensures var s' := Proceed(cfg, s, c, id);
            && s'.disk.executions == Put(s.disk.executions, CallWrite(s, c))
            && s'.pool.workers == s.pool.workers && s'.pool.live == s.pool.live
            && c in s'.calls && s'.calls == s.calls[c := CallAt(s', c)]
  {
    assert CallOk(cfg, s.disk.executions, s.calls[c].step);
  }

  lemma CancelShape(cfg: Config, s: State, c: nat, id: Id)
    requires c in s.calls && StoreOk(cfg, s.disk.executions) && CallOk(cfg, s.disk.executions, CallAt(s, c).step)
    requires !(CallAt(s, c).step.Finding? || MidSubmit(CallAt(s, c).step))
    ensures var s' := Proceed(cfg, s, c, id);
            && s'.disk.executions == Put(s.disk.executions, CallWrite(s, c))
            && s'.pool.workers == s.pool.workers && s'.pool.live == s.pool.live
            && c in s'.calls && s'.calls == s.calls[c := CallAt(s', c)]
  {
    assert CallOk(cfg, s.disk.executions, s.calls[c].step);
  }

  lemma AskedFits(cfg: Config, s: State, c: nat, id: Id)
    requires c in s.calls && (CallAt(s, c).step.Finding? || CallAt(s, c).step.Asking?)
    ensures var s' := Proceed(cfg, s, c, id);
            c in s'.calls && CallOk(cfg, s'.disk.executions, CallAt(s', c).step)
  {
    if s.calls[c].step.Asking? {
      AskFits(cfg, s, s.calls[c].step.req, s.calls[c].dead, id);
    }
  }

  lemma CreateFits(cfg: Config, s: State, c: nat, id: Id)
    requires c in s.calls && StoreOk(cfg, s.disk.executions) && CallOk(cfg, s.disk.executions, CallAt(s, c).step)
    requires CallAt(s, c).step.Creating?
    ensures var s' := Proceed(cfg, s, c, id);
            c in s'.calls && CallOk(cfg, s'.disk.executions, CallAt(s', c).step)
  {
  }

  lemma SaveFits(cfg: Config, s: State, c: nat, id: Id)
    requires c in s.calls && StoreOk(cfg, s.disk.executions) && CallOk(cfg, s.disk.executions, CallAt(s, c).step)
    requires CallAt(s, c).step.Saving? || CallAt(s, c).step.Putting?
    ensures var s' := Proceed(cfg, s, c, id);
            c in s'.calls && CallOk(cfg, s'.disk.executions, CallAt(s', c).step)
  {
  }

  lemma ScheduleFits(cfg: Config, s: State, c: nat, id: Id)
    requires c in s.calls && StoreOk(cfg, s.disk.executions) && CallOk(cfg, s.disk.executions, CallAt(s, c).step)
    requires CallAt(s, c).step.Scheduling? || CallAt(s, c).step.Reverting?
    ensures var s' := Proceed(cfg, s, c, id);
            c in s'.calls && CallOk(cfg, s'.disk.executions, CallAt(s', c).step)
  {
  }

  lemma SubmitFits(cfg: Config, s: State, c: nat, id: Id)
    requires c in s.calls && StoreOk(cfg, s.disk.executions) && CallOk(cfg, s.disk.executions, CallAt(s, c).step)
    requires CallAt(s, c).step.Finding? || MidSubmit(CallAt(s, c).step)
    ensures var s' := Proceed(cfg, s, c, id);
            c in s'.calls && CallOk(cfg, s'.disk.executions, CallAt(s', c).step)
  {
    hide Proceed;
    match s.calls[c].step
    case Finding(_) => AskedFits(cfg, s, c, id);
    case Asking(_) => AskedFits(cfg, s, c, id);
    case Creating(_, _) => CreateFits(cfg, s, c, id);
    case Saving(_, _, _) => SaveFits(cfg, s, c, id);
    case Putting(_, _) => SaveFits(cfg, s, c, id);
    case Scheduling(_) => ScheduleFits(cfg, s, c, id);
    case Reverting(_) => ScheduleFits(cfg, s, c, id);
    case _ =>
  }

  lemma ProbeFits(cfg: Config, s: State, c: nat, id: Id)
    requires c in s.calls && StoreOk(cfg, s.disk.executions) && CallOk(cfg, s.disk.executions, CallAt(s, c).step)
    requires CallAt(s, c).step.Fetching? || CallAt(s, c).step.Probing?
    ensures var s' := Proceed(cfg, s, c, id);
            c in s'.calls && CallOk(cfg, s'.disk.executions, CallAt(s', c).step)
  {
  }

  lemma FlagFits(cfg: Config, s: State, c: nat, id: Id)
    requires c in s.calls && CallOk(cfg, s.disk.executions, CallAt(s, c).step) && CallAt(s, c).step.Flagging?
    ensures var s' := Proceed(cfg, s, c, id);
            c in s'.calls && CallOk(cfg, s'.disk.executions, CallAt(s', c).step)
  {
  }

  lemma WriteFits(cfg: Config, s: State, c: nat, id: Id)
    requires c in s.calls && CallAt(s, c).step.Writing?
    ensures var s' := Proceed(cfg, s, c, id);
            c in s'.calls && CallOk(cfg, s'.disk.executions, CallAt(s', c).step)
  {
  }

  lemma MarkFits(cfg: Config, s: State, c: nat, id: Id)
    requires c in s.calls && CallOk(cfg, s.disk.executions, CallAt(s, c).step)
    requires CallAt(s, c).step.Flagging? || CallAt(s, c).step.Writing?
    ensures var s' := Proceed(cfg, s, c, id);
            c in s'.calls && CallOk(cfg, s'.disk.executions, CallAt(s', c).step)
  {
    hide Proceed;
    if s.calls[c].step.Flagging? { FlagFits(cfg, s, c, id); } else { WriteFits(cfg, s, c, id); }
  }

  lemma ReadFits(cfg: Config, s: State, c: nat, id: Id)
    requires c in s.calls && StoreOk(cfg, s.disk.executions) && CallOk(cfg, s.disk.executions, CallAt(s, c).step)
    requires CallAt(s, c).step.Firing? || CallAt(s, c).step.Reading? || CallAt(s, c).step.Answered?
    ensures var s' := Proceed(cfg, s, c, id);
            c in s'.calls && CallOk(cfg, s'.disk.executions, CallAt(s', c).step)
  {
  }

  lemma CancelFits(cfg: Config, s: State, c: nat, id: Id)
    requires c in s.calls && StoreOk(cfg, s.disk.executions) && CallOk(cfg, s.disk.executions, CallAt(s, c).step)
    requires !(CallAt(s, c).step.Finding? || MidSubmit(CallAt(s, c).step))
    ensures var s' := Proceed(cfg, s, c, id);
            c in s'.calls && CallOk(cfg, s'.disk.executions, CallAt(s', c).step)
  {
    hide Proceed;
    var step := s.calls[c].step;
    if step.Fetching? || step.Probing? { ProbeFits(cfg, s, c, id); }
    else if step.Flagging? || step.Writing? { MarkFits(cfg, s, c, id); }
    else { ReadFits(cfg, s, c, id); }
  }

  lemma ProceedKeepsRecords(cfg: Config, s: State, c: nat, id: Id)
    requires RecordsOk(cfg, s) && c in s.calls
    ensures RecordsOk(cfg, Proceed(cfg, s, c, id))
    ensures RequestsKept(s.disk.executions, Proceed(cfg, s, c, id).disk.executions)
  {
    hide Proceed;
    var s' := Proceed(cfg, s, c, id);
    assert CallOk(cfg, s.disk.executions, s.calls[c].step);
    if s.calls[c].step.Finding? || MidSubmit(s.calls[c].step) {
      SubmitShape(cfg, s, c, id);
      SubmitFits(cfg, s, c, id);
    } else {
      CancelShape(cfg, s, c, id);
      CancelFits(cfg, s, c, id);
    }
    var write := CallWrite(s, c);
    if write.Some? { PutKeeps(cfg, s.disk.executions, write.value); }
    OkAfter(cfg, s.disk.executions, s'.disk.executions, s.pool.live, s.pool.workers, s.calls);
  }

  lemma RecoveredOk(cfg: Config, executions: map<Id, Execution>)
    requires StoreOk(cfg, executions)
    ensures StoreOk(cfg, S.Recovered(executions)) && RequestsKept(executions, S.Recovered(executions))
  {
  }

  lemma BootRecords(cfg: Config, disk: S.Disk, now: Nanos, past: Past)
    requires StoreOk(cfg, disk.executions)
    ensures RecordsOk(cfg, Boot(cfg, disk, now, past))
    ensures RequestsKept(disk.executions, Boot(cfg, disk, now, past).disk.executions)
  {
    RecoveredOk(cfg, disk.executions);
  }

  lemma ShutdownRecords(cfg: Config, s: State)
    requires RecordsOk(cfg, s)
    ensures RecordsOk(cfg, s.(pool := s.pool.(live := false)))
  {
    forall w | 0 <= w < |s.pool.workers| ensures WorkerOk(cfg, s.disk.executions, false, s.pool.workers[w]) {
      assert WorkerOk(cfg, s.disk.executions, s.pool.live, s.pool.workers[w]);
    }
  }

  lemma StepKeepsRecords(cfg: Config, s: State, a: Action)
    requires RecordsOk(cfg, s) && Enabled(cfg, s, a)
    ensures RecordsOk(cfg, Next(cfg, s, a))
    ensures RequestsKept(s.disk.executions, Next(cfg, s, a).disk.executions)
  {
    hide Work, Proceed, Boot;
    match a
    case DoWork(w, input) => WorkKeepsRecords(cfg, s, w, input);
    case Continue(c, id) => ProceedKeepsRecords(cfg, s, c, id);
    case Restart => BootRecords(cfg, s.disk, s.now, s.hist.past);
    case Shutdown => ShutdownRecords(cfg, s);
    case _ =>
  }

  lemma KeptOn(a: map<Id, Execution>, b: map<Id, Execution>, c: map<Id, Execution>)
    requires RequestsKept(a, b) && RequestsKept(b, c)
    ensures RequestsKept(a, c)
  {
    forall id | id in a ensures id in c && SameRequest(a[id], c[id]) {
      assert id in b && SameRequest(a[id], b[id]);
    }
  }

  /** Over any run, whatever the interleaving, crashes included. */
  lemma {:induction false} RunsKeepRecords(cfg: Config, s: State, run: seq<Action>)
    requires RecordsOk(cfg, s) && Possible(cfg, s, run)
    ensures RecordsOk(cfg, Exec(cfg, s, run))
    ensures RequestsKept(s.disk.executions, Exec(cfg, s, run).disk.executions)
    decreases run
  {
    hide Next, Enabled;
    if run != [] {
      var s' := Next(cfg, s, run[0]);
      StepKeepsRecords(cfg, s, run[0]);
      RunsKeepRecords(cfg, s', run[1..]);
      KeptOn(s.disk.executions, s'.disk.executions, Exec(cfg, s', run[1..]).disk.executions);
    }
  }
}
