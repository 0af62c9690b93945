/** Which submissions are admitted, and the record that is made of one: each in terms of what the
    request asks for and what its module and the service allow. */
module Admissions {
  import opened Common
  import opened Executions
  import opened Simulation
  import opened ControlPlane
  import opened Outputs
  import M = Modules
  import Q = RingQueue

  /** The input is of a kind there is, and asks for no variable that the module does not list. */
  predicate Invocable(m: M.Module, req: Request) {
    && (req.kind == "" || req.kind == "json" || req.kind == "binary" || req.kind == "stream")
    && forall v :: v in req.environment ==> v in m.envAllowlist
  }

  /** Every limit that the request gives is within the service's. */
  predicate Modest(asked: Budget, max: Budget) {
    && (asked.maxInstructions == 0 || asked.maxInstructions <= max.maxInstructions)
    && (asked.maxMemoryPages == 0 || asked.maxMemoryPages <= max.maxMemoryPages)
    && (asked.maxStackBytes == 0 || asked.maxStackBytes <= max.maxStackBytes)
    && (asked.timeout == 0 || asked.timeout <= max.timeout)
    && (asked.maxOutputBytes == 0 || asked.maxOutputBytes <= max.maxOutputBytes)
  }

  /** The module has been published, and not withdrawn since. */
  predicate Runnable(m: M.Module) {
    m.publishedAt.Some? && m.withdrawnAt.None?
  }

  /** The module, if there is one, stands for the request up to the given check. */
  predicate Owned(shelf: M.Shelf, req: Request) {
    req.moduleId in shelf.modules && shelf.modules[req.moduleId].tenantId == req.tenantId
  }

  predicate Offered(shelf: M.Shelf, req: Request) {
    Owned(shelf, req) && Runnable(shelf.modules[req.moduleId])
  }

  predicate Permitted(shelf: M.Shelf, req: Request) {
    Offered(shelf, req) && Invocable(shelf.modules[req.moduleId], req)
  }

  /** The record of a request: of its tenant and its module, by the module's version and the digest
      of its content, with each limit the request's own or else the service's, waiting and blank. */
  predicate Describes(cfg: Config, shelf: M.Shelf, req: Request, id: Id, now: Nanos, e: Execution) {
    var t := e.ticket;
    && req.moduleId in shelf.modules && req.moduleId in shelf.contents
    && t.id == id && t.tenantId == req.tenantId && t.moduleId == req.moduleId
    && t.moduleVersion == shelf.modules[req.moduleId].version
    && t.moduleDigest == cfg.lib.digest(shelf.contents[req.moduleId])
    && Settles(req.budget, cfg.maxBudget, t.budget)
    && t.requestDigest == cfg.requestDigest(req.(budget := t.budget))
    && t.callbackUrl == req.callbackUrl && t.createdAt == now
    && e.status == Queued && e.errorClass == ErrNone && e.fault == NoFault && e.report == NO_REPORT
    && e.nodeId == "" && e.startedAt.None? && e.finishedAt.None?
  }

  lemma ChecksAre(cfg: Config, shelf: M.Shelf, req: Request)
    requires M.Coherent(cfg.lib, shelf) && req.moduleId in shelf.modules
    ensures var m := shelf.modules[req.moduleId];
            && (M.IsRunnable(m) <==> Runnable(m)) && (InvocationOk(m, req) <==> Invocable(m, req))
            && (Validate(Normalize(req.budget, cfg.maxBudget), cfg.maxBudget) <==> Modest(req.budget, cfg.maxBudget))
  {
    hide Normalize, Validate;
    assert M.Described(cfg.lib, shelf, req.moduleId);
    BudgetAcceptedExactly(req.budget, cfg.maxBudget);
  }

  lemma AsksFor(cfg: Config, s: State, req: Request, id: Id)
    requires M.Coherent(cfg.lib, s.disk.shelf) && req.moduleId in s.disk.shelf.modules
    ensures Describes(cfg, s.disk.shelf, req, id, s.now,
                      NewExecution(cfg, id, req, s.disk.shelf.modules[req.moduleId], s.now))
  {
    hide Normalize;
    assert M.Described(cfg.lib, s.disk.shelf, req.moduleId);
    BudgetAcceptedExactly(req.budget, cfg.maxBudget);
  }

  /** A submission whose key is new is admitted if and only if its module is there, is its tenant's,
      is published and not withdrawn, allows the invocation, and the budget is within the service's;
      it is refused for the first of these that is not so. */
  lemma AdmitsExactly(cfg: Config, s: State, req: Request, dead: bool, id: Id)
    requires M.Coherent(cfg.lib, s.disk.shelf)
    ensures var shelf, step := s.disk.shelf, AskStep(cfg, s, req, dead, id);
            && (step == Answered(None, ContextCanceled) <==> dead)
            && (step == Answered(None, NotFound) <==> !dead && req.moduleId !in shelf.modules)
            && (step == Answered(None, NotOwner) <==>
                  !dead && req.moduleId in shelf.modules && !Owned(shelf, req))
            && (step == Answered(None, NotPublished) <==> !dead && Owned(shelf, req) && !Offered(shelf, req))
            && (step == Answered(None, BadInvocation) <==> !dead && Offered(shelf, req) && !Permitted(shelf, req))
            && (step == Answered(None, OverBudget) <==>
                  !dead && Permitted(shelf, req) && !Modest(req.budget, cfg.maxBudget))
            && (step.Creating? <==> !dead && Permitted(shelf, req) && Modest(req.budget, cfg.maxBudget))
            && (step.Creating? ==> step.req == req && Describes(cfg, shelf, req, id, s.now, step.e))
  {
    hide Normalize, Validate, NewExecution, Describes, Runnable, M.IsRunnable, Invocable, InvocationOk, Modest;
    if req.moduleId in s.disk.shelf.modules {
      ChecksAre(cfg, s.disk.shelf, req);
      AsksFor(cfg, s, req, id);
    }
  }

  /** Before that, a request that names no tenant or no module is refused, and one whose key has an
      entry is answered with the execution that the entry points to. */
  lemma FindsExactly(s: State, req: Request, dead: bool)
    ensures var step, entry := FindStep(s, req, dead), req.tenantId + ":" + req.key;
            var known := entry in s.disk.idempotency && s.disk.idempotency[entry] in s.disk.executions;
            && (step == Answered(None, Blank) <==> req.tenantId == "" || req.moduleId == "")
            && (step.Answered? && step.fault != Blank <==>
                  req.tenantId != "" && req.moduleId != "" && req.key != "" && !dead && known)
            && (step.Answered? && step.fault != Blank ==>
                  step == Answered(Some(s.disk.executions[s.disk.idempotency[entry]]), NoFault))
            && (!step.Answered? ==> step == Asking(req))
  {
    assert req.tenantId + ":" + req.key == req.tenantId + (":" + req.key);
  }

  // ---- The rest of a submission ----

  /** The state but for a call's step. */
  predicate OnlyGoesOn(s: State, s': State, c: nat, step: CallStep) {
    c in s.calls && s' == s.(calls := s.calls[c := Call(step, s.calls[c].dead)])
  }

  /** The record is stored under its identifier, and that is all the store has gained. */
  predicate Creates(s: State, e: Execution, s': State) {
    && s'.disk.executions == s.disk.executions[e.ticket.id := e]
    && s'.svc == s.svc && s'.pool == s.pool && s'.disk.idempotency == s.disk.idempotency
  }

  /** The record is created exactly on a live context and under a free identifier. */
  lemma CreatesExactly(cfg: Config, s: State, c: nat, x: Id, e: Execution, req: Request, dead: bool)
    requires c in s.calls && CallAt(s, c) == Call(Creating(e, req), dead)
    ensures var s', taken := Proceed(cfg, s, c, x), e.ticket.id in s.disk.executions;
            && (dead ==> OnlyGoesOn(s, s', c, Answered(None, ContextCanceled)))
            && (!dead && taken ==> OnlyGoesOn(s, s', c, Answered(None, AlreadyExists)))
            && (!dead && !taken ==>
                  Creates(s, e, s') && CallAt(s', c) == Call(Saving(e, req.key, req.payload), false))
  {
  }

  /** Its key is entered exactly when it has one and its context is live. */
  lemma EntersExactly(cfg: Config, s: State, c: nat, x: Id, e: Execution, key: string, payload: Bytes, dead: bool)
    requires c in s.calls && CallAt(s, c) == Call(Saving(e, key, payload), dead)
    ensures var s', entries := Proceed(cfg, s, c, x), s.disk.idempotency;
            && CallAt(s', c) == Call(Putting(e, payload), dead)
            && s'.svc == s.svc && s'.pool == s.pool && s'.disk.executions == s.disk.executions
            && s'.disk.idempotency
               == if dead || key == "" then entries else entries[e.ticket.tenantId + ":" + key := e.ticket.id]
  {
    assert e.ticket.tenantId + ":" + key == e.ticket.tenantId + (":" + key);
  }

  /** Its payload is put where its run will find it. */
  lemma PutsExactly(cfg: Config, s: State, c: nat, x: Id, e: Execution, payload: Bytes, dead: bool)
    requires c in s.calls && CallAt(s, c) == Call(Putting(e, payload), dead)
    ensures var s' := Proceed(cfg, s, c, x);
            && CallAt(s', c) == Call(Scheduling(e), dead) && s'.disk == s.disk && s'.pool == s.pool
            && PayloadOf(s', e.ticket.id) == payload
            && s'.svc == s.svc.(payloads := s'.svc.payloads)
            && forall id :: id != e.ticket.id ==> PayloadOf(s', id) == PayloadOf(s, id)
  {
  }

  /** The job is at the end of its tenant's, and a token is in the channel. */
  ghost predicate Queues(s: State, e: Execution, s': State) {
    && Q.Valid(s.pool.queue) && s'.pool.notified
    && s'.pool.queue == Q.Enqueue(s.pool.queue, Q.Job(e.ticket.id, e.ticket.tenantId, s.now, 0))
  }

  predicate Unavailable(e: Execution, fault: Fault, e': Execution) {
    && e'.status == Failed && e'.errorClass == ErrUnavailable && e'.fault == fault
    && e'.ticket == e.ticket && e'.report == e.report && e'.finishedAt == e.finishedAt
    && e'.startedAt == e.startedAt && e'.nodeId == e.nodeId
  }

  predicate RevertsAs(step: CallStep, e: Execution, fault: Fault) {
    step.Reverting? && Unavailable(e, fault, step.e)
  }

  /** It is queued exactly on a live context and an open queue, and answered as created; or else it is
      about to be stored as failed for being unavailable. */
  lemma SchedulesExactly(cfg: Config, s: State, c: nat, x: Id, e: Execution, dead: bool)
    requires c in s.calls && CallAt(s, c) == Call(Scheduling(e), dead) && Q.Valid(s.pool.queue)
    ensures var s' := Proceed(cfg, s, c, x);
            && s'.disk == s.disk && s'.svc == s.svc
            && (!dead && !s.pool.closed ==> Queues(s, e, s') && CallAt(s', c).step == Answered(Some(e), NoFault))
            && (dead ==> s'.pool == s.pool && RevertsAs(CallAt(s', c).step, e, ContextCanceled))
            && (!dead && s.pool.closed ==> s'.pool == s.pool && RevertsAs(CallAt(s', c).step, e, QueueShut))
  {
  }

  /** That is stored exactly on a live context, and answered with its error either way. */
  lemma RevertsExactly(cfg: Config, s: State, c: nat, x: Id, e: Execution, dead: bool)
    requires c in s.calls && CallAt(s, c) == Call(Reverting(e), dead) && e.ticket.id in s.disk.executions
    ensures var s' := Proceed(cfg, s, c, x);
            && CallAt(s', c).step == Answered(Some(e), e.fault) && s'.svc == s.svc && s'.pool == s.pool
            && (dead ==> s'.disk == s.disk)
            && (!dead ==> s'.disk.executions == s.disk.executions[e.ticket.id := e])
  {
  }

  // ---- What the budget means for the execution ----

  function Given(own: nat, service: nat): nat {
    if own != 0 then own else service
  }

  /** An execution that is stopped for a limit demands more than the limit its request gave, or more
      than the service's where its request gave none. */
  lemma StoppedBeyondLimits(cfg: Config, s: State, id: Id)
    requires OutputsOk(cfg, s) && id in s.disk.executions
    requires s.disk.executions[id].errorClass == ErrResource && IsLimit(s.disk.executions[id].fault)
    ensures id in s.hist.past.asked
    ensures var e, asked, max := s.disk.executions[id], s.hist.past.asked[id].budget, cfg.maxBudget;
            && TicketOk(s.disk.shelf, e.ticket) && Made(cfg, s.disk.shelf, e.ticket).Ready?
            && var p := Made(cfg, s.disk.shelf, e.ticket).compiled.program;
               && (e.fault == InstructionLimit ==>
                     p.instructionCost > Given(asked.maxInstructions, max.maxInstructions))
               && (e.fault == MemoryLimit ==> p.memoryPages > Given(asked.maxMemoryPages, max.maxMemoryPages))
               && (e.fault == StackLimit ==> p.stackBytes > Given(asked.maxStackBytes, max.maxStackBytes))
  {
    hide Normalize;
    ExhaustedMeans(cfg, s, id);
    assert AskedFor(cfg, s.hist.past, s.disk.executions[id].ticket);
    BudgetAcceptedExactly(s.hist.past.asked[id].budget, cfg.maxBudget);
  }

  /** So a request that leaves its limits to the service is never stopped for them by a program whose
      demands are within the service's. */
  lemma DefaultsSuffice(cfg: Config, s: State, id: Id)
    requires OutputsOk(cfg, s) && id in s.disk.executions && id in s.hist.past.asked
    requires var asked := s.hist.past.asked[id].budget;
             asked.maxInstructions == 0 && asked.maxMemoryPages == 0 && asked.maxStackBytes == 0
    requires TicketOk(s.disk.shelf, s.disk.executions[id].ticket)
    requires var made := Made(cfg, s.disk.shelf, s.disk.executions[id].ticket);
             made.Ready? ==>
               && made.compiled.program.instructionCost <= cfg.maxBudget.maxInstructions
               && made.compiled.program.memoryPages <= cfg.maxBudget.maxMemoryPages
               && made.compiled.program.stackBytes <= cfg.maxBudget.maxStackBytes
    ensures !(s.disk.executions[id].errorClass == ErrResource && IsLimit(s.disk.executions[id].fault))
  {
    var e := s.disk.executions[id];
    if e.errorClass == ErrResource && IsLimit(e.fault) { StoppedBeyondLimits(cfg, s, id); }
  }
}
