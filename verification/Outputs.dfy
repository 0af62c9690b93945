/** What a record stands for: a stored success is the result of executing, within its budget, the
    program compiled from its module's content on the payload of its own request, and a stored
    failure for resources has a demand or a quota behind it, whatever was cached, and whatever
    else went on. */
module Outputs {
  import opened Common
  import opened Executions
  import opened Simulation
  import opened ControlPlane
  import opened Custody
  import opened Records
  import opened Transparency
  import C = Caching
  import R = Resources
  import M = Modules
  import S = Stores

  // ---- What a record goes back to ----

  /** The record was created for this request. */
  predicate Asks(cfg: Config, ticket: Ticket, req: Request) {
    && req.tenantId == ticket.tenantId && req.moduleId == ticket.moduleId
    && Normalize(req.budget, cfg.maxBudget) == ticket.budget
    && cfg.requestDigest(req.(budget := ticket.budget)) == ticket.requestDigest
  }

  /** The request remembered for a record is the one it was created for. */
  predicate AskedFor(cfg: Config, past: Past, ticket: Ticket) {
    ticket.id in past.asked && Asks(cfg, ticket, past.asked[ticket.id])
  }

  /** The record names a registered module of its tenant, by its digest. */
  predicate TicketOk(shelf: M.Shelf, ticket: Ticket) {
    && ticket.moduleId in shelf.modules && ticket.moduleId in shelf.contents
    && shelf.modules[ticket.moduleId].digest == ticket.moduleDigest
    && shelf.modules[ticket.moduleId].tenantId == ticket.tenantId
  }

  /** What compiling the content of the record's module gives. */
  function Made(cfg: Config, shelf: M.Shelf, ticket: Ticket): CompileResult
    requires TicketOk(shelf, ticket)
  {
    Translate(cfg.lib, cfg.version, shelf.contents[ticket.moduleId], ticket.moduleDigest)
  }

  function ReportOf(cfg: Config, r: Result): Report {
    Report(r.usage, r.output, cfg.lib.digest(r.output), r.truncated, r.exitCode)
  }

  /** Executing the compiled module on the payload gives the report. */
  predicate Gives(cfg: Config, made: CompileResult, entry: string, payload: Bytes, budget: Budget, cpu: nat,
      report: Report) {
    && made.Ready?
    && var o := Execute(cfg.lib, false, Live, made.compiled, entry, payload, budget, cpu);
       o.Done? && report == ReportOf(cfg, o.result)
  }

  /** A success is what executing its module on its own request's payload gives. */
  ghost predicate Earned(cfg: Config, shelf: M.Shelf, past: Past, e: Execution) {
    && AskedFor(cfg, past, e.ticket) && TicketOk(shelf, e.ticket)
    && var entry, payload := shelf.modules[e.ticket.moduleId].entry, past.asked[e.ticket.id].payload;
       exists cpu: nat :: Gives(cfg, Made(cfg, shelf, e.ticket), entry, payload, e.ticket.budget, cpu, e.report)
  }

  /** The quota stands against the budget for the reason given. */
  predicate Denies(q: R.Quota, b: Budget, fault: Fault) {
    match fault
    case NoSlot => q.active >= q.limits.concurrent
    case TooManyPages => b.maxMemoryPages > q.limits.memoryPages
    case CpuSpent => q.cpuUsed >= q.limits.cpuPerMinute
    case _ => false
  }

  /** The program demands more than the budget for the reason given. */
  predicate Exceeds(p: Program, b: Budget, fault: Fault) {
    match fault
    case InstructionLimit => p.instructionCost > b.maxInstructions
    case MemoryLimit => p.memoryPages > b.maxMemoryPages
    case StackLimit => p.stackBytes > b.maxStackBytes
    case _ => false
  }

  /** A failure for resources has a quota that the execution met behind it, or a demand of its
      module's program. */
  ghost predicate Exhausted(cfg: Config, shelf: M.Shelf, past: Past, e: Execution) {
    if IsLimit(e.fault) then
      TicketOk(shelf, e.ticket) && var made := Made(cfg, shelf, e.ticket);
      made.Ready? && Exceeds(made.compiled.program, e.ticket.budget, e.fault)
    else exists q :: (e.ticket.id, q) in past.denied && Denies(q, e.ticket.budget, e.fault)
  }

  ghost predicate Accounted(cfg: Config, shelf: M.Shelf, past: Past, e: Execution) {
    && (e.status == Succeeded ==> Earned(cfg, shelf, past, e))
    && (e.errorClass == ErrResource ==> Exhausted(cfg, shelf, past, e))
  }

  // ---- The invariant ----

  predicate Before(w: Worker) {
    AtDoor(w) || AtLease(w) || AtLoad(w) || w.Executing?
  }

  /** The execution has been given its payload and has not taken it yet. */
  predicate Due(place: map<Id, Place>, workers: seq<Worker>, calls: map<nat, Call>, id: Id) {
    id in place &&
    match place[id]
    case Submitting(c) => c in calls && calls[c].step.Scheduling?
    case Waiting => true
    case Held(w) => w < |workers| && Before(workers[w])
    case Gone => false
  }

  /** A payload that waits is that of the execution's own request. */
  predicate Holds(past: Past, payloads: map<Id, Bytes>, id: Id) {
    id in payloads && id in past.asked && payloads[id] == past.asked[id].payload
  }

  ghost predicate PayloadsOk(s: State) {
    forall id :: Due(s.hist.place, s.pool.workers, s.calls, id) ==>
      id in s.disk.executions && Holds(s.hist.past, s.svc.payloads, id)
  }

  predicate CallAsked(cfg: Config, shelf: M.Shelf, past: Past, step: CallStep) {
    match step
    case Creating(e, req) => Asks(cfg, e.ticket, req) && TicketOk(shelf, e.ticket)
    case Saving(e, _, payload) => e.ticket.id in past.asked && payload == past.asked[e.ticket.id].payload
    case Putting(e, payload) => e.ticket.id in past.asked && payload == past.asked[e.ticket.id].payload
    case Reverting(e) => e.errorClass == ErrUnavailable
    case _ => true
  }

  ghost predicate WorkerTied(cfg: Config, shelf: M.Shelf, past: Past, live: bool, w: Worker) {
    && (HasModule(w) ==> w.m.id == w.e.ticket.moduleId)
    && (w.Aborting? ==> w.e.status == Failed && w.e.errorClass != ErrResource)
    && (w.Rejecting? ==> w.e.status == Failed && (live ==> Accounted(cfg, shelf, past, w.e)))
    && (w.Finishing? ==> Accounted(cfg, shelf, past, w.e))
  }

  ghost predicate RecordsAccounted(cfg: Config, shelf: M.Shelf, past: Past, executions: map<Id, Execution>) {
    && past.asked.Keys == executions.Keys
    && forall id :: id in executions ==>
         && executions[id].ticket.id == id
         && AskedFor(cfg, past, executions[id].ticket) && TicketOk(shelf, executions[id].ticket)
         && Accounted(cfg, shelf, past, executions[id])
  }

  ghost predicate CallsAsked(cfg: Config, shelf: M.Shelf, past: Past, calls: map<nat, Call>) {
    forall c :: c in calls ==> CallAsked(cfg, shelf, past, calls[c].step)
  }

  ghost predicate WorkersTied(cfg: Config, shelf: M.Shelf, past: Past, live: bool, workers: seq<Worker>) {
    forall w :: 0 <= w < |workers| ==> WorkerTied(cfg, shelf, past, live, workers[w])
  }

  ghost predicate OutputsOk(cfg: Config, s: State) {
    && RecordsAccounted(cfg, s.disk.shelf, s.hist.past, s.disk.executions)
    && PayloadsOk(s)
    && CallsAsked(cfg, s.disk.shelf, s.hist.past, s.calls)
    && WorkersTied(cfg, s.disk.shelf, s.hist.past, s.pool.live, s.pool.workers)
  }

  // ---- What is remembered is kept ----

  ghost predicate Remembers(before: Past, after: Past) {
    && before.denied <= after.denied && before.stops <= after.stops
    && forall id :: id in before.asked ==> id in after.asked && after.asked[id] == before.asked[id]
  }

  lemma TicketOn(before: M.Shelf, after: M.Shelf, ticket: Ticket)
    requires M.Keeps(before, after) && TicketOk(before, ticket)
    ensures TicketOk(after, ticket)
    ensures after.modules[ticket.moduleId].entry == before.modules[ticket.moduleId].entry
    ensures after.contents[ticket.moduleId] == before.contents[ticket.moduleId]
  {
    M.SameIdentity(before.modules[ticket.moduleId], after.modules[ticket.moduleId]);
  }

  lemma ExhaustedOn(cfg: Config, before: M.Shelf, after: M.Shelf, past: Past, past': Past, e: Execution)
    requires M.Keeps(before, after) && Remembers(past, past') && Exhausted(cfg, before, past, e)
    ensures Exhausted(cfg, after, past', e)
  {
    if IsLimit(e.fault) {
      TicketOn(before, after, e.ticket);
    } else {
      var q :| (e.ticket.id, q) in past.denied && Denies(q, e.ticket.budget, e.fault);
      assert (e.ticket.id, q) in past'.denied;
    }
  }

  lemma EarnedOn(cfg: Config, before: M.Shelf, after: M.Shelf, past: Past, past': Past, e: Execution)
    requires M.Keeps(before, after) && Remembers(past, past') && Earned(cfg, before, past, e)
    ensures Earned(cfg, after, past', e)
  {
    TicketOn(before, after, e.ticket);
    var entry, payload := before.modules[e.ticket.moduleId].entry, past.asked[e.ticket.id].payload;
    var cpu: nat :| Gives(cfg, Made(cfg, before, e.ticket), entry, payload, e.ticket.budget, cpu, e.report);
    assert Gives(cfg, Made(cfg, after, e.ticket), entry, payload, e.ticket.budget, cpu, e.report);
  }

  lemma AccountedOn(cfg: Config, before: M.Shelf, after: M.Shelf, past: Past, past': Past, e: Execution)
    requires M.Keeps(before, after) && Remembers(past, past') && Accounted(cfg, before, past, e)
    ensures Accounted(cfg, after, past', e)
  {
    if e.errorClass == ErrResource { ExhaustedOn(cfg, before, after, past, past', e); }
    if e.status == Succeeded { EarnedOn(cfg, before, after, past, past', e); }
  }

  lemma SameShelf(shelf: M.Shelf)
    ensures M.Keeps(shelf, shelf)
  {
  }

  // ---- Executing ----

  /** A completed execution did not depend on what its context or the runtime became. */
  lemma DoneOnLive(lib: Library, closed: bool, ctx: Ctx, m: Compiled, entry: string, payload: Bytes, b: Budget,
      cpu: nat)
    requires Execute(lib, closed, ctx, m, entry, payload, b, cpu).Done?
    ensures Execute(lib, false, Live, m, entry, payload, b, cpu) == Execute(lib, closed, ctx, m, entry, payload, b, cpu)
  {
  }

  lemma LimitIsExceeded(lib: Library, closed: bool, ctx: Ctx, m: Compiled, entry: string, payload: Bytes, b: Budget,
      cpu: nat)
    requires var o := Execute(lib, closed, ctx, m, entry, payload, b, cpu); o.Stopped? && IsLimit(o.fault)
    ensures Exceeds(m.program, b, Execute(lib, closed, ctx, m, entry, payload, b, cpu).fault)
  {
  }

  lemma ConcludedIs(cfg: Config, e: Execution, o: Outcome, now: Nanos)
    requires !o.Crashed?
    ensures var e' := Conclude(cfg, e, o, now);
            && e'.ticket == e.ticket
            && (e'.status == Succeeded ==> o.Done? && e'.report == ReportOf(cfg, o.result))
            && (e'.errorClass == ErrResource ==> o.Stopped? && e'.fault == o.fault && IsLimit(o.fault))
  {
  }

  lemma ExecutionIsAccounted(cfg: Config, s: State, e: Execution, m: M.Module, compiled: Compiled, input: Input,
      o: Outcome)
    requires TicketOk(s.disk.shelf, e.ticket) && m.id == e.ticket.moduleId && OnShelf(s.disk.shelf, m)
    requires Translate(cfg.lib, cfg.version, s.disk.shelf.contents[m.id], m.digest) == Ready(compiled)
    requires o == OutcomeOf(cfg, s, e, m, compiled, input) && !o.Crashed?
    requires AskedFor(cfg, s.hist.past, e.ticket) && Holds(s.hist.past, s.svc.payloads, e.ticket.id)
    ensures Accounted(cfg, s.disk.shelf, s.hist.past, Conclude(cfg, e, o, s.now))
  {
    var e' := Conclude(cfg, e, o, s.now);
    var payload := s.svc.payloads[e.ticket.id];
    ConcludedIs(cfg, e, o, s.now);
    M.SameIdentity(m, s.disk.shelf.modules[m.id]);
    assert Made(cfg, s.disk.shelf, e.ticket) == Ready(compiled);
    if e'.status == Succeeded {
      DoneOnLive(cfg.lib, s.svc.runtimeClosed, input.ctx, compiled, m.entry, payload, e.ticket.budget, input.cpu);
      assert Gives(cfg, Ready(compiled), m.entry, payload, e.ticket.budget, input.cpu, e'.report);
    }
    if e'.errorClass == ErrResource {
      LimitIsExceeded(cfg.lib, s.svc.runtimeClosed, input.ctx, compiled, m.entry, payload, e.ticket.budget, input.cpu);
    }
  }

  // ---- One step of a worker ----

  lemma PastGrows(s: State, p: Worker, ctx: Ctx, next: Worker)
    ensures Remembers(s.hist.past, PastAfter(s, p, ctx, next)) && PastAfter(s, p, ctx, next).asked == s.hist.past.asked
  {
  }

  ghost predicate OutputTurn(cfg: Config, s: State, p: Worker, ctx: Ctx, t: Turn) {
    && WorkerTied(cfg, s.disk.shelf, PastAfter(s, p, ctx, t.next), s.pool.live, t.next)
    && (t.write.Some? ==> Accounted(cfg, s.disk.shelf, s.hist.past, t.write.value))
    && (Before(t.next) && HeldId(t.next).Some? ==> Before(p))
    && t.svc.payloads == (if p.Executing? then s.svc.payloads - {p.e.ticket.id} else s.svc.payloads)
    && (p.Executing? ==> !Before(t.next))
  }

  lemma DoorOutput(cfg: Config, s: State, w: nat, input: Input)
    requires w < |s.pool.workers| && AtDoor(WorkerAt(s, w)) && !WorkerAt(s, w).Resolving?
    ensures OutputTurn(cfg, s, WorkerAt(s, w), input.ctx, TurnOf(cfg, s, w, input))
  {
  }

  lemma ResolveOutput(cfg: Config, s: State, e: Execution, ctx: Ctx)
    requires M.Coherent(cfg.lib, s.disk.shelf)
    ensures OutputTurn(cfg, s, Resolving(e), ctx, ResolveTurn(s, e))
  {
    if e.ticket.moduleId in s.disk.shelf.modules {
      assert M.Described(cfg.lib, s.disk.shelf, e.ticket.moduleId);
    }
  }

  /** A denial on a live pool has the quota it met behind it. */
  lemma AcquireOutput(cfg: Config, s: State, e: Execution, m: M.Module, ctx: Ctx)
    requires m.id == e.ticket.moduleId
    ensures OutputTurn(cfg, s, Acquiring(e, m), ctx, AcquireTurn(s, e, m))
  {
    var p, t := Acquiring(e, m), AcquireTurn(s, e, m);
    var q := R.QuotaAt(s.svc.books, e.ticket.tenantId, s.now);
    if t.next.Rejecting? && s.pool.live {
      assert (e.ticket.id, q) in PastAfter(s, p, ctx, t.next).denied && Denies(q, e.ticket.budget, t.next.e.fault);
    }
  }

  lemma LeaseOutput(cfg: Config, s: State, w: nat, input: Input)
    requires w < |s.pool.workers| && AtLease(WorkerAt(s, w)) && !WorkerAt(s, w).Acquiring?
    requires WorkerTied(cfg, s.disk.shelf, s.hist.past, s.pool.live, WorkerAt(s, w))
    requires CleanAtMark(WorkerAt(s, w))
    ensures OutputTurn(cfg, s, WorkerAt(s, w), input.ctx, TurnOf(cfg, s, w, input))
  {
  }

  lemma LoadOutput(cfg: Config, s: State, w: nat, input: Input)
    requires w < |s.pool.workers| && AtLoad(WorkerAt(s, w))
    requires WorkerTied(cfg, s.disk.shelf, s.hist.past, s.pool.live, WorkerAt(s, w))
    ensures OutputTurn(cfg, s, WorkerAt(s, w), input.ctx, TurnOf(cfg, s, w, input))
  {
    hide C.Get, Compile, Behind, Earned, Exhausted;
  }

  lemma ExecuteOutput(cfg: Config, s: State, p: Worker, input: Input)
    requires p.Executing? && WorkerTied(cfg, s.disk.shelf, s.hist.past, s.pool.live, p)
    requires WorkerFaithful(cfg, s.disk.shelf, p)
    requires TicketOk(s.disk.shelf, p.e.ticket) && AskedFor(cfg, s.hist.past, p.e.ticket)
    requires Holds(s.hist.past, s.svc.payloads, p.e.ticket.id)
    requires !OutcomeOf(cfg, s, p.e, p.m, p.compiled, input).Crashed?
    ensures OutputTurn(cfg, s, p, input.ctx, ExecuteTurn(cfg, s, p.e, p.m, p.compiled, input))
  {
    hide Conclude, Execute, Accounted, PastAfter, TicketOk;
    var o, t := OutcomeOf(cfg, s, p.e, p.m, p.compiled, input), ExecuteTurn(cfg, s, p.e, p.m, p.compiled, input);
    ExecutionIsAccounted(cfg, s, p.e, p.m, p.compiled, input, o);
    ConcludedIs(cfg, p.e, o, s.now);
    PastGrows(s, p, input.ctx, t.next);
    SameShelf(s.disk.shelf);
    AccountedOn(cfg, s.disk.shelf, s.disk.shelf, s.hist.past, PastAfter(s, p, input.ctx, t.next), t.next.e);
  }

  lemma EndOutput(cfg: Config, s: State, w: nat, input: Input)
    requires w < |s.pool.workers| && AtEnd(WorkerAt(s, w))
    requires WorkerTied(cfg, s.disk.shelf, s.hist.past, s.pool.live, WorkerAt(s, w))
    ensures OutputTurn(cfg, s, WorkerAt(s, w), input.ctx, TurnOf(cfg, s, w, input))
  {
    hide Behind, Earned, Exhausted;
  }

  lemma PayloadHeld(s: State, w: nat)
    requires InCustody(s) && PayloadsOk(s) && w < |s.pool.workers| && WorkerAt(s, w).Executing?
    ensures Holds(s.hist.past, s.svc.payloads, WorkerAt(s, w).e.ticket.id)
  {
    var id := s.pool.workers[w].e.ticket.id;
    assert At(s.hist.place, id, Held(w));
    assert Due(s.hist.place, s.pool.workers, s.calls, id);
  }

  lemma TicketAccounted(cfg: Config, shelf: M.Shelf, past: Past, executions: map<Id, Execution>, live: bool, w: Worker)
    requires RecordsAccounted(cfg, shelf, past, executions) && w.Executing? && WorkerOk(cfg, executions, live, w)
    ensures AskedFor(cfg, past, w.e.ticket) && TicketOk(shelf, w.e.ticket)
  {
  }

  /** A worker about to execute finds the payload of the execution's own request. */
  lemma PayloadIsThere(cfg: Config, s: State, w: nat)
    requires InCustody(s) && RecordsOk(cfg, s) && OutputsOk(cfg, s) && w < |s.pool.workers|
    requires WorkerAt(s, w).Executing?
    ensures var t := WorkerAt(s, w).e.ticket;
            Holds(s.hist.past, s.svc.payloads, t.id) && AskedFor(cfg, s.hist.past, t) && TicketOk(s.disk.shelf, t)
  {
    PayloadHeld(s, w);
    TicketAccounted(cfg, s.disk.shelf, s.hist.past, s.disk.executions, s.pool.live, s.pool.workers[w]);
  }

  predicate CleanAtMark(p: Worker) {
    p.Marking? ==> p.e.errorClass == ErrNone
  }

  lemma UnfinishedIsClean(cfg: Config, s: State, p: Worker)
    requires WorkerOk(cfg, s.disk.executions, s.pool.live, p)
    ensures CleanAtMark(p)
  {
  }

  lemma TurnOutput(cfg: Config, s: State, w: nat, input: Input)
    requires InCustody(s) && RecordsOk(cfg, s) && CacheOk(cfg, s, false) && OutputsOk(cfg, s) && w < |s.pool.workers|
    requires MayWork(cfg, s, w, input)
    ensures OutputTurn(cfg, s, WorkerAt(s, w), input.ctx, TurnOf(cfg, s, w, input))
  {
    var p := s.pool.workers[w];
    assert WorkerOk(cfg, s.disk.executions, s.pool.live, p);
    assert WorkerTied(cfg, s.disk.shelf, s.hist.past, s.pool.live, p) && WorkerFaithful(cfg, s.disk.shelf, p);
    if p.Resolving? { ResolveOutput(cfg, s, p.e, input.ctx); }
    else if AtDoor(p) { DoorOutput(cfg, s, w, input); }
    else if p.Acquiring? { AcquireOutput(cfg, s, p.e, p.m, input.ctx); }
    else if AtLease(p) {
      UnfinishedIsClean(cfg, s, p);
      LeaseOutput(cfg, s, w, input);
    }
    else if AtLoad(p) { LoadOutput(cfg, s, w, input); }
    else if p.Executing? {
      PayloadIsThere(cfg, s, w);
      ExecuteOutput(cfg, s, p, input);
    } else { EndOutput(cfg, s, w, input); }
  }

  lemma RecordsOn(cfg: Config, shelf: M.Shelf, past: Past, past': Past, executions: map<Id, Execution>,
      write: Option<Execution>)
    requires RecordsAccounted(cfg, shelf, past, executions) && Remembers(past, past') && past'.asked == past.asked
    requires write.Some? ==> Linked(executions, write.value) && Accounted(cfg, shelf, past, write.value)
    ensures RecordsAccounted(cfg, shelf, past', Write(executions, write))
  {
    var after := Write(executions, write);
    SameShelf(shelf);
    forall id | id in after
      ensures after[id].ticket.id == id && AskedFor(cfg, past', after[id].ticket)
      ensures TicketOk(shelf, after[id].ticket) && Accounted(cfg, shelf, past', after[id])
    {
      AccountedOn(cfg, shelf, shelf, past, past', after[id]);
    }
  }

  lemma TiedStill(cfg: Config, shelf: M.Shelf, past: Past, past': Past, live: bool, workers: seq<Worker>)
    requires WorkersTied(cfg, shelf, past, live, workers) && Remembers(past, past')
    ensures WorkersTied(cfg, shelf, past', live, workers)
  {
    SameShelf(shelf);
    forall v | 0 <= v < |workers| ensures WorkerTied(cfg, shelf, past', live, workers[v]) {
      assert WorkerTied(cfg, shelf, past, live, workers[v]);
      if workers[v].Finishing? || (workers[v].Rejecting? && live) {
        AccountedOn(cfg, shelf, shelf, past, past', workers[v].e);
      }
    }
  }

  lemma TiedAfter(cfg: Config, shelf: M.Shelf, past: Past, live: bool, workers: seq<Worker>, w: nat, next: Worker)
    requires WorkersTied(cfg, shelf, past, live, workers) && w < |workers| && WorkerTied(cfg, shelf, past, live, next)
    ensures WorkersTied(cfg, shelf, past, live, workers[w := next])
  {
  }

  lemma CallsOn(cfg: Config, shelf: M.Shelf, past: Past, past': Past, calls: map<nat, Call>)
    requires CallsAsked(cfg, shelf, past, calls) && Remembers(past, past')
    ensures CallsAsked(cfg, shelf, past', calls)
  {
    forall c | c in calls ensures CallAsked(cfg, shelf, past', calls[c].step) {
      assert CallAsked(cfg, shelf, past, calls[c].step);
    }
  }

  /** What was due after a worker's step was due before it. */
  lemma DueAfter(place: map<Id, Place>, workers: seq<Worker>, calls: map<nat, Call>, w: nat, next: Worker, id: Id)
    requires WorkersPlaced(place, workers) && w < |workers|
    requires HeldId(next) == HeldId(workers[w]) || HeldId(next) == None ||
             (HeldId(workers[w]) == None && At(place, HeldId(next).value, Waiting))
    requires Before(next) && HeldId(next).Some? ==> Before(workers[w])
    requires Due(Moved(place, w, HeldId(workers[w]), HeldId(next)), workers[w := next], calls, id)
    ensures Due(place, workers, calls, id)
    ensures HeldId(workers[w]) == Some(id) ==> Before(next)
  {
    if HeldId(workers[w]) == Some(id) {
      assert At(place, id, Held(w));
    } else if id in place && place[id].Held? {
      assert HeldId(workers[place[id].worker]) == Some(id);
    }
  }

  lemma WorkKeepsPayloads(cfg: Config, s: State, w: nat, input: Input)
    requires InCustody(s) && PayloadsOk(s) && w < |s.pool.workers|
    requires OutputTurn(cfg, s, WorkerAt(s, w), input.ctx, TurnOf(cfg, s, w, input))
    ensures PayloadsOk(Work(cfg, s, w, input))
  {
    hide TurnOf;
    var p, t, s' := s.pool.workers[w], TurnOf(cfg, s, w, input), Work(cfg, s, w, input);
    TurnHolds(cfg, s, w, input);
    TurnQueue(cfg, s, w, input);
    if HeldId(p) == None && HeldId(t.next).Some? { QueueTaken(s.hist.place, s.pool.queue, w); }
    PastGrows(s, p, input.ctx, t.next);
    forall id | Due(s'.hist.place, s'.pool.workers, s'.calls, id)
      ensures id in s'.disk.executions && Holds(s'.hist.past, s'.svc.payloads, id)
    {
      DueAfter(s.hist.place, s.pool.workers, s.calls, w, t.next, id);
    }
  }

  lemma WorkKeepsAccounts(cfg: Config, s: State, w: nat, input: Input)
    requires RecordsOk(cfg, s) && RecordsAccounted(cfg, s.disk.shelf, s.hist.past, s.disk.executions)
    requires w < |s.pool.workers| && MayWork(cfg, s, w, input)
    requires OutputTurn(cfg, s, WorkerAt(s, w), input.ctx, TurnOf(cfg, s, w, input))
    ensures var t := TurnOf(cfg, s, w, input);
            RecordsAccounted(cfg, s.disk.shelf, PastAfter(s, WorkerAt(s, w), input.ctx, t.next),
                             Write(s.disk.executions, t.write))
  {
    hide TurnOf;
    var t := TurnOf(cfg, s, w, input);
    assert WorkerOk(cfg, s.disk.executions, s.pool.live, s.pool.workers[w]);
    TurnIsFit(cfg, s, w, input);
    PastGrows(s, s.pool.workers[w], input.ctx, t.next);
    var past := PastAfter(s, s.pool.workers[w], input.ctx, t.next);
    RecordsOn(cfg, s.disk.shelf, s.hist.past, past, s.disk.executions, t.write);
  }

  lemma WorkKeepsOutputs(cfg: Config, s: State, w: nat, input: Input)
    requires InCustody(s) && RecordsOk(cfg, s) && CacheOk(cfg, s, false) && OutputsOk(cfg, s) && w < |s.pool.workers|
    requires MayWork(cfg, s, w, input)
    ensures OutputsOk(cfg, Work(cfg, s, w, input))
  {
    hide TurnOf;
    var p, t := s.pool.workers[w], TurnOf(cfg, s, w, input);
    TurnOutput(cfg, s, w, input);
    WorkKeepsAccounts(cfg, s, w, input);
    WorkKeepsPayloads(cfg, s, w, input);
    PastGrows(s, p, input.ctx, t.next);
    TiedStill(cfg, s.disk.shelf, s.hist.past, PastAfter(s, p, input.ctx, t.next), s.pool.live, s.pool.workers);
    TiedAfter(cfg, s.disk.shelf, PastAfter(s, p, input.ctx, t.next), s.pool.live, s.pool.workers, w, t.next);
    CallsOn(cfg, s.disk.shelf, s.hist.past, PastAfter(s, p, input.ctx, t.next), s.calls);
  }

  // ---- One step of a call ----

  lemma CreationIsAsked(cfg: Config, s: State, req: Request, dead: bool, id: Id)
    requires M.Coherent(cfg.lib, s.disk.shelf)
    ensures CallAsked(cfg, s.disk.shelf, s.hist.past, AskStep(cfg, s, req, dead, id))
  {
    if req.moduleId in s.disk.shelf.modules {
      assert M.Described(cfg.lib, s.disk.shelf, req.moduleId);
    }
  }

  lemma SubmitAsked(cfg: Config, s: State, c: nat, x: Id)
    requires M.Coherent(cfg.lib, s.disk.shelf) && c in s.calls
    requires CallAsked(cfg, s.disk.shelf, s.hist.past, CallAt(s, c).step)
    requires CallAt(s, c).step.Finding? || MidSubmit(CallAt(s, c).step)
    ensures var s' := Proceed(cfg, s, c, x); CallAsked(cfg, s'.disk.shelf, s'.hist.past, CallAt(s', c).step)
  {
    if s.calls[c].step.Asking? {
      CreationIsAsked(cfg, s, s.calls[c].step.req, s.calls[c].dead, x);
    }
  }

  lemma CancelAsked(cfg: Config, s: State, c: nat, x: Id)
    requires c in s.calls && !(CallAt(s, c).step.Finding? || MidSubmit(CallAt(s, c).step))
    ensures var s' := Proceed(cfg, s, c, x);
            && CallAsked(cfg, s'.disk.shelf, s'.hist.past, CallAt(s', c).step) && !CallAt(s', c).step.Scheduling?
  {
  }

  /** What is remembered after a call's step. */
  function PastCalled(s: State, c: nat): Past {
    match CallAt(s, c).step
    case Creating(e, req) =>
      if CallAt(s, c).dead || e.ticket.id in s.disk.executions then s.hist.past
      else s.hist.past.(asked := s.hist.past.asked[e.ticket.id := req])
    case _ => s.hist.past
  }

  lemma ProceedPast(cfg: Config, s: State, c: nat, x: Id)
    requires c in s.calls
    ensures var s' := Proceed(cfg, s, c, x);
            s'.hist.past == PastCalled(s, c) && s'.disk.shelf == s.disk.shelf && s'.pool.live == s.pool.live
  {
  }

  /** A new identifier's request is remembered beside the others. */
  lemma CallRemembers(cfg: Config, s: State, c: nat)
    requires c in s.calls && s.hist.past.asked.Keys == s.disk.executions.Keys
    ensures Remembers(s.hist.past, PastCalled(s, c))
    ensures var write := if CallAt(s, c).step.Creating? then CallWrite(s, c) else None;
            PastCalled(s, c).asked.Keys == Put(s.disk.executions, write).Keys
  {
  }

  lemma CallWriteAccounted(cfg: Config, s: State, c: nat)
    requires c in s.calls && CallOk(cfg, s.disk.executions, CallAt(s, c).step)
    requires CallAsked(cfg, s.disk.shelf, s.hist.past, CallAt(s, c).step)
    ensures var write := CallWrite(s, c);
            write.Some? ==>
              && write.value.status != Succeeded && write.value.errorClass != ErrResource
              && (CallAt(s, c).step.Creating? ==>
                    AskedFor(cfg, PastCalled(s, c), write.value.ticket) && TicketOk(s.disk.shelf, write.value.ticket))
  {
  }

  lemma RecordsPut(cfg: Config, shelf: M.Shelf, past: Past, past': Past, executions: map<Id, Execution>,
      write: Option<Execution>)
    requires RecordsAccounted(cfg, shelf, past, executions) && Remembers(past, past')
    requires past'.asked.Keys == Put(executions, write).Keys
    requires write.Some? ==> write.value.status != Succeeded && write.value.errorClass != ErrResource
    requires write.Some? && !Linked(executions, write.value) ==>
               AskedFor(cfg, past', write.value.ticket) && TicketOk(shelf, write.value.ticket)
    ensures RecordsAccounted(cfg, shelf, past', Put(executions, write))
  {
    var after := Put(executions, write);
    SameShelf(shelf);
    forall id | id in after
      ensures after[id].ticket.id == id && AskedFor(cfg, past', after[id].ticket)
      ensures TicketOk(shelf, after[id].ticket) && Accounted(cfg, shelf, past', after[id])
    {
      if id in executions && (write.None? || write.value.ticket.id != id) {
        AccountedOn(cfg, shelf, shelf, past, past', after[id]);
      }
    }
  }

  /** The call's next step gives the execution its payload. */
  predicate GivesPayload(step: CallStep, id: Id) {
    step.Putting? && step.e.ticket.id == id
  }

  lemma OnlyPuttingSchedules(cfg: Config, s: State, c: nat, x: Id)
    requires c in s.calls && (CallAt(s, c).step.Finding? || MidSubmit(CallAt(s, c).step))
    ensures CallAt(Proceed(cfg, s, c, x), c).step.Scheduling? ==> CallAt(s, c).step.Putting?
  {
  }

  lemma QuietDue(place: map<Id, Place>, workers: seq<Worker>, calls: map<nat, Call>, c: nat, call: Call, id: Id)
    requires CallsPlaced(place, calls) && c in calls && SubmitId(call.step) == SubmitId(calls[c].step)
    requires call.step.Scheduling? ==> calls[c].step.Putting?
    requires Due(place, workers, calls[c := call], id)
    ensures Due(place, workers, calls, id) || GivesPayload(calls[c].step, id)
  {
    if id in place && place[id].Submitting? {
      assert SubmitId(calls[place[id].call].step) == Some(id);
    }
  }

  lemma SubmitDue(cfg: Config, s: State, c: nat, x: Id, id: Id)
    requires InCustody(s) && c in s.calls && (CallAt(s, c).step.Finding? || MidSubmit(CallAt(s, c).step))
    requires Due(Proceed(cfg, s, c, x).hist.place, s.pool.workers, Proceed(cfg, s, c, x).calls, id)
    ensures Due(s.hist.place, s.pool.workers, s.calls, id) || GivesPayload(CallAt(s, c).step, id)
  {
    hide Proceed;
    var s' := Proceed(cfg, s, c, x);
    if MovesNothing(s, c) {
      QuietStep(cfg, s, c, x);
      OnlyPuttingSchedules(cfg, s, c, x);
      QuietDue(s.hist.place, s.pool.workers, s.calls, c, s'.calls[c], id);
    } else {
      MovingDue(cfg, s, c, x, id);
    }
  }

  /** Due in the second state only if in the first. */
  predicate DueBefore(s: State, s': State, id: Id) {
    Due(s'.hist.place, s.pool.workers, s'.calls, id) ==> Due(s.hist.place, s.pool.workers, s.calls, id)
  }

  lemma CreatingDue(s: State, c: nat, e: Execution, req: Request, id: Id)
    requires InCustody(s) && c in s.calls && CallAt(s, c).step == Creating(e, req)
    ensures DueBefore(s, CreateTurn(s, c, e, req), id)
  {
  }

  lemma SchedulingDue(s: State, c: nat, e: Execution, id: Id)
    requires InCustody(s) && c in s.calls && CallAt(s, c).step == Scheduling(e)
    ensures DueBefore(s, ScheduleTurn(s, c, e), id)
  {
    assert At(s.hist.place, e.ticket.id, Submitting(c));
  }

  lemma RevertingDue(s: State, c: nat, e: Execution, id: Id)
    requires InCustody(s) && c in s.calls && CallAt(s, c).step == Reverting(e)
    ensures DueBefore(s, RevertTurn(s, c, e), id)
  {
  }

  lemma MovingDue(cfg: Config, s: State, c: nat, x: Id, id: Id)
    requires InCustody(s) && c in s.calls && !MovesNothing(s, c)
    ensures DueBefore(s, Proceed(cfg, s, c, x), id)
  {
    match s.calls[c].step
    case Creating(e, req) => CreatingDue(s, c, e, req, id);
    case Scheduling(e) => SchedulingDue(s, c, e, id);
    case Reverting(e) => RevertingDue(s, c, e, id);
    case _ =>
  }

  lemma CancelDue(cfg: Config, s: State, c: nat, x: Id, id: Id)
    requires c in s.calls && !(CallAt(s, c).step.Finding? || MidSubmit(CallAt(s, c).step))
    requires Due(Proceed(cfg, s, c, x).hist.place, s.pool.workers, Proceed(cfg, s, c, x).calls, id)
    ensures Due(s.hist.place, s.pool.workers, s.calls, id)
  {
    CancelAsked(cfg, s, c, x);
  }

  /** The payloads after a call's step. */
  function PayloadsAfter(s: State, c: nat): map<Id, Bytes> {
    match CallAt(s, c).step
    case Putting(e, payload) => s.svc.payloads[e.ticket.id := payload]
    case _ => s.svc.payloads
  }

  lemma ProceedPayloads(cfg: Config, s: State, c: nat, x: Id)
    requires c in s.calls
    ensures Proceed(cfg, s, c, x).svc.payloads == PayloadsAfter(s, c)
  {
  }

  /** No other execution that is due is given a payload. */
  lemma PayloadApart(s: State, c: nat, id: Id)
    requires InCustody(s) && c in s.calls && CallAt(s, c).step.Putting?
    requires Due(s.hist.place, s.pool.workers, s.calls, id)
    ensures CallAt(s, c).step.e.ticket.id != id
  {
    assert At(s.hist.place, s.calls[c].step.e.ticket.id, Submitting(c));
  }

  lemma PayloadStands(cfg: Config, s: State, c: nat, past': Past, id: Id)
    requires InCustody(s) && PayloadsOk(s) && c in s.calls && Remembers(s.hist.past, past')
    requires CallOk(cfg, s.disk.executions, CallAt(s, c).step)
    requires CallAsked(cfg, s.disk.shelf, s.hist.past, CallAt(s, c).step)
    requires Due(s.hist.place, s.pool.workers, s.calls, id) || GivesPayload(CallAt(s, c).step, id)
    ensures id in s.disk.executions && Holds(past', PayloadsAfter(s, c), id)
  {
    if s.calls[c].step.Putting? && s.calls[c].step.e.ticket.id != id { PayloadApart(s, c, id); }
  }

  lemma ProceedKeepsPayloads(cfg: Config, s: State, c: nat, x: Id)
    requires InCustody(s) && RecordsOk(cfg, s) && PayloadsOk(s) && c in s.calls
    requires CallAsked(cfg, s.disk.shelf, s.hist.past, CallAt(s, c).step)
    requires s.hist.past.asked.Keys == s.disk.executions.Keys
    ensures PayloadsOk(Proceed(cfg, s, c, x))
  {
    hide Proceed;
    var s' := Proceed(cfg, s, c, x);
    ProceedPayloads(cfg, s, c, x);
    ProceedPast(cfg, s, c, x);
    CallRemembers(cfg, s, c);
    assert CallOk(cfg, s.disk.executions, s.calls[c].step);
    if s.calls[c].step.Finding? || MidSubmit(s.calls[c].step) {
      SubmitShape(cfg, s, c, x);
    } else {
      CancelShape(cfg, s, c, x);
    }
    forall id | Due(s'.hist.place, s'.pool.workers, s'.calls, id)
      ensures id in s'.disk.executions && Holds(s'.hist.past, s'.svc.payloads, id)
    {
      if s.calls[c].step.Finding? || MidSubmit(s.calls[c].step) {
        SubmitDue(cfg, s, c, x, id);
      } else {
        CancelDue(cfg, s, c, x, id);
      }
      PayloadStands(cfg, s, c, s'.hist.past, id);
    }
  }

  lemma ProceedKeepsAccounts(cfg: Config, s: State, c: nat, x: Id)
    requires RecordsOk(cfg, s) && OutputsOk(cfg, s) && c in s.calls
    ensures var s' := Proceed(cfg, s, c, x);
            RecordsAccounted(cfg, s.disk.shelf, s'.hist.past, Put(s.disk.executions, CallWrite(s, c)))
  {
    hide Proceed;
    assert CallAsked(cfg, s.disk.shelf, s.hist.past, s.calls[c].step) &&
           CallOk(cfg, s.disk.executions, s.calls[c].step);
    ProceedPast(cfg, s, c, x);
    CallRemembers(cfg, s, c);
    CallWriteAccounted(cfg, s, c);
    RecordsPut(cfg, s.disk.shelf, s.hist.past, Proceed(cfg, s, c, x).hist.past, s.disk.executions, CallWrite(s, c));
  }

  lemma ProceedKeepsOutputs(cfg: Config, s: State, c: nat, x: Id)
    requires InCustody(s) && RecordsOk(cfg, s) && M.Coherent(cfg.lib, s.disk.shelf) && OutputsOk(cfg, s) && c in s.calls
    ensures OutputsOk(cfg, Proceed(cfg, s, c, x))
  {
    hide Proceed;
    var s' := Proceed(cfg, s, c, x);
    assert CallAsked(cfg, s.disk.shelf, s.hist.past, s.calls[c].step) &&
           CallOk(cfg, s.disk.executions, s.calls[c].step);
    ProceedKeepsPayloads(cfg, s, c, x);
    ProceedKeepsAccounts(cfg, s, c, x);
    ProceedPast(cfg, s, c, x);
    CallRemembers(cfg, s, c);
    CallsOn(cfg, s.disk.shelf, s.hist.past, s'.hist.past, s.calls);
    TiedStill(cfg, s.disk.shelf, s.hist.past, s'.hist.past, s.pool.live, s.pool.workers);
    if s.calls[c].step.Finding? || MidSubmit(s.calls[c].step) {
      SubmitShape(cfg, s, c, x);
      SubmitAsked(cfg, s, c, x);
    } else {
      CancelShape(cfg, s, c, x);
      CancelAsked(cfg, s, c, x);
    }
  }

  // ---- Runs ----

  lemma ModulesKeepRecords(cfg: Config, s: State, after: M.Shelf)
    requires M.Keeps(s.disk.shelf, after) && OutputsOk(cfg, s)
    ensures RecordsAccounted(cfg, after, s.hist.past, s.disk.executions)
  {
    forall id | id in s.disk.executions
      ensures TicketOk(after, s.disk.executions[id].ticket)
      ensures Accounted(cfg, after, s.hist.past, s.disk.executions[id])
    {
      TicketOn(s.disk.shelf, after, s.disk.executions[id].ticket);
      AccountedOn(cfg, s.disk.shelf, after, s.hist.past, s.hist.past, s.disk.executions[id]);
    }
  }

  lemma ModulesKeepOutputs(cfg: Config, s: State, op: M.Op)
    requires M.Coherent(cfg.lib, s.disk.shelf) && OutputsOk(cfg, s)
    ensures OutputsOk(cfg, Next(cfg, s, ModuleStep(op)))
  {
    var after := M.Apply(cfg.lib, cfg.maxModuleBytes, s.disk.shelf, op, s.now).0;
    M.OneStep(cfg.lib, cfg.maxModuleBytes, s.disk.shelf, op, s.now);
    ModulesKeepRecords(cfg, s, after);
    forall c | c in s.calls ensures CallAsked(cfg, after, s.hist.past, s.calls[c].step) {
      assert CallAsked(cfg, s.disk.shelf, s.hist.past, s.calls[c].step);
      if s.calls[c].step.Creating? { TicketOn(s.disk.shelf, after, s.calls[c].step.e.ticket); }
    }
    forall w | 0 <= w < |s.pool.workers| ensures WorkerTied(cfg, after, s.hist.past, s.pool.live, s.pool.workers[w]) {
      var p := s.pool.workers[w];
      assert WorkerTied(cfg, s.disk.shelf, s.hist.past, s.pool.live, p);
      if p.Finishing? || (p.Rejecting? && s.pool.live) {
        AccountedOn(cfg, s.disk.shelf, after, s.hist.past, s.hist.past, p.e);
      }
    }
  }

  lemma SettledAccounted(cfg: Config, shelf: M.Shelf, past: Past, e: Execution)
    requires Accounted(cfg, shelf, past, e)
    ensures Accounted(cfg, shelf, past, S.Settle(e)) && S.Settle(e).ticket == e.ticket
  {
  }

  lemma BootOutputs(cfg: Config, disk: S.Disk, now: Nanos, past: Past)
    requires RecordsAccounted(cfg, disk.shelf, past, disk.executions)
    ensures OutputsOk(cfg, Boot(cfg, disk, now, past))
  {
    var after := S.Recovered(disk.executions);
    forall id | id in after
      ensures after[id].ticket.id == id && AskedFor(cfg, past, after[id].ticket)
      ensures TicketOk(disk.shelf, after[id].ticket)
      ensures Accounted(cfg, disk.shelf, past, after[id])
    {
      SettledAccounted(cfg, disk.shelf, past, disk.executions[id]);
    }
    NothingDue(after);
  }

  lemma NothingDue(executions: map<Id, Execution>)
    ensures var place := map id | id in executions :: Gone;
            forall id, ws, cs :: !Due(place, ws, cs, id)
  {
  }

  lemma QuietKeepsOutputs(cfg: Config, s: State, a: Action)
    requires OutputsOk(cfg, s) && Enabled(cfg, s, a)
    requires !a.DoWork? && !a.Continue? && !a.ModuleStep? && !a.Restart?
    ensures OutputsOk(cfg, Next(cfg, s, a))
  {
    hide Work, Proceed, Boot;
    var s' := Next(cfg, s, a);
    forall id | Due(s'.hist.place, s'.pool.workers, s'.calls, id)
      ensures Due(s.hist.place, s.pool.workers, s.calls, id)
    {
    }
    forall c | c in s'.calls ensures CallAsked(cfg, s'.disk.shelf, s'.hist.past, s'.calls[c].step) {
      if c in s.calls { assert CallAsked(cfg, s.disk.shelf, s.hist.past, s.calls[c].step); }
    }
    forall w | 0 <= w < |s.pool.workers|
      ensures WorkerTied(cfg, s'.disk.shelf, s'.hist.past, s'.pool.live, s.pool.workers[w])
    {
      assert WorkerTied(cfg, s.disk.shelf, s.hist.past, s.pool.live, s.pool.workers[w]);
    }
  }

  lemma StepKeepsOutputs(cfg: Config, s: State, a: Action)
    requires InCustody(s) && RecordsOk(cfg, s) && CacheOk(cfg, s, false) && OutputsOk(cfg, s) && Enabled(cfg, s, a)
    ensures OutputsOk(cfg, Next(cfg, s, a))
  {
    hide Work, Proceed;
    match a
    case DoWork(w, input) => WorkKeepsOutputs(cfg, s, w, input);
    case Continue(c, x) => ProceedKeepsOutputs(cfg, s, c, x);
    case ModuleStep(op) => ModulesKeepOutputs(cfg, s, op);
    case Restart => BootOutputs(cfg, s.disk, s.now, s.hist.past);
    case _ => QuietKeepsOutputs(cfg, s, a);
  }

  /** Over any run, whatever the interleaving, restarts included. */
  lemma {:induction false} RunsKeepOutputs(cfg: Config, s: State, run: seq<Action>)
    requires InCustody(s) && RecordsOk(cfg, s) && CacheOk(cfg, s, false) && OutputsOk(cfg, s)
    requires CollisionFree(cfg.lib) && Possible(cfg, s, run)
    ensures OutputsOk(cfg, Exec(cfg, s, run))
    decreases run
  {
    hide Next;
    if run != [] {
      StepKeepsCustody(cfg, s, run[0]);
      StepKeepsRecords(cfg, s, run[0]);
      StepKeepsCache(cfg, s, false, run[0]);
      StepKeepsOutputs(cfg, s, run[0]);
      RunsKeepOutputs(cfg, Next(cfg, s, run[0]), run[1..]);
    }
  }

  /** The service that starts on an empty store. */
  lemma EmptyStoreAccounts(cfg: Config, now: Nanos)
    ensures var s := Boot(cfg, S.EMPTY_DISK, now, NO_PAST);
            InCustody(s) && RecordsOk(cfg, s) && CacheOk(cfg, s, false) && OutputsOk(cfg, s)
  {
    BootCustody(cfg, S.EMPTY_DISK, now, NO_PAST);
    BootRecords(cfg, S.EMPTY_DISK, now, NO_PAST);
  }

  // ---- In plain terms ----

  /** The record's usage is the program's demand, within the budget; its output is what the
      operation made of the payload, repeated and cut at the limit, and marked as cut exactly
      when the whole was longer. */
  ghost predicate OutputIs(cfg: Config, e: Execution, p: Program, payload: Bytes) {
    var b, r := e.ticket.budget, e.report;
    && r.usage.instructions == p.instructionCost <= b.maxInstructions
    && r.usage.memoryPages == p.memoryPages <= b.maxMemoryPages
    && p.stackBytes <= b.maxStackBytes && p.outputRepeat >= 1
    && |r.output| == r.usage.outputBytes <= b.maxOutputBytes
    && r.outputDigest == cfg.lib.digest(r.output)
    && r.exitCode == p.exitCode
    && Yields(cfg.lib, p, payload, b.maxOutputBytes, r.output, r.outputTruncated)
  }

  /** Every record that is ever stored as succeeded: the payload of its own request and the program
      that its module's content compiles to account for it in full. */
  lemma SucceededMeans(cfg: Config, s: State, id: Id)
    requires RecordsOk(cfg, s) && OutputsOk(cfg, s)
    requires id in s.disk.executions && s.disk.executions[id].status == Succeeded
    ensures var e := s.disk.executions[id];
            && Within(e.ticket.budget, cfg.maxBudget) && TicketOk(s.disk.shelf, e.ticket) &&
               AskedFor(cfg, s.hist.past, e.ticket)
            && Made(cfg, s.disk.shelf, e.ticket).Ready?
            && OutputIs(cfg, e, Made(cfg, s.disk.shelf, e.ticket).compiled.program, s.hist.past.asked[id].payload)
  {
    var e := s.disk.executions[id];
    assert Earned(cfg, s.disk.shelf, s.hist.past, e) && Fit(cfg, e);
    var entry, payload := s.disk.shelf.modules[e.ticket.moduleId].entry, s.hist.past.asked[id].payload;
    var cpu: nat :| Gives(cfg, Made(cfg, s.disk.shelf, e.ticket), entry, payload, e.ticket.budget, cpu, e.report);
    GivenIs(cfg, s.disk.shelf, e, entry, payload, cpu);
  }

  lemma GivenIs(cfg: Config, shelf: M.Shelf, e: Execution, entry: string, payload: Bytes, cpu: nat)
    requires TicketOk(shelf, e.ticket)
    requires Gives(cfg, Made(cfg, shelf, e.ticket), entry, payload, e.ticket.budget, cpu, e.report)
    ensures OutputIs(cfg, e, Made(cfg, shelf, e.ticket).compiled.program, payload)
  {
    TranslatedIsRunnable(cfg.lib, cfg.version, shelf.contents[e.ticket.moduleId], e.ticket.moduleDigest);
    DoneIsWithinBudget(cfg.lib, false, Live, Made(cfg, shelf, e.ticket).compiled, entry, payload, e.ticket.budget, cpu);
  }

  /** And every record stored as failed for resources: a quota that it met stands against it, or
      its module's program demands more than the field of its budget that it names. */
  lemma ExhaustedMeans(cfg: Config, s: State, id: Id)
    requires OutputsOk(cfg, s)
    requires id in s.disk.executions && s.disk.executions[id].errorClass == ErrResource
    ensures var e := s.disk.executions[id];
            if IsLimit(e.fault) then
              && TicketOk(s.disk.shelf, e.ticket) && Made(cfg, s.disk.shelf, e.ticket).Ready?
              && Exceeds(Made(cfg, s.disk.shelf, e.ticket).compiled.program, e.ticket.budget, e.fault)
            else exists q :: (id, q) in s.hist.past.denied && Denies(q, e.ticket.budget, e.fault)
  {
    assert Accounted(cfg, s.disk.shelf, s.hist.past, s.disk.executions[id]);
  }
}
