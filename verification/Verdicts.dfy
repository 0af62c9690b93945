/** How runs end: what a record says when its execution is over, from the program, the budget and
    the context alone, and what is behind every record that says timed out or canceled. */
module Verdicts {
  import opened Common
  import opened Executions
  import opened Simulation
  import opened ControlPlane
  import opened Custody
  import opened Records
  import opened Leases
  import C = Caching
  import R = Resources
  import S = Stores

  // ---- The verdict ----

  /** The context in which a compiled program is executed. */
  datatype Setting = Setting(closed: bool, ctx: Ctx, compiled: Compiled, entry: string, payload: Bytes, cpu: nat)

  predicate RanOver(x: Setting, b: Budget) {
    Waits(x.closed, x.compiled, x.entry, b) && x.ctx == Expired
  }

  predicate CutOff(x: Setting, b: Budget) {
    Waits(x.closed, x.compiled, x.entry, b) && x.ctx == Canceled
  }

  predicate AsksTooMuch(x: Setting, b: Budget) {
    Enters(x.closed, x.entry) && OverDemand(x.compiled, b)
  }

  predicate Comes(lib: Library, x: Setting, b: Budget) {
    Outputs(lib, x.closed, x.ctx, x.compiled, x.entry, x.payload, b)
  }

  /** The status and the error class: timed out when its delay is cut short by its deadline, canceled
      when it is cut short otherwise, failed for resources when it demands more than its budget,
      succeeded when it has output, and failed at run time in every other case. */
  predicate Judged(lib: Library, x: Setting, b: Budget, e: Execution) {
    && (e.status == TimedOut <==> RanOver(x, b)) && (e.errorClass == ErrTimeout <==> RanOver(x, b))
    && (e.status == CanceledBy <==> CutOff(x, b)) && (e.errorClass == ErrCanceled <==> CutOff(x, b))
    && (e.status == Succeeded <==> Comes(lib, x, b)) && (e.errorClass == ErrNone <==> Comes(lib, x, b))
    && (e.errorClass == ErrResource <==> AsksTooMuch(x, b))
    && (e.errorClass == ErrRuntime <==>
          !(RanOver(x, b) || CutOff(x, b) || Comes(lib, x, b) || AsksTooMuch(x, b)))
    && (e.status == Failed <==> e.errorClass == ErrResource || e.errorClass == ErrRuntime)
  }

  /** The error that is named, for each that there is. */
  predicate Blames(lib: Library, x: Setting, b: Budget, e: Execution) {
    var p := x.compiled.program;
    && (RanOver(x, b) ==> e.fault == ContextExpired) && (CutOff(x, b) ==> e.fault == ContextCanceled)
    && (x.closed ==> e.fault == RuntimeClosed) && (!x.closed && x.entry == "" ==> e.fault == NoEntry)
    && (AsksTooMuch(x, b) ==>
          e.fault == if p.instructionCost > b.maxInstructions then InstructionLimit
                     else if p.memoryPages > b.maxMemoryPages then MemoryLimit else StackLimit)
    && (Operates(x.closed, x.ctx, x.compiled, x.entry, b) && p.operation == "fail" ==> e.fault == Trap)
    && (Operates(x.closed, x.ctx, x.compiled, x.entry, b) && p.operation == "sum" && lib.sum(x.payload).None? ==>
          e.fault == OperationFailed)
  }

  /** What is reported of it: of a success its output, by the operation's name, its demands, its exit
      code and the time measured; of a program made to fail all but output; of others next to
      nothing. */
  ghost predicate Reported(lib: Library, x: Setting, b: Budget, e: Execution) {
    var p, r := x.compiled.program, e.report;
    && r.outputDigest == lib.digest(r.output)
    && (Comes(lib, x, b) ==>
          && Yields(lib, p, x.payload, b.maxOutputBytes, r.output, r.outputTruncated)
          && r.usage == Usage(p.instructionCost, p.memoryPages, x.cpu, |r.output|) && r.exitCode == p.exitCode)
    && (!Comes(lib, x, b) ==>
          && r.output == [] && !r.outputTruncated && r.usage.outputBytes == 0
          && r.usage.cpuTime == (if e.fault == Trap then x.cpu else 0)
          && (e.fault == Trap ==> r.exitCode >= 1 && (p.exitCode >= 1 ==> r.exitCode == p.exitCode)))
  }

  /** The record of an execution that is over, against the one it began with. */
  ghost predicate Verdict(lib: Library, x: Setting, before: Execution, now: Nanos, e: Execution) {
    var b := before.ticket.budget;
    && Judged(lib, x, b, e) && Blames(lib, x, b, e) && Reported(lib, x, b, e)
    && e.ticket == before.ticket && e.startedAt == before.startedAt && e.nodeId == before.nodeId
    && e.finishedAt == Some(now)
  }

  function SettingOf(s: State, e: Execution, m: M.Module, compiled: Compiled, input: Input): Setting {
    Setting(s.svc.runtimeClosed, input.ctx, compiled, m.entry, PayloadOf(s, e.ticket.id), input.cpu)
  }

  /** The worker is about to store a record of which that is the verdict. */
  ghost predicate Ends(lib: Library, x: Setting, before: Execution, now: Nanos, w: Worker) {
    w.Finishing? && Verdict(lib, x, before, now, w.e)
  }

  /** The status and the class by the error that stopped it. */
  predicate Classed(o: Outcome, e: Execution) {
    && (e.status == TimedOut <==> StopsWith(o, ContextExpired))
    && (e.errorClass == ErrTimeout <==> StopsWith(o, ContextExpired))
    && (e.status == CanceledBy <==> StopsWith(o, ContextCanceled))
    && (e.errorClass == ErrCanceled <==> StopsWith(o, ContextCanceled))
    && (e.status == Succeeded <==> !o.Stopped?) && (e.errorClass == ErrNone <==> !o.Stopped?)
    && (e.errorClass == ErrResource <==>
          StopsWith(o, InstructionLimit) || StopsWith(o, MemoryLimit) || StopsWith(o, StackLimit))
    && (e.status == Failed <==> e.errorClass == ErrResource || e.errorClass == ErrRuntime)
    && (e.errorClass == ErrRuntime <==>
          e.errorClass !in {ErrTimeout, ErrCanceled, ErrNone, ErrResource})
  }

  lemma ConcludedIsClassed(cfg: Config, e: Execution, o: Outcome, now: Nanos)
    requires !o.Crashed?
    ensures Classed(o, Conclude(cfg, e, o, now))
  {
  }

  lemma ConcludedIsJudged(cfg: Config, x: Setting, e: Execution, o: Outcome, now: Nanos)
    requires o == Execute(cfg.lib, x.closed, x.ctx, x.compiled, x.entry, x.payload, e.ticket.budget, x.cpu)
    requires !o.Crashed?
    ensures Judged(cfg.lib, x, e.ticket.budget, Conclude(cfg, e, o, now))
  {
    hide Execute, Conclude, Outputs, ReportsStop;
    ConcludedIsClassed(cfg, e, o, now);
    StopsExactly(cfg.lib, x.closed, x.ctx, x.compiled, x.entry, x.payload, e.ticket.budget, x.cpu);
  }

  lemma ConcludedBlames(cfg: Config, x: Setting, e: Execution, o: Outcome, now: Nanos)
    requires o == Execute(cfg.lib, x.closed, x.ctx, x.compiled, x.entry, x.payload, e.ticket.budget, x.cpu)
    requires !o.Crashed?
    ensures Blames(cfg.lib, x, e.ticket.budget, Conclude(cfg, e, o, now))
  {
    hide Execute, ReportsStop;
    StopsExactly(cfg.lib, x.closed, x.ctx, x.compiled, x.entry, x.payload, e.ticket.budget, x.cpu);
  }

  lemma ConcludedIsReported(cfg: Config, x: Setting, e: Execution, o: Outcome, now: Nanos)
    requires o == Execute(cfg.lib, x.closed, x.ctx, x.compiled, x.entry, x.payload, e.ticket.budget, x.cpu)
    requires !o.Crashed?
    ensures Reported(cfg.lib, x, e.ticket.budget, Conclude(cfg, e, o, now))
  {
    hide Execute;
    StopsExactly(cfg.lib, x.closed, x.ctx, x.compiled, x.entry, x.payload, e.ticket.budget, x.cpu);
    if o.Done? {
      DoneIsWithinBudget(cfg.lib, x.closed, x.ctx, x.compiled, x.entry, x.payload, e.ticket.budget, x.cpu);
    }
  }

  lemma ConcludedIsDated(cfg: Config, e: Execution, o: Outcome, now: Nanos)
    requires !o.Crashed?
    ensures var e' := Conclude(cfg, e, o, now);
            && e'.ticket == e.ticket && e'.finishedAt == Some(now)
            && e'.startedAt == e.startedAt && e'.nodeId == e.nodeId
  {
  }

  /** Every execution that does not take the process down ends in the verdict. */
  lemma RunsEndExactly(cfg: Config, s: State, w: nat, input: Input, e: Execution, m: M.Module, deadline: Nanos,
      compiled: Compiled)
    requires WorkerAt(s, w) == Executing(e, m, deadline, compiled) && MayWork(cfg, s, w, input)
    ensures Ends(cfg.lib, SettingOf(s, e, m, compiled, input), e, s.now, TurnOf(cfg, s, w, input).next)
  {
    hide Execute, Conclude, Judged, Blames, Reported;
    var x, o := SettingOf(s, e, m, compiled, input), OutcomeOf(cfg, s, e, m, compiled, input);
    ConcludedIsJudged(cfg, x, e, o, s.now);
    ConcludedBlames(cfg, x, e, o, s.now);
    ConcludedIsReported(cfg, x, e, o, s.now);
    ConcludedIsDated(cfg, e, o, s.now);
  }

  /** What a step finds out when all contexts are live. */
  const ALL_LIVE := Input(Live, Live, 0)

  /** The record is what is stored, and nothing else has changed in the store. */
  predicate Stores(s: State, e: Execution, s': State) {
    s'.disk == s.disk.(executions := s.disk.executions[e.ticket.id := e])
  }

  /** And that is what it stores with its next step. */
  lemma VerdictIsStored(cfg: Config, s: State, w: nat, e: Execution)
    requires InCustody(s) && RecordsOk(cfg, s) && w < |s.pool.workers| && WorkerAt(s, w) == Finishing(e)
    ensures Enabled(cfg, s, DoWork(w, ALL_LIVE)) && Stores(s, e, Next(cfg, s, DoWork(w, ALL_LIVE)))
    ensures WorkerAt(Next(cfg, s, DoWork(w, ALL_LIVE)), w) == Metering(e)
  {
    hide Proceed, Boot;
    assert WorkerOk(cfg, s.disk.executions, s.pool.live, s.pool.workers[w]);
  }

  // ---- What is behind it ----

  /** A record that says timed out ended at an instant that its deadline had passed, counted from the
      grant of its lease; one that says canceled was stored by a Cancel that found no run of it, or its
      run ended on a context that a Cancel or the shutdown of the pool had ended. */
  ghost predicate Explained(past: Past, e: Execution) {
    && (e.status == TimedOut ==>
          && e.fault == ContextExpired && e.finishedAt.Some?
          && exists granted :: (e.ticket.id, Late(granted, e.finishedAt.value)) in past.stops
                               && granted + e.ticket.budget.timeout <= e.finishedAt.value)
    && (e.status == CanceledBy ==>
          || e.fault == CanceledBeforeExecution
          || (e.fault == ContextCanceled &&
              ((e.ticket.id, CalledOff) in past.stops || (e.ticket.id, PoolShut) in past.stops)))
  }

  /** The worker's deadline is its timeout after the grant of its lease. */
  predicate OnTerms(leases: map<Id, R.Lease>, w: Worker) {
    w.Registering? || w.Marking? || AtLoad(w) || w.Executing? ==>
      w.e.ticket.id in leases && w.deadline == leases[w.e.ticket.id].grantedAt + w.e.ticket.budget.timeout
  }

  ghost predicate WorkerExplained(past: Past, w: Worker) {
    w.Rejecting? || w.Finishing? || w.Aborting? ==> Explained(past, w.e)
  }

  ghost predicate CallExplained(past: Past, step: CallStep) {
    step.Creating? || step.Reverting? || step.Writing? ==> Explained(past, step.e)
  }

  ghost predicate TermsOk(s: State) {
    forall w :: 0 <= w < |s.pool.workers| ==> OnTerms(s.svc.books.leases, s.pool.workers[w])
  }

  ghost predicate RecordsExplained(past: Past, executions: map<Id, Execution>) {
    forall id :: id in executions ==> Explained(past, executions[id])
  }

  ghost predicate WorkersExplained(past: Past, workers: seq<Worker>) {
    forall w :: 0 <= w < |workers| ==> WorkerExplained(past, workers[w])
  }

  ghost predicate CallsExplained(past: Past, calls: map<nat, Call>) {
    forall c :: c in calls ==> CallExplained(past, calls[c].step)
  }

  ghost predicate EndsExplained(s: State) {
    && TermsOk(s)
    && RecordsExplained(s.hist.past, s.disk.executions) && WorkersExplained(s.hist.past, s.pool.workers)
    && CallsExplained(s.hist.past, s.calls)
  }

  // ---- Deadlines ----

  /** Where a deadline comes from: it is set by the grant, and then kept. */
  predicate KeepsTerm(s: State, p: Worker, t: Turn) {
    t.next.Registering? || t.next.Marking? || AtLoad(t.next) || t.next.Executing? ==>
      if p.Acquiring? then
        t.next.Registering? && t.next.e == p.e && t.next.deadline == s.now + p.e.ticket.budget.timeout
      else
        && (p.Registering? || p.Marking? || AtLoad(p)) && t.next.e.ticket == p.e.ticket
        && t.next.deadline == p.deadline
  }

  lemma EarlyTerm(cfg: Config, s: State, w: nat, input: Input)
    requires AtDoor(WorkerAt(s, w)) || AtLease(WorkerAt(s, w))
    ensures KeepsTerm(s, WorkerAt(s, w), TurnOf(cfg, s, w, input))
  {
    hide R.Acquire;
  }

  lemma LateTerm(cfg: Config, s: State, w: nat, input: Input)
    requires !(AtDoor(WorkerAt(s, w)) || AtLease(WorkerAt(s, w)))
    ensures KeepsTerm(s, WorkerAt(s, w), TurnOf(cfg, s, w, input))
  {
    hide C.Get, Compile;
  }

  /** A worker's turn touches no lease but its own. */
  lemma OthersLeases(s: State, p: Worker, t: Turn, id: Id)
    requires BooksFollow(s, p, t) && HeldId(p) != Some(id)
    ensures id in s.svc.books.leases <==> id in t.svc.books.leases
    ensures id in s.svc.books.leases ==> t.svc.books.leases[id] == s.svc.books.leases[id]
  {
  }

  lemma OwnTerm(s: State, p: Worker, t: Turn)
    requires BooksFollow(s, p, t) && KeepsTerm(s, p, t) && OnTerms(s.svc.books.leases, p)
    ensures OnTerms(t.svc.books.leases, t.next)
  {
  }

  lemma OthersTerms(s: State, w: nat, t: Turn)
    requires WorkersPlaced(s.hist.place, s.pool.workers) && TermsOk(s) && w < |s.pool.workers|
    requires BooksFollow(s, s.pool.workers[w], t)
    ensures forall v :: 0 <= v < |s.pool.workers| && v != w ==> OnTerms(t.svc.books.leases, s.pool.workers[v])
  {
    hide BooksFollow;
    var p := s.pool.workers[w];
    forall v | 0 <= v < |s.pool.workers| && v != w ensures OnTerms(t.svc.books.leases, s.pool.workers[v]) {
      var q := s.pool.workers[v];
      assert OnTerms(s.svc.books.leases, q);
      if q.Registering? || q.Marking? || AtLoad(q) || q.Executing? {
        assert At(s.hist.place, q.e.ticket.id, Held(v));
        assert HeldId(p).Some? ==> At(s.hist.place, HeldId(p).value, Held(w));
        OthersLeases(s, p, t, q.e.ticket.id);
      }
    }
  }

  lemma WorkKeepsTerms(cfg: Config, s: State, w: nat, input: Input)
    requires InCustody(s) && TermsOk(s) && w < |s.pool.workers|
    ensures TermsOk(Work(cfg, s, w, input))
  {
    hide TurnOf, BooksFollow, OnTerms;
    var p, t := s.pool.workers[w], TurnOf(cfg, s, w, input);
    TurnLeases(cfg, s, w, input);
    if AtDoor(p) || AtLease(p) { EarlyTerm(cfg, s, w, input); } else { LateTerm(cfg, s, w, input); }
    OwnTerm(s, p, t);
    OthersTerms(s, w, t);
  }

  // ---- Ends ----

  lemma ExplainedOn(past: Past, past': Past, e: Execution)
    requires Explained(past, e) && past.stops <= past'.stops
    ensures Explained(past', e)
  {
  }

  /** What a worker's turn writes and hands on is explained. */
  ghost predicate TurnExplains(past: Past, t: Turn) {
    (t.write.Some? ==> Explained(past, t.write.value)) && WorkerExplained(past, t.next)
  }

  lemma EarlyExplains(cfg: Config, s: State, w: nat, input: Input)
    requires AtDoor(WorkerAt(s, w)) || AtLease(WorkerAt(s, w))
    requires WorkerExplained(s.hist.past, WorkerAt(s, w))
    ensures TurnExplains(s.hist.past, TurnOf(cfg, s, w, input))
  {
    hide R.Acquire;
  }

  lemma LoadExplains(cfg: Config, s: State, w: nat, input: Input)
    requires AtLoad(WorkerAt(s, w))
    ensures TurnExplains(s.hist.past, TurnOf(cfg, s, w, input))
  {
    hide C.Get, Compile;
  }

  lemma EndExplains(cfg: Config, s: State, w: nat, input: Input)
    requires AtEnd(WorkerAt(s, w)) && WorkerExplained(s.hist.past, WorkerAt(s, w))
    ensures TurnExplains(s.hist.past, TurnOf(cfg, s, w, input))
  {
    hide Conclude;
  }

  /** A delay that was cut short has behind it what its context reported. */
  lemma ExecuteExplains(cfg: Config, s: State, p: Worker, input: Input)
    requires p.Executing? && OnTerms(s.svc.books.leases, p) && MaySee(s, p.e, p.deadline, input.ctx)
    requires !OutcomeOf(cfg, s, p.e, p.m, p.compiled, input).Crashed?
    ensures var t := ExecuteTurn(cfg, s, p.e, p.m, p.compiled, input);
            TurnExplains(PastAfter(s, p, input.ctx, t.next), t)
  {
    hide Execute, Conclude, Comes;
    var t := ExecuteTurn(cfg, s, p.e, p.m, p.compiled, input);
    var o, x := OutcomeOf(cfg, s, p.e, p.m, p.compiled, input), SettingOf(s, p.e, p.m, p.compiled, input);
    ConcludedIsJudged(cfg, x, p.e, o, s.now);
    ConcludedBlames(cfg, x, p.e, o, s.now);
    ConcludedIsDated(cfg, p.e, o, s.now);
    var granted := s.svc.books.leases[p.e.ticket.id].grantedAt;
    if input.ctx == Expired {
      assert (p.e.ticket.id, Late(granted, s.now)) in PastAfter(s, p, input.ctx, t.next).stops;
    }
  }

  lemma PastStops(s: State, p: Worker, ctx: Ctx, next: Worker)
    ensures s.hist.past.stops <= PastAfter(s, p, ctx, next).stops
    ensures !p.Executing? ==> PastAfter(s, p, ctx, next).stops == s.hist.past.stops
  {
  }

  lemma TurnIsExplained(cfg: Config, s: State, w: nat, input: Input)
    requires w < |s.pool.workers| && MayWork(cfg, s, w, input)
    requires OnTerms(s.svc.books.leases, WorkerAt(s, w)) && WorkerExplained(s.hist.past, WorkerAt(s, w))
    ensures TurnExplains(PastAfter(s, WorkerAt(s, w), input.ctx, TurnOf(cfg, s, w, input).next),
                         TurnOf(cfg, s, w, input))
  {
    hide Explained, PastAfter;
    var p, t := s.pool.workers[w], TurnOf(cfg, s, w, input);
    if p.Executing? {
      ExecuteExplains(cfg, s, p, input);
    } else {
      if AtDoor(p) || AtLease(p) { EarlyExplains(cfg, s, w, input); }
      else if AtLoad(p) { LoadExplains(cfg, s, w, input); }
      else { EndExplains(cfg, s, w, input); }
      PastStops(s, p, input.ctx, t.next);
      var past := PastAfter(s, p, input.ctx, t.next);
      if t.write.Some? { ExplainedOn(s.hist.past, past, t.write.value); }
      if t.next.Rejecting? || t.next.Finishing? || t.next.Aborting? { ExplainedOn(s.hist.past, past, t.next.e); }
    }
  }

  lemma AllExplainedOn(past: Past, past': Past, executions: map<Id, Execution>, workers: seq<Worker>,
      calls: map<nat, Call>)
    requires past.stops <= past'.stops
    requires RecordsExplained(past, executions) && WorkersExplained(past, workers) && CallsExplained(past, calls)
    ensures RecordsExplained(past', executions) && WorkersExplained(past', workers) && CallsExplained(past', calls)
  {
    forall id | id in executions ensures Explained(past', executions[id]) { ExplainedOn(past, past', executions[id]); }
    forall w | 0 <= w < |workers| ensures WorkerExplained(past', workers[w]) {
      assert WorkerExplained(past, workers[w]);
      if workers[w].Rejecting? || workers[w].Finishing? || workers[w].Aborting? {
        ExplainedOn(past, past', workers[w].e);
      }
    }
    forall c | c in calls ensures CallExplained(past', calls[c].step) {
      assert CallExplained(past, calls[c].step);
    }
  }

  lemma WorkKeepsExplained(cfg: Config, s: State, w: nat, input: Input)
    requires InCustody(s) && EndsExplained(s) && w < |s.pool.workers| && MayWork(cfg, s, w, input)
    ensures EndsExplained(Work(cfg, s, w, input))
  {
    hide TurnOf, MayWork, Explained, PastAfter, OnTerms;
    var p, t := s.pool.workers[w], TurnOf(cfg, s, w, input);
    var past := PastAfter(s, p, input.ctx, t.next);
    WorkKeepsTerms(cfg, s, w, input);
    TurnIsExplained(cfg, s, w, input);
    PastStops(s, p, input.ctx, t.next);
    AllExplainedOn(s.hist.past, past, s.disk.executions, s.pool.workers, s.calls);
  }

  // ---- Other steps ----

  lemma SubmitStaysExplained(cfg: Config, s: State, c: nat, x: Id)
    requires c in s.calls && CallExplained(s.hist.past, CallAt(s, c).step)
    requires CallAt(s, c).step.Finding? || MidSubmit(CallAt(s, c).step)
    ensures CallExplained(s.hist.past, CallAt(Proceed(cfg, s, c, x), c).step)
    ensures CallWrite(s, c).Some? ==> Explained(s.hist.past, CallWrite(s, c).value)
    ensures Proceed(cfg, s, c, x).hist.past.stops == s.hist.past.stops
    ensures Proceed(cfg, s, c, x).svc.books == s.svc.books
  {
    hide InvocationOk, Validate, Normalize, FetchStep, ReadStep, CanceledEarly;
  }

  lemma CancelStaysExplained(cfg: Config, s: State, c: nat, x: Id)
    requires c in s.calls && CallExplained(s.hist.past, CallAt(s, c).step)
    requires !(CallAt(s, c).step.Finding? || MidSubmit(CallAt(s, c).step))
    ensures CallExplained(s.hist.past, CallAt(Proceed(cfg, s, c, x), c).step)
    ensures CallWrite(s, c).Some? ==> Explained(s.hist.past, CallWrite(s, c).value)
    ensures Proceed(cfg, s, c, x).hist.past.stops == s.hist.past.stops
    ensures Proceed(cfg, s, c, x).svc.books == s.svc.books
  {
    hide AskStep, FindStep, CreateTurn, ScheduleTurn, RevertTurn;
  }

  lemma CallStaysExplained(cfg: Config, s: State, c: nat, x: Id)
    requires c in s.calls && CallExplained(s.hist.past, CallAt(s, c).step)
    ensures CallExplained(s.hist.past, CallAt(Proceed(cfg, s, c, x), c).step)
    ensures CallWrite(s, c).Some? ==> Explained(s.hist.past, CallWrite(s, c).value)
    ensures Proceed(cfg, s, c, x).hist.past.stops == s.hist.past.stops
    ensures Proceed(cfg, s, c, x).svc.books == s.svc.books
  {
    hide Proceed, CallExplained, CallWrite;
    if CallAt(s, c).step.Finding? || MidSubmit(CallAt(s, c).step) {
      SubmitStaysExplained(cfg, s, c, x);
    } else {
      CancelStaysExplained(cfg, s, c, x);
    }
  }

  lemma CallExplainedOn(past: Past, past': Past, step: CallStep)
    requires CallExplained(past, step) && past.stops <= past'.stops
    ensures CallExplained(past', step)
  {
  }

  lemma ProceedKeepsExplained(cfg: Config, s: State, c: nat, x: Id)
    requires RecordsOk(cfg, s) && EndsExplained(s) && c in s.calls
    ensures EndsExplained(Proceed(cfg, s, c, x))
  {
    hide Proceed, Explained, OnTerms;
    var s' := Proceed(cfg, s, c, x);
    assert CallOk(cfg, s.disk.executions, s.calls[c].step) && CallExplained(s.hist.past, s.calls[c].step);
    CallStaysExplained(cfg, s, c, x);
    if s.calls[c].step.Finding? || MidSubmit(s.calls[c].step) { SubmitShape(cfg, s, c, x); }
    else { CancelShape(cfg, s, c, x); }
    var executions := Put(s.disk.executions, CallWrite(s, c));
    assert RecordsExplained(s.hist.past, executions);
    AllExplainedOn(s.hist.past, s'.hist.past, executions, s.pool.workers, s.calls);
    CallExplainedOn(s.hist.past, s'.hist.past, s'.calls[c].step);
  }

  lemma BootKeepsExplained(cfg: Config, disk: S.Disk, now: Nanos, past: Past)
    requires RecordsExplained(past, disk.executions)
    ensures EndsExplained(Boot(cfg, disk, now, past))
  {
  }

  lemma OthersKeepExplained(cfg: Config, s: State, a: Action)
    requires EndsExplained(s) && Enabled(cfg, s, a) && !a.DoWork? && !a.Continue? && !a.Restart?
    ensures EndsExplained(Next(cfg, s, a))
  {
    hide Work, Proceed, Boot, Explained;
    var s' := Next(cfg, s, a);
    assert s'.pool.workers == s.pool.workers && s'.svc.books.leases == s.svc.books.leases;
    assert s'.disk.executions == s.disk.executions && s'.hist.past == s.hist.past;
    forall w | 0 <= w < |s'.pool.workers| ensures OnTerms(s'.svc.books.leases, s'.pool.workers[w]) {
      assert OnTerms(s.svc.books.leases, s.pool.workers[w]);
    }
    forall c | c in s'.calls ensures CallExplained(s'.hist.past, s'.calls[c].step) {
      if c in s.calls { assert CallExplained(s.hist.past, s.calls[c].step); }
    }
  }

  lemma StepKeepsExplained(cfg: Config, s: State, a: Action)
    requires InCustody(s) && RecordsOk(cfg, s) && EndsExplained(s) && Enabled(cfg, s, a)
    ensures EndsExplained(Next(cfg, s, a))
  {
    hide Work, Proceed, Boot;
    match a
    case DoWork(w, input) => WorkKeepsExplained(cfg, s, w, input);
    case Continue(c, x) => ProceedKeepsExplained(cfg, s, c, x);
    case Restart => BootKeepsExplained(cfg, s.disk, s.now, s.hist.past);
    case _ => OthersKeepExplained(cfg, s, a);
  }

  /** Over every run, whatever the interleaving, crashes included. */
  lemma {:induction false} RunsKeepExplained(cfg: Config, s: State, run: seq<Action>)
    requires InCustody(s) && RecordsOk(cfg, s) && EndsExplained(s) && Possible(cfg, s, run)
    ensures EndsExplained(Exec(cfg, s, run))
    decreases run
  {
    hide Next, Enabled, EndsExplained;
    if run != [] {
      StepKeepsCustody(cfg, s, run[0]);
      StepKeepsRecords(cfg, s, run[0]);
      StepKeepsExplained(cfg, s, run[0]);
      RunsKeepExplained(cfg, Next(cfg, s, run[0]), run[1..]);
    }
  }

  /** In every state of every run from an empty store: a record stored as timed out ended once its
      deadline had passed, counted from the grant of its lease, and one stored as canceled without a
      Cancel having stored that itself ended on a context that a Cancel or the shutdown had ended. */
  lemma EndsAreExplained(cfg: Config, now: Nanos, run: seq<Action>)
    requires Possible(cfg, Boot(cfg, S.EMPTY_DISK, now, NO_PAST), run)
    ensures var s := Exec(cfg, Boot(cfg, S.EMPTY_DISK, now, NO_PAST), run);
            RecordsExplained(s.hist.past, s.disk.executions)
  {
    hide Next, Enabled, Explained;
    BootCustody(cfg, S.EMPTY_DISK, now, NO_PAST);
    BootRecords(cfg, S.EMPTY_DISK, now, NO_PAST);
    BootKeepsExplained(cfg, S.EMPTY_DISK, now, NO_PAST);
    RunsKeepExplained(cfg, Boot(cfg, S.EMPTY_DISK, now, NO_PAST), run);
  }
}
