/** What the segments, the ordering of submissions and the live contexts are needed for: runs from
    the start of a service in which a finished record changes, an execution is left behind, or a
    key is used twice. */
module Scenarios {
  import opened Common
  import opened Executions
  import opened Simulation
  import opened ControlPlane
  import opened Paths
  import opened Reachability
  import opened Uninterrupted
  import opened Scripts
  import opened Beginnings
  import A = Absorption
  import U = Custody
  import I = Idempotency
  import Q = RingQueue
  import R = Resources
  import C = Caching
  import M = Modules
  import S = Stores

  // ---- What is stored and answered ----

  predicate Has(s: State, id: Id, status: Status) {
    id in s.disk.executions && s.disk.executions[id].status == status
  }

  /** The call has been answered with the record as it is stored. */
  predicate AnsweredAsStored(s: State, c: nat, id: Id) {
    id in s.disk.executions && c in s.calls && s.calls[c].step == Answered(Some(s.disk.executions[id]), NoFault)
  }

  /** The record stored under an identifier is its own and unfinished. */
  predicate Unfinished(s: State, e: Execution) {
    Keeps(s, e) && !Terminal(e)
  }

  // ---- A second call beside the first ----

  lemma {:induction false} OnwardIsPossible(cfg: Config, s: State, c: nat, x: Id, n: nat)
    requires c in s.calls
    ensures Reaches(cfg, s, Onward(cfg, s, c, x, n))
    decreases n
  {
    hide Work, Enabled;
    if n == 0 || s.calls[c].step.Answered? {
      ReachesItself(cfg, s);
      if n > 0 { OnwardIsPossible(cfg, s, c, x, n - 1); }
    } else {
      var s' := Proceed(cfg, s, c, x);
      ReachesByStep(cfg, s, Continue(c, x));
      if c in s'.calls {
        OnwardIsPossible(cfg, s', c, x, n - 1);
        ReachesOn(cfg, s, s', Onward(cfg, s, c, x, n));
      }
    }
  }

  /** The state in which Cancel has stored its record and answered. */
  function WithCanceled(s: State, e: Execution): State {
    var id, done := e.ticket.id, CanceledEarly(e, s.now);
    var flagged := s.(svc := s.svc.(canceled := s.svc.canceled + {id}),
                      disk := s.disk.(executions := s.disk.executions[id := done]));
    A.With(flagged, OTHER, Answered(Some(done), NoFault))
  }

  lemma CancelRuns(cfg: Config, s: State, e: Execution)
    requires OTHER !in s.calls && Unfinished(s, e) && e.ticket.id !in s.svc.cancels && U.Named(s.disk.executions)
    ensures Reaches(cfg, s, WithCanceled(s, e))
  {
    hide Work, Proceed, Boot;
    var id := e.ticket.id;
    var fetching := A.With(s, OTHER, Fetching(id));
    ReachesByStep(cfg, s, Begin(OTHER, Fetching(id)));
    A.CancelSettles(cfg, s, OTHER, id, id);
    OnwardIsPossible(cfg, fetching, OTHER, id, 5);
    ReachesOn(cfg, s, fetching, WithCanceled(s, e));
  }

  /** The state in which Cancel has flagged the execution and is about to store its record. */
  function WithFlag(s: State, e: Execution): State {
    var flagged := s.(svc := s.svc.(canceled := s.svc.canceled + {e.ticket.id}));
    A.With(flagged, OTHER, Writing(CanceledEarly(e, s.now)))
  }

  lemma FlaggingRuns(cfg: Config, s: State, e: Execution)
    requires OTHER !in s.calls && Unfinished(s, e) && e.ticket.id !in s.svc.cancels
    ensures Reaches(cfg, s, WithFlag(s, e))
  {
    hide Work, Proceed;
    var id := e.ticket.id;
    var fetching, probing := A.With(s, OTHER, Fetching(id)), A.With(s, OTHER, Probing(e));
    var flagging := A.With(s, OTHER, Flagging(e));
    ReachesByStep(cfg, s, Begin(OTHER, Fetching(id)));
    A.Fetches(cfg, s, OTHER, id, id);
    A.Probes(cfg, s, OTHER, e, id);
    A.Flags(cfg, s, OTHER, e, id);
    ReachesByStep(cfg, fetching, Continue(OTHER, id));
    ReachesByStep(cfg, probing, Continue(OTHER, id));
    ReachesByStep(cfg, flagging, Continue(OTHER, id));
    ReachesOn(cfg, s, fetching, probing);
    ReachesOn(cfg, s, probing, flagging);
    ReachesOn(cfg, s, flagging, WithFlag(s, e));
  }

  // ---- The worker going on ----

  function Started(cfg: Config, s: State, e: Execution): Execution {
    e.(status := Running, startedAt := Some(s.now), nodeId := cfg.nodeId)
  }

  function Registered(s: State, e: Execution, m: M.Module, deadline: Nanos): State {
    Moves(s, Marking(e, m, deadline)).(svc := s.svc.(cancels := s.svc.cancels + {e.ticket.id}))
  }

  /** The state in which the run is registered and the execution stored as running. */
  function Marked(cfg: Config, s: State, e: Execution, m: M.Module, deadline: Nanos): State {
    Writes(Moves(Registered(s, e, m, deadline), Loading(Started(cfg, s, e), m, deadline)), Some(Started(cfg, s, e)))
  }

  lemma MarkingLeads(cfg: Config, script: Script, s: State, e: Execution, m: M.Module, deadline: Nanos)
    requires s.pool.workers == [Registering(e, m, deadline)] && script == Instant(script.live, s.now, Live)
    ensures Leads(Visits(cfg, script), s, Marked(cfg, s, e, m, deadline))
  {
    hide Visits;
    RegisterLeads(cfg, script, s, e, m, deadline);
    MarkLeads(cfg, script, Registered(s, e, m, deadline), e, m, deadline);
    LeadsOn(Visits(cfg, script), s, Registered(s, e, m, deadline), Marked(cfg, s, e, m, deadline));
  }

  /** The execution is leased by the only worker and unfinished, nothing has been canceled or
      compiled yet, and the context has time left. */
  ghost predicate Unregistered(s: State, e: Execution, m: M.Module) {
    && s.pool.workers == [Registering(e, m, s.now + e.ticket.budget.timeout)]
    && s.pool.live && s.svc.fired == {} && s.svc.cancels == {} && !s.svc.runtimeClosed && s.svc.cache.items == map[]
    && OTHER !in s.calls && U.Named(s.disk.executions)
    && Keeps(s, e) && e.status == Queued
    && e.ticket.budget.timeout > 0 && e.ticket.budget.maxOutputBytes >= 0
  }

  ghost predicate Sensible(x: Case) {
    && Admitted(x) && U.Named(x.disk.executions)
    && var b := RecordFor(x).ticket.budget; b.timeout > 0 && b.maxOutputBytes >= 0
  }

  ghost predicate Runs(x: Case) {
    Sensible(x) && Granting(x)
  }

  lemma StoredIsNamed(executions: map<Id, Execution>, e: Execution)
    requires U.Named(executions)
    ensures U.Named(S.Recovered(executions)[e.ticket.id := e])
  {
    S.RecoveryIsClean(executions);
  }

  lemma TakenIsNamed(x: Case)
    requires Admitted(x) && U.Named(x.disk.executions)
    ensures var s := Taken(x);
            && U.Named(s.disk.executions) && Keeps(s, RecordFor(x))
            && OTHER !in s.calls && s.svc.payloads == map[x.id := x.req.payload] && s.disk.shelf == x.disk.shelf
            && RecordFor(x).ticket.id == x.id
  {
    StoredIsNamed(x.disk.executions, RecordFor(x));
  }

  /** What a lease that has just been granted leaves as it was. */
  predicate AsTaken(x: Case, s: State) {
    && s.now == x.now && s.svc.payloads == map[x.id := x.req.payload] && s.disk.shelf == x.disk.shelf
    && RecordFor(x).ticket.id == x.id
  }

  lemma LeasedStands(x: Case)
    requires Runs(x)
    ensures Unregistered(Leased(x), RecordFor(x), x.m) && AsTaken(x, Leased(x))
  {
    TakenIsNamed(x);
  }

  lemma LeasedIsUnregistered(x: Case)
    requires Runs(x)
    ensures Reaches(x.cfg, First(x), Leased(x)) && Unregistered(Leased(x), RecordFor(x), x.m) && AsTaken(x, Leased(x))
  {
    hide Next, Enabled;
    LeasedIsReached(x);
    LeasedStands(x);
  }

  lemma MarkingRuns(cfg: Config, s: State, e: Execution, m: M.Module, deadline: Nanos)
    requires s.pool.workers == [Registering(e, m, deadline)] && s.pool.live && e.ticket.id !in s.svc.fired
    requires e.ticket.budget.timeout > 0 && e.ticket.budget.maxOutputBytes >= 0
    ensures Reaches(cfg, s, Marked(cfg, s, e, m, deadline))
  {
    hide Next, Visits, Enabled, MayWork;
    var script := Instant(true, s.now, Live);
    MarkingLeads(cfg, script, s, e, m, deadline);
    InstantIsAllowed(cfg, s, e.ticket, Live, true);
    PathIsPossible(cfg, script, s, Marked(cfg, s, e, m, deadline));
  }

  // ---- Finished records that change ----

  lemma UndoneFrom(cfg: Config, s: State, e: Execution, m: M.Module) returns (a: State, b: State)
    requires Unregistered(s, e, m)
    ensures Reaches(cfg, s, a) && Reaches(cfg, a, b)
    ensures a == WithCanceled(s, e) && b == Marked(cfg, a, e, m, s.now + e.ticket.budget.timeout)
  {
    hide Next, Enabled;
    CancelRuns(cfg, s, e);
    a := WithCanceled(s, e);
    MarkingRuns(cfg, a, e, m, s.now + e.ticket.budget.timeout);
    b := Marked(cfg, a, e, m, s.now + e.ticket.budget.timeout);
  }

  /** A Cancel that comes to its end while a worker is between the lease and the running status
      is undone: its record, canceled and so answered, is stored as running two steps later. */
  lemma CancelWithinTheStartIsUndone(x: Case) returns (a: State, b: State)
    requires Runs(x)
    ensures Reaches(x.cfg, First(x), a) && Reaches(x.cfg, a, b)
    ensures Has(a, x.id, CanceledBy)
    ensures AnsweredAsStored(a, OTHER, x.id)
    ensures Has(b, x.id, Running)
  {
    LeasedIsUnregistered(x);
    a, b := UndoneFrom(x.cfg, Leased(x), RecordFor(x), x.m);
    ReachesOn(x.cfg, First(x), Leased(x), a);
  }

  /** What the module's content compiles to. */
  predicate Compiles(cfg: Config, shelf: M.Shelf, m: M.Module, compiled: Compiled) {
    m.id in shelf.contents && Translate(cfg.lib, cfg.version, shelf.contents[m.id], m.digest) == Ready(compiled)
  }

  /** What executing it comes to. */
  function Outcome1(cfg: Config, s: State, e: Execution, m: M.Module, compiled: Compiled): Outcome {
    Execute(cfg.lib, false, Live, compiled, m.entry, PayloadOf(s, e.ticket.id), e.ticket.budget, WELL.cpu)
  }

  function ContentOf(s: State, m: M.Module): Bytes {
    if m.id in s.disk.shelf.contents then s.disk.shelf.contents[m.id] else []
  }

  /** With nothing cached a lookup misses. */
  lemma MissLeads(cfg: Config, script: Script, s: State, e: Execution, m: M.Module, deadline: Nanos) returns (s': State)
    requires s.pool.workers == [Loading(e, m, deadline)] && script == Instant(script.live, s.now, Live)
    requires m.id in s.disk.shelf.contents && s.svc.cache.items == map[]
    ensures Leads(Visits(cfg, script), s, s') && s'.svc.cache.items == map[]
    ensures s' == Moves(s, Compiling(e, m, deadline, ContentOf(s, m))).(svc := s.svc.(cache := s'.svc.cache))
  {
    hide Visits;
    var content := s.disk.shelf.contents[m.id];
    LoadLeads(cfg, script, s, e, m, deadline);
    var s1 := Moves(s, Looking(e, m, deadline, content));
    var (cache, found) := C.Get(s.svc.cache, Live, KeyOf(cfg, e, m), s.now);
    LookUpLeads(cfg, script, s1, e, m, deadline, content, cache, found);
    s' := Moves(s, Compiling(e, m, deadline, content)).(svc := s.svc.(cache := cache));
    LeadsOn(Visits(cfg, script), s, s1, s');
  }

  lemma CompilingLeads(
    cfg: Config, script: Script, s: State, e: Execution, m: M.Module, deadline: Nanos, compiled: Compiled)
      returns (s': State)
    requires s.pool.workers == [Loading(e, m, deadline)] && script == Instant(script.live, s.now, Live)
    requires !s.svc.runtimeClosed && s.svc.cache.items == map[] && Compiles(cfg, s.disk.shelf, m, compiled)
    ensures Leads(Visits(cfg, script), s, s')
    ensures s' == Moves(s, Executing(e, m, deadline, compiled)).(svc := s.svc.(cache := s'.svc.cache))
  {
    hide Visits;
    var content := s.disk.shelf.contents[m.id];
    var s2 := MissLeads(cfg, script, s, e, m, deadline);
    CompileLeads(cfg, script, s2, e, m, deadline, content, Ready(compiled));
    s' := Moves(s, Executing(e, m, deadline, compiled)).(
      svc := s.svc.(cache := Kept(cfg, s2.svc.cache, KeyOf(cfg, e, m), Ready(compiled), Live, s.now)));
    LeadsOn(Visits(cfg, script), s, s2, s');
  }

  lemma SucceedingLeads(
    cfg: Config, script: Script, s: State, e: Execution, m: M.Module, deadline: Nanos, compiled: Compiled)
      returns (s': State)
    requires s.pool.workers == [Executing(e, m, deadline, compiled)] && script == Instant(script.live, s.now, Live)
    requires !s.svc.runtimeClosed && e.ticket.id in s.disk.executions && Outcome1(cfg, s, e, m, compiled).Done?
    ensures Leads(Visits(cfg, script), s, s')
    ensures s'.calls == s.calls && s'.disk.executions.Keys == s.disk.executions.Keys
    ensures Has(s', e.ticket.id, Succeeded)
  {
    hide Visits;
    var o := Outcome1(cfg, s, e, m, compiled);
    var e' := Conclude(cfg, e, o, s.now);
    PerformLeads(cfg, script, s, e, m, deadline, compiled, o);
    var s1 := Moves(Ran(s, e, Live), Finishing(e'));
    FinishLeads(cfg, script, s1, e');
    s' := Writes(Moves(s1, Metering(e')), Some(e'));
    LeadsOn(Visits(cfg, script), s, s1, s');
  }

  lemma SuccessRuns(cfg: Config, s: State, e: Execution, m: M.Module, deadline: Nanos, compiled: Compiled)
      returns (s': State)
    requires s.pool.workers == [Loading(e, m, deadline)] && s.pool.live && e.ticket.id !in s.svc.fired
    requires e.ticket.budget.timeout > 0 && e.ticket.budget.maxOutputBytes >= 0 && e.ticket.id in s.disk.executions
    requires !s.svc.runtimeClosed && s.svc.cache.items == map[] && Compiles(cfg, s.disk.shelf, m, compiled)
    requires Outcome1(cfg, s, e, m, compiled).Done?
    ensures Reaches(cfg, s, s') && s'.calls == s.calls
    ensures Has(s', e.ticket.id, Succeeded)
  {
    hide Next, Visits, Enabled;
    var script := Instant(true, s.now, Live);
    var s1 := CompilingLeads(cfg, script, s, e, m, deadline, compiled);
    s' := SucceedingLeads(cfg, script, s1, e, m, deadline, compiled);
    LeadsOn(Visits(cfg, script), s, s1, s');
    InstantIsAllowed(cfg, s, e.ticket, Live, true);
    PathIsPossible(cfg, script, s, s');
  }

  lemma OverwrittenFrom(cfg: Config, s: State, e: Execution, m: M.Module, compiled: Compiled) returns (a: State)
    requires Unregistered(s, e, m) && Compiles(cfg, s.disk.shelf, m, compiled)
    requires Outcome1(cfg, s, e, m, compiled).Done?
    ensures Reaches(cfg, s, a) && Has(a, e.ticket.id, Succeeded)
    ensures CallAt(a, OTHER) == Call(Writing(CanceledEarly(e, s.now)), false)
  {
    hide Next, Enabled;
    var deadline := s.now + e.ticket.budget.timeout;
    FlaggingRuns(cfg, s, e);
    var s1 := WithFlag(s, e);
    MarkingRuns(cfg, s1, e, m, deadline);
    var s2 := Marked(cfg, s1, e, m, deadline);
    ReachesOn(cfg, s, s1, s2);
    a := SuccessRuns(cfg, s2, Started(cfg, s1, e), m, deadline, compiled);
    ReachesOn(cfg, s, s2, a);
  }

  lemma WritingStores(cfg: Config, s: State, e: Execution)
    requires CallAt(s, OTHER) == Call(Writing(e), false) && e.ticket.id in s.disk.executions
    ensures Enabled(cfg, s, Continue(OTHER, e.ticket.id))
    ensures Next(cfg, s, Continue(OTHER, e.ticket.id)).disk.executions == s.disk.executions[e.ticket.id := e]
  {
    hide Work, Boot, MayWork;
  }

  /** The execution of the request runs to completion. */
  predicate Completes(x: Case, compiled: Compiled) {
    Execute(x.cfg.lib, false, Live, compiled, x.m.entry, x.req.payload, RecordFor(x).ticket.budget, WELL.cpu).Done?
  }

  /** A Cancel that read the record before it ended stores its own over it: one that has probed
      before the run registered, and writes after the run has succeeded. */
  lemma SuccessIsOverwritten(x: Case, compiled: Compiled) returns (a: State)
    requires Runs(x) && Compiles(x.cfg, x.disk.shelf, x.m, compiled)
    requires Completes(x, compiled)
    ensures Reaches(x.cfg, First(x), a) && Has(a, x.id, Succeeded)
    ensures Enabled(x.cfg, a, Continue(OTHER, x.id))
    ensures var b := Next(x.cfg, a, Continue(OTHER, x.id));
            Has(b, x.id, CanceledBy)
  {
    hide Next, Boot;
    LeasedIsUnregistered(x);
    a := OverwrittenFrom(x.cfg, Leased(x), RecordFor(x), x.m, compiled);
    WritingStores(x.cfg, a, CanceledEarly(RecordFor(x), x.now));
    ReachesOn(x.cfg, First(x), Leased(x), a);
  }

  // ---- Executions left behind ----

  /** Stored as queued, and let go of, with the workers' context live. */
  ghost predicate LeftBehind(s: State, id: Id, cause: Cause) {
    && Has(s, id, Queued) && s.pool.live
    && U.At(s.hist.place, id, Gone) && id in s.hist.causes && s.hist.causes[id] == cause
  }

  /** The state in which the worker has given up marking the execution and let go of it. */
  lemma AbandonRuns(cfg: Config, s: State, e: Execution, m: M.Module, deadline: Nanos, ctx: Ctx) returns (s': State)
    requires s.pool.workers == [Marking(e, m, deadline)] && s.pool.live && e.ticket.budget.maxOutputBytes >= 0
    requires if ctx == Canceled then e.ticket.id in s.svc.fired else ctx == Expired && deadline <= s.now
    requires Has(s, e.ticket.id, Queued)
    ensures Reaches(cfg, s, s') && LeftBehind(s', e.ticket.id, if ctx == Canceled then Fired else Overdue(deadline))
  {
    var script := Instant(true, s.now, ctx);
    MarkLeads(cfg, script, s, e, m, deadline);
    var s1 := Moves(s, Unwinding(e)).(hist := Unmarked(s.hist, e.ticket.id, true, deadline, ctx));
    UnregisterLeads(cfg, script, s1, e);
    var s2 := Moves(s1, Releasing(e)).(svc := s.svc.(cancels := s.svc.cancels - {e.ticket.id}));
    LeadsOn(Visits(cfg, script), s, s1, s2);
    ReleaseLeads(cfg, script, s2, e);
    s' := Moves(s2, Idle).(
      svc := s2.svc.(books := R.Release(s.svc.books, e.ticket.id, e.report.usage.cpuTime, s.now)),
      hist := ReleasedBy(s1.hist, e));
    LeadsOn(Visits(cfg, script), s, s2, s');
    InstantIsAllowed(cfg, s, e.ticket, ctx, true);
    PathIsPossible(cfg, script, s, s');
  }

  lemma RegisteringRuns(cfg: Config, s: State, e: Execution, m: M.Module)
    requires Unregistered(s, e, m)
    ensures Reaches(cfg, s, Registered(s, e, m, s.now + e.ticket.budget.timeout))
  {
    hide Work, Proceed;
    var script := Instant(true, s.now, Live);
    RegisterLeads(cfg, script, s, e, m, s.now + e.ticket.budget.timeout);
    InstantIsAllowed(cfg, s, e.ticket, Live, true);
    PathIsPossible(cfg, script, s, Registered(s, e, m, s.now + e.ticket.budget.timeout));
  }

  lemma OverdueFrom(cfg: Config, s: State, e: Execution, m: M.Module) returns (a: State)
    requires Unregistered(s, e, m)
    ensures Reaches(cfg, s, a) && LeftBehind(a, e.ticket.id, Overdue(s.now + e.ticket.budget.timeout))
  {
    hide Next, Enabled;
    var deadline := s.now + e.ticket.budget.timeout;
    var marking := Registered(s, e, m, deadline);
    RegisteringRuns(cfg, s, e, m);
    LaterIsPossible(cfg, marking, deadline);
    var late := marking.(now := deadline);
    ReachesOn(cfg, s, marking, late);
    a := AbandonRuns(cfg, late, e, m, deadline, Expired);
    ReachesOn(cfg, s, late, a);
  }

  /** Time passes between registering a run and marking its execution: it stays queued for good,
      although its timeout is positive and the workers are up. */
  lemma OverdueIsLeftBehind(x: Case) returns (a: State)
    requires Runs(x)
    ensures Reaches(x.cfg, First(x), a) && LeftBehind(a, x.id, Overdue(DeadlineOf(x)))
  {
    hide Next, Boot, MayWork;
    LeasedIsUnregistered(x);
    a := OverdueFrom(x.cfg, Leased(x), RecordFor(x), x.m);
    ReachesOn(x.cfg, First(x), Leased(x), a);
  }

  /** The state in which Cancel has ended the context of a registered run. */
  function Fired1(s: State, id: Id): State {
    A.With(s.(svc := s.svc.(fired := s.svc.fired + {id})), OTHER, Reading(id))
  }

  lemma ProbesRegistered(cfg: Config, s: State, e: Execution, x: Id)
    requires e.ticket.id in s.svc.cancels
    ensures Proceed(cfg, A.With(s, OTHER, Probing(e)), OTHER, x) == A.With(s, OTHER, Firing(e.ticket.id))
  {
    var probing, firing := A.With(s, OTHER, Probing(e)), A.With(s, OTHER, Firing(e.ticket.id));
    assert probing.calls[1 := Call(Firing(e.ticket.id), false)] == firing.calls;
  }

  lemma Fires(cfg: Config, s: State, id: Id, x: Id)
    ensures Proceed(cfg, A.With(s, OTHER, Firing(id)), OTHER, x) == Fired1(s, id)
  {
    assert A.With(s, OTHER, Firing(id)).calls[1 := Call(Reading(id), false)] == Fired1(s, id).calls;
  }

  lemma FiringRuns(cfg: Config, s: State, e: Execution)
    requires OTHER !in s.calls && Unfinished(s, e) && e.ticket.id in s.svc.cancels
    ensures Reaches(cfg, s, Fired1(s, e.ticket.id))
  {
    hide Work, Proceed;
    var id := e.ticket.id;
    var fetching, probing := A.With(s, OTHER, Fetching(id)), A.With(s, OTHER, Probing(e));
    var firing := A.With(s, OTHER, Firing(id));
    ReachesByStep(cfg, s, Begin(OTHER, Fetching(id)));
    A.Fetches(cfg, s, OTHER, id, id);
    ProbesRegistered(cfg, s, e, id);
    Fires(cfg, s, id, id);
    ReachesByStep(cfg, fetching, Continue(OTHER, id));
    ReachesByStep(cfg, probing, Continue(OTHER, id));
    ReachesByStep(cfg, firing, Continue(OTHER, id));
    ReachesOn(cfg, s, fetching, probing);
    ReachesOn(cfg, s, probing, firing);
    ReachesOn(cfg, s, firing, Fired1(s, id));
  }

  lemma FiredFrom(cfg: Config, s: State, e: Execution, m: M.Module) returns (a: State)
    requires Unregistered(s, e, m)
    ensures Reaches(cfg, s, a) && LeftBehind(a, e.ticket.id, Fired)
  {
    hide Next, Enabled;
    var deadline := s.now + e.ticket.budget.timeout;
    var marking := Registered(s, e, m, deadline);
    RegisteringRuns(cfg, s, e, m);
    FiringRuns(cfg, marking, e);
    var fired := Fired1(marking, e.ticket.id);
    ReachesOn(cfg, s, marking, fired);
    a := AbandonRuns(cfg, fired, e, m, deadline, Canceled);
    ReachesOn(cfg, s, fired, a);
  }

  /** Cancel ends the context of a run between its registration and its marking: the execution is
      never run, nor ever stored as canceled. */
  lemma CancelIsSwallowed(x: Case) returns (a: State)
    requires Runs(x)
    ensures Reaches(x.cfg, First(x), a) && LeftBehind(a, x.id, Fired)
  {
    hide Next, Enabled;
    LeasedIsUnregistered(x);
    a := FiredFrom(x.cfg, Leased(x), RecordFor(x), x.m);
    ReachesOn(x.cfg, First(x), Leased(x), a);
  }
  /** The state in which a call whose context is done has had its last step. */
  function Dead(s: State, c: nat, answer: Option<Execution>, fault: Fault): State {
    s.(calls := s.calls[c := Call(Answered(answer, fault), true)])
  }

  lemma LapsesAfterFlagging(cfg: Config, s: State, e: Execution) returns (s': State)
    requires CallAt(s, OTHER) == Call(Writing(e), false)
    ensures Reaches(cfg, s, s')
    ensures s' == Dead(s, OTHER, None, ContextCanceled).(hist := Lapsed(s.hist, e.ticket.id, true))
  {
    hide Work;
    var id := e.ticket.id;
    var abandoned := Next(cfg, s, Abandon(OTHER));
    ReachesByStep(cfg, s, Abandon(OTHER));
    s' := Next(cfg, abandoned, Continue(OTHER, id));
    ReachesByStep(cfg, abandoned, Continue(OTHER, id));
    ReachesOn(cfg, s, abandoned, s');
    assert abandoned.calls[1 := Call(Answered(None, ContextCanceled), true)] ==
           s.calls[1 := Call(Answered(None, ContextCanceled), true)];
  }

  lemma DroppedFrom(cfg: Config, s: State, job: Q.Job, e: Execution) returns (a: State)
    requires s.pool.workers == [Holding(job)] && s.pool.live && OTHER !in s.calls && e.ticket.id == job.executionId
    requires Keeps(s, e) && e.status == Queued
    requires e.ticket.id !in s.svc.cancels && e.ticket.budget.maxOutputBytes >= 0 && e.ticket.budget.timeout > 0
    requires e.ticket.id !in s.svc.fired
    ensures Reaches(cfg, s, a) && LeftBehind(a, e.ticket.id, Flagged) && e.ticket.id in a.hist.lapsed
  {
    var script := Instant(true, s.now, Live);
    FlaggingRuns(cfg, s, e);
    var s1 := WithFlag(s, e);
    var s2 := LapsesAfterFlagging(cfg, s1, CanceledEarly(e, s.now));
    ReachesOn(cfg, s, s1, s2);
    HoldLeads(cfg, script, s2, job);
    a := LetsGo(Unflagged(s2, e.ticket.id), e.ticket.id, Some(Flagged));
    InstantIsAllowed(cfg, s2, e.ticket, Live, true);
    PathIsPossible(cfg, script, s2, a);
    ReachesOn(cfg, s, s2, a);
  }

  /** A Cancel whose context ends between flagging the execution and storing it as canceled: the
      worker drops it on the flag, and nothing is stored. */
  lemma FlagIsNotStored(x: Case) returns (a: State)
    requires Sensible(x)
    ensures Reaches(x.cfg, First(x), a) && LeftBehind(a, x.id, Flagged) && x.id in a.hist.lapsed
  {
    hide Next, Enabled;
    TakenIsReached(x);
    TakenIsNamed(x);
    a := DroppedFrom(x.cfg, Taken(x), JobFor(x), RecordFor(x));
    ReachesOn(x.cfg, First(x), Taken(x), a);
  }

  lemma DiesUnqueued(cfg: Config, s: State, e: Execution) returns (s': State)
    requires s.calls == Only(Scheduling(e), false)
    ensures Reaches(cfg, s, s') && s' == s.(calls := Only(Reverting(Unscheduled(e, ContextCanceled)), true))
  {
    hide Work;
    var abandoned := Next(cfg, s, Abandon(FIRST));
    assert abandoned == s.(calls := Only(Scheduling(e), true));
    ReachesByStep(cfg, s, Abandon(FIRST));
    s' := Next(cfg, abandoned, Continue(FIRST, e.ticket.id));
    assert s'.calls == Only(Reverting(Unscheduled(e, ContextCanceled)), true);
    ReachesByStep(cfg, abandoned, Continue(FIRST, e.ticket.id));
    ReachesOn(cfg, s, abandoned, s');
  }

  lemma RevertedFrom(cfg: Config, s: State, e: Execution) returns (a: State)
    requires s.calls == Only(Scheduling(e), false) && s.pool.live
    requires Keeps(s, e) && e.status == Queued
    ensures Reaches(cfg, s, a) && LeftBehind(a, e.ticket.id, CallDone)
  {
    hide Work, Boot;
    var s' := DiesUnqueued(cfg, s, e);
    a := Next(cfg, s', Continue(FIRST, e.ticket.id));
    ReachesByStep(cfg, s', Continue(FIRST, e.ticket.id));
    ReachesOn(cfg, s, s', a);
  }

  /** A Submit whose context ends before its execution is queued has no context left to store that
      it failed. */
  lemma RefusalIsNotStored(x: Case) returns (a: State)
    requires Admitted(x)
    ensures Reaches(x.cfg, First(x), a) && LeftBehind(a, x.id, CallDone)
  {
    SubmissionRuns(x);
    a := RevertedFrom(x.cfg, Prepared(x), RecordFor(x));
    ReachesOn(x.cfg, First(x), Prepared(x), a);
  }

  // ---- A refusal stored over a cancellation ----

  lemma ShutOut(cfg: Config, s: State, e: Execution) returns (s': State)
    requires s.calls == Only(Scheduling(e), false)
    ensures Reaches(cfg, s, s')
    ensures s' == s.(calls := Only(Reverting(Unscheduled(e, QueueShut)), false), pool := s.pool.(closed := true))
  {
    hide Work;
    var closed := Next(cfg, s, CloseQueue);
    ReachesByStep(cfg, s, CloseQueue);
    s' := Next(cfg, closed, Continue(FIRST, e.ticket.id));
    assert s'.calls == Only(Reverting(Unscheduled(e, QueueShut)), false);
    ReachesByStep(cfg, closed, Continue(FIRST, e.ticket.id));
    ReachesOn(cfg, s, closed, s');
  }

  lemma RefusedFrom(cfg: Config, s: State, e: Execution) returns (a: State)
    requires s.calls == Only(Scheduling(e), false) && U.Named(s.disk.executions) && e.ticket.id !in s.svc.cancels
    requires Keeps(s, e) && e.status == Queued
    ensures Reaches(cfg, s, a)
    ensures Has(a, e.ticket.id, CanceledBy)
    ensures CallAt(a, FIRST) == Call(Reverting(Unscheduled(e, QueueShut)), false)
    ensures AnsweredAsStored(a, OTHER, e.ticket.id)
  {
    hide Next, Enabled;
    var s2 := ShutOut(cfg, s, e);
    CancelRuns(cfg, s2, e);
    a := WithCanceled(s2, e);
    ReachesOn(cfg, s, s2, a);
  }

  lemma RevertStores(cfg: Config, s: State, e: Execution)
    requires CallAt(s, FIRST) == Call(Reverting(e), false) && e.ticket.id in s.disk.executions
    ensures Enabled(cfg, s, Continue(FIRST, e.ticket.id))
    ensures Next(cfg, s, Continue(FIRST, e.ticket.id)).disk.executions == s.disk.executions[e.ticket.id := e]
  {
    hide Work, MayWork;
  }

  /** A Submit that could not queue its execution stores it as failed over one canceled meanwhile,
      and so answered. */
  lemma CancellationIsOverwritten(x: Case) returns (a: State)
    requires Admitted(x) && U.Named(x.disk.executions)
    ensures Reaches(x.cfg, First(x), a) && Has(a, x.id, CanceledBy)
    ensures AnsweredAsStored(a, OTHER, x.id)
    ensures Enabled(x.cfg, a, Continue(FIRST, x.id))
    ensures var b := Next(x.cfg, a, Continue(FIRST, x.id));
            Has(b, x.id, Failed)
  {
    SubmissionRuns(x);
    TakenIsNamed(x);
    a := RefusedFrom(x.cfg, Prepared(x), RecordFor(x));
    ReachesOn(x.cfg, First(x), Prepared(x), a);
    RevertStores(x.cfg, a, Unscheduled(RecordFor(x), QueueShut));
  }

  // ---- Keys used twice ----

  /** Two calls with nothing stored yet, and what they go through up to creating. */
  function Both(s: State, first: CallStep, second: CallStep): State {
    s.(calls := map[0 := Call(first, false), 1 := Call(second, false)])
  }

  function Looked(cfg: Config, s: State, from: CallStep, x: Id): CallStep {
    match from
    case Finding(req) => FindStep(s, req, false)
    case Asking(req) => AskStep(cfg, s, req, false, x)
    case _ => from
  }

  lemma LookingUp(cfg: Config, s: State, c: nat, x: Id)
    requires c in s.calls && !CallAt(s, c).dead && (CallAt(s, c).step.Finding? || CallAt(s, c).step.Asking?)
    ensures Reaches(cfg, s, SetStep(s, c, Looked(cfg, s, CallAt(s, c).step, x)))
  {
    hide Work;
    ReachesByStep(cfg, s, Continue(c, x));
    assert Next(cfg, s, Continue(c, x)) == SetStep(s, c, Looked(cfg, s, s.calls[c].step, x));
  }

  lemma FirstGoes(cfg: Config, s: State, from: CallStep, second: CallStep, x: Id)
    requires from.Finding? || from.Asking?
    ensures Reaches(cfg, Both(s, from, second), Both(s, Looked(cfg, s, from, x), second))
  {
    hide Next, Enabled;
    var to := Looked(cfg, s, from, x);
    LookingUp(cfg, Both(s, from, second), FIRST, x);
    assert Looked(cfg, Both(s, from, second), from, x) == to;
    assert Both(s, from, second).calls[0 := Call(to, false)] == Both(s, to, second).calls;
  }

  lemma SecondGoes(cfg: Config, s: State, from: CallStep, first: CallStep, x: Id)
    requires from.Finding? || from.Asking?
    ensures Reaches(cfg, Both(s, first, from), Both(s, first, Looked(cfg, s, from, x)))
  {
    hide Next, Enabled;
    var to := Looked(cfg, s, from, x);
    LookingUp(cfg, Both(s, first, from), OTHER, x);
    assert Looked(cfg, Both(s, first, from), from, x) == to;
    assert Both(s, first, from).calls[1 := Call(to, false)] == Both(s, first, to).calls;
  }

  lemma BothComeIn(cfg: Config, s: State, r1: Request, r2: Request)
    requires s.calls == map[]
    ensures Reaches(cfg, s, Both(s, Finding(r1), Finding(r2)))
  {
    hide Work, Proceed;
    var one := s.(calls := map[0 := Call(Finding(r1), false)]);
    ReachesByStep(cfg, s, Begin(FIRST, Finding(r1)));
    ReachesByStep(cfg, one, Begin(OTHER, Finding(r2)));
    assert one.calls[1 := Call(Finding(r2), false)] == Both(s, Finding(r1), Finding(r2)).calls;
    ReachesOn(cfg, s, one, Both(s, Finding(r1), Finding(r2)));
  }

  /** Both calls look their keys up before either creates. */
  lemma BothCreating(cfg: Config, s: State, r1: Request, r2: Request, i: Id, j: Id, c1: CallStep, c2: CallStep)
    requires s.calls == map[] && FindStep(s, r1, false) == Asking(r1) && FindStep(s, r2, false) == Asking(r2)
    requires c1 == AskStep(cfg, s, r1, false, i) && c2 == AskStep(cfg, s, r2, false, j)
    ensures Reaches(cfg, s, Both(s, c1, c2))
  {
    hide Next, Enabled;
    BothComeIn(cfg, s, r1, r2);
    FirstGoes(cfg, s, Finding(r1), Finding(r2), i);
    SecondGoes(cfg, s, Finding(r2), Asking(r1), j);
    FirstGoes(cfg, s, Asking(r1), Asking(r2), i);
    SecondGoes(cfg, s, Asking(r2), c1, j);
    ReachesOn(cfg, s, Both(s, Finding(r1), Finding(r2)), Both(s, Asking(r1), Finding(r2)));
    ReachesOn(cfg, s, Both(s, Asking(r1), Finding(r2)), Both(s, Asking(r1), Asking(r2)));
    ReachesOn(cfg, s, Both(s, Asking(r1), Asking(r2)), Both(s, c1, Asking(r2)));
    ReachesOn(cfg, s, Both(s, c1, Asking(r2)), Both(s, c1, c2));
  }

  lemma CreatesOne(cfg: Config, s: State, c: nat, x: Id, e: Execution, req: Request)
    requires c in s.calls && CallAt(s, c) == Call(Creating(e, req), false) && e.ticket.id !in s.disk.executions
    ensures Reaches(cfg, s, CreateTurn(s, c, e, req))
    ensures var s1 := CreateTurn(s, c, e, req);
            && s1.disk.executions == s.disk.executions[e.ticket.id := e]
            && s1.hist.past.asked == s.hist.past.asked[e.ticket.id := req]
            && s1.calls == s.calls[c := Call(Saving(e, req.key, req.payload), false)]
  {
    hide Work, Boot;
    ReachesByStep(cfg, s, Continue(c, x));
  }

  lemma BothCreate(cfg: Config, s: State, r1: Request, r2: Request, e1: Execution, e2: Execution) returns (a: State)
    requires e1.ticket.id != e2.ticket.id && e1.ticket.id !in s.disk.executions && e2.ticket.id !in s.disk.executions
    ensures Reaches(cfg, Both(s, Creating(e1, r1), Creating(e2, r2)), a)
    ensures a.disk.executions == s.disk.executions[e1.ticket.id := e1][e2.ticket.id := e2]
    ensures a.hist.past.asked == s.hist.past.asked[e1.ticket.id := r1][e2.ticket.id := r2]
  {
    hide Next, Enabled;
    var s0 := Both(s, Creating(e1, r1), Creating(e2, r2));
    CreatesOne(cfg, s0, FIRST, e1.ticket.id, e1, r1);
    var s1 := CreateTurn(s0, FIRST, e1, r1);
    CreatesOne(cfg, s1, OTHER, e2.ticket.id, e2, r2);
    a := CreateTurn(s1, OTHER, e2, r2);
    ReachesOn(cfg, s0, s1, a);
  }

  /** The execution was created for the request. */
  predicate AskedAndStored(s: State, id: Id, req: Request) {
    id in s.disk.executions && id in s.hist.past.asked && s.hist.past.asked[id] == req
  }

  /** Two submissions of one tenant under one key, both looking it up before either has created,
      each have their own execution, neither of them answered with the other's. */
  lemma OverlappingSubmissionsBothCreate(x: Case, r: Request, j: Id) returns (a: State)
    requires Admitted(x) && Admitted(x.(req := r, id := j)) && x.id != j
    requires r.tenantId == x.req.tenantId && r.key == x.req.key && r.key != ""
    ensures Reaches(x.cfg, First(x), a) && AskedAndStored(a, x.id, x.req) && AskedAndStored(a, j, r)
    ensures I.ClaimOf(x.req) == I.ClaimOf(r)
  {
    hide Next, Enabled, FindStep, AskStep, CreateTurn;
    var y := x.(req := r, id := j);
    var e1, e2 := RecordFor(x), RecordFor(y);
    BothCreating(x.cfg, First(x), x.req, r, x.id, j, Creating(e1, x.req), Creating(e2, r));
    a := BothCreate(x.cfg, First(x), x.req, r, e1, e2);
    ReachesOn(x.cfg, First(x), Both(First(x), Creating(e1, x.req), Creating(e2, r)), a);
  }

  /** After a crash between creating an execution and storing its key, the key is asked for
      afresh, although the execution is there. */
  lemma CrashLosesTheKey(x: Case) returns (a: State)
    requires Admitted(x) && x.req.key != ""
    requires S.EntryKey(x.req.tenantId, x.req.key) !in x.disk.idempotency
    ensures Reaches(x.cfg, First(x), a) && a == Next(x.cfg, Stored(x), Restart)
    ensures AskedAndStored(a, x.id, x.req)
    ensures FindStep(a, x.req, false) == Asking(x.req)
  {
    SubmissionRuns(x);
    a := Next(x.cfg, Stored(x), Restart);
    ReachesByStep(x.cfg, Stored(x), Restart);
    ReachesOn(x.cfg, First(x), Stored(x), a);
    S.RecoveryIsClean(Stored(x).disk.executions);
  }
}
