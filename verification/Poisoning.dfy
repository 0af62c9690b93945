/** A failure in the cache that answers for content that compiles: a possible run from the start of
    a service to such a lookup. */
module Poisoning {
  import opened Common
  import opened Executions
  import opened Simulation
  import opened ControlPlane
  import opened Paths
  import opened Reachability
  import opened Uninterrupted
  import opened Scripts
  import opened Beginnings
  import opened Scenarios
  import A = Absorption
  import Q = RingQueue
  import R = Resources
  import C = Caching
  import M = Modules
  import S = Stores

  // ---- The compile that runs into its deadline ----

  /** Nothing but the worker, the records, the cache and the quotas has changed. */
  predicate Apart(s: State, s': State) {
    && s'.pool == s.pool.(workers := s'.pool.workers) && s'.calls == s.calls && s'.now == s.now
    && s'.disk == s.disk.(executions := s'.disk.executions) && s'.disk.executions.Keys == s.disk.executions.Keys
    && s'.svc == s.svc.(cache := s'.svc.cache, books := s'.svc.books, cancels := s'.svc.cancels)
  }

  /** The entry of a compile that failed on its deadline. */
  function Poison(now: Nanos): C.Item {
    C.NewItem(Rejected(ContextExpired), MINUTE, now)
  }

  lemma PoisonLeads(cfg: Config, script: Script, s: State, e: Execution, m: M.Module, deadline: Nanos, content: Bytes)
      returns (s': State)
    requires s.pool.workers == [Compiling(e, m, deadline, content)] && script == Instant(script.live, s.now, Expired)
    requires s.svc.cache.items == map[] && e.ticket.id in s.disk.executions
    ensures Leads(Visits(cfg, script), s, s') && Apart(s, s')
    ensures s'.svc.cache.items == map[KeyOf(cfg, e, m) := Poison(s.now)]
    ensures s'.pool.workers == [Unwinding(FailedWith(e, ErrRuntime, ContextExpired, s.now))]
    ensures s'.svc.books == s.svc.books && s'.svc.cancels == s.svc.cancels
  {
    hide Visits;
    var failed := FailedWith(e, ErrRuntime, ContextExpired, s.now);
    CompileLeads(cfg, script, s, e, m, deadline, content, Rejected(ContextExpired));
    var cache := C.Store(s.svc.cache, Live, KeyOf(cfg, e, m), Rejected(ContextExpired), MINUTE, s.now);
    var s1 := Moves(s, Aborting(failed)).(svc := s.svc.(cache := cache));
    AbortLeads(cfg, script, s1, failed);
    s' := Writes(Moves(s1, Unwinding(failed)), Some(failed));
    LeadsOn(Visits(cfg, script), s, s1, s');
  }

  lemma BackLeads(cfg: Config, script: Script, s: State, e: Execution) returns (s': State)
    requires s.pool.workers == [Unwinding(e)] && script == Instant(script.live, s.now, Expired)
    ensures Leads(Visits(cfg, script), s, s') && Apart(s, s') && s'.pool.workers == [Idle]
    ensures s'.svc.cache == s.svc.cache && s'.svc.cancels == s.svc.cancels - {e.ticket.id}
    ensures s'.svc.books == R.Release(s.svc.books, e.ticket.id, e.report.usage.cpuTime, s.now)
  {
    hide Visits;
    UnregisterLeads(cfg, script, s, e);
    var s1 := Moves(s, Releasing(e)).(svc := s.svc.(cancels := s.svc.cancels - {e.ticket.id}));
    ReleaseLeads(cfg, script, s1, e);
    s' := Moves(s1, Idle).(
      svc := s1.svc.(books := R.Release(s.svc.books, e.ticket.id, e.report.usage.cpuTime, s.now)),
      hist := ReleasedBy(s1.hist, e));
    LeadsOn(Visits(cfg, script), s, s1, s');
  }

  /** A worker whose deadline has passed when it compiles. */
  lemma PoisonRuns(cfg: Config, s: State, e: Execution, m: M.Module, deadline: Nanos, content: Bytes)
      returns (s': State)
    requires s.pool.workers == [Compiling(e, m, deadline, content)] && deadline <= s.now
    requires s.svc.cache.items == map[] && e.ticket.id in s.disk.executions && e.ticket.budget.maxOutputBytes >= 0
    ensures Reaches(cfg, s, s') && Apart(s, s') && s'.pool.workers == [Idle]
    ensures s'.svc.cache.items == map[KeyOf(cfg, e, m) := Poison(s.now)]
    ensures s'.svc.cancels == s.svc.cancels - {e.ticket.id}
    ensures s'.svc.books == R.Release(s.svc.books, e.ticket.id, e.report.usage.cpuTime, s.now)
  {
    hide Next, Visits, Enabled, MayWork;
    var script := Instant(true, s.now, Expired);
    var s1 := PoisonLeads(cfg, script, s, e, m, deadline, content);
    s' := BackLeads(cfg, script, s1, FailedWith(e, ErrRuntime, ContextExpired, s.now));
    LeadsOn(Visits(cfg, script), s, s1, s');
    InstantIsAllowed(cfg, s, e.ticket, Expired, true);
    PathIsPossible(cfg, script, s, s');
  }

  lemma MissRuns(cfg: Config, s: State, e: Execution, m: M.Module, deadline: Nanos) returns (s': State)
    requires s.pool.workers == [Loading(e, m, deadline)] && s.pool.live && e.ticket.id !in s.svc.fired
    requires e.ticket.budget.timeout > 0 && e.ticket.budget.maxOutputBytes >= 0
    requires m.id in s.disk.shelf.contents && s.svc.cache.items == map[]
    ensures Reaches(cfg, s, s') && Apart(s, s') && s'.svc.cache.items == map[]
    ensures s'.pool.workers == [Compiling(e, m, deadline, ContentOf(s, m))]
    ensures s'.svc.books == s.svc.books && s'.svc.cancels == s.svc.cancels
  {
    hide Next, Visits, Enabled, MayWork;
    var script := Instant(true, s.now, Live);
    s' := MissLeads(cfg, script, s, e, m, deadline);
    InstantIsAllowed(cfg, s, e.ticket, Live, true);
    PathIsPossible(cfg, script, s, s');
  }

  /** The worker is idle again, and the cache holds nothing but the failure. */
  predicate Poisoned(cfg: Config, s: State, e: Execution, m: M.Module, s': State) {
    && s'.now == s.now + e.ticket.budget.timeout && Apart(s.(now := s'.now), s') && s'.pool.workers == [Idle]
    && s'.svc.cache.items == map[KeyOf(cfg, e, m) := Poison(s'.now)] && s'.svc.cancels == {}
    && s'.svc.books == R.Release(s.svc.books, e.ticket.id, e.report.usage.cpuTime, s'.now)
  }

  lemma ApartOn(a: State, b: State, c: State)
    requires Apart(a, b) && Apart(b, c)
    ensures Apart(a, c)
  {
  }

  lemma MarkedApart(cfg: Config, s: State, e: Execution, m: M.Module, deadline: Nanos)
    requires e.ticket.id in s.disk.executions
    ensures var s' := Marked(cfg, s, e, m, deadline);
            && Apart(s, s') && s'.svc == s.svc.(cancels := s.svc.cancels + {e.ticket.id})
            && s'.pool.workers == [Loading(Started(cfg, s, e), m, deadline)]
  {
  }

  lemma CompilingFrom(cfg: Config, s: State, e: Execution, m: M.Module, deadline: Nanos) returns (s': State)
    requires s.pool.workers == [Registering(e, m, deadline)] && s.pool.live && e.ticket.id !in s.svc.fired
    requires e.ticket.budget.timeout > 0 && e.ticket.budget.maxOutputBytes >= 0 && e.ticket.id in s.disk.executions
    requires m.id in s.disk.shelf.contents && s.svc.cache.items == map[]
    ensures Reaches(cfg, s, s') && Apart(s, s') && s'.svc.cache.items == map[]
    ensures s'.pool.workers == [Compiling(Started(cfg, s, e), m, deadline, ContentOf(s, m))]
    ensures s'.svc.books == s.svc.books && s'.svc.cancels == s.svc.cancels + {e.ticket.id}
  {
    hide Next, Enabled;
    MarkingRuns(cfg, s, e, m, deadline);
    var s1 := Marked(cfg, s, e, m, deadline);
    MarkedApart(cfg, s, e, m, deadline);
    s' := MissRuns(cfg, s1, Started(cfg, s, e), m, deadline);
    ApartOn(s, s1, s');
    ReachesOn(cfg, s, s1, s');
  }

  /** From where the run is about to be registered: time passes between the lookup and the compile. */
  lemma PoisonedFrom(cfg: Config, s: State, e: Execution, m: M.Module) returns (s': State)
    requires Unregistered(s, e, m) && m.id in s.disk.shelf.contents
    ensures Reaches(cfg, s, s') && Poisoned(cfg, s, e, m, s')
  {
    hide Next, Enabled;
    var deadline := s.now + e.ticket.budget.timeout;
    var s2 := CompilingFrom(cfg, s, e, m, deadline);
    var s3 := s2.(now := deadline);
    LaterIsPossible(cfg, s2, deadline);
    s' := PoisonRuns(cfg, s3, Started(cfg, s, e), m, deadline, ContentOf(s, m));
    ApartOn(s.(now := deadline), s3, s');
    ReachesOn(cfg, s, s2, s3);
    ReachesOn(cfg, s, s3, s');
  }

  // ---- Another submission beside a call that is over ----

  lemma SavingGoes(cfg: Config, s: State, c: nat, e: Execution, key: string, payload: Bytes)
    requires CallAt(s, c) == Call(Saving(e, key, payload), false)
    ensures Reaches(cfg, s, SetStep(s, c, Putting(e, payload)).(
                              disk := S.SaveEntry(s.disk, e.ticket.tenantId, key, e.ticket.id)))
  {
    hide Work;
    ReachesByStep(cfg, s, Continue(c, e.ticket.id));
  }

  lemma PuttingGoes(cfg: Config, s: State, c: nat, e: Execution, payload: Bytes)
    requires CallAt(s, c) == Call(Putting(e, payload), false)
    ensures Reaches(cfg, s, SetStep(s, c, Scheduling(e)).(
                              svc := s.svc.(payloads := s.svc.payloads[e.ticket.id := payload])))
  {
    hide Work;
    ReachesByStep(cfg, s, Continue(c, e.ticket.id));
  }

  lemma SchedulingGoes(cfg: Config, s: State, c: nat, e: Execution)
    requires CallAt(s, c) == Call(Scheduling(e), false)
    ensures Reaches(cfg, s, ScheduleTurn(s, c, e))
  {
    hide Work;
    ReachesByStep(cfg, s, Continue(c, e.ticket.id));
  }

  /** The queue with a single job. */
  function OneJob(job: Q.Job): Q.Ring {
    Q.Enqueue(Q.EMPTY, job)
  }

  /** The execution has been submitted and queued. */
  predicate Submitted(s: State, e: Execution, s': State) {
    && s'.pool == s.pool.(queue := OneJob(Q.Job(e.ticket.id, e.ticket.tenantId, s.now, 0)), notified := true)
    && s'.now == s.now
    && s'.svc == s.svc.(payloads := s'.svc.payloads)
    && s'.disk.shelf == s.disk.shelf && s'.disk.executions == s.disk.executions[e.ticket.id := e]
  }

  lemma CreatedRuns(cfg: Config, s: State, r: Request, j: Id, e: Execution) returns (s': State)
    requires OTHER !in s.calls && FindStep(s, r, false) == Asking(r) && AskStep(cfg, s, r, false, j) == Creating(e, r)
    requires e.ticket.id !in s.disk.executions
    ensures Reaches(cfg, s, s') && s' == CreateTurn(A.With(s, OTHER, Creating(e, r)), OTHER, e, r)
  {
    hide Work, Proceed, Enabled;
    var s0, s1, s2 := A.With(s, OTHER, Finding(r)), A.With(s, OTHER, Asking(r)), A.With(s, OTHER, Creating(e, r));
    ReachesByStep(cfg, s, Begin(OTHER, Finding(r)));
    LookingUp(cfg, s0, OTHER, j);
    assert SetStep(s0, OTHER, Asking(r)).calls == s1.calls;
    ReachesOn(cfg, s, s0, s1);
    LookingUp(cfg, s1, OTHER, j);
    assert SetStep(s1, OTHER, Creating(e, r)).calls == s2.calls;
    ReachesOn(cfg, s, s1, s2);
    CreatesOne(cfg, s2, OTHER, j, e, r);
    s' := CreateTurn(s2, OTHER, e, r);
    ReachesOn(cfg, s, s2, s');
  }

  lemma SubmissionBeside(cfg: Config, s: State, r: Request, j: Id, e: Execution) returns (s': State)
    requires OTHER !in s.calls && FindStep(s, r, false) == Asking(r) && AskStep(cfg, s, r, false, j) == Creating(e, r)
    requires e.ticket.id !in s.disk.executions && !s.pool.closed && s.pool.queue == Q.EMPTY
    ensures Reaches(cfg, s, s') && Submitted(s, e, s')
  {
    hide Next, Enabled;
    var s3 := CreatedRuns(cfg, s, r, j, e);
    SavingGoes(cfg, s3, OTHER, e, r.key, r.payload);
    var s4 := SetStep(s3, OTHER, Putting(e, r.payload)).(
      disk := S.SaveEntry(s3.disk, e.ticket.tenantId, r.key, e.ticket.id));
    ReachesOn(cfg, s, s3, s4);
    PuttingGoes(cfg, s4, OTHER, e, r.payload);
    var s5 := SetStep(s4, OTHER, Scheduling(e)).(svc := s4.svc.(payloads := s4.svc.payloads[e.ticket.id := r.payload]));
    ReachesOn(cfg, s, s4, s5);
    SchedulingGoes(cfg, s5, OTHER, e);
    s' := ScheduleTurn(s5, OTHER, e);
    ReachesOn(cfg, s, s5, s');
  }

  // ---- Its run up to the lookup ----

  /** A lease that was granted is granted again once it has been released with no CPU time used. */
  lemma GrantsAgain(b: R.Books, t: Tenant, i: Id, j: Id, pages: nat, now: Nanos, later: Nanos)
    requires b.quotas == map[] && b.leases == map[] && R.Acquire(b, t, i, pages, true, now).1.Granted?
    ensures var after := R.Release(R.Acquire(b, t, i, pages, true, now).0, i, 0, later);
            R.Acquire(after, t, j, pages, true, later).1.Granted?
  {
  }

  /** The worker is about to look an execution's module up. */
  predicate IsLookingUp(w: Worker, ticket: Ticket, m: M.Module) {
    w.Looking? && w.e.ticket == ticket && w.m == m
  }

  /** The run has got to its lookup. */
  predicate AtLookup(s: State, e: Execution, m: M.Module, s': State) {
    && |s'.pool.workers| == 1 && IsLookingUp(WorkerAt(s', ONLY), e.ticket, m)
    && s'.pool.live && s'.svc.fired == s.svc.fired
    && s'.svc.cache == s.svc.cache && s'.svc.runtimeClosed == s.svc.runtimeClosed
    && s'.disk.shelf == s.disk.shelf && s'.now == s.now
  }

  lemma LookingLeads(cfg: Config, script: Script, s: State, e: Execution, m: M.Module) returns (s': State)
    requires s.pool.workers == [Acquiring(e, m)] && s.pool.live && script == Instant(script.live, s.now, Live)
    requires m.id in s.disk.shelf.contents
    requires Grants(s, e)
    ensures Leads(Visits(cfg, script), s, s') && AtLookup(s, e, m, s')
  {
    hide Visits;
    var deadline := s.now + e.ticket.budget.timeout;
    assert Moves(s, Acquiring(e, m)) == s;
    LeaseLeads(cfg, script, s, e, m);
    var s1 := WithLease(s, e, m);
    MarkingLeads(cfg, script, s1, e, m, deadline);
    var s2 := Marked(cfg, s1, e, m, deadline);
    LeadsOn(Visits(cfg, script), s, s1, s2);
    LoadLeads(cfg, script, s2, Started(cfg, s1, e), m, deadline);
    s' := Moves(s2, Looking(Started(cfg, s1, e), m, deadline, ContentOf(s, m)));
    LeadsOn(Visits(cfg, script), s, s2, s');
  }

  lemma LookupRuns(cfg: Config, s: State, e: Execution, m: M.Module) returns (s': State)
    requires s.pool.workers == [Idle] && s.pool.live && !s.pool.closed
    requires s.pool.queue == OneJob(Q.Job(e.ticket.id, e.ticket.tenantId, s.now, 0))
    requires s.svc.canceled == {} && s.svc.fired == {} && e.status == Queued
    requires Keeps(s, e) && ModuleAt(s, e) == Some(m)
    requires m.id in s.disk.shelf.contents && e.ticket.budget.timeout > 0 && e.ticket.budget.maxOutputBytes >= 0
    requires Grants(s, e)
    ensures Reaches(cfg, s, s') && AtLookup(s, e, m, s')
  {
    hide Next, Work, Enabled, MayWork;
    var script, job := Instant(true, s.now, Live), Q.Job(e.ticket.id, e.ticket.tenantId, s.now, 0);
    OneJobRing(job);
    LooksDirectly(cfg, script, s);
    LookIsPossible(cfg, script, s);
    var s1 := TakesFront(s, job);
    DoorLeads(cfg, script, s1, job, e, m);
    s' := LookingLeads(cfg, script, Moves(s1, Acquiring(e, m)), e, m);
    LeadsOn(Visits(cfg, script), s1, Moves(s1, Acquiring(e, m)), s');
    InstantIsAllowed(cfg, s1, e.ticket, Live, true);
    PathIsPossible(cfg, script, s1, s');
    ReachesOn(cfg, s, s1, s');
  }

  /** The worker fails, with a failure that it found in the cache. */
  predicate FailsCached(w: Worker, ticket: Ticket, fault: Fault) {
    && w.Aborting? && w.e.ticket == ticket
    && w.e.status == Failed && w.e.errorClass == ErrRuntime && w.e.fault == CachedFailure(fault)
  }

  /** A lookup within the minute is answered with the failure. */
  lemma LookupFails(cfg: Config, s: State, ticket: Ticket, m: M.Module)
    requires |s.pool.workers| == 1 && IsLookingUp(WorkerAt(s, ONLY), ticket, m) && s.pool.live && s.svc.fired == {}
    requires ticket.budget.timeout > 0
    requires s.svc.cache.items == map[C.Key(ticket.tenantId, cfg.version, m.digest) := Poison(s.now)]
    ensures var look := DoWork(ONLY, WELL);
            Enabled(cfg, s, look) && FailsCached(WorkerAt(Next(cfg, s, look), ONLY), ticket, ContextExpired)
  {
    var p := s.pool.workers[0];
    assert LookTurn(cfg, s, p.e, p.m, p.deadline, p.content, Live).next ==
           Aborting(FailedWith(p.e, ErrRuntime, CachedFailure(ContextExpired), s.now));
  }

  // ---- From the start ----

  lemma LeasedRests(x: Case)
    requires Admitted(x)
    ensures var s := Leased(x);
            && s.pool.queue == Q.EMPTY && !s.pool.closed && s.svc.canceled == {}
            && s.disk.executions.Keys == x.disk.executions.Keys + {x.id}
            && s.disk.shelf == x.disk.shelf && RecordFor(x).report == NO_REPORT
  {
    S.RecoveryIsClean(x.disk.executions);
  }

  /** The later request for another execution of the same module. */
  function Later(x: Case, r: Request, j: Id): Case {
    x.(req := r, id := j, now := DeadlineOf(x))
  }

  predicate Follows(x: Case, r: Request, j: Id) {
    && j != x.id && Admitted(Later(x, r, j)) && r.key == ""
    && r.tenantId == x.req.tenantId && r.moduleId == x.req.moduleId && r.budget == x.req.budget
  }

  lemma FollowsUp(x: Case, r: Request, j: Id, s: State)
    requires Admitted(x) && Follows(x, r, j) && s.disk.shelf == x.disk.shelf && s.now == DeadlineOf(x)
    ensures FindStep(s, r, false) == Asking(r)
    ensures AskStep(x.cfg, s, r, false, j) == Creating(RecordFor(Later(x, r, j)), r)
  {
  }

  lemma FollowerFits(x: Case, r: Request, j: Id)
    requires Admitted(x) && Follows(x, r, j)
    ensures var e, t := RecordFor(Later(x, r, j)), RecordFor(x).ticket;
            && e.ticket.id == j && e.status == Queued && e.ticket.tenantId == t.tenantId
            && e.ticket.moduleId == x.req.moduleId && e.ticket.budget == t.budget
  {
  }

  lemma PoisonedRests(x: Case, r: Request, j: Id, s: State)
    requires Runs(x) && Follows(x, r, j) && Poisoned(x.cfg, Leased(x), RecordFor(x), x.m, s)
    ensures s.pool.queue == Q.EMPTY && !s.pool.closed && s.pool.live && s.svc.canceled == {} && s.svc.fired == {}
    ensures s.disk.shelf == x.disk.shelf && s.now == DeadlineOf(x) && OTHER !in s.calls && j !in s.disk.executions
    ensures Grants(s, RecordFor(Later(x, r, j)))
  {
    hide Next, Enabled;
    var t := RecordFor(x).ticket;
    LeasedIsUnregistered(x);
    LeasedRests(x);
    FollowerFits(x, r, j);
    GrantsAgain(First(x).svc.books, t.tenantId, x.id, j, t.budget.maxMemoryPages, x.now, s.now);
  }

  lemma LookupAfter(x: Case, r: Request, j: Id, s: State) returns (a: State)
    requires Runs(x) && Follows(x, r, j) && x.m.id in x.disk.shelf.contents
    requires Poisoned(x.cfg, Leased(x), RecordFor(x), x.m, s)
    ensures Reaches(x.cfg, s, a) && AtLookup(s, RecordFor(Later(x, r, j)), x.m, a)
  {
    hide Reaches, AskStep, FindStep;
    var e := RecordFor(Later(x, r, j));
    PoisonedRests(x, r, j, s);
    FollowsUp(x, r, j, s);
    FollowerFits(x, r, j);
    var s1 := SubmissionBeside(x.cfg, s, r, j, e);
    a := LookupRuns(x.cfg, s1, e, x.m);
    ReachesOn(x.cfg, s, s1, a);
  }

  /** A run of content that compiles is answered with another's missed deadline: the failure of a
      compile that found its context expired is in the cache when the next execution of the module
      looks there, on a live context and an open runtime. */
  lemma PoisonedLookup(x: Case, compiled: Compiled, r: Request, j: Id) returns (a: State)
    requires Runs(x) && Compiles(x.cfg, x.disk.shelf, x.m, compiled) && Follows(x, r, j)
    ensures Reaches(x.cfg, First(x), a) && a.pool.live && !a.svc.runtimeClosed && a.disk.shelf == x.disk.shelf
    ensures var look, ticket := DoWork(ONLY, WELL), RecordFor(Later(x, r, j)).ticket;
            && IsLookingUp(WorkerAt(a, ONLY), ticket, x.m) && Enabled(x.cfg, a, look)
            && FailsCached(WorkerAt(Next(x.cfg, a, look), ONLY), ticket, ContextExpired)
  {
    hide Next, Enabled;
    LeasedIsUnregistered(x);
    LeasedRests(x);
    FollowerFits(x, r, j);
    var s := PoisonedFrom(x.cfg, Leased(x), RecordFor(x), x.m);
    ReachesOn(x.cfg, First(x), Leased(x), s);
    a := LookupAfter(x, r, j, s);
    ReachesOn(x.cfg, First(x), s, a);
    LookupFails(x.cfg, a, RecordFor(Later(x, r, j)).ticket, x.m);
  }
}
