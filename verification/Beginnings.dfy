/** How a service that has just started comes to where interleavings matter: a submission about to
    be queued, and its execution queued and then leased by a worker. */
module Beginnings {
  import opened Common
  import opened Executions
  import opened ControlPlane
  import opened Paths
  import opened Reachability
  import opened Uninterrupted
  import opened Scripts
  import Q = RingQueue
  import R = Resources
  import S = Stores
  import M = Modules

  /** A service with one worker, on any store, and a request for a module that it admits. */
  datatype Case = Case(cfg: Config, disk: S.Disk, now: Nanos, past: Past, req: Request, id: Id, m: M.Module)

  /** The numbers of the first call and of another beside it. */
  const FIRST: nat := 0
  const OTHER: nat := 1

  /** What a worker finds out when all is well. */
  const WELL := Seeing(Live)

  function First(x: Case): State {
    Boot(x.cfg, x.disk, x.now, x.past)
  }

  predicate Admitted(x: Case) {
    && x.cfg.poolSize <= 1 && x.id !in x.disk.executions
    && FindStep(First(x), x.req, false) == Asking(x.req)
    && x.req.moduleId in x.disk.shelf.modules && x.disk.shelf.modules[x.req.moduleId] == x.m && x.m.id == x.req.moduleId
    && AskStep(x.cfg, First(x), x.req, false, x.id) == Creating(RecordFor(x), x.req)
  }

  /** The record that is created. */
  function RecordFor(x: Case): Execution {
    NewExecution(x.cfg, x.id, x.req, x.m, x.now)
  }

  /** The record is what is stored under its identifier. */
  predicate Keeps(s: State, e: Execution) {
    e.ticket.id in s.disk.executions && s.disk.executions[e.ticket.id] == e
  }

  function JobFor(x: Case): Q.Job {
    Q.Job(x.id, x.req.tenantId, x.now, 0)
  }

  // ---- The submission ----

  /** The record is stored, its key not yet. */
  function Stored(x: Case): State {
    var s, e := First(x), RecordFor(x);
    s.(calls := Only(Saving(e, x.req.key, x.req.payload), false),
       disk := s.disk.(executions := s.disk.executions[x.id := e]),
       hist := Created(s.hist, x.id, x.req))
  }

  /** The execution is about to be queued. */
  function Prepared(x: Case): State {
    var s := Stored(x);
    s.(calls := Only(Scheduling(RecordFor(x)), false),
       disk := S.SaveEntry(s.disk, x.req.tenantId, x.req.key, x.id),
       svc := s.svc.(payloads := s.svc.payloads[x.id := x.req.payload]))
  }

  /** It is queued, and the call answered. */
  function Queued(x: Case): State {
    var s := Prepared(x);
    s.(calls := Only(Answered(Some(RecordFor(x)), NoFault), false),
       pool := s.pool.(queue := Q.Enqueue(Q.EMPTY, JobFor(x)), notified := true),
       hist := s.hist.(place := s.hist.place[x.id := Waiting]))
  }

  lemma StoredIsReached(x: Case)
    requires Admitted(x)
    ensures Leads(Turns(x.cfg, x.id), Called(First(x), x.now, Finding(x.req), false), Stored(x))
  {
    var turns, s, e := Turns(x.cfg, x.id), First(x), RecordFor(x);
    var finding := Called(s, x.now, Finding(x.req), false);
    var asking := finding.(calls := Only(Asking(x.req), false));
    var creating := finding.(calls := Only(Creating(e, x.req), false));
    StepLeads(x.cfg, x.id, finding, Finding(x.req), false);
    StepLeads(x.cfg, x.id, asking, Asking(x.req), false);
    LeadsOn(turns, finding, asking, creating);
    CreateLeads(x.cfg, x.id, creating, e, x.req, false);
    LeadsOn(turns, finding, creating, Stored(x));
  }

  lemma PreparedIsReached(x: Case)
    requires Admitted(x)
    ensures Leads(Turns(x.cfg, x.id), Stored(x), Prepared(x))
  {
    var turns, s, e := Turns(x.cfg, x.id), Stored(x), RecordFor(x);
    SaveLeads(x.cfg, x.id, s, e, x.req.key, x.req.payload, false);
    var putting := s.(calls := Only(Putting(e, x.req.payload), false),
                      disk := S.SaveEntry(s.disk, x.req.tenantId, x.req.key, x.id));
    PutLeads(x.cfg, x.id, putting, e, x.req.payload, false);
    LeadsOn(turns, s, putting, Prepared(x));
  }

  lemma QueuedIsReached(x: Case)
    requires Admitted(x)
    ensures Leads(Turns(x.cfg, x.id), Prepared(x), Queued(x))
  {
    ScheduleLeads(x.cfg, x.id, Prepared(x), RecordFor(x), false);
  }

  lemma SubmissionRuns(x: Case)
    requires Admitted(x)
    ensures Reaches(x.cfg, First(x), Stored(x)) && Reaches(x.cfg, First(x), Prepared(x))
    ensures Reaches(x.cfg, First(x), Queued(x))
  {
    hide Next, Proceed, Enabled;
    var turns, called := Turns(x.cfg, x.id), Called(First(x), x.now, Finding(x.req), false);
    StoredIsReached(x);
    PreparedIsReached(x);
    QueuedIsReached(x);
    LeadsOn(turns, called, Stored(x), Prepared(x));
    LeadsOn(turns, called, Prepared(x), Queued(x));
    CallIsPossible(x.cfg, x.id, First(x), x.now, Finding(x.req), false, Stored(x));
    CallIsPossible(x.cfg, x.id, First(x), x.now, Finding(x.req), false, Prepared(x));
    CallIsPossible(x.cfg, x.id, First(x), x.now, Finding(x.req), false, Queued(x));
  }

  // ---- The worker ----

  /** The only worker has taken the job. */
  function Taken(x: Case): State {
    var s := Queued(x);
    s.(pool := s.pool.(queue := Prepared(x).pool.queue, workers := [Holding(JobFor(x))]),
       hist := s.hist.(place := s.hist.place[x.id := Held(0)]))
  }

  lemma OneJobRing(job: Q.Job)
    ensures var r := Q.Enqueue(Q.EMPTY, job);
            Q.Valid(r) && r.entries != [] && Q.Front(r) == job && Q.Dequeue(r) == Q.EMPTY
  {
    assert Q.Enqueue(Q.EMPTY, job).entries == [Q.Entry(job.tenantId, [job])];
  }

  lemma TakenIsReached(x: Case)
    requires Admitted(x)
    ensures Reaches(x.cfg, First(x), Taken(x))
  {
    hide Next, Work, Enabled;
    var script := Instant(true, x.now, Live);
    SubmissionRuns(x);
    OneJobRing(JobFor(x));
    assert Workers(x.cfg) == [Idle];
    LooksDirectly(x.cfg, script, Queued(x));
    LookIsPossible(x.cfg, script, Queued(x));
    assert Looks(x.cfg, script, Queued(x)) == Taken(x);
    ReachesOn(x.cfg, First(x), Queued(x), Taken(x));
  }

  /** The quotas of the tenant, as they are at the start, grant the lease. */
  predicate Granting(x: Case) {
    Grants(First(x), RecordFor(x))
  }

  function DeadlineOf(x: Case): Nanos {
    x.now + RecordFor(x).ticket.budget.timeout
  }

  /** The lease is granted to the only worker, and the run is about to be registered. */
  function WithLease(s: State, e: Execution, m: M.Module): State {
    var t := e.ticket;
    var books := R.Acquire(s.svc.books, t.tenantId, t.id, t.budget.maxMemoryPages, true, s.now).0;
    s.(pool := s.pool.(workers := [Registering(e, m, s.now + t.budget.timeout)]), svc := s.svc.(books := books))
  }

  function Leased(x: Case): State {
    WithLease(Taken(x), RecordFor(x), x.m)
  }

  /** The execution's module, if it is on the shelf. */
  function ModuleAt(s: State, e: Execution): Option<M.Module> {
    var id := e.ticket.moduleId;
    if id in s.disk.shelf.modules then Some(s.disk.shelf.modules[id]) else None
  }

  lemma DoorLeads(cfg: Config, script: Script, s: State, job: Q.Job, e: Execution, m: M.Module)
    requires s.pool.workers == [Holding(job)] && s.now == script.begin.now && s.pool.live
    requires e.ticket.id == job.executionId && e.ticket.id !in s.svc.canceled && !Terminal(e)
    requires Keeps(s, e) && ModuleAt(s, e) == Some(m)
    ensures Leads(Visits(cfg, script), s, Moves(s, Acquiring(e, m)))
  {
    hide Visits;
    var visits := Visits(cfg, script);
    var starting, resolving := Moves(s, Starting(e.ticket.id)), Moves(s, Resolving(e));
    HoldLeads(cfg, script, s, job);
    TakeUpLeads(cfg, script, starting, e.ticket.id);
    LeadsOn(visits, s, starting, resolving);
    ResolveLeads(cfg, script, resolving, e);
    LeadsOn(visits, s, resolving, Moves(s, Acquiring(e, m)));
  }

  /** The quotas grant the execution's lease. */
  predicate Grants(s: State, e: Execution) {
    var t := e.ticket;
    R.Acquire(s.svc.books, t.tenantId, t.id, t.budget.maxMemoryPages, true, s.now).1.Granted?
  }

  lemma LeaseLeads(cfg: Config, script: Script, s: State, e: Execution, m: M.Module)
    requires script.begin.now == s.now && Grants(s, e) && s.pool.live
    ensures Leads(Visits(cfg, script), Moves(s, Acquiring(e, m)), WithLease(s, e, m))
  {
    hide Visits;
    var t := e.ticket;
    var (books, grant) := R.Acquire(s.svc.books, t.tenantId, t.id, t.budget.maxMemoryPages, true, s.now);
    AcquireLeads(cfg, script, Moves(s, Acquiring(e, m)), e, m, books, grant);
  }

  lemma TakenLeads(x: Case, script: Script)
    requires Admitted(x) && Granting(x) && script.begin.now == x.now
    ensures Leads(Visits(x.cfg, script), Taken(x), Leased(x))
  {
    DoorLeads(x.cfg, script, Taken(x), JobFor(x), RecordFor(x), x.m);
    LeaseLeads(x.cfg, script, Taken(x), RecordFor(x), x.m);
    LeadsOn(Visits(x.cfg, script), Taken(x), Moves(Taken(x), Acquiring(RecordFor(x), x.m)), Leased(x));
  }

  lemma LeasedIsReached(x: Case)
    requires Admitted(x) && Granting(x)
    requires var b := RecordFor(x).ticket.budget; b.timeout > 0 && b.maxOutputBytes >= 0
    ensures Reaches(x.cfg, First(x), Leased(x))
  {
    hide Next, Visits, MayWork;
    var script := Instant(true, x.now, Live);
    TakenIsReached(x);
    TakenLeads(x, script);
    InstantIsAllowed(x.cfg, Taken(x), RecordFor(x).ticket, Live, true);
    PathIsPossible(x.cfg, script, Taken(x), Leased(x));
    ReachesOn(x.cfg, First(x), Taken(x), Leased(x));
  }
}
