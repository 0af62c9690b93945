/** How far tenants can get over their quotas in the running service: its books go through the
    operations of its runs, so that the bounds on those are bounds on it. */
module Overshoot {
  import opened Common
  import opened Simulation
  import opened ControlPlane
  import opened Custody
  import opened Records
  import opened Leases
  import opened Ledger
  import opened Waiting
  import R = Resources
  import C = Caching
  import S = Stores

  /** What a worker's step does to the books. */
  function WorkerOp(s: State, p: Worker): Option<R.Op> {
    match p
    case Acquiring(e, _) =>
      Some(R.Take(e.ticket.tenantId, e.ticket.id, e.ticket.budget.maxMemoryPages, s.pool.live))
    case Releasing(e) => Some(R.GiveBack(e.ticket.id, e.report.usage.cpuTime))
    case _ => None
  }

  function BooksOp(s: State, a: Action): Option<R.Op> {
    match a
    case DoWork(w, _) => WorkerOp(s, WorkerAt(s, w))
    case SetQuota(t, limits) => Some(R.Change(t, limits))
    case ReadQuota(t) => Some(R.Look(t))
    case Tick(time) => Some(R.Pass(time))
    case _ => None
  }

  function Done(r: R.Run, op: Option<R.Op>): R.Run {
    if op.Some? then R.Step(r, op.value) else r
  }

  /** The books and the clock are those of the service. */
  predicate Shows(s: State, r: R.Run) {
    r.books == s.svc.books && r.now == s.now
  }

  lemma EarlyOnBooks(cfg: Config, s: State, w: nat, input: Input, r: R.Run)
    requires Shows(s, r) && (AtDoor(WorkerAt(s, w)) || AtLease(WorkerAt(s, w)))
    ensures Done(r, WorkerOp(s, WorkerAt(s, w))).books == TurnOf(cfg, s, w, input).svc.books
  {
  }

  lemma LateOnBooks(cfg: Config, s: State, w: nat, input: Input, r: R.Run)
    requires Shows(s, r) && !(AtDoor(WorkerAt(s, w)) || AtLease(WorkerAt(s, w)))
    ensures Done(r, WorkerOp(s, WorkerAt(s, w))).books == TurnOf(cfg, s, w, input).svc.books
  {
  }

  lemma StepOnBooks(cfg: Config, s: State, a: Action, r: R.Run)
    requires Shows(s, r) && Enabled(cfg, s, a) && !a.Restart?
    ensures Shows(Next(cfg, s, a), Done(r, BooksOp(s, a)))
  {
    hide TurnOf, Boot;
    match a
    case DoWork(w, input) =>
      if AtDoor(s.pool.workers[w]) || AtLease(s.pool.workers[w]) {
        EarlyOnBooks(cfg, s, w, input, r);
      } else {
        LateOnBooks(cfg, s, w, input, r);
      }
    case Continue(c, x) => BooksApart(cfg, s, c, x);
    case _ =>
  }

  /** What a run does to the books. */
  ghost function BooksOps(cfg: Config, s: State, run: seq<Action>): seq<R.Op>
    decreases run
  {
    if run == [] then [] else Listed(BooksOp(s, run[0])) + BooksOps(cfg, Next(cfg, s, run[0]), run[1..])
  }

  lemma DoneListed(r: R.Run, op: Option<R.Op>, ops: seq<R.Op>, most: nat)
    ensures R.Exec(r, Listed(op) + ops) == R.Exec(Done(r, op), ops)
    ensures (op.Some? ==> R.Allowed(r, op.value, most)) && R.Possible(Done(r, op), ops, most) ==>
              R.Possible(r, Listed(op) + ops, most)
  {
    if op.Some? {
      assert (Listed(op) + ops)[1..] == ops;
    } else {
      assert Listed(op) + ops == ops;
    }
  }

  // ---- CPU time measured ----

  /** No execution of the run is measured at more than this. */
  predicate MeasuredWithin(run: seq<Action>, most: nat) {
    forall i :: 0 <= i < |run| && run[i].DoWork? ==> run[i].input.cpu <= most
  }

  predicate CpuWithin(w: Worker, most: nat) {
    AtEnd(w) ==> w.e.report.usage.cpuTime <= most
  }

  ghost predicate CpuOk(s: State, most: nat) {
    forall w :: 0 <= w < |s.pool.workers| ==> CpuWithin(s.pool.workers[w], most)
  }

  predicate MeasuredAt(a: Action, most: nat) {
    a.DoWork? ==> a.input.cpu <= most
  }

  lemma EarlyCpu(cfg: Config, s: State, w: nat, input: Input, most: nat)
    requires NoCpu(WorkerAt(s, w)) && (AtDoor(WorkerAt(s, w)) || AtLease(WorkerAt(s, w)))
    ensures CpuWithin(TurnOf(cfg, s, w, input).next, most)
  {
  }

  lemma LoadCpu(cfg: Config, s: State, w: nat, input: Input, most: nat)
    requires NoCpu(WorkerAt(s, w)) && AtLoad(WorkerAt(s, w))
    ensures CpuWithin(TurnOf(cfg, s, w, input).next, most)
  {
    hide C.Get, Compile;
  }

  lemma ExecutingCpu(cfg: Config, s: State, w: nat, input: Input, most: nat)
    requires NoCpu(WorkerAt(s, w)) && WorkerAt(s, w).Executing? && input.cpu <= most
    ensures CpuWithin(TurnOf(cfg, s, w, input).next, most)
  {
    hide C.Get, Compile;
  }

  lemma EndCpu(cfg: Config, s: State, w: nat, input: Input, most: nat)
    requires CpuWithin(WorkerAt(s, w), most) && AtEnd(WorkerAt(s, w))
    ensures CpuWithin(TurnOf(cfg, s, w, input).next, most)
  {
    hide C.Get, Compile, Conclude;
  }

  lemma StepKeepsCpu(cfg: Config, s: State, a: Action, most: nat)
    requires FreshRecords(s) && CpuOk(s, most) && Enabled(cfg, s, a) && MeasuredAt(a, most)
    ensures CpuOk(Next(cfg, s, a), most)
  {
    hide TurnOf;
    match a
    case DoWork(w, input) =>
      var p := s.pool.workers[w];
      assert NoCpu(p) && CpuWithin(p, most);
      if AtDoor(p) || AtLease(p) { EarlyCpu(cfg, s, w, input, most); }
      else if AtLoad(p) { LoadCpu(cfg, s, w, input, most); }
      else if p.Executing? { ExecutingCpu(cfg, s, w, input, most); }
      else { EndCpu(cfg, s, w, input, most); }
    case Continue(c, x) => BooksApart(cfg, s, c, x);
    case _ =>
  }

  /** A lease is asked for under an identifier that is free, and returned with CPU time within the
      measure. */
  lemma WorkIsAllowed(s: State, w: nat, r: R.Run, most: nat)
    requires WorkersPlaced(s.hist.place, s.pool.workers)
    requires Tracks(Lease, s.svc.books.leases.Keys, s.hist.place, s.pool.workers)
    requires CpuOk(s, most) && Shows(s, r)
    ensures var op := WorkerOp(s, WorkerAt(s, w)); op.Some? ==> R.Allowed(r, op.value, most)
  {
    if WorkerAt(s, w).Acquiring? {
      assert At(s.hist.place, s.pool.workers[w].e.ticket.id, Held(w));
    }
  }

  lemma OpIsAllowed(cfg: Config, s: State, a: Action, r: R.Run, most: nat)
    requires InCustody(s) && LeasesOk(s) && CpuOk(s, most) && Shows(s, r) && Enabled(cfg, s, a)
    ensures BooksOp(s, a).Some? ==> R.Allowed(r, BooksOp(s, a).value, most)
  {
    if a.DoWork? {
      WorkIsAllowed(s, a.w, r, most);
    }
  }

  // ---- Runs ----

  /** What the bound rests on. */
  ghost predicate Measured(cfg: Config, s: State, most: nat) {
    InCustody(s) && RecordsOk(cfg, s) && LeasesOk(s) && FreshRecords(s) && Balance(s) && CpuOk(s, most)
  }

  lemma StepKeepsMeasured(cfg: Config, s: State, a: Action, most: nat)
    requires Measured(cfg, s, most) && Enabled(cfg, s, a) && MeasuredAt(a, most)
    ensures Measured(cfg, Next(cfg, s, a), most)
  {
    hide Next;
    StepKeepsCustody(cfg, s, a);
    StepKeepsRecords(cfg, s, a);
    StepKeepsLeases(cfg, s, a);
    StepKeepsLedger(cfg, s, a);
    StepKeepsCpu(cfg, s, a, most);
  }

  /** The books at the end of a run are what its operations make of those at its start, and its
      operations are such as the bounds allow. */
  lemma {:induction false} RunsOnBooks(cfg: Config, s: State, run: seq<Action>, r: R.Run, most: nat)
    requires Measured(cfg, s, most) && Possible(cfg, s, run) && NoRestart(run) && MeasuredWithin(run, most)
    requires Shows(s, r)
    ensures Shows(Exec(cfg, s, run), R.Exec(r, BooksOps(cfg, s, run)))
    ensures R.Possible(r, BooksOps(cfg, s, run), most)
    decreases run
  {
    hide Next, Enabled;
    if run != [] {
      var a, s' := run[0], Next(cfg, s, run[0]);
      StepKeepsMeasured(cfg, s, a, most);
      StepOnBooks(cfg, s, a, r);
      OpIsAllowed(cfg, s, a, r, most);
      RunsOnBooks(cfg, s', run[1..], Done(r, BooksOp(s, a)), most);
      DoneListed(r, BooksOp(s, a), BooksOps(cfg, s', run[1..]), most);
    }
  }

  /** A tenant's quota is within these highest limits, but for `most` for every slot, and so are the
      pages that it has on lease. */
  ghost predicate Bounded(b: R.Books, peak: R.Limits, most: nat, t: Tenant) {
    && (t in b.quotas ==>
          var q := b.quotas[t];
          && q.cpuUsed + q.active * most <= R.Max(0, peak.cpuPerMinute) + R.Max(0, peak.concurrent) * most
          && 0 <= q.active <= R.Max(0, peak.concurrent) && q.active == |R.LeasesOf(b, t)|)
    && R.PagesOf(b.leases, R.LeasesOf(b, t)) <= R.Max(0, peak.concurrent) * R.Max(0, peak.memoryPages)
  }

  /** In every state of every run from a start up to the next, whatever its workers and calls do, no
      execution of which is measured at more than `most`: a tenant's CPU time in the window, and
      what its leases may still report, stay within the highest limit it has had but for `most` for
      every slot, and its pages on lease within its highest slots times its highest pages. */
  lemma OvershootIsBounded(cfg: Config, disk: S.Disk, now: Nanos, past: Past, run: seq<Action>, most: nat, t: Tenant)
    requires StoreOk(cfg, disk.executions) && Possible(cfg, Boot(cfg, disk, now, past), run)
    requires NoRestart(run) && MeasuredWithin(run, most)
    ensures var first := Boot(cfg, disk, now, past);
            var r := R.Exec(R.Run(first.svc.books, now, map[]), BooksOps(cfg, first, run));
            r.books == Exec(cfg, first, run).svc.books && Bounded(r.books, R.Peak(r, t), most, t)
  {
    hide Next, Enabled;
    var first := Boot(cfg, disk, now, past);
    var r := R.Run(first.svc.books, now, map[]);
    BootCustody(cfg, disk, now, past);
    BootRecords(cfg, disk, now, past);
    BootLeases(cfg, disk, now, past);
    BootLedger(cfg, disk, now, past);
    RunsOnBooks(cfg, first, run, r, most);
    R.OvershootBound(cfg.maxConcurrent, cfg.maxCpu, cfg.maxPages, now, BooksOps(cfg, first, run), most, t);
  }
}
