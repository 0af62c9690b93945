/** What the running service charges its tenants: its books follow the history of its runs, so that
    a lease is denied for CPU time exactly when what was reported since the window opened reaches
    the limit. */
module Charges {
  import opened Common
  import opened Executions
  import opened ControlPlane
  import opened Custody
  import opened Records
  import opened Leases
  import opened Ledger
  import opened Waiting
  import opened Overshoot
  import M = Modules
  import R = Resources
  import S = Stores
  import W = Windows

  /** The most CPU time that any execution of the run is measured at. */
  function MostOf(run: seq<Action>): nat {
    if run == [] then 0
    else if run[0].DoWork? && run[0].input.cpu > MostOf(run[1..]) then run[0].input.cpu
    else MostOf(run[1..])
  }

  lemma {:induction false} MeasuredWithinMost(run: seq<Action>)
    ensures MeasuredWithin(run, MostOf(run))
  {
    if run != [] {
      MeasuredWithinMost(run[1..]);
      forall i | 0 <= i < |run| && run[i].DoWork? ensures run[i].input.cpu <= MostOf(run) {
        if i > 0 { assert run[i] == run[1..][i - 1]; }
      }
    }
  }

  lemma {:induction false} PossibleIsOrderly(r: R.Run, ops: seq<R.Op>, most: nat)
    requires R.Possible(r, ops, most)
    ensures W.Orderly(r, ops)
    decreases ops
  {
    if ops != [] { PossibleIsOrderly(R.Step(r, ops[0]), ops[1..], most); }
  }

  /** The books and the clock as a run starts. */
  function Opening(cfg: Config, now: Nanos): R.Run {
    W.Fresh(cfg.maxConcurrent, cfg.maxCpu, cfg.maxPages, now)
  }

  /** What a run from a start does to the books. */
  ghost function OpsOf(cfg: Config, disk: S.Disk, now: Nanos, past: Past, run: seq<Action>): seq<R.Op> {
    BooksOps(cfg, Boot(cfg, disk, now, past), run)
  }

  lemma RunsAreOrderly(cfg: Config, disk: S.Disk, now: Nanos, past: Past, run: seq<Action>)
    requires StoreOk(cfg, disk.executions) && Possible(cfg, Boot(cfg, disk, now, past), run) && NoRestart(run)
    ensures W.Orderly(Opening(cfg, now), OpsOf(cfg, disk, now, past, run))
    ensures Shows(Exec(cfg, Boot(cfg, disk, now, past), run),
                  R.Exec(Opening(cfg, now), OpsOf(cfg, disk, now, past, run)))
  {
    hide Next, Enabled;
    BootCustody(cfg, disk, now, past);
    BootRecords(cfg, disk, now, past);
    BootLeases(cfg, disk, now, past);
    BootLedger(cfg, disk, now, past);
    MeasuredWithinMost(run);
    RunsOnBooks(cfg, Boot(cfg, disk, now, past), run, Opening(cfg, now), MostOf(run));
    PossibleIsOrderly(Opening(cfg, now), OpsOf(cfg, disk, now, past, run), MostOf(run));
  }

  /** In every state of every run from a start up to the next: a tenant's CPU time used is the sum of
      what was reported for its leases since its window opened, and the window is the one that the
      history of its quota opened last. */
  lemma CpuIsCharged(cfg: Config, disk: S.Disk, now: Nanos, past: Past, run: seq<Action>, t: Tenant)
    requires StoreOk(cfg, disk.executions) && Possible(cfg, Boot(cfg, disk, now, past), run) && NoRestart(run)
    ensures var r, ops := Opening(cfg, now), OpsOf(cfg, disk, now, past, run);
            W.Follows(Exec(cfg, Boot(cfg, disk, now, past), run).svc.books, W.Touches(r, ops, t),
                      W.InForce(r.books.fallback, ops, t), t)
  {
    hide Next, Enabled;
    RunsAreOrderly(cfg, disk, now, past, run);
    W.ChargesAreReports(cfg.maxConcurrent, cfg.maxCpu, cfg.maxPages, now, OpsOf(cfg, disk, now, past, run), t);
  }

  /** How asking for a lease ends for an execution, by the leases its tenant has out, the limits in
      force and the CPU time spent: with the lease, or failed for the first that stands against it. */
  predicate Settled(held: nat, limits: R.Limits, spent: nat, e: Execution, now: Nanos, next: Worker) {
    var pages := e.ticket.budget.maxMemoryPages;
    && (next.Registering? <==> held < limits.concurrent && pages <= limits.memoryPages && spent < limits.cpuPerMinute)
    && (next == Rejecting(FailedWith(e, ErrResource, NoSlot, now)) <==> held >= limits.concurrent)
    && (next == Rejecting(FailedWith(e, ErrResource, TooManyPages, now)) <==>
          held < limits.concurrent && pages > limits.memoryPages)
    && (next == Rejecting(FailedWith(e, ErrResource, CpuSpent, now)) <==>
          held < limits.concurrent && pages <= limits.memoryPages && spent >= limits.cpuPerMinute)
  }

  lemma DecidedIsSettled(s: State, e: Execution, m: M.Module, held: nat, limits: R.Limits, spent: nat)
    requires s.pool.live
    requires var t := e.ticket;
             W.Decides(held, limits, spent, t.budget.maxMemoryPages,
                       R.Acquire(s.svc.books, t.tenantId, t.id, t.budget.maxMemoryPages, true, s.now).1)
    ensures Settled(held, limits, spent, e, s.now, AcquireTurn(s, e, m).next)
  {
  }

  /** So for every execution whose worker asks for its lease on a live pool. */
  lemma LeasesAreSettled(cfg: Config, disk: S.Disk, now: Nanos, past: Past, run: seq<Action>, w: nat, input: Input)
    requires StoreOk(cfg, disk.executions) && Possible(cfg, Boot(cfg, disk, now, past), run) && NoRestart(run)
    requires var s := Exec(cfg, Boot(cfg, disk, now, past), run); WorkerAt(s, w).Acquiring? && s.pool.live
    ensures var s, r := Exec(cfg, Boot(cfg, disk, now, past), run), Opening(cfg, now);
            var ops, e := OpsOf(cfg, disk, now, past, run), WorkerAt(s, w).e;
            var t := e.ticket.tenantId;
            Settled(|R.LeasesOf(s.svc.books, t)|, W.InForce(r.books.fallback, ops, t),
                    W.Spent(W.Touches(r, ops, t), s.now), e, s.now, TurnOf(cfg, s, w, input).next)
  {
    hide Next, Enabled, Boot, Possible, NoRestart, R.Exec, W.Touches, W.Spent, W.InForce, Settled, R.LeasesOf;
    var s, r := Exec(cfg, Boot(cfg, disk, now, past), run), Opening(cfg, now);
    var ops, p := OpsOf(cfg, disk, now, past, run), WorkerAt(s, w);
    var t := p.e.ticket;
    RunsAreOrderly(cfg, disk, now, past, run);
    W.AcquiresExactly(cfg.maxConcurrent, cfg.maxCpu, cfg.maxPages, now, ops, t.tenantId, t.id,
                      t.budget.maxMemoryPages);
    DecidedIsSettled(s, p.e, p.m, |R.LeasesOf(s.svc.books, t.tenantId)|, W.InForce(r.books.fallback, ops, t.tenantId),
                     W.Spent(W.Touches(r, ops, t.tenantId), s.now));
  }
}
