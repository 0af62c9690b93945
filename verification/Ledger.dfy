/** Conservation of CPU time and of the execution count between the quota manager and the
    meter, whatever the interleaving. */
module Ledger {
  import opened Common
  import opened Executions
  import opened ControlPlane
  import opened Custody
  import opened Records
  import opened Leases
  import S = Stores
  import T = Meters

  // ---- What is under way ----

  /** CPU time a worker has recorded, or has none of, and has yet to release. */
  function Owed(w: Worker, t: Tenant): nat {
    if (w.Unwinding? || w.Releasing?) && w.e.ticket.tenantId == t then w.e.report.usage.cpuTime else 0
  }

  /** An execution that has run and is not yet metered. */
  function Unmetered(w: Worker, t: Tenant): nat {
    if (w.Finishing? || w.Metering?) && w.e.ticket.tenantId == t then 1 else 0
  }

  function TotalOwed(workers: seq<Worker>, t: Tenant): nat {
    if workers == [] then 0 else Owed(workers[0], t) + TotalOwed(workers[1..], t)
  }

  function TotalUnmetered(workers: seq<Worker>, t: Tenant): nat {
    if workers == [] then 0 else Unmetered(workers[0], t) + TotalUnmetered(workers[1..], t)
  }

  lemma {:induction false} Replace(workers: seq<Worker>, w: nat, next: Worker, t: Tenant)
    requires w < |workers|
    ensures TotalOwed(workers[w := next], t) + Owed(workers[w], t) == TotalOwed(workers, t) + Owed(next, t)
    ensures TotalUnmetered(workers[w := next], t) + Unmetered(workers[w], t) ==
            TotalUnmetered(workers, t) + Unmetered(next, t)
  {
    if w == 0 {
      assert workers[w := next][1..] == workers[1..];
    } else {
      Replace(workers[1..], w - 1, next, t);
      assert workers[w := next][1..] == workers[1..][w - 1 := next];
    }
  }

  lemma {:induction false} NoneUnderWay(workers: seq<Worker>, t: Tenant)
    requires forall w :: 0 <= w < |workers| ==> HeldId(workers[w]) == None
    ensures TotalOwed(workers, t) == 0 && TotalUnmetered(workers, t) == 0
  {
    if workers != [] { NoneUnderWay(workers[1..], t); }
  }

  // ---- Records that have not run carry no CPU time ----

  /** Past its execution, or done with. */
  predicate Spent(place: map<Id, Place>, workers: seq<Worker>, id: Id) {
    id in place &&
    (place[id] == Gone ||
     (place[id].Held? && place[id].worker < |workers| && AtEnd(workers[place[id].worker]) &&
      !workers[place[id].worker].Aborting?))
  }

  predicate BeforeRun(w: Worker) {
    MidStart(w) || AtLoad(w) || w.Executing? || w.Aborting?
  }

  /** What it has in hand has used no CPU time yet. */
  predicate NoCpu(w: Worker) {
    BeforeRun(w) ==> w.e.report.usage.cpuTime == 0
  }

  /** Nor has what it is about to take up. */
  predicate FreshStart(executions: map<Id, Execution>, w: Worker) {
    w.Starting? && w.id in executions ==> executions[w.id].report.usage.cpuTime == 0
  }

  ghost predicate FreshRecords(s: State) {
    && (forall id :: id in s.disk.executions && !Spent(s.hist.place, s.pool.workers, id) ==>
          s.disk.executions[id].report.usage.cpuTime == 0)
    && (forall w :: 0 <= w < |s.pool.workers| && BeforeRun(s.pool.workers[w]) ==>
          s.pool.workers[w].e.report.usage.cpuTime == 0)
    && (forall c :: c in s.calls ==> FreshCall(s.hist.place, s.pool.workers, s.calls[c].step))
  }

  predicate FreshCall(place: map<Id, Place>, workers: seq<Worker>, step: CallStep) {
    && (step.Creating? ==> step.e.report.usage.cpuTime == 0)
    && (CallRecord(step).Some? && !Spent(place, workers, CallRecord(step).value.ticket.id) ==>
          CallRecord(step).value.report.usage.cpuTime == 0)
  }

  /** For each tenant: CPU time released plus what workers still owe is what the meter has, and
      the executions run are those metered plus those about to be. */
  ghost predicate Balance(s: State) {
    forall t ::
      && Count(s.hist.released, t) + TotalOwed(s.pool.workers, t) == T.UsageOf(s.svc.usage, t).cpuTime
      && Count(s.hist.ran, t) == T.UsageOf(s.svc.usage, t).executions + TotalUnmetered(s.pool.workers, t)
  }

  // ---- A worker's turn ----

  ghost predicate LedgerTurn(s: State, p: Worker, t: Turn, x: Tenant) {
    var mine := TenantOf(p) == x;
    && (if mine then t.cpu else 0) + Owed(t.next, x) + T.UsageOf(s.svc.usage, x).cpuTime ==
       Owed(p, x) + T.UsageOf(t.svc.usage, x).cpuTime
    && (if mine && t.ran then 1 else 0) + Unmetered(p, x) + T.UsageOf(s.svc.usage, x).executions
       == T.UsageOf(t.svc.usage, x).executions + Unmetered(t.next, x)
  }

  lemma DoorLedger(cfg: Config, s: State, w: nat, input: Input, x: Tenant)
    requires w < |s.pool.workers| && AtDoor(WorkerAt(s, w))
    ensures LedgerTurn(s, WorkerAt(s, w), TurnOf(cfg, s, w, input), x)
  {
  }

  lemma LeaseLedger(cfg: Config, s: State, w: nat, input: Input, x: Tenant)
    requires w < |s.pool.workers| && AtLease(WorkerAt(s, w)) && NoCpu(WorkerAt(s, w))
    ensures LedgerTurn(s, WorkerAt(s, w), TurnOf(cfg, s, w, input), x)
  {
  }

  lemma LoadLedger(cfg: Config, s: State, w: nat, input: Input, x: Tenant)
    requires w < |s.pool.workers| && AtLoad(WorkerAt(s, w))
    ensures LedgerTurn(s, WorkerAt(s, w), TurnOf(cfg, s, w, input), x)
  {
  }

  lemma RunLedger(cfg: Config, s: State, w: nat, input: Input, x: Tenant)
    requires w < |s.pool.workers| && WorkerAt(s, w).Executing?
    ensures LedgerTurn(s, WorkerAt(s, w), TurnOf(cfg, s, w, input), x)
  {
  }

  lemma EndLedger(cfg: Config, s: State, w: nat, input: Input, x: Tenant)
    requires w < |s.pool.workers| && AtEnd(WorkerAt(s, w))
    requires NoCpu(WorkerAt(s, w))
    ensures LedgerTurn(s, WorkerAt(s, w), TurnOf(cfg, s, w, input), x)
  {
  }

  lemma WorkKeepsBalance(cfg: Config, s: State, w: nat, input: Input)
    requires FreshRecords(s) && Balance(s) && w < |s.pool.workers|
    ensures Balance(Work(cfg, s, w, input))
  {
    var p := s.pool.workers[w];
    var t := TurnOf(cfg, s, w, input);
    forall x
      ensures var s' := Work(cfg, s, w, input);
              && Count(s'.hist.released, x) + TotalOwed(s'.pool.workers, x) == T.UsageOf(s'.svc.usage, x).cpuTime
              && Count(s'.hist.ran, x) == T.UsageOf(s'.svc.usage, x).executions + TotalUnmetered(s'.pool.workers, x)
    {
      if AtDoor(p) { DoorLedger(cfg, s, w, input, x); }
      else if AtLease(p) { LeaseLedger(cfg, s, w, input, x); }
      else if AtEnd(p) { EndLedger(cfg, s, w, input, x); }
      else if AtLoad(p) { LoadLedger(cfg, s, w, input, x); }
      else { RunLedger(cfg, s, w, input, x); }
      Replace(s.pool.workers, w, t.next, x);
      assert Count(s.hist.released, x) + TotalOwed(s.pool.workers, x) == T.UsageOf(s.svc.usage, x).cpuTime;
    }
  }

  /** How a turn treats CPU time in the records it hands on and writes. */
  ghost predicate FreshTurn(p: Worker, t: Turn) {
    && (BeforeRun(t.next) ==> t.next.e.report.usage.cpuTime == 0)
    && (t.write.Some? && t.write.value.report.usage.cpuTime > 0 ==>
          HeldId(t.next) == None || (AtEnd(t.next) && !t.next.Aborting?))
    && (AtEnd(p) && !p.Aborting? ==> HeldId(t.next) == None || (AtEnd(t.next) && !t.next.Aborting?))
  }

  lemma EarlyFresh(cfg: Config, s: State, w: nat, input: Input)
    requires w < |s.pool.workers| && (AtDoor(WorkerAt(s, w)) || AtLease(WorkerAt(s, w)))
    requires NoCpu(WorkerAt(s, w))
    requires FreshStart(s.disk.executions, WorkerAt(s, w))
    ensures FreshTurn(WorkerAt(s, w), TurnOf(cfg, s, w, input))
  {
  }

  lemma LateFresh(cfg: Config, s: State, w: nat, input: Input)
    requires w < |s.pool.workers| && !(AtDoor(WorkerAt(s, w)) || AtLease(WorkerAt(s, w)))
    requires NoCpu(WorkerAt(s, w))
    ensures FreshTurn(WorkerAt(s, w), TurnOf(cfg, s, w, input))
  {
  }

  /** What is spent stays spent when one worker moves on. */
  lemma SpentStays(place: map<Id, Place>, workers: seq<Worker>, w: nat, t: Turn, id: Id)
    requires WorkersPlaced(place, workers) && w < |workers| && FreshTurn(workers[w], t)
    requires HeldId(t.next) == HeldId(workers[w]) || HeldId(t.next) == None ||
             (HeldId(workers[w]) == None && At(place, HeldId(t.next).value, Waiting))
    requires Spent(place, workers, id)
    ensures Spent(Moved(place, w, HeldId(workers[w]), HeldId(t.next)), workers[w := t.next], id)
  {
    if HeldId(workers[w]) == Some(id) { assert At(place, id, Held(w)); }
  }

  lemma FreshStep(s: State, s': State, w: nat, t: Turn)
    requires InCustody(s) && FreshRecords(s) && w < |s.pool.workers| && FreshTurn(WorkerAt(s, w), t)
    requires t.write.Some? ==> HeldId(WorkerAt(s, w)) == Some(t.write.value.ticket.id)
    requires HeldId(t.next) == HeldId(WorkerAt(s, w)) || HeldId(t.next) == None ||
             (HeldId(WorkerAt(s, w)) == None && At(s.hist.place, HeldId(t.next).value, Waiting))
    requires s'.pool.workers == s.pool.workers[w := t.next] && s'.calls == s.calls
    requires s'.hist.place == Moved(s.hist.place, w, HeldId(WorkerAt(s, w)), HeldId(t.next))
    requires s'.disk.executions == Write(s.disk.executions, t.write)
    ensures FreshRecords(s')
  {
    forall id ensures Spent(s.hist.place, s.pool.workers, id) ==> Spent(s'.hist.place, s'.pool.workers, id) {
      if Spent(s.hist.place, s.pool.workers, id) { SpentStays(s.hist.place, s.pool.workers, w, t, id); }
    }
    forall c | c in s'.calls ensures FreshCall(s'.hist.place, s'.pool.workers, s'.calls[c].step) {
      assert FreshCall(s.hist.place, s.pool.workers, s.calls[c].step);
    }
    forall id | id in s'.disk.executions && !Spent(s'.hist.place, s'.pool.workers, id)
      ensures s'.disk.executions[id].report.usage.cpuTime == 0
    {
      if t.write.Some? && t.write.value.ticket.id == id {
        assert At(s.hist.place, id, Held(w));
      } else {
        assert s'.disk.executions[id] == s.disk.executions[id];
      }
    }
  }

  lemma WorkKeepsFresh(cfg: Config, s: State, w: nat, input: Input)
    requires InCustody(s) && FreshRecords(s) && w < |s.pool.workers|
    ensures FreshRecords(Work(cfg, s, w, input))
  {
    hide TurnOf;
    var p := s.pool.workers[w];
    var t := TurnOf(cfg, s, w, input);
    TurnHolds(cfg, s, w, input);
    TurnQueue(cfg, s, w, input);
    if p.Starting? { assert At(s.hist.place, p.id, Held(w)); }
    if AtDoor(p) || AtLease(p) { EarlyFresh(cfg, s, w, input); } else { LateFresh(cfg, s, w, input); }
    if HeldId(p) == None && HeldId(t.next).Some? { QueueTaken(s.hist.place, s.pool.queue, w); }
    FreshStep(s, Work(cfg, s, w, input), w, t);
  }

  // ---- Calls ----

  lemma SpentApart(place: map<Id, Place>, workers: seq<Worker>, id: Id, p: Place, x: Id)
    requires (id in place ==> place[id].Submitting?) && !p.Held? && Spent(place, workers, x)
    ensures Spent(place[id := p], workers, x)
  {
  }

  lemma CallMovesItsOwn(cfg: Config, s: State, c: nat)
    requires InCustody(s) && c in s.calls && CallMove(s, c).Some?
    ensures CallMove(s, c).value.0 in s.hist.place ==> s.hist.place[CallMove(s, c).value.0].Submitting?
  {
    var id := SubmitId(s.calls[c].step);
    assert id.Some? ==> At(s.hist.place, id.value, Submitting(c));
  }

  lemma SubmitIsFresh(cfg: Config, s: State, c: nat, x: Id)
    requires c in s.calls && FreshCall(s.hist.place, s.pool.workers, CallAt(s, c).step)
    requires CallAt(s, c).step.Finding? || MidSubmit(CallAt(s, c).step)
    ensures var s' := Proceed(cfg, s, c, x);
            c in s'.calls && FreshCall(s.hist.place, s.pool.workers, CallAt(s', c).step)
  {
  }

  lemma CancelIsFresh(cfg: Config, s: State, c: nat, x: Id)
    requires c in s.calls && FreshCall(s.hist.place, s.pool.workers, CallAt(s, c).step)
    requires !(CallAt(s, c).step.Finding? || MidSubmit(CallAt(s, c).step))
    requires Named(s.disk.executions)
    requires CallAt(s, c).step.Fetching? && CallAt(s, c).step.id in s.disk.executions &&
             !Spent(s.hist.place, s.pool.workers, CallAt(s, c).step.id) ==>
               s.disk.executions[CallAt(s, c).step.id].report.usage.cpuTime == 0
    ensures var s' := Proceed(cfg, s, c, x);
            c in s'.calls && FreshCall(s.hist.place, s.pool.workers, CallAt(s', c).step)
  {
  }

  lemma ProceedKeepsFresh(cfg: Config, s: State, c: nat, x: Id)
    requires InCustody(s) && RecordsOk(cfg, s) && FreshRecords(s) && c in s.calls
    ensures FreshRecords(Proceed(cfg, s, c, x))
  {
    hide Proceed;
    var s' := Proceed(cfg, s, c, x);
    assert CallOk(cfg, s.disk.executions, s.calls[c].step) && FreshCall(s.hist.place, s.pool.workers, s.calls[c].step);
    CallApart(cfg, s, c, x);
    if s.calls[c].step.Finding? || MidSubmit(s.calls[c].step) {
      SubmitShape(cfg, s, c, x);
      SubmitIsFresh(cfg, s, c, x);
    } else {
      CancelShape(cfg, s, c, x);
      CancelIsFresh(cfg, s, c, x);
    }
    var move := CallMove(s, c);
    if move.Some? { CallMovesItsOwn(cfg, s, c); }
    forall id ensures Spent(s.hist.place, s.pool.workers, id) ==> Spent(s'.hist.place, s.pool.workers, id) {
      if move.Some? && Spent(s.hist.place, s.pool.workers, id) {
        SpentApart(s.hist.place, s.pool.workers, move.value.0, move.value.1, id);
      }
    }
    FreshPut(s, s', c);
  }

  lemma FreshPut(s: State, s': State, c: nat)
    requires FreshRecords(s) && c in s.calls && FreshCall(s.hist.place, s.pool.workers, CallAt(s, c).step)
    requires s'.disk.executions == Put(s.disk.executions, CallWrite(s, c)) && s'.pool.workers == s.pool.workers
    requires c in s'.calls && s'.calls == s.calls[c := CallAt(s', c)]
    requires FreshCall(s.hist.place, s.pool.workers, CallAt(s', c).step)
    requires forall id :: Spent(s.hist.place, s.pool.workers, id) ==> Spent(s'.hist.place, s.pool.workers, id)
    ensures FreshRecords(s')
  {
    forall k | k in s'.calls ensures FreshCall(s'.hist.place, s'.pool.workers, s'.calls[k].step) {
      assert FreshCall(s.hist.place, s.pool.workers, s'.calls[k].step);
    }
  }

  lemma BootLedger(cfg: Config, disk: S.Disk, now: Nanos, past: Past)
    ensures FreshRecords(Boot(cfg, disk, now, past)) && Balance(Boot(cfg, disk, now, past))
  {
    var s := Boot(cfg, disk, now, past);
    forall t ensures TotalOwed(s.pool.workers, t) == 0 && TotalUnmetered(s.pool.workers, t) == 0 {
      NoneUnderWay(s.pool.workers, t);
    }
  }

  lemma BooksUntouched(cfg: Config, s: State, c: nat, x: Id)
    requires c in s.calls
    ensures var s' := Proceed(cfg, s, c, x);
            && s'.svc.usage == s.svc.usage && s'.pool.workers == s.pool.workers
            && s'.hist.released == s.hist.released && s'.hist.ran == s.hist.ran
  {
  }

  lemma ProceedKeepsBalance(cfg: Config, s: State, c: nat, x: Id)
    requires c in s.calls && Balance(s)
    ensures Balance(Proceed(cfg, s, c, x))
  {
    hide Proceed;
    var s' := Proceed(cfg, s, c, x);
    BooksUntouched(cfg, s, c, x);
    forall t
      ensures Count(s'.hist.released, t) + TotalOwed(s'.pool.workers, t) == T.UsageOf(s'.svc.usage, t).cpuTime
      ensures Count(s'.hist.ran, t) == T.UsageOf(s'.svc.usage, t).executions + TotalUnmetered(s'.pool.workers, t)
    {
    }
  }

  lemma StepKeepsLedger(cfg: Config, s: State, a: Action)
    requires InCustody(s) && RecordsOk(cfg, s) && FreshRecords(s) && Balance(s) && Enabled(cfg, s, a)
    ensures FreshRecords(Next(cfg, s, a)) && Balance(Next(cfg, s, a))
  {
    hide Work, Proceed;
    match a
    case DoWork(w, input) =>
      WorkKeepsFresh(cfg, s, w, input);
      WorkKeepsBalance(cfg, s, w, input);
    case Continue(c, x) =>
      ProceedKeepsFresh(cfg, s, c, x);
      ProceedKeepsBalance(cfg, s, c, x);
    case Restart => BootLedger(cfg, s.disk, s.now, s.hist.past);
    case _ => OtherKeepsLedger(cfg, s, a);
  }

  lemma OtherKeepsLedger(cfg: Config, s: State, a: Action)
    requires FreshRecords(s) && Balance(s) && Enabled(cfg, s, a)
    requires !a.DoWork? && !a.Continue? && !a.Restart?
    ensures FreshRecords(Next(cfg, s, a)) && Balance(Next(cfg, s, a))
  {
    hide Work, Proceed, Boot, MayWork;
    var s' := Next(cfg, s, a);
    assert s'.pool.workers == s.pool.workers && s'.hist.place == s.hist.place &&
           s'.disk.executions == s.disk.executions;
    forall c | c in s'.calls ensures FreshCall(s'.hist.place, s'.pool.workers, s'.calls[c].step) {
      if c in s.calls { assert FreshCall(s.hist.place, s.pool.workers, s.calls[c].step); }
    }
  }

  lemma {:induction false} RunsKeepLedger(cfg: Config, s: State, run: seq<Action>)
    requires InCustody(s) && RecordsOk(cfg, s) && FreshRecords(s) && Balance(s) && Possible(cfg, s, run)
    ensures FreshRecords(Exec(cfg, s, run)) && Balance(Exec(cfg, s, run))
    decreases run
  {
    hide Next;
    if run != [] {
      StepKeepsCustody(cfg, s, run[0]);
      StepKeepsRecords(cfg, s, run[0]);
      StepKeepsLedger(cfg, s, run[0]);
      RunsKeepLedger(cfg, Next(cfg, s, run[0]), run[1..]);
    }
  }

  /** Whenever no worker is inside Run, the CPU time passed to Release for a tenant since the
      start, over all its window resets, is the meter's, and every execution run is metered. */
  lemma AtRestTheBooksAgree(s: State, t: Tenant)
    requires Balance(s)
    requires forall w :: 0 <= w < |s.pool.workers| ==> HeldId(s.pool.workers[w]) == None
    ensures Count(s.hist.released, t) == T.UsageOf(s.svc.usage, t).cpuTime
    ensures Count(s.hist.ran, t) == T.UsageOf(s.svc.usage, t).executions
  {
    NoneUnderWay(s.pool.workers, t);
  }
}
