/** A stored running status always has a worker behind it, and a crash at any step recovers. */
module Recovery {
  import opened Common
  import opened Executions
  import opened Simulation
  import opened ControlPlane
  import opened Custody
  import opened Records
  import opened Leases
  import C = Caching
  import S = Stores

  /** Between storing the running status and storing the final one. */
  predicate Marked(w: Worker) {
    AtLoad(w) || w.Executing? || w.Finishing? || w.Aborting?
  }

  ghost predicate RunningHeld(executions: map<Id, Execution>, place: map<Id, Place>, workers: seq<Worker>) {
    forall id :: id in executions && executions[id].status == Running ==>
      id in place && place[id].Held? && place[id].worker < |workers| && Marked(workers[place[id].worker])
  }

  /** A turn stores the running status only when entering the marked part, and leaves that part
      only by storing another. */
  ghost predicate RunningTurn(p: Worker, t: Turn) {
    && (t.write.Some? && t.write.value.status == Running ==> Marked(t.next))
    && (Marked(p) && t.write.None? ==> Marked(t.next))
    && (Marked(t.next) ==> HeldId(t.next) == HeldId(p))
  }

  lemma EarlyRunning(cfg: Config, s: State, w: nat, input: Input)
    requires w < |s.pool.workers| && (AtDoor(WorkerAt(s, w)) || AtLease(WorkerAt(s, w)))
    requires WorkerOk(cfg, s.disk.executions, s.pool.live, WorkerAt(s, w))
    ensures RunningTurn(WorkerAt(s, w), TurnOf(cfg, s, w, input))
  {
  }

  lemma LoadRunning(cfg: Config, s: State, w: nat, input: Input)
    requires AtLoad(WorkerAt(s, w))
    ensures RunningTurn(WorkerAt(s, w), TurnOf(cfg, s, w, input))
  {
    hide C.Get, Compile;
  }

  lemma EndRunning(cfg: Config, s: State, w: nat, input: Input)
    requires WorkerAt(s, w).Executing? || AtEnd(WorkerAt(s, w))
    requires WorkerOk(cfg, s.disk.executions, s.pool.live, WorkerAt(s, w))
    requires WorkerAt(s, w).Executing? ==> MayWork(cfg, s, w, input)
    ensures RunningTurn(WorkerAt(s, w), TurnOf(cfg, s, w, input))
  {
    hide C.Get, Compile, Execute;
  }

  lemma RunningStep(executions: map<Id, Execution>, place: map<Id, Place>, workers: seq<Worker>, w: nat, t: Turn)
    requires RunningHeld(executions, place, workers) && WorkersPlaced(place, workers) && w < |workers|
    requires RunningTurn(workers[w], t)
    requires t.write.Some? ==> HeldId(workers[w]) == Some(t.write.value.ticket.id)
    requires HeldId(t.next) == HeldId(workers[w]) || HeldId(t.next) == None ||
             (HeldId(workers[w]) == None && At(place, HeldId(t.next).value, Waiting))
    ensures RunningHeld(Write(executions, t.write), Moved(place, w, HeldId(workers[w]), HeldId(t.next)),
                        workers[w := t.next])
  {
    var before := HeldId(workers[w]);
    var executions' := Write(executions, t.write);
    var place' := Moved(place, w, before, HeldId(t.next));
    forall id | id in executions' && executions'[id].status == Running
      ensures id in place' && place'[id].Held? && place'[id].worker < |workers|
      ensures Marked(workers[w := t.next][place'[id].worker])
    {
      if before == Some(id) {
        assert At(place, id, Held(w));
      } else {
        assert executions'[id] == executions[id];
        assert place[id] != Held(w);
      }
    }
  }

  lemma WorkKeepsRunning(cfg: Config, s: State, w: nat, input: Input)
    requires InCustody(s) && RecordsOk(cfg, s) && w < |s.pool.workers| && MayWork(cfg, s, w, input)
    requires RunningHeld(s.disk.executions, s.hist.place, s.pool.workers)
    ensures var s' := Work(cfg, s, w, input); RunningHeld(s'.disk.executions, s'.hist.place, s'.pool.workers)
  {
    hide TurnOf, MayWork;
    var p := s.pool.workers[w];
    var t := TurnOf(cfg, s, w, input);
    assert WorkerOk(cfg, s.disk.executions, s.pool.live, p);
    TurnHolds(cfg, s, w, input);
    TurnQueue(cfg, s, w, input);
    if AtDoor(p) || AtLease(p) { EarlyRunning(cfg, s, w, input); }
    else if AtLoad(p) { LoadRunning(cfg, s, w, input); }
    else { EndRunning(cfg, s, w, input); }
    if HeldId(p) == None && HeldId(t.next).Some? { QueueTaken(s.hist.place, s.pool.queue, w); }
    RunningStep(s.disk.executions, s.hist.place, s.pool.workers, w, t);
  }

  lemma CallWritesNoRunning(cfg: Config, s: State, c: nat)
    requires c in s.calls && CallOk(cfg, s.disk.executions, CallAt(s, c).step)
    ensures CallWrite(s, c).Some? ==> CallWrite(s, c).value.status != Running
  {
  }

  lemma RunningApart(executions: map<Id, Execution>, place: map<Id, Place>, workers: seq<Worker>,
      write: Option<Execution>, move: Option<(Id, Place)>)
    requires RunningHeld(executions, place, workers)
    requires write.Some? ==> write.value.status != Running
    requires move.Some? ==> (move.value.0 in place ==> !place[move.value.0].Held?)
    ensures RunningHeld(Put(executions, write), if move.None? then place else place[move.value.0 := move.value.1],
                        workers)
  {
  }

  lemma ProceedKeepsRunning(cfg: Config, s: State, c: nat, x: Id)
    requires InCustody(s) && RecordsOk(cfg, s) && c in s.calls
    requires RunningHeld(s.disk.executions, s.hist.place, s.pool.workers)
    ensures var s' := Proceed(cfg, s, c, x); RunningHeld(s'.disk.executions, s'.hist.place, s'.pool.workers)
  {
    hide Proceed;
    assert CallOk(cfg, s.disk.executions, s.calls[c].step);
    CallWritesNoRunning(cfg, s, c);
    CallApart(cfg, s, c, x);
    if s.calls[c].step.Finding? || MidSubmit(s.calls[c].step) {
      SubmitShape(cfg, s, c, x);
    } else {
      CancelShape(cfg, s, c, x);
    }
    RunningApart(s.disk.executions, s.hist.place, s.pool.workers, CallWrite(s, c), CallMove(s, c));
  }

  lemma BootRunning(cfg: Config, disk: S.Disk, now: Nanos, past: Past)
    ensures var s := Boot(cfg, disk, now, past); RunningHeld(s.disk.executions, s.hist.place, s.pool.workers)
  {
    S.RecoveryIsClean(disk.executions);
  }

  lemma QuietRunning(cfg: Config, s: State, a: Action)
    requires !a.DoWork? && !a.Continue? && !a.Restart?
    ensures var s' := Next(cfg, s, a);
            && s'.disk.executions == s.disk.executions && s'.hist.place == s.hist.place
            && s'.pool.workers == s.pool.workers
  {
    hide Work, Proceed, Boot;
  }

  lemma StepKeepsRunning(cfg: Config, s: State, a: Action)
    requires InCustody(s) && RecordsOk(cfg, s) && Enabled(cfg, s, a)
    requires RunningHeld(s.disk.executions, s.hist.place, s.pool.workers)
    ensures var s' := Next(cfg, s, a); RunningHeld(s'.disk.executions, s'.hist.place, s'.pool.workers)
  {
    hide Work;
    match a
    case DoWork(w, input) => WorkKeepsRunning(cfg, s, w, input);
    case Continue(c, x) => ProceedKeepsRunning(cfg, s, c, x);
    case Restart => BootRunning(cfg, s.disk, s.now, s.hist.past);
    case _ => QuietRunning(cfg, s, a);
  }

  /** For every interleaving, crashes included: a record stored as running is held by a worker
      that has not yet stored its end. */
  lemma {:induction false} RunsKeepRunning(cfg: Config, s: State, run: seq<Action>)
    requires InCustody(s) && RecordsOk(cfg, s) && Possible(cfg, s, run)
    requires RunningHeld(s.disk.executions, s.hist.place, s.pool.workers)
    ensures var s' := Exec(cfg, s, run); RunningHeld(s'.disk.executions, s'.hist.place, s'.pool.workers)
    decreases run
  {
    hide Next;
    if run != [] {
      StepKeepsCustody(cfg, s, run[0]);
      StepKeepsRecords(cfg, s, run[0]);
      StepKeepsRunning(cfg, s, run[0]);
      RunsKeepRunning(cfg, Next(cfg, s, run[0]), run[1..]);
    }
  }

  /** A crash at any step keeps the store and nothing else; after recovery no record is queued
      or running, terminal records are as they were, and everything stored is still there with
      the fields of its request. */
  lemma CrashRecovers(cfg: Config, s: State)
    requires RecordsOk(cfg, s)
    ensures var s' := Next(cfg, s, Restart);
            && s'.disk.shelf == s.disk.shelf && s'.disk.idempotency == s.disk.idempotency
            && S.Stale(s'.disk.executions) == {}
    ensures var ex, ex' := s.disk.executions, Next(cfg, s, Restart).disk.executions;
            && ex'.Keys == ex.Keys && RequestsKept(ex, ex')
            && (forall id :: id in ex ==> Terminal(ex'[id]))
            && (forall id :: id in ex && Terminal(ex[id]) ==> ex'[id] == ex[id])
  {
    S.RecoveryIsClean(s.disk.executions);
  }

  /** What a start is like: as many workers as are configured, or one, all idle; an open and empty
      queue; no lease, registration, flag, payload or call; and the store as recovery leaves it. */
  lemma StartsAfresh(cfg: Config, disk: S.Disk, now: Nanos, past: Past)
    ensures var s := Boot(cfg, disk, now, past);
            && |s.pool.workers| >= 1 && (cfg.poolSize >= 1 ==> |s.pool.workers| == cfg.poolSize)
            && (cfg.poolSize < 1 ==> |s.pool.workers| == 1)
            && (forall w :: 0 <= w < |s.pool.workers| ==> s.pool.workers[w] == Idle)
            && s.pool.queue.entries == [] && !s.pool.closed && !s.pool.notified && s.pool.live
            && s.svc.canceled == {} && s.svc.cancels == {} && s.svc.fired == {} && s.svc.payloads == map[]
            && s.svc.books.leases == map[] && s.svc.books.quotas == map[] && s.svc.usage == map[]
            && s.svc.cache.items == map[] && !s.svc.runtimeClosed && s.calls == map[] && s.now == now
            && s.disk.shelf == disk.shelf && s.disk.idempotency == disk.idempotency
            && s.disk.executions == S.Recovered(disk.executions)
  {
  }
}
