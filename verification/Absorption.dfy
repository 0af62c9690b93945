/** Terminal records are final, execution by execution: in runs in which no step that concerns an
    execution falls between another actor's reading or storing its record and its writing back. */
module Absorption {
  import opened Common
  import opened Executions
  import opened ControlPlane
  import opened Custody
  import opened Records
  import opened Leases
  import opened Recovery
  import S = Stores

  // ---- The segments of one execution ----

  /** The worker has read the execution's record and not yet stored a status for it. */
  predicate WorkerInside(w: Worker, id: Id) {
    MidStart(w) && w.e.ticket.id == id
  }

  /** The call has stored the execution's record, or read it, and may yet write it back. */
  predicate CallInside(step: CallStep, id: Id) {
    match step
    case Saving(e, _, _) => e.ticket.id == id
    case Putting(e, _) => e.ticket.id == id
    case Scheduling(e) => e.ticket.id == id
    case Reverting(e) => e.ticket.id == id
    case Probing(e) => e.ticket.id == id
    case Flagging(e) => e.ticket.id == id
    case Writing(e) => e.ticket.id == id
    case _ => false
  }

  /** The step is one of the worker that holds the execution, or of a call that is inside a
      segment of it or about to enter one. */
  predicate Concerns(s: State, a: Action, id: Id) {
    match a
    case DoWork(w, _) => w < |s.pool.workers| && HeldId(s.pool.workers[w]) == Some(id)
    case Continue(c, _) => c in s.calls && (CallInside(s.calls[c].step, id) || s.calls[c].step == Fetching(id))
    case _ => false
  }

  /** A step that concerns the execution does not fall inside another actor's segment of it. Steps
      on other executions, ticks, and the ends of contexts may fall anywhere. */
  predicate Undisturbing(s: State, a: Action, id: Id) {
    Concerns(s, a, id) ==>
      && (forall w :: 0 <= w < |s.pool.workers| && WorkerInside(s.pool.workers[w], id) ==> a.DoWork? && a.w == w)
      && (forall c :: c in s.calls && CallInside(s.calls[c].step, id) ==> a.Continue? && a.c == c)
  }

  // ---- The invariant ----

  predicate WorkerSafe(executions: map<Id, Execution>, w: Worker, id: Id) {
    && (WorkerInside(w, id) ==> id in executions && !Terminal(executions[id]))
    && (Marked(w) && HeldId(w) == Some(id) ==> id in executions && executions[id].status == Running)
  }

  predicate CallSafe(executions: map<Id, Execution>, cancels: set<Id>, step: CallStep, id: Id) {
    CallInside(step, id) ==>
      && id in executions && !Terminal(executions[id])
      && (step.Flagging? || step.Writing? ==> id !in cancels)
  }

  ghost predicate WorkersSafe(executions: map<Id, Execution>, workers: seq<Worker>, id: Id) {
    forall w :: 0 <= w < |workers| ==> WorkerSafe(executions, workers[w], id)
  }

  ghost predicate CallsSafe(executions: map<Id, Execution>, cancels: set<Id>, calls: map<nat, Call>, id: Id) {
    forall c :: c in calls ==> CallSafe(executions, cancels, calls[c].step, id)
  }

  ghost predicate Sane(cfg: Config, s: State) {
    InCustody(s) && RecordsOk(cfg, s) && LeasesOk(s)
  }

  ghost predicate SafeFor(s: State, id: Id) {
    WorkersSafe(s.disk.executions, s.pool.workers, id) && CallsSafe(s.disk.executions, s.svc.cancels, s.calls, id)
  }

  function Stored(executions: map<Id, Execution>, id: Id): Option<Execution> {
    if id in executions then Some(executions[id]) else None
  }

  /** A terminal record is as it was. */
  predicate Stays(before: map<Id, Execution>, after: map<Id, Execution>, id: Id) {
    Stored(before, id).Some? && Terminal(Stored(before, id).value) ==> Stored(after, id) == Stored(before, id)
  }

  // ---- One step of a worker ----

  /** A turn of the execution's own worker writes over an unfinished record only, and stays safe. */
  ghost predicate TurnSafe(s: State, t: Turn, id: Id) {
    && (t.write.Some? ==> id in s.disk.executions && !Terminal(s.disk.executions[id]))
    && WorkerSafe(Write(s.disk.executions, t.write), t.next, id)
  }

  lemma DoorSafe(cfg: Config, s: State, w: nat, input: Input, id: Id)
    requires w < |s.pool.workers| && AtDoor(WorkerAt(s, w)) && HeldId(WorkerAt(s, w)) == Some(id)
    requires WorkerSafe(s.disk.executions, WorkerAt(s, w), id) && Named(s.disk.executions)
    ensures TurnSafe(s, TurnOf(cfg, s, w, input), id)
  {
  }

  lemma LeaseSafe(cfg: Config, s: State, w: nat, input: Input, id: Id)
    requires w < |s.pool.workers| && AtLease(WorkerAt(s, w)) && HeldId(WorkerAt(s, w)) == Some(id)
    requires WorkerSafe(s.disk.executions, WorkerAt(s, w), id)
    ensures TurnSafe(s, TurnOf(cfg, s, w, input), id)
  {
  }

  lemma LoadSafe(cfg: Config, s: State, w: nat, input: Input, id: Id)
    requires w < |s.pool.workers| && (AtLoad(WorkerAt(s, w)) || WorkerAt(s, w).Executing?)
    requires HeldId(WorkerAt(s, w)) == Some(id)
    requires WorkerSafe(s.disk.executions, WorkerAt(s, w), id)
    requires MayWork(cfg, s, w, input)
    ensures TurnSafe(s, TurnOf(cfg, s, w, input), id)
  {
    hide MayWork;
  }

  lemma EndSafe(cfg: Config, s: State, w: nat, input: Input, id: Id)
    requires w < |s.pool.workers| && AtEnd(WorkerAt(s, w)) && HeldId(WorkerAt(s, w)) == Some(id)
    requires WorkerSafe(s.disk.executions, WorkerAt(s, w), id)
    ensures TurnSafe(s, TurnOf(cfg, s, w, input), id)
  {
  }

  lemma OwnTurnSafe(cfg: Config, s: State, w: nat, input: Input, id: Id)
    requires w < |s.pool.workers| && MayWork(cfg, s, w, input) && HeldId(WorkerAt(s, w)) == Some(id)
    requires Named(s.disk.executions)
    requires WorkerSafe(s.disk.executions, WorkerAt(s, w), id)
    ensures TurnSafe(s, TurnOf(cfg, s, w, input), id)
  {
    hide TurnOf, MayWork;
    var p := s.pool.workers[w];
    if AtDoor(p) { DoorSafe(cfg, s, w, input, id); }
    else if AtLease(p) { LeaseSafe(cfg, s, w, input, id); }
    else if AtEnd(p) { EndSafe(cfg, s, w, input, id); }
    else { LoadSafe(cfg, s, w, input, id); }
  }

  lemma HoldsAlone(place: map<Id, Place>, workers: seq<Worker>, v: nat, w: nat)
    requires WorkersPlaced(place, workers) && v < |workers| && w < |workers| && v != w && HeldId(workers[v]).Some?
    ensures HeldId(workers[w]) != HeldId(workers[v])
  {
    assert At(place, HeldId(workers[v]).value, Held(v));
  }

  /** The execution's own worker moves: nobody else holds it, no call is inside. */
  lemma OwnWorkKeepsSafe(cfg: Config, s: State, w: nat, input: Input, id: Id)
    requires InCustody(s) && SafeFor(s, id) && w < |s.pool.workers| && MayWork(cfg, s, w, input)
    requires HeldId(WorkerAt(s, w)) == Some(id) && Undisturbing(s, DoWork(w, input), id)
    ensures SafeFor(Work(cfg, s, w, input), id) && Stays(s.disk.executions, Work(cfg, s, w, input).disk.executions, id)
  {
    hide TurnOf, MayWork;
    var t, s' := TurnOf(cfg, s, w, input), Work(cfg, s, w, input);
    assert WorkerSafe(s.disk.executions, s.pool.workers[w], id);
    OwnTurnSafe(cfg, s, w, input, id);
    TurnHolds(cfg, s, w, input);
    forall v | 0 <= v < |s'.pool.workers| ensures WorkerSafe(s'.disk.executions, s'.pool.workers[v], id) {
      if v != w { HoldsAlone(s.hist.place, s.pool.workers, w, v); }
    }
    forall c | c in s.calls ensures CallSafe(s'.disk.executions, s'.svc.cancels, s.calls[c].step, id) {
      assert !CallInside(s.calls[c].step, id);
    }
  }

  /** How a worker's step changes the registrations: its own execution's only. */
  lemma EarlyCancels(cfg: Config, s: State, w: nat, input: Input, id: Id)
    requires w < |s.pool.workers| && (AtDoor(WorkerAt(s, w)) || AtLease(WorkerAt(s, w)))
    requires HeldId(WorkerAt(s, w)) != Some(id)
    ensures id in TurnOf(cfg, s, w, input).svc.cancels <==> id in s.svc.cancels
  {
    hide Conclude;
  }

  lemma LateCancels(cfg: Config, s: State, w: nat, input: Input, id: Id)
    requires w < |s.pool.workers| && !(AtDoor(WorkerAt(s, w)) || AtLease(WorkerAt(s, w)))
    requires HeldId(WorkerAt(s, w)) != Some(id)
    ensures id in TurnOf(cfg, s, w, input).svc.cancels <==> id in s.svc.cancels
  {
  }

  lemma OtherTurn(cfg: Config, s: State, w: nat, input: Input, id: Id)
    requires w < |s.pool.workers| && HeldId(WorkerAt(s, w)) != Some(id) && Named(s.disk.executions)
    ensures var t := TurnOf(cfg, s, w, input);
            && (id in t.svc.cancels <==> id in s.svc.cancels)
            && Stored(Write(s.disk.executions, t.write), id) == Stored(s.disk.executions, id)
            && (HeldId(t.next) == Some(id) ==> t.next.Holding?)
  {
    TurnHolds(cfg, s, w, input);
    if AtDoor(s.pool.workers[w]) || AtLease(s.pool.workers[w]) {
      EarlyCancels(cfg, s, w, input, id);
    } else {
      LateCancels(cfg, s, w, input, id);
    }
  }

  /** Another worker moves. */
  lemma OtherWorkKeepsSafe(cfg: Config, s: State, w: nat, input: Input, id: Id)
    requires InCustody(s) && SafeFor(s, id) && w < |s.pool.workers| && HeldId(WorkerAt(s, w)) != Some(id)
    ensures SafeFor(Work(cfg, s, w, input), id) && Stays(s.disk.executions, Work(cfg, s, w, input).disk.executions, id)
  {
    hide TurnOf;
    var s' := Work(cfg, s, w, input);
    OtherTurn(cfg, s, w, input, id);
    forall v | 0 <= v < |s'.pool.workers| ensures WorkerSafe(s'.disk.executions, s'.pool.workers[v], id) {
      if v != w { assert WorkerSafe(s.disk.executions, s.pool.workers[v], id); }
    }
    forall c | c in s.calls ensures CallSafe(s'.disk.executions, s'.svc.cancels, s.calls[c].step, id) {
      assert CallSafe(s.disk.executions, s.svc.cancels, s.calls[c].step, id);
    }
  }

  // ---- One step of a call ----

  /** What a call's step does to one execution's record, and to where the call stands. */
  ghost predicate CallTurnSafe(s: State, s': State, c: nat, id: Id) {
    && c in s'.calls && CallSafe(s'.disk.executions, s'.svc.cancels, s'.calls[c].step, id)
    && (Stored(s'.disk.executions, id) != Stored(s.disk.executions, id) ==>
          || (id !in s.disk.executions && CallAt(s, c).step.Creating?)
          || (id in s.disk.executions && !Terminal(s.disk.executions[id]) &&
              (CallAt(s, c).step.Reverting? || CallAt(s, c).step.Writing?)
              && CallInside(CallAt(s, c).step, id)))
  }

  lemma SubmitTurnSafe(cfg: Config, s: State, c: nat, x: Id, id: Id)
    requires c in s.calls && (CallAt(s, c).step.Finding? || MidSubmit(CallAt(s, c).step))
    requires CallSafe(s.disk.executions, s.svc.cancels, CallAt(s, c).step, id)
    requires CallOk(cfg, s.disk.executions, CallAt(s, c).step)
    ensures CallTurnSafe(s, Proceed(cfg, s, c, x), c, id)
  {
    hide FetchStep, ReadStep, CanceledEarly, InvocationOk, Validate;
  }

  lemma CancelTurnSafe(cfg: Config, s: State, c: nat, x: Id, id: Id)
    requires c in s.calls && (MidCancel(CallAt(s, c).step) || CallAt(s, c).step.Fetching?) && Named(s.disk.executions)
    requires CallSafe(s.disk.executions, s.svc.cancels, CallAt(s, c).step, id)
    ensures CallTurnSafe(s, Proceed(cfg, s, c, x), c, id)
  {
  }

  lemma ReadTurnSafe(cfg: Config, s: State, c: nat, x: Id, id: Id)
    requires c in s.calls && (CallAt(s, c).step.Reading? || CallAt(s, c).step.Answered?)
    ensures CallTurnSafe(s, Proceed(cfg, s, c, x), c, id)
  {
  }

  lemma CallTurnIsSafe(cfg: Config, s: State, c: nat, x: Id, id: Id)
    requires c in s.calls && CallSafe(s.disk.executions, s.svc.cancels, CallAt(s, c).step, id)
    requires CallOk(cfg, s.disk.executions, CallAt(s, c).step) && Named(s.disk.executions)
    ensures CallTurnSafe(s, Proceed(cfg, s, c, x), c, id)
  {
    hide Proceed;
    var step := s.calls[c].step;
    if step.Finding? || MidSubmit(step) { SubmitTurnSafe(cfg, s, c, x, id); }
    else if MidCancel(step) || step.Fetching? { CancelTurnSafe(cfg, s, c, x, id); }
    else { ReadTurnSafe(cfg, s, c, x, id); }
  }

  /** A record that a call may write over is no worker's to run. */
  lemma NoWorkerRuns(cfg: Config, s: State, c: nat, id: Id, v: nat)
    requires Sane(cfg, s) && SafeFor(s, id) && c in s.calls && v < |s.pool.workers|
    requires CallInside(CallAt(s, c).step, id) && (CallAt(s, c).step.Reverting? || CallAt(s, c).step.Writing?)
    ensures !(Marked(WorkerAt(s, v)) && HeldId(WorkerAt(s, v)) == Some(id))
  {
    hide RecordsOk, WorkersSafe;
    assert CallSafe(s.disk.executions, s.svc.cancels, s.calls[c].step, id);
    if HeldId(s.pool.workers[v]) == Some(id) {
      assert At(s.hist.place, id, Held(v));
      assert SubmitId(s.calls[c].step).Some? ==> At(s.hist.place, id, Submitting(c));
    }
  }

  lemma WorkersAfterCall(cfg: Config, s: State, s': State, c: nat, id: Id)
    requires Sane(cfg, s) && SafeFor(s, id) && c in s.calls && CallTurnSafe(s, s', c, id)
    requires s'.pool.workers == s.pool.workers
    requires s.disk.executions.Keys <= s'.disk.executions.Keys
    requires Concerns(s, Continue(c, id), id) ==>
               forall w :: 0 <= w < |s.pool.workers| ==> !WorkerInside(s.pool.workers[w], id)
    ensures WorkersSafe(s'.disk.executions, s'.pool.workers, id)
  {
    hide LeasesOk, CallsSafe;
    forall v | 0 <= v < |s.pool.workers| ensures WorkerSafe(s'.disk.executions, s.pool.workers[v], id) {
      assert WorkerSafe(s.disk.executions, s.pool.workers[v], id);
      if Stored(s'.disk.executions, id) != Stored(s.disk.executions, id) && id in s.disk.executions {
        NoWorkerRuns(cfg, s, c, id, v);
      }
    }
  }

  lemma CallsAfterCall(cfg: Config, s: State, s': State, c: nat, id: Id)
    requires RecordsOk(cfg, s) && CallsSafe(s.disk.executions, s.svc.cancels, s.calls, id) && c in s.calls
    requires CallTurnSafe(s, s', c, id)
    requires s'.svc.cancels == s.svc.cancels && s'.calls == s.calls[c := CallAt(s', c)]
    requires Concerns(s, Continue(c, id), id) ==>
               forall d :: d in s.calls && d != c ==> !CallInside(s.calls[d].step, id)
    ensures CallsSafe(s'.disk.executions, s'.svc.cancels, s'.calls, id)
  {
    forall d | d in s'.calls ensures CallSafe(s'.disk.executions, s'.svc.cancels, s'.calls[d].step, id) {
      if d != c {
        assert CallSafe(s.disk.executions, s.svc.cancels, s.calls[d].step, id);
        assert CallOk(cfg, s.disk.executions, s.calls[d].step);
      }
    }
  }

  lemma ProceedKeepsSafe(cfg: Config, s: State, c: nat, x: Id, id: Id)
    requires Sane(cfg, s) && SafeFor(s, id) && c in s.calls && Undisturbing(s, Continue(c, x), id)
    ensures SafeFor(Proceed(cfg, s, c, x), id) && Stays(s.disk.executions, Proceed(cfg, s, c, x).disk.executions, id)
  {
    var s' := Proceed(cfg, s, c, x);
    assert CallOk(cfg, s.disk.executions, s.calls[c].step);
    assert CallSafe(s.disk.executions, s.svc.cancels, s.calls[c].step, id);
    CallTurnIsSafe(cfg, s, c, x, id);
    BooksApart(cfg, s, c, x);
    if s.calls[c].step.Finding? || MidSubmit(s.calls[c].step) {
      SubmitShape(cfg, s, c, x);
    } else {
      CancelShape(cfg, s, c, x);
    }
    WorkersAfterCall(cfg, s, s', c, id);
    CallsAfterCall(cfg, s, s', c, id);
  }

  // ---- Runs ----

  lemma BootIsSafe(cfg: Config, disk: S.Disk, now: Nanos, past: Past, id: Id)
    ensures SafeFor(Boot(cfg, disk, now, past), id)
    ensures Stays(disk.executions, Boot(cfg, disk, now, past).disk.executions, id)
  {
    S.RecoveryIsClean(disk.executions);
  }

  lemma QuietKeepsSafe(cfg: Config, s: State, a: Action, id: Id)
    requires SafeFor(s, id) && Enabled(cfg, s, a) && !a.DoWork? && !a.Continue? && !a.Restart?
    ensures SafeFor(Next(cfg, s, a), id) && Next(cfg, s, a).disk.executions == s.disk.executions
  {
    hide Work, Proceed, MayWork;
    var s' := Next(cfg, s, a);
    forall c | c in s'.calls ensures CallSafe(s'.disk.executions, s'.svc.cancels, s'.calls[c].step, id) {
      if c in s.calls { assert CallSafe(s.disk.executions, s.svc.cancels, s.calls[c].step, id); }
    }
  }

  lemma StepKeepsSafe(cfg: Config, s: State, a: Action, id: Id)
    requires Sane(cfg, s) && SafeFor(s, id) && Enabled(cfg, s, a) && Undisturbing(s, a, id)
    ensures SafeFor(Next(cfg, s, a), id) && Stays(s.disk.executions, Next(cfg, s, a).disk.executions, id)
  {
    hide Work, Proceed;
    match a
    case DoWork(w, input) =>
      if HeldId(s.pool.workers[w]) == Some(id) {
        OwnWorkKeepsSafe(cfg, s, w, input, id);
      } else {
        OtherWorkKeepsSafe(cfg, s, w, input, id);
      }
    case Continue(c, x) => ProceedKeepsSafe(cfg, s, c, x, id);
    case Restart => BootIsSafe(cfg, s.disk, s.now, s.hist.past, id);
    case _ => QuietKeepsSafe(cfg, s, a, id);
  }

  ghost predicate UndisturbedRun(cfg: Config, s: State, run: seq<Action>, id: Id)
    decreases run
  {
    run != [] ==>
      && Enabled(cfg, s, run[0]) && Undisturbing(s, run[0], id)
      && UndisturbedRun(cfg, Next(cfg, s, run[0]), run[1..], id)
  }

  lemma StepKeepsSane(cfg: Config, s: State, a: Action)
    requires Sane(cfg, s) && Enabled(cfg, s, a)
    ensures Sane(cfg, Next(cfg, s, a))
  {
    hide Next, Enabled;
    StepKeepsCustody(cfg, s, a);
    StepKeepsRecords(cfg, s, a);
    StepKeepsLeases(cfg, s, a);
  }

  lemma {:induction false} RunsKeepSafe(cfg: Config, s: State, run: seq<Action>, id: Id)
    requires Sane(cfg, s) && SafeFor(s, id) && Possible(cfg, s, run) && UndisturbedRun(cfg, s, run, id)
    ensures Sane(cfg, Exec(cfg, s, run)) && SafeFor(Exec(cfg, s, run), id)
    decreases run
  {
    hide Next, Enabled;
    if run != [] {
      StepKeepsSane(cfg, s, run[0]);
      StepKeepsSafe(cfg, s, run[0], id);
      RunsKeepSafe(cfg, Next(cfg, s, run[0]), run[1..], id);
    }
  }

  lemma {:induction false} TerminalStays(cfg: Config, s: State, run: seq<Action>, id: Id)
    requires Sane(cfg, s) && SafeFor(s, id) && Possible(cfg, s, run) && UndisturbedRun(cfg, s, run, id)
    ensures Stays(s.disk.executions, Exec(cfg, s, run).disk.executions, id)
    decreases run
  {
    hide Next, Enabled;
    if run != [] {
      StepKeepsSane(cfg, s, run[0]);
      StepKeepsSafe(cfg, s, run[0], id);
      TerminalStays(cfg, Next(cfg, s, run[0]), run[1..], id);
    }
  }

  /** The service started on what a store kept, and went on to this state with the execution's
      segments undisturbed. */
  ghost predicate Led(cfg: Config, disk: S.Disk, now: Nanos, past: Past, run: seq<Action>, s: State, id: Id) {
    var first := Boot(cfg, disk, now, past);
    StoreOk(cfg, disk.executions) && Possible(cfg, first, run) && UndisturbedRun(cfg, first, run, id) &&
      Exec(cfg, first, run) == s
  }

  ghost predicate Reached(cfg: Config, s: State, id: Id) {
    exists disk: S.Disk, now: Nanos, past: Past, run: seq<Action> :: Led(cfg, disk, now, past, run, s, id)
  }

  lemma ReachedIsSafe(cfg: Config, s: State, id: Id)
    requires Reached(cfg, s, id)
    ensures Sane(cfg, s) && SafeFor(s, id)
  {
    hide Next, Enabled;
    var disk: S.Disk, now: Nanos, past: Past, run: seq<Action> :| Led(cfg, disk, now, past, run, s, id);
    BootCustody(cfg, disk, now, past);
    BootRecords(cfg, disk, now, past);
    BootLeases(cfg, disk, now, past);
    BootIsSafe(cfg, disk, now, past, id);
    RunsKeepSafe(cfg, Boot(cfg, disk, now, past), run, id);
  }

  /** In every later state of a run that leaves its segments undisturbed, crashes included, an
      execution's terminal record is as it was. */
  lemma TerminalIsFinal(cfg: Config, s: State, run: seq<Action>, id: Id)
    requires Reached(cfg, s, id) && Possible(cfg, s, run) && UndisturbedRun(cfg, s, run, id)
    requires Over(s.disk.executions, id)
    ensures Stored(Exec(cfg, s, run).disk.executions, id) == Stored(s.disk.executions, id)
  {
    hide Next, Enabled;
    ReachedIsSafe(cfg, s, id);
    TerminalStays(cfg, s, run, id);
  }

  /** And no worker is executing it: an execution canceled while queued never runs. */
  lemma TerminalNeverRuns(cfg: Config, s: State, run: seq<Action>, id: Id, w: nat)
    requires Reached(cfg, s, id) && Possible(cfg, s, run) && UndisturbedRun(cfg, s, run, id)
    requires Over(s.disk.executions, id)
    requires HeldBy(Exec(cfg, s, run), id, w)
    ensures !Marked(WorkerAt(Exec(cfg, s, run), w))
  {
    hide Next, Enabled;
    ReachedIsSafe(cfg, s, id);
    RunsKeepSafe(cfg, s, run, id);
    TerminalStays(cfg, s, run, id);
    var s' := Exec(cfg, s, run);
    assert WorkerSafe(s'.disk.executions, s'.pool.workers[w], id);
  }

  // ---- Which steps change a terminal record ----

  /** The step is a live write, of a record other than the stored one. */
  predicate StaleWrite(s: State, a: Action, id: Id) {
    id in s.disk.executions &&
    var stored := s.disk.executions[id];
    match a
    case DoWork(w, input) =>
      && w < |s.pool.workers| && HeldId(s.pool.workers[w]) == Some(id)
      && (match s.pool.workers[w]
          case Rejecting(e) => s.pool.live && e != stored
          case Marking(_, _, _) => input.ctx == Live
          case Finishing(e) => e != stored
          case Aborting(e) => e != stored
          case _ => false)
    case Continue(c, _) =>
      && c in s.calls && !s.calls[c].dead
      && (match s.calls[c].step
          case Writing(e) => e.ticket.id == id && e != stored
          case Reverting(e) => e.ticket.id == id && e != stored
          case _ => false)
    case _ => false
  }

  lemma WorkOverwrites(cfg: Config, s: State, w: nat, input: Input, id: Id)
    requires Named(s.disk.executions) && w < |s.pool.workers| && Over(s.disk.executions, id)
    ensures Stored(Work(cfg, s, w, input).disk.executions, id) != Stored(s.disk.executions, id) <==>
            StaleWrite(s, DoWork(w, input), id)
  {
    hide TurnOf;
    var p := s.pool.workers[w];
    TurnHolds(cfg, s, w, input);
    if p.Rejecting? || p.Marking? || p.Finishing? || p.Aborting? {
      WriterWrites(cfg, s, w, input);
    } else {
      OthersWriteNothing(cfg, s, w, input);
    }
  }

  /** What such a worker's turn writes: its record, or when it marks it one with the running status. */
  predicate WritesOwn(p: Worker, live: bool, ctx: Ctx, write: Option<Execution>) {
    match p
    case Rejecting(e) => write == if live then Some(e) else None
    case Marking(e, _, _) =>
      && (ctx == Live ==> write.Some? && write.value.status == Running && write.value.ticket == e.ticket)
      && (ctx != Live ==> write == None)
    case Finishing(e) => write == Some(e)
    case Aborting(e) => write == Some(e)
    case _ => true
  }

  lemma WriterWrites(cfg: Config, s: State, w: nat, input: Input)
    requires var p := WorkerAt(s, w); p.Rejecting? || p.Marking? || p.Finishing? || p.Aborting?
    ensures WritesOwn(WorkerAt(s, w), s.pool.live, input.ctx, TurnOf(cfg, s, w, input).write)
  {
  }

  lemma OthersWriteNothing(cfg: Config, s: State, w: nat, input: Input)
    requires w < |s.pool.workers|
    requires var p := WorkerAt(s, w); !(p.Rejecting? || p.Marking? || p.Finishing? || p.Aborting?)
    ensures TurnOf(cfg, s, w, input).write == None
  {
  }

  lemma CallOverwrites(cfg: Config, s: State, c: nat, x: Id, id: Id)
    requires RecordsOk(cfg, s) && c in s.calls && Over(s.disk.executions, id)
    ensures Stored(Proceed(cfg, s, c, x).disk.executions, id) != Stored(s.disk.executions, id) <==>
            StaleWrite(s, Continue(c, x), id)
  {
    hide Proceed;
    assert CallOk(cfg, s.disk.executions, s.calls[c].step);
    if s.calls[c].step.Finding? || MidSubmit(s.calls[c].step) {
      SubmitShape(cfg, s, c, x);
    } else {
      CancelShape(cfg, s, c, x);
    }
  }

  /** In any state of any run, a step changes a terminal record if and only if it is a live write
      of another record of that execution by an actor inside its segment, or by a worker at the
      end of a run. */
  lemma ChangesTerminalExactlyWhen(cfg: Config, s: State, a: Action, id: Id)
    requires Sane(cfg, s) && Enabled(cfg, s, a) && Over(s.disk.executions, id)
    ensures Stored(Next(cfg, s, a).disk.executions, id) != Stored(s.disk.executions, id) <==> StaleWrite(s, a, id)
  {
    hide Work, Proceed;
    match a
    case DoWork(w, input) => WorkOverwrites(cfg, s, w, input, id);
    case Continue(c, x) => CallOverwrites(cfg, s, c, x, id);
    case Restart => S.RecoveryIsClean(s.disk.executions);
    case _ =>
  }

  // ---- Cancel as one step ----

  lemma GoesOn(cfg: Config, s: State, s': State, c: nat, x: Id, n: nat)
    requires c in s.calls && c in s'.calls && n > 0 && s' == Proceed(cfg, s, c, x)
    ensures Onward(cfg, s, c, x, n) == Onward(cfg, s', c, x, n - 1)
  {
    hide Proceed;
  }

  /** The state with a live call at another step. */
  function With(s: State, c: nat, step: CallStep): State {
    s.(calls := s.calls[c := Call(step, false)])
  }

  lemma Fetches(cfg: Config, s: State, c: nat, id: Id, x: Id)
    requires id in s.disk.executions && !Terminal(s.disk.executions[id])
    ensures Proceed(cfg, With(s, c, Fetching(id)), c, x) == With(s, c, Probing(s.disk.executions[id]))
  {
    assert With(s, c, Fetching(id)).calls[c := Call(Probing(s.disk.executions[id]), false)] ==
           With(s, c, Probing(s.disk.executions[id])).calls;
  }

  lemma Probes(cfg: Config, s: State, c: nat, e: Execution, x: Id)
    requires e.ticket.id !in s.svc.cancels
    ensures Proceed(cfg, With(s, c, Probing(e)), c, x) == With(s, c, Flagging(e))
  {
    assert With(s, c, Probing(e)).calls[c := Call(Flagging(e), false)] == With(s, c, Flagging(e)).calls;
  }

  lemma Flags(cfg: Config, s: State, c: nat, e: Execution, x: Id)
    ensures Proceed(cfg, With(s, c, Flagging(e)), c, x)
         == With(s.(svc := s.svc.(canceled := s.svc.canceled + {e.ticket.id})), c, Writing(CanceledEarly(e, s.now)))
  {
    assert With(s, c, Flagging(e)).calls[c := Call(Writing(CanceledEarly(e, s.now)), false)] ==
           With(s, c, Writing(CanceledEarly(e, s.now))).calls;
  }

  lemma Writes(cfg: Config, s: State, c: nat, e: Execution, x: Id)
    requires e.ticket.id in s.disk.executions
    ensures Proceed(cfg, With(s, c, Writing(e)), c, x)
         == With(s.(disk := s.disk.(executions := s.disk.executions[e.ticket.id := e])), c, Reading(e.ticket.id))
  {
    assert With(s, c, Writing(e)).calls[c := Call(Reading(e.ticket.id), false)] ==
           With(s, c, Reading(e.ticket.id)).calls;
  }

  lemma Reads(cfg: Config, s: State, c: nat, id: Id, x: Id)
    requires id in s.disk.executions
    ensures Proceed(cfg, With(s, c, Reading(id)), c, x) == With(s, c, Answered(Some(s.disk.executions[id]), NoFault))
  {
    assert With(s, c, Reading(id)).calls[c := Call(Answered(Some(s.disk.executions[id]), NoFault), false)]
           == With(s, c, Answered(Some(s.disk.executions[id]), NoFault)).calls;
  }

  /** Cancel of an unfinished execution that no run has registered, taken as one step: its record
      becomes canceled, it is flagged for the workers, and nothing else is touched. */
  lemma CancelSettles(cfg: Config, s: State, c: nat, id: Id, x: Id)
    requires Named(s.disk.executions)
    requires id in s.disk.executions && !Terminal(s.disk.executions[id]) && id !in s.svc.cancels
    ensures var done := CanceledEarly(s.disk.executions[id], s.now);
            Onward(cfg, With(s, c, Fetching(id)), c, x, 5) ==
            With(s.(svc := s.svc.(canceled := s.svc.canceled + {id}),
                    disk := s.disk.(executions := s.disk.executions[id := done])),
                 c, Answered(Some(done), NoFault))
    ensures var e, done := s.disk.executions[id], CanceledEarly(s.disk.executions[id], s.now);
            && done.status == CanceledBy && done.errorClass == ErrCanceled && done.fault == CanceledBeforeExecution
            && done.finishedAt == Some(s.now) && done.ticket == e.ticket && done.report == e.report
            && done.startedAt == e.startedAt && done.nodeId == e.nodeId
  {
    hide Proceed;
    var e := s.disk.executions[id];
    var done := CanceledEarly(e, s.now);
    var flagged := s.(svc := s.svc.(canceled := s.svc.canceled + {id}));
    var stored := flagged.(disk := s.disk.(executions := s.disk.executions[id := done]));
    Fetches(cfg, s, c, id, x);
    GoesOn(cfg, With(s, c, Fetching(id)), With(s, c, Probing(e)), c, x, 5);
    Probes(cfg, s, c, e, x);
    GoesOn(cfg, With(s, c, Probing(e)), With(s, c, Flagging(e)), c, x, 4);
    Flags(cfg, s, c, e, x);
    GoesOn(cfg, With(s, c, Flagging(e)), With(flagged, c, Writing(done)), c, x, 3);
    Writes(cfg, flagged, c, done, x);
    GoesOn(cfg, With(flagged, c, Writing(done)), With(stored, c, Reading(id)), c, x, 2);
    Reads(cfg, stored, c, id, x);
    GoesOn(cfg, With(stored, c, Reading(id)), With(stored, c, Answered(Some(done), NoFault)), c, x, 1);
    assert Onward(cfg, With(stored, c, Answered(Some(done), NoFault)), c, x, 0) ==
           With(stored, c, Answered(Some(done), NoFault));
  }

  lemma ProbesRegistered(cfg: Config, s: State, c: nat, e: Execution, x: Id)
    requires e.ticket.id in s.svc.cancels
    ensures Proceed(cfg, With(s, c, Probing(e)), c, x) == With(s, c, Firing(e.ticket.id))
  {
    assert With(s, c, Probing(e)).calls[c := Call(Firing(e.ticket.id), false)] == With(s, c, Firing(e.ticket.id)).calls;
  }

  lemma Fires(cfg: Config, s: State, c: nat, id: Id, x: Id)
    ensures Proceed(cfg, With(s, c, Firing(id)), c, x)
         == With(s.(svc := s.svc.(fired := s.svc.fired + {id})), c, Reading(id))
  {
    assert With(s, c, Firing(id)).calls[c := Call(Reading(id), false)] == With(s, c, Reading(id)).calls;
  }

  /** Cancel of an execution that a run has registered, taken as one step: it ends the context of that
      run, so that from then on the run can see it as anything but live, touches nothing else, and is
      answered with the record as it is. */
  lemma CancelFires(cfg: Config, s: State, c: nat, id: Id, x: Id)
    requires Named(s.disk.executions)
    requires id in s.disk.executions && !Terminal(s.disk.executions[id]) && id in s.svc.cancels
    ensures var s' := Onward(cfg, With(s, c, Fetching(id)), c, x, 4);
            && s' == With(s.(svc := s.svc.(fired := s.svc.fired + {id})), c,
                          Answered(Some(s.disk.executions[id]), NoFault))
            && forall e: Execution, deadline :: e.ticket.id == id ==>
                 !MaySee(s', e, deadline, Live) && MaySee(s', e, deadline, Canceled)
  {
    hide Proceed;
    var e := s.disk.executions[id];
    var fired := s.(svc := s.svc.(fired := s.svc.fired + {id}));
    Fetches(cfg, s, c, id, x);
    GoesOn(cfg, With(s, c, Fetching(id)), With(s, c, Probing(e)), c, x, 4);
    ProbesRegistered(cfg, s, c, e, x);
    GoesOn(cfg, With(s, c, Probing(e)), With(s, c, Firing(id)), c, x, 3);
    Fires(cfg, s, c, id, x);
    GoesOn(cfg, With(s, c, Firing(id)), With(fired, c, Reading(id)), c, x, 2);
    Reads(cfg, fired, c, id, x);
    GoesOn(cfg, With(fired, c, Reading(id)), With(fired, c, Answered(Some(e), NoFault)), c, x, 1);
    assert Onward(cfg, With(fired, c, Answered(Some(e), NoFault)), c, x, 0) ==
           With(fired, c, Answered(Some(e), NoFault));
  }

  /** Cancel of an execution that is over, or of one that is not there, changes nothing. */
  lemma CancelAnswers(cfg: Config, s: State, c: nat, id: Id, x: Id)
    requires id in s.disk.executions ==> Terminal(s.disk.executions[id])
    ensures Proceed(cfg, With(s, c, Fetching(id)), c, x)
         == With(s, c, if id in s.disk.executions then Answered(Some(s.disk.executions[id]), NoFault)
                       else Answered(None, NotFound))
  {
    var next := FetchStep(s, id, false);
    assert With(s, c, Fetching(id)).calls[c := Call(next, false)] == With(s, c, next).calls;
  }

  /** What is stored is answered. */
  predicate ReadsBack(executions: map<Id, Execution>, id: Id, step: CallStep) {
    step == if id in executions then Answered(Some(executions[id]), NoFault) else Answered(None, NotFound)
  }

  /** A Cancel whose context is done is answered with that wherever it meets the store, and stores
      nothing. */
  lemma DeadCancelStoresNothing(cfg: Config, s: State, c: nat, x: Id, step: CallStep)
    requires c in s.calls && CallAt(s, c) == Call(step, true)
    requires step.Fetching? || step.Writing? || step.Reading?
    ensures var s' := Proceed(cfg, s, c, x);
            && s'.pool == s.pool && s'.svc == s.svc && s'.disk == s.disk
            && CallAt(s', c).step == Answered(None, ContextCanceled)
  {
  }

  /** A live one stores what it has to store, and is answered with what is stored. */
  lemma CancelMeetsTheStore(cfg: Config, s: State, c: nat, x: Id, e: Execution)
    requires c in s.calls && Named(s.disk.executions) && e.ticket.id in s.disk.executions
    ensures CallAt(s, c) == Call(Writing(e), false) ==>
              var s' := Proceed(cfg, s, c, x);
              && s'.disk.executions == s.disk.executions[e.ticket.id := e] && s'.svc == s.svc && s'.pool == s.pool
              && CallAt(s', c).step == Reading(e.ticket.id)
    ensures forall id :: CallAt(s, c) == Call(Reading(id), false) ==>
              var s' := Proceed(cfg, s, c, x);
              s'.disk == s.disk && s'.svc == s.svc && ReadsBack(s.disk.executions, id, CallAt(s', c).step)
  {
  }

  lemma EarlyFiresNothing(cfg: Config, s: State, w: nat, input: Input)
    requires AtDoor(WorkerAt(s, w)) || AtLease(WorkerAt(s, w))
    ensures TurnOf(cfg, s, w, input).svc.fired == s.svc.fired
  {
  }

  lemma LateFiresNothing(cfg: Config, s: State, w: nat, input: Input)
    requires !(AtDoor(WorkerAt(s, w)) || AtLease(WorkerAt(s, w)))
    ensures TurnOf(cfg, s, w, input).svc.fired == s.svc.fired
  {
    hide Conclude;
  }

  lemma CallFires(cfg: Config, s: State, c: nat, x: Id, id: Id)
    requires id !in s.svc.fired
    ensures id in Proceed(cfg, s, c, x).svc.fired <==> c in s.calls && CallAt(s, c).step == Firing(id)
  {
    hide AskStep, FindStep, FetchStep, ReadStep;
  }

  /** Only a Cancel ends the context of a run, and only of the run that it is for; a restart forgets. */
  lemma OnlyCancelFires(cfg: Config, s: State, a: Action, id: Id)
    requires Enabled(cfg, s, a) && id !in s.svc.fired
    ensures id in Next(cfg, s, a).svc.fired <==> a.Continue? && CallAt(s, a.c).step == Firing(id)
  {
    hide TurnOf, Proceed;
    match a
    case DoWork(w, input) =>
      if AtDoor(WorkerAt(s, w)) || AtLease(WorkerAt(s, w)) {
        EarlyFiresNothing(cfg, s, w, input);
      } else {
        LateFiresNothing(cfg, s, w, input);
      }
    case Continue(c, x) => CallFires(cfg, s, c, x, id);
    case _ =>
  }
}
