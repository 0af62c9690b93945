/** No worker is ever stuck: whatever the state, one that holds an execution can go on by itself,
    and is done with it, its lease returned, after a bounded number of its own steps. */
module Progress {
  import opened Common
  import opened Executions
  import opened Simulation
  import opened ControlPlane
  import opened Custody
  import opened Records
  import opened Leases

  // ---- What a worker's deadline and timeout may be ----

  /** A worker that has yet to mark its execution has a deadline no later than its timeout from
      now; one that has marked it has a positive timeout. */
  predicate TimeOk(now: Nanos, w: Worker) {
    && (w.Registering? || w.Marking? ==> w.deadline <= now + w.e.ticket.budget.timeout)
    && (AtLoad(w) || w.Executing? ==> w.e.ticket.budget.timeout > 0)
  }

  ghost predicate TimesOk(s: State) {
    forall w :: 0 <= w < |s.pool.workers| ==> TimeOk(s.now, s.pool.workers[w])
  }

  lemma EarlyTime(cfg: Config, s: State, w: nat, input: Input)
    requires w < |s.pool.workers| && (AtDoor(WorkerAt(s, w)) || AtLease(WorkerAt(s, w)))
    requires TimeOk(s.now, WorkerAt(s, w)) && MayWork(cfg, s, w, input)
    ensures TimeOk(s.now, TurnOf(cfg, s, w, input).next)
  {
  }

  lemma LateTime(cfg: Config, s: State, w: nat, input: Input)
    requires w < |s.pool.workers| && !(AtDoor(WorkerAt(s, w)) || AtLease(WorkerAt(s, w)))
    requires TimeOk(s.now, WorkerAt(s, w))
    ensures TimeOk(s.now, TurnOf(cfg, s, w, input).next)
  {
  }

  lemma StepKeepsTimes(cfg: Config, s: State, a: Action)
    requires TimesOk(s) && Enabled(cfg, s, a)
    ensures TimesOk(Next(cfg, s, a))
  {
    hide TurnOf, Proceed;
    match a
    case DoWork(w, input) =>
      if AtDoor(s.pool.workers[w]) || AtLease(s.pool.workers[w]) {
        EarlyTime(cfg, s, w, input);
      } else {
        LateTime(cfg, s, w, input);
      }
    case Continue(c, id) => CallsLeaveTimes(cfg, s, c, id);
    case _ =>
  }

  lemma CallsLeaveTimes(cfg: Config, s: State, c: nat, id: Id)
    requires c in s.calls
    ensures Proceed(cfg, s, c, id).pool.workers == s.pool.workers && Proceed(cfg, s, c, id).now == s.now
  {
  }

  lemma {:induction false} RunsKeepTimes(cfg: Config, s: State, run: seq<Action>)
    requires TimesOk(s) && Possible(cfg, s, run)
    ensures TimesOk(Exec(cfg, s, run))
    decreases run
  {
    hide Next, Enabled;
    if run != [] {
      StepKeepsTimes(cfg, s, run[0]);
      RunsKeepTimes(cfg, Next(cfg, s, run[0]), run[1..]);
    }
  }

  // ---- A worker's way to being idle ----

  /** How many of its own steps a worker is at most away from letting go of its execution. */
  function StepsLeft(w: Worker): nat {
    match w
    case Holding(_) => 14
    case Starting(_) => 13
    case Resolving(_) => 12
    case Acquiring(_, _) => 11
    case Registering(_, _, _) => 10
    case Marking(_, _, _) => 9
    case Loading(_, _, _) => 8
    case Looking(_, _, _, _) => 7
    case Compiling(_, _, _, _) => 6
    case Executing(_, _, _, _) => 5
    case Finishing(_) => 4
    case Metering(_) => 3
    case Aborting(_) => 3
    case Unwinding(_) => 2
    case Releasing(_) => 1
    case Rejecting(_) => 1
    case _ => 0
  }

  lemma EarlyStepsDown(cfg: Config, s: State, w: nat, input: Input)
    requires w < |s.pool.workers| && (AtDoor(WorkerAt(s, w)) || AtLease(WorkerAt(s, w)))
    requires HeldId(WorkerAt(s, w)).Some?
    ensures StepsLeft(TurnOf(cfg, s, w, input).next) < StepsLeft(WorkerAt(s, w))
  {
  }

  lemma LateStepsDown(cfg: Config, s: State, w: nat, input: Input)
    requires w < |s.pool.workers| && !(AtDoor(WorkerAt(s, w)) || AtLease(WorkerAt(s, w)))
    requires HeldId(WorkerAt(s, w)).Some?
    ensures StepsLeft(TurnOf(cfg, s, w, input).next) < StepsLeft(WorkerAt(s, w))
  {
    hide AcquireTurn, StartTurn, TakeTurn, Conclude, OutcomeOf, Compile;
  }

  /** Whatever it finds out, a worker's every step brings it closer to being done. */
  lemma EveryStepAdvances(cfg: Config, s: State, w: nat, input: Input)
    requires w < |s.pool.workers| && HeldId(WorkerAt(s, w)).Some?
    ensures StepsLeft(TurnOf(cfg, s, w, input).next) < StepsLeft(WorkerAt(s, w))
  {
    hide TurnOf;
    if AtDoor(s.pool.workers[w]) || AtLease(s.pool.workers[w]) {
      EarlyStepsDown(cfg, s, w, input);
    } else {
      LateStepsDown(cfg, s, w, input);
    }
  }

  /** Something that a worker's context can report now. */
  function Reports(s: State, e: Execution): Ctx {
    if !s.pool.live || e.ticket.id in s.svc.fired then Canceled
    else if e.ticket.budget.timeout > 0 then Live
    else Expired
  }

  function InputOf(s: State, w: Worker): Input {
    var ctx := if w.Marking? || AtLoad(w) || w.Executing? then Reports(s, w.e) else Live;
    Input(ctx, ctx, 0)
  }

  /** The worker is about to take the process down with the execution it runs. */
  predicate Doomed(cfg: Config, s: State, w: Worker) {
    w.Executing? && OutcomeOf(cfg, s, w.e, w.m, w.compiled, InputOf(s, w)).Crashed?
  }

  /** That is so exactly when its output limit is negative and it gets as far as having output. */
  lemma DoomedExactlyWhen(cfg: Config, s: State, w: Worker)
    ensures Doomed(cfg, s, w) <==>
            && w.Executing? && w.e.ticket.budget.maxOutputBytes < 0
            && Outputs(cfg.lib, s.svc.runtimeClosed, Reports(s, w.e), w.compiled, w.m.entry,
                       PayloadOf(s, w.e.ticket.id), w.e.ticket.budget)
  {
    if w.Executing? {
      CrashesExactly(cfg.lib, s.svc.runtimeClosed, Reports(s, w.e), w.compiled, w.m.entry, PayloadOf(s, w.e.ticket.id),
                     w.e.ticket.budget, 0);
    }
  }

  /** A worker that holds an execution has a step to take. */
  lemma AlwaysAStep(cfg: Config, s: State, w: nat)
    requires TimesOk(s) && w < |s.pool.workers| && HeldId(WorkerAt(s, w)).Some? && !Doomed(cfg, s, WorkerAt(s, w))
    ensures Enabled(cfg, s, DoWork(w, InputOf(s, WorkerAt(s, w))))
  {
    assert TimeOk(s.now, s.pool.workers[w]);
  }

  /** The steps are all the worker's own. */
  predicate OwnSteps(run: seq<Action>, w: nat) {
    forall i :: 0 <= i < |run| ==> run[i].DoWork? && run[i].w == w
  }

  /** Only the worker has moved. */
  ghost predicate OthersStay(before: seq<Worker>, after: seq<Worker>, w: nat) {
    |after| == |before| && forall v :: 0 <= v < |before| && v != w ==> after[v] == before[v]
  }

  /** By at most its remaining number of own steps, a worker lets go of its execution, or takes
      the process down with it. */
  lemma RunToTheEnd(cfg: Config, s: State, w: nat) returns (run: seq<Action>)
    requires TimesOk(s) && w < |s.pool.workers|
    ensures Possible(cfg, s, run) && OwnSteps(run, w) && |run| <= StepsLeft(WorkerAt(s, w))
    ensures OthersStay(s.pool.workers, Exec(cfg, s, run).pool.workers, w)
    ensures var s' := Exec(cfg, s, run); HeldId(WorkerAt(s', w)) == None || Doomed(cfg, s', WorkerAt(s', w))
    decreases StepsLeft(WorkerAt(s, w))
  {
    hide TurnOf;
    var p := s.pool.workers[w];
    if HeldId(p) == None || Doomed(cfg, s, p) {
      run := [];
    } else {
      var a := DoWork(w, InputOf(s, p));
      AlwaysAStep(cfg, s, w);
      EveryStepAdvances(cfg, s, w, a.input);
      StepKeepsTimes(cfg, s, a);
      var rest := RunToTheEnd(cfg, Next(cfg, s, a), w);
      run := [a] + rest;
      assert run[1..] == rest;
    }
  }

  /** So every lease comes back: from any state the worker that holds it gets, by at most ten of
      its own steps, to where it is returned and no longer registered for cancellation, or to where
      that worker takes the process down. */
  lemma LeasesComeBack(cfg: Config, s: State, id: Id) returns (w: nat, run: seq<Action>)
    requires InCustody(s) && RecordsOk(cfg, s) && LeasesOk(s) && TimesOk(s) && id in s.svc.books.leases
    ensures HeldBy(s, id, w) && Possible(cfg, s, run) && OwnSteps(run, w) && |run| <= 10
    ensures var s' := Exec(cfg, s, run);
            (id !in s'.svc.books.leases && id !in s'.svc.cancels) || Doomed(cfg, s', WorkerAt(s', w))
  {
    hide Next;
    w := HolderOf(s.svc.books.leases.Keys, s.hist.place, s.pool.workers, id);
    run := RunToTheEnd(cfg, s, w);
    if HeldId(Exec(cfg, s, run).pool.workers[w]) == None {
      BackAtTheEnd(cfg, s, run, w, id);
    }
  }

  lemma HolderOf(ids: set<Id>, place: map<Id, Place>, workers: seq<Worker>, id: Id) returns (w: nat)
    requires WorkersPlaced(place, workers) && Tracks(Lease, ids, place, workers) && id in ids
    ensures w < |workers| && HeldId(workers[w]) == Some(id) && StepsLeft(workers[w]) <= 10
  {
    w := place[id].worker;
  }

  lemma BackAtTheEnd(cfg: Config, s: State, run: seq<Action>, w: nat, id: Id)
    requires InCustody(s) && RecordsOk(cfg, s) && LeasesOk(s) && Possible(cfg, s, run) && HeldBy(s, id, w)
    requires OthersStay(s.pool.workers, Exec(cfg, s, run).pool.workers, w)
    requires HeldId(WorkerAt(Exec(cfg, s, run), w)) == None
    ensures id !in Exec(cfg, s, run).svc.books.leases && id !in Exec(cfg, s, run).svc.cancels
  {
    hide Next;
    RunsKeepCustody(cfg, s, run);
    RunsKeepRecords(cfg, s, run);
    RunsKeepLeases(cfg, s, run);
    HeldNoMore(s, Exec(cfg, s, run), w, id);
  }

  lemma HeldNoMore(s: State, s': State, w: nat, id: Id)
    requires InCustody(s) && InCustody(s') && LeasesOk(s') && HeldBy(s, id, w)
    requires OthersStay(s.pool.workers, s'.pool.workers, w) && HeldId(WorkerAt(s', w)) == None
    ensures id !in s'.svc.books.leases && id !in s'.svc.cancels
  {
    assert At(s.hist.place, id, Held(w));
    forall v: nat ensures !HeldBy(s', id, v) {
      if v < |s.pool.workers| && v != w && HeldId(s.pool.workers[v]).Some? {
        assert At(s.hist.place, HeldId(s.pool.workers[v]).value, Held(v));
      }
    }
  }
}
