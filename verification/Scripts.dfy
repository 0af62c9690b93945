/** Which scripts the control plane allows, and that what a worker or a call left alone does by
    an allowed one is a possible run. */
module Scripts {
  import opened Common
  import opened Executions
  import opened ControlPlane
  import opened Paths
  import opened Reachability
  import opened Uninterrupted
  import opened Progress

  // ---- Workers ----

  /** The next moment is not before now, and what it finds out can be found out then. */
  predicate AllowedNow(cfg: Config, script: Script, s: State) {
    |s.pool.workers| == 1 && !WorkerAt(s, ONLY).Idle? ==>
      var m := MomentOf(script, WorkerAt(s, ONLY));
      s.now <= m.now && MayWork(cfg, Then(s, m), ONLY, m.input)
  }

  /** So is every moment on the way from a state to the worker being idle. */
  ghost predicate Allowed(cfg: Config, script: Script, s: State) {
    forall n: nat :: AllowedNow(cfg, script, Repeated(Visits(cfg, script), s, n))
  }

  lemma LaterIsPossible(cfg: Config, s: State, now: Nanos)
    requires s.now <= now
    ensures Reaches(cfg, s, s.(now := now))
  {
    hide Work, Proceed;
    ReachesByStep(cfg, s, Tick(now - s.now));
  }

  /** An idle worker's look at the queue. */
  lemma LookIsPossible(cfg: Config, script: Script, s: State)
    requires s.pool.workers == [Idle] && s.now <= script.begin.now
    ensures Reaches(cfg, s, Looks(cfg, script, s))
  {
    hide Work, Proceed;
    LaterIsPossible(cfg, s, script.begin.now);
    ReachesByStep(cfg, Then(s, script.begin), DoWork(ONLY, script.begin.input));
    ReachesOn(cfg, s, Then(s, script.begin), Looks(cfg, script, s));
  }

  lemma VisitIsPossible(cfg: Config, script: Script, s: State)
    requires AllowedNow(cfg, script, s)
    ensures Reaches(cfg, s, Visit(cfg, script, s))
  {
    hide Work, Proceed;
    if |s.pool.workers| != 1 || WorkerAt(s, ONLY).Idle? {
      ReachesItself(cfg, s);
    } else {
      var m := MomentOf(script, WorkerAt(s, ONLY));
      LaterIsPossible(cfg, s, m.now);
      ReachesByStep(cfg, Then(s, m), DoWork(ONLY, m.input));
      ReachesOn(cfg, s, Then(s, m), Visit(cfg, script, s));
    }
  }

  lemma {:induction false} AllowedOn(cfg: Config, script: Script, s: State, k: nat)
    requires Allowed(cfg, script, s)
    ensures Allowed(cfg, script, Repeated(Visits(cfg, script), s, k))
  {
    hide Visits, MayWork;
    forall n: nat
      ensures AllowedNow(cfg, script, Repeated(Visits(cfg, script), Repeated(Visits(cfg, script), s, k), n))
    {
      RepeatedOn(Visits(cfg, script), s, k, n);
    }
  }

  lemma {:induction false} VisitsArePossible(cfg: Config, script: Script, s: State, n: nat)
    requires Allowed(cfg, script, s)
    ensures Reaches(cfg, s, Repeated(Visits(cfg, script), s, n))
    decreases n
  {
    hide Next, Work, Enabled, MayWork;
    if n == 0 {
      ReachesItself(cfg, s);
    } else {
      assert AllowedNow(cfg, script, Repeated(Visits(cfg, script), s, 0));
      VisitIsPossible(cfg, script, s);
      AllowedOn(cfg, script, s, 1);
      assert Repeated(Visits(cfg, script), s, 1) == Repeated(Visits(cfg, script), Visit(cfg, script, s), 0);
      VisitsArePossible(cfg, script, Visit(cfg, script, s), n - 1);
      ReachesOn(cfg, s, Visit(cfg, script, s), Repeated(Visits(cfg, script), s, n));
    }
  }

  /** The path of a worker left alone, by an allowed script, is a possible run. */
  lemma PathIsPossible(cfg: Config, script: Script, s: State, s': State)
    requires Allowed(cfg, script, s) && Leads(Visits(cfg, script), s, s')
    ensures Reaches(cfg, s, s') && Allowed(cfg, script, s')
  {
    hide Next, Visits, Enabled, MayWork;
    var n: nat :| Repeated(Visits(cfg, script), s, n) == s';
    VisitsArePossible(cfg, script, s, n);
    AllowedOn(cfg, script, s, n);
  }

  /** An allowed script does not take the process down. */
  lemma AllowedStaysUp(cfg: Config, script: Script, s: State)
    requires Allowed(cfg, script, s)
    ensures !GoesDown(cfg, script, s)
  {
    hide Next, Visits, Enabled;
    forall s' | Leads(Visits(cfg, script), s, s') ensures !Crashing(cfg, script, s') {
      PathIsPossible(cfg, script, s, s');
      assert AllowedNow(cfg, script, Repeated(Visits(cfg, script), s', 0));
    }
  }

  // ---- There is always one ----

  /** What a worker finds out when its context is the same throughout, no CPU time measured. */
  function Seeing(ctx: Ctx): Input {
    Input(ctx, ctx, 0)
  }

  /** The script of a run that is over in an instant, its context the same throughout. */
  function Instant(live: bool, now: Nanos, ctx: Ctx): Script {
    var m := Moment(now, Seeing(ctx));
    Script(live, m, m, m, m, m, m, m, m)
  }

  /** What the worker has in hand is the ticketed execution, or it is idle. */
  predicate InHand(s: State, ticket: Ticket, w: Worker) {
    match w
    case Idle => true
    case Parked => false
    case Exited => false
    case Holding(job) => job.executionId in s.disk.executions ==> s.disk.executions[job.executionId].ticket == ticket
    case Starting(id) => id in s.disk.executions ==> s.disk.executions[id].ticket == ticket
    case _ => w.e.ticket == ticket
  }

  /** Its deadline has passed, or will have as soon as it has one. */
  predicate Late(now: Nanos, ticket: Ticket, w: Worker) {
    if w.Registering? || w.Marking? || AtLoad(w) || w.Executing? then w.deadline <= now
    else AtDoor(w) || w.Acquiring? ==> ticket.budget.timeout <= 0
  }

  /** The context can be found as it is now, and for as long as nothing else happens. */
  predicate Steady(s: State, ticket: Ticket, ctx: Ctx) {
    && |s.pool.workers| == 1 && InHand(s, ticket, WorkerAt(s, ONLY)) && ticket.budget.maxOutputBytes >= 0
    && match ctx
       case Live => s.pool.live && ticket.id !in s.svc.fired && ticket.budget.timeout > 0
       case Canceled => !s.pool.live || ticket.id in s.svc.fired
       case Expired => Late(s.now, ticket, WorkerAt(s, ONLY))
  }

  lemma SteadyIsAllowed(cfg: Config, s: State, ticket: Ticket, ctx: Ctx, live: bool)
    requires Steady(s, ticket, ctx)
    ensures AllowedNow(cfg, Instant(live, s.now, ctx), s)
  {
  }

  predicate TurnSteady(s: State, ticket: Ticket, w: Worker, t: Turn) {
    && InHand(s, ticket, t.next) && t.svc.fired == s.svc.fired
    && (t.next.Starting? ==> t.write == None)
    && (Late(s.now, ticket, w) && !t.next.Idle? ==> Late(s.now, ticket, t.next))
  }

  lemma DoorSteady(cfg: Config, s: State, ticket: Ticket, input: Input)
    requires |s.pool.workers| == 1 && InHand(s, ticket, WorkerAt(s, ONLY)) && !WorkerAt(s, ONLY).Idle?
    requires AtDoor(WorkerAt(s, ONLY))
    ensures TurnSteady(s, ticket, WorkerAt(s, ONLY), TurnOf(cfg, s, ONLY, input))
  {
  }

  lemma LeaseSteady(cfg: Config, s: State, ticket: Ticket, input: Input)
    requires |s.pool.workers| == 1 && InHand(s, ticket, WorkerAt(s, ONLY)) && AtLease(WorkerAt(s, ONLY))
    ensures TurnSteady(s, ticket, WorkerAt(s, ONLY), TurnOf(cfg, s, ONLY, input))
  {
  }

  lemma LoadSteady(cfg: Config, s: State, ticket: Ticket, input: Input)
    requires |s.pool.workers| == 1 && InHand(s, ticket, WorkerAt(s, ONLY)) && AtLoad(WorkerAt(s, ONLY))
    ensures TurnSteady(s, ticket, WorkerAt(s, ONLY), TurnOf(cfg, s, ONLY, input))
  {
  }

  lemma RunSteady(cfg: Config, s: State, ticket: Ticket, input: Input)
    requires |s.pool.workers| == 1 && InHand(s, ticket, WorkerAt(s, ONLY)) && WorkerAt(s, ONLY).Executing?
    ensures TurnSteady(s, ticket, WorkerAt(s, ONLY), TurnOf(cfg, s, ONLY, input))
  {
  }

  lemma EndSteady(cfg: Config, s: State, ticket: Ticket, input: Input)
    requires |s.pool.workers| == 1 && InHand(s, ticket, WorkerAt(s, ONLY)) && AtEnd(WorkerAt(s, ONLY))
    ensures TurnSteady(s, ticket, WorkerAt(s, ONLY), TurnOf(cfg, s, ONLY, input))
  {
  }

  lemma TurnIsSteady(cfg: Config, s: State, ticket: Ticket, input: Input)
    requires |s.pool.workers| == 1 && InHand(s, ticket, WorkerAt(s, ONLY)) && !WorkerAt(s, ONLY).Idle?
    ensures TurnSteady(s, ticket, WorkerAt(s, ONLY), TurnOf(cfg, s, ONLY, input))
  {
    hide TurnOf;
    var p := WorkerAt(s, ONLY);
    if AtDoor(p) {
      DoorSteady(cfg, s, ticket, input);
    } else if AtLease(p) {
      LeaseSteady(cfg, s, ticket, input);
    } else if AtLoad(p) {
      LoadSteady(cfg, s, ticket, input);
    } else if p.Executing? {
      RunSteady(cfg, s, ticket, input);
    } else {
      EndSteady(cfg, s, ticket, input);
    }
  }

  /** Steady until the worker is idle. */
  predicate SteadyOrIdle(s: State, ticket: Ticket, ctx: Ctx) {
    |s.pool.workers| == 1 && (WorkerAt(s, ONLY).Idle? || Steady(s, ticket, ctx))
  }

  lemma SteadyStep(cfg: Config, s: State, ticket: Ticket, ctx: Ctx)
    requires Steady(s, ticket, ctx) && !WorkerAt(s, ONLY).Idle?
    ensures SteadyOrIdle(Work(cfg, s, ONLY, Seeing(ctx)), ticket, ctx)
  {
    hide TurnOf;
    TurnIsSteady(cfg, s, ticket, Seeing(ctx));
    NeverHolding(cfg, s, Seeing(ctx));
  }

  lemma NeverHolding(cfg: Config, s: State, input: Input)
    requires |s.pool.workers| == 1 && !WorkerAt(s, ONLY).Idle?
    ensures !TurnOf(cfg, s, ONLY, input).next.Holding?
  {
  }

  lemma {:induction false} SteadyOn(cfg: Config, s: State, ticket: Ticket, ctx: Ctx, live: bool, n: nat)
    requires SteadyOrIdle(s, ticket, ctx)
    ensures AllowedNow(cfg, Instant(live, s.now, ctx), Repeated(Visits(cfg, Instant(live, s.now, ctx)), s, n))
    decreases n
  {
    hide TurnOf, MayWork;
    if n == 0 {
      if !WorkerAt(s, ONLY).Idle? { SteadyIsAllowed(cfg, s, ticket, ctx, live); }
    } else {
      var s' := Visit(cfg, Instant(live, s.now, ctx), s);
      if !WorkerAt(s, ONLY).Idle? {
        assert s' == Work(cfg, s, ONLY, Seeing(ctx));
        SteadyStep(cfg, s, ticket, ctx);
      }
      SteadyOn(cfg, s', ticket, ctx, live, n - 1);
    }
  }

  lemma InstantIsAllowed(cfg: Config, s: State, ticket: Ticket, ctx: Ctx, live: bool)
    requires Steady(s, ticket, ctx)
    ensures Allowed(cfg, Instant(live, s.now, ctx), s)
  {
    hide Visits, MayWork;
    forall n: nat
      ensures AllowedNow(cfg, Instant(live, s.now, ctx), Repeated(Visits(cfg, Instant(live, s.now, ctx)), s, n))
    {
      SteadyOn(cfg, s, ticket, ctx, live, n);
    }
  }

  /** Whatever is to be run has an allowed script, unless its output limit is negative. */
  lemma RunHasAScript(cfg: Config, s: State, id: Id, ctx: Ctx)
    requires s.pool.workers == [Starting(id)] && id in s.disk.executions
    requires var e := s.disk.executions[id];
             ctx == Reports(s, e) && e.ticket.id == id && e.ticket.budget.maxOutputBytes >= 0
    ensures Allowed(cfg, Instant(s.pool.live, s.now, ctx), s)
  {
    hide Visits, MayWork;
    InstantIsAllowed(cfg, s, s.disk.executions[id].ticket, ctx, s.pool.live);
  }

  // ---- Calls ----

  lemma TurnIsPossible(cfg: Config, id: Id, s: State)
    ensures Reaches(cfg, s, Turned(cfg, id, s))
  {
    hide Work, Proceed;
    if 0 in s.calls && !s.calls[0].step.Answered? {
      ReachesByStep(cfg, s, Continue(0, id));
    } else {
      ReachesItself(cfg, s);
    }
  }

  lemma {:induction false} TurnsArePossible(cfg: Config, id: Id, s: State, n: nat)
    ensures Reaches(cfg, s, Repeated(Turns(cfg, id), s, n))
    decreases n
  {
    hide Next, Proceed, Enabled;
    if n == 0 {
      ReachesItself(cfg, s);
    } else {
      TurnIsPossible(cfg, id, s);
      TurnsArePossible(cfg, id, Turned(cfg, id, s), n - 1);
      ReachesOn(cfg, s, Turned(cfg, id, s), Repeated(Turns(cfg, id), s, n));
    }
  }

  /** The state in which a call has come in at an instant, its context done or not. */
  function Called(s: State, now: Nanos, step: CallStep, dead: bool): State {
    s.(now := now, calls := Only(step, dead))
  }

  lemma CallComesIn(cfg: Config, s: State, now: Nanos, step: CallStep, dead: bool)
    requires s.calls == map[] && s.now <= now && (step.Finding? || step.Fetching?)
    ensures Reaches(cfg, s, Called(s, now, step, dead))
  {
    hide Work, Proceed, Boot;
    LaterIsPossible(cfg, s, now);
    var here := s.(now := now);
    ReachesByStep(cfg, here, Begin(0, step));
    ReachesOn(cfg, s, here, Called(s, now, step, false));
    if dead {
      var called := Called(s, now, step, false);
      ReachesByStep(cfg, called, Abandon(0));
      assert Next(cfg, called, Abandon(0)).calls == Only(step, true);
      ReachesOn(cfg, s, called, Called(s, now, step, true));
    }
  }

  /** The path of a call left alone, from when it comes in, is a possible run. */
  lemma CallIsPossible(cfg: Config, id: Id, s: State, now: Nanos, step: CallStep, dead: bool, s': State)
    requires s.calls == map[] && s.now <= now && (step.Finding? || step.Fetching?)
    requires Leads(Turns(cfg, id), Called(s, now, step, dead), s')
    ensures Reaches(cfg, s, s')
  {
    hide Next, Proceed, Enabled;
    var called := Called(s, now, step, dead);
    CallComesIn(cfg, s, now, step, dead);
    var n: nat :| Repeated(Turns(cfg, id), called, n) == s';
    TurnsArePossible(cfg, id, called, n);
    ReachesOn(cfg, s, called, s');
  }
}
