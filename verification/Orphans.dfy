/** Executions that nobody holds any more, over every run: either their end is stored, or they were
    let go of for one of five reasons, each of which the state shows. */
module Orphans {
  import opened Common
  import opened Executions
  import opened ControlPlane
  import opened Custody
  import opened Records
  import opened Leases
  import S = Stores

  /** A Cancel has flagged the execution and is about to store its end, if its context allows. */
  ghost predicate Pending(calls: map<nat, Call>, id: Id) {
    exists c: nat :: c in calls && calls[c].step.Writing? && calls[c].step.e.ticket.id == id
  }

  /** The flag's Cancel has not stored the end: its context ended first, or it has yet to. */
  ghost predicate FlagOpen(s: State, id: Id) {
    id in s.hist.lapsed || Pending(s.calls, id)
  }

  /** A reason to have let go of the execution, and what still shows it. */
  ghost predicate Excused(s: State, id: Id) {
    id in s.hist.causes &&
    match s.hist.causes[id]
    case ShutDown => !s.pool.live
    case Fired => id in s.svc.fired
    case Overdue(deadline) => deadline <= s.now
    case Flagged => FlagOpen(s, id)
    case CallDone => true
  }

  ghost predicate Ended(s: State, id: Id) {
    id in s.disk.executions && (Terminal(s.disk.executions[id]) || Excused(s, id))
  }

  /** What the worker has in hand, if anything, has ended. */
  ghost predicate EndedFor(s: State, w: Worker) {
    HeldId(w).Some? ==> Ended(s, HeldId(w).value)
  }

  /** Not yet past the point where a worker looks at the flags. */
  predicate Early(place: map<Id, Place>, workers: seq<Worker>, id: Id) {
    id in place &&
    match place[id]
    case Submitting(_) => true
    case Waiting => true
    case Held(w) => w < |workers| && workers[w].Holding?
    case Gone => false
  }

  predicate Closing(w: Worker) {
    w.Metering? || w.Unwinding? || w.Releasing?
  }

  ghost predicate GoneEnded(s: State) {
    forall id :: At(s.hist.place, id, Gone) ==> Ended(s, id)
  }

  ghost predicate ClosingEnded(s: State) {
    forall w :: 0 <= w < |s.pool.workers| && Closing(s.pool.workers[w]) ==> EndedFor(s, s.pool.workers[w])
  }

  ghost predicate FlagsHeld(s: State) {
    forall id :: id in s.svc.canceled ==>
      && id in s.disk.executions
      && (Early(s.hist.place, s.pool.workers, id) ==> Terminal(s.disk.executions[id]) || FlagOpen(s, id))
  }

  ghost predicate EndsOk(s: State) {
    GoneEnded(s) && ClosingEnded(s) && FlagsHeld(s)
  }

  // ---- One step of a worker ----

  /** What the worker has in hand is stored, and flagged only if it has ended or its Cancel is open. */
  ghost predicate DoorOk(s: State, p: Worker) {
    HeldId(p).Some? ==>
      && HeldId(p).value in s.disk.executions
      && (p.Holding? && p.job.executionId in s.svc.canceled ==>
            Terminal(s.disk.executions[p.job.executionId]) || FlagOpen(s, p.job.executionId))
  }

  lemma DoorEnds(cfg: Config, s: State, w: nat, input: Input)
    requires w < |s.pool.workers| && AtDoor(WorkerAt(s, w)) && HeldId(WorkerAt(s, w)).Some?
    requires DoorOk(s, WorkerAt(s, w))
    ensures !Closing(TurnOf(cfg, s, w, input).next)
    ensures HeldId(TurnOf(cfg, s, w, input).next) == None ==>
              EndedFor(Work(cfg, s, w, input), WorkerAt(s, w))
  {
  }

  lemma LeaseEnds(cfg: Config, s: State, w: nat, input: Input)
    requires w < |s.pool.workers| && AtLease(WorkerAt(s, w)) && MayWork(cfg, s, w, input)
    requires WorkerOk(cfg, s.disk.executions, s.pool.live, WorkerAt(s, w))
    ensures var t := TurnOf(cfg, s, w, input);
            HeldId(t.next) == None || Closing(t.next) ==> EndedFor(Work(cfg, s, w, input), WorkerAt(s, w))
  {
    hide Conclude;
  }

  lemma RunEnds(cfg: Config, s: State, w: nat, input: Input)
    requires w < |s.pool.workers| && (AtLoad(WorkerAt(s, w)) || WorkerAt(s, w).Executing?)
    ensures var t := TurnOf(cfg, s, w, input); HeldId(t.next).Some? && !Closing(t.next)
  {
  }

  lemma EndEnds(cfg: Config, s: State, w: nat, input: Input)
    requires w < |s.pool.workers| && AtEnd(WorkerAt(s, w))
    requires WorkerOk(cfg, s.disk.executions, s.pool.live, WorkerAt(s, w))
    requires Closing(WorkerAt(s, w)) ==> EndedFor(s, WorkerAt(s, w))
    ensures EndedFor(Work(cfg, s, w, input), WorkerAt(s, w))
  {
    hide Conclude;
  }

  /** However a worker lets go of an execution, or comes to giving back its lease, the end is
      stored or the reason recorded. */
  lemma LettingGoEnds(cfg: Config, s: State, w: nat, input: Input)
    requires InCustody(s) && RecordsOk(cfg, s) && EndsOk(s) && w < |s.pool.workers| && MayWork(cfg, s, w, input)
    requires HeldId(WorkerAt(s, w)).Some?
    ensures var t := TurnOf(cfg, s, w, input);
            HeldId(t.next) == None || Closing(t.next) ==> EndedFor(Work(cfg, s, w, input), WorkerAt(s, w))
  {
    hide TurnOf, MayWork;
    var p := s.pool.workers[w];
    assert At(s.hist.place, HeldId(p).value, Held(w));
    assert WorkerOk(cfg, s.disk.executions, s.pool.live, p);
    if AtDoor(p) {
      assert p.Holding? ==> Early(s.hist.place, s.pool.workers, p.job.executionId);
      DoorEnds(cfg, s, w, input);
    } else if AtLease(p) { LeaseEnds(cfg, s, w, input); }
    else if AtEnd(p) { EndEnds(cfg, s, w, input); }
    else { RunEnds(cfg, s, w, input); }
  }

  /** What one execution's end rests on is not touched. */
  ghost predicate Untouched(s: State, s': State, id: Id) {
    && id in s.disk.executions && id in s'.disk.executions && s'.disk.executions[id] == s.disk.executions[id]
    && (id in s.hist.causes ==> id in s'.hist.causes && s'.hist.causes[id] == s.hist.causes[id])
    && s'.hist.lapsed == s.hist.lapsed && s'.calls == s.calls && s'.svc.fired == s.svc.fired &&
       s'.pool.live == s.pool.live
  }

  lemma WorkLeavesOthers(cfg: Config, s: State, w: nat, input: Input, id: Id)
    requires w < |s.pool.workers| && id in s.disk.executions && HeldId(WorkerAt(s, w)) != Some(id)
    requires Named(s.disk.executions)
    ensures Untouched(s, Work(cfg, s, w, input), id)
  {
    hide TurnOf;
    TurnHolds(cfg, s, w, input);
    FiredStay(cfg, s, w, input);
  }

  lemma EarlyFiredStay(cfg: Config, s: State, w: nat, input: Input)
    requires w < |s.pool.workers| && (AtDoor(WorkerAt(s, w)) || AtLease(WorkerAt(s, w)))
    ensures TurnOf(cfg, s, w, input).svc.fired == s.svc.fired && TurnOf(cfg, s, w, input).svc.canceled <= s.svc.canceled
  {
  }

  lemma LateFiredStay(cfg: Config, s: State, w: nat, input: Input)
    requires w < |s.pool.workers| && !(AtDoor(WorkerAt(s, w)) || AtLease(WorkerAt(s, w)))
    ensures TurnOf(cfg, s, w, input).svc.fired == s.svc.fired && TurnOf(cfg, s, w, input).svc.canceled == s.svc.canceled
  {
  }

  lemma FiredStay(cfg: Config, s: State, w: nat, input: Input)
    requires w < |s.pool.workers|
    ensures TurnOf(cfg, s, w, input).svc.fired == s.svc.fired && TurnOf(cfg, s, w, input).svc.canceled <= s.svc.canceled
  {
    hide TurnOf;
    if AtDoor(s.pool.workers[w]) || AtLease(s.pool.workers[w]) {
      EarlyFiredStay(cfg, s, w, input);
    } else {
      LateFiredStay(cfg, s, w, input);
    }
  }

  lemma EarlyBefore(place: map<Id, Place>, workers: seq<Worker>, w: nat, next: Worker, id: Id)
    requires WorkersPlaced(place, workers) && w < |workers|
    requires HeldId(next) == HeldId(workers[w]) || HeldId(next) == None ||
             (HeldId(workers[w]) == None && At(place, HeldId(next).value, Waiting))
    requires HeldId(workers[w]).Some? ==> !next.Holding?
    requires Early(Moved(place, w, HeldId(workers[w]), HeldId(next)), workers[w := next], id)
    ensures Early(place, workers, id) && HeldId(workers[w]) != Some(id)
  {
    assert HeldId(workers[w]).Some? ==> At(place, HeldId(workers[w]).value, Held(w));
    if id in place && place[id].Held? {
      assert HeldId(workers[place[id].worker]) == Some(id);
    }
  }

  lemma HoldersGoOn(cfg: Config, s: State, w: nat, input: Input)
    requires w < |s.pool.workers| && HeldId(WorkerAt(s, w)).Some?
    ensures !TurnOf(cfg, s, w, input).next.Holding?
  {
  }

  lemma WorkKeepsFlags(cfg: Config, s: State, w: nat, input: Input)
    requires InCustody(s) && FlagsHeld(s) && w < |s.pool.workers|
    ensures FlagsHeld(Work(cfg, s, w, input))
  {
    hide TurnOf;
    var t, s' := TurnOf(cfg, s, w, input), Work(cfg, s, w, input);
    TurnHolds(cfg, s, w, input);
    TurnQueue(cfg, s, w, input);
    FiredStay(cfg, s, w, input);
    if HeldId(s.pool.workers[w]) == None && HeldId(t.next).Some? { QueueTaken(s.hist.place, s.pool.queue, w); }
    if HeldId(s.pool.workers[w]).Some? { HoldersGoOn(cfg, s, w, input); }
    forall id | id in s'.svc.canceled
      ensures id in s'.disk.executions
      ensures Early(s'.hist.place, s'.pool.workers, id) ==> Terminal(s'.disk.executions[id]) || FlagOpen(s', id)
    {
      if Early(s'.hist.place, s'.pool.workers, id) {
        EarlyBefore(s.hist.place, s.pool.workers, w, t.next, id);
        WorkLeavesOthers(cfg, s, w, input, id);
      }
    }
  }

  /** Whatever is ended stays so while another execution's worker moves. */
  lemma OthersStayEnded(cfg: Config, s: State, w: nat, input: Input, id: Id)
    requires w < |s.pool.workers| && HeldId(WorkerAt(s, w)) != Some(id) && Named(s.disk.executions) && Ended(s, id)
    ensures Ended(Work(cfg, s, w, input), id)
  {
    hide TurnOf;
    WorkLeavesOthers(cfg, s, w, input, id);
  }

  lemma GoneBefore(place: map<Id, Place>, w: nat, before: Option<Id>, after: Option<Id>, id: Id)
    requires before == after || after == None || before == None
    requires before.Some? ==> At(place, before.value, Held(w))
    requires At(Moved(place, w, before, after), id, Gone)
    ensures (before == Some(id) && after == None) || (before != Some(id) && At(place, id, Gone))
  {
  }

  lemma WorkKeepsGone(cfg: Config, s: State, w: nat, input: Input)
    requires InCustody(s) && RecordsOk(cfg, s) && EndsOk(s) && w < |s.pool.workers| && MayWork(cfg, s, w, input)
    ensures GoneEnded(Work(cfg, s, w, input))
  {
    hide TurnOf, MayWork;
    var p, t, s' := s.pool.workers[w], TurnOf(cfg, s, w, input), Work(cfg, s, w, input);
    TurnHolds(cfg, s, w, input);
    TurnQueue(cfg, s, w, input);
    if HeldId(p).Some? {
      assert At(s.hist.place, HeldId(p).value, Held(w));
      LettingGoEnds(cfg, s, w, input);
    }
    forall id | At(s'.hist.place, id, Gone) ensures Ended(s', id) {
      GoneBefore(s.hist.place, w, HeldId(p), HeldId(t.next), id);
      if HeldId(p) != Some(id) { OthersStayEnded(cfg, s, w, input, id); }
    }
  }

  lemma WorkKeepsClosing(cfg: Config, s: State, w: nat, input: Input)
    requires InCustody(s) && RecordsOk(cfg, s) && EndsOk(s) && w < |s.pool.workers| && MayWork(cfg, s, w, input)
    ensures ClosingEnded(Work(cfg, s, w, input))
  {
    hide TurnOf, MayWork;
    var s' := Work(cfg, s, w, input);
    WorkFollows(cfg, s, w, input);
    forall v | 0 <= v < |s'.pool.workers| && Closing(s'.pool.workers[v]) ensures EndedFor(s', s'.pool.workers[v]) {
      if v == w { ClosingEnds(cfg, s, w, input); } else { OtherClosing(cfg, s, w, input, v); }
    }
  }

  lemma ClosesOwn(cfg: Config, s: State, w: nat, input: Input)
    requires w < |s.pool.workers| && Named(s.disk.executions) && Closing(TurnOf(cfg, s, w, input).next)
    ensures HeldId(WorkerAt(s, w)) == HeldId(TurnOf(cfg, s, w, input).next)
  {
    hide TurnOf;
    TurnHolds(cfg, s, w, input);
    if HeldId(s.pool.workers[w]) == None { IdleIsNotClosing(cfg, s, w, input); }
  }

  lemma ClosingEnds(cfg: Config, s: State, w: nat, input: Input)
    requires InCustody(s) && RecordsOk(cfg, s) && EndsOk(s) && w < |s.pool.workers| && MayWork(cfg, s, w, input)
    requires Closing(TurnOf(cfg, s, w, input).next)
    ensures EndedFor(Work(cfg, s, w, input), TurnOf(cfg, s, w, input).next)
  {
    hide TurnOf, MayWork;
    ClosesOwn(cfg, s, w, input);
    LettingGoEnds(cfg, s, w, input);
  }

  lemma OtherClosing(cfg: Config, s: State, w: nat, input: Input, v: nat)
    requires InCustody(s) && ClosingEnded(s) && w < |s.pool.workers| && v < |s.pool.workers| && v != w
    requires Closing(WorkerAt(s, v))
    ensures EndedFor(Work(cfg, s, w, input), WorkerAt(s, v))
  {
    hide Work;
    var id := s.pool.workers[v].e.ticket.id;
    assert At(s.hist.place, id, Held(v));
    OthersStayEnded(cfg, s, w, input, id);
  }

  lemma IdleIsNotClosing(cfg: Config, s: State, w: nat, input: Input)
    requires w < |s.pool.workers| && HeldId(WorkerAt(s, w)) == None
    ensures !Closing(TurnOf(cfg, s, w, input).next)
  {
  }

  // ---- One step of a call ----

  /** A call stores new records, and the ends of others. */
  lemma CallsStoreEnds(cfg: Config, s: State, c: nat)
    requires c in s.calls && CallOk(cfg, s.disk.executions, CallAt(s, c).step)
    ensures var write := CallWrite(s, c); write.Some? ==>
              write.value.ticket.id !in s.disk.executions || Terminal(write.value)
  {
  }

  /** What a call's step does to the reasons and the flags. */
  ghost predicate CallEffect(s: State, s': State, c: nat) {
    && s'.pool.live == s.pool.live && s'.now == s.now && s.svc.fired <= s'.svc.fired
    && (match CallAt(s, c).step
        case Flagging(e) => s'.svc.canceled == s.svc.canceled + {e.ticket.id} && c in s'.calls &&
          s'.calls[c].step.Writing? && s'.calls[c].step.e.ticket.id == e.ticket.id
        case _ => s'.svc.canceled == s.svc.canceled)
    && s'.hist.lapsed == (if CallAt(s, c).step.Writing? && CallAt(s, c).dead then
                          s.hist.lapsed + {CallAt(s, c).step.e.ticket.id} else s.hist.lapsed)
    && s'.hist.causes == (if CallAt(s, c).step.Reverting? && CallAt(s, c).dead then
                          s.hist.causes[CallAt(s, c).step.e.ticket.id := CallDone] else s.hist.causes)
  }

  lemma SubmitEffect(cfg: Config, s: State, c: nat, x: Id)
    requires c in s.calls && (CallAt(s, c).step.Finding? || MidSubmit(CallAt(s, c).step))
    ensures CallEffect(s, Proceed(cfg, s, c, x), c)
  {
  }

  lemma CancelEffect(cfg: Config, s: State, c: nat, x: Id)
    requires c in s.calls && !(CallAt(s, c).step.Finding? || MidSubmit(CallAt(s, c).step))
    ensures CallEffect(s, Proceed(cfg, s, c, x), c)
  {
  }

  /** The shape of a call's step, all in one. */
  ghost predicate Called(s: State, s': State, c: nat) {
    && CallEffect(s, s', c)
    && s'.disk.executions == Put(s.disk.executions, CallWrite(s, c)) && s'.pool.workers == s.pool.workers
    && c in s'.calls && s'.calls == s.calls[c := s'.calls[c]]
  }

  lemma CallShape(cfg: Config, s: State, c: nat, x: Id)
    requires RecordsOk(cfg, s) && c in s.calls
    ensures Called(s, Proceed(cfg, s, c, x), c)
  {
    hide Proceed;
    assert CallOk(cfg, s.disk.executions, s.calls[c].step);
    if s.calls[c].step.Finding? || MidSubmit(s.calls[c].step) {
      SubmitShape(cfg, s, c, x);
      SubmitEffect(cfg, s, c, x);
    } else {
      CancelShape(cfg, s, c, x);
      CancelEffect(cfg, s, c, x);
    }
  }

  /** A flag that was open stays so, or its execution's end is stored. */
  lemma FlagStaysOpen(cfg: Config, s: State, s': State, c: nat, id: Id)
    requires c in s.calls && Called(s, s', c) && FlagOpen(s, id) && id in s.disk.executions
    requires CallOk(cfg, s.disk.executions, CallAt(s, c).step)
    ensures id in s'.disk.executions && (Terminal(s'.disk.executions[id]) || FlagOpen(s', id))
  {
    if id !in s.hist.lapsed {
      var d: nat :| d in s.calls && s.calls[d].step.Writing? && s.calls[d].step.e.ticket.id == id;
      if d != c {
        assert d in s'.calls && s'.calls[d].step.Writing? && s'.calls[d].step.e.ticket.id == id;
      }
    }
  }

  lemma EndStays(cfg: Config, s: State, s': State, c: nat, id: Id)
    requires c in s.calls && Called(s, s', c) && Ended(s, id) && CallOk(cfg, s.disk.executions, CallAt(s, c).step)
    ensures Ended(s', id)
  {
    CallsStoreEnds(cfg, s, c);
    if !Terminal(s.disk.executions[id]) && s.hist.causes[id].Flagged? { FlagStaysOpen(cfg, s, s', c, id); }
  }

  lemma ProceedKeepsClosing(cfg: Config, s: State, c: nat, x: Id)
    requires RecordsOk(cfg, s) && ClosingEnded(s) && c in s.calls
    ensures ClosingEnded(Proceed(cfg, s, c, x))
  {
    hide Proceed;
    var s' := Proceed(cfg, s, c, x);
    assert CallOk(cfg, s.disk.executions, s.calls[c].step);
    CallShape(cfg, s, c, x);
    forall w | 0 <= w < |s'.pool.workers| && Closing(s'.pool.workers[w]) ensures EndedFor(s', s'.pool.workers[w]) {
      assert EndedFor(s, s.pool.workers[w]);
      EndStays(cfg, s, s', c, s.pool.workers[w].e.ticket.id);
    }
  }

  lemma ProceedKeepsEnds(cfg: Config, s: State, c: nat, x: Id)
    requires InCustody(s) && RecordsOk(cfg, s) && EndsOk(s) && c in s.calls
    ensures EndsOk(Proceed(cfg, s, c, x))
  {
    hide Proceed;
    ProceedKeepsClosing(cfg, s, c, x);
    ProceedKeepsGone(cfg, s, c, x);
    ProceedKeepsFlags(cfg, s, c, x);
  }

  lemma ProceedKeepsGone(cfg: Config, s: State, c: nat, x: Id)
    requires InCustody(s) && RecordsOk(cfg, s) && GoneEnded(s) && c in s.calls
    ensures GoneEnded(Proceed(cfg, s, c, x))
  {
    var s' := Proceed(cfg, s, c, x);
    assert CallOk(cfg, s.disk.executions, s.calls[c].step);
    CallShape(cfg, s, c, x);
    CallApart(cfg, s, c, x);
    CallsStoreEnds(cfg, s, c);
    forall id | At(s'.hist.place, id, Gone) ensures Ended(s', id) {
      if At(s.hist.place, id, Gone) { EndStays(cfg, s, s', c, id); }
    }
  }

  lemma ProceedKeepsFlags(cfg: Config, s: State, c: nat, x: Id)
    requires InCustody(s) && RecordsOk(cfg, s) && FlagsHeld(s) && c in s.calls
    ensures FlagsHeld(Proceed(cfg, s, c, x))
  {
    hide Proceed;
    var s' := Proceed(cfg, s, c, x);
    assert CallOk(cfg, s.disk.executions, s.calls[c].step);
    CallShape(cfg, s, c, x);
    CallApart(cfg, s, c, x);
    CallsStoreEnds(cfg, s, c);
    forall id | id in s'.svc.canceled
      ensures id in s'.disk.executions
      ensures Early(s'.hist.place, s'.pool.workers, id) ==> Terminal(s'.disk.executions[id]) || FlagOpen(s', id)
    {
      if id in s.svc.canceled {
        if Early(s'.hist.place, s'.pool.workers, id) { FlagAfter(cfg, s, s', c, id); }
      } else {
        assert s'.calls[c].step.Writing? && s'.calls[c].step.e.ticket.id == id;
      }
    }
  }

  lemma FlagAfter(cfg: Config, s: State, s': State, c: nat, id: Id)
    requires InCustody(s) && FlagsHeld(s) && c in s.calls && Called(s, s', c)
    requires CallOk(cfg, s.disk.executions, CallAt(s, c).step)
    requires id in s.svc.canceled && Early(s'.hist.place, s.pool.workers, id)
    requires var move := CallMove(s, c);
             s'.hist.place == (if move.None? then s.hist.place else s.hist.place[move.value.0 := move.value.1])
    ensures id in s'.disk.executions && (Terminal(s'.disk.executions[id]) || FlagOpen(s', id))
  {
    var own := SubmitId(s.calls[c].step);
    assert own.Some? ==> At(s.hist.place, own.value, Submitting(c));
    assert Early(s.hist.place, s.pool.workers, id);
    CallsStoreEnds(cfg, s, c);
    if !Terminal(s.disk.executions[id]) { FlagStaysOpen(cfg, s, s', c, id); }
  }

  // ---- Runs ----

  lemma BootEnds(cfg: Config, disk: S.Disk, now: Nanos, past: Past)
    ensures EndsOk(Boot(cfg, disk, now, past))
  {
    S.RecoveryIsClean(disk.executions);
  }

  lemma PendingStays(calls: map<nat, Call>, calls': map<nat, Call>, id: Id)
    requires Pending(calls, id) && forall c :: c in calls ==> c in calls' && calls'[c].step == calls[c].step
    ensures Pending(calls', id)
  {
    var c: nat :| c in calls && calls[c].step.Writing? && calls[c].step.e.ticket.id == id;
    assert c in calls' && calls'[c].step.Writing? && calls'[c].step.e.ticket.id == id;
  }

  /** Nothing that ends depend on is undone from one state to the next. */
  ghost predicate EndsStand(s: State, s': State) {
    && s'.disk.executions == s.disk.executions && s'.hist.place == s.hist.place && s'.pool.workers == s.pool.workers
    && s'.hist.causes == s.hist.causes && s'.hist.lapsed == s.hist.lapsed
    && s'.svc.fired == s.svc.fired && s'.svc.canceled == s.svc.canceled && (s'.pool.live ==> s.pool.live)
    && s.now <= s'.now
    && forall c :: c in s.calls ==> c in s'.calls && s'.calls[c].step == s.calls[c].step
  }

  lemma QuietLeavesEnds(cfg: Config, s: State, a: Action)
    requires Enabled(cfg, s, a) && !a.DoWork? && !a.Continue? && !a.Restart?
    ensures EndsStand(s, Next(cfg, s, a))
  {
    hide Work, Proceed, MayWork;
  }

  lemma EndsFollow(s: State, s': State)
    requires EndsOk(s) && EndsStand(s, s')
    ensures EndsOk(s')
  {
    forall id ensures FlagOpen(s, id) ==> FlagOpen(s', id) {
      if Pending(s.calls, id) { PendingStays(s.calls, s'.calls, id); }
    }
    forall id ensures Ended(s, id) ==> Ended(s', id) {
    }
    forall w | 0 <= w < |s'.pool.workers| && Closing(s'.pool.workers[w]) ensures EndedFor(s', s'.pool.workers[w]) {
      assert EndedFor(s, s.pool.workers[w]);
    }
  }

  lemma QuietKeepsEnds(cfg: Config, s: State, a: Action)
    requires EndsOk(s) && Enabled(cfg, s, a) && !a.DoWork? && !a.Continue? && !a.Restart?
    ensures EndsOk(Next(cfg, s, a))
  {
    hide Next, Enabled;
    QuietLeavesEnds(cfg, s, a);
    EndsFollow(s, Next(cfg, s, a));
  }

  lemma StepKeepsEnds(cfg: Config, s: State, a: Action)
    requires InCustody(s) && RecordsOk(cfg, s) && EndsOk(s) && Enabled(cfg, s, a)
    ensures EndsOk(Next(cfg, s, a))
  {
    hide Work, Proceed;
    match a
    case DoWork(w, input) =>
      WorkKeepsGone(cfg, s, w, input);
      WorkKeepsClosing(cfg, s, w, input);
      WorkKeepsFlags(cfg, s, w, input);
    case Continue(c, x) => ProceedKeepsEnds(cfg, s, c, x);
    case Restart => BootEnds(cfg, s.disk, s.now, s.hist.past);
    case _ => QuietKeepsEnds(cfg, s, a);
  }

  /** Over any run, whatever the interleaving, crashes included. */
  lemma {:induction false} RunsKeepEnds(cfg: Config, s: State, run: seq<Action>)
    requires InCustody(s) && RecordsOk(cfg, s) && EndsOk(s) && Possible(cfg, s, run)
    ensures InCustody(Exec(cfg, s, run)) && EndsOk(Exec(cfg, s, run))
    decreases run
  {
    hide Next;
    if run != [] {
      StepKeepsCustody(cfg, s, run[0]);
      StepKeepsRecords(cfg, s, run[0]);
      StepKeepsEnds(cfg, s, run[0]);
      RunsKeepEnds(cfg, Next(cfg, s, run[0]), run[1..]);
    }
  }

  /** Neither being submitted, nor queued, nor held. */
  ghost predicate Nowhere(s: State, id: Id) {
    && Copies(s.pool.queue.entries, id) == 0
    && (forall c: nat :: !Submitted(s, id, c)) && (forall w: nat :: !HeldBy(s, id, w))
  }

  lemma NowhereIsGone(s: State, id: Id)
    requires InCustody(s) && Nowhere(s, id) && id in s.disk.executions
    ensures At(s.hist.place, id, Gone)
  {
    WhereItIs(s, id);
  }

  lemma WhereItIs(s: State, id: Id)
    requires InCustody(s) && id in s.disk.executions
    ensures At(s.hist.place, id, Gone) || Copies(s.pool.queue.entries, id) > 0 ||
            (exists c: nat :: Submitted(s, id, c)) || exists w: nat :: HeldBy(s, id, w)
  {
    match s.hist.place[id] {
      case Submitting(c) => assert Submitted(s, id, c);
      case Held(w) => assert HeldBy(s, id, w);
      case Waiting => assert At(s.hist.place, id, Waiting);
      case Gone =>
    }
  }

  /** In every state of every run from a start of the service: an execution that is nowhere has a
      terminal record, or the pool has been shut down before a worker was done with it; or marking
      it as running failed because Cancel had ended its context, or because its deadline had
      passed; or a worker dropped it on a flag whose Cancel ended before its write, or has yet to
      write; or its submission could not queue it and had no context left to say so. */
  lemma NothingElseIsOrphaned(cfg: Config, disk: S.Disk, now: Nanos, past: Past, run: seq<Action>, id: Id)
    requires StoreOk(cfg, disk.executions) && Possible(cfg, Boot(cfg, disk, now, past), run)
    requires var s := Exec(cfg, Boot(cfg, disk, now, past), run); id in s.disk.executions && Nowhere(s, id)
    ensures var s := Exec(cfg, Boot(cfg, disk, now, past), run);
            || Terminal(s.disk.executions[id])
            || (id in s.hist.causes &&
                match s.hist.causes[id]
                case ShutDown => !s.pool.live
                case Fired => id in s.svc.fired
                case Overdue(deadline) => deadline <= s.now
                case Flagged => id in s.hist.lapsed || Pending(s.calls, id)
                case CallDone => true)
  {
    hide Next, Enabled, Boot;
    var first := Boot(cfg, disk, now, past);
    BootCustody(cfg, disk, now, past);
    BootRecords(cfg, disk, now, past);
    BootEnds(cfg, disk, now, past);
    RunsKeepEnds(cfg, first, run);
    NowhereIsGone(Exec(cfg, first, run), id);
  }

  // ---- Letting go of the unfinished, exactly ----

  /** The execution's record is stored and unfinished. */
  predicate Open(s: State, id: Id) {
    id in s.disk.executions && !Terminal(s.disk.executions[id])
  }

  /** The worker's next step lets go of what it holds without an end: on a flag, or on a pool that is
      shut down, or because it was never marked as running. */
  predicate Drops(s: State, w: Worker) {
    || (w.Holding? && w.job.executionId in s.svc.canceled)
    || ((w.Starting? || w.Rejecting?) && !s.pool.live)
    || w.Releasing?
  }

  /** The call's next step lets go of the execution without an end: it could not be queued, and the
      call's context is done. */
  predicate Forsakes(call: Call, id: Id) {
    call.step.Reverting? && call.step.e.ticket.id == id && call.dead
  }

  predicate LetsGoOpen(s: State, a: Action, id: Id) {
    match a
    case DoWork(w, _) => HeldId(WorkerAt(s, w)) == Some(id) && Drops(s, WorkerAt(s, w))
    case Continue(c, _) => Forsakes(CallAt(s, c), id)
    case _ => false
  }

  lemma EarlyDrops(cfg: Config, s: State, w: nat, input: Input, id: Id)
    requires HeldId(WorkerAt(s, w)) == Some(id) && (AtDoor(WorkerAt(s, w)) || AtLease(WorkerAt(s, w)))
    requires Open(s, id) && WorkerOk(cfg, s.disk.executions, s.pool.live, WorkerAt(s, w))
    ensures var t := TurnOf(cfg, s, w, input);
            HeldId(t.next) == None && !Over(Write(s.disk.executions, t.write), id) <==> Drops(s, WorkerAt(s, w))
  {
  }

  lemma LateDrops(cfg: Config, s: State, w: nat, input: Input, id: Id)
    requires HeldId(WorkerAt(s, w)) == Some(id) && !(AtDoor(WorkerAt(s, w)) || AtLease(WorkerAt(s, w)))
    ensures HeldId(TurnOf(cfg, s, w, input).next) == None <==> WorkerAt(s, w).Releasing?
    ensures WorkerAt(s, w).Releasing? ==> TurnOf(cfg, s, w, input).write == None
  {
  }

  lemma HolderDrops(cfg: Config, s: State, w: nat, input: Input, id: Id)
    requires RecordsOk(cfg, s) && w < |s.pool.workers| && HeldId(WorkerAt(s, w)) == Some(id) && Open(s, id)
    ensures var t := TurnOf(cfg, s, w, input);
            HeldId(t.next) == None && !Over(Write(s.disk.executions, t.write), id) <==> Drops(s, WorkerAt(s, w))
  {
    hide TurnOf;
    var p := s.pool.workers[w];
    assert WorkerOk(cfg, s.disk.executions, s.pool.live, p);
    if AtDoor(p) || AtLease(p) { EarlyDrops(cfg, s, w, input, id); } else { LateDrops(cfg, s, w, input, id); }
  }

  lemma WorkDrops(cfg: Config, s: State, w: nat, input: Input, id: Id)
    requires InCustody(s) && RecordsOk(cfg, s) && w < |s.pool.workers| && Open(s, id) && !At(s.hist.place, id, Gone)
    ensures var s' := Work(cfg, s, w, input);
            At(s'.hist.place, id, Gone) && Open(s', id) <==> LetsGoOpen(s, DoWork(w, input), id)
  {
    hide Work, TurnOf;
    WorkFollows(cfg, s, w, input);
    TurnsMove(cfg, s, w, input);
    if HeldId(s.pool.workers[w]) == Some(id) {
      assert At(s.hist.place, id, Held(w));
      HolderDrops(cfg, s, w, input, id);
    } else if HeldId(s.pool.workers[w]).Some? {
      assert At(s.hist.place, HeldId(s.pool.workers[w]).value, Held(w));
    }
  }

  lemma CallDrops(cfg: Config, s: State, c: nat, x: Id, id: Id)
    requires InCustody(s) && RecordsOk(cfg, s) && c in s.calls && Open(s, id) && !At(s.hist.place, id, Gone)
    ensures var s' := Proceed(cfg, s, c, x);
            At(s'.hist.place, id, Gone) && Open(s', id) <==> LetsGoOpen(s, Continue(c, x), id)
  {
    assert CallOk(cfg, s.disk.executions, s.calls[c].step);
    CallShape(cfg, s, c, x);
    CallApart(cfg, s, c, x);
  }

  /** In any state of any run, a step lets go of an unfinished execution and leaves it unfinished if
      and only if a worker drops it on a flag, or on a pool that is shut down, or after failing to
      mark it as running; or a call that could not queue it has no live context to say so. */
  lemma LetsGoOpenExactlyWhen(cfg: Config, s: State, a: Action, id: Id)
    requires InCustody(s) && RecordsOk(cfg, s) && Enabled(cfg, s, a) && Open(s, id) && !At(s.hist.place, id, Gone)
    ensures var s' := Next(cfg, s, a);
            At(s'.hist.place, id, Gone) && Open(s', id) <==> LetsGoOpen(s, a, id)
  {
    hide Work, Proceed;
    match a
    case DoWork(w, input) => WorkDrops(cfg, s, w, input, id);
    case Continue(c, x) => CallDrops(cfg, s, c, x, id);
    case Restart => S.RecoveryIsClean(s.disk.executions);
    case _ => QuietLeavesEnds(cfg, s, a);
  }

  // ---- Marking as running, exactly ----

  /** The worker's step gives the execution up with its record as it was. */
  predicate Abandons(cfg: Config, s: State, w: nat, input: Input)
    requires w < |s.pool.workers| && s.pool.workers[w].Marking?
  {
    var t := TurnOf(cfg, s, w, input);
    t.next == Unwinding(s.pool.workers[w].e) && t.write == None
  }

  /** In any state, a worker may fail to mark its execution as running, and so abandon it, if and
      only if the pool is shut down, Cancel has ended its context, or its deadline has passed. */
  lemma MayAbandonExactlyWhen(cfg: Config, s: State, w: nat)
    requires w < |s.pool.workers| && WorkerAt(s, w).Marking?
    ensures var p := WorkerAt(s, w);
            (exists input :: MayWork(cfg, s, w, input) && Abandons(cfg, s, w, input))
            <==> !s.pool.live || p.e.ticket.id in s.svc.fired || s.now >= p.deadline
  {
    var p := s.pool.workers[w];
    if !s.pool.live || p.e.ticket.id in s.svc.fired {
      assert MayWork(cfg, s, w, Input(Canceled, Live, 0)) && Abandons(cfg, s, w, Input(Canceled, Live, 0));
    } else if s.now >= p.deadline {
      assert MayWork(cfg, s, w, Input(Expired, Live, 0)) && Abandons(cfg, s, w, Input(Expired, Live, 0));
    }
  }

  /** And it is bound to if and only if the pool is shut down, Cancel has ended its context, or its
      timeout is not positive. */
  lemma MustAbandonExactlyWhen(cfg: Config, s: State, w: nat)
    requires w < |s.pool.workers| && WorkerAt(s, w).Marking?
    ensures var e := WorkerAt(s, w).e;
            (forall input :: MayWork(cfg, s, w, input) ==> Abandons(cfg, s, w, input))
            <==> !s.pool.live || e.ticket.id in s.svc.fired || e.ticket.budget.timeout <= 0
  {
    var p := s.pool.workers[w];
    if s.pool.live && p.e.ticket.id !in s.svc.fired && p.e.ticket.budget.timeout > 0 {
      assert MayWork(cfg, s, w, Input(Live, Live, 0)) && !Abandons(cfg, s, w, Input(Live, Live, 0));
    }
  }

  /** When the start of Run takes no time and nothing comes between, both come down to the
      timeout alone. */
  lemma UndisturbedAbandonsOnTimeoutOnly(cfg: Config, s: State, w: nat, input: Input)
    requires w < |s.pool.workers| && WorkerAt(s, w).Marking? && MayWork(cfg, s, w, input)
    requires var p := WorkerAt(s, w);
             s.pool.live && p.e.ticket.id !in s.svc.fired && p.deadline == s.now + p.e.ticket.budget.timeout
    ensures Abandons(cfg, s, w, input) <==> WorkerAt(s, w).e.ticket.budget.timeout <= 0
  {
  }
}
