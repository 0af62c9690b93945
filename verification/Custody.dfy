/** Custody: every execution is in exactly one place, whatever the interleaving. */
module Custody {
  import opened Common
  import opened Executions
  import opened ControlPlane
  import Q = RingQueue
  import S = Stores

  // ---- The executions in the queue ----

  /** How often an execution occurs among some jobs. */
  function JobCopies(jobs: seq<Q.Job>, id: Id): nat {
    if jobs == [] then 0 else (if jobs[0].executionId == id then 1 else 0) + JobCopies(jobs[1..], id)
  }

  function Copies(entries: seq<Q.Entry>, id: Id): nat {
    if entries == [] then 0 else JobCopies(entries[0].jobs, id) + Copies(entries[1..], id)
  }

  lemma {:induction false} JobCopiesSplit(a: seq<Q.Job>, b: seq<Q.Job>, id: Id)
    ensures JobCopies(a + b, id) == JobCopies(a, id) + JobCopies(b, id)
  {
    if a == [] {
      assert a + b == b;
    } else {
      JobCopiesSplit(a[1..], b, id);
      assert (a + b)[1..] == a[1..] + b;
    }
  }

  lemma {:induction false} CopiesSplit(a: seq<Q.Entry>, b: seq<Q.Entry>, id: Id)
    ensures Copies(a + b, id) == Copies(a, id) + Copies(b, id)
  {
    if a == [] {
      assert a + b == b;
    } else {
      CopiesSplit(a[1..], b, id);
      assert (a + b)[1..] == a[1..] + b;
    }
  }

  lemma CopiesBetween(a: seq<Q.Entry>, e: Q.Entry, b: seq<Q.Entry>, id: Id)
    ensures Copies(a + [e] + b, id) == Copies(a, id) + JobCopies(e.jobs, id) + Copies(b, id)
  {
    CopiesSplit(a + [e], b, id);
    CopiesSplit(a, [e], id);
    assert [e][1..] == [];
  }

  lemma EnqueueCopies(r: Q.Ring, job: Q.Job, id: Id)
    requires r.seam <= |r.entries|
    ensures Copies(Q.Enqueue(r, job).entries, id) == Copies(r.entries, id) + if job.executionId == id then 1 else 0
  {
    var i := Q.IndexOf(r.entries, job.tenantId);
    if i < |r.entries| {
      var e := r.entries[i].(jobs := r.entries[i].jobs + [job]);
      assert Q.Enqueue(r, job).entries == r.entries[..i] + [e] + r.entries[i + 1..];
      assert r.entries == r.entries[..i] + [r.entries[i]] + r.entries[i + 1..];
      CopiesBetween(r.entries[..i], e, r.entries[i + 1..], id);
      CopiesBetween(r.entries[..i], r.entries[i], r.entries[i + 1..], id);
      JobCopiesSplit(r.entries[i].jobs, [job], id);
      assert [job][1..] == [];
    } else {
      var e := Q.Entry(job.tenantId, [job]);
      CopiesBetween(r.entries[..r.seam], e, r.entries[r.seam..], id);
      CopiesSplit(r.entries[..r.seam], r.entries[r.seam..], id);
      assert r.entries == r.entries[..r.seam] + r.entries[r.seam..];
      assert [job][1..] == [];
    }
  }

  lemma DequeueCopies(r: Q.Ring, id: Id)
    requires Q.Valid(r) && r.entries != []
    ensures Copies(r.entries, id) == (if Q.Front(r).executionId == id then 1 else 0) + Copies(Q.Dequeue(r).entries, id)
  {
    var rest := r.entries[0].(jobs := r.entries[0].jobs[1..]);
    CopiesSplit(r.entries[1..], [rest], id);
    assert [rest][1..] == [];
  }

  // ---- The invariant ----

  /** The execution a Submit call has created and not yet queued or given up. */
  function SubmitId(step: CallStep): Option<Id> {
    match step
    case Saving(e, _, _) => Some(e.ticket.id)
    case Putting(e, _) => Some(e.ticket.id)
    case Scheduling(e) => Some(e.ticket.id)
    case Reverting(e) => Some(e.ticket.id)
    case _ => None
  }

  ghost predicate At(place: map<Id, Place>, id: Id, p: Place) {
    id in place && place[id] == p
  }

  ghost predicate WorkersPlaced(place: map<Id, Place>, workers: seq<Worker>) {
    && (forall w :: 0 <= w < |workers| && HeldId(workers[w]).Some? ==> At(place, HeldId(workers[w]).value, Held(w)))
    && (forall id :: id in place && place[id].Held? ==>
          place[id].worker < |workers| && HeldId(workers[place[id].worker]) == Some(id))
  }

  ghost predicate CallsPlaced(place: map<Id, Place>, calls: map<nat, Call>) {
    && (forall c :: c in calls && SubmitId(calls[c].step).Some? ==>
          At(place, SubmitId(calls[c].step).value, Submitting(c)))
    && (forall id :: id in place && place[id].Submitting? ==>
          place[id].call in calls && SubmitId(calls[place[id].call].step) == Some(id))
  }

  ghost predicate QueuePlaced(place: map<Id, Place>, queue: Q.Ring) {
    && Q.Valid(queue)
    && (forall id :: Copies(queue.entries, id) == if At(place, id, Waiting) then 1 else 0)
  }

  ghost predicate Named(executions: map<Id, Execution>) {
    forall id :: id in executions ==> executions[id].ticket.id == id
  }

  ghost predicate InCustody(s: State) {
    && Named(s.disk.executions)
    && s.hist.place.Keys == s.disk.executions.Keys
    && WorkersPlaced(s.hist.place, s.pool.workers)
    && CallsPlaced(s.hist.place, s.calls)
    && QueuePlaced(s.hist.place, s.pool.queue)
  }

  // ---- What a worker's turn does with what it holds ----

  /** A worker with an execution in hand keeps it or lets go of it, and writes no other record. */
  ghost predicate Keeps(t: Turn, before: Option<Id>) {
    && (HeldId(t.next) == before || HeldId(t.next) == None)
    && (t.write.Some? ==> before == Some(t.write.value.ticket.id))
  }

  lemma EarlyTurnKeeps(cfg: Config, s: State, w: nat, input: Input)
    requires w < |s.pool.workers| && Named(s.disk.executions)
    requires var p := WorkerAt(s, w);
             p.Parked? || p.Exited? || p.Holding? || p.Starting? || p.Resolving? || p.Acquiring? || p.Rejecting? ||
               p.Registering? || p.Marking?
    ensures Keeps(TurnOf(cfg, s, w, input), HeldId(WorkerAt(s, w)))
  {
  }

  lemma LateTurnKeeps(cfg: Config, s: State, w: nat, input: Input)
    requires w < |s.pool.workers|
    requires var p := WorkerAt(s, w);
             p.Loading? || p.Looking? || p.Compiling? || p.Executing? || p.Finishing? || p.Metering? || p.Aborting? ||
               p.Unwinding? || p.Releasing?
    ensures Keeps(TurnOf(cfg, s, w, input), HeldId(WorkerAt(s, w)))
  {
  }

  lemma TurnHolds(cfg: Config, s: State, w: nat, input: Input)
    requires w < |s.pool.workers| && Named(s.disk.executions)
    ensures !WorkerAt(s, w).Idle? ==> Keeps(TurnOf(cfg, s, w, input), HeldId(WorkerAt(s, w)))
    ensures WorkerAt(s, w).Idle? ==> TurnOf(cfg, s, w, input).write == None
  {
    var p := s.pool.workers[w];
    if p.Loading? || p.Looking? || p.Compiling? || p.Executing? || p.Finishing? || p.Metering? || p.Aborting? ||
      p.Unwinding? || p.Releasing? {
      LateTurnKeeps(cfg, s, w, input);
    } else if !p.Idle? {
      EarlyTurnKeeps(cfg, s, w, input);
    }
  }

  lemma TurnQueue(cfg: Config, s: State, w: nat, input: Input)
    requires w < |s.pool.workers| && Q.Valid(s.pool.queue)
    ensures var t := TurnOf(cfg, s, w, input); var before := HeldId(WorkerAt(s, w));
            && (before == None && HeldId(t.next).Some? ==>
                  s.pool.queue.entries != [] && t.queue == Q.Dequeue(s.pool.queue) &&
                    HeldId(t.next).value == Q.Front(s.pool.queue).executionId)
            && (!(before == None && HeldId(t.next).Some?) ==> t.queue == s.pool.queue)
  {
  }

  lemma PlaceSame(place: map<Id, Place>, workers: seq<Worker>, w: nat, next: Worker)
    requires WorkersPlaced(place, workers) && w < |workers| && HeldId(next) == HeldId(workers[w])
    ensures WorkersPlaced(place, workers[w := next])
  {
  }

  lemma PlaceGone(place: map<Id, Place>, workers: seq<Worker>, w: nat, next: Worker, id: Id)
    requires WorkersPlaced(place, workers) && w < |workers| && HeldId(workers[w]) == Some(id) && HeldId(next) == None
    ensures WorkersPlaced(place[id := Gone], workers[w := next])
  {
  }

  lemma PlaceTaken(place: map<Id, Place>, workers: seq<Worker>, w: nat, next: Worker, id: Id)
    requires WorkersPlaced(place, workers) && w < |workers| && HeldId(workers[w]) == None && HeldId(next) == Some(id)
    requires At(place, id, Waiting)
    ensures WorkersPlaced(place[id := Held(w)], workers[w := next])
  {
  }

  /** Moving an execution that no call is submitting leaves the calls' custody alone. */
  lemma CallsUnmoved(place: map<Id, Place>, calls: map<nat, Call>, id: Id, p: Place)
    requires CallsPlaced(place, calls) && id in place && !place[id].Submitting? && !p.Submitting?
    ensures CallsPlaced(place[id := p], calls)
  {
  }

  lemma WorkersUnmoved(place: map<Id, Place>, workers: seq<Worker>, id: Id, p: Place)
    requires WorkersPlaced(place, workers) && (id in place ==> !place[id].Held?) && !p.Held?
    ensures WorkersPlaced(place[id := p], workers)
  {
  }

  lemma QueueUnmoved(place: map<Id, Place>, queue: Q.Ring, id: Id, p: Place)
    requires QueuePlaced(place, queue) && !At(place, id, Waiting) && p != Waiting
    ensures QueuePlaced(place[id := p], queue)
  {
  }

  lemma QueueTaken(place: map<Id, Place>, queue: Q.Ring, w: nat)
    requires QueuePlaced(place, queue) && queue.entries != []
    ensures At(place, Q.Front(queue).executionId, Waiting)
    ensures QueuePlaced(place[Q.Front(queue).executionId := Held(w)], Q.Dequeue(queue))
  {
    Q.DequeueKeepsValid(queue);
    var id := Q.Front(queue).executionId;
    DequeueCopies(queue, id);
    assert Copies(queue.entries, id) > 0;
    var place' := place[id := Held(w)];
    forall x ensures Copies(Q.Dequeue(queue).entries, x) == if At(place', x, Waiting) then 1 else 0 {
      DequeueCopies(queue, x);
      assert Copies(queue.entries, x) == if At(place, x, Waiting) then 1 else 0;
    }
  }

  lemma QueueJoined(place: map<Id, Place>, queue: Q.Ring, job: Q.Job)
    requires QueuePlaced(place, queue) && !At(place, job.executionId, Waiting)
    ensures QueuePlaced(place[job.executionId := Waiting], Q.Enqueue(queue, job))
  {
    Q.EnqueueKeepsValid(queue, job);
    var place' := place[job.executionId := Waiting];
    forall x ensures Copies(Q.Enqueue(queue, job).entries, x) == if At(place', x, Waiting) then 1 else 0 {
      EnqueueCopies(queue, job, x);
      assert Copies(queue.entries, x) == if At(place, x, Waiting) then 1 else 0;
    }
  }

  /** What a turn does with the queue and with what its worker holds. */
  ghost predicate TurnMoves(s: State, p: Worker, t: Turn) {
    if HeldId(p) == None && HeldId(t.next).Some? then
      && Q.Valid(s.pool.queue) && s.pool.queue.entries != [] && t.queue == Q.Dequeue(s.pool.queue) && t.write == None
      && HeldId(t.next).value == Q.Front(s.pool.queue).executionId
    else Keeps(t, HeldId(p)) && t.queue == s.pool.queue
  }

  lemma TurnsMove(cfg: Config, s: State, w: nat, input: Input)
    requires w < |s.pool.workers| && Named(s.disk.executions) && Q.Valid(s.pool.queue)
    ensures TurnMoves(s, WorkerAt(s, w), TurnOf(cfg, s, w, input))
  {
    hide TurnOf;
    TurnHolds(cfg, s, w, input);
    TurnQueue(cfg, s, w, input);
  }

  lemma WriteNamed(executions: map<Id, Execution>, write: Option<Execution>)
    requires Named(executions)
    ensures Named(Write(executions, write)) && Write(executions, write).Keys == executions.Keys
  {
  }

  /** Custody without the records. */
  ghost predicate Placed(place: map<Id, Place>, workers: seq<Worker>, calls: map<nat, Call>, queue: Q.Ring) {
    WorkersPlaced(place, workers) && CallsPlaced(place, calls) && QueuePlaced(place, queue)
  }

  lemma LetsGoPlaced(place: map<Id, Place>, workers: seq<Worker>, calls: map<nat, Call>, queue: Q.Ring,
      w: nat, next: Worker)
    requires Placed(place, workers, calls, queue) && w < |workers|
    requires HeldId(workers[w]).Some? && HeldId(next) == None
    ensures HeldId(workers[w]).value in place
    ensures Placed(place[HeldId(workers[w]).value := Gone], workers[w := next], calls, queue)
  {
    var id := HeldId(workers[w]).value;
    assert At(place, id, Held(w));
    PlaceGone(place, workers, w, next, id);
    CallsUnmoved(place, calls, id, Gone);
    QueueUnmoved(place, queue, id, Gone);
  }

  lemma TakesPlaced(place: map<Id, Place>, workers: seq<Worker>, calls: map<nat, Call>, queue: Q.Ring,
      w: nat, next: Worker)
    requires Placed(place, workers, calls, queue) && w < |workers| && queue.entries != []
    requires HeldId(workers[w]) == None && HeldId(next) == Some(Q.Front(queue).executionId)
    ensures Q.Front(queue).executionId in place
    ensures Placed(place[Q.Front(queue).executionId := Held(w)], workers[w := next], calls, Q.Dequeue(queue))
  {
    var id := Q.Front(queue).executionId;
    QueueTaken(place, queue, w);
    PlaceTaken(place, workers, w, next, id);
    CallsUnmoved(place, calls, id, Held(w));
  }

  /** What custody depends on is as the turn leaves it. */
  predicate Follows(s: State, w: nat, t: Turn, s': State) {
    && w < |s.pool.workers|
    && s'.hist.place == Moved(s.hist.place, w, HeldId(s.pool.workers[w]), HeldId(t.next))
    && s'.disk.executions == Write(s.disk.executions, t.write) && s'.calls == s.calls
    && s'.pool.queue == t.queue && s'.pool.workers == s.pool.workers[w := t.next]
  }

  lemma WorkFollows(cfg: Config, s: State, w: nat, input: Input)
    requires w < |s.pool.workers|
    ensures Follows(s, w, TurnOf(cfg, s, w, input), Work(cfg, s, w, input))
  {
    hide TurnOf;
  }

  lemma CustodyFollows(s: State, w: nat, t: Turn, s': State)
    requires InCustody(s) && Follows(s, w, t, s') && TurnMoves(s, WorkerAt(s, w), t)
    ensures InCustody(s')
  {
    var before := HeldId(s.pool.workers[w]);
    WriteNamed(s.disk.executions, t.write);
    if HeldId(t.next) == before {
      PlaceSame(s.hist.place, s.pool.workers, w, t.next);
    } else if before.Some? {
      LetsGoPlaced(s.hist.place, s.pool.workers, s.calls, s.pool.queue, w, t.next);
    } else {
      TakesPlaced(s.hist.place, s.pool.workers, s.calls, s.pool.queue, w, t.next);
    }
  }

  lemma WorkKeepsCustody(cfg: Config, s: State, w: nat, input: Input)
    requires InCustody(s) && w < |s.pool.workers|
    ensures InCustody(Work(cfg, s, w, input))
  {
    hide TurnOf;
    TurnsMove(cfg, s, w, input);
    WorkFollows(cfg, s, w, input);
    CustodyFollows(s, w, TurnOf(cfg, s, w, input), Work(cfg, s, w, input));
  }

  // ---- Calls ----

  lemma CallSame(place: map<Id, Place>, calls: map<nat, Call>, c: nat, call: Call)
    requires CallsPlaced(place, calls)
    requires SubmitId(call.step) == if c in calls then SubmitId(calls[c].step) else None
    ensures CallsPlaced(place, calls[c := call])
  {
  }

  lemma CallCreates(place: map<Id, Place>, calls: map<nat, Call>, c: nat, call: Call, id: Id)
    requires CallsPlaced(place, calls) && c in calls && SubmitId(calls[c].step) == None && id !in place
    requires SubmitId(call.step) == Some(id)
    ensures CallsPlaced(place[id := Submitting(c)], calls[c := call])
  {
  }

  lemma CallLetsGo(place: map<Id, Place>, calls: map<nat, Call>, c: nat, call: Call, id: Id, p: Place)
    requires CallsPlaced(place, calls) && c in calls && SubmitId(calls[c].step) == Some(id)
    requires SubmitId(call.step) == None && !p.Submitting?
    ensures CallsPlaced(place[id := p], calls[c := call])
  {
  }

  /** The steps of a call that neither create an execution nor let go of one. */
  predicate MovesNothing(s: State, c: nat) {
    match CallAt(s, c).step
    case Creating(e, _) => CallAt(s, c).dead || e.ticket.id in s.disk.executions
    case Scheduling(_) => CallAt(s, c).dead || s.pool.closed || s.pool.queue.seam > |s.pool.queue.entries|
    case Reverting(_) => false
    case _ => true
  }

  ghost predicate Quiet(s: State, s': State, c: nat) {
    && s'.pool == s.pool && s'.hist.place == s.hist.place && s'.hist.lowered == s.hist.lowered
    && s'.disk.executions.Keys == s.disk.executions.Keys && Named(s'.disk.executions)
    && c in s'.calls && s'.calls == s.calls[c := s'.calls[c]]
    && SubmitId(s'.calls[c].step) == SubmitId(CallAt(s, c).step)
  }

  lemma QuietSubmit(cfg: Config, s: State, c: nat, id: Id)
    requires c in s.calls && MovesNothing(s, c) && Named(s.disk.executions)
    requires CallAt(s, c).step.Finding? || MidSubmit(CallAt(s, c).step)
    ensures Quiet(s, Proceed(cfg, s, c, id), c)
  {
  }

  lemma QuietCancel(cfg: Config, s: State, c: nat, id: Id)
    requires c in s.calls && Named(s.disk.executions) && MidCancel(CallAt(s, c).step)
    ensures Quiet(s, Proceed(cfg, s, c, id), c)
  {
  }

  lemma QuietRead(cfg: Config, s: State, c: nat, id: Id)
    requires c in s.calls && Named(s.disk.executions)
    requires CallAt(s, c).step.Fetching? || CallAt(s, c).step.Reading? || CallAt(s, c).step.Answered?
    ensures Quiet(s, Proceed(cfg, s, c, id), c)
  {
  }

  lemma QuietStep(cfg: Config, s: State, c: nat, id: Id)
    requires c in s.calls && MovesNothing(s, c) && Named(s.disk.executions)
    ensures Quiet(s, Proceed(cfg, s, c, id), c)
  {
    hide Proceed;
    if s.calls[c].step.Finding? || MidSubmit(s.calls[c].step) {
      QuietSubmit(cfg, s, c, id);
    } else if MidCancel(s.calls[c].step) {
      QuietCancel(cfg, s, c, id);
    } else {
      QuietRead(cfg, s, c, id);
    }
  }

  lemma ProceedKeepsCustody(cfg: Config, s: State, c: nat, id: Id)
    requires InCustody(s) && c in s.calls
    ensures InCustody(Proceed(cfg, s, c, id))
  {
    var s' := Proceed(cfg, s, c, id);
    if MovesNothing(s, c) {
      QuietStep(cfg, s, c, id);
      CallSame(s.hist.place, s.calls, c, s'.calls[c]);
    } else {
      match s.calls[c].step {
        case Creating(e, req) => CreateKeepsCustody(s, c, e, req);
        case Scheduling(e) => ScheduleKeepsCustody(s, c, e);
        case Reverting(e) => RevertKeepsCustody(s, c, e);
      }
    }
  }

  lemma CreateKeepsCustody(s: State, c: nat, e: Execution, req: Request)
    requires InCustody(s) && c in s.calls && CallAt(s, c).step == Creating(e, req)
    requires !CallAt(s, c).dead && e.ticket.id !in s.disk.executions
    ensures InCustody(CreateTurn(s, c, e, req))
  {
    CallCreates(s.hist.place, s.calls, c, s.calls[c].(step := Saving(e, req.key, req.payload)), e.ticket.id);
    WorkersUnmoved(s.hist.place, s.pool.workers, e.ticket.id, Submitting(c));
    QueueUnmoved(s.hist.place, s.pool.queue, e.ticket.id, Submitting(c));
  }

  lemma ScheduleKeepsCustody(s: State, c: nat, e: Execution)
    requires InCustody(s) && c in s.calls && CallAt(s, c).step == Scheduling(e)
    requires !CallAt(s, c).dead && !s.pool.closed
    ensures InCustody(ScheduleTurn(s, c, e))
  {
    assert At(s.hist.place, e.ticket.id, Submitting(c));
    CallLetsGo(s.hist.place, s.calls, c, s.calls[c].(step := Answered(Some(e), NoFault)), e.ticket.id, Waiting);
    WorkersUnmoved(s.hist.place, s.pool.workers, e.ticket.id, Waiting);
    QueueJoined(s.hist.place, s.pool.queue, Q.Job(e.ticket.id, e.ticket.tenantId, s.now, 0));
  }

  lemma RevertKeepsCustody(s: State, c: nat, e: Execution)
    requires InCustody(s) && c in s.calls && CallAt(s, c).step == Reverting(e)
    ensures InCustody(RevertTurn(s, c, e))
  {
    assert At(s.hist.place, e.ticket.id, Submitting(c));
    CallLetsGo(s.hist.place, s.calls, c, s.calls[c].(step := Answered(Some(e), e.fault)), e.ticket.id, Gone);
    WorkersUnmoved(s.hist.place, s.pool.workers, e.ticket.id, Gone);
    QueueUnmoved(s.hist.place, s.pool.queue, e.ticket.id, Gone);
  }

  lemma BootCustody(cfg: Config, disk: S.Disk, now: Nanos, past: Past)
    requires Named(disk.executions)
    ensures InCustody(Boot(cfg, disk, now, past))
  {
  }

  lemma StepKeepsCustody(cfg: Config, s: State, a: Action)
    requires InCustody(s) && Enabled(cfg, s, a)
    ensures InCustody(Next(cfg, s, a))
  {
    hide Work, Proceed, Boot;
    match a
    case DoWork(w, input) => WorkKeepsCustody(cfg, s, w, input);
    case Begin(c, step) => CallSame(s.hist.place, s.calls, c, Call(step, false));
    case Continue(c, id) => ProceedKeepsCustody(cfg, s, c, id);
    case Abandon(c) => CallSame(s.hist.place, s.calls, c, s.calls[c].(dead := true));
    case Restart => BootCustody(cfg, s.disk, s.now, s.hist.past);
    case _ =>
  }

  /** In every state of every run, whatever the interleaving, crashes included. */
  lemma {:induction false} RunsKeepCustody(cfg: Config, s: State, run: seq<Action>)
    requires InCustody(s) && Possible(cfg, s, run)
    ensures InCustody(Exec(cfg, s, run))
    decreases run
  {
    hide Next, Enabled;
    if run != [] {
      StepKeepsCustody(cfg, s, run[0]);
      RunsKeepCustody(cfg, Next(cfg, s, run[0]), run[1..]);
    }
  }

  // ---- What custody means, without the history variable ----

  ghost predicate Submitted(s: State, id: Id, c: nat) {
    c in s.calls && SubmitId(s.calls[c].step) == Some(id)
  }

  ghost predicate HeldBy(s: State, id: Id, w: nat) {
    w < |s.pool.workers| && HeldId(s.pool.workers[w]) == Some(id)
  }

  /** An execution is queued at most once, and being submitted, queued and held exclude each
      other and themselves. */
  lemma OnePlaceOnly(s: State, id: Id)
    requires InCustody(s)
    ensures Copies(s.pool.queue.entries, id) <= 1
    ensures forall c1: nat, c2: nat :: Submitted(s, id, c1) && Submitted(s, id, c2) ==> c1 == c2
    ensures forall w1: nat, w2: nat :: HeldBy(s, id, w1) && HeldBy(s, id, w2) ==> w1 == w2
    ensures forall c: nat, w: nat :: !(Submitted(s, id, c) && HeldBy(s, id, w))
    ensures Copies(s.pool.queue.entries, id) > 0 ==> forall c: nat, w: nat :: !Submitted(s, id, c) && !HeldBy(s, id, w)
    ensures id !in s.disk.executions ==>
              && Copies(s.pool.queue.entries, id) == 0
              && forall c: nat, w: nat :: !Submitted(s, id, c) && !HeldBy(s, id, w)
  {
    forall c: nat, w: nat
      ensures Submitted(s, id, c) ==> At(s.hist.place, id, Submitting(c))
      ensures HeldBy(s, id, w) ==> At(s.hist.place, id, Held(w))
    {
    }
    assert Copies(s.pool.queue.entries, id) == if At(s.hist.place, id, Waiting) then 1 else 0;
  }

  // ---- Places move one way ----

  function Rank(place: map<Id, Place>, id: Id): nat {
    if id !in place then 0 else
    match place[id]
    case Submitting(_) => 1
    case Waiting => 2
    case Held(_) => 3
    case Gone => 4
  }

  /** An execution goes on from being submitted to waiting, to one worker, to nowhere, and never
      back or across. */
  ghost predicate Onwards(before: map<Id, Place>, after: map<Id, Place>, id: Id) {
    Rank(before, id) < Rank(after, id) ||
      ((id in before <==> id in after) && (id in before ==> after[id] == before[id]))
  }

  lemma PlacesMoveOn(s: State, w: nat, t: Turn, s': State, id: Id)
    requires InCustody(s) && Follows(s, w, t, s') && TurnMoves(s, WorkerAt(s, w), t)
    ensures Onwards(s.hist.place, s'.hist.place, id)
  {
    var before := HeldId(s.pool.workers[w]);
    if before.Some? {
      assert At(s.hist.place, before.value, Held(w));
    } else if HeldId(t.next).Some? {
      QueueTaken(s.hist.place, s.pool.queue, w);
    }
  }

  lemma WorkMovesOn(cfg: Config, s: State, w: nat, input: Input, id: Id)
    requires InCustody(s) && w < |s.pool.workers|
    ensures Onwards(s.hist.place, Work(cfg, s, w, input).hist.place, id)
  {
    hide Work, TurnOf;
    TurnsMove(cfg, s, w, input);
    WorkFollows(cfg, s, w, input);
    PlacesMoveOn(s, w, TurnOf(cfg, s, w, input), Work(cfg, s, w, input), id);
  }

  lemma CallMovesOn(cfg: Config, s: State, c: nat, x: Id, id: Id)
    requires InCustody(s) && c in s.calls
    ensures Onwards(s.hist.place, Proceed(cfg, s, c, x).hist.place, id)
  {
    if MovesNothing(s, c) {
      QuietStep(cfg, s, c, x);
    } else {
      var own := SubmitId(s.calls[c].step);
      assert own.Some? ==> At(s.hist.place, own.value, Submitting(c));
    }
  }

  lemma BootMovesOn(cfg: Config, s: State, id: Id)
    requires s.hist.place.Keys == s.disk.executions.Keys
    ensures Onwards(s.hist.place, Boot(cfg, s.disk, s.now, s.hist.past).hist.place, id)
  {
    S.RecoveryIsClean(s.disk.executions);
  }

  lemma StepMovesOn(cfg: Config, s: State, a: Action, id: Id)
    requires InCustody(s) && Enabled(cfg, s, a)
    ensures Onwards(s.hist.place, Next(cfg, s, a).hist.place, id)
  {
    match a
    case DoWork(w, input) => WorkMovesOn(cfg, s, w, input, id);
    case Continue(c, x) => CallMovesOn(cfg, s, c, x, id);
    case Restart => BootMovesOn(cfg, s, id);
    case _ =>
  }

  lemma OnwardsOn(a: map<Id, Place>, b: map<Id, Place>, c: map<Id, Place>, id: Id)
    requires Onwards(a, b, id) && Onwards(b, c, id)
    ensures Onwards(a, c, id)
  {
  }

  /** Over any run, crashes included. */
  lemma {:induction false} RunsMoveOn(cfg: Config, s: State, run: seq<Action>, id: Id)
    requires InCustody(s) && Possible(cfg, s, run)
    ensures Onwards(s.hist.place, Exec(cfg, s, run).hist.place, id)
    decreases run
  {
    hide Next, Enabled;
    if run != [] {
      var s' := Next(cfg, s, run[0]);
      StepKeepsCustody(cfg, s, run[0]);
      StepMovesOn(cfg, s, run[0], id);
      RunsMoveOn(cfg, s', run[1..], id);
      OnwardsOn(s.hist.place, s'.hist.place, Exec(cfg, s', run[1..]).hist.place, id);
    }
  }

  /** Whether it is put in the queue from one state to the next. */
  ghost function Joins(before: map<Id, Place>, after: map<Id, Place>, id: Id): nat {
    if !At(before, id, Waiting) && At(after, id, Waiting) then 1 else 0
  }

  /** How often a run puts an execution in the queue. */
  ghost function Enqueuings(cfg: Config, s: State, run: seq<Action>, id: Id): nat
    decreases run
  {
    if run == [] then 0 else
    var s' := Next(cfg, s, run[0]);
    Joins(s.hist.place, s'.hist.place, id) + Enqueuings(cfg, s', run[1..], id)
  }

  lemma JoinsOnce(before: map<Id, Place>, after: map<Id, Place>, id: Id)
    requires Onwards(before, after, id)
    ensures Joins(before, after, id) + (if Rank(after, id) < 2 then 1 else 0) <= if Rank(before, id) < 2 then 1 else 0
  {
  }

  /** Over any run an identifier is enqueued at most once, and not at all once it has been. */
  lemma {:induction false} EnqueuedOnce(cfg: Config, s: State, run: seq<Action>, id: Id)
    requires InCustody(s) && Possible(cfg, s, run)
    ensures Enqueuings(cfg, s, run, id) <= if Rank(s.hist.place, id) < 2 then 1 else 0
    decreases run
  {
    hide Next, Enabled;
    if run != [] {
      StepKeepsCustody(cfg, s, run[0]);
      StepMovesOn(cfg, s, run[0], id);
      JoinsOnce(s.hist.place, Next(cfg, s, run[0]).hist.place, id);
      EnqueuedOnce(cfg, Next(cfg, s, run[0]), run[1..], id);
    }
  }
}
