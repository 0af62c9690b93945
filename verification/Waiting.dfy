/** How long jobs wait in the running service: its queue goes through the enqueues and dequeues of
    its runs, so that what holds of those holds of it. */
module Waiting {
  import opened Common
  import opened Simulation
  import opened ControlPlane
  import opened Custody
  import C = Caching
  import Q = RingQueue
  import F = Fairness

  /** What a step does to the queue. */
  function QueueOp(s: State, a: Action): Option<F.Op> {
    match a
    case DoWork(w, _) =>
      if WorkerAt(s, w).Idle? && !s.pool.closed && s.pool.queue.entries != [] then Some(F.Deq) else None
    case Continue(c, _) => CallOp(s, c)
    case _ => None
  }

  function CallOp(s: State, c: nat): Option<F.Op> {
    match CallAt(s, c).step
    case Scheduling(e) =>
      if CallAt(s, c).dead || s.pool.closed then None else Some(F.Enq(Q.Job(e.ticket.id, e.ticket.tenantId, s.now, 0)))
    case _ => None
  }

  ghost function Applied(r: Q.Ring, op: Option<F.Op>): Q.Ring {
    if op.Some? && Q.Valid(r) then F.Apply(r, op.value) else r
  }

  lemma TurnOnQueue(cfg: Config, s: State, w: nat, input: Input)
    requires Q.Valid(s.pool.queue) && w < |s.pool.workers|
    ensures TurnOf(cfg, s, w, input).queue == Applied(s.pool.queue, QueueOp(s, DoWork(w, input)))
  {
  }

  lemma CallOnQueue(cfg: Config, s: State, c: nat, x: Id)
    requires Q.Valid(s.pool.queue) && c in s.calls
    ensures Proceed(cfg, s, c, x).pool.queue == Applied(s.pool.queue, CallOp(s, c))
  {
  }

  lemma StepOnQueue(cfg: Config, s: State, a: Action)
    requires Q.Valid(s.pool.queue) && Enabled(cfg, s, a) && !a.Restart?
    ensures Next(cfg, s, a).pool.queue == Applied(s.pool.queue, QueueOp(s, a))
  {
    hide TurnOf, Proceed, Boot;
    match a
    case DoWork(w, input) => TurnOnQueue(cfg, s, w, input);
    case Continue(c, x) => CallOnQueue(cfg, s, c, x);
    case _ =>
  }

  // ---- Runs ----

  predicate NoRestart(run: seq<Action>) {
    forall i :: 0 <= i < |run| ==> !run[i].Restart?
  }

  function Listed<T>(op: Option<T>): seq<T> {
    if op.Some? then [op.value] else []
  }

  /** What a run does to the queue. */
  ghost function QueueOps(cfg: Config, s: State, run: seq<Action>): seq<F.Op>
    decreases run
  {
    if run == [] then [] else Listed(QueueOp(s, run[0])) + QueueOps(cfg, Next(cfg, s, run[0]), run[1..])
  }

  lemma ExecListed(r: Q.Ring, op: Option<F.Op>, ops: seq<F.Op>)
    requires Q.Valid(r)
    ensures Q.Valid(Applied(r, op)) && F.Exec(r, Listed(op) + ops) == F.Exec(Applied(r, op), ops)
  {
    if op.Some? {
      assert (Listed(op) + ops)[1..] == ops;
    } else {
      assert Listed(op) + ops == ops;
    }
  }

  /** The queue at the end of a run is what its operations make of the queue at its start. */
  lemma {:induction false} RunsOnQueue(cfg: Config, s: State, run: seq<Action>)
    requires InCustody(s) && Possible(cfg, s, run) && NoRestart(run)
    ensures Exec(cfg, s, run).pool.queue == F.Exec(s.pool.queue, QueueOps(cfg, s, run))
    decreases run
  {
    hide Next, Enabled;
    if run != [] {
      var a := run[0];
      StepKeepsCustody(cfg, s, a);
      StepOnQueue(cfg, s, a);
      RunsOnQueue(cfg, Next(cfg, s, a), run[1..]);
      ExecListed(s.pool.queue, QueueOp(s, a), QueueOps(cfg, Next(cfg, s, a), run[1..]));
    }
  }

  // ---- Jobs taken ----

  /** The step is a worker's taking a job of the tenant. */
  ghost predicate Takes(s: State, a: Action, t: Tenant) {
    QueueOp(s, a) == Some(F.Deq) && Q.Valid(s.pool.queue) && F.Serves(s.pool.queue, F.Deq, t)
  }

  /** How many jobs the workers take in a run, and how many of them of one tenant. */
  ghost function JobsTaken(cfg: Config, s: State, run: seq<Action>): nat
    decreases run
  {
    if run == [] then 0
    else (if QueueOp(s, run[0]) == Some(F.Deq) then 1 else 0) + JobsTaken(cfg, Next(cfg, s, run[0]), run[1..])
  }

  ghost function TakenOf(cfg: Config, s: State, run: seq<Action>, t: Tenant): nat
    decreases run
  {
    if run == [] then 0
    else (if Takes(s, run[0], t) then 1 else 0) + TakenOf(cfg, Next(cfg, s, run[0]), run[1..], t)
  }

  lemma CountsListed(r: Q.Ring, op: Option<F.Op>, ops: seq<F.Op>, t: Tenant)
    requires Q.Valid(r)
    ensures Q.Valid(Applied(r, op))
    ensures F.Dequeues(Listed(op) + ops) == (if op == Some(F.Deq) then 1 else 0) + F.Dequeues(ops)
    ensures F.Services(r, Listed(op) + ops, t)
         == (if op.Some? && F.Serves(r, op.value, t) then 1 else 0) + F.Services(Applied(r, op), ops, t)
  {
    if op.Some? {
      assert (Listed(op) + ops)[1..] == ops;
    } else {
      assert Listed(op) + ops == ops;
    }
  }

  lemma {:induction false} TakenAreServed(cfg: Config, s: State, run: seq<Action>, t: Tenant)
    requires InCustody(s) && Possible(cfg, s, run) && NoRestart(run)
    ensures JobsTaken(cfg, s, run) == F.Dequeues(QueueOps(cfg, s, run))
    ensures TakenOf(cfg, s, run, t) == F.Services(s.pool.queue, QueueOps(cfg, s, run), t)
    decreases run
  {
    hide Next;
    if run != [] {
      var a := run[0];
      StepKeepsCustody(cfg, s, a);
      StepOnQueue(cfg, s, a);
      TakenAreServed(cfg, Next(cfg, s, a), run[1..], t);
      CountsListed(s.pool.queue, QueueOp(s, a), QueueOps(cfg, Next(cfg, s, a), run[1..]), t);
    }
  }

  /** In the running service, whatever else its workers and calls do: a tenant with jobs waiting at
      distance d has one taken by the time the workers have taken d + 1 + k jobs, k being the
      activations meanwhile; and with none, by the time they have taken one for each tenant. */
  lemma WaitIsBounded(cfg: Config, s: State, run: seq<Action>, t: Tenant)
    requires InCustody(s) && Possible(cfg, s, run) && NoRestart(run) && Q.Active(s.pool.queue, t)
    ensures var k := F.Activations(s.pool.queue, QueueOps(cfg, s, run));
            && (JobsTaken(cfg, s, run) >= Q.Distance(s.pool.queue, t) + 1 + k ==> TakenOf(cfg, s, run, t) > 0)
            && (JobsTaken(cfg, s, run) >= |s.pool.queue.entries| && k == 0 ==> TakenOf(cfg, s, run, t) > 0)
  {
    hide Next, Enabled;
    TakenAreServed(cfg, s, run, t);
    F.BoundedWait(s.pool.queue, QueueOps(cfg, s, run), t);
  }

  // ---- Wake-ups ----

  /** The step is a parked worker's being woken by the token. */
  predicate Wakes(s: State, a: Action) {
    a.DoWork? && WorkerAt(s, a.w).Parked? && a.input.ctx == Live && !s.pool.closed
  }

  predicate Sends(s: State, a: Action) {
    QueueOp(s, a).Some? && QueueOp(s, a).value.Enq?
  }

  /** How often workers are woken by the token in a run, and how often jobs are enqueued. */
  ghost function Woken(cfg: Config, s: State, run: seq<Action>): nat
    decreases run
  {
    if run == [] then 0 else (if Wakes(s, run[0]) then 1 else 0) + Woken(cfg, Next(cfg, s, run[0]), run[1..])
  }

  ghost function Sent(cfg: Config, s: State, run: seq<Action>): nat
    decreases run
  {
    if run == [] then 0 else (if Sends(s, run[0]) then 1 else 0) + Sent(cfg, Next(cfg, s, run[0]), run[1..])
  }

  function Token(s: State): nat {
    if s.pool.notified then 1 else 0
  }

  lemma TurnKeepsToken(cfg: Config, s: State, w: nat, input: Input)
    requires MayWork(cfg, s, w, input)
    ensures TurnOf(cfg, s, w, input).notified ==> s.pool.notified
    ensures Wakes(s, DoWork(w, input)) ==> s.pool.notified && !TurnOf(cfg, s, w, input).notified
  {
    hide C.Get, Compile, Conclude;
  }

  lemma CallSendsToken(cfg: Config, s: State, c: nat, id: Id)
    requires Q.Valid(s.pool.queue) && c in s.calls
    ensures Proceed(cfg, s, c, id).pool.notified <==> s.pool.notified || Sends(s, Continue(c, id))
  {
    hide FindStep, AskStep, FetchStep, ReadStep;
  }

  lemma StepKeepsToken(cfg: Config, s: State, a: Action)
    requires Q.Valid(s.pool.queue) && Enabled(cfg, s, a) && !a.Restart?
    ensures (if Wakes(s, a) then 1 else 0) + Token(Next(cfg, s, a)) <= (if Sends(s, a) then 1 else 0) + Token(s)
  {
    hide TurnOf, Proceed, MayWork;
    match a
    case DoWork(w, input) => TurnKeepsToken(cfg, s, w, input);
    case Continue(c, id) => CallSendsToken(cfg, s, c, id);
    case _ =>
  }

  /** No worker is woken for nothing: over any run, on an open queue, there are no more wake-ups than
      jobs enqueued and tokens there were. */
  lemma {:induction false} WakesAreSent(cfg: Config, s: State, run: seq<Action>)
    requires InCustody(s) && Possible(cfg, s, run) && NoRestart(run)
    ensures Woken(cfg, s, run) + Token(Exec(cfg, s, run)) <= Sent(cfg, s, run) + Token(s)
    decreases run
  {
    hide Next, Enabled, Wakes, Sends;
    if run != [] {
      StepKeepsCustody(cfg, s, run[0]);
      StepKeepsToken(cfg, s, run[0]);
      WakesAreSent(cfg, Next(cfg, s, run[0]), run[1..]);
    }
  }
}
