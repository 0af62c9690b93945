/** What a run comes to before its execution: it is dropped, left alone, failed or marked as running,
    each for exactly these reasons, with what each leaves behind. */
module Preludes {
  import opened Common
  import opened Executions
  import opened Simulation
  import opened ControlPlane
  import C = Caching
  import M = Modules
  import Q = RingQueue

  /** The record as a failure leaves it: its class and error named, dated, and otherwise as it was. */
  predicate FailedFor(e: Execution, kind: ErrorClass, fault: Fault, now: Nanos, e': Execution) {
    && e'.status == Failed && e'.errorClass == kind && e'.fault == fault && e'.finishedAt == Some(now)
    && e'.ticket == e.ticket && e'.report == e.report && e'.startedAt == e.startedAt && e'.nodeId == e.nodeId
  }

  predicate RejectsAs(next: Worker, e: Execution, kind: ErrorClass, fault: Fault, now: Nanos) {
    next.Rejecting? && FailedFor(e, kind, fault, now, next.e)
  }

  predicate AbortsAs(next: Worker, e: Execution, kind: ErrorClass, fault: Fault, now: Nanos) {
    next.Aborting? && FailedFor(e, kind, fault, now, next.e)
  }

  /** Nothing is written or released, and no shared part changes but the service's. */
  predicate Quietly(s: State, t: Turn) {
    t.write.None? && t.cpu == 0 && !t.ran && t.queue == s.pool.queue && t.notified == s.pool.notified
  }

  predicate Silently(s: State, t: Turn) {
    Quietly(s, t) && t.svc == s.svc
  }

  /** The worker takes the front tenant's first job off the queue. */
  ghost predicate TakesFront(s: State, t: Turn) {
    var ring := s.pool.queue;
    && Q.Valid(ring) && ring.entries != [] && t.next == Holding(ring.entries[0].jobs[0])
    && t.queue == Q.Dequeue(ring)
  }

  /** A worker leaves exactly when the queue is closed, and waits exactly when it is open and empty;
      otherwise it takes the job at the front. */
  lemma TakesExactly(cfg: Config, s: State, w: nat, input: Input)
    requires w < |s.pool.workers| && WorkerAt(s, w) == Idle && Q.Valid(s.pool.queue)
    ensures var t, open, empty := TurnOf(cfg, s, w, input), !s.pool.closed, s.pool.queue.entries == [];
            && t.svc == s.svc && t.write.None? && t.notified == s.pool.notified
            && (t.next == Exited <==> !open) && (t.next == Parked <==> open && empty)
            && (open && !empty ==> TakesFront(s, t))
            && (!open || empty ==> t.queue == s.pool.queue)
  {
  }

  /** A waiting worker leaves exactly when its context is done, and otherwise looks again, the token
      taken. */
  lemma WakesExactly(cfg: Config, s: State, w: nat, input: Input)
    requires WorkerAt(s, w) == Parked
    ensures var t := TurnOf(cfg, s, w, input);
            && t.svc == s.svc && t.write.None? && t.queue == s.pool.queue
            && (input.ctx != Live ==> t.next == Exited && t.notified == s.pool.notified)
            && (input.ctx == Live ==> t.next == Idle && !t.notified)
  {
  }

  /** A job is dropped exactly when its execution is flagged, and the flag is gone then; any other is
      taken up. */
  lemma DropsExactly(cfg: Config, s: State, w: nat, input: Input, job: Q.Job)
    requires WorkerAt(s, w) == Holding(job)
    ensures var id, t := job.executionId, TurnOf(cfg, s, w, input);
            && Quietly(s, t) && (t.next == Idle || t.next == Starting(id))
            && (t.next == Idle <==> id in s.svc.canceled)
            && id !in t.svc.canceled && t.svc.canceled + {id} == s.svc.canceled + {id}
            && t.svc.(canceled := s.svc.canceled) == s.svc
  {
  }

  predicate IsUnfinished(executions: map<Id, Execution>, id: Id) {
    id in executions && Unfinished(executions[id])
  }

  /** The worker goes on with the record as it is stored. */
  predicate TakesUp(s: State, id: Id, next: Worker) {
    IsUnfinished(s.disk.executions, id) && next == Resolving(s.disk.executions[id])
  }

  /** An execution is taken up exactly when the pool is live and its record is there and not over. */
  lemma TakesUpExactly(cfg: Config, s: State, w: nat, input: Input, id: Id)
    requires WorkerAt(s, w) == Starting(id)
    ensures var t := TurnOf(cfg, s, w, input);
            && Silently(s, t) && (t.next == Idle || TakesUp(s, id, t.next))
            && (t.next != Idle <==> s.pool.live && IsUnfinished(s.disk.executions, id))
  {
  }

  /** The worker goes on with the module as it is on the shelf. */
  predicate Finds(s: State, e: Execution, next: Worker) {
    var id := e.ticket.moduleId;
    id in s.disk.shelf.modules && next == Acquiring(e, s.disk.shelf.modules[id])
  }

  /** Its module is found unless the pool is shut down or there is none. */
  lemma ResolvesExactly(cfg: Config, s: State, w: nat, input: Input, e: Execution)
    requires WorkerAt(s, w) == Resolving(e)
    ensures var t, live := TurnOf(cfg, s, w, input), s.pool.live;
            && Silently(s, t)
            && (live && e.ticket.moduleId in s.disk.shelf.modules ==> Finds(s, e, t.next))
            && (!live ==> RejectsAs(t.next, e, ErrInvalid, ContextCanceled, s.now))
            && (live && e.ticket.moduleId !in s.disk.shelf.modules ==>
                  RejectsAs(t.next, e, ErrInvalid, NotFound, s.now))
  {
  }

  /** A failure before the lease is stored on a live pool only. */
  lemma RejectsExactly(cfg: Config, s: State, w: nat, input: Input, e: Execution)
    requires WorkerAt(s, w) == Rejecting(e)
    ensures var t := TurnOf(cfg, s, w, input);
            && t.next == Idle && t.svc == s.svc && Quietly(s, t.(write := None))
            && (s.pool.live ==> t.write == Some(e)) && (!s.pool.live ==> t.write.None?)
  {
  }

  /** The record as a run marks it: running, since now and on this node, and otherwise as it was. */
  predicate MarkedAs(cfg: Config, e: Execution, now: Nanos, e': Execution) {
    && e'.status == Running && e'.startedAt == Some(now) && e'.nodeId == cfg.nodeId
    && e'.ticket == e.ticket && e'.report == e.report && e'.errorClass == e.errorClass
    && e'.fault == e.fault && e'.finishedAt == e.finishedAt
  }

  predicate GoesOnMarked(cfg: Config, s: State, e: Execution, m: M.Module, deadline: Nanos, t: Turn) {
    && t.next.Loading? && t.next.m == m && t.next.deadline == deadline && t.write == Some(t.next.e)
    && MarkedAs(cfg, e, s.now, t.next.e)
  }

  /** The run is marked exactly on a live context. */
  lemma MarksExactly(cfg: Config, s: State, w: nat, input: Input, e: Execution, m: M.Module, deadline: Nanos)
    requires WorkerAt(s, w) == Marking(e, m, deadline)
    ensures var t := TurnOf(cfg, s, w, input);
            && t.svc == s.svc && Quietly(s, t.(write := None))
            && (input.ctx != Live ==> t.next == Unwinding(e) && t.write.None?)
            && (input.ctx == Live ==> GoesOnMarked(cfg, s, e, m, deadline, t))
  {
  }

  predicate Loads(s: State, e: Execution, m: M.Module, deadline: Nanos, next: Worker) {
    m.id in s.disk.shelf.contents && next == Looking(e, m, deadline, s.disk.shelf.contents[m.id])
  }

  /** Its content is loaded unless its context is done or there is none. */
  lemma LoadsExactly(cfg: Config, s: State, w: nat, input: Input, e: Execution, m: M.Module, deadline: Nanos)
    requires WorkerAt(s, w) == Loading(e, m, deadline)
    ensures var t, there := TurnOf(cfg, s, w, input), m.id in s.disk.shelf.contents;
            && Silently(s, t)
            && (input.ctx == Live && there ==> Loads(s, e, m, deadline, t.next))
            && (input.ctx == Live && !there ==> AbortsAs(t.next, e, ErrInvalid, NotFound, s.now))
            && (input.ctx != Live ==> AbortsAs(t.next, e, ErrInvalid, ContextFault(input.ctx), s.now))
  {
  }

  /** A known failure is one that fails the worker so. */
  predicate FailsCached(found: C.Lookup, e: Execution, now: Nanos, next: Worker) {
    found.KnownFailure? ==> AbortsAs(next, e, ErrRuntime, CachedFailure(found.cause), now)
  }

  /** A lookup on a context that is done fails, and so does one that finds a failure. */
  lemma LooksExactly(cfg: Config, s: State, w: nat, input: Input, e: Execution, m: M.Module, deadline: Nanos,
      content: Bytes)
    requires WorkerAt(s, w) == Looking(e, m, deadline, content)
    ensures var t, found := TurnOf(cfg, s, w, input), C.Get(s.svc.cache, Live, KeyOf(cfg, e, m), s.now).1;
            && Quietly(s, t) && t.svc.(cache := s.svc.cache) == s.svc
            && (t.next.Aborting? <==> input.ctx != Live || found.KnownFailure?)
            && (input.ctx != Live ==> AbortsAs(t.next, e, ErrRuntime, ContextFault(input.ctx), s.now))
            && (input.ctx == Live ==> FailsCached(found, e, s.now, t.next))
  {
  }

  /** What is made of the content goes on to be executed, or fails the worker. */
  predicate FollowsMade(made: CompileResult, e: Execution, m: M.Module, deadline: Nanos, now: Nanos, next: Worker) {
    match made
    case Ready(compiled) => next == Executing(e, m, deadline, compiled)
    case Rejected(fault) => AbortsAs(next, e, ErrRuntime, fault, now)
  }

  /** A compile goes on to the execution exactly when its context and that of storing what it made are
      live, the runtime is open, and the content compiles. */
  lemma CompilesOnExactly(cfg: Config, s: State, w: nat, input: Input, e: Execution, m: M.Module, deadline: Nanos,
      content: Bytes)
    requires WorkerAt(s, w) == Compiling(e, m, deadline, content)
    ensures var t, made := TurnOf(cfg, s, w, input), Translate(cfg.lib, cfg.version, content, m.digest);
            var next, live, open := t.next, input.ctx == Live, !s.svc.runtimeClosed;
            && Quietly(s, t) && t.svc.(cache := s.svc.cache) == s.svc
            && (next.Executing? <==> live && input.putCtx == Live && open && made.Ready?)
            && (!live ==> AbortsAs(next, e, ErrRuntime, ContextFault(input.ctx), s.now))
            && (live && !open ==> AbortsAs(next, e, ErrRuntime, RuntimeClosed, s.now))
            && (live && open && (input.putCtx == Live || made.Rejected?) ==>
                  FollowsMade(made, e, m, deadline, s.now, next))
            && (live && open && input.putCtx != Live && made.Ready? ==>
                  AbortsAs(next, e, ErrRuntime, ContextFault(input.putCtx), s.now))
  {
    hide Translate;
  }

  /** A failure after the lease is stored whatever the contexts. */
  lemma AbortsExactly(cfg: Config, s: State, w: nat, input: Input, e: Execution)
    requires WorkerAt(s, w) == Aborting(e)
    ensures var t := TurnOf(cfg, s, w, input);
            t.next == Unwinding(e) && t.write == Some(e) && t.svc == s.svc && Quietly(s, t.(write := None))
  {
  }
}
