/** No wake-up is lost between the producers, the one-slot channel and the workers. */
module Wakeup {
  import opened Common
  import opened ControlPlane
  import opened Custody
  import Q = RingQueue
  import S = Stores

  /** Not waiting and not gone: it will look at the queue before it waits again. */
  predicate WillLook(w: Worker) {
    !w.Parked? && !w.Exited?
  }

  ghost predicate SomeoneWillLook(workers: seq<Worker>) {
    exists w :: 0 <= w < |workers| && WillLook(workers[w])
  }

  /** While the queue is open and the workers' context live: no worker has gone, and waiting jobs
      mean a token in the channel or a worker that has not parked. */
  ghost predicate NoLostWakeup(s: State) {
    && |s.pool.workers| >= 1
    && (!s.pool.closed && s.pool.live ==>
          && (forall w :: 0 <= w < |s.pool.workers| ==> !s.pool.workers[w].Exited?)
          && (s.pool.queue.entries != [] ==> s.pool.notified || SomeoneWillLook(s.pool.workers)))
  }

  /** On an open queue with a live context a turn parks only when the queue is empty, and gives
      up the token only to look. */
  ghost predicate WakeTurnOk(s: State, p: Worker, t: Turn) {
    && !t.next.Exited?
    && (t.next.Parked? ==> s.pool.queue.entries == [] && t.queue == s.pool.queue && t.notified == s.pool.notified)
    && (!t.next.Parked? ==> WillLook(t.next))
  }

  lemma TurnWakes(cfg: Config, s: State, w: nat, input: Input)
    requires Q.Valid(s.pool.queue) && w < |s.pool.workers| && MayWork(cfg, s, w, input)
    requires !s.pool.closed && s.pool.live && !WorkerAt(s, w).Exited?
    ensures WakeTurnOk(s, WorkerAt(s, w), TurnOf(cfg, s, w, input))
  {
  }

  lemma WorkKeepsWakeup(cfg: Config, s: State, w: nat, input: Input)
    requires Q.Valid(s.pool.queue) && NoLostWakeup(s) && w < |s.pool.workers| && MayWork(cfg, s, w, input)
    ensures NoLostWakeup(Work(cfg, s, w, input))
  {
    hide TurnOf, MayWork;
    var t := TurnOf(cfg, s, w, input);
    var workers' := s.pool.workers[w := t.next];
    if !s.pool.closed && s.pool.live {
      TurnWakes(cfg, s, w, input);
      if !t.next.Parked? {
        assert WillLook(workers'[w]);
      }
    }
  }

  lemma ProceedKeepsWakeup(cfg: Config, s: State, c: nat, id: Id)
    requires NoLostWakeup(s) && c in s.calls
    ensures NoLostWakeup(Proceed(cfg, s, c, id))
  {
    var s' := Proceed(cfg, s, c, id);
    assert s'.pool == s.pool || (s'.pool == s.pool.(queue := s'.pool.queue, notified := true));
  }

  lemma BootWakeup(cfg: Config, disk: S.Disk, now: Nanos, past: Past)
    ensures NoLostWakeup(Boot(cfg, disk, now, past))
  {
  }

  lemma StepKeepsWakeup(cfg: Config, s: State, a: Action)
    requires Q.Valid(s.pool.queue) && NoLostWakeup(s) && Enabled(cfg, s, a)
    ensures NoLostWakeup(Next(cfg, s, a))
  {
    hide Work, Proceed;
    match a
    case DoWork(w, input) => WorkKeepsWakeup(cfg, s, w, input);
    case Continue(c, id) => ProceedKeepsWakeup(cfg, s, c, id);
    case Restart => BootWakeup(cfg, s.disk, s.now, s.hist.past);
    case _ =>
  }

  /** For any number of workers, producers and cancelers, in every state of every run. */
  lemma {:induction false} RunsKeepWakeup(cfg: Config, s: State, run: seq<Action>)
    requires InCustody(s) && NoLostWakeup(s) && Possible(cfg, s, run)
    ensures NoLostWakeup(Exec(cfg, s, run))
    decreases run
  {
    hide Next;
    if run != [] {
      StepKeepsCustody(cfg, s, run[0]);
      StepKeepsWakeup(cfg, s, run[0]);
      RunsKeepWakeup(cfg, Next(cfg, s, run[0]), run[1..]);
    }
  }

  /** What it rules out: all workers parked for good beside a waiting job. A parked worker can
      always take the token and go on to take the job at the front. */
  lemma WaitingJobsAreReachable(cfg: Config, s: State)
    requires InCustody(s) && NoLostWakeup(s)
    requires !s.pool.closed && s.pool.live && s.pool.queue.entries != []
    requires forall w :: 0 <= w < |s.pool.workers| ==> s.pool.workers[w].Parked?
    ensures var wake := DoWork(0, Input(Live, Live, 0));
            && Enabled(cfg, s, wake)
            && var s1 := Next(cfg, s, wake);
               && Enabled(cfg, s1, wake)
               && Next(cfg, s1, wake).pool.workers[0] == Holding(Q.Front(s.pool.queue))
  {
    hide Proceed, Boot;
    assert !SomeoneWillLook(s.pool.workers);
  }

  /** The channel is closed only by closing the queue, and then no step of a call sends on it:
      the token and the queue stay as they are. */
  lemma NothingIsSentAfterClose(cfg: Config, s: State, c: nat, id: Id)
    requires c in s.calls && s.pool.closed
    ensures Proceed(cfg, s, c, id).pool == s.pool
  {
  }
}
