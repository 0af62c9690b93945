/** The workers' loop over the queue. */
module Pools {
  import opened Common
  import opened Simulation
  import opened ControlPlane
  import opened Paths
  import opened Reachability
  import opened Uninterrupted
  import opened Scripts
  import opened Invariants
  import opened Services
  import Q = RingQueue
  import F = FairQueues

  /** From idle to idle again by taking one job: dropped if it is flagged as canceled, run
      otherwise. */
  ghost predicate OneJob(cfg: Config, script: Script, s: State, s': State) {
    && s.pool.workers == [Idle] && s'.pool.workers == [Idle]
    && Looks(cfg, script, s).pool.workers != [Parked] && Looks(cfg, script, s).pool.workers != [Exited]
    && Leads(Visits(cfg, script), Looks(cfg, script, s), s')
  }

  /** One job after the other, each by its own script, through the given states. */
  ghost predicate Jobs(cfg: Config, scripts: seq<Script>, states: seq<State>) {
    |states| == |scripts| + 1 && forall i :: 0 <= i < |scripts| ==> OneJob(cfg, scripts[i], states[i], states[i + 1])
  }

  lemma JobsOn(cfg: Config, scripts: seq<Script>, n: nat, states: seq<State>, s': State)
    requires n < |scripts| && Jobs(cfg, scripts[..n], states) && OneJob(cfg, scripts[n], states[n], s')
    ensures Jobs(cfg, scripts[..n + 1], states + [s'])
  {
    hide Next, Work;
    var states' := states + [s'];
    forall i | 0 <= i < n + 1 ensures OneJob(cfg, scripts[..n + 1][i], states'[i], states'[i + 1]) {
      if i < n {
        assert OneJob(cfg, scripts[..n][i], states[i], states[i + 1]);
      }
    }
  }

  /** Why a worker's loop ends: the queue is closed, there is nothing to do yet, an execution
      took the process down, or no more jobs are looked at. */
  datatype Stop = Closed | Empty | Down | Enough

  /** Where a worker stands when its loop has ended. */
  function Standing(stop: Stop): Worker {
    match stop
    case Closed => Exited
    case Empty => Parked
    case Down => Idle
    case Enough => Idle
  }

  /** How the loop came to its end, after the jobs between the given states. */
  ghost predicate EndsBy(cfg: Config, scripts: seq<Script>, states: seq<State>, stop: Stop, end: State) {
    && 1 <= |states| <= |scripts| + 1 && Jobs(cfg, scripts[..|states| - 1], states)
    && (stop == Enough <==> |states| == |scripts| + 1)
    && var last := |states| - 1;
       match stop
       case Enough => end == states[last]
       case Down => GoesDown(cfg, scripts[last], Looks(cfg, scripts[last], states[last]))
       case _ => end == Looks(cfg, scripts[last], states[last]) && states[last].pool.workers == [Idle]
  }

  // ---- Allowed scripts ----

  /** Each job that is looked at has a script that is allowed. */
  ghost predicate AllowedJobs(cfg: Config, scripts: seq<Script>, states: seq<State>) {
    forall i :: 0 <= i < |scripts| && i < |states| ==>
      states[i].now <= scripts[i].begin.now && Allowed(cfg, scripts[i], Looks(cfg, scripts[i], states[i]))
  }

  lemma JobIsPossible(cfg: Config, script: Script, s: State, s': State)
    requires OneJob(cfg, script, s, s') && s.now <= script.begin.now && Allowed(cfg, script, Looks(cfg, script, s))
    ensures Reaches(cfg, s, s')
  {
    hide Next, Work, Enabled, MayWork;
    LookIsPossible(cfg, script, s);
    PathIsPossible(cfg, script, Looks(cfg, script, s), s');
    ReachesOn(cfg, s, Looks(cfg, script, s), s');
  }

  lemma {:induction false} JobsArePossible(cfg: Config, scripts: seq<Script>, states: seq<State>, n: nat)
    requires n <= |scripts| && n < |states| && AllowedJobs(cfg, scripts, states)
    requires forall i :: 0 <= i < n ==> OneJob(cfg, scripts[i], states[i], states[i + 1])
    ensures Reaches(cfg, states[0], states[n])
  {
    hide Next, Work, Enabled, MayWork;
    if n == 0 {
      ReachesItself(cfg, states[0]);
    } else {
      JobsArePossible(cfg, scripts, states, n - 1);
      JobIsPossible(cfg, scripts[n - 1], states[n - 1], states[n]);
      ReachesOn(cfg, states[0], states[n - 1], states[n]);
    }
  }

  /** The loop of a worker left alone, by allowed scripts, does not take the process down, is a
      possible run, and leaves a sound service sound. */
  lemma LoopIsPossible(cfg: Config, scripts: seq<Script>, states: seq<State>, stop: Stop, end: State)
    requires EndsBy(cfg, scripts, states, stop, end) && AllowedJobs(cfg, scripts, states)
    ensures stop != Down && Reaches(cfg, states[0], end)
    ensures CollisionFree(cfg.lib) && Sound(cfg, states[0]) ==> Sound(cfg, end)
  {
    hide Next, Work;
    var last := |states| - 1;
    forall i | 0 <= i < last ensures OneJob(cfg, scripts[i], states[i], states[i + 1]) {
      assert OneJob(cfg, scripts[..last][i], states[i], states[i + 1]);
    }
    JobsArePossible(cfg, scripts, states, last);
    if last < |scripts| {
      AllowedStaysUp(cfg, scripts[last], Looks(cfg, scripts[last], states[last]));
      LookIsPossible(cfg, scripts[last], states[last]);
      ReachesOn(cfg, states[0], states[last], end);
    }
    if CollisionFree(cfg.lib) && Sound(cfg, states[0]) { ReachedIsSound(cfg, states[0], end); }
  }

  class Pool {
    const service: Service

    constructor (service: Service)
      ensures this.service == service
    {
      this.service := service;
    }

    /** The look at the queue. */
    method Look(script: Script) returns (res: F.Attempt)
      requires service.Ok()
      modifies service.scheduler.queue, service`hist, service`clock
      ensures service.Ok()
      ensures var s0 := old(service.View(script.live, [Idle], map[]));
              var next := match res case Took(job) => Holding(job) case Shut => Exited case NothingYet => Parked;
              service.View(script.live, [next], map[]) == Looks(service.cfg, script, s0)
    {
      hide Work, Looks, Q.Dequeue, Q.Front, F.Coherent, F.RingOf;
      var queue := service.scheduler.queue;
      assert Q.Valid(queue.View()) by { F.RingIsValid(queue.tenants, queue.cursor, queue.byTenant); }
      LooksDirectly(service.cfg, script, service.View(script.live, [Idle], map[]));
      res := queue.TryDequeue();
      service.clock := script.begin.now;
      if res.Took? {
        service.hist := service.hist.(place := service.hist.place[res.job.executionId := Held(0)]);
      }
    }

    /** What the loop does with a job: nothing if it is flagged as canceled, run it otherwise. */
    method Serve(script: Script, job: Q.Job) returns (crashed: bool)
      requires service.Ok()
      modifies service`hist, service`clock, service`cancels, service.scheduler, service.repo`executions
      modifies service.cache, service.resources, service.payloads, service.runtime`active, service.meter
      ensures service.Ok()
      ensures var s0 := old(service.View(script.live, [Holding(job)], map[]));
              var s' := service.View(script.live, [Idle], map[]);
              if crashed then GoesDown(service.cfg, script, s0) else Leads(Visits(service.cfg, script), s0, s')
    {
      hide Next, Visits, Sound;
      ghost var s0 := service.View(script.live, [Holding(job)], map[]);
      HoldLeads(service.cfg, script, s0, job);
      var flagged := service.scheduler.Canceled(job.executionId);
      service.clock := script.begin.now;
      if flagged {
        service.hist := Dropped(service.hist, job.executionId, Some(Flagged));
        return false;
      }
      assert service.scheduler.canceled == old(service.scheduler.canceled);
      ghost var s1 := service.View(script.live, [Starting(job.executionId)], map[]);
      crashed := service.Run(script, job.executionId);
      if crashed {
        DownOn(service.cfg, script, s0, s1);
      } else {
        LeadsOn(Visits(service.cfg, script), s0, s1, service.View(script.live, [Idle], map[]));
      }
    }

    /** One pass of the loop. */
    method Pass(script: Script) returns (stop: Option<Stop>)
      requires service.Ok()
      modifies service`hist, service`clock, service`cancels, service.scheduler, service.scheduler.queue
      modifies service.repo`executions, service.cache, service.resources, service.payloads
      modifies service.runtime`active, service.meter
      ensures service.Ok() && stop != Some(Enough)
      ensures var s0 := old(service.View(script.live, [Idle], map[]));
              match stop
              case None => OneJob(service.cfg, script, s0, service.View(script.live, [Idle], map[]))
              case Some(why) =>
                if why == Down then GoesDown(service.cfg, script, Looks(service.cfg, script, s0))
                else service.View(script.live, [Standing(why)], map[]) == Looks(service.cfg, script, s0)
    {
      hide Work;
      var res := Look(script);
      match res {
        case Shut => stop := Some(Closed);
        case NothingYet => stop := Some(Empty);
        case Took(job) =>
          var crashed := Serve(script, job);
          stop := if crashed then Some(Down) else None;
      }
    }

    /** Job after job until the queue is closed or empty, an execution takes the process down, or
        the scripts are used up. */
    method Rounds(live: bool, scripts: seq<Script>) returns (served: nat, stop: Stop, ghost states: seq<State>)
      requires service.Ok() && forall i :: 0 <= i < |scripts| ==> scripts[i].live == live
      modifies service`hist, service`clock, service`cancels, service.scheduler, service.scheduler.queue
      modifies service.repo`executions, service.cache, service.resources, service.payloads
      modifies service.runtime`active, service.meter
      ensures service.Ok() && |states| == served + 1 && states[0] == old(service.View(live, [Idle], map[]))
      ensures EndsBy(service.cfg, scripts, states, stop, service.View(live, [Standing(stop)], map[]))
    {
      served := 0;
      states := [service.View(live, [Idle], map[])];
      while served < |scripts|
        invariant service.Ok() && served <= |scripts| && |states| == served + 1
        invariant Jobs(service.cfg, scripts[..served], states)
        invariant states[0] == old(service.View(live, [Idle], map[]))
        invariant states[served] == service.View(live, [Idle], map[])
      {
        var over := Pass(scripts[served]);
        if over.Some? { return served, over.value, states; }
        JobsOn(service.cfg, scripts, served, states, service.View(live, [Idle], map[]));
        states := states + [service.View(live, [Idle], map[])];
        served := served + 1;
      }
      assert scripts[..served] == scripts;
      stop := Enough;
    }

    /** The loop of one worker left to itself. The states between its jobs are a path of the
        control plane; by allowed scripts the whole is a possible run, the process stays up, and
        a sound service stays sound. */
    method Loop(live: bool, scripts: seq<Script>) returns (served: nat, stop: Stop, ghost states: seq<State>)
      requires service.Ok() && forall i :: 0 <= i < |scripts| ==> scripts[i].live == live
      modifies service`hist, service`clock, service`cancels, service.scheduler, service.scheduler.queue
      modifies service.repo`executions, service.cache, service.resources, service.payloads
      modifies service.runtime`active, service.meter
      ensures service.Ok() && |states| == served + 1 && states[0] == old(service.View(live, [Idle], map[]))
      ensures EndsBy(service.cfg, scripts, states, stop, service.View(live, [Standing(stop)], map[]))
      ensures AllowedJobs(service.cfg, scripts, states) ==>
                stop != Down && Reaches(service.cfg, states[0], service.View(live, [Standing(stop)], map[]))
      ensures AllowedJobs(service.cfg, scripts, states) && CollisionFree(service.cfg.lib) ==>
                Sound(service.cfg, states[0]) ==> Sound(service.cfg, service.View(live, [Standing(stop)], map[]))
    {
      hide Next, Work, Sound;
      served, stop, states := Rounds(live, scripts);
      if AllowedJobs(service.cfg, scripts, states) {
        LoopIsPossible(service.cfg, scripts, states, stop, service.View(live, [Standing(stop)], map[]));
      }
    }
  }
}
