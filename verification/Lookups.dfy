/** What the compile cache answers in the running service, from the history of its runs: what the
    last compile stored, for as long as that may be answered. */
module Lookups {
  import opened Common
  import opened Executions
  import opened Simulation
  import opened ControlPlane
  import opened Waiting
  import C = Caching
  import M = Modules
  import S = Stores

  /** What a compile stores: a failure for a minute, whatever its context; a module for the time
      that is configured, on a live context. */
  function Kept(cfg: Config, key: C.Key, made: CompileResult, putCtx: Ctx, now: Nanos): Option<C.Use> {
    if made.Rejected? then Some(C.Keep(Live, key, made, MINUTE, now))
    else if putCtx == Live then Some(C.Keep(Live, key, made, cfg.cacheTtl, now))
    else None
  }

  /** Entries are shared exactly among executions of one tenant and one content, and are those that
      forgetting the tenant takes away. */
  lemma EntriesAreTheTenants(cfg: Config, e: Execution, m: M.Module, e': Execution, m': M.Module, c: C.Cache)
    ensures KeyOf(cfg, e, m) == KeyOf(cfg, e', m') <==>
              e.ticket.tenantId == e'.ticket.tenantId && m.digest == m'.digest
    ensures KeyOf(cfg, e, m) !in C.DropTenant(c, Live, e.ticket.tenantId).items
    ensures e.ticket.tenantId != e'.ticket.tenantId && KeyOf(cfg, e, m) in c.items ==>
              KeyOf(cfg, e, m) in C.DropTenant(c, Live, e'.ticket.tenantId).items
  {
  }

  /** What a worker's step does with the cache. */
  function WorkerUse(cfg: Config, s: State, p: Worker, input: Input): Option<C.Use> {
    match p
    case Looking(e, m, _, _) => Some(C.Ask(input.ctx, KeyOf(cfg, e, m), s.now))
    case Compiling(e, m, _, content) =>
      var made := Compile(cfg.lib, cfg.version, s.svc.runtimeClosed, input.ctx, content, m.digest);
      Kept(cfg, KeyOf(cfg, e, m), made, input.putCtx, s.now)
    case _ => None
  }

  function UseOf(cfg: Config, s: State, a: Action): Option<C.Use> {
    match a
    case DoWork(w, input) => WorkerUse(cfg, s, WorkerAt(s, w), input)
    case ForgetTenant(t) => Some(C.ForgetAll(Live, t, s.now))
    case ForgetKey(key) => Some(C.Forget(Live, key, s.now))
    case _ => None
  }

  function Used(c: C.Cache, use: Option<C.Use>): C.Cache {
    if use.Some? then C.Apply(c, use.value) else c
  }

  lemma LoadOnCache(cfg: Config, s: State, w: nat, input: Input)
    requires AtLoad(WorkerAt(s, w))
    ensures TurnOf(cfg, s, w, input).svc.cache == Used(s.svc.cache, WorkerUse(cfg, s, WorkerAt(s, w), input))
  {
    hide C.Get, Compile;
  }

  lemma EarlyOffCache(cfg: Config, s: State, w: nat, input: Input)
    requires AtDoor(WorkerAt(s, w)) || AtLease(WorkerAt(s, w))
    ensures TurnOf(cfg, s, w, input).svc.cache == s.svc.cache
  {
  }

  lemma LateOffCache(cfg: Config, s: State, w: nat, input: Input)
    requires WorkerAt(s, w).Executing? || AtEnd(WorkerAt(s, w))
    ensures TurnOf(cfg, s, w, input).svc.cache == s.svc.cache
  {
    hide Conclude;
  }

  lemma CallsOffCache(cfg: Config, s: State, c: nat, id: Id)
    ensures Proceed(cfg, s, c, id).svc.cache == s.svc.cache && Proceed(cfg, s, c, id).now == s.now
  {
    hide FindStep, AskStep, FetchStep, ReadStep;
  }

  lemma StepOnCache(cfg: Config, s: State, a: Action)
    requires Enabled(cfg, s, a) && !a.Restart?
    ensures Next(cfg, s, a).svc.cache == Used(s.svc.cache, UseOf(cfg, s, a)) && s.now <= Next(cfg, s, a).now
  {
    hide TurnOf, Proceed, MayWork, C.Get, Compile;
    match a
    case DoWork(w, input) =>
      var p := WorkerAt(s, w);
      if AtLoad(p) { LoadOnCache(cfg, s, w, input); }
      else if AtDoor(p) || AtLease(p) { EarlyOffCache(cfg, s, w, input); }
      else { LateOffCache(cfg, s, w, input); }
    case Continue(c, id) => CallsOffCache(cfg, s, c, id);
    case _ =>
  }

  predicate LastsAsItShould(cfg: Config, u: C.Use) {
    u.Keep? ==> u.ctx == Live && u.ttl == if u.result.Rejected? then MINUTE else cfg.cacheTtl
  }

  /** A use is made now; what is stored is a failure for a minute or a module for the configured
      time. */
  lemma UseIsNow(cfg: Config, s: State, a: Action)
    ensures var use := UseOf(cfg, s, a); use.Some? ==> use.value.at == s.now && LastsAsItShould(cfg, use.value)
  {
    hide Compile;
  }

  /** What a run does with the cache. */
  ghost function UsesOf(cfg: Config, s: State, run: seq<Action>): seq<C.Use>
    decreases run
  {
    if run == [] then [] else Listed(UseOf(cfg, s, run[0])) + UsesOf(cfg, Next(cfg, s, run[0]), run[1..])
  }

  lemma ExecListed(c: C.Cache, use: Option<C.Use>, uses: seq<C.Use>)
    ensures C.Exec(c, Listed(use) + uses) == C.Exec(Used(c, use), uses)
  {
    if use.Some? {
      assert (Listed(use) + uses)[1..] == uses;
    } else {
      assert Listed(use) + uses == uses;
    }
  }

  /** The times of the uses, from one instant to another. */
  predicate Between(uses: seq<C.Use>, start: Nanos, end: Nanos) {
    start <= end && C.InOrder(uses, end) && forall i :: 0 <= i < |uses| ==> start <= uses[i].at
  }

  lemma BetweenFirst(use: Option<C.Use>, uses: seq<C.Use>, start: Nanos, next: Nanos, end: Nanos)
    requires start <= next && Between(uses, next, end) && (use.Some? ==> use.value.at == start)
    ensures Between(Listed(use) + uses, start, end)
  {
    var all := Listed(use) + uses;
    if use.Some? {
      assert forall i :: 0 < i < |all| ==> all[i] == uses[i - 1];
    } else {
      assert all == uses;
    }
  }

  /** The cache at the end of a run is what its uses make of the cache at its start, one after the
      other in time. */
  lemma {:induction false} RunsOnCache(cfg: Config, s: State, run: seq<Action>)
    requires Possible(cfg, s, run) && NoRestart(run)
    ensures Exec(cfg, s, run).svc.cache == C.Exec(s.svc.cache, UsesOf(cfg, s, run))
    ensures Between(UsesOf(cfg, s, run), s.now, Exec(cfg, s, run).now)
    decreases run
  {
    hide Next, Enabled;
    if run != [] {
      var s' := Next(cfg, s, run[0]);
      StepOnCache(cfg, s, run[0]);
      RunsOnCache(cfg, s', run[1..]);
      ExecListed(s.svc.cache, UseOf(cfg, s, run[0]), UsesOf(cfg, s', run[1..]));
      UseIsNow(cfg, s, run[0]);
      BetweenFirst(UseOf(cfg, s, run[0]), UsesOf(cfg, s', run[1..]), s.now, s'.now, Exec(cfg, s', run[1..]).now);
    }
  }

  lemma {:induction false} UsesLast(cfg: Config, s: State, run: seq<Action>)
    ensures forall i :: 0 <= i < |UsesOf(cfg, s, run)| ==> LastsAsItShould(cfg, UsesOf(cfg, s, run)[i])
    decreases run
  {
    hide Next;
    if run != [] {
      UseIsNow(cfg, s, run[0]);
      UsesLast(cfg, Next(cfg, s, run[0]), run[1..]);
    }
  }

  // ---- What a worker finds ----

  /** Where a worker's lookup leads, given what it finds. */
  predicate GoesOnWith(p: Worker, found: CompileResult, now: Nanos, next: Worker) {
    p.Looking? &&
    match found
    case Ready(compiled) => next == Executing(p.e, p.m, p.deadline, compiled)
    case Rejected(fault) => next == Aborting(FailedWith(p.e, ErrRuntime, CachedFailure(fault), now))
  }

  lemma LookFollows(cfg: Config, s: State, w: nat, input: Input, uses: seq<C.Use>)
    requires WorkerAt(s, w).Looking? && input.ctx == Live
    requires s.svc.cache == C.Exec(C.EMPTY_CACHE, uses) && C.InOrder(uses, s.now)
    ensures var p, next := WorkerAt(s, w), TurnOf(cfg, s, w, input).next;
            && (next.Compiling? <==> !exists i: nat :: C.Holds(uses, KeyOf(cfg, p.e, p.m), i, s.now))
            && (next.Compiling? ==> next == Compiling(p.e, p.m, p.deadline, p.content))
            && forall i: nat :: C.Holds(uses, KeyOf(cfg, p.e, p.m), i, s.now) ==>
                 GoesOnWith(p, uses[i].result, s.now, next)
  {
    hide C.Get, C.Exec, C.Holds;
    var p := WorkerAt(s, w);
    C.LookupAnswersExactly(uses, KeyOf(cfg, p.e, p.m), s.now);
  }

  /** In every state of every run from a start up to the next: a worker whose context is live compiles
      its module if and only if nothing stands in the history for its tenant and content that was
      stored at most a minute ago, for a failure, or at most the configured time ago, for a module;
      otherwise it goes on with what stands. */
  lemma LookupsFollowHistory(cfg: Config, disk: S.Disk, now: Nanos, past: Past, run: seq<Action>, w: nat, input: Input)
    requires Possible(cfg, Boot(cfg, disk, now, past), run) && NoRestart(run)
    requires WorkerAt(Exec(cfg, Boot(cfg, disk, now, past), run), w).Looking? && input.ctx == Live
    ensures var s, uses := Exec(cfg, Boot(cfg, disk, now, past), run), UsesOf(cfg, Boot(cfg, disk, now, past), run);
            var p, next := WorkerAt(s, w), TurnOf(cfg, s, w, input).next;
            && (next.Compiling? <==> !exists i: nat :: C.Holds(uses, KeyOf(cfg, p.e, p.m), i, s.now))
            && (next.Compiling? ==> next == Compiling(p.e, p.m, p.deadline, p.content))
            && (forall i: nat :: C.Holds(uses, KeyOf(cfg, p.e, p.m), i, s.now) ==>
                  && GoesOnWith(p, uses[i].result, s.now, next)
                  && s.now <= uses[i].at + (if uses[i].result.Rejected? then MINUTE else cfg.cacheTtl))
  {
    hide Next, Enabled, TurnOf, C.Exec;
    var first := Boot(cfg, disk, now, past);
    RunsOnCache(cfg, first, run);
    UsesLast(cfg, first, run);
    LookFollows(cfg, Exec(cfg, first, run), w, input, UsesOf(cfg, first, run));
  }
}
