/** The compile cache changes nothing observable but the text of an error, for every
    interleaving in which content that compiles is compiled on live contexts. */
module Transparency {
  import opened Common
  import opened Executions
  import opened Simulation
  import opened ControlPlane
  import C = Caching
  import M = Modules

  /** A compile fails on its context alone: its content would compile, and the runtime is open. */
  predicate Spoils(cfg: Config, s: State, p: Worker, ctx: Ctx) {
    && p.Compiling? && ctx != Live && !s.svc.runtimeClosed
    && Translate(cfg.lib, cfg.version, p.content, p.m.digest).Ready?
  }

  /** No compile in this step does. */
  predicate SoundCompile(cfg: Config, s: State, a: Action) {
    a.DoWork? && a.w < |s.pool.workers| ==> !Spoils(cfg, s, s.pool.workers[a.w], a.input.ctx)
  }

  /** The module in a worker's hands is one on the shelf, up to its life cycle. */
  predicate OnShelf(shelf: M.Shelf, m: M.Module) {
    m.id in shelf.modules && m.id in shelf.contents && M.Identity(m) == M.Identity(shelf.modules[m.id])
  }

  predicate HasModule(w: Worker) {
    w.Acquiring? || w.Registering? || w.Marking? || AtLoad(w) || w.Executing?
  }

  predicate WorkerFaithful(cfg: Config, shelf: M.Shelf, w: Worker) {
    && (HasModule(w) ==> OnShelf(shelf, w.m))
    && (w.Looking? || w.Compiling? ==> w.m.id in shelf.contents && w.content == shelf.contents[w.m.id])
    && (w.Executing? ==>
          && w.m.id in shelf.contents
          && Translate(cfg.lib, cfg.version, shelf.contents[w.m.id], w.m.digest) == Ready(w.compiled))
  }

  /** Workers execute what compiling gives; with `all`, the cached failures are true as well, as
      long as the runtime is open: once it is closed nothing compiles, and it is not opened again. */
  ghost predicate CacheOk(cfg: Config, s: State, all: bool) {
    && M.Coherent(cfg.lib, s.disk.shelf)
    && C.Faithful(cfg.lib, s.svc.cache, all && !s.svc.runtimeClosed)
    && forall w :: 0 <= w < |s.pool.workers| ==> WorkerFaithful(cfg, s.disk.shelf, s.pool.workers[w])
  }

  lemma DigestOfContent(cfg: Config, shelf: M.Shelf, m: M.Module)
    requires M.Coherent(cfg.lib, shelf) && OnShelf(shelf, m)
    ensures cfg.lib.digest(shelf.contents[m.id]) == m.digest
  {
    assert M.Described(cfg.lib, shelf, m.id);
    M.SameIdentity(m, shelf.modules[m.id]);
  }

  // ---- Steps of workers ----

  /** A step that leaves the cache alone and hands on nothing compiled. */
  ghost predicate Plain(cfg: Config, s: State, t: Turn) {
    && t.svc.cache == s.svc.cache && t.svc.runtimeClosed == s.svc.runtimeClosed
    && WorkerFaithful(cfg, s.disk.shelf, t.next)
  }

  lemma DoorPlain(cfg: Config, s: State, w: nat, input: Input)
    requires w < |s.pool.workers| && AtDoor(WorkerAt(s, w)) && !WorkerAt(s, w).Resolving?
    ensures Plain(cfg, s, TurnOf(cfg, s, w, input))
  {
  }

  lemma ResolvePlain(cfg: Config, s: State, e: Execution)
    requires M.Coherent(cfg.lib, s.disk.shelf)
    ensures Plain(cfg, s, ResolveTurn(s, e))
  {
    if e.ticket.moduleId in s.disk.shelf.modules {
      assert M.Described(cfg.lib, s.disk.shelf, e.ticket.moduleId);
    }
  }

  lemma LeasePlain(cfg: Config, s: State, w: nat, input: Input)
    requires w < |s.pool.workers| && AtLease(WorkerAt(s, w))
    requires WorkerFaithful(cfg, s.disk.shelf, WorkerAt(s, w))
    ensures Plain(cfg, s, TurnOf(cfg, s, w, input))
  {
  }

  lemma LoadPlain(cfg: Config, s: State, w: nat, input: Input)
    requires w < |s.pool.workers| && WorkerAt(s, w).Loading?
    requires WorkerFaithful(cfg, s.disk.shelf, WorkerAt(s, w))
    ensures Plain(cfg, s, TurnOf(cfg, s, w, input))
  {
  }

  lemma EndPlain(cfg: Config, s: State, w: nat, input: Input)
    requires w < |s.pool.workers| && (WorkerAt(s, w).Executing? || AtEnd(WorkerAt(s, w)))
    ensures Plain(cfg, s, TurnOf(cfg, s, w, input))
  {
  }

  /** The worker's record and content as a lookup or a compile needs them. */
  ghost predicate Prepared(cfg: Config, s: State, p: Worker) {
    && (p.Looking? || p.Compiling?)
    && OnShelf(s.disk.shelf, p.m) && p.content == s.disk.shelf.contents[p.m.id]
    && cfg.lib.digest(p.content) == p.m.digest
  }

  lemma PreparedBy(cfg: Config, s: State, p: Worker)
    requires M.Coherent(cfg.lib, s.disk.shelf) && WorkerFaithful(cfg, s.disk.shelf, p) && (p.Looking? || p.Compiling?)
    ensures Prepared(cfg, s, p)
  {
    DigestOfContent(cfg, s.disk.shelf, p.m);
  }

  lemma LookFaithful(cfg: Config, s: State, all: bool, p: Worker, ctx: Ctx)
    requires Prepared(cfg, s, p) && p.Looking? && C.Faithful(cfg.lib, s.svc.cache, all)
    ensures var t := LookTurn(cfg, s, p.e, p.m, p.deadline, p.content, ctx);
            && WorkerFaithful(cfg, s.disk.shelf, t.next) && t.svc.runtimeClosed == s.svc.runtimeClosed
            && t.svc.cache == C.Get(s.svc.cache, ctx, KeyOf(cfg, p.e, p.m), s.now).0
  {
    var key := KeyOf(cfg, p.e, p.m);
    C.LookupAgrees(cfg.lib, s.svc.cache, all, key, p.content, s.now);
  }

  lemma CompileFaithful(cfg: Config, s: State, p: Worker, ctx: Ctx, putCtx: Ctx)
    requires Prepared(cfg, s, p) && p.Compiling?
    ensures var t := CompileTurn(cfg, s, p.e, p.m, p.deadline, p.content, ctx, putCtx);
            var made := Compile(cfg.lib, cfg.version, s.svc.runtimeClosed, ctx, p.content, p.m.digest);
            && WorkerFaithful(cfg, s.disk.shelf, t.next) && t.svc.runtimeClosed == s.svc.runtimeClosed
            && var ttl := if made.Ready? then cfg.cacheTtl else MINUTE;
               || t.svc.cache == s.svc.cache
               || t.svc.cache == C.Store(s.svc.cache, Live, KeyOf(cfg, p.e, p.m), made, ttl, s.now)
  {
  }

  lemma CompileKeepsFaithful(cfg: Config, s: State, all: bool, p: Worker, ctx: Ctx, putCtx: Ctx)
    requires Prepared(cfg, s, p) && p.Compiling? && (all ==> !Spoils(cfg, s, p, ctx) && !s.svc.runtimeClosed)
    requires C.Faithful(cfg.lib, s.svc.cache, all) && CollisionFree(cfg.lib)
    ensures C.Faithful(cfg.lib, CompileTurn(cfg, s, p.e, p.m, p.deadline, p.content, ctx, putCtx).svc.cache, all)
  {
    var made := Compile(cfg.lib, cfg.version, s.svc.runtimeClosed, ctx, p.content, p.m.digest);
    CompileFaithful(cfg, s, p, ctx, putCtx);
    C.AgreeingIsFaithful(cfg.lib, s.svc.cache, all, KeyOf(cfg, p.e, p.m), p.content, made,
                         if made.Ready? then cfg.cacheTtl else MINUTE, s.now);
  }

  lemma TurnFaithful(cfg: Config, s: State, all: bool, w: nat, input: Input)
    requires CacheOk(cfg, s, all) && CollisionFree(cfg.lib) && w < |s.pool.workers|
    requires all ==> !Spoils(cfg, s, WorkerAt(s, w), input.ctx)
    ensures C.Faithful(cfg.lib, TurnOf(cfg, s, w, input).svc.cache, all && !s.svc.runtimeClosed)
    ensures WorkerFaithful(cfg, s.disk.shelf, TurnOf(cfg, s, w, input).next)
    ensures TurnOf(cfg, s, w, input).svc.runtimeClosed == s.svc.runtimeClosed
  {
    var p, all := s.pool.workers[w], all && !s.svc.runtimeClosed;
    assert WorkerFaithful(cfg, s.disk.shelf, p);
    if p.Resolving? { ResolvePlain(cfg, s, p.e); }
    else if AtDoor(p) { DoorPlain(cfg, s, w, input); }
    else if AtLease(p) { LeasePlain(cfg, s, w, input); }
    else if p.Loading? { LoadPlain(cfg, s, w, input); }
    else if p.Looking? || p.Compiling? {
      PreparedBy(cfg, s, p);
      if p.Looking? {
        LookFaithful(cfg, s, all, p, input.ctx);
        C.FaithfulStays(cfg.lib, s.svc.cache, all, input.ctx, KeyOf(cfg, p.e, p.m), "", s.now);
      } else {
        CompileFaithful(cfg, s, p, input.ctx, input.putCtx);
        CompileKeepsFaithful(cfg, s, all, p, input.ctx, input.putCtx);
      }
    }
    else { EndPlain(cfg, s, w, input); }
  }

  lemma WorkKeepsCache(cfg: Config, s: State, all: bool, w: nat, input: Input)
    requires CacheOk(cfg, s, all) && CollisionFree(cfg.lib) && w < |s.pool.workers|
    requires all ==> !Spoils(cfg, s, WorkerAt(s, w), input.ctx)
    ensures CacheOk(cfg, Work(cfg, s, w, input), all)
  {
    hide TurnOf;
    TurnFaithful(cfg, s, all, w, input);
  }

  // ---- Other steps ----

  lemma ShelfMovesOn(cfg: Config, before: M.Shelf, after: M.Shelf, w: Worker)
    requires M.Keeps(before, after) && WorkerFaithful(cfg, before, w)
    ensures WorkerFaithful(cfg, after, w)
  {
    if HasModule(w) {
      assert w.m.id in after.modules && w.m.id in after.contents;
      assert M.Identity(after.modules[w.m.id]) == M.Identity(before.modules[w.m.id]);
    }
  }

  lemma ModulesKeepCache(cfg: Config, s: State, all: bool, op: M.Op)
    requires CacheOk(cfg, s, all)
    ensures CacheOk(cfg, Next(cfg, s, ModuleStep(op)), all)
  {
    hide Work, Proceed, Boot;
    var after := M.Apply(cfg.lib, cfg.maxModuleBytes, s.disk.shelf, op, s.now).0;
    M.OneStep(cfg.lib, cfg.maxModuleBytes, s.disk.shelf, op, s.now);
    forall w | 0 <= w < |s.pool.workers| ensures WorkerFaithful(cfg, after, s.pool.workers[w]) {
      ShelfMovesOn(cfg, s.disk.shelf, after, s.pool.workers[w]);
    }
  }

  lemma ProceedKeepsCache(cfg: Config, s: State, all: bool, c: nat, id: Id)
    requires CacheOk(cfg, s, all) && c in s.calls
    ensures CacheOk(cfg, Proceed(cfg, s, c, id), all)
  {
    var s' := Proceed(cfg, s, c, id);
    assert s'.disk.shelf == s.disk.shelf && s'.svc.cache == s.svc.cache && s'.pool.workers == s.pool.workers;
  }

  lemma StepKeepsCache(cfg: Config, s: State, all: bool, a: Action)
    requires CacheOk(cfg, s, all) && CollisionFree(cfg.lib) && Enabled(cfg, s, a) && (all ==> SoundCompile(cfg, s, a))
    ensures CacheOk(cfg, Next(cfg, s, a), all)
  {
    hide Work, Proceed;
    match a
    case DoWork(w, input) => WorkKeepsCache(cfg, s, all, w, input);
    case Continue(c, id) => ProceedKeepsCache(cfg, s, all, c, id);
    case ModuleStep(op) => ModulesKeepCache(cfg, s, all, op);
    case ForgetTenant(t) =>
      C.FaithfulStays(cfg.lib, s.svc.cache, all && !s.svc.runtimeClosed, Live, C.Key("", "", ""), t, s.now);
    case ForgetKey(key) => C.FaithfulStays(cfg.lib, s.svc.cache, all && !s.svc.runtimeClosed, Live, key, "", s.now);
    case CloseRuntime => C.LessFaithful(cfg.lib, s.svc.cache, all && !s.svc.runtimeClosed);
    case _ =>
  }

  ghost predicate SoundRun(cfg: Config, s: State, run: seq<Action>)
    decreases run
  {
    run != [] ==>
      Enabled(cfg, s, run[0]) && SoundCompile(cfg, s, run[0]) && SoundRun(cfg, Next(cfg, s, run[0]), run[1..])
  }

  /** Over any run workers execute only what compiling gives; over runs in which no compile of
      content that compiles sees a dead context, cached failures are of content that does not
      compile, for as long as the runtime is open. */
  lemma {:induction false} RunsKeepCache(cfg: Config, s: State, all: bool, run: seq<Action>)
    requires CacheOk(cfg, s, all) && CollisionFree(cfg.lib) && Possible(cfg, s, run) && (all ==> SoundRun(cfg, s, run))
    ensures CacheOk(cfg, Exec(cfg, s, run), all)
    decreases run
  {
    hide Next, Enabled;
    if run != [] {
      StepKeepsCache(cfg, s, all, run[0]);
      RunsKeepCache(cfg, Next(cfg, s, run[0]), all, run[1..]);
    }
  }

  // ---- The rest of Run, with the cache and without it ----

  /** What Run makes of a record from the cache lookup to the end of the execution, taking the
      worker's own steps on live contexts; `input` is what the execution's delay ends with and
      the CPU time measured. */
  function FromLookup(cfg: Config, s: State, e: Execution, m: M.Module, deadline: Nanos, content: Bytes,
      input: Input): Execution {
    match LookTurn(cfg, s, e, m, deadline, content, Live).next
    case Executing(_, _, _, compiled) => Conclude(cfg, e, OutcomeOf(cfg, s, e, m, compiled, input), s.now)
    case Aborting(failed) => failed
    case _ =>
      match CompileTurn(cfg, s, e, m, deadline, content, Live, Live).next
      case Executing(_, _, _, compiled) => Conclude(cfg, e, OutcomeOf(cfg, s, e, m, compiled, input), s.now)
      case Aborting(failed) => failed
      case _ => e
  }

  /** The same state with nothing cached. */
  function Uncached(s: State): State {
    s.(svc := s.svc.(cache := C.EMPTY_CACHE))
  }

  function AfterCompiling(cfg: Config, s: State, e: Execution, m: M.Module, made: CompileResult,
      input: Input): Execution {
    match made
    case Ready(compiled) => Conclude(cfg, e, OutcomeOf(cfg, s, e, m, compiled, input), s.now)
    case Rejected(fault) => FailedWith(e, ErrRuntime, fault, s.now)
  }

  lemma DirectCompiles(cfg: Config, s: State, e: Execution, m: M.Module, deadline: Nanos, content: Bytes, input: Input)
    requires !s.svc.runtimeClosed
    ensures FromLookup(cfg, Uncached(s), e, m, deadline, content, input)
            == AfterCompiling(cfg, s, e, m, Translate(cfg.lib, cfg.version, content, m.digest), input)
  {
  }

  /** The records agree in all but the text of an error. */
  predicate SameButText(a: Execution, b: Execution) {
    a == b.(fault := a.fault)
  }

  /** Whatever a faithful cache holds, Run ends with the record that compiling afresh gives, but
      for the text of a compile error. */
  lemma CacheIsTransparent(cfg: Config, s: State, e: Execution, m: M.Module, deadline: Nanos, content: Bytes,
      input: Input)
    requires C.Faithful(cfg.lib, s.svc.cache, true) && cfg.lib.digest(content) == m.digest && !s.svc.runtimeClosed
    ensures var cached := FromLookup(cfg, s, e, m, deadline, content, input);
            var direct := FromLookup(cfg, Uncached(s), e, m, deadline, content, input);
            && SameButText(cached, direct)
            && (cached.fault != direct.fault ==> cached.fault.CachedFailure? && direct.errorClass == ErrRuntime)
  {
    hide Conclude, OutcomeOf, Translate;
    hide Conclude;
    DirectCompiles(cfg, s, e, m, deadline, content, input);
    C.LookupAgrees(cfg.lib, s.svc.cache, true, KeyOf(cfg, e, m), content, s.now);
  }

  /** No execution leaves a record that was just marked as running looking as if it had failed to
      compile. */
  lemma ConcludedShows(cfg: Config, s: State, e: Execution, m: M.Module, compiled: Compiled, input: Input)
    requires e.status == Running && e.report == NO_REPORT && cfg.lib.digest([]) != ""
    ensures var e' := Conclude(cfg, e, OutcomeOf(cfg, s, e, m, compiled, input), s.now);
            e'.status != Failed || e'.report != NO_REPORT
  {
  }

  /** A run that a stored failure answers, although the content compiles, shows it. */
  lemma SpoiledDiffers(cfg: Config, s: State, e: Execution, m: M.Module, deadline: Nanos, content: Bytes, input: Input)
    requires !s.svc.runtimeClosed && Translate(cfg.lib, cfg.version, content, m.digest).Ready?
    requires C.Get(s.svc.cache, Live, KeyOf(cfg, e, m), s.now).1.KnownFailure?
    requires e.status == Running && e.report == NO_REPORT && cfg.lib.digest([]) != ""
    ensures !SameButText(FromLookup(cfg, s, e, m, deadline, content, input),
                         FromLookup(cfg, Uncached(s), e, m, deadline, content, input))
  {
    hide Conclude;
    DirectCompiles(cfg, s, e, m, deadline, content, input);
    ConcludedShows(cfg, s, e, m, Translate(cfg.lib, cfg.version, content, m.digest).compiled, input);
  }

  /** On a closed runtime no run comes to anything, with the cache or without it: both fail, and
      leave the same but for the text of the error, unless a cached module is found. It is then
      executed in vain, which leaves the digest of an empty output besides. */
  lemma ClosedRuntimeFails(cfg: Config, s: State, e: Execution, m: M.Module, deadline: Nanos, content: Bytes,
      input: Input)
    requires s.svc.runtimeClosed && e.status == Running && e.report == NO_REPORT && cfg.lib.digest([]) != ""
    ensures var cached := FromLookup(cfg, s, e, m, deadline, content, input);
            var direct := FromLookup(cfg, Uncached(s), e, m, deadline, content, input);
            && direct == FailedWith(e, ErrRuntime, RuntimeClosed, s.now)
            && SameButText(cached.(report := NO_REPORT), direct)
            && (SameButText(cached, direct) <==> !C.Get(s.svc.cache, Live, KeyOf(cfg, e, m), s.now).1.Hit?)
  {
  }

  lemma StoredAnswers(cfg: Config, s: State, p: Worker, ctx: Ctx, putCtx: Ctx, later: Nanos)
    requires p.Compiling? && s.now <= later <= s.now + MINUTE && ctx != Live
    ensures C.Get(CompileTurn(cfg, s, p.e, p.m, p.deadline, p.content, ctx, putCtx).svc.cache, Live,
                  KeyOf(cfg, p.e, p.m), later).1.KnownFailure?
  {
  }

  /** After the minute it is not found any more. */
  lemma StoredLapses(cfg: Config, s: State, p: Worker, ctx: Ctx, putCtx: Ctx, later: Nanos)
    requires p.Compiling? && later > s.now + MINUTE && ctx != Live
    ensures C.Get(CompileTurn(cfg, s, p.e, p.m, p.deadline, p.content, ctx, putCtx).svc.cache, Live,
                  KeyOf(cfg, p.e, p.m), later).1.Miss?
  {
  }

  /** A run that finds nothing compiles, as it would with nothing cached. */
  lemma MissCompiles(cfg: Config, s: State, e: Execution, m: M.Module, deadline: Nanos, content: Bytes, input: Input)
    requires !s.svc.runtimeClosed && C.Get(s.svc.cache, Live, KeyOf(cfg, e, m), s.now).1.Miss?
    ensures FromLookup(cfg, s, e, m, deadline, content, input)
         == FromLookup(cfg, Uncached(s), e, m, deadline, content, input)
  {
    hide Translate;
  }

  /** The condition is exact. After a worker's compile a run of the same tenant's module that finds
      the cache as that left it ends as if nothing were cached, but for the text of an error, if and
      only if it is not the case that the compile saw a dead context and the content compiles and
      the minute is not over; or, once the runtime is closed, no cached module is found. */
  lemma SpoilsExactlyWhen(cfg: Config, s: State, p: Worker, ctx: Ctx, putCtx: Ctx, s': State, e: Execution,
      deadline: Nanos, input: Input)
    requires Prepared(cfg, s, p) && p.Compiling? && CollisionFree(cfg.lib)
    requires C.Faithful(cfg.lib, s.svc.cache, !s.svc.runtimeClosed)
    requires s'.svc.cache == CompileTurn(cfg, s, p.e, p.m, p.deadline, p.content, ctx, putCtx).svc.cache
    requires (s.svc.runtimeClosed ==> s'.svc.runtimeClosed) && s.now <= s'.now
    requires e.ticket.tenantId == p.e.ticket.tenantId && e.status == Running && e.report == NO_REPORT
    requires cfg.lib.digest([]) != ""
    ensures SameButText(FromLookup(cfg, s', e, p.m, deadline, p.content, input),
                        FromLookup(cfg, Uncached(s'), e, p.m, deadline, p.content, input))
            <==> if s'.svc.runtimeClosed then !C.Get(s'.svc.cache, Live, KeyOf(cfg, e, p.m), s'.now).1.Hit?
                 else !(ctx != Live && Translate(cfg.lib, cfg.version, p.content, p.m.digest).Ready? &&
                        s'.now <= s.now + MINUTE)
  {
    assert KeyOf(cfg, e, p.m) == KeyOf(cfg, p.e, p.m);
    if s'.svc.runtimeClosed {
      ClosedRuntimeFails(cfg, s', e, p.m, deadline, p.content, input);
    } else if Spoils(cfg, s, p, ctx) && s'.now > s.now + MINUTE {
      StoredLapses(cfg, s, p, ctx, putCtx, s'.now);
      MissCompiles(cfg, s', e, p.m, deadline, p.content, input);
    } else if Spoils(cfg, s, p, ctx) {
      StoredAnswers(cfg, s, p, ctx, putCtx, s'.now);
      SpoiledDiffers(cfg, s', e, p.m, deadline, p.content, input);
    } else {
      CompileKeepsFaithful(cfg, s, true, p, ctx, putCtx);
      CacheIsTransparent(cfg, s', e, p.m, deadline, p.content, input);
    }
  }

  /** A worker goes on to execute only what compiling gives, fails only when compiling would fail
      here and now, with the same record but for the text of the error, and compiles otherwise. */
  predicate LookupDecides(cfg: Config, s: State, p: Worker, content: Bytes, next: Worker)
    requires p.Looking?
  {
    var direct := Compile(cfg.lib, cfg.version, s.svc.runtimeClosed, Live, content, p.m.digest);
    && (next.Executing? ==> Translate(cfg.lib, cfg.version, content, p.m.digest) == Ready(next.compiled))
    && (next.Aborting? ==> direct.Rejected? && SameButText(next.e, FailedWith(p.e, ErrRuntime, direct.fault, s.now)))
    && (next.Executing? || next.Aborting? || next == Compiling(p.e, p.m, p.deadline, p.content))
  }

  lemma LookDecides(cfg: Config, s: State, p: Worker)
    requires Prepared(cfg, s, p) && p.Looking? && C.Faithful(cfg.lib, s.svc.cache, !s.svc.runtimeClosed)
    ensures LookupDecides(cfg, s, p, p.content, LookTurn(cfg, s, p.e, p.m, p.deadline, p.content, Live).next)
  {
    C.LookupAgrees(cfg.lib, s.svc.cache, !s.svc.runtimeClosed, KeyOf(cfg, p.e, p.m), p.content, s.now);
  }

  /** In every state of every such run: what a worker is about to execute is what compiling its
      module's own content gives, and what a lookup decides is what compiling would decide. */
  lemma LookupsDecideLikeCompiling(cfg: Config, s: State, w: nat, input: Input)
    requires CacheOk(cfg, s, true) && w < |s.pool.workers| && WorkerAt(s, w).Looking? && input.ctx == Live
    ensures var p := WorkerAt(s, w); var next := TurnOf(cfg, s, w, input).next;
            && p.m.id in s.disk.shelf.contents
            && LookupDecides(cfg, s, p, s.disk.shelf.contents[p.m.id], next)
  {
    hide C.Get, C.Faithful, LookTurn, LookupDecides, Prepared;
    var p := s.pool.workers[w];
    assert WorkerFaithful(cfg, s.disk.shelf, p);
    PreparedBy(cfg, s, p);
    LookDecides(cfg, s, p);
    assert TurnOf(cfg, s, w, input) == LookTurn(cfg, s, p.e, p.m, p.deadline, p.content, Live);
  }
}
