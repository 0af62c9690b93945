/** Leases and cancel registrations against the workers, whatever the interleaving. */
module Leases {
  import opened Common
  import opened Executions
  import opened ControlPlane
  import opened Custody
  import opened Records
  import R = Resources
  import S = Stores

  datatype Kind = Lease | Registration

  /** Inside the part of Run that holds a lease, or is registered for cancellation. */
  predicate Inside(k: Kind, w: Worker) {
    match k
    case Lease => AtLoad(w) || AtEnd(w) || w.Executing? || w.Registering? || w.Marking?
    case Registration => (AtLoad(w) || AtEnd(w) || w.Executing? || w.Marking?) && !w.Releasing?
  }

  /** The identifiers are exactly those held by workers inside. */
  ghost predicate Tracks(k: Kind, ids: set<Id>, place: map<Id, Place>, workers: seq<Worker>) {
    forall id :: id in ids <==>
      id in place && place[id].Held? && place[id].worker < |workers| && Inside(k, workers[place[id].worker])
  }

  /** How the set of identifiers changes when a worker goes from one stage to another. */
  function Tracked(k: Kind, ids: set<Id>, before: Worker, after: Worker): set<Id> {
    if !Inside(k, before) && Inside(k, after) && HeldId(after).Some? then ids + {HeldId(after).value}
    else if Inside(k, before) && !Inside(k, after) && HeldId(before).Some? then ids - {HeldId(before).value}
    else ids
  }

  lemma TrackStep(k: Kind, ids: set<Id>, place: map<Id, Place>, workers: seq<Worker>, w: nat, next: Worker)
    requires WorkersPlaced(place, workers) && w < |workers| && Tracks(k, ids, place, workers)
    requires HeldId(next) == HeldId(workers[w]) || HeldId(next) == None ||
             (HeldId(workers[w]) == None && !Inside(k, next) && At(place, HeldId(next).value, Waiting))
    ensures Tracks(k, Tracked(k, ids, workers[w], next), Moved(place, w, HeldId(workers[w]), HeldId(next)),
                   workers[w := next])
  {
    var before, after := HeldId(workers[w]), HeldId(next);
    var place' := Moved(place, w, before, after);
    var ids' := Tracked(k, ids, workers[w], next);
    forall id ensures id in ids' <==>
      id in place' && place'[id].Held? && place'[id].worker < |workers| &&
        Inside(k, workers[w := next][place'[id].worker])
    {
      assert id in ids <==>
             id in place && place[id].Held? && place[id].worker < |workers| && Inside(k, workers[place[id].worker]);
      if before == Some(id) { assert At(place, id, Held(w)); }
    }
  }

  /** Placing an execution that no worker holds, before or after, changes nothing. */
  lemma TrackUnmoved(k: Kind, ids: set<Id>, place: map<Id, Place>, workers: seq<Worker>, id: Id, p: Place)
    requires Tracks(k, ids, place, workers) && (id in place ==> !place[id].Held?) && !p.Held?
    ensures Tracks(k, ids, place[id := p], workers)
  {
  }

  ghost predicate LeaseTenants(books: R.Books, executions: map<Id, Execution>) {
    forall id :: id in books.leases ==> id in executions && books.leases[id].tenant == executions[id].ticket.tenantId
  }

  /** No tenant is over its concurrency limit unless the limit was lowered. */
  ghost predicate LimitsHold(books: R.Books, lowered: set<Tenant>) {
    && books.fallback.concurrent >= 1
    && forall t :: t in books.quotas && t !in lowered ==> books.quotas[t].active <= books.quotas[t].limits.concurrent
  }

  ghost predicate LeasesOk(s: State) {
    && Tracks(Lease, s.svc.books.leases.Keys, s.hist.place, s.pool.workers)
    && Tracks(Registration, s.svc.cancels, s.hist.place, s.pool.workers)
    && R.Balanced(s.svc.books)
    && LeaseTenants(s.svc.books, s.disk.executions)
    && LimitsHold(s.svc.books, s.hist.lowered)
  }

  // ---- What a worker's turn does to the books and the registrations ----

  ghost predicate BooksFollow(s: State, p: Worker, t: Turn) {
    if !Inside(Lease, p) && Inside(Lease, t.next) then
      && p.Acquiring? && HeldId(t.next) == HeldId(p)
      && R.Acquire(s.svc.books, p.e.ticket.tenantId, p.e.ticket.id, p.e.ticket.budget.maxMemoryPages, s.pool.live,
                   s.now).1.Granted?
      && t.svc.books == R.Acquire(s.svc.books, p.e.ticket.tenantId, p.e.ticket.id, p.e.ticket.budget.maxMemoryPages,
                                  s.pool.live, s.now).0
    else if Inside(Lease, p) && !Inside(Lease, t.next) then
      && p.Releasing?
      && t.svc.books == R.Release(s.svc.books, p.e.ticket.id, p.e.report.usage.cpuTime, s.now)
    else t.svc.books == s.svc.books
  }

  ghost predicate LeaseTurnOk(s: State, p: Worker, t: Turn) {
    && BooksFollow(s, p, t)
    && t.svc.cancels == Tracked(Registration, s.svc.cancels, p, t.next)
  }

  lemma DoorLeases(cfg: Config, s: State, w: nat, input: Input)
    requires w < |s.pool.workers| && AtDoor(WorkerAt(s, w))
    ensures LeaseTurnOk(s, WorkerAt(s, w), TurnOf(cfg, s, w, input))
  {
  }

  lemma LeaseLeases(cfg: Config, s: State, w: nat, input: Input)
    requires w < |s.pool.workers| && AtLease(WorkerAt(s, w))
    ensures LeaseTurnOk(s, WorkerAt(s, w), TurnOf(cfg, s, w, input))
  {
  }

  lemma LoadLeases(cfg: Config, s: State, w: nat, input: Input)
    requires w < |s.pool.workers| && (AtLoad(WorkerAt(s, w)) || WorkerAt(s, w).Executing?)
    ensures LeaseTurnOk(s, WorkerAt(s, w), TurnOf(cfg, s, w, input))
  {
  }

  lemma EndLeases(cfg: Config, s: State, w: nat, input: Input)
    requires w < |s.pool.workers| && AtEnd(WorkerAt(s, w))
    ensures LeaseTurnOk(s, WorkerAt(s, w), TurnOf(cfg, s, w, input))
  {
    hide Conclude;
  }

  lemma TurnLeases(cfg: Config, s: State, w: nat, input: Input)
    requires w < |s.pool.workers|
    ensures LeaseTurnOk(s, WorkerAt(s, w), TurnOf(cfg, s, w, input))
  {
    hide TurnOf;
    var p := s.pool.workers[w];
    if AtDoor(p) { DoorLeases(cfg, s, w, input); }
    else if AtLease(p) { LeaseLeases(cfg, s, w, input); }
    else if AtEnd(p) { EndLeases(cfg, s, w, input); }
    else { LoadLeases(cfg, s, w, input); }
  }

  // ---- The books ----

  lemma GrantKeeps(books: R.Books, t: Tenant, id: Id, pages: nat, live: bool, now: Nanos, 
      executions: map<Id, Execution>, lowered: set<Tenant>)
    requires R.Balanced(books) && LeaseTenants(books, executions) && LimitsHold(books, lowered)
    requires id !in books.leases && id in executions && executions[id].ticket.tenantId == t
    requires R.Acquire(books, t, id, pages, live, now).1.Granted?
    ensures var b := R.Acquire(books, t, id, pages, live, now).0;
            && R.Balanced(b) && LeaseTenants(b, executions) && LimitsHold(b, lowered)
            && b.leases.Keys == books.leases.Keys + {id}
  {
    R.AcquireBalances(books, t, id, pages, live, now);
  }

  lemma ReleaseKeeps(books: R.Books, id: Id, cpu: nat, now: Nanos, executions: map<Id, Execution>, lowered: set<Tenant>)
    requires R.Balanced(books) && LeaseTenants(books, executions) && LimitsHold(books, lowered)
    ensures var b := R.Release(books, id, cpu, now);
            && R.Balanced(b) && LeaseTenants(b, executions) && LimitsHold(b, lowered)
            && b.leases.Keys == books.leases.Keys - {id}
  {
    R.ReleaseBalances(books, id, cpu, now);
  }

  /** Every release of a worker finds its own lease and a positive count. */
  lemma ReleaseFindsItsLease(s: State, w: nat)
    requires InCustody(s) && LeasesOk(s) && w < |s.pool.workers| && WorkerAt(s, w).Releasing?
    ensures var id := WorkerAt(s, w).e.ticket.id;
            && id in s.svc.books.leases
            && R.QuotaAt(s.svc.books, s.svc.books.leases[id].tenant, s.now).active > 0
  {
    var id := s.pool.workers[w].e.ticket.id;
    assert At(s.hist.place, id, Held(w));
    R.ReleaseBalances(s.svc.books, id, 0, s.now);
  }

  lemma TenantsKept(books: R.Books, before: map<Id, Execution>, after: map<Id, Execution>)
    requires LeaseTenants(books, before) && RequestsKept(before, after)
    ensures LeaseTenants(books, after)
  {
    forall id | id in books.leases ensures id in after && books.leases[id].tenant == after[id].ticket.tenantId {
      assert id in before && SameRequest(before[id], after[id]);
    }
  }

  /** The effect of a turn on the books alone. */
  lemma BooksKeep(cfg: Config, s: State, w: nat, input: Input)
    requires InCustody(s) && LeasesOk(s) && w < |s.pool.workers|
    requires WorkerOk(cfg, s.disk.executions, s.pool.live, WorkerAt(s, w))
    ensures var b := TurnOf(cfg, s, w, input).svc.books;
            && R.Balanced(b) && LeaseTenants(b, s.disk.executions) && LimitsHold(b, s.hist.lowered)
            && b.leases.Keys == Tracked(Lease, s.svc.books.leases.Keys, WorkerAt(s, w),
                                        TurnOf(cfg, s, w, input).next)
  {
    var p := s.pool.workers[w];
    var t := TurnOf(cfg, s, w, input);
    TurnLeases(cfg, s, w, input);
    if !Inside(Lease, p) && Inside(Lease, t.next) {
      assert At(s.hist.place, p.e.ticket.id, Held(w));
      GrantKeeps(s.svc.books, p.e.ticket.tenantId, p.e.ticket.id, p.e.ticket.budget.maxMemoryPages, s.pool.live, s.now,
                 s.disk.executions, s.hist.lowered);
    } else if Inside(Lease, p) && !Inside(Lease, t.next) {
      ReleaseKeeps(s.svc.books, p.e.ticket.id, p.e.report.usage.cpuTime, s.now, s.disk.executions, s.hist.lowered);
    }
  }

  /** The effect of a turn on who is inside. */
  lemma TracksKeep(cfg: Config, s: State, w: nat, input: Input)
    requires InCustody(s) && LeasesOk(s) && w < |s.pool.workers|
    ensures var p := WorkerAt(s, w); var t := TurnOf(cfg, s, w, input);
            var place := Moved(s.hist.place, w, HeldId(p), HeldId(t.next));
            && Tracks(Lease, Tracked(Lease, s.svc.books.leases.Keys, p, t.next), place, s.pool.workers[w := t.next])
            && Tracks(Registration, Tracked(Registration, s.svc.cancels, p, t.next), place, s.pool.workers[w := t.next])
  {
    var t := TurnOf(cfg, s, w, input);
    var p := s.pool.workers[w];
    TurnHolds(cfg, s, w, input);
    TurnQueue(cfg, s, w, input);
    if HeldId(p) == None && HeldId(t.next).Some? {
      QueueTaken(s.hist.place, s.pool.queue, w);
      assert t.next.Holding?;
    }
    TrackStep(Lease, s.svc.books.leases.Keys, s.hist.place, s.pool.workers, w, t.next);
    TrackStep(Registration, s.svc.cancels, s.hist.place, s.pool.workers, w, t.next);
  }

  lemma WorkKeepsLeases(cfg: Config, s: State, w: nat, input: Input)
    requires InCustody(s) && RecordsOk(cfg, s) && LeasesOk(s) && w < |s.pool.workers| && MayWork(cfg, s, w, input)
    ensures LeasesOk(Work(cfg, s, w, input))
  {
    hide TurnOf;
    var t := TurnOf(cfg, s, w, input);
    assert WorkerOk(cfg, s.disk.executions, s.pool.live, s.pool.workers[w]);
    TracksKeep(cfg, s, w, input);
    TurnLeases(cfg, s, w, input);
    BooksKeep(cfg, s, w, input);
    TurnIsFit(cfg, s, w, input);
    WriteKeeps(cfg, s.disk.executions, t.write);
    TenantsKept(t.svc.books, s.disk.executions, Write(s.disk.executions, t.write));
  }

  // ---- Everything else ----

  /** The execution a call's step places, and where. */
  function CallMove(s: State, c: nat): Option<(Id, Place)> {
    match CallAt(s, c).step
    case Creating(e, _) => if MovesNothing(s, c) then None else Some((e.ticket.id, Submitting(c)))
    case Scheduling(e) => if MovesNothing(s, c) then None else Some((e.ticket.id, Waiting))
    case Reverting(e) => Some((e.ticket.id, Gone))
    case _ => None
  }

  /** A call places no execution that a worker holds, and leaves the workers, the books and the
      registrations alone. */
  lemma CallApart(cfg: Config, s: State, c: nat, x: Id)
    requires InCustody(s) && c in s.calls
    ensures var s' := Proceed(cfg, s, c, x); var move := CallMove(s, c);
            && s'.pool.workers == s.pool.workers && s'.svc.books == s.svc.books && s'.svc.cancels == s.svc.cancels
            && s'.hist.lowered == s.hist.lowered
            && s'.hist.place == (if move.None? then s.hist.place else s.hist.place[move.value.0 := move.value.1])
    ensures var move := CallMove(s, c);
            move.Some? ==> !move.value.1.Held? && (move.value.0 in s.hist.place ==> !s.hist.place[move.value.0].Held?)
  {
    var id := SubmitId(s.calls[c].step);
    assert id.Some? ==> At(s.hist.place, id.value, Submitting(c));
    BooksApart(cfg, s, c, x);
    if MovesNothing(s, c) { QuietStep(cfg, s, c, x); }
  }

  lemma BooksApart(cfg: Config, s: State, c: nat, x: Id)
    requires c in s.calls
    ensures var s' := Proceed(cfg, s, c, x); s'.svc.books == s.svc.books && s'.svc.cancels == s.svc.cancels
  {
  }

  lemma ProceedKeepsLeases(cfg: Config, s: State, c: nat, x: Id)
    requires InCustody(s) && RecordsOk(cfg, s) && LeasesOk(s) && c in s.calls
    ensures LeasesOk(Proceed(cfg, s, c, x))
  {
    hide Proceed;
    var s' := Proceed(cfg, s, c, x);
    CallApart(cfg, s, c, x);
    ProceedKeepsRecords(cfg, s, c, x);
    TenantsKept(s.svc.books, s.disk.executions, s'.disk.executions);
    var move := CallMove(s, c);
    if move.Some? {
      TrackUnmoved(Lease, s.svc.books.leases.Keys, s.hist.place, s.pool.workers, move.value.0, move.value.1);
      TrackUnmoved(Registration, s.svc.cancels, s.hist.place, s.pool.workers, move.value.0, move.value.1);
    }
  }

  lemma SettingsKeepLeases(s: State, t: Tenant, limits: R.Limits)
    requires R.Balanced(s.svc.books) && LeaseTenants(s.svc.books, s.disk.executions)
    requires LimitsHold(s.svc.books, s.hist.lowered)
    ensures var b := R.SetLimits(s.svc.books, t, limits, s.now);
            && R.Balanced(b) && b.leases == s.svc.books.leases && LeaseTenants(b, s.disk.executions)
            && LimitsHold(b, if Lowers(s, t, limits) then s.hist.lowered + {t} else s.hist.lowered)
    ensures var b := R.Read(s.svc.books, t, s.now);
            R.Balanced(b) && b.leases == s.svc.books.leases && LeaseTenants(b, s.disk.executions) &&
              LimitsHold(b, s.hist.lowered)
  {
    R.SettingsBalance(s.svc.books, t, limits, s.now);
  }

  lemma BootLeases(cfg: Config, disk: S.Disk, now: Nanos, past: Past)
    ensures LeasesOk(Boot(cfg, disk, now, past))
  {
    R.NewBooksBalance(cfg.maxConcurrent, cfg.maxCpu, cfg.maxPages);
  }

  lemma StepKeepsLeases(cfg: Config, s: State, a: Action)
    requires InCustody(s) && RecordsOk(cfg, s) && LeasesOk(s) && Enabled(cfg, s, a)
    ensures LeasesOk(Next(cfg, s, a))
  {
    hide Work, Proceed, Boot;
    match a
    case DoWork(w, input) => WorkKeepsLeases(cfg, s, w, input);
    case Continue(c, x) => ProceedKeepsLeases(cfg, s, c, x);
    case SetQuota(t, limits) => SettingsKeepLeases(s, t, limits);
    case ReadQuota(t) => SettingsKeepLeases(s, t, R.Limits(0, 0, 0));
    case Restart => BootLeases(cfg, s.disk, s.now, s.hist.past);
    case _ =>
  }

  /** Over any run, whatever the interleaving, crashes included. */
  lemma {:induction false} RunsKeepLeases(cfg: Config, s: State, run: seq<Action>)
    requires InCustody(s) && RecordsOk(cfg, s) && LeasesOk(s) && Possible(cfg, s, run)
    ensures LeasesOk(Exec(cfg, s, run))
    decreases run
  {
    hide Next;
    if run != [] {
      StepKeepsCustody(cfg, s, run[0]);
      StepKeepsRecords(cfg, s, run[0]);
      StepKeepsLeases(cfg, s, run[0]);
      RunsKeepLeases(cfg, Next(cfg, s, run[0]), run[1..]);
    }
  }

  /** Spelled out: the leases, the registrations and the counts are those of the workers inside
      Run's leased part. */
  lemma LeasesAreWorkers(s: State)
    requires InCustody(s) && LeasesOk(s)
    ensures forall id :: id in s.svc.books.leases <==>
            exists w: nat :: HeldBy(s, id, w) && Inside(Lease, WorkerAt(s, w))
    ensures forall id :: id in s.svc.cancels <==>
            exists w: nat :: HeldBy(s, id, w) && Inside(Registration, WorkerAt(s, w))
    ensures forall t :: R.ActiveOf(s.svc.books, t) == |R.LeasesOf(s.svc.books, t)|
    ensures forall t :: t !in s.hist.lowered && t in s.svc.books.quotas ==>
              s.svc.books.quotas[t].active <= s.svc.books.quotas[t].limits.concurrent
  {
    forall id
      ensures id in s.svc.books.leases <==> exists w: nat :: HeldBy(s, id, w) && Inside(Lease, s.pool.workers[w])
      ensures id in s.svc.cancels <==> exists w: nat :: HeldBy(s, id, w) && Inside(Registration, s.pool.workers[w])
    {
      if id in s.hist.place && s.hist.place[id].Held? {
        assert HeldBy(s, id, s.hist.place[id].worker);
      }
      forall w: nat | HeldBy(s, id, w) ensures At(s.hist.place, id, Held(w)) {
      }
    }
  }
}
