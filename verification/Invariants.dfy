/** Everything that holds in every state of the service, taken together. */
module Invariants {
  import opened Common
  import opened Simulation
  import opened ControlPlane
  import opened Reachability
  import opened Custody
  import opened Records
  import opened Leases
  import opened Recovery
  import opened Ledger
  import opened Wakeup
  import opened Progress
  import opened Transparency
  import opened Outputs
  import opened Orphans
  import opened Verdicts
  import I = Idempotency
  import M = Modules
  import S = Stores

  /** Custody, records, leases and registrations; workers behind running records; deadlines; the
      wake-ups; the meter's and the quotas' books; the cache; what outputs and failures are owed
      to; how executions end, and what is behind the ends on a context that was done. */
  ghost predicate Sound(cfg: Config, s: State) {
    && InCustody(s) && RecordsOk(cfg, s) && LeasesOk(s)
    && RunningHeld(s.disk.executions, s.hist.place, s.pool.workers)
    && TimesOk(s) && NoLostWakeup(s)
    && FreshRecords(s) && Balance(s)
    && CacheOk(cfg, s, false) && OutputsOk(cfg, s)
    && EndsOk(s) && EndsExplained(s)
  }

  lemma StepKeepsSound(cfg: Config, s: State, a: Action)
    requires Sound(cfg, s) && CollisionFree(cfg.lib) && Enabled(cfg, s, a)
    ensures Sound(cfg, Next(cfg, s, a))
  {
    hide Next;
    StepKeepsCustody(cfg, s, a);
    StepKeepsRecords(cfg, s, a);
    StepKeepsLeases(cfg, s, a);
    StepKeepsRunning(cfg, s, a);
    StepKeepsTimes(cfg, s, a);
    StepKeepsWakeup(cfg, s, a);
    StepKeepsLedger(cfg, s, a);
    StepKeepsCache(cfg, s, false, a);
    StepKeepsOutputs(cfg, s, a);
    StepKeepsEnds(cfg, s, a);
    StepKeepsExplained(cfg, s, a);
  }

  /** For every interleaving, crashes included. */
  lemma {:induction false} RunsKeepSound(cfg: Config, s: State, run: seq<Action>)
    requires Sound(cfg, s) && CollisionFree(cfg.lib) && Possible(cfg, s, run)
    ensures Sound(cfg, Exec(cfg, s, run))
    decreases run
  {
    hide Next, Enabled, Sound;
    if run != [] {
      StepKeepsSound(cfg, s, run[0]);
      RunsKeepSound(cfg, Next(cfg, s, run[0]), run[1..]);
    }
  }

  lemma ReachedIsSound(cfg: Config, s: State, s': State)
    requires Sound(cfg, s) && CollisionFree(cfg.lib) && Reaches(cfg, s, s')
    ensures Sound(cfg, s')
  {
    hide Next, Enabled, Sound;
    var run :| RunsTo(cfg, s, run, s');
    RunsKeepSound(cfg, s, run);
  }

  /** What the store must be for a service started on it to be sound. */
  ghost predicate StoreSound(cfg: Config, disk: S.Disk, past: Past) {
    && StoreOk(cfg, disk.executions) && M.Coherent(cfg.lib, disk.shelf)
    && RecordsAccounted(cfg, disk.shelf, past, disk.executions) && RecordsExplained(past, disk.executions)
  }

  lemma BootRuns(cfg: Config, disk: S.Disk, now: Nanos, past: Past)
    requires StoreOk(cfg, disk.executions)
    ensures var s := Boot(cfg, disk, now, past);
            && InCustody(s) && RecordsOk(cfg, s) && LeasesOk(s)
            && RunningHeld(s.disk.executions, s.hist.place, s.pool.workers)
            && TimesOk(s) && NoLostWakeup(s)
  {
    S.RecoveryIsClean(disk.executions);
    BootCustody(cfg, disk, now, past);
    BootRecords(cfg, disk, now, past);
    BootLeases(cfg, disk, now, past);
    BootWakeup(cfg, disk, now, past);
  }

  lemma BootCaches(cfg: Config, disk: S.Disk, now: Nanos, past: Past, all: bool)
    requires M.Coherent(cfg.lib, disk.shelf)
    ensures CacheOk(cfg, Boot(cfg, disk, now, past), all)
  {
  }

  lemma BootIsSound(cfg: Config, disk: S.Disk, now: Nanos, past: Past)
    requires StoreSound(cfg, disk, past)
    ensures Sound(cfg, Boot(cfg, disk, now, past))
  {
    BootRuns(cfg, disk, now, past);
    BootCaches(cfg, disk, now, past, false);
    BootLedger(cfg, disk, now, past);
    BootEnds(cfg, disk, now, past);
    BootOutputs(cfg, disk, now, past);
    BootKeepsExplained(cfg, disk, now, past);
  }

  lemma EmptyStoreIsSound(cfg: Config, now: Nanos)
    ensures Sound(cfg, Boot(cfg, S.EMPTY_DISK, now, NO_PAST)) && I.KeysOk(Boot(cfg, S.EMPTY_DISK, now, NO_PAST))
  {
    BootIsSound(cfg, S.EMPTY_DISK, now, NO_PAST);
    I.EmptyStoreIsOk(cfg, now);
  }

  /** A crash at any step, in the middle of whatever workers and calls were doing: the restarted
      service has all of this again, from the store alone, with a cache that holds no failure of
      anything that compiles. */
  lemma CrashRestores(cfg: Config, s: State)
    requires StoreSound(cfg, s.disk, s.hist.past)
    ensures var s' := Boot(cfg, s.disk, s.now, s.hist.past);
            Next(cfg, s, Restart) == s' && Sound(cfg, s') && CacheOk(cfg, s', true)
  {
    hide Work, Proceed, Sound;
    BootIsSound(cfg, s.disk, s.now, s.hist.past);
    BootCaches(cfg, s.disk, s.now, s.hist.past, true);
  }

  /** And the keys are unique and entered, unless a call was about to enter its key. */
  lemma CrashRestoresKeys(cfg: Config, s: State)
    requires I.KeysOk(s) && forall c :: c in s.calls ==> !s.calls[c].step.Saving?
    ensures var s' := Boot(cfg, s.disk, s.now, s.hist.past); Next(cfg, s, Restart) == s' && I.KeysOk(s')
  {
    hide Work, Proceed;
    I.BootKeepsKeys(cfg, s);
  }

  /** A sound state with its store is what CrashRestores asks for. */
  lemma SoundStores(cfg: Config, s: State)
    requires Sound(cfg, s)
    ensures StoreSound(cfg, s.disk, s.hist.past)
  {
  }

  // ---- Calls that are over ----

  /** The calls but for one that holds nothing. */
  function Without(s: State, c: nat): State {
    s.(calls := s.calls - {c})
  }

  lemma OverInCustody(s: State, c: nat)
    requires InCustody(s) && c in s.calls && CallAt(s, c).step.Answered?
    ensures InCustody(Without(s, c))
  {
  }

  lemma OverOutputs(cfg: Config, s: State, c: nat)
    requires OutputsOk(cfg, s) && c in s.calls && CallAt(s, c).step.Answered?
    ensures OutputsOk(cfg, Without(s, c))
  {
    var s' := Without(s, c);
    forall id | Due(s'.hist.place, s'.pool.workers, s'.calls, id)
      ensures Due(s.hist.place, s.pool.workers, s.calls, id)
    {
    }
  }

  lemma OverEnds(s: State, c: nat)
    requires EndsOk(s) && c in s.calls && CallAt(s, c).step.Answered?
    ensures EndsOk(Without(s, c))
  {
    var s' := Without(s, c);
    forall id | Pending(s.calls, id) ensures Pending(s'.calls, id) {
      var d: nat :| d in s.calls && s.calls[d].step.Writing? && s.calls[d].step.e.ticket.id == id;
      assert d in s'.calls;
    }
    forall id ensures Ended(s, id) ==> Ended(s', id) {
    }
    forall w | 0 <= w < |s'.pool.workers| && Closing(s'.pool.workers[w]) ensures EndedFor(s', s'.pool.workers[w]) {
      assert EndedFor(s, s.pool.workers[w]);
    }
  }

  lemma OverLedger(s: State, c: nat)
    requires FreshRecords(s) && Balance(s) && c in s.calls
    ensures FreshRecords(Without(s, c)) && Balance(Without(s, c))
  {
  }

  lemma OverExplained(s: State, c: nat)
    requires EndsExplained(s) && c in s.calls
    ensures EndsExplained(Without(s, c))
  {
    hide Explained, OnTerms;
  }

  /** An answered call can be forgotten. */
  lemma AnsweredIsOver(cfg: Config, s: State, c: nat)
    requires Sound(cfg, s) && c in s.calls && CallAt(s, c).step.Answered?
    ensures Sound(cfg, Without(s, c))
  {
    OverInCustody(s, c);
    OverOutputs(cfg, s, c);
    OverEnds(s, c);
    OverLedger(s, c);
    OverExplained(s, c);
  }
}
