/** Idempotent submission: at most one execution per tenant and key, whatever else runs. */
module Idempotency {
  import opened Common
  import opened Executions
  import opened ControlPlane
  import opened Records
  import S = Stores

  type Claim = (Tenant, string)

  function ClaimOf(req: Request): Claim {
    (req.tenantId, req.key)
  }

  /** The tenant and key each execution was submitted under. */
  function Claims(asked: map<Id, Request>): map<Id, Claim> {
    map id | id in asked :: ClaimOf(asked[id])
  }

  /** The tenant and key a call has looked up in vain and not yet created an execution under. */
  function Asked(step: CallStep): Option<Claim> {
    match step
    case Asking(req) => Some(ClaimOf(req))
    case Creating(_, req) => Some(ClaimOf(req))
    case _ => None
  }

  /** The same, up to storing the idempotency entry. */
  function Claimed(step: CallStep): Option<Claim> {
    match step
    case Saving(e, key, _) => Some((e.ticket.tenantId, key))
    case _ => Asked(step)
  }

  predicate Saves(calls: map<nat, Call>, c: nat, id: Id) {
    c in calls && calls[c].step.Saving? && calls[c].step.e.ticket.id == id
  }

  // ---- What is assumed of the submissions ----

  predicate ClaimedByOther(calls: map<nat, Call>, c: nat, claim: Claim) {
    exists d :: d in calls && d != c && Claimed(calls[d].step) == Some(claim)
  }

  /** Tenants have no colon; no lookup overlaps another submission under the same tenant and key;
      and no context ends, and no crash comes, between creating an execution and storing its
      entry. */
  ghost predicate Orderly(s: State, a: Action) {
    match a
    case Begin(_, step) => step.Finding? ==> S.ColonFree(step.req.tenantId)
    case Continue(c, _) =>
      c in s.calls && s.calls[c].step.Finding? && s.calls[c].step.req.key != "" ==>
        !ClaimedByOther(s.calls, c, (s.calls[c].step.req.tenantId, s.calls[c].step.req.key))
    case Abandon(c) => c in s.calls ==> !s.calls[c].step.Saving?
    case Restart => forall c :: c in s.calls ==> !s.calls[c].step.Saving?
    case _ => true
  }

  // ---- The invariant ----

  /** Every execution was submitted under one tenant and key, the tenant that owns it. */
  ghost predicate Owned(executions: map<Id, Execution>, keys: map<Id, Claim>) {
    && keys.Keys == executions.Keys
    && forall id :: id in keys ==> keys[id].0 == executions[id].ticket.tenantId && S.ColonFree(keys[id].0)
  }

  ghost predicate Unique(keys: map<Id, Claim>) {
    forall i, j :: i in keys && j in keys && keys[i] == keys[j] && keys[i].1 != "" ==> i == j
  }

  /** Every entry is that of an existing execution's own tenant and key. */
  ghost predicate EntriesOwn(entries: map<string, Id>, keys: map<Id, Claim>) {
    forall k :: k in entries ==>
      entries[k] in keys && keys[entries[k]].1 != "" && S.EntryKey(keys[entries[k]].0, keys[entries[k]].1) == k
  }

  predicate Entered(entries: map<string, Id>, claim: Claim, id: Id) {
    S.EntryKey(claim.0, claim.1) in entries && entries[S.EntryKey(claim.0, claim.1)] == id
  }

  /** Every execution with a key has its entry, or the call that created it is about to store it. */
  ghost predicate KeysEntered(entries: map<string, Id>, keys: map<Id, Claim>, calls: map<nat, Call>) {
    forall id :: id in keys && keys[id].1 != "" ==>
      Entered(entries, keys[id], id) || exists c: nat :: Saves(calls, c, id)
  }

  predicate Fresh(keys: map<Id, Claim>, claim: Claim) {
    forall id :: id in keys ==> keys[id] != claim
  }

  predicate CallClaims(keys: map<Id, Claim>, call: Call) {
    && (call.step.Finding? ==> S.ColonFree(call.step.req.tenantId))
    && (call.step.Creating? ==> call.step.e.ticket.tenantId == call.step.req.tenantId)
    && (Claimed(call.step).Some? ==> S.ColonFree(Claimed(call.step).value.0))
    && (Asked(call.step).Some? && !call.dead && Asked(call.step).value.1 != "" ==> Fresh(keys, Asked(call.step).value))
    && (call.step.Saving? ==>
          && !call.dead && call.step.e.ticket.id in keys
          && keys[call.step.e.ticket.id] == (call.step.e.ticket.tenantId, call.step.key))
  }

  ghost predicate AllClaims(keys: map<Id, Claim>, calls: map<nat, Call>) {
    forall c :: c in calls ==> CallClaims(keys, calls[c])
  }

  ghost predicate Distinct(calls: map<nat, Call>) {
    forall c, d :: c in calls && d in calls && c != d ==>
      Claimed(calls[c].step).Some? && Claimed(calls[c].step).value.1 != "" ==>
      Claimed(calls[c].step) != Claimed(calls[d].step)
  }

  ghost predicate KeysOk(s: State) {
    && Owned(s.disk.executions, Claims(s.hist.past.asked))
    && Unique(Claims(s.hist.past.asked))
    && EntriesOwn(s.disk.idempotency, Claims(s.hist.past.asked))
    && KeysEntered(s.disk.idempotency, Claims(s.hist.past.asked), s.calls)
    && AllClaims(Claims(s.hist.past.asked), s.calls)
    && Distinct(s.calls)
  }

  // ---- Steps that create nothing and store no entry ----

  lemma OwnedOn(before: map<Id, Execution>, after: map<Id, Execution>, keys: map<Id, Claim>)
    requires Owned(before, keys) && RequestsKept(before, after) && before.Keys == after.Keys
    ensures Owned(after, keys)
  {
    forall id | id in keys ensures keys[id].0 == after[id].ticket.tenantId {
      assert SameRequest(before[id], after[id]);
    }
  }

  /** One call moves on without creating anything or leaving the saving step. */
  lemma CallMovesOn(entries: map<string, Id>, keys: map<Id, Claim>, calls: map<nat, Call>, c: nat, call: Call)
    requires KeysEntered(entries, keys, calls) && AllClaims(keys, calls) && Distinct(calls)
    requires CallClaims(keys, call) && !call.step.Saving? && (c in calls ==> !calls[c].step.Saving?)
    requires Claimed(call.step) == None || (c in calls && Claimed(call.step) == Claimed(calls[c].step)) ||
             (Claimed(call.step).value.1 != "" ==> !ClaimedByOther(calls, c, Claimed(call.step).value))
    ensures KeysEntered(entries, keys, calls[c := call]) && AllClaims(keys, calls[c := call])
    ensures Distinct(calls[c := call])
  {
    var calls' := calls[c := call];
    forall id | id in keys && keys[id].1 != ""
      ensures Entered(entries, keys[id], id) || exists d: nat :: Saves(calls', d, id)
    {
      if !Entered(entries, keys[id], id) {
        var d: nat :| Saves(calls, d, id);
        assert Saves(calls', d, id);
      }
    }
    forall d | d in calls' ensures CallClaims(keys, calls'[d]) {
      if d != c { assert CallClaims(keys, calls[d]); }
    }
  }

  /** The steps of a call other than creating an execution and storing its entry. */
  predicate Passing(s: State, c: nat) {
    match CallAt(s, c).step
    case Creating(e, _) => CallAt(s, c).dead || e.ticket.id in s.disk.executions
    case Saving(_, _, _) => false
    case _ => true
  }

  lemma LookupFindsAll(s: State, req: Request)
    requires KeysOk(s) && req.key != "" && S.ColonFree(req.tenantId)
    requires S.Lookup(s.disk, req.tenantId, req.key) == None
    requires forall c: nat :: c in s.calls ==> Claimed(CallAt(s, c).step) != Some((req.tenantId, req.key))
    ensures Fresh(Claims(s.hist.past.asked), (req.tenantId, req.key))
  {
    forall id | id in Claims(s.hist.past.asked) ensures Claims(s.hist.past.asked)[id] != (req.tenantId, req.key) {
      forall c: nat ensures Saves(s.calls, c, id) ==> Claimed(s.calls[c].step) == Some(Claims(s.hist.past.asked)[id]) {
        if Saves(s.calls, c, id) { assert CallClaims(Claims(s.hist.past.asked), s.calls[c]); }
      }
    }
  }

  /** What a call's next step may claim. */
  ghost predicate ClaimsOn(s: State, c: nat, step: CallStep) {
    && CallClaims(Claims(s.hist.past.asked), CallAt(s, c).(step := step)) && !step.Saving?
    && (Claimed(step) == None || Claimed(step) == Claimed(CallAt(s, c).step) ||
        (Claimed(step).value.1 != "" ==> !ClaimedByOther(s.calls, c, Claimed(step).value)))
  }

  lemma FindClaims(s: State, c: nat, x: Id)
    requires KeysOk(s) && c in s.calls && CallAt(s, c).step.Finding? && Orderly(s, Continue(c, x))
    ensures ClaimsOn(s, c, FindStep(s, CallAt(s, c).step.req, CallAt(s, c).dead))
  {
    var req := s.calls[c].step.req;
    assert CallClaims(Claims(s.hist.past.asked), s.calls[c]);
    if req.key != "" && !s.calls[c].dead && S.Lookup(s.disk, req.tenantId, req.key) == None {
      forall d: nat | d in s.calls ensures Claimed(s.calls[d].step) != Some((req.tenantId, req.key)) {
      }
      LookupFindsAll(s, req);
    }
  }

  lemma AskClaims(cfg: Config, s: State, c: nat, x: Id)
    requires c in s.calls && CallAt(s, c).step.Asking? && CallClaims(Claims(s.hist.past.asked), CallAt(s, c))
    ensures ClaimsOn(s, c, AskStep(cfg, s, CallAt(s, c).step.req, CallAt(s, c).dead, x))
  {
  }

  lemma SubmitClaims(cfg: Config, s: State, c: nat, x: Id)
    requires c in s.calls && Passing(s, c) && MidSubmit(CallAt(s, c).step) && !CallAt(s, c).step.Asking?
    ensures Claimed(Proceed(cfg, s, c, x).calls[c].step) == None && !Proceed(cfg, s, c, x).calls[c].step.Finding?
  {
  }

  lemma CancelClaims(cfg: Config, s: State, c: nat, x: Id)
    requires c in s.calls && !MidSubmit(CallAt(s, c).step) && !CallAt(s, c).step.Finding?
    ensures Claimed(Proceed(cfg, s, c, x).calls[c].step) == None && !Proceed(cfg, s, c, x).calls[c].step.Finding?
  {
  }

  lemma PassingClaims(cfg: Config, s: State, c: nat, x: Id)
    requires KeysOk(s) && c in s.calls && Passing(s, c) && Orderly(s, Continue(c, x))
    ensures ClaimsOn(s, c, Proceed(cfg, s, c, x).calls[c].step)
  {
    assert CallClaims(Claims(s.hist.past.asked), s.calls[c]);
    var step := s.calls[c].step;
    if step.Finding? { FindClaims(s, c, x); }
    else if step.Asking? { AskClaims(cfg, s, c, x); }
    else if MidSubmit(step) { SubmitClaims(cfg, s, c, x); }
    else { CancelClaims(cfg, s, c, x); }
  }

  lemma PassingKeeps(cfg: Config, s: State, c: nat, x: Id)
    requires RecordsOk(cfg, s) && KeysOk(s) && c in s.calls && Passing(s, c) && Orderly(s, Continue(c, x))
    ensures KeysOk(Proceed(cfg, s, c, x))
  {
    hide Proceed;
    var s' := Proceed(cfg, s, c, x);
    PassingClaims(cfg, s, c, x);
    if s.calls[c].step.Finding? || MidSubmit(s.calls[c].step) {
      SubmitPasses(cfg, s, c, x);
    } else {
      CancelPasses(cfg, s, c, x);
    }
    ProceedKeepsRecords(cfg, s, c, x);
    OwnedOn(s.disk.executions, s'.disk.executions, Claims(s.hist.past.asked));
    CallMovesOn(s.disk.idempotency, Claims(s.hist.past.asked), s.calls, c, s'.calls[c]);
  }

  ghost predicate SameKeys(s: State, s': State, c: nat) {
    && Claims(s'.hist.past.asked) == Claims(s.hist.past.asked) && s'.disk.idempotency == s.disk.idempotency
    && s'.disk.executions.Keys == s.disk.executions.Keys
    && c in s'.calls && s'.calls == s.calls[c := CallAt(s, c).(step := s'.calls[c].step)]
  }

  lemma SubmitPasses(cfg: Config, s: State, c: nat, x: Id)
    requires c in s.calls && Passing(s, c) && (CallAt(s, c).step.Finding? || MidSubmit(CallAt(s, c).step))
    ensures SameKeys(s, Proceed(cfg, s, c, x), c)
  {
  }

  lemma CancelPasses(cfg: Config, s: State, c: nat, x: Id)
    requires c in s.calls && !(CallAt(s, c).step.Finding? || MidSubmit(CallAt(s, c).step))
    ensures SameKeys(s, Proceed(cfg, s, c, x), c)
  {
  }

  // ---- Creating an execution, and storing its entry ----

  lemma CreateKeepsKeys(s: State, c: nat, e: Execution, req: Request)
    requires KeysOk(s) && c in s.calls && CallAt(s, c).step == Creating(e, req)
    requires !CallAt(s, c).dead && e.ticket.id !in s.disk.executions
    ensures KeysOk(CreateTurn(s, c, e, req))
  {
    var claims := Claims(s.hist.past.asked);
    assert CallClaims(claims, s.calls[c]);
    assert Claims(s.hist.past.asked[e.ticket.id := req]) == claims[e.ticket.id := ClaimOf(req)];
    EntriesAfterCreate(s.disk.idempotency, claims, s.calls, c, e, req);
    ClaimsAfterCreate(claims, s.calls, c, e, req);
    UniqueAfterCreate(s.disk.executions, claims, e, req.key);
  }

  lemma UniqueAfterCreate(executions: map<Id, Execution>, keys: map<Id, Claim>, e: Execution, key: string)
    requires Owned(executions, keys) && Unique(keys) && e.ticket.id !in keys && S.ColonFree(e.ticket.tenantId)
    requires key != "" ==> Fresh(keys, (e.ticket.tenantId, key))
    ensures Unique(keys[e.ticket.id := (e.ticket.tenantId, key)])
    ensures Owned(executions[e.ticket.id := e], keys[e.ticket.id := (e.ticket.tenantId, key)])
  {
  }

  lemma EntriesAfterCreate(entries: map<string, Id>, keys: map<Id, Claim>, calls: map<nat, Call>, c: nat, e: Execution,
      req: Request)
    requires KeysEntered(entries, keys, calls) && EntriesOwn(entries, keys) && Distinct(calls)
    requires c in calls && calls[c] == Call(Creating(e, req), false) && e.ticket.id !in keys
    requires e.ticket.tenantId == req.tenantId
    ensures var keys', calls' := keys[e.ticket.id := ClaimOf(req)],
            calls[c := Call(Saving(e, req.key, req.payload), false)];
            KeysEntered(entries, keys', calls') && EntriesOwn(entries, keys') && Distinct(calls')
  {
    var keys', calls' := keys[e.ticket.id := ClaimOf(req)], calls[c := Call(Saving(e, req.key, req.payload), false)];
    assert Saves(calls', c, e.ticket.id);
    forall id | id in keys' && keys'[id].1 != ""
      ensures Entered(entries, keys'[id], id) || exists d: nat :: Saves(calls', d, id)
    {
      if id != e.ticket.id && !Entered(entries, keys[id], id) {
        var d: nat :| Saves(calls, d, id);
        assert Saves(calls', d, id);
      }
    }
  }

  lemma ClaimsAfterCreate(keys: map<Id, Claim>, calls: map<nat, Call>, c: nat, e: Execution, req: Request)
    requires AllClaims(keys, calls) && Distinct(calls) && c in calls && calls[c] == Call(Creating(e, req), false)
    requires e.ticket.id !in keys
    requires e.ticket.tenantId == req.tenantId
    ensures AllClaims(keys[e.ticket.id := ClaimOf(req)], calls[c := Call(Saving(e, req.key, req.payload), false)])
  {
    var keys', calls' := keys[e.ticket.id := ClaimOf(req)], calls[c := Call(Saving(e, req.key, req.payload), false)];
    assert Claimed(calls[c].step) == Some(ClaimOf(req));
    assert CallClaims(keys, calls[c]);
    forall d | d in calls' ensures CallClaims(keys', calls'[d]) {
      if d != c { assert CallClaims(keys, calls[d]); }
    }
  }

  /** The call that saved an entry moves on, and every other execution has what it had. */
  lemma SaveEnters(entries: map<string, Id>, keys: map<Id, Claim>, calls: map<nat, Call>, c: nat, e: Execution,
      key: string, payload: Bytes)
    requires KeysEntered(entries, keys, calls) && Unique(keys) && c in calls && calls[c].step == Saving(e, key, payload)
    requires forall id :: id in keys ==> S.ColonFree(keys[id].0)
    requires e.ticket.id in keys && keys[e.ticket.id] == (e.ticket.tenantId, key) && key != ""
    ensures KeysEntered(entries[S.EntryKey(e.ticket.tenantId, key) := e.ticket.id], keys,
                        calls[c := calls[c].(step := Putting(e, payload))])
  {
    var entries' := entries[S.EntryKey(e.ticket.tenantId, key) := e.ticket.id];
    var calls' := calls[c := calls[c].(step := Putting(e, payload))];
    forall id | id in keys && keys[id].1 != ""
      ensures Entered(entries', keys[id], id) || exists d: nat :: Saves(calls', d, id)
    {
      if keys[id] == (e.ticket.tenantId, key) {
        assert id == e.ticket.id;
      } else {
        EntryApart(keys[id], (e.ticket.tenantId, key));
        if !Entered(entries, keys[id], id) {
          var d: nat :| Saves(calls, d, id);
          assert Saves(calls', d, id);
        }
      }
    }
  }

  /** Without a key nothing is saved, and nothing was waited for. */
  lemma NothingSaved(entries: map<string, Id>, keys: map<Id, Claim>, calls: map<nat, Call>, c: nat, e: Execution,
      payload: Bytes)
    requires KeysEntered(entries, keys, calls) && c in calls && calls[c].step == Saving(e, "", payload)
    requires e.ticket.id in keys && keys[e.ticket.id].1 == ""
    ensures KeysEntered(entries, keys, calls[c := calls[c].(step := Putting(e, payload))])
  {
    var calls' := calls[c := calls[c].(step := Putting(e, payload))];
    forall id | id in keys && keys[id].1 != ""
      ensures Entered(entries, keys[id], id) || exists d: nat :: Saves(calls', d, id)
    {
      if !Entered(entries, keys[id], id) {
        var d: nat :| Saves(calls, d, id);
        assert Saves(calls', d, id);
      }
    }
  }

  lemma SavedClaims(keys: map<Id, Claim>, calls: map<nat, Call>, c: nat, e: Execution, payload: Bytes)
    requires AllClaims(keys, calls) && Distinct(calls) && c in calls && calls[c].step.Saving?
    ensures AllClaims(keys, calls[c := calls[c].(step := Putting(e, payload))])
    ensures Distinct(calls[c := calls[c].(step := Putting(e, payload))])
  {
    var calls' := calls[c := calls[c].(step := Putting(e, payload))];
    forall d | d in calls' ensures CallClaims(keys, calls'[d]) {
      if d != c { assert CallClaims(keys, calls[d]); }
    }
  }

  lemma SaveKeepsKeys(s: State, c: nat, e: Execution, key: string, payload: Bytes)
    requires KeysOk(s) && c in s.calls && CallAt(s, c).step == Saving(e, key, payload)
    ensures KeysOk(SetStep(s, c, Putting(e, payload)).(
                     disk := S.SaveEntry(s.disk, e.ticket.tenantId, key, e.ticket.id)))
  {
    var keys := Claims(s.hist.past.asked);
    assert CallClaims(keys, s.calls[c]);
    SavedClaims(keys, s.calls, c, e, payload);
    if key == "" {
      NothingSaved(s.disk.idempotency, keys, s.calls, c, e, payload);
    } else {
      SaveEnters(s.disk.idempotency, keys, s.calls, c, e, key, payload);
    }
  }

  lemma EntryApart(a: Claim, b: Claim)
    requires S.ColonFree(a.0) && S.ColonFree(b.0) && a != b
    ensures S.EntryKey(a.0, a.1) != S.EntryKey(b.0, b.1)
  {
    if S.EntryKey(a.0, a.1) == S.EntryKey(b.0, b.1) { S.ColonFreeEntriesDiffer(a.0, a.1, b.0, b.1); }
  }

  lemma ProceedKeepsKeys(cfg: Config, s: State, c: nat, x: Id)
    requires RecordsOk(cfg, s) && KeysOk(s) && c in s.calls && Orderly(s, Continue(c, x))
    ensures KeysOk(Proceed(cfg, s, c, x))
  {
    if Passing(s, c) {
      PassingKeeps(cfg, s, c, x);
    } else {
      assert CallClaims(Claims(s.hist.past.asked), s.calls[c]);
      match s.calls[c].step {
        case Creating(e, req) => CreateKeepsKeys(s, c, e, req);
        case Saving(e, key, payload) => SaveKeepsKeys(s, c, e, key, payload);
      }
    }
  }

  // ---- Runs ----

  lemma NoneSaving(entries: map<string, Id>, keys: map<Id, Claim>, calls: map<nat, Call>)
    requires KeysEntered(entries, keys, calls) && forall c :: c in calls ==> !calls[c].step.Saving?
    ensures KeysEntered(entries, keys, map[])
  {
    forall id | id in keys && keys[id].1 != "" ensures Entered(entries, keys[id], id) {
      forall c: nat ensures !Saves(calls, c, id) {
      }
    }
  }

  lemma BootKeepsKeys(cfg: Config, s: State)
    requires KeysOk(s) && forall c :: c in s.calls ==> !s.calls[c].step.Saving?
    ensures KeysOk(Boot(cfg, s.disk, s.now, s.hist.past))
  {
    S.RecoveryIsClean(s.disk.executions);
    NoneSaving(s.disk.idempotency, Claims(s.hist.past.asked), s.calls);
  }

  lemma QuietLeaves(cfg: Config, s: State, a: Action)
    requires Enabled(cfg, s, a) && !a.Begin? && !a.Continue? && !a.Abandon? && !a.Restart?
    ensures var s' := Next(cfg, s, a);
            && s'.hist.past.asked == s.hist.past.asked && s'.disk.idempotency == s.disk.idempotency
            && s'.calls == s.calls && s'.disk.executions.Keys == s.disk.executions.Keys
  {
    hide TurnOf, Proceed, Enabled, Boot;
  }

  lemma QuietKeepsKeys(cfg: Config, s: State, a: Action)
    requires KeysOk(s) && RecordsOk(cfg, s) && Enabled(cfg, s, a) && Orderly(s, a)
    requires !a.Begin? && !a.Continue? && !a.Abandon? && !a.Restart?
    ensures KeysOk(Next(cfg, s, a))
  {
    hide Next;
    var s' := Next(cfg, s, a);
    StepKeepsRecords(cfg, s, a);
    QuietLeaves(cfg, s, a);
    OwnedOn(s.disk.executions, s'.disk.executions, Claims(s.hist.past.asked));
  }

  lemma StepKeepsKeys(cfg: Config, s: State, a: Action)
    requires KeysOk(s) && RecordsOk(cfg, s) && Enabled(cfg, s, a) && Orderly(s, a)
    ensures KeysOk(Next(cfg, s, a))
  {
    match a
    case Begin(c, step) => CallMovesOn(s.disk.idempotency, Claims(s.hist.past.asked), s.calls, c, Call(step, false));
    case Continue(c, x) => ProceedKeepsKeys(cfg, s, c, x);
    case Abandon(c) =>
      assert CallClaims(Claims(s.hist.past.asked), s.calls[c]);
      CallMovesOn(s.disk.idempotency, Claims(s.hist.past.asked), s.calls, c, s.calls[c].(dead := true));
    case Restart => BootKeepsKeys(cfg, s);
    case _ => QuietKeepsKeys(cfg, s, a);
  }

  ghost predicate OrderlyRun(cfg: Config, s: State, run: seq<Action>)
    decreases run
  {
    run != [] ==> Enabled(cfg, s, run[0]) && Orderly(s, run[0]) && OrderlyRun(cfg, Next(cfg, s, run[0]), run[1..])
  }

  /** Over any such run, restarts included. */
  lemma {:induction false} RunsKeepKeys(cfg: Config, s: State, run: seq<Action>)
    requires KeysOk(s) && RecordsOk(cfg, s) && Possible(cfg, s, run) && OrderlyRun(cfg, s, run)
    ensures KeysOk(Exec(cfg, s, run)) && RecordsOk(cfg, Exec(cfg, s, run))
    decreases run
  {
    hide Next;
    if run != [] {
      StepKeepsRecords(cfg, s, run[0]);
      StepKeepsKeys(cfg, s, run[0]);
      RunsKeepKeys(cfg, Next(cfg, s, run[0]), run[1..]);
    }
  }

  /** The service that starts on an empty store. */
  lemma EmptyStoreIsOk(cfg: Config, now: Nanos)
    ensures KeysOk(Boot(cfg, S.EMPTY_DISK, now, NO_PAST)) && RecordsOk(cfg, Boot(cfg, S.EMPTY_DISK, now, NO_PAST))
  {
  }

  /** At most one execution per tenant and non-empty key, in every later state of the service. */
  lemma AtMostOneExecution(cfg: Config, now: Nanos, run: seq<Action>, i: Id, j: Id)
    requires var first := Boot(cfg, S.EMPTY_DISK, now, NO_PAST);
             Possible(cfg, first, run) && OrderlyRun(cfg, first, run)
    requires var asked := Exec(cfg, Boot(cfg, S.EMPTY_DISK, now, NO_PAST), run).hist.past.asked;
             i in asked && j in asked && ClaimOf(asked[i]) == ClaimOf(asked[j]) && asked[i].key != ""
    ensures i == j
  {
    hide Next, Enabled, Boot;
    EmptyStoreIsOk(cfg, now);
    RunsKeepKeys(cfg, Boot(cfg, S.EMPTY_DISK, now, NO_PAST), run);
    var claims := Claims(Exec(cfg, Boot(cfg, S.EMPTY_DISK, now, NO_PAST), run).hist.past.asked);
    assert claims[i] == claims[j];
  }

  /** Submitting again under the same tenant and key answers with that execution's record as it
      is stored now, and creates nothing. */
  lemma ResubmissionAnswers(s: State, req: Request, id: Id)
    requires KeysOk(s) && id in s.hist.past.asked && ClaimOf(s.hist.past.asked[id]) == ClaimOf(req)
    requires req.tenantId != "" && req.moduleId != "" && req.key != ""
    requires forall c: nat :: !Saves(s.calls, c, id)
    ensures id in s.disk.executions && s.disk.executions[id].ticket.tenantId == req.tenantId
    ensures FindStep(s, req, false) == Answered(Some(s.disk.executions[id]), NoFault)
  {
    assert Claims(s.hist.past.asked)[id] == ClaimOf(req);
    assert Entered(s.disk.idempotency, Claims(s.hist.past.asked)[id], id);
  }

  /** Every entry points to an existing execution, and what a lookup finds for a tenant without a
      colon is that tenant's own. */
  lemma EntriesPointToTheirOwn(s: State, t: Tenant, key: string)
    requires KeysOk(s) && S.ColonFree(t)
    ensures forall k :: k in s.disk.idempotency ==> s.disk.idempotency[k] in s.disk.executions
    ensures S.Lookup(s.disk, t, key).Some? ==> S.Lookup(s.disk, t, key).value.ticket.tenantId == t
  {
    if S.EntryKey(t, key) in s.disk.idempotency {
      var claim := Claims(s.hist.past.asked)[s.disk.idempotency[S.EntryKey(t, key)]];
      S.ColonFreeEntriesDiffer(claim.0, claim.1, t, key);
    }
  }

  /** Without that, it may be another's: the entry of any tenant whose name has a colon answers
      the shorter tenant before the colon. */
  lemma ColonTenantAnswersAnother(d: S.Disk, e: Execution, a: Tenant, b: string, key: string)
    requires e.ticket.tenantId == a + ":" + b && key != ""
    ensures var d' := S.SaveEntry(d.(executions := d.executions[e.ticket.id := e]), e.ticket.tenantId, key,
                                  e.ticket.id);
            S.Lookup(d', a, b + ":" + key) == Some(e) && e.ticket.tenantId != a
  {
    S.ColonTenantCollides(a, b, key);
  }
}
