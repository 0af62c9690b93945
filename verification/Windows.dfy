/** What a tenant is charged, from the history of its quota alone: the CPU times reported for its
    leases since the last window opened. */
module Windows {
  import opened Common
  import R = Resources

  // ---- The history of one tenant's quota ----

  /** An operation that stores the tenant's quota, and the CPU time it reports. */
  datatype Touch = Touch(at: Nanos, cpu: nat)

  function TouchOf(r: R.Run, op: R.Op, t: Tenant): Option<Touch> {
    match op
    case Take(u, lease, _, _) =>
      if u == t && lease !in r.books.leases && lease in R.Step(r, op).books.leases then Some(Touch(r.now, 0)) else None
    case GiveBack(lease, cpu) =>
      if lease in r.books.leases && r.books.leases[lease].tenant == t then Some(Touch(r.now, cpu)) else None
    case Look(u) => if u == t then Some(Touch(r.now, 0)) else None
    case Change(u, _) => if u == t then Some(Touch(r.now, 0)) else None
    case Pass(_) => None
  }

  function Listed<T>(x: Option<T>): seq<T> {
    if x.Some? then [x.value] else []
  }

  function Touches(r: R.Run, ops: seq<R.Op>, t: Tenant): seq<Touch>
    decreases ops
  {
    if ops == [] then [] else Listed(TouchOf(r, ops[0], t)) + Touches(R.Step(r, ops[0]), ops[1..], t)
  }

  /** The limits that the tenant was last given, or else the default ones. */
  function InForce(limits: R.Limits, ops: seq<R.Op>, t: Tenant): R.Limits
    decreases ops
  {
    if ops == [] then limits
    else InForce(if ops[0].Change? && ops[0].tenant == t then ops[0].limits else limits, ops[1..], t)
  }

  // ---- Windows ----

  /** Which operation of a history opened the last window: the first one opens one, and so does each
      that comes a minute or more after the last was opened. */
  function Opened(log: seq<Touch>): (k: nat)
    ensures log != [] ==> k < |log|
  {
    if |log| <= 1 then 0 else
    var k := Opened(log[..|log| - 1]);
    if log[|log| - 1].at - log[k].at >= MINUTE then |log| - 1 else k
  }

  function CpuOf(log: seq<Touch>): nat {
    if log == [] then 0 else CpuOf(log[..|log| - 1]) + log[|log| - 1].cpu
  }

  /** All that was reported since, the operation that opened it included. */
  function Charged(log: seq<Touch>): nat {
    if log == [] then 0 else CpuOf(log[Opened(log)..])
  }

  /** What counts against the tenant at an instant: nothing once the window is a minute old. */
  function Spent(log: seq<Touch>, now: Nanos): nat {
    if log == [] || now - log[Opened(log)].at >= MINUTE then 0 else Charged(log)
  }

  /** A window is open for less than a minute's operations: all that came after the one that opened
      it came within the minute, and the one that opened it came a minute or more after the one that
      opened the window before. */
  lemma {:induction false} WindowsOpenExactly(log: seq<Touch>)
    requires log != []
    ensures forall i :: Opened(log) < i < |log| ==> log[i].at - log[Opened(log)].at < MINUTE
    ensures Opened(log) > 0 ==> log[Opened(log)].at - log[Opened(log[..Opened(log)])].at >= MINUTE
  {
    if |log| > 1 {
      var before := log[..|log| - 1];
      WindowsOpenExactly(before);
      assert Opened(log) < |log| - 1 ==> before[..Opened(log)] == log[..Opened(log)];
    }
  }

  lemma CpuOn(log: seq<Touch>, x: Touch)
    ensures CpuOf(log + [x]) == CpuOf(log) + x.cpu
  {
    assert (log + [x])[..|log + [x]| - 1] == log;
  }

  lemma OpenedOn(log: seq<Touch>, x: Touch)
    ensures Opened(log + [x]) ==
            if log != [] && x.at - log[Opened(log)].at < MINUTE then Opened(log) else |log|
  {
    var more := log + [x];
    assert more[..|more| - 1] == log;
  }

  lemma SinceOn(log: seq<Touch>, x: Touch, k: nat)
    requires k <= |log|
    ensures (log + [x])[k..] == log[k..] + [x]
  {
  }

  lemma NoCpuYet(log: seq<Touch>)
    ensures CpuOf(log[|log|..]) == 0
  {
  }

  lemma ChargedOn(log: seq<Touch>, x: Touch)
    ensures var more := log + [x];
            if log != [] && x.at - log[Opened(log)].at < MINUTE then
              Opened(more) == Opened(log) && Charged(more) == Charged(log) + x.cpu
            else Opened(more) == |log| && Charged(more) == x.cpu
  {
    hide Opened, CpuOf;
    OpenedOn(log, x);
    var k := Opened(log + [x]);
    SinceOn(log, x, k);
    CpuOn(log[k..], x);
    NoCpuYet(log);
  }

  // ---- The books against the history ----

  /** The tenant's quota is what its history says. */
  predicate Follows(b: R.Books, log: seq<Touch>, limits: R.Limits, t: Tenant) {
    if log == [] then t !in b.quotas && limits == b.fallback
    else
      && t in b.quotas && b.quotas[t].limits == limits
      && b.quotas[t].windowStarted == log[Opened(log)].at && b.quotas[t].cpuUsed == Charged(log)
  }

  /** What an operation sees of it. */
  lemma SeesHistory(b: R.Books, log: seq<Touch>, limits: R.Limits, t: Tenant, now: Nanos)
    requires Follows(b, log, limits, t)
    ensures var q := R.QuotaAt(b, t, now); q.limits == limits && q.cpuUsed == Spent(log, now)
  {
  }

  /** Each grant uses an identifier that is free. */
  ghost predicate Orderly(r: R.Run, ops: seq<R.Op>)
    decreases ops
  {
    ops != [] ==> (ops[0].Take? ==> ops[0].lease !in r.books.leases) && Orderly(R.Step(r, ops[0]), ops[1..])
  }

  function LimitsAfter(limits: R.Limits, op: R.Op, t: Tenant): R.Limits {
    if op.Change? && op.tenant == t then op.limits else limits
  }

  lemma StepFollows(r: R.Run, op: R.Op, log: seq<Touch>, limits: R.Limits, t: Tenant)
    requires Follows(r.books, log, limits, t) && (op.Take? ==> op.lease !in r.books.leases)
    ensures Follows(R.Step(r, op).books, log + Listed(TouchOf(r, op, t)), LimitsAfter(limits, op, t), t)
  {
    var touch := TouchOf(r, op, t);
    if touch.Some? {
      ChargedOn(log, touch.value);
      assert (log + [touch.value])[Opened(log + [touch.value])]
          == if Opened(log + [touch.value]) < |log| then log[Opened(log + [touch.value])] else touch.value;
    } else {
      assert log + [] == log;
    }
  }

  lemma {:induction false} RunsFollow(r: R.Run, ops: seq<R.Op>, log: seq<Touch>, limits: R.Limits, t: Tenant)
    requires Follows(r.books, log, limits, t) && Orderly(r, ops)
    ensures Follows(R.Exec(r, ops).books, log + Touches(r, ops, t), InForce(limits, ops, t), t)
    decreases ops
  {
    hide Follows, TouchOf, R.Step;
    if ops == [] {
      assert log + [] == log;
    } else {
      var touch, r' := Listed(TouchOf(r, ops[0], t)), R.Step(r, ops[0]);
      StepFollows(r, ops[0], log, limits, t);
      RunsFollow(r', ops[1..], log + touch, LimitsAfter(limits, ops[0], t), t);
      assert log + (touch + Touches(r', ops[1..], t)) == (log + touch) + Touches(r', ops[1..], t);
    }
  }

  /** Fresh books, and the clock. */
  function Fresh(c: int, cpu: Nanos, pages: nat, start: Nanos): R.Run {
    R.Run(R.NewBooks(c, cpu, pages), start, map[])
  }

  /** Over any run of operations from fresh books: a tenant's quota is stored exactly once one of its
      operations was, its CPU time used is the sum of what was reported since its window opened, the
      window is the one that its history opened last, and the limits are those it was last given. */
  lemma ChargesAreReports(c: int, cpu: Nanos, pages: nat, start: Nanos, ops: seq<R.Op>, t: Tenant)
    requires Orderly(Fresh(c, cpu, pages, start), ops)
    ensures var r := Fresh(c, cpu, pages, start); var limits := r.books.fallback;
            && Follows(R.Exec(r, ops).books, Touches(r, ops, t), InForce(limits, ops, t), t)
            && limits.cpuPerMinute == cpu && limits.memoryPages == pages
            && limits.concurrent >= 1 && (c >= 1 ==> limits.concurrent == c) && (c < 1 ==> limits.concurrent == 1)
  {
    var r := Fresh(c, cpu, pages, start);
    RunsFollow(r, ops, [], r.books.fallback, t);
    assert [] + Touches(r, ops, t) == Touches(r, ops, t);
  }

  lemma {:induction false} RunsBalance(r: R.Run, ops: seq<R.Op>)
    requires R.Balanced(r.books) && Orderly(r, ops)
    ensures R.Balanced(R.Exec(r, ops).books)
    decreases ops
  {
    if ops != [] {
      match ops[0] {
        case Take(t, lease, pages, live) => R.AcquireBalances(r.books, t, lease, pages, live, r.now);
        case GiveBack(lease, cpu) => R.ReleaseBalances(r.books, lease, cpu, r.now);
        case Look(t) => R.SettingsBalance(r.books, t, r.books.fallback, r.now);
        case Change(t, limits) => R.SettingsBalance(r.books, t, limits, r.now);
        case Pass(_) =>
      }
      RunsBalance(R.Step(r, ops[0]), ops[1..]);
    }
  }

  /** How an acquisition ends, by the leases out, the limits in force and the CPU time spent. */
  predicate Decides(held: nat, limits: R.Limits, spent: nat, pages: nat, g: R.Grant) {
    && (g == R.Denied(R.NoSlot) <==> held >= limits.concurrent)
    && (g == R.Denied(R.TooManyPages) <==> held < limits.concurrent && pages > limits.memoryPages)
    && (g == R.Denied(R.CpuSpent) <==>
          held < limits.concurrent && pages <= limits.memoryPages && spent >= limits.cpuPerMinute)
    && (g.Granted? <==> held < limits.concurrent && pages <= limits.memoryPages && spent < limits.cpuPerMinute)
  }

  /** So a tenant is denied exactly for as many leases as it may have, for more pages than it may
      have, or for CPU time reported since its window opened that reaches its limit. */
  lemma AcquiresExactly(c: int, cpu: Nanos, pages: nat, start: Nanos, ops: seq<R.Op>, t: Tenant, lease: Id, n: nat)
    requires Orderly(Fresh(c, cpu, pages, start), ops)
    ensures var r := Fresh(c, cpu, pages, start); var end := R.Exec(r, ops);
            var g := R.Acquire(end.books, t, lease, n, true, end.now).1;
            && Decides(|R.LeasesOf(end.books, t)|, InForce(r.books.fallback, ops, t),
                       Spent(Touches(r, ops, t), end.now), n, g)
            && (g.Granted? ==> g.lease == R.Lease(lease, t, n, end.now))
  {
    var r := Fresh(c, cpu, pages, start);
    var end := R.Exec(r, ops);
    R.NewBooksBalance(c, cpu, pages);
    RunsBalance(r, ops);
    ChargesAreReports(c, cpu, pages, start, ops, t);
    SeesHistory(end.books, Touches(r, ops, t), InForce(r.books.fallback, ops, t), t, end.now);
    assert R.ActiveOf(end.books, t) == |R.LeasesOf(end.books, t)|;
  }
}
