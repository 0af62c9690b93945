/** Per-tenant quotas and leases: concurrent slots, memory pages, and CPU in one-minute
    windows that are reset lazily. */
module Resources {
  import opened Common

  datatype Limits = Limits(concurrent: int, cpuPerMinute: Nanos, memoryPages: nat)

  datatype Quota = Quota(limits: Limits, active: int, cpuUsed: Nanos, windowStarted: Nanos)

  datatype Lease = Lease(id: Id, tenant: Tenant, pages: nat, grantedAt: Nanos)

  datatype Denial = NoSlot | TooManyPages | CpuSpent | ContextDone

  datatype Grant = Granted(lease: Lease) | Denied(why: Denial)

  datatype Books = Books(quotas: map<Tenant, Quota>, leases: map<Id, Lease>, fallback: Limits)

  function NewBooks(maxConcurrent: int, maxCpu: Nanos, maxPages: nat): Books {
    Books(map[], map[], Limits(if maxConcurrent < 1 then 1 else maxConcurrent, maxCpu, maxPages))
  }

  /** The quota as an operation at `now` sees it: made from the defaults when the tenant has
      none, its CPU counter cleared when the window is a minute old. */
  function QuotaAt(b: Books, t: Tenant, now: Nanos): Quota {
    var q := if t in b.quotas then b.quotas[t] else Quota(b.fallback, 0, 0, now);
    if now - q.windowStarted >= MINUTE then q.(cpuUsed := 0, windowStarted := now) else q
  }

  function Acquire(b: Books, t: Tenant, lease: Id, pages: nat, ctxLive: bool, now: Nanos): (Books, Grant) {
    if !ctxLive then (b, Denied(ContextDone)) else
    var q := QuotaAt(b, t, now);
    if q.active >= q.limits.concurrent then (b, Denied(NoSlot))
    else if pages > q.limits.memoryPages then (b, Denied(TooManyPages))
    else if q.cpuUsed >= q.limits.cpuPerMinute then (b, Denied(CpuSpent))
    else
      var l := Lease(lease, t, pages, now);
      (b.(quotas := b.quotas[t := q.(active := q.active + 1)], leases := b.leases[lease := l]), Granted(l))
  }

  function Release(b: Books, lease: Id, cpu: Nanos, now: Nanos): Books {
    if lease !in b.leases then b else
    var t := b.leases[lease].tenant;
    var q := QuotaAt(b, t, now);
    var q' := q.(active := if q.active > 0 then q.active - 1 else q.active, cpuUsed := q.cpuUsed + cpu);
    b.(quotas := b.quotas[t := q'], leases := b.leases - {lease})
  }

  function Read(b: Books, t: Tenant, now: Nanos): Books {
    b.(quotas := b.quotas[t := QuotaAt(b, t, now)])
  }

  function SetLimits(b: Books, t: Tenant, limits: Limits, now: Nanos): Books {
    b.(quotas := b.quotas[t := QuotaAt(b, t, now).(limits := limits)])
  }

  // ---- Leases against counts ----

  function LeasesOf(b: Books, t: Tenant): set<Id> {
    set id | id in b.leases && b.leases[id].tenant == t
  }

  function ActiveOf(b: Books, t: Tenant): int {
    if t in b.quotas then b.quotas[t].active else 0
  }

  /** The counter of every tenant is the number of leases it holds. */
  ghost predicate Balanced(b: Books) {
    && (forall t :: ActiveOf(b, t) == |LeasesOf(b, t)|)
    && (forall id :: id in b.leases ==> b.leases[id].id == id)
  }

  lemma NewBooksBalance(c: int, cpu: Nanos, pages: nat)
    ensures Balanced(NewBooks(c, cpu, pages))
  {
    forall t ensures LeasesOf(NewBooks(c, cpu, pages), t) == {} {}
  }

  lemma GrantCounts(b: Books, l: Lease, u: Tenant)
    requires l.id !in b.leases
    ensures var b' := b.(leases := b.leases[l.id := l]);
            LeasesOf(b', u) == LeasesOf(b, u) + (if u == l.tenant then {l.id} else {}) && l.id !in LeasesOf(b, u)
  {
  }

  lemma GrantBalances(b: Books, t: Tenant, l: Lease, q: Quota)
    requires Balanced(b) && l.id !in b.leases && l.tenant == t && q.active == ActiveOf(b, t) + 1
    ensures Balanced(b.(quotas := b.quotas[t := q], leases := b.leases[l.id := l])) && q.active > 0
  {
    var b' := b.(quotas := b.quotas[t := q], leases := b.leases[l.id := l]);
    assert ActiveOf(b, t) == |LeasesOf(b, t)|;
    forall u ensures ActiveOf(b', u) == |LeasesOf(b', u)| {
      assert ActiveOf(b, u) == |LeasesOf(b, u)|;
      GrantCounts(b, l, u);
      assert b'.leases == b.leases[l.id := l];
    }
  }

  /** A grant under a fresh lease identifier keeps the books balanced, and a tenant's count
      never passes the limit in force when it was granted. */
  lemma AcquireBalances(b: Books, t: Tenant, lease: Id, pages: nat, ctxLive: bool, now: Nanos)
    requires Balanced(b) && lease !in b.leases
    ensures var (b', g) := Acquire(b, t, lease, pages, ctxLive, now);
            && Balanced(b')
            && (g.Granted? <==> lease in b'.leases)
            && (g.Granted? ==> 0 < ActiveOf(b', t) <= QuotaAt(b, t, now).limits.concurrent)
            && (g.Denied? ==> b' == b)
  {
    var q := QuotaAt(b, t, now);
    if Acquire(b, t, lease, pages, ctxLive, now).1.Granted? {
      GrantBalances(b, t, Lease(lease, t, pages, now), q.(active := q.active + 1));
    }
  }

  /** Releasing a held lease finds a positive count, so its guard never skips the decrement. */
  lemma ReleaseBalances(b: Books, lease: Id, cpu: Nanos, now: Nanos)
    requires Balanced(b)
    ensures Balanced(Release(b, lease, cpu, now))
    ensures Release(b, lease, cpu, now).leases == b.leases - {lease}
    ensures lease in b.leases ==>
              && QuotaAt(b, b.leases[lease].tenant, now).active > 0
              && ActiveOf(Release(b, lease, cpu, now), b.leases[lease].tenant) ==
                 ActiveOf(b, b.leases[lease].tenant) - 1
  {
    var b' := Release(b, lease, cpu, now);
    if lease in b.leases {
      var t := b.leases[lease].tenant;
      assert lease in LeasesOf(b, t);
      assert ActiveOf(b, t) == |LeasesOf(b, t)|;
      forall u ensures ActiveOf(b', u) == |LeasesOf(b', u)| {
        assert ActiveOf(b, u) == |LeasesOf(b, u)|;
        if u == t {
          assert LeasesOf(b', u) == LeasesOf(b, u) - {lease};
        } else {
          assert LeasesOf(b', u) == LeasesOf(b, u);
        }
      }
    } else {
      assert b.leases - {lease} == b.leases;
    }
  }

  lemma SettingsBalance(b: Books, t: Tenant, limits: Limits, now: Nanos)
    requires Balanced(b)
    ensures Balanced(Read(b, t, now)) && Balanced(SetLimits(b, t, limits, now))
  {
    forall u
      ensures ActiveOf(Read(b, t, now), u) == |LeasesOf(Read(b, t, now), u)|
      ensures ActiveOf(SetLimits(b, t, limits, now), u) == |LeasesOf(SetLimits(b, t, limits, now), u)|
    {
      assert ActiveOf(b, u) == |LeasesOf(b, u)|;
      assert LeasesOf(Read(b, t, now), u) == LeasesOf(b, u);
      assert LeasesOf(SetLimits(b, t, limits, now), u) == LeasesOf(b, u);
    }
  }

  /** Freshness is needed: a second grant under a lease identifier in use counts twice but
      holds one lease, so the tenant's count stays one too high for good. */
  lemma ReusedLeaseLosesASlot(b: Books, t: Tenant, lease: Id, pages: nat, now: Nanos)
    requires Balanced(b) && lease in b.leases && b.leases[lease].tenant == t
    requires Acquire(b, t, lease, pages, true, now).1.Granted?
    ensures !Balanced(Acquire(b, t, lease, pages, true, now).0)
  {
    var b' := Acquire(b, t, lease, pages, true, now).0;
    assert ActiveOf(b, t) == |LeasesOf(b, t)|;
    assert LeasesOf(b', t) == LeasesOf(b, t);
    assert ActiveOf(b', t) != |LeasesOf(b', t)|;
  }

  // ---- The CPU overshoot bound over whole runs ----

  datatype Op =
    | Take(tenant: Tenant, lease: Id, pages: nat, ctxLive: bool)
    | GiveBack(lease: Id, cpu: nat)
    | Look(tenant: Tenant)
    | Change(tenant: Tenant, limits: Limits)
    | Pass(time: nat)

  /** The books with the clock and, per tenant, the highest limits it has ever had. */
  datatype Run = Run(books: Books, now: Nanos, peaks: map<Tenant, Limits>)

  function Peak(r: Run, t: Tenant): Limits {
    if t in r.peaks then r.peaks[t] else r.books.fallback
  }

  function Max(a: int, b: int): int {
    if a < b then b else a
  }

  function Higher(a: Limits, b: Limits): Limits {
    Limits(Max(a.concurrent, b.concurrent), Max(a.cpuPerMinute, b.cpuPerMinute), Max(a.memoryPages, b.memoryPages))
  }

  function Step(r: Run, op: Op): Run {
    match op
    case Take(t, lease, pages, live) => r.(books := Acquire(r.books, t, lease, pages, live, r.now).0)
    case GiveBack(lease, cpu) => r.(books := Release(r.books, lease, cpu, r.now))
    case Look(t) => r.(books := Read(r.books, t, r.now))
    case Change(t, limits) =>
      r.(books := SetLimits(r.books, t, limits, r.now), peaks := r.peaks[t := Higher(Peak(r, t), limits)])
    case Pass(time) => r.(now := r.now + time)
  }

  /** Each grant uses an identifier that is free, and no release reports more than `most`. */
  predicate Allowed(r: Run, op: Op, most: nat) {
    match op
    case Take(_, lease, _, _) => lease !in r.books.leases
    case GiveBack(_, cpu) => cpu <= most
    case _ => true
  }

  ghost predicate Possible(r: Run, ops: seq<Op>, most: nat)
    decreases ops
  {
    ops != [] ==> Allowed(r, ops[0], most) && Possible(Step(r, ops[0]), ops[1..], most)
  }

  function Exec(r: Run, ops: seq<Op>): Run
    decreases ops
  {
    if ops == [] then r else Exec(Step(r, ops[0]), ops[1..])
  }

  ghost predicate Within(q: Quota, peak: Limits, most: nat) {
    && q.limits.concurrent <= peak.concurrent
    && q.limits.cpuPerMinute <= peak.cpuPerMinute
    && q.limits.memoryPages <= peak.memoryPages
    && 0 <= q.active <= Max(0, peak.concurrent)
    && 0 <= q.cpuUsed
    && q.cpuUsed + q.active * most <= Max(0, peak.cpuPerMinute) + Max(0, peak.concurrent) * most
  }

  ghost predicate Bounded(r: Run, most: nat) {
    && Balanced(r.books)
    && (forall t :: t in r.peaks ==> t in r.books.quotas)
    && (forall t :: t in r.books.quotas ==> Within(r.books.quotas[t], Peak(r, t), most))
    && (forall id :: id in r.books.leases ==>
          r.books.leases[id].pages <= Peak(r, r.books.leases[id].tenant).memoryPages)
  }

  lemma Scale(a: int, b: int, k: nat)
    requires a <= b
    ensures a * k <= b * k
    ensures (a + 1) * k == a * k + k
  {
  }

  /** What an operation sees is within the bound, window reset or not, stored or not. */
  lemma QuotaWithin(r: Run, t: Tenant, most: nat)
    requires Bounded(r, most)
    ensures Within(QuotaAt(r.books, t, r.now), Peak(r, t), most)
  {
    var q := QuotaAt(r.books, t, r.now);
    if t in r.books.quotas {
      Scale(r.books.quotas[t].active, Max(0, Peak(r, t).concurrent), most);
    } else {
      Scale(0, Max(0, Peak(r, t).concurrent), most);
    }
  }

  lemma TakeBounded(r: Run, t: Tenant, lease: Id, pages: nat, live: bool, most: nat)
    requires Bounded(r, most) && lease !in r.books.leases
    ensures Bounded(Step(r, Take(t, lease, pages, live)), most)
  {
    var r' := Step(r, Take(t, lease, pages, live));
    AcquireBalances(r.books, t, lease, pages, live, r.now);
    QuotaWithin(r, t, most);
    var q := QuotaAt(r.books, t, r.now);
    if Acquire(r.books, t, lease, pages, live, r.now).1.Granted? {
      var peak := Peak(r, t);
      Scale(q.active + 1, Max(0, peak.concurrent), most);
      assert q.cpuUsed + (q.active + 1) * most <= Max(0, peak.cpuPerMinute) + Max(0, peak.concurrent) * most;
      assert r'.books.quotas[t] == q.(active := q.active + 1);
    }
  }

  lemma ReleasedWithin(q: Quota, peak: Limits, cpu: nat, most: nat)
    requires Within(q, peak, most) && q.active > 0 && cpu <= most
    ensures Within(q.(active := q.active - 1, cpuUsed := q.cpuUsed + cpu), peak, most)
  {
    assert (q.active - 1) * most == q.active * most - most;
  }

  lemma GiveBackBounded(r: Run, lease: Id, cpu: nat, most: nat)
    requires Bounded(r, most) && cpu <= most
    ensures Bounded(Step(r, GiveBack(lease, cpu)), most)
  {
    ReleaseBalances(r.books, lease, cpu, r.now);
    if lease in r.books.leases {
      var t := r.books.leases[lease].tenant;
      var q := QuotaAt(r.books, t, r.now);
      assert Within(q, Peak(r, t), most) by { QuotaWithin(r, t, most); }
      ReleasedWithin(q, Peak(r, t), cpu, most);
    }
  }

  lemma SettingsBounded(r: Run, t: Tenant, limits: Limits, most: nat)
    requires Bounded(r, most)
    ensures Bounded(Step(r, Look(t)), most)
    ensures Bounded(Step(r, Change(t, limits)), most)
  {
    SettingsBalance(r.books, t, limits, r.now);
    QuotaWithin(r, t, most);
    var q := QuotaAt(r.books, t, r.now);
    var high := Higher(Peak(r, t), limits);
    Scale(Max(0, Peak(r, t).concurrent), Max(0, high.concurrent), most);
    assert Within(q.(limits := limits), high, most);
  }

  lemma {:induction false} RunsStayBounded(r: Run, ops: seq<Op>, most: nat)
    requires Bounded(r, most) && Possible(r, ops, most)
    ensures Bounded(Exec(r, ops), most)
    decreases ops
  {
    if ops != [] {
      match ops[0] {
        case Take(t, lease, pages, live) => TakeBounded(r, t, lease, pages, live, most);
        case GiveBack(lease, cpu) => GiveBackBounded(r, lease, cpu, most);
        case Look(t) => SettingsBounded(r, t, Peak(r, t), most);
        case Change(t, limits) => SettingsBounded(r, t, limits, most);
        case Pass(_) =>
      }
      RunsStayBounded(Step(r, ops[0]), ops[1..], most);
    }
  }

  // ---- The pages a tenant's leases add up to ----

  ghost function PagesOf(leases: map<Id, Lease>, ids: set<Id>): nat
    requires ids <= leases.Keys
  {
    if ids == {} then 0
    else
      var id :| id in ids;
      leases[id].pages + PagesOf(leases, ids - {id})
  }

  lemma {:induction false} PagesBounded(leases: map<Id, Lease>, ids: set<Id>, most: nat)
    requires ids <= leases.Keys
    requires forall id :: id in ids ==> leases[id].pages <= most
    ensures PagesOf(leases, ids) <= |ids| * most
  {
    if ids != {} {
      var id :| id in ids && PagesOf(leases, ids) == leases[id].pages + PagesOf(leases, ids - {id});
      PagesBounded(leases, ids - {id}, most);
      assert |ids - {id}| == |ids| - 1;
      Scale(|ids| - 1, |ids| - 1, most);
    }
  }

  /** From fresh books, over any run of grants, refusals, releases, window resets, reads and
      limit changes in which no release reports more than `most`: CPU used plus what the
      active leases may still report stays within the highest limit plus `most` for every
      slot, and the pages on lease stay within the highest slots times the highest pages. */
  lemma OvershootBound(c: int, cpu: Nanos, pages: nat, start: Nanos, ops: seq<Op>, most: nat, t: Tenant)
    requires Possible(Run(NewBooks(c, cpu, pages), start, map[]), ops, most)
    ensures var r := Exec(Run(NewBooks(c, cpu, pages), start, map[]), ops); var peak := Peak(r, t);
            && (t in r.books.quotas ==>
                  var q := r.books.quotas[t];
                  && q.cpuUsed + q.active * most <= Max(0, peak.cpuPerMinute) + Max(0, peak.concurrent) * most
                  && 0 <= q.active <= Max(0, peak.concurrent)
                  && q.active == |LeasesOf(r.books, t)|)
            && PagesOf(r.books.leases, LeasesOf(r.books, t)) <= Max(0, peak.concurrent) * Max(0, peak.memoryPages)
  {
    var first := Run(NewBooks(c, cpu, pages), start, map[]);
    NewBooksBalance(c, cpu, pages);
    RunsStayBounded(first, ops, most);
    var r := Exec(first, ops);
    var peak := Peak(r, t);
    var held := LeasesOf(r.books, t);
    assert ActiveOf(r.books, t) == |held|;
    if held != {} {
      var id :| id in held;
      assert r.books.leases[id].pages <= peak.memoryPages;
    }
    PagesBounded(r.books.leases, held, Max(0, peak.memoryPages));
    Scale(|held|, Max(0, peak.concurrent), Max(0, peak.memoryPages));
  }

  /** When no change lowers a limit, the highest limits are the ones in force. */
  ghost predicate NeverLowered(r: Run, ops: seq<Op>)
    decreases ops
  {
    ops != [] ==>
      && (ops[0].Change? ==>
            var now := QuotaAt(r.books, ops[0].tenant, r.now).limits;
            Higher(now, ops[0].limits) == ops[0].limits)
      && NeverLowered(Step(r, ops[0]), ops[1..])
  }

  ghost predicate AtPeak(r: Run) {
    && (forall t :: t in r.peaks ==> t in r.books.quotas)
    && (forall t :: t in r.books.quotas ==> r.books.quotas[t].limits == Peak(r, t))
  }

  lemma {:induction false} PeakIsCurrent(r: Run, ops: seq<Op>)
    requires AtPeak(r) && NeverLowered(r, ops)
    ensures AtPeak(Exec(r, ops))
    decreases ops
  {
    if ops != [] {
      PeakIsCurrent(Step(r, ops[0]), ops[1..]);
    }
  }

  /** The bound in terms of the limits in force, when no limit was ever lowered. */
  lemma OvershootUnderCurrentLimits(c: int, cpu: Nanos, pages: nat, start: Nanos, ops: seq<Op>, most: nat, t: Tenant)
    requires Possible(Run(NewBooks(c, cpu, pages), start, map[]), ops, most)
    requires NeverLowered(Run(NewBooks(c, cpu, pages), start, map[]), ops)
    requires t in Exec(Run(NewBooks(c, cpu, pages), start, map[]), ops).books.quotas
    ensures var r := Exec(Run(NewBooks(c, cpu, pages), start, map[]), ops); var q := r.books.quotas[t];
            && 0 <= q.active <= Max(0, q.limits.concurrent)
            && q.cpuUsed + q.active * most <= Max(0, q.limits.cpuPerMinute) + Max(0, q.limits.concurrent) * most
            && PagesOf(r.books.leases, LeasesOf(r.books, t))
               <= Max(0, q.limits.concurrent) * Max(0, q.limits.memoryPages)
  {
    var first := Run(NewBooks(c, cpu, pages), start, map[]);
    OvershootBound(c, cpu, pages, start, ops, most, t);
    PeakIsCurrent(first, ops);
  }
}
