/** The quota manager, one method per operation under its mutex. */
module Managers {
  import opened Common
  import opened R = Resources

  class Manager {
    var quotas: map<Tenant, Quota>
    var leases: map<Id, Lease>
    const fallback: Limits

    ghost function View(): Books
      reads this
    {
      Books(quotas, leases, fallback)
    }

    constructor (maxConcurrent: int, maxCpu: Nanos, maxPages: nat)
      ensures View() == NewBooks(maxConcurrent, maxCpu, maxPages) && Balanced(View())
    {
      quotas, leases := map[], map[];
      fallback := Limits(if maxConcurrent < 1 then 1 else maxConcurrent, maxCpu, maxPages);
      new;
      NewBooksBalance(maxConcurrent, maxCpu, maxPages);
    }

    method QuotaLocked(id: Tenant, now: Nanos) returns (q: Quota)
      ensures q == QuotaAt(View(), id, now)
    {
      if id in quotas {
        q := quotas[id];
      } else {
        q := Quota(fallback, 0, 0, now);
      }
      if now - q.windowStarted >= MINUTE {
        q := q.(cpuUsed := 0);
        q := q.(windowStarted := now);
      }
    }

    method Acquire(id: Tenant, leaseId: Id, pages: nat, ctxLive: bool, now: Nanos) returns (g: Grant)
      modifies this
      ensures (View(), g) == R.Acquire(old(View()), id, leaseId, pages, ctxLive, now)
      ensures old(Balanced(View())) && leaseId !in old(leases) ==> Balanced(View())
      ensures g.Granted? ==> QuotaAt(old(View()), id, now).active < QuotaAt(old(View()), id, now).limits.concurrent
      ensures g.Denied? ==> View() == old(View())
    {
      if Balanced(View()) && leaseId !in leases {
        AcquireBalances(View(), id, leaseId, pages, ctxLive, now);
      }
      if !ctxLive { return Denied(ContextDone); }
      var q := QuotaLocked(id, now);
      if q.active >= q.limits.concurrent { return Denied(NoSlot); }
      if pages > q.limits.memoryPages { return Denied(TooManyPages); }
      if q.cpuUsed >= q.limits.cpuPerMinute { return Denied(CpuSpent); }
      q := q.(active := q.active + 1);
      quotas := quotas[id := q];
      var l := Lease(leaseId, id, pages, now);
      leases := leases[leaseId := l];
      return Granted(l);
    }

    method Release(leaseId: Id, cpu: Nanos, now: Nanos)
      modifies this
      ensures View() == R.Release(old(View()), leaseId, cpu, now)
      ensures old(Balanced(View())) ==> Balanced(View()) && leases == old(leases) - {leaseId}
    {
      if Balanced(View()) {
        ReleaseBalances(View(), leaseId, cpu, now);
      }
      if leaseId !in leases { return; }
      var l := leases[leaseId];
      var q := QuotaLocked(l.tenant, now);
      if q.active > 0 {
        q := q.(active := q.active - 1);
      }
      q := q.(cpuUsed := q.cpuUsed + cpu);
      quotas := quotas[l.tenant := q];
      leases := leases - {leaseId};
    }

    method Get(id: Tenant, now: Nanos) returns (q: Quota)
      modifies this`quotas
      ensures View() == Read(old(View()), id, now) && q == QuotaAt(old(View()), id, now)
    {
      q := QuotaLocked(id, now);
      quotas := quotas[id := q];
    }

    method Set(id: Tenant, limits: Limits, now: Nanos) returns (q: Quota)
      modifies this`quotas
      ensures View() == SetLimits(old(View()), id, limits, now) && q == quotas[id]
    {
      q := QuotaLocked(id, now);
      q := q.(limits := limits);
      quotas := quotas[id := q];
    }

    /** The number of leases out, which is the sum of all tenants' counters. */
    method Active() returns (n: nat)
      ensures n == |View().leases|
    {
      n := |leases|;
    }
  }
}
