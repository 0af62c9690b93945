/** The per-tenant usage ledger. */
module Meters {
  import opened Common
  import opened Executions

  datatype TenantUsage = TenantUsage(executions: nat, instructions: nat, cpuTime: nat, outputBytes: nat,
                                     lastRecorded: Nanos)

  function UsageOf(usage: map<Tenant, TenantUsage>, t: Tenant): TenantUsage {
    if t in usage then usage[t] else TenantUsage(0, 0, 0, 0, 0)
  }

  function Add(usage: map<Tenant, TenantUsage>, e: Execution, now: Nanos): map<Tenant, TenantUsage> {
    var u := UsageOf(usage, e.ticket.tenantId);
    usage[e.ticket.tenantId := TenantUsage(
      u.executions + 1,
      u.instructions + e.report.usage.instructions,
      u.cpuTime + e.report.usage.cpuTime,
      u.outputBytes + e.report.usage.outputBytes,
      now)]
  }

  datatype Entry = Entry(e: Execution, at: Nanos)

  function One(e: Execution): nat { 1 }
  function InstructionsOf(e: Execution): nat { e.report.usage.instructions }
  function CpuOf(e: Execution): nat { e.report.usage.cpuTime }
  function OutputOf(e: Execution): nat { e.report.usage.outputBytes }

  /** What a measure of a tenant's executions adds up to. */
  function Sum(done: seq<Entry>, t: Tenant, measure: Execution -> nat): nat {
    if done == [] then 0 else
    var last := done[|done| - 1].e;
    Sum(done[..|done| - 1], t, measure) + if last.ticket.tenantId == t then measure(last) else 0
  }

  /** When the last of a tenant's executions was recorded. */
  function LastOf(done: seq<Entry>, t: Tenant): Nanos {
    if done == [] then 0
    else if done[|done| - 1].e.ticket.tenantId == t then done[|done| - 1].at
    else LastOf(done[..|done| - 1], t)
  }

  /** A tenant's usage is what its executions add up to. */
  predicate SumsUp(u: TenantUsage, done: seq<Entry>, t: Tenant) {
    && u.executions == Sum(done, t, One) && u.instructions == Sum(done, t, InstructionsOf)
    && u.cpuTime == Sum(done, t, CpuOf) && u.outputBytes == Sum(done, t, OutputOf)
    && u.lastRecorded == LastOf(done, t)
  }

  lemma SumsOne(done: seq<Entry>, e: Execution, now: Nanos, t: Tenant, measure: Execution -> nat)
    ensures Sum(done + [Entry(e, now)], t, measure)
         == Sum(done, t, measure) + if e.ticket.tenantId == t then measure(e) else 0
  {
    assert (done + [Entry(e, now)])[..|done + [Entry(e, now)]| - 1] == done;
  }

  lemma LastOne(done: seq<Entry>, e: Execution, now: Nanos, t: Tenant)
    ensures LastOf(done + [Entry(e, now)], t) == if e.ticket.tenantId == t then now else LastOf(done, t)
  {
    assert (done + [Entry(e, now)])[..|done + [Entry(e, now)]| - 1] == done;
  }

  /** Adding one execution to the ledger is adding it to what the ledger sums up. */
  lemma RecordsOne(usage: map<Tenant, TenantUsage>, done: seq<Entry>, e: Execution, now: Nanos, t: Tenant)
    requires SumsUp(UsageOf(usage, t), done, t)
    ensures SumsUp(UsageOf(Add(usage, e, now), t), done + [Entry(e, now)], t)
  {
    SumsOne(done, e, now, t, One);
    SumsOne(done, e, now, t, InstructionsOf);
    SumsOne(done, e, now, t, CpuOf);
    SumsOne(done, e, now, t, OutputOf);
    LastOne(done, e, now, t);
  }

  class MemoryMeter {
    var usage: map<Tenant, TenantUsage>
    /** The executions recorded so far. */
    ghost var recorded: seq<Entry>

    ghost predicate Valid()
      reads this
    {
      forall t :: SumsUp(UsageOf(usage, t), recorded, t)
    }

    constructor ()
      ensures Valid() && usage == map[] && recorded == []
    {
      usage, recorded := map[], [];
    }

    method Record(ctx: Ctx, e: Execution, now: Nanos)
      requires Valid()
      modifies this
      ensures Valid()
      ensures ctx == Live ==> recorded == old(recorded) + [Entry(e, now)] && usage == Add(old(usage), e, now)
      ensures ctx != Live ==> recorded == old(recorded) && usage == old(usage)
    {
      if ctx != Live { return; }
      var u := UsageOf(usage, e.ticket.tenantId);
      u := u.(executions := u.executions + 1);
      u := u.(instructions := u.instructions + e.report.usage.instructions);
      u := u.(cpuTime := u.cpuTime + e.report.usage.cpuTime);
      u := u.(outputBytes := u.outputBytes + e.report.usage.outputBytes);
      u := u.(lastRecorded := now);
      assert usage[e.ticket.tenantId := u] == Add(usage, e, now);
      forall t ensures SumsUp(UsageOf(Add(usage, e, now), t), recorded + [Entry(e, now)], t) {
        RecordsOne(usage, recorded, e, now, t);
      }
      recorded := recorded + [Entry(e, now)];
      usage := usage[e.ticket.tenantId := u];
    }

    method Get(t: Tenant) returns (u: TenantUsage)
      requires Valid()
      ensures u == UsageOf(usage, t) && SumsUp(u, recorded, t)
    {
      u := if t in usage then usage[t] else TenantUsage(0, 0, 0, 0, 0);
    }
  }
}
