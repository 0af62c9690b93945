/** The fair queue as a rotating deque: the tenant to be served next is entry 0.

    `seam` is the number of entries between the front and the physical end of the slice
    of tenants, `len(tenants) - cursor`; it is where a tenant that becomes active enters. */
module RingQueue {
  import opened Common

  datatype Job = Job(executionId: Id, tenantId: Tenant, enqueuedAt: Nanos, attempts: int)

  datatype Entry = Entry(tenant: Tenant, jobs: seq<Job>)

  datatype Ring = Ring(entries: seq<Entry>, seam: nat)

  const EMPTY := Ring([], 0)

  ghost predicate Distinct(entries: seq<Entry>) {
    forall i, j :: 0 <= i < j < |entries| ==> entries[i].tenant != entries[j].tenant
  }

  ghost predicate Valid(r: Ring) {
    && r.seam <= |r.entries|
    && Distinct(r.entries)
    && forall i :: 0 <= i < |r.entries| ==>
                     && r.entries[i].jobs != []
                     && forall k :: 0 <= k < |r.entries[i].jobs| ==>
                          r.entries[i].jobs[k].tenantId == r.entries[i].tenant
  }

  /** The first entry of the tenant, or the number of entries when it has none. */
  function IndexOf(entries: seq<Entry>, t: Tenant): (i: nat)
    ensures i <= |entries|
    ensures i < |entries| ==> entries[i].tenant == t
    ensures forall j :: 0 <= j < i ==> entries[j].tenant != t
  {
    if entries == [] then 0
    else if entries[0].tenant == t then 0
    else 1 + IndexOf(entries[1..], t)
  }

  predicate Active(r: Ring, t: Tenant) {
    IndexOf(r.entries, t) < |r.entries|
  }

  /** Rotated distance of a tenant from the cursor. */
  function Distance(r: Ring, t: Tenant): nat {
    IndexOf(r.entries, t)
  }

  function JobsOf(r: Ring, t: Tenant): seq<Job> {
    if Active(r, t) then r.entries[Distance(r, t)].jobs else []
  }

  lemma IndexIs(entries: seq<Entry>, t: Tenant, i: nat)
    requires i < |entries| && entries[i].tenant == t
    requires Distinct(entries)
    ensures IndexOf(entries, t) == i
  {
  }

  lemma IndexAbsent(entries: seq<Entry>, t: Tenant)
    requires forall i :: 0 <= i < |entries| ==> entries[i].tenant != t
    ensures IndexOf(entries, t) == |entries|
  {
  }

  // ---- The two operations ----

  function Enqueue(r: Ring, job: Job): Ring
    requires r.seam <= |r.entries|
  {
    var i := IndexOf(r.entries, job.tenantId);
    if i < |r.entries| then
      r.(entries := r.entries[i := r.entries[i].(jobs := r.entries[i].jobs + [job])])
    else
      Ring(r.entries[..r.seam] + [Entry(job.tenantId, [job])] + r.entries[r.seam..], r.seam + 1)
  }

  /** The job a dequeue hands out: the head of the front tenant's list. */
  function Front(r: Ring): Job
    requires r.entries != [] && r.entries[0].jobs != []
  {
    r.entries[0].jobs[0]
  }

  function Dequeue(r: Ring): Ring
    requires r.entries != [] && r.entries[0].jobs != []
    requires r.seam <= |r.entries|
  {
    var seam := if r.seam == 0 then |r.entries| else r.seam;
    var rest := r.entries[0].(jobs := r.entries[0].jobs[1..]);
    if rest.jobs == [] then
      Ring(r.entries[1..], seam - 1)
    else
      Ring(r.entries[1..] + [rest], if seam == 1 then |r.entries| else seam - 1)
  }

  lemma AppendKeepsValid(r: Ring, job: Job)
    requires Valid(r) && Active(r, job.tenantId)
    ensures Valid(Enqueue(r, job))
  {
    var r' := Enqueue(r, job);
    forall j | 0 <= j < |r'.entries|
      ensures r'.entries[j].tenant == r.entries[j].tenant && r'.entries[j].jobs != []
      ensures forall k :: 0 <= k < |r'.entries[j].jobs| ==> r'.entries[j].jobs[k].tenantId == r'.entries[j].tenant
    {
    }
  }

  lemma JoinKeepsValid(r: Ring, job: Job)
    requires Valid(r) && !Active(r, job.tenantId)
    ensures Valid(Enqueue(r, job))
  {
    var r' := Enqueue(r, job);
    forall j | 0 <= j < |r'.entries|
      ensures r'.entries[j] == if j < r.seam then r.entries[j]
                               else if j == r.seam then Entry(job.tenantId, [job])
                               else r.entries[j - 1]
    {
    }
  }

  lemma EnqueueKeepsValid(r: Ring, job: Job)
    requires Valid(r)
    ensures Valid(Enqueue(r, job))
  {
    if Active(r, job.tenantId) {
      AppendKeepsValid(r, job);
    } else {
      JoinKeepsValid(r, job);
    }
  }

  lemma DequeueKeepsValid(r: Ring)
    requires Valid(r) && r.entries != []
    ensures Valid(Dequeue(r))
  {
    var r' := Dequeue(r);
    forall j | 0 <= j < |r'.entries|
      ensures j < |r.entries| - 1 ==> r'.entries[j] == r.entries[j + 1]
    {
    }
  }

  // ---- What one operation does to a tenant's distance and jobs ----

  lemma EnqueueMoves(r: Ring, job: Job, t: Tenant)
    requires Valid(r)
    ensures Active(r, t) || job.tenantId == t <==> Active(Enqueue(r, job), t)
    ensures JobsOf(Enqueue(r, job), t) == JobsOf(r, t) + if job.tenantId == t then [job] else []
    ensures Active(r, t) && Active(r, job.tenantId) ==> Distance(Enqueue(r, job), t) == Distance(r, t)
    ensures Active(r, t) && !Active(r, job.tenantId) ==>
              Distance(Enqueue(r, job), t) == Distance(r, t) + if r.seam <= Distance(r, t) then 1 else 0
  {
    EnqueueKeepsValid(r, job);
    var r' := Enqueue(r, job);
    var d := Distance(r, t);
    if Active(r, job.tenantId) {
      if d < |r.entries| {
        IndexIs(r'.entries, t, d);
      } else {
        IndexAbsent(r'.entries, t);
      }
    } else if d < |r.entries| {
      var d' := if r.seam <= d then d + 1 else d;
      assert r'.entries[d'] == r.entries[d];
      IndexIs(r'.entries, t, d');
    } else if job.tenantId == t {
      IndexIs(r'.entries, t, r.seam);
    } else {
      IndexAbsent(r'.entries, t);
    }
  }

  lemma DequeueMoves(r: Ring, t: Tenant)
    requires Valid(r) && r.entries != []
    ensures JobsOf(r, t) == (if Front(r).tenantId == t then [Front(r)] else []) + JobsOf(Dequeue(r), t)
    ensures Active(r, t) && Front(r).tenantId != t ==>
              Active(Dequeue(r), t) && Distance(Dequeue(r), t) == Distance(r, t) - 1
    ensures Front(r).tenantId == t <==> Active(r, t) && Distance(r, t) == 0
    ensures Front(r).tenantId == t && Active(Dequeue(r), t) ==> Distance(Dequeue(r), t) == |r.entries| - 1
    ensures !Active(r, t) ==> !Active(Dequeue(r), t)
  {
    DequeueKeepsValid(r);
    var r' := Dequeue(r);
    var d := Distance(r, t);
    if d == |r.entries| {
      IndexAbsent(r'.entries, t);
    } else if d > 0 {
      IndexIs(r'.entries, t, d - 1);
    } else if |r.entries[0].jobs| == 1 {
      IndexAbsent(r'.entries, t);
    } else {
      IndexIs(r'.entries, t, |r.entries| - 1);
    }
  }
}
