/** Fairness of the queue over whole runs of enqueues and dequeues, in any order. */
module Fairness {
  import opened Common
  import opened RingQueue

  datatype Op = Enq(job: Job) | Deq

  /** A dequeue that finds the queue empty waits and changes nothing. */
  function Apply(r: Ring, op: Op): (r': Ring)
    requires Valid(r)
    ensures Valid(r')
  {
    match op
    case Enq(job) => EnqueueKeepsValid(r, job); Enqueue(r, job)
    case Deq => if r.entries == [] then r else DequeueKeepsValid(r); Dequeue(r)
  }

  function Exec(r: Ring, ops: seq<Op>): (r': Ring)
    requires Valid(r)
    ensures Valid(r')
    decreases ops
  {
    if ops == [] then r else Exec(Apply(r, ops[0]), ops[1..])
  }

  predicate Activates(r: Ring, op: Op) {
    op.Enq? && !Active(r, op.job.tenantId)
  }

  predicate Serves(r: Ring, op: Op, t: Tenant)
    requires Valid(r)
  {
    op.Deq? && r.entries != [] && Front(r).tenantId == t
  }

  /** An activation that enters the rotation in front of an active tenant. */
  predicate Passes(r: Ring, op: Op, t: Tenant) {
    Activates(r, op) && Active(r, t) && r.seam <= Distance(r, t)
  }

  // ---- Counts along a run ----

  function Dequeues(ops: seq<Op>): nat {
    if ops == [] then 0 else (if ops[0].Deq? then 1 else 0) + Dequeues(ops[1..])
  }

  function Activations(r: Ring, ops: seq<Op>): nat
    requires Valid(r)
    decreases ops
  {
    if ops == [] then 0
    else (if Activates(r, ops[0]) then 1 else 0) + Activations(Apply(r, ops[0]), ops[1..])
  }

  function Services(r: Ring, ops: seq<Op>, t: Tenant): nat
    requires Valid(r)
    decreases ops
  {
    if ops == [] then 0
    else (if Serves(r, ops[0], t) then 1 else 0) + Services(Apply(r, ops[0]), ops[1..], t)
  }

  function Passings(r: Ring, ops: seq<Op>, t: Tenant): nat
    requires Valid(r)
    decreases ops
  {
    if ops == [] then 0
    else (if Passes(r, ops[0], t) then 1 else 0) + Passings(Apply(r, ops[0]), ops[1..], t)
  }

  function Enqueued(ops: seq<Op>, t: Tenant): seq<Job> {
    if ops == [] then []
    else (if ops[0].Enq? && ops[0].job.tenantId == t then [ops[0].job] else []) + Enqueued(ops[1..], t)
  }

  function Dequeued(r: Ring, ops: seq<Op>, t: Tenant): seq<Job>
    requires Valid(r)
    decreases ops
  {
    if ops == [] then []
    else (if Serves(r, ops[0], t) then [Front(r)] else []) + Dequeued(Apply(r, ops[0]), ops[1..], t)
  }

  ghost predicate ActiveThroughout(r: Ring, ops: seq<Op>, t: Tenant)
    requires Valid(r)
    decreases ops
  {
    Active(r, t) && (ops != [] ==> ActiveThroughout(Apply(r, ops[0]), ops[1..], t))
  }

  lemma OneStep(r: Ring, op: Op, t: Tenant)
    requires Valid(r)
    ensures !Serves(r, op, t) && Active(r, t) ==>
              && Active(Apply(r, op), t)
              && Distance(Apply(r, op), t) + (if op.Deq? then 1 else 0) ==
                 Distance(r, t) + (if Passes(r, op, t) then 1 else 0)
    ensures Passes(r, op, t) ==> Activates(r, op)
  {
    match op
    case Enq(job) => EnqueueMoves(r, job, t);
    case Deq => if r.entries != [] { DequeueMoves(r, t); }
  }

  // ---- Bounded wait ----

  /** While a tenant waits, its distance is the starting distance, less the dequeues, plus
      the newcomers that entered in front of it. */
  lemma {:induction false} WaitAccounting(r: Ring, ops: seq<Op>, t: Tenant)
    requires Valid(r) && Active(r, t)
    requires Services(r, ops, t) == 0
    ensures Active(Exec(r, ops), t)
    ensures Distance(Exec(r, ops), t) + Dequeues(ops) == Distance(r, t) + Passings(r, ops, t)
    ensures Passings(r, ops, t) <= Activations(r, ops)
    decreases ops
  {
    if ops != [] {
      OneStep(r, ops[0], t);
      WaitAccounting(Apply(r, ops[0]), ops[1..], t);
    }
  }

  /** An active tenant at distance d is served within d + 1 + k dequeues, k being the
      activations meanwhile; with none it is served within one round. */
  lemma BoundedWait(r: Ring, ops: seq<Op>, t: Tenant)
    requires Valid(r) && Active(r, t)
    ensures Dequeues(ops) >= Distance(r, t) + 1 + Activations(r, ops) ==> Services(r, ops, t) > 0
    ensures Dequeues(ops) >= |r.entries| && Activations(r, ops) == 0 ==> Services(r, ops, t) > 0
  {
    if Services(r, ops, t) == 0 {
      WaitAccounting(r, ops, t);
    }
  }

  /** Exactly when the wait ends: after a run that has not served the tenant, the next
      dequeue serves it if and only if the dequeues have used up its distance and the
      newcomers that passed it. */
  lemma ServedExactlyWhen(r: Ring, ops: seq<Op>, t: Tenant)
    requires Valid(r) && Active(r, t)
    requires Services(r, ops, t) == 0
    ensures Serves(Exec(r, ops), Deq, t) <==> Dequeues(ops) == Distance(r, t) + Passings(r, ops, t)
  {
    WaitAccounting(r, ops, t);
    DequeueMoves(Exec(r, ops), t);
  }

  // ---- A bound without activations does not exist ----

  function Repeat(ops: seq<Op>, n: nat): seq<Op> {
    if n == 0 then [] else ops + Repeat(ops, n - 1)
  }

  /** The queue after two jobs of `slow`, one of `busy` and one dequeue. */
  function Standoff(busy: Job, slow: Job): Ring {
    Ring([Entry(busy.tenantId, [busy]), Entry(slow.tenantId, [slow])], 1)
  }

  lemma StandoffIsReached(busy: Job, slow: Job)
    requires busy.tenantId != slow.tenantId
    ensures Valid(EMPTY) && Valid(Standoff(busy, slow))
    ensures Exec(EMPTY, [Enq(slow), Enq(slow), Enq(busy), Deq]) == Standoff(busy, slow)
  {
    var r1 := Ring([Entry(slow.tenantId, [slow])], 1);
    assert Apply(EMPTY, Enq(slow)) == r1;
    var r2 := Ring([Entry(slow.tenantId, [slow, slow])], 1);
    assert [slow] + [slow] == [slow, slow];
    assert Apply(r1, Enq(slow)) == r2;
    var r3 := Ring([Entry(slow.tenantId, [slow, slow]), Entry(busy.tenantId, [busy])], 2);
    assert Apply(r2, Enq(busy)) == r3;
    var r4 := Standoff(busy, slow);
    assert Apply(r3, Deq) == r4;
    var ops := [Enq(slow), Enq(slow), Enq(busy), Deq];
    assert ops[1..] == [Enq(slow), Enq(busy), Deq];
    assert ops[1..][1..] == [Enq(busy), Deq];
    assert ops[1..][1..][1..] == [Deq];
    assert Exec(r3, [Deq]) == r4;
    assert Exec(r2, [Enq(busy), Deq]) == r4;
  }

  /** A tenant that empties and rejoins at the seam passes a waiting tenant for as long as
      it likes: no number of dequeues alone guarantees a service. */
  lemma {:induction false} WaitIsUnboundedWithActivations(busy: Job, slow: Job, n: nat)
    requires busy.tenantId != slow.tenantId
    ensures Valid(Standoff(busy, slow)) && Active(Standoff(busy, slow), slow.tenantId)
    ensures Dequeues(Repeat([Deq, Enq(busy)], n)) == n
    ensures Services(Standoff(busy, slow), Repeat([Deq, Enq(busy)], n), slow.tenantId) == 0
    ensures Exec(Standoff(busy, slow), Repeat([Deq, Enq(busy)], n)) == Standoff(busy, slow)
  {
    var r := Standoff(busy, slow);
    if n > 0 {
      WaitIsUnboundedWithActivations(busy, slow, n - 1);
      var ops := Repeat([Deq, Enq(busy)], n);
      var more := Repeat([Deq, Enq(busy)], n - 1);
      assert ops[1..] == [Enq(busy)] + more;
      assert ops[1..][1..] == more;
      var after := Ring([Entry(slow.tenantId, [slow])], 0);
      assert Apply(r, Deq) == after;
      assert Apply(after, Enq(busy)) == r;
      assert Exec(after, ops[1..]) == Exec(r, more);
      assert Services(after, ops[1..], slow.tenantId) == Services(r, more, slow.tenantId);
      assert Dequeues(ops[1..]) == Dequeues(more);
    }
  }

  // ---- Between two services of one tenant ----

  /** Relative order: the tenant in front stays in front until it is served. */
  lemma {:induction false} FrontRunner(r: Ring, ops: seq<Op>, u: Tenant, t: Tenant)
    requires Valid(r) && u != t && Active(r, u) && Active(r, t)
    requires Distance(r, u) < Distance(r, t)
    requires Services(r, ops, t) == 0 && Services(r, ops, u) == 0
    ensures Active(Exec(r, ops), u) && Active(Exec(r, ops), t)
    ensures Distance(Exec(r, ops), u) < Distance(Exec(r, ops), t)
    decreases ops
  {
    if ops != [] {
      OneStep(r, ops[0], u);
      OneStep(r, ops[0], t);
      FrontRunner(Apply(r, ops[0]), ops[1..], u, t);
    }
  }

  /** A tenant behind another that is not served meanwhile is not served either. */
  lemma {:induction false} Trailing(r: Ring, ops: seq<Op>, u: Tenant, t: Tenant)
    requires Valid(r) && u != t && Active(r, t)
    requires ActiveThroughout(r, ops, u)
    requires Distance(r, t) < Distance(r, u)
    requires Services(r, ops, t) == 0
    ensures Services(r, ops, u) == 0
    decreases ops
  {
    if ops != [] {
      assert !Serves(r, ops[0], u) by {
        if Serves(r, ops[0], u) { DequeueMoves(r, u); }
      }
      OneStep(r, ops[0], u);
      OneStep(r, ops[0], t);
      Trailing(Apply(r, ops[0]), ops[1..], u, t);
    }
  }

  lemma {:induction false} AtMostOnce(r: Ring, ops: seq<Op>, u: Tenant, t: Tenant)
    requires Valid(r) && u != t && Active(r, t)
    requires ActiveThroughout(r, ops, u)
    requires Services(r, ops, t) == 0
    ensures Services(r, ops, u) <= 1
    decreases ops
  {
    if ops != [] {
      OneStep(r, ops[0], t);
      var r' := Apply(r, ops[0]);
      if Serves(r, ops[0], u) {
        DequeueMoves(r, u);
        DequeueMoves(r, t);
        assert |r'.entries| == |r.entries|;
        Trailing(r', ops[1..], u, t);
      } else {
        AtMostOnce(r', ops[1..], u, t);
      }
    }
  }

  /** `before` serves t and leaves it active; `between` is any run up to the next service of
      t. Every other tenant active at that first service is served in between, and exactly
      once when its list never runs empty. */
  lemma {:induction false} RoundRobin(before: Ring, between: seq<Op>, t: Tenant, u: Tenant)
    requires Valid(before) && Serves(before, Deq, t)
    requires var r := Apply(before, Deq);
             && Active(r, t)
             && Services(r, between, t) == 0
             && Serves(Exec(r, between), Deq, t)
    requires u != t && Active(Apply(before, Deq), u)
    ensures Services(Apply(before, Deq), between, u) >= 1
    ensures ActiveThroughout(Apply(before, Deq), between, u) ==> Services(Apply(before, Deq), between, u) == 1
  {
    var r := Apply(before, Deq);
    DequeueMoves(before, t);
    assert Distance(r, u) < Distance(r, t) by {
      assert |r.entries| <= |before.entries|;
      assert Distance(r, t) == |before.entries| - 1;
    }
    if Services(r, between, u) == 0 {
      FrontRunner(r, between, u, t);
      DequeueMoves(Exec(r, between), t);
      assert false;
    }
    if ActiveThroughout(r, between, u) {
      AtMostOnce(r, between, u, t);
    }
  }

  // ---- Conservation ----

  lemma Splice(had: seq<Job>, added: seq<Job>, taken: seq<Job>, have: seq<Job>, later: seq<Job>, out: seq<Job>,
      left: seq<Job>)
    requires had + added == taken + have
    requires have + later == out + left
    ensures had + (added + later) == (taken + out) + left
  {
    calc {
      had + (added + later);
      (had + added) + later;
      (taken + have) + later;
      taken + (have + later);
      taken + (out + left);
      (taken + out) + left;
    }
  }

  lemma ConservationStep(r: Ring, op: Op, t: Tenant)
    requires Valid(r)
    ensures JobsOf(r, t) + (if op.Enq? && op.job.tenantId == t then [op.job] else [])
         == (if Serves(r, op, t) then [Front(r)] else []) + JobsOf(Apply(r, op), t)
  {
    match op
    case Enq(job) => EnqueueMoves(r, job, t);
    case Deq => if r.entries != [] { DequeueMoves(r, t); }
  }

  /** Per tenant the queue is first-in first-out and loses nothing: what was there and what
      was enqueued is what was dequeued followed by what remains. */
  lemma {:induction false} Conservation(r: Ring, ops: seq<Op>, t: Tenant)
    requires Valid(r)
    ensures JobsOf(r, t) + Enqueued(ops, t) == Dequeued(r, ops, t) + JobsOf(Exec(r, ops), t)
    decreases ops
  {
    if ops != [] {
      var r' := Apply(r, ops[0]);
      Conservation(r', ops[1..], t);
      ConservationStep(r, ops[0], t);
      Splice(JobsOf(r, t), if ops[0].Enq? && ops[0].job.tenantId == t then [ops[0].job] else [],
             if Serves(r, ops[0], t) then [Front(r)] else [], JobsOf(r', t),
             Enqueued(ops[1..], t), Dequeued(r', ops[1..], t), JobsOf(Exec(r', ops[1..]), t));
    }
  }

  /** The number of waiting jobs. */
  function Size(entries: seq<Entry>): nat {
    if entries == [] then 0 else |entries[0].jobs| + Size(entries[1..])
  }

  lemma {:induction false} SizeSplit(a: seq<Entry>, b: seq<Entry>)
    ensures Size(a + b) == Size(a) + Size(b)
  {
    if a == [] {
      assert a + b == b;
    } else {
      SizeSplit(a[1..], b);
      assert (a + b)[1..] == a[1..] + b;
    }
  }

  lemma SizeOfOne(e: Entry)
    ensures Size([e]) == |e.jobs|
  {
    assert [e][1..] == [];
  }

  /** Len counts one more per enqueue and one less per successful dequeue. */
  lemma SizeStep(r: Ring, op: Op)
    requires Valid(r)
    ensures op.Enq? ==> Size(Apply(r, op).entries) == Size(r.entries) + 1
    ensures op.Deq? && r.entries != [] ==> Size(Apply(r, op).entries) == Size(r.entries) - 1
    ensures Size(r.entries) == 0 <==> r.entries == []
  {
    match op {
      case Enq(job) =>
        var i := IndexOf(r.entries, job.tenantId);
        if i < |r.entries| {
          var e := r.entries[i].(jobs := r.entries[i].jobs + [job]);
          assert r.entries == r.entries[..i] + [r.entries[i]] + r.entries[i + 1..];
          assert Apply(r, op).entries == r.entries[..i] + [e] + r.entries[i + 1..];
          SizeSplit(r.entries[..i] + [r.entries[i]], r.entries[i + 1..]);
          SizeSplit(r.entries[..i], [r.entries[i]]);
          SizeSplit(r.entries[..i] + [e], r.entries[i + 1..]);
          SizeSplit(r.entries[..i], [e]);
          SizeOfOne(e);
          SizeOfOne(r.entries[i]);
        } else {
          var e := Entry(job.tenantId, [job]);
          assert r.entries == r.entries[..r.seam] + r.entries[r.seam..];
          SizeSplit(r.entries[..r.seam], r.entries[r.seam..]);
          SizeSplit(r.entries[..r.seam] + [e], r.entries[r.seam..]);
          SizeSplit(r.entries[..r.seam], [e]);
          SizeOfOne(e);
        }
      case Deq =>
        if r.entries != [] {
          var rest := r.entries[0].(jobs := r.entries[0].jobs[1..]);
          SizeSplit(r.entries[1..], [rest]);
          SizeOfOne(rest);
        }
    }
  }
}
