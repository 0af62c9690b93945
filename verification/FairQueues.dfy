/** The queue as the service keeps it: a slice of active tenants, a cursor into it that wraps
    lazily, and a list of jobs per tenant. It refines the rotating deque of RingQueue. */
module FairQueues {
  import opened Common
  import opened RingQueue
  import Fairness

  datatype EnqueueResult = Accepted | ContextDone | QueueClosed

  /** One pass through the locked part of Dequeue; `NothingYet` goes on to wait. */
  datatype Attempt = Took(job: Job) | Shut | NothingYet

  ghost predicate Unique(tenants: seq<Tenant>) {
    forall i, j :: 0 <= i < j < |tenants| ==> tenants[i] != tenants[j]
  }

  ghost predicate Coherent(tenants: seq<Tenant>, cursor: nat, byTenant: map<Tenant, seq<Job>>) {
    && cursor <= |tenants|
    && Unique(tenants)
    && (forall t :: t in byTenant <==> t in tenants)
    && (forall t :: t in byTenant ==>
                      && byTenant[t] != []
                      && forall k :: 0 <= k < |byTenant[t]| ==> byTenant[t][k].tenantId == t)
  }

  ghost function Entries(order: seq<Tenant>, byTenant: map<Tenant, seq<Job>>): (es: seq<Entry>)
    requires forall i :: 0 <= i < |order| ==> order[i] in byTenant
    ensures |es| == |order|
    ensures forall i :: 0 <= i < |order| ==> es[i] == Entry(order[i], byTenant[order[i]])
  {
    seq(|order|, i requires 0 <= i < |order| => Entry(order[i], byTenant[order[i]]))
  }

  /** The slice read from the cursor, wrapping at the physical end. */
  ghost function Rotation(tenants: seq<Tenant>, cursor: nat): seq<Tenant>
    requires cursor <= |tenants|
  {
    tenants[cursor..] + tenants[..cursor]
  }

  ghost function RingOf(tenants: seq<Tenant>, cursor: nat, byTenant: map<Tenant, seq<Job>>): Ring
    requires Coherent(tenants, cursor, byTenant)
  {
    Ring(Entries(Rotation(tenants, cursor), byTenant), |tenants| - cursor)
  }

  lemma RotationIndex(tenants: seq<Tenant>, cursor: nat, i: nat)
    requires cursor <= |tenants| && i < |tenants|
    ensures |Rotation(tenants, cursor)| == |tenants|
    ensures Rotation(tenants, cursor)[i] == if i < |tenants| - cursor then tenants[cursor + i]
            else tenants[i - (|tenants| - cursor)]
  {
  }

  lemma RingIsValid(tenants: seq<Tenant>, cursor: nat, byTenant: map<Tenant, seq<Job>>)
    requires Coherent(tenants, cursor, byTenant)
    ensures Valid(RingOf(tenants, cursor, byTenant))
    ensures forall t :: Active(RingOf(tenants, cursor, byTenant), t) <==> t in byTenant
    ensures forall t :: JobsOf(RingOf(tenants, cursor, byTenant), t) == if t in byTenant then byTenant[t] else []
  {
    var r := RingOf(tenants, cursor, byTenant);
    forall i, j | 0 <= i < j < |tenants|
      ensures r.entries[i].tenant != r.entries[j].tenant
    {
      RotationIndex(tenants, cursor, i);
      RotationIndex(tenants, cursor, j);
    }
    forall t
      ensures Active(r, t) <==> t in byTenant
      ensures JobsOf(r, t) == if t in byTenant then byTenant[t] else []
    {
      if t in byTenant {
        var p :| 0 <= p < |tenants| && tenants[p] == t;
        var i := if p >= cursor then p - cursor else p + (|tenants| - cursor);
        RotationIndex(tenants, cursor, i);
        IndexIs(r.entries, t, i);
      } else {
        IndexAbsent(r.entries, t);
      }
    }
  }

  lemma RingAt(tenants: seq<Tenant>, cursor: nat, byTenant: map<Tenant, seq<Job>>, i: nat)
    requires Coherent(tenants, cursor, byTenant) && i < |tenants|
    ensures |RingOf(tenants, cursor, byTenant).entries| == |tenants|
    ensures RingOf(tenants, cursor, byTenant).entries[i]
         == Entry(Rotation(tenants, cursor)[i], byTenant[Rotation(tenants, cursor)[i]])
  {
  }

  // ---- Enqueue for a tenant that has jobs: its list grows ----

  lemma AppendCoheres(tenants: seq<Tenant>, cursor: nat, byTenant: map<Tenant, seq<Job>>, job: Job)
    requires Coherent(tenants, cursor, byTenant) && job.tenantId in byTenant
    ensures Coherent(tenants, cursor, byTenant[job.tenantId := byTenant[job.tenantId] + [job]])
  {
  }

  lemma AppendRefines(tenants: seq<Tenant>, cursor: nat, byTenant: map<Tenant, seq<Job>>, job: Job)
    requires Coherent(tenants, cursor, byTenant) && job.tenantId in byTenant
    requires Coherent(tenants, cursor, byTenant[job.tenantId := byTenant[job.tenantId] + [job]])
    ensures RingOf(tenants, cursor, byTenant[job.tenantId := byTenant[job.tenantId] + [job]])
         == Enqueue(RingOf(tenants, cursor, byTenant), job)
  {
    var r := RingOf(tenants, cursor, byTenant);
    var i := IndexOf(r.entries, job.tenantId);
    assert Valid(r) && Active(r, job.tenantId) by { RingIsValid(tenants, cursor, byTenant); }
    var r' := RingOf(tenants, cursor, byTenant[job.tenantId := byTenant[job.tenantId] + [job]]);
    assert r'.entries == Enqueue(r, job).entries;
  }

  // ---- Enqueue for a tenant that has none: it joins at the physical end ----

  lemma JoinCoheres(tenants: seq<Tenant>, cursor: nat, byTenant: map<Tenant, seq<Job>>, job: Job)
    requires Coherent(tenants, cursor, byTenant) && job.tenantId !in byTenant
    ensures Coherent(tenants + [job.tenantId], cursor, byTenant[job.tenantId := [job]])
  {
  }

  lemma JoinRotates(tenants: seq<Tenant>, cursor: nat, t: Tenant)
    requires cursor <= |tenants|
    ensures var seam := |tenants| - cursor; var order := Rotation(tenants, cursor);
            Rotation(tenants + [t], cursor) == order[..seam] + [t] + order[seam..]
  {
  }

  lemma JoinRefines(tenants: seq<Tenant>, cursor: nat, byTenant: map<Tenant, seq<Job>>, job: Job)
    requires Coherent(tenants, cursor, byTenant) && job.tenantId !in byTenant
    requires Coherent(tenants + [job.tenantId], cursor, byTenant[job.tenantId := [job]])
    ensures RingOf(tenants + [job.tenantId], cursor, byTenant[job.tenantId := [job]])
         == Enqueue(RingOf(tenants, cursor, byTenant), job)
  {
    var r := RingOf(tenants, cursor, byTenant);
    assert !Active(r, job.tenantId) by { RingIsValid(tenants, cursor, byTenant); }
    var seam := |tenants| - cursor;
    JoinRotates(tenants, cursor, job.tenantId);
    var order := Rotation(tenants, cursor);
    EntriesJoin(order, byTenant, seam, job);
  }

  lemma EntriesJoin(order: seq<Tenant>, byTenant: map<Tenant, seq<Job>>, seam: nat, job: Job)
    requires seam <= |order|
    requires forall i :: 0 <= i < |order| ==> order[i] in byTenant
    requires job.tenantId !in byTenant
    ensures Entries(order[..seam] + [job.tenantId] + order[seam..], byTenant[job.tenantId := [job]])
         == Entries(order, byTenant)[..seam] + [Entry(job.tenantId, [job])] + Entries(order, byTenant)[seam..]
  {
    var es := Entries(order, byTenant);
    var order' := order[..seam] + [job.tenantId] + order[seam..];
    var es' := es[..seam] + [Entry(job.tenantId, [job])] + es[seam..];
    forall i | 0 <= i < |order'|
      ensures Entry(order'[i], byTenant[job.tenantId := [job]][order'[i]]) == es'[i]
    {
      if i != seam {
        var k := if i < seam then i else i - 1;
        assert order'[i] == order[k] && es'[i] == es[k];
      }
    }
  }

  // ---- Dequeue ----

  /** The front of the rotation is the slot under the cursor, after the lazy wrap. */
  lemma WrapIsInvisible(tenants: seq<Tenant>, byTenant: map<Tenant, seq<Job>>)
    requires Coherent(tenants, |tenants|, byTenant)
    ensures Coherent(tenants, 0, byTenant)
    ensures RingOf(tenants, 0, byTenant).entries == RingOf(tenants, |tenants|, byTenant).entries
    ensures RingOf(tenants, 0, byTenant).seam == |tenants| && RingOf(tenants, |tenants|, byTenant).seam == 0
  {
    assert Rotation(tenants, 0) == Rotation(tenants, |tenants|);
  }

  ghost function Without(tenants: seq<Tenant>, cursor: nat): seq<Tenant>
    requires cursor < |tenants|
  {
    tenants[..cursor] + tenants[cursor + 1..]
  }

  lemma WithoutIndex(tenants: seq<Tenant>, cursor: nat)
    requires cursor < |tenants| && Unique(tenants)
    ensures Unique(Without(tenants, cursor))
    ensures forall u :: u in Without(tenants, cursor) <==> u in tenants && u != tenants[cursor]
  {
    var ts := Without(tenants, cursor);
    forall u ensures u in ts <==> u in tenants && u != tenants[cursor] {
      if u in tenants && u != tenants[cursor] {
        var p :| 0 <= p < |tenants| && tenants[p] == u;
        assert ts[if p < cursor then p else p - 1] == u;
      }
    }
  }

  lemma DropCoheres(tenants: seq<Tenant>, cursor: nat, byTenant: map<Tenant, seq<Job>>)
    requires Coherent(tenants, cursor, byTenant) && cursor < |tenants|
    ensures Coherent(Without(tenants, cursor), cursor, byTenant - {tenants[cursor]})
  {
    WithoutIndex(tenants, cursor);
  }

  lemma DropRotates(tenants: seq<Tenant>, cursor: nat)
    requires cursor < |tenants|
    ensures Rotation(Without(tenants, cursor), cursor) == Rotation(tenants, cursor)[1..]
  {
  }

  lemma DropRefines(tenants: seq<Tenant>, cursor: nat, byTenant: map<Tenant, seq<Job>>)
    requires Coherent(tenants, cursor, byTenant) && cursor < |tenants|
    requires Coherent(Without(tenants, cursor), cursor, byTenant - {tenants[cursor]})
    requires |byTenant[tenants[cursor]]| == 1
    ensures RingOf(tenants, cursor, byTenant).entries != []
    ensures Front(RingOf(tenants, cursor, byTenant)) == byTenant[tenants[cursor]][0]
    ensures RingOf(Without(tenants, cursor), cursor, byTenant - {tenants[cursor]}) ==
            Dequeue(RingOf(tenants, cursor, byTenant))
  {
    var r := RingOf(tenants, cursor, byTenant);
    RingAt(tenants, cursor, byTenant, 0);
    assert r.entries[0] == Entry(tenants[cursor], byTenant[tenants[cursor]]);
    DropRotates(tenants, cursor);
    assert RingOf(Without(tenants, cursor), cursor, byTenant - {tenants[cursor]}).entries == r.entries[1..];
  }

  lemma MoveBackCoheres(tenants: seq<Tenant>, cursor: nat, byTenant: map<Tenant, seq<Job>>)
    requires Coherent(tenants, cursor, byTenant) && cursor < |tenants|
    requires |byTenant[tenants[cursor]]| > 1
    ensures Coherent(tenants, (cursor + 1) % |tenants|, byTenant[tenants[cursor] := byTenant[tenants[cursor]][1..]])
    ensures (cursor + 1) % |tenants| == if cursor + 1 == |tenants| then 0 else cursor + 1
  {
  }

  lemma MoveBackRotates(tenants: seq<Tenant>, cursor: nat)
    requires cursor < |tenants|
    ensures var order := Rotation(tenants, cursor);
            Rotation(tenants, if cursor + 1 == |tenants| then 0 else cursor + 1) == order[1..] + [order[0]]
  {
  }

  lemma MoveBackRefines(tenants: seq<Tenant>, cursor: nat, byTenant: map<Tenant, seq<Job>>)
    requires Coherent(tenants, cursor, byTenant) && cursor < |tenants|
    requires |byTenant[tenants[cursor]]| > 1
    ensures RingOf(tenants, cursor, byTenant).entries != []
    ensures Front(RingOf(tenants, cursor, byTenant)) == byTenant[tenants[cursor]][0]
    ensures var lists := byTenant[tenants[cursor] := byTenant[tenants[cursor]][1..]];
            && Coherent(tenants, (cursor + 1) % |tenants|, lists)
            && RingOf(tenants, (cursor + 1) % |tenants|, lists) == Dequeue(RingOf(tenants, cursor, byTenant))
  {
    var t := tenants[cursor];
    var lists := byTenant[t := byTenant[t][1..]];
    var r := RingOf(tenants, cursor, byTenant);
    MoveBackCoheres(tenants, cursor, byTenant);
    RingAt(tenants, cursor, byTenant, 0);
    assert r.entries[0] == Entry(t, byTenant[t]);
    MoveBackRotates(tenants, cursor);
    var order := Rotation(tenants, cursor);
    assert order[0] == t;
    assert forall i :: 0 < i < |order| ==> order[i] != t by { RingIsValid(tenants, cursor, byTenant); }
    EntriesMove(order, byTenant);
  }

  lemma EntriesMove(order: seq<Tenant>, byTenant: map<Tenant, seq<Job>>)
    requires forall i :: 0 <= i < |order| ==> order[i] in byTenant
    requires order != [] && byTenant[order[0]] != []
    requires forall i :: 0 < i < |order| ==> order[i] != order[0]
    ensures var es := Entries(order, byTenant); var jobs := byTenant[order[0]][1..];
            Entries(order[1..] + [order[0]], byTenant[order[0] := jobs]) == es[1..] + [Entry(order[0], jobs)]
  {
  }

  // ---- Counting jobs tenant by tenant, in whatever order a map is walked ----

  ghost function Remaining(order: seq<Tenant>, byTenant: map<Tenant, seq<Job>>, left: set<Tenant>): nat
    requires forall i :: 0 <= i < |order| ==> order[i] in byTenant
  {
    if order == [] then 0
    else (if order[0] in left then |byTenant[order[0]]| else 0) + Remaining(order[1..], byTenant, left)
  }

  lemma {:induction false} TakeKey(order: seq<Tenant>, byTenant: map<Tenant, seq<Job>>, left: set<Tenant>, t: Tenant)
    requires forall i :: 0 <= i < |order| ==> order[i] in byTenant
    requires Unique(order) && t in left && t in byTenant
    ensures Remaining(order, byTenant, left)
         == Remaining(order, byTenant, left - {t}) + if t in order then |byTenant[t]| else 0
  {
    if order != [] {
      TakeKey(order[1..], byTenant, left, t);
      assert t in order <==> t == order[0] || t in order[1..];
    }
  }

  lemma {:induction false} NothingRemains(order: seq<Tenant>, byTenant: map<Tenant, seq<Job>>)
    requires forall i :: 0 <= i < |order| ==> order[i] in byTenant
    ensures Remaining(order, byTenant, {}) == 0
  {
    if order != [] { NothingRemains(order[1..], byTenant); }
  }

  lemma {:induction false} AllRemain(order: seq<Tenant>, byTenant: map<Tenant, seq<Job>>)
    requires forall i :: 0 <= i < |order| ==> order[i] in byTenant
    ensures Remaining(order, byTenant, byTenant.Keys) == Fairness.Size(Entries(order, byTenant))
  {
    if order != [] {
      AllRemain(order[1..], byTenant);
      assert Entries(order, byTenant)[1..] == Entries(order[1..], byTenant);
    }
  }

  class FairQueue {
    var tenants: seq<Tenant>
    var cursor: nat
    var byTenant: map<Tenant, seq<Job>>
    var closed: bool
    /** Whether the one slot of the notify channel is taken. */
    var notified: bool

    ghost predicate Ok()
      reads this
    {
      Coherent(tenants, cursor, byTenant)
    }

    ghost function View(): Ring
      requires Ok()
      reads this
    {
      RingOf(tenants, cursor, byTenant)
    }

    constructor ()
      ensures Ok() && View() == EMPTY && !closed && !notified
    {
      tenants, cursor, byTenant := [], 0, map[];
      closed, notified := false, false;
    }

    /** A job is accepted exactly when the context is live and the queue open; then it joins
        its tenant's list and the slot is full. A refused job changes nothing. */
    method Enqueue(ctxLive: bool, job: Job) returns (res: EnqueueResult)
      requires Ok()
      modifies this
      ensures Ok() && closed == old(closed)
      ensures res.Accepted? <==> ctxLive && !old(closed)
      ensures res.ContextDone? <==> !ctxLive
      ensures res.Accepted? ==> View() == RingQueue.Enqueue(old(View()), job) && notified
      ensures !res.Accepted? ==> View() == old(View()) && notified == old(notified)
    {
      if !ctxLive { return ContextDone; }
      if closed { return QueueClosed; }
      if job.tenantId !in byTenant {
        JoinCoheres(tenants, cursor, byTenant, job);
        JoinRefines(tenants, cursor, byTenant, job);
        tenants := tenants + [job.tenantId];
        byTenant := byTenant[job.tenantId := [job]];
      } else {
        AppendCoheres(tenants, cursor, byTenant, job);
        AppendRefines(tenants, cursor, byTenant, job);
        byTenant := byTenant[job.tenantId := byTenant[job.tenantId] + [job]];
      }
      if !notified {
        notified := true;
      }
      return Accepted;
    }

    /** The locked part of Dequeue: the front tenant's oldest job, the tenant leaving the
        rotation when that was its last one and going to the back otherwise. */
    method TryDequeue() returns (res: Attempt)
      requires Ok()
      modifies this
      ensures Ok() && closed == old(closed) && notified == old(notified)
      ensures res.Shut? <==> old(closed)
      ensures res.NothingYet? <==> !old(closed) && old(View()).entries == []
      ensures res.Took? ==>
                && Valid(old(View())) && old(View()).entries != []
                && res.job == Front(old(View()))
                && View() == Dequeue(old(View()))
      ensures !res.Took? ==> View() == old(View())
    {
      if closed { return Shut; }
      if |tenants| > 0 {
        ghost var ring := View();
        assert Valid(ring) by { RingIsValid(tenants, cursor, byTenant); }
        if cursor >= |tenants| {
          WrapIsInvisible(tenants, byTenant);
          cursor := 0;
        }
        assert Coherent(tenants, cursor, byTenant);
        assert Valid(View()) by { RingIsValid(tenants, cursor, byTenant); }
        assert Dequeue(View()) == Dequeue(ring) && Front(View()) == Front(ring);
        var job := TakeAtCursor();
        return Took(job);
      }
      return NothingYet;
    }

    /** The part of Dequeue after the cursor has wrapped. */
    method TakeAtCursor() returns (job: Job)
      requires Ok() && cursor < |tenants| && Valid(View())
      modifies this`tenants, this`cursor, this`byTenant
      ensures Ok()
      ensures old(View()).entries != [] && job == Front(old(View())) && View() == Dequeue(old(View()))
    {
      var tenantId := tenants[cursor];
      var jobs := byTenant[tenantId];
      job := jobs[0];
      jobs := jobs[1..];
      if |jobs| == 0 {
        DropCoheres(tenants, cursor, byTenant);
        DropRefines(tenants, cursor, byTenant);
        byTenant := byTenant - {tenantId};
        tenants := tenants[..cursor] + tenants[cursor + 1..];
      } else {
        MoveBackRefines(tenants, cursor, byTenant);
        byTenant := byTenant[tenantId := jobs];
        cursor := (cursor + 1) % |tenants|;
      }
    }

    /** The number of waiting jobs over all tenants. */
    method Len() returns (count: nat)
      requires Ok()
      ensures count == Fairness.Size(View().entries)
    {
      count := 0;
      var left := byTenant.Keys;
      ghost var order := Rotation(tenants, cursor);
      RingIsValid(tenants, cursor, byTenant);
      AllRemain(order, byTenant);
      assert Unique(order) by {
        forall i, j | 0 <= i < j < |order| ensures order[i] != order[j] {
          assert View().entries[i].tenant != View().entries[j].tenant;
        }
      }
      while left != {}
        invariant left <= byTenant.Keys
        invariant count + Remaining(order, byTenant, left) == Remaining(order, byTenant, byTenant.Keys)
        decreases left
      {
        var t :| t in left;
        TakeKey(order, byTenant, left, t);
        assert t in order;
        count := count + |byTenant[t]|;
        left := left - {t};
      }
      NothingRemains(order, byTenant);
    }

    method Close()
      requires Ok()
      modifies this`closed
      ensures Ok() && closed && View() == old(View())
    {
      if !closed {
        closed := true;
      }
    }
  }
}
