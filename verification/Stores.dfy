/** What the store keeps across restarts: modules, executions and idempotency entries. */
module Stores {
  import opened Common
  import opened Executions
  import M = Modules

  datatype Disk = Disk(shelf: M.Shelf, executions: map<Id, Execution>, idempotency: map<string, Id>)

  const EMPTY_DISK := Disk(M.Shelf(map[], map[]), map[], map[])

  // ---- Recovery after a restart ----

  /** The records a restart finds unfinished. */
  function Stale(executions: map<Id, Execution>): set<Id> {
    set id | id in executions && Unfinished(executions[id])
  }

  function Settle(e: Execution): Execution {
    if Unfinished(e) then Interrupted(e) else e
  }

  function Recovered(executions: map<Id, Execution>): map<Id, Execution> {
    map id | id in executions :: Settle(executions[id])
  }

  /** Recovery leaves nothing queued or running, touches no terminal record, keeps everything of
      the others but their status and error, and finds nothing to do a second time. */
  lemma RecoveryIsClean(executions: map<Id, Execution>)
    ensures Recovered(executions).Keys == executions.Keys
    ensures forall id :: id in executions ==> Terminal(Recovered(executions)[id])
    ensures forall id :: id in executions && Terminal(executions[id]) ==> Recovered(executions)[id] == executions[id]
    ensures forall id :: id in executions && !Terminal(executions[id]) ==>
                           && Recovered(executions)[id].status == Failed
                           && Recovered(executions)[id].errorClass == ErrUnavailable
                           && Recovered(executions)[id].fault == InterruptedByRestart
                           && Recovered(executions)[id].(status := executions[id].status,
                                                         errorClass := executions[id].errorClass,
                                                         fault := executions[id].fault)
                              == executions[id]
    ensures Stale(Recovered(executions)) == {}
    ensures Recovered(Recovered(executions)) == Recovered(executions)
  {
  }

  /** Recovery partway: the records still to be visited are untouched. */
  predicate Partway(was: map<Id, Execution>, now: map<Id, Execution>, left: set<Id>) {
    && now.Keys == was.Keys
    && forall id :: id in was ==> now[id] == if id in left then was[id] else Settle(was[id])
  }

  lemma VisitOne(was: map<Id, Execution>, now: map<Id, Execution>, left: set<Id>, id: Id)
    requires Partway(was, now, left) && id in was && id in left
    ensures Partway(was, now[id := Settle(was[id])], left - {id})
    ensures now[id] == was[id]
    ensures !Unfinished(was[id]) ==> Partway(was, now, left - {id})
  {
  }

  lemma AllVisited(was: map<Id, Execution>, now: map<Id, Execution>)
    requires Partway(was, now, {})
    ensures now == Recovered(was)
  {
  }

  /** The stale records among those already visited. */
  ghost function Found(executions: map<Id, Execution>, left: set<Id>): nat {
    |Stale(executions) - left|
  }

  lemma CountOne(executions: map<Id, Execution>, left: set<Id>, id: Id)
    requires id in executions && id in left
    ensures Found(executions, left - {id}) == Found(executions, left) + if Unfinished(executions[id]) then 1 else 0
  {
    assert Stale(executions) - (left - {id})
        == (Stale(executions) - left) + if Unfinished(executions[id]) then {id} else {};
    assert id !in Stale(executions) - left;
  }

  lemma CountEnds(executions: map<Id, Execution>)
    ensures Found(executions, executions.Keys) == 0
    ensures Found(executions, {}) == |Stale(executions)|
  {
    assert Stale(executions) - executions.Keys == {};
    assert Stale(executions) - {} == Stale(executions);
  }

  // ---- Idempotency keys ----

  /** The key under which an entry is stored. */
  function EntryKey(t: Tenant, key: string): string {
    t + (":" + key)
  }

  predicate ColonFree(t: Tenant) {
    ':' !in t
  }

  lemma PrefixOf(a: string, b: string, c: string, d: string)
    requires a + b == c + d && |a| <= |c|
    ensures c == a + c[|a|..] && b == c[|a|..] + d
  {
    var w := a + b;
    assert w == c + d;
    assert a == w[..|a|] && b == w[|a|..] && c == w[..|c|] && d == w[|c|..];
    assert w[..|c|][..|a|] == w[..|a|];
    assert w[|a|..] == w[|a|..|c|] + w[|c|..];
  }

  /** Two tenants share an entry exactly when one is the other followed by a colon and the start
      of its key. */
  lemma EntriesCollideExactly(t1: Tenant, k1: string, t2: Tenant, k2: string)
    requires |t1| <= |t2|
    ensures EntryKey(t1, k1) == EntryKey(t2, k2) <==>
              (t1 == t2 && k1 == k2) ||
              (|t1| < |t2| && t2 == t1 + ":" + t2[|t1| + 1..] && k1 == t2[|t1| + 1..] + ":" + k2)
  {
    if EntryKey(t1, k1) == EntryKey(t2, k2) {
      PrefixOf(t1, ":" + k1, t2, ":" + k2);
      var rest := t2[|t1|..];
      assert ":" + k1 == rest + (":" + k2);
      if rest == [] {
        assert t1 == t2;
        assert (":" + k1)[1..] == k1 && (":" + k2)[1..] == k2;
        assert rest + (":" + k2) == ":" + k2;
      } else {
        assert rest[0] == (":" + k1)[0] == ':';
        assert rest == ":" + rest[1..];
        assert rest[1..] == t2[|t1| + 1..];
        assert (":" + k1)[1..] == k1;
        assert (rest + (":" + k2))[1..] == rest[1..] + ":" + k2;
      }
    }
  }

  lemma ColonInside(a: string, b: string)
    ensures !ColonFree(a + ":" + b)
  {
    assert (a + ":" + b)[|a|] == ':';
  }

  /** Tenants without a colon never share an entry. */
  lemma ColonFreeEntriesDiffer(t1: Tenant, k1: string, t2: Tenant, k2: string)
    requires ColonFree(t1) && ColonFree(t2) && EntryKey(t1, k1) == EntryKey(t2, k2)
    ensures t1 == t2 && k1 == k2
  {
    if |t1| <= |t2| {
      EntriesCollideExactly(t1, k1, t2, k2);
      ColonInside(t1, if |t1| < |t2| then t2[|t1| + 1..] else []);
    } else {
      EntriesCollideExactly(t2, k2, t1, k1);
      ColonInside(t2, t1[|t2| + 1..]);
    }
  }

  /** A tenant with a colon shares an entry with a shorter tenant, whatever its key. */
  lemma ColonTenantCollides(a: Tenant, b: string, key: string)
    ensures EntryKey(a + ":" + b, key) == EntryKey(a, b + ":" + key)
    ensures a + ":" + b != a
  {
    assert EntryKey(a + ":" + b, key) == a + ":" + (b + ":" + key);
    assert |a + ":" + b| > |a|;
  }

  /** FindIdempotency on a live context. */
  function Lookup(d: Disk, t: Tenant, key: string): Option<Execution> {
    if EntryKey(t, key) in d.idempotency && d.idempotency[EntryKey(t, key)] in d.executions
    then Some(d.executions[d.idempotency[EntryKey(t, key)]])
    else None
  }

  function SaveEntry(d: Disk, t: Tenant, key: string, id: Id): Disk {
    if key == "" then d else d.(idempotency := d.idempotency[EntryKey(t, key) := id])
  }
}
