/** The compile cache as an object. */
module CacheMemories {
  import opened Common
  import opened Executions
  import opened Simulation
  import C = Caching

  datatype Stats = Stats(entries: nat, hits: nat, misses: nat, failures: nat)

  /** The entries that record a compile failure. */
  function Failures(items: map<C.Key, C.Item>): set<C.Key> {
    set k | k in items && items[k].result.Rejected?
  }

  class CacheMemory {
    var items: map<C.Key, C.Item>
    var hits: nat
    var misses: nat

    ghost function View(): C.Cache
      reads this
    {
      C.Cache(items, hits, misses)
    }

    constructor ()
      ensures View() == C.EMPTY_CACHE
    {
      items, hits, misses := map[], 0, 0;
    }

    method Get(ctx: Ctx, key: C.Key, now: Nanos) returns (found: C.Lookup)
      modifies this
      ensures (View(), found) == C.Get(old(View()), ctx, key, now)
    {
      if ctx != Live { return C.NoContext(ContextFault(ctx)); }
      if key !in items {
        misses := misses + 1;
        return C.Miss;
      }
      var v := items[key];
      if now > v.expiresAt {
        items := items - {key};
        misses := misses + 1;
        return C.Miss;
      }
      v := v.(hits := v.hits + 1);
      v := v.(lastUsedAt := now);
      items := items[key := v];
      hits := hits + 1;
      if v.result.Rejected? { return C.KnownFailure(v.result.fault); }
      return C.Hit(v.result.compiled);
    }

    /** Reports whether the context was live, that is, whether the module was stored. */
    method Put(ctx: Ctx, key: C.Key, compiled: Compiled, ttl: Nanos, now: Nanos) returns (stored: bool)
      modifies this`items
      ensures View() == C.Store(old(View()), ctx, key, Ready(compiled), ttl, now)
      ensures stored <==> ctx == Live
    {
      if ctx != Live { return false; }
      items := items[key := C.Item(Ready(compiled), now, now, 0, now + ttl)];
      return true;
    }

    method PutFailure(ctx: Ctx, key: C.Key, failure: Fault, ttl: Nanos, now: Nanos)
      modifies this`items
      ensures View() == C.Store(old(View()), ctx, key, Rejected(failure), ttl, now)
    {
      if ctx != Live { return; }
      items := items[key := C.Item(Rejected(failure), now, now, 0, now + ttl)];
    }

    method Invalidate(ctx: Ctx, key: C.Key)
      modifies this`items
      ensures View() == C.Drop(old(View()), ctx, key)
    {
      if ctx != Live { return; }
      items := items - {key};
    }

    /** Removes exactly the tenant's entries and says how many there were. */
    method InvalidateTenant(ctx: Ctx, tenant: Tenant) returns (n: nat)
      modifies this`items
      ensures View() == C.DropTenant(old(View()), ctx, tenant)
      ensures n == if ctx == Live then |C.KeysOf(old(View()), tenant)| else 0
    {
      if ctx != Live { return 0; }
      n := 0;
      ghost var was := items;
      var left := items.Keys;
      while left != {}
        invariant left <= was.Keys
        invariant items == was - set k | k in was && k !in left && k.tenant == tenant
        invariant n == |set k | k in was && k !in left && k.tenant == tenant|
        decreases left
      {
        var k :| k in left;
        ghost var gone := set j | j in was && j !in left && j.tenant == tenant;
        ghost var gone' := set j | j in was && j !in left - {k} && j.tenant == tenant;
        if k.tenant == tenant {
          assert gone' == gone + {k};
          items := items - {k};
          n := n + 1;
        } else {
          assert gone' == gone;
        }
        left := left - {k};
      }
      assert C.KeysOf(old(View()), tenant) == set k | k in was && k !in left && k.tenant == tenant;
    }

    /** Counts the entries, the failures among them, and the lookups so far. */
    method Report() returns (s: Stats)
      ensures s == Stats(|items|, hits, misses, |Failures(items)|)
    {
      s := Stats(|items|, hits, misses, 0);
      var left := items.Keys;
      while left != {}
        invariant left <= items.Keys
        invariant s == Stats(|items|, hits, misses, |Failures(items) - left|)
        decreases left
      {
        var k :| k in left;
        if items[k].result.Rejected? {
          assert Failures(items) - (left - {k}) == (Failures(items) - left) + {k};
          s := s.(failures := s.failures + 1);
        } else {
          assert Failures(items) - (left - {k}) == Failures(items) - left;
        }
        left := left - {k};
      }
      assert Failures(items) - {} == Failures(items);
    }
  }
}
