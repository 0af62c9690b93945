/** The compile cache: entries per tenant, runtime version and module digest, with expiry, for
    compiled modules and for compile failures. */
module Caching {
  import opened Common
  import opened Executions
  import opened Simulation

  datatype Key = Key(tenant: Tenant, runtime: string, digest: string)

  datatype Item = Item(result: CompileResult, createdAt: Nanos, lastUsedAt: Nanos, hits: nat, expiresAt: Nanos)

  datatype Cache = Cache(items: map<Key, Item>, hits: nat, misses: nat)

  datatype Lookup = Hit(compiled: Compiled) | KnownFailure(cause: Fault) | Miss | NoContext(fault: Fault)

  const EMPTY_CACHE := Cache(map[], 0, 0)

  function Get(c: Cache, ctx: Ctx, key: Key, now: Nanos): (Cache, Lookup) {
    if ctx != Live then (c, NoContext(ContextFault(ctx)))
    else if key !in c.items then (c.(misses := c.misses + 1), Miss)
    else
      var v := c.items[key];
      if now > v.expiresAt then
        (c.(items := c.items - {key}, misses := c.misses + 1), Miss)
      else
        var used := v.(hits := v.hits + 1, lastUsedAt := now);
        var c' := c.(items := c.items[key := used], hits := c.hits + 1);
        match v.result
        case Ready(m) => (c', Hit(m))
        case Rejected(f) => (c', KnownFailure(f))
  }

  function NewItem(result: CompileResult, ttl: Nanos, now: Nanos): Item {
    Item(result, now, now, 0, now + ttl)
  }

  /** Put and PutFailure alike store nothing on a dead context. */
  function Store(c: Cache, ctx: Ctx, key: Key, result: CompileResult, ttl: Nanos, now: Nanos): Cache {
    if ctx != Live then c else c.(items := c.items[key := NewItem(result, ttl, now)])
  }

  function Drop(c: Cache, ctx: Ctx, key: Key): Cache {
    if ctx != Live then c else c.(items := c.items - {key})
  }

  function KeysOf(c: Cache, t: Tenant): set<Key> {
    set k | k in c.items && k.tenant == t
  }

  function DropTenant(c: Cache, ctx: Ctx, t: Tenant): Cache {
    if ctx != Live then c else c.(items := c.items - KeysOf(c, t))
  }

  // ---- Transparency ----

  /** Every compiled module in the cache is what compiling any content with its digest gives,
      and, with `all`, every failure is of content that does not compile. */
  ghost predicate Faithful(lib: Library, c: Cache, all: bool) {
    forall k, content: Bytes ::
      k in c.items && lib.digest(content) == k.digest ==>
        Agrees(c.items[k].result, Translate(lib, k.runtime, content, k.digest), all)
  }

  predicate Agrees(cached: CompileResult, made: CompileResult, all: bool) {
    match cached
    case Ready(_) => cached == made
    case Rejected(_) => all ==> made.Rejected?
  }

  /** Looking up, expiring, invalidating one key or a tenant keep the cache faithful. */
  lemma FaithfulStays(lib: Library, c: Cache, all: bool, ctx: Ctx, key: Key, t: Tenant, now: Nanos)
    requires Faithful(lib, c, all)
    ensures Faithful(lib, Get(c, ctx, key, now).0, all)
    ensures Faithful(lib, Drop(c, ctx, key), all)
    ensures Faithful(lib, DropTenant(c, ctx, t), all)
  {
  }

  lemma LessFaithful(lib: Library, c: Cache, all: bool)
    requires Faithful(lib, c, all)
    ensures Faithful(lib, c, false)
  {
  }

  /** So does storing a result that agrees with what compiling gives, when the digest has no
      collisions. */
  lemma AgreeingIsFaithful(lib: Library, c: Cache, all: bool, key: Key, content: Bytes, made: CompileResult, ttl: Nanos,
      now: Nanos)
    requires Faithful(lib, c, all) && CollisionFree(lib)
    requires lib.digest(content) == key.digest && Agrees(made, Translate(lib, key.runtime, content, key.digest), all)
    ensures Faithful(lib, Store(c, Live, key, made, ttl, now), all)
  {
    var c' := Store(c, Live, key, made, ttl, now);
    forall k, other: Bytes | k in c'.items && lib.digest(other) == k.digest
      ensures Agrees(c'.items[k].result, Translate(lib, k.runtime, other, k.digest), all)
    {
      if k == key { assert other == content; }
    }
  }

  /** A live lookup never disagrees with compiling: a hit is the very module compiling would
      give, a known failure is of content that does not compile. */
  lemma LookupAgrees(lib: Library, c: Cache, all: bool, key: Key, content: Bytes, now: Nanos)
    requires Faithful(lib, c, all) && lib.digest(content) == key.digest
    ensures match Get(c, Live, key, now).1
            case Hit(m) => Translate(lib, key.runtime, content, key.digest) == Ready(m)
            case KnownFailure(f) => all ==> Translate(lib, key.runtime, content, key.digest).Rejected?
            case Miss => key !in c.items || now > c.items[key].expiresAt
            case NoContext(_) => false
  {
  }

  /** The live context is needed: the failure of a compile whose context was dead, stored for a
      minute, answers later lookups although the content compiles. */
  lemma DeadCompilePoisons(lib: Library, c: Cache, ctx: Ctx, key: Key, content: Bytes, now: Nanos, later: Nanos)
    requires ctx != Live && lib.digest(content) == key.digest
    requires Translate(lib, key.runtime, content, key.digest).Ready?
    requires now <= later <= now + MINUTE
    ensures var failure := Compile(lib, key.runtime, false, ctx, content, key.digest);
            var c' := Store(c, Live, key, failure, MINUTE, now);
            && !Faithful(lib, c', true)
            && Get(c', Live, key, later).1 == KnownFailure(ContextFault(ctx))
  {
    var c' := Store(c, Live, key, Compile(lib, key.runtime, false, ctx, content, key.digest), MINUTE, now);
    assert key in c'.items && !Agrees(c'.items[key].result, Translate(lib, key.runtime, content, key.digest), true);
  }

  /** What one tenant does with the cache is invisible to the lookups of another. */
  lemma TenantsAreApart(c: Cache, mine: Key, other: Key, ctx: Ctx, result: CompileResult, ttl: Nanos, now: Nanos,
      later: Nanos)
    requires mine.tenant != other.tenant
    ensures Get(Get(c, ctx, other, now).0, Live, mine, later).1 == Get(c, Live, mine, later).1
    ensures Get(Store(c, ctx, other, result, ttl, now), Live, mine, later).1 == Get(c, Live, mine, later).1
    ensures Get(Drop(c, ctx, other), Live, mine, later).1 == Get(c, Live, mine, later).1
    ensures Get(DropTenant(c, ctx, other.tenant), Live, mine, later).1 == Get(c, Live, mine, later).1
    ensures Get(DropTenant(c, Live, mine.tenant), Live, mine, later).1 == Miss
  {
  }

  // ---- What a lookup answers, from the history alone ----

  /** What is done with the cache, and when. */
  datatype Use =
    | Ask(ctx: Ctx, key: Key, at: Nanos)
    | Keep(ctx: Ctx, key: Key, result: CompileResult, ttl: Nanos, at: Nanos)
    | Forget(ctx: Ctx, key: Key, at: Nanos)
    | ForgetAll(ctx: Ctx, tenant: Tenant, at: Nanos)

  function Apply(c: Cache, u: Use): Cache {
    match u
    case Ask(ctx, key, at) => Get(c, ctx, key, at).0
    case Keep(ctx, key, result, ttl, at) => Store(c, ctx, key, result, ttl, at)
    case Forget(ctx, key, _) => Drop(c, ctx, key)
    case ForgetAll(ctx, t, _) => DropTenant(c, ctx, t)
  }

  function Exec(c: Cache, uses: seq<Use>): Cache
    decreases uses
  {
    if uses == [] then c else Exec(Apply(c, uses[0]), uses[1..])
  }

  /** On a clock that does not run backwards. */
  predicate InOrder(uses: seq<Use>, now: Nanos) {
    && (forall i, j :: 0 <= i < j < |uses| ==> uses[i].at <= uses[j].at)
    && (forall i :: 0 <= i < |uses| ==> uses[i].at <= now)
  }

  /** It stores something else under the key, or takes away what is stored there. */
  predicate Replaces(u: Use, key: Key) {
    u.ctx == Live && !u.Ask? && if u.ForgetAll? then u.tenant == key.tenant else u.key == key
  }

  /** The last thing stored under the key, and not taken away since. */
  predicate Stands(uses: seq<Use>, key: Key, i: nat) {
    && i < |uses| && uses[i].Keep? && Replaces(uses[i], key)
    && forall j :: i < j < |uses| ==> !Replaces(uses[j], key)
  }

  /** And not yet lapsed. */
  predicate Holds(uses: seq<Use>, key: Key, i: nat, now: Nanos) {
    Stands(uses, key, i) && now <= uses[i].at + uses[i].ttl
  }

  /** What is stored, read back. */
  predicate Answers(found: Lookup, result: CompileResult) {
    match result
    case Ready(m) => found == Hit(m)
    case Rejected(f) => found == KnownFailure(f)
  }

  lemma {:induction false} ExecOn(c: Cache, uses: seq<Use>, u: Use)
    ensures Exec(c, uses + [u]) == Apply(Exec(c, uses), u)
    decreases uses
  {
    if uses == [] {
      assert uses + [u] == [u] && [u][1..] == [];
      assert Exec(Apply(c, u), []) == Apply(c, u);
    } else {
      ExecOn(Apply(c, uses[0]), uses[1..], u);
      assert (uses + [u])[1..] == uses[1..] + [u];
    }
  }

  /** What is in the cache under the key is the last thing stored there, and it is there while it
      has not lapsed. */
  ghost predicate Mirrors(c: Cache, uses: seq<Use>, key: Key, now: Nanos) {
    && (key in c.items ==>
          exists i: nat :: Stands(uses, key, i) && c.items[key].result == uses[i].result
                           && c.items[key].expiresAt == uses[i].at + uses[i].ttl)
    && (forall i: nat :: Holds(uses, key, i, now) ==> key in c.items)
  }

  lemma StandsOnce(uses: seq<Use>, key: Key, i: nat, j: nat)
    requires Stands(uses, key, i) && Stands(uses, key, j)
    ensures i == j
  {
  }

  lemma StandsOn(uses: seq<Use>, u: Use, key: Key, i: nat)
    ensures i < |uses| ==> (Stands(uses + [u], key, i) <==> Stands(uses, key, i) && !Replaces(u, key))
    ensures Stands(uses + [u], key, |uses|) <==> u.Keep? && Replaces(u, key)
  {
    var more := uses + [u];
    assert more[|uses|] == u && forall j :: 0 <= j < |uses| ==> more[j] == uses[j];
  }

  lemma ReplacedMirrors(c: Cache, uses: seq<Use>, u: Use, key: Key, now: Nanos)
    requires Replaces(u, key) && u.at <= now
    ensures Mirrors(Apply(c, u), uses + [u], key, now)
  {
    var c', more := Apply(c, u), uses + [u];
    forall i: nat | Holds(more, key, i, now) ensures key in c'.items {
      StandsOn(uses, u, key, i);
    }
    StandsOn(uses, u, key, |uses|);
  }

  lemma OtherMirrors(c: Cache, uses: seq<Use>, u: Use, key: Key, now: Nanos)
    requires Mirrors(c, uses, key, u.at) && !Replaces(u, key) && u.at <= now
    ensures Mirrors(Apply(c, u), uses + [u], key, now)
  {
    var c', more := Apply(c, u), uses + [u];
    if key in c'.items {
      var i: nat :| Stands(uses, key, i) && c.items[key].result == uses[i].result
                    && c.items[key].expiresAt == uses[i].at + uses[i].ttl;
      StandsOn(uses, u, key, i);
      assert Stands(more, key, i) && more[i] == uses[i];
    }
    forall i: nat | Holds(more, key, i, now) ensures key in c'.items {
      StandsOn(uses, u, key, i);
      assert i < |uses| && more[i] == uses[i];
      assert Holds(uses, key, i, u.at);
      if key in c.items {
        var j: nat :| Stands(uses, key, j) && c.items[key].result == uses[j].result
                      && c.items[key].expiresAt == uses[j].at + uses[j].ttl;
        StandsOnce(uses, key, i, j);
      }
    }
  }

  lemma {:induction false} HistoryMirrors(uses: seq<Use>, key: Key, now: Nanos)
    requires InOrder(uses, now)
    ensures Mirrors(Exec(EMPTY_CACHE, uses), uses, key, now)
    decreases uses
  {
    if uses != [] {
      var before, u := uses[..|uses| - 1], uses[|uses| - 1];
      assert before + [u] == uses;
      HistoryMirrors(before, key, u.at);
      ExecOn(EMPTY_CACHE, before, u);
      if Replaces(u, key) {
        ReplacedMirrors(Exec(EMPTY_CACHE, before), before, u, key, now);
      } else {
        OtherMirrors(Exec(EMPTY_CACHE, before), before, u, key, now);
      }
    }
  }

  /** After any lookups, stores and invalidations, a live lookup answers if and only if something
      was stored under its key that is not taken away since and not longer ago than its time to
      live; and then with what was stored. */
  lemma LookupAnswersExactly(uses: seq<Use>, key: Key, now: Nanos)
    requires InOrder(uses, now)
    ensures var found := Get(Exec(EMPTY_CACHE, uses), Live, key, now).1;
            && !found.NoContext?
            && (found.Miss? <==> !exists i: nat :: Holds(uses, key, i, now))
            && (forall i: nat :: Holds(uses, key, i, now) ==> Answers(found, uses[i].result))
  {
    var c := Exec(EMPTY_CACHE, uses);
    HistoryMirrors(uses, key, now);
    if key in c.items {
      var i: nat :| Stands(uses, key, i) && c.items[key].result == uses[i].result
                    && c.items[key].expiresAt == uses[i].at + uses[i].ttl;
      forall j: nat | Holds(uses, key, j, now) ensures i == j { StandsOnce(uses, key, i, j); }
      assert now <= c.items[key].expiresAt <==> Holds(uses, key, i, now);
    }
  }

  /** Each live lookup is counted, as a hit or as a miss, and nothing else is. */
  lemma LookupsAreCounted(c: Cache, u: Use)
    ensures var c' := Apply(c, u);
            if u.Ask? && u.ctx == Live then
              if Get(c, u.ctx, u.key, u.at).1.Miss? then c'.misses == c.misses + 1 && c'.hits == c.hits
              else c'.hits == c.hits + 1 && c'.misses == c.misses
            else c'.hits == c.hits && c'.misses == c.misses
  {
  }

  /** An answer is noted on its entry, which otherwise stays as it was stored, and no other entry is
      touched by a lookup unless it has lapsed. */
  lemma AnswersAreNoted(c: Cache, key: Key, now: Nanos)
    ensures var (c', found) := Get(c, Live, key, now);
            && (!found.Miss? ==>
                  && key in c.items && key in c'.items && c'.items.Keys == c.items.Keys
                  && c'.items[key].hits == c.items[key].hits + 1 && c'.items[key].lastUsedAt == now
                  && c'.items[key].createdAt == c.items[key].createdAt
                  && c'.items[key].expiresAt == c.items[key].expiresAt)
            && (found.Miss? ==> c'.items == c.items - {key})
            && forall k :: k in c.items && k != key ==> k in c'.items && c'.items[k] == c.items[k]
  {
  }
}
