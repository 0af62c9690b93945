/** Registered modules: immutable content and identity, and a life cycle of three states. */
module Modules {
  import opened Common
  import opened Simulation

  datatype State = Draft | Published | Withdrawn

  datatype Capability = Capability(name: string, access: string)

  datatype Module = Module(
    id: Id,
    tenantId: Tenant,
    name: string,
    version: string,
    digest: string,
    entry: string,
    abi: string,
    runtime: string,
    capabilities: seq<Capability>,
    envAllowlist: seq<string>,
    importList: seq<string>,
    size: nat,
    objectKey: string,
    state: State,
    createdAt: Nanos,
    publishedAt: Option<Nanos>,
    withdrawnAt: Option<Nanos>)

  datatype Registration = Registration(
    tenantId: Tenant,
    name: string,
    version: string,
    digest: string,
    entry: string,
    abi: string,
    runtime: string,
    capabilities: seq<Capability>,
    envAllowlist: seq<string>,
    importList: seq<string>,
    objectKey: string,
    content: Bytes)

  datatype Problem =
    | Unverified
    | MissingFields
    | NoContent
    | TooLarge
    | InvalidDigest
    | IncompatibleAbi
    | IdTaken
    | VersionTaken
    | NoSuchModule
    | InvalidTransition
    | ContextDone

  datatype Reply = Stored(mod: Module) | Refused(why: Problem)

  function New(lib: Library, id: Id, r: Registration, maxBytes: int, now: Nanos): Reply {
    if lib.blank(r.tenantId) || lib.blank(r.name) || lib.blank(r.version) then Refused(MissingFields)
    else if |r.content| == 0 then Refused(NoContent)
    else if |r.content| > maxBytes then Refused(TooLarge)
    else
      var actual := lib.digest(r.content);
      if r.digest != "" && r.digest != actual then Refused(InvalidDigest) else
      var abi := if r.abi == "" then "sandbox/v1" else r.abi;
      if abi != "sandbox/v1" then Refused(IncompatibleAbi) else
      Stored(Module(id, r.tenantId, r.name, r.version, actual,
                  if r.entry == "" then "run" else r.entry, abi,
                  if r.runtime == "" then "sim/v1" else r.runtime,
                  r.capabilities, r.envAllowlist, r.importList, |r.content|, r.objectKey,
                  Draft, now, None, None))
  }

  function Publish(m: Module, now: Nanos): Reply {
    if m.state != Draft then Refused(InvalidTransition)
    else Stored(m.(state := Published, publishedAt := Some(now)))
  }

  function Withdraw(m: Module, now: Nanos): Reply {
    if m.state != Published then Refused(InvalidTransition)
    else Stored(m.(state := Withdrawn, withdrawnAt := Some(now)))
  }

  predicate IsRunnable(m: Module) {
    m.state == Published
  }

  // ---- The module part of the store ----

  datatype Shelf = Shelf(modules: map<Id, Module>, contents: map<Id, Bytes>)

  predicate SameVersion(a: Module, b: Module) {
    a.tenantId == b.tenantId && a.name == b.name && a.version == b.version
  }

  predicate HasVersion(s: Shelf, m: Module) {
    exists id :: id in s.modules && SameVersion(s.modules[id], m)
  }

  datatype Op =
    | Register(id: Id, reg: Registration, verified: bool)
    | PublishOp(id: Id)
    | WithdrawOp(id: Id)

  /** Register, Publish and Withdraw of the module service, each as one step. */
  function Apply(lib: Library, maxBytes: int, s: Shelf, op: Op, now: Nanos): (Shelf, Reply) {
    match op
    case Register(id, reg, verified) =>
      if !verified then (s, Refused(Unverified)) else
      var made := New(lib, id, reg, maxBytes, now);
      if made.Refused? then (s, made)
      else if id in s.modules then (s, Refused(IdTaken))
      else if HasVersion(s, made.mod) then (s, Refused(VersionTaken))
      else (Shelf(s.modules[id := made.mod], s.contents[id := reg.content]), made)
    case PublishOp(id) => Rewrite(s, id, if id in s.modules then Publish(s.modules[id], now) else Refused(NoSuchModule))
    case WithdrawOp(id) => Rewrite(s, id, if id in s.modules then Withdraw(s.modules[id], now)
                                   else Refused(NoSuchModule))
  }

  function Rewrite(s: Shelf, id: Id, reply: Reply): (Shelf, Reply) {
    if reply.Refused? then (s, reply) else (s.(modules := s.modules[id := reply.mod]), reply)
  }

  ghost predicate Coherent(lib: Library, s: Shelf) {
    && s.modules.Keys == s.contents.Keys
    && (forall id :: id in s.modules ==> Described(lib, s, id))
    && (forall a, b :: a in s.modules && b in s.modules && a != b ==> !SameVersion(s.modules[a], s.modules[b]))
  }

  /** The dates tell where it is in its life cycle. */
  predicate Dated(m: Module) {
    (m.publishedAt.None? <==> m.state == Draft) && (m.withdrawnAt.Some? <==> m.state == Withdrawn)
  }

  /** The stored fields of a module fit its identifier and its content. */
  ghost predicate Described(lib: Library, s: Shelf, id: Id)
    requires id in s.modules && s.modules.Keys == s.contents.Keys
  {
    var m := s.modules[id];
    && m.id == id
    && m.digest == lib.digest(s.contents[id])
    && m.size == |s.contents[id]| && m.size > 0
    && m.entry != "" && Dated(m)
    && !lib.blank(m.tenantId) && !lib.blank(m.name) && !lib.blank(m.version)
  }

  function Rank(st: State): nat {
    match st
    case Draft => 0
    case Published => 1
    case Withdrawn => 2
  }

  /** Everything but the life cycle of a module. */
  function Identity(m: Module): Module {
    m.(state := Draft, publishedAt := None, withdrawnAt := None)
  }

  /** What later shelves keep: modules stay, with their content and identity, and their state
      only moves forward. */
  ghost predicate Keeps(s: Shelf, s': Shelf) {
    forall id :: id in s.modules && id in s.contents ==>
      && id in s'.modules && id in s'.contents
      && s'.contents[id] == s.contents[id]
      && Identity(s'.modules[id]) == Identity(s.modules[id])
      && Rank(s.modules[id].state) <= Rank(s'.modules[id].state)
  }

  /** A registration names its tenant, itself and its version, and comes with some content within
      the size limit, with the digest of that content if any and the one interface there is if any. */
  predicate Acceptable(lib: Library, r: Registration, maxBytes: int) {
    && !lib.blank(r.tenantId) && !lib.blank(r.name) && !lib.blank(r.version)
    && 0 < |r.content| <= maxBytes
    && (r.digest == "" || r.digest == lib.digest(r.content))
    && (r.abi == "" || r.abi == "sandbox/v1")
  }

  /** Exactly those are accepted, and the others are refused for the first of these that fails. */
  lemma NewExactly(lib: Library, id: Id, r: Registration, maxBytes: int, now: Nanos)
    ensures var made := New(lib, id, r, maxBytes, now);
            var named := !lib.blank(r.tenantId) && !lib.blank(r.name) && !lib.blank(r.version);
            var digested := r.digest == "" || r.digest == lib.digest(r.content);
            && (made.Stored? <==> Acceptable(lib, r, maxBytes))
            && (made == Refused(MissingFields) <==> !named)
            && (made == Refused(NoContent) <==> named && r.content == [])
            && (made == Refused(TooLarge) <==> named && |r.content| > 0 && |r.content| > maxBytes)
            && (made == Refused(InvalidDigest) <==> named && 0 < |r.content| <= maxBytes && !digested)
            && (made == Refused(IncompatibleAbi) <==>
                  named && 0 < |r.content| <= maxBytes && digested && r.abi != "" && r.abi != "sandbox/v1")
  {
  }

  /** What is registered is a draft of the request, with the digest and the size of its content and
      the defaults for what was left out. */
  lemma NewIsDescribed(lib: Library, id: Id, r: Registration, maxBytes: int, now: Nanos)
    requires New(lib, id, r, maxBytes, now).Stored?
    ensures var m := New(lib, id, r, maxBytes, now).mod;
            && m.id == id && m.digest == lib.digest(r.content) && m.size == |r.content| && m.size > 0 && m.entry != ""
            && !lib.blank(m.tenantId) && !lib.blank(m.name) && !lib.blank(m.version)
            && m.state == Draft && Dated(m) && m.createdAt == now
            && m.tenantId == r.tenantId && m.name == r.name && m.version == r.version
            && m.capabilities == r.capabilities && m.envAllowlist == r.envAllowlist && m.importList == r.importList
            && m.objectKey == r.objectKey && m.abi == "sandbox/v1"
            && (r.entry != "" ==> m.entry == r.entry) && (r.entry == "" ==> m.entry == "run")
            && (r.runtime != "" ==> m.runtime == r.runtime) && (r.runtime == "" ==> m.runtime == "sim/v1")
  {
  }

  /** A module is registered if and only if its signature is verified, it is acceptable, and neither
      its identifier nor its version is taken; nothing else on the shelf changes, and nothing at all
      when it is refused. */
  lemma RegistersExactly(lib: Library, maxBytes: int, s: Shelf, id: Id, r: Registration, verified: bool, now: Nanos)
    ensures var (s', reply) := Apply(lib, maxBytes, s, Register(id, r, verified), now);
            && (reply.Stored? <==>
                  && verified && Acceptable(lib, r, maxBytes) && id !in s.modules
                  && !exists k :: k in s.modules && s.modules[k].tenantId == r.tenantId && s.modules[k].name == r.name
                                  && s.modules[k].version == r.version)
            && (reply.Stored? ==>
                  s'.modules == s.modules[id := reply.mod] && s'.contents == s.contents[id := r.content])
            && (reply.Refused? ==> s' == s)
            && (reply == Refused(Unverified) <==> !verified)
  {
    NewExactly(lib, id, r, maxBytes, now);
    if Acceptable(lib, r, maxBytes) {
      NewIsDescribed(lib, id, r, maxBytes, now);
      var m := New(lib, id, r, maxBytes, now).mod;
      forall k | k in s.modules && SameVersion(s.modules[k], m)
        ensures s.modules[k].tenantId == r.tenantId && s.modules[k].name == r.name && s.modules[k].version == r.version
      {
      }
      forall k | k in s.modules && s.modules[k].tenantId == r.tenantId && s.modules[k].name == r.name
                 && s.modules[k].version == r.version
        ensures SameVersion(s.modules[k], m)
      {
      }
    }
  }

  /** The module is another, in nothing but its life cycle, and no other module is. */
  ghost predicate MovesOnly(s: Shelf, s': Shelf, id: Id) {
    && id in s.modules && s'.modules.Keys == s.modules.Keys && s'.contents == s.contents
    && Identity(s'.modules[id]) == Identity(s.modules[id])
    && forall k :: k in s.modules && k != id ==> s'.modules[k] == s.modules[k]
  }

  /** A module is published if and only if it never was, and withdrawn if and only if it is
      published and has not been; the date is when, and nothing else changes. */
  lemma LifeCycleExactly(lib: Library, maxBytes: int, s: Shelf, id: Id, now: Nanos)
    requires Coherent(lib, s)
    ensures var (s', reply) := Apply(lib, maxBytes, s, PublishOp(id), now);
            && (reply.Stored? <==> id in s.modules && s.modules[id].publishedAt.None?)
            && (reply.Stored? ==> MovesOnly(s, s', id) && s'.modules[id].publishedAt == Some(now)
                                  && s'.modules[id].withdrawnAt.None?)
            && (reply.Refused? ==> s' == s) && (reply == Refused(NoSuchModule) <==> id !in s.modules)
    ensures var (s', reply) := Apply(lib, maxBytes, s, WithdrawOp(id), now);
            && (reply.Stored? <==>
                  id in s.modules && s.modules[id].publishedAt.Some? && s.modules[id].withdrawnAt.None?)
            && (reply.Stored? ==> MovesOnly(s, s', id) && s'.modules[id].withdrawnAt == Some(now)
                                  && s'.modules[id].publishedAt == s.modules[id].publishedAt)
            && (reply.Refused? ==> s' == s) && (reply == Refused(NoSuchModule) <==> id !in s.modules)
  {
    if id in s.modules { assert Described(lib, s, id); }
  }

  lemma RegisterStep(lib: Library, s: Shelf, id: Id, m: Module, content: Bytes)
    requires Coherent(lib, s) && id !in s.modules && !HasVersion(s, m)
    requires m.id == id && m.digest == lib.digest(content) && m.size == |content| && m.size > 0 && m.entry != ""
    requires !lib.blank(m.tenantId) && !lib.blank(m.name) && !lib.blank(m.version) && Dated(m)
    ensures Coherent(lib, Shelf(s.modules[id := m], s.contents[id := content]))
    ensures Keeps(s, Shelf(s.modules[id := m], s.contents[id := content]))
  {
    var s' := Shelf(s.modules[id := m], s.contents[id := content]);
    forall k | k in s'.modules ensures Described(lib, s', k) {
      if k in s.modules { assert Described(lib, s, k); }
    }
    forall a, b | a in s'.modules && b in s'.modules && a != b ensures !SameVersion(s'.modules[a], s'.modules[b]) {
      if a == id { assert !SameVersion(s.modules[b], m); }
      if b == id { assert !SameVersion(s.modules[a], m); }
    }
  }

  lemma RewriteStep(lib: Library, s: Shelf, id: Id, m: Module)
    requires Coherent(lib, s) && id in s.modules
    requires Identity(m) == Identity(s.modules[id]) && Rank(s.modules[id].state) <= Rank(m.state) && Dated(m)
    ensures Coherent(lib, s.(modules := s.modules[id := m]))
    ensures Keeps(s, s.(modules := s.modules[id := m]))
  {
    var s' := s.(modules := s.modules[id := m]);
    SameIdentity(s.modules[id], m);
    forall k | k in s'.modules ensures Described(lib, s', k) {
      assert Described(lib, s, k);
    }
    forall a, b | a in s'.modules && b in s'.modules && a != b ensures !SameVersion(s'.modules[a], s'.modules[b]) {
      assert !SameVersion(s.modules[a], s.modules[b]);
    }
  }

  lemma SameIdentity(a: Module, b: Module)
    requires Identity(a) == Identity(b)
    ensures a.id == b.id && a.tenantId == b.tenantId && a.name == b.name && a.version == b.version
    ensures a.digest == b.digest && a.entry == b.entry && a.size == b.size && a.runtime == b.runtime
  {
    assert Identity(a).id == Identity(b).id;
  }

  lemma OneStep(lib: Library, maxBytes: int, s: Shelf, op: Op, now: Nanos)
    requires Coherent(lib, s)
    ensures Coherent(lib, Apply(lib, maxBytes, s, op, now).0)
    ensures Keeps(s, Apply(lib, maxBytes, s, op, now).0)
  {
    if !op.Register? && op.id in s.modules { assert Described(lib, s, op.id); }
    match op
    case Register(id, reg, _) =>
      if Apply(lib, maxBytes, s, op, now).1.Stored? {
        NewIsDescribed(lib, id, reg, maxBytes, now);
        RegisterStep(lib, s, id, New(lib, id, reg, maxBytes, now).mod, reg.content);
      }
    case PublishOp(id) =>
      if id in s.modules && s.modules[id].state == Draft {
        RewriteStep(lib, s, id, Publish(s.modules[id], now).mod);
      }
    case WithdrawOp(id) =>
      if id in s.modules && s.modules[id].state == Published {
        RewriteStep(lib, s, id, Withdraw(s.modules[id], now).mod);
      }
  }

  function Exec(lib: Library, maxBytes: int, s: Shelf, ops: seq<(Op, Nanos)>): Shelf
    decreases ops
  {
    if ops == [] then s else Exec(lib, maxBytes, Apply(lib, maxBytes, s, ops[0].0, ops[0].1).0, ops[1..])
  }

  lemma KeepsOn(a: Shelf, b: Shelf, c: Shelf)
    requires a.modules.Keys == a.contents.Keys && b.modules.Keys == b.contents.Keys
    requires Keeps(a, b) && Keeps(b, c)
    ensures Keeps(a, c)
  {
  }

  /** Over any sequence of registrations, publications and withdrawals. */
  lemma {:induction false} RunsKeepModules(lib: Library, maxBytes: int, s: Shelf, ops: seq<(Op, Nanos)>)
    requires Coherent(lib, s)
    ensures Coherent(lib, Exec(lib, maxBytes, s, ops))
    ensures Keeps(s, Exec(lib, maxBytes, s, ops))
    decreases ops
  {
    if ops != [] {
      var s' := Apply(lib, maxBytes, s, ops[0].0, ops[0].1).0;
      OneStep(lib, maxBytes, s, ops[0].0, ops[0].1);
      RunsKeepModules(lib, maxBytes, s', ops[1..]);
      KeepsOn(s, s', Exec(lib, maxBytes, s', ops[1..]));
    }
  }

  /** The modules FindVersion chooses from; an empty tenant stands for all tenants. */
  function Answers(s: Shelf, t: Tenant, name: string, version: string): set<Id> {
    set id | id in s.modules && (t == "" || s.modules[id].tenantId == t)
             && s.modules[id].name == name && s.modules[id].version == version
  }

  /** For a named tenant there is at most one answer, and there is one exactly when the
      version is registered. */
  lemma FindVersionIsUnique(lib: Library, s: Shelf, t: Tenant, name: string, version: string)
    requires Coherent(lib, s) && t != ""
    ensures |Answers(s, t, name, version)| <= 1
    ensures Answers(s, t, name, version) == {} <==>
              !exists id :: id in s.modules && s.modules[id].tenantId == t && s.modules[id].name == name &&
                s.modules[id].version == version
  {
    var found := Answers(s, t, name, version);
    assert forall id :: (id in s.modules && s.modules[id].tenantId == t && s.modules[id].name == name &&
                         s.modules[id].version == version ==>
                           id in found);
    if found != {} {
      var id :| id in found;
      assert found == {id} by {
        forall other | other in found ensures other == id {
          assert SameVersion(s.modules[id], s.modules[other]);
        }
      }
    }
  }

  /** With an empty tenant two tenants' modules of one name and version both qualify. */
  lemma EmptyTenantIsAmbiguous(s: Shelf, a: Id, b: Id)
    requires a in s.modules && b in s.modules && a != b
    requires s.modules[a].name == s.modules[b].name && s.modules[a].version == s.modules[b].version
    ensures {a, b} <= Answers(s, "", s.modules[a].name, s.modules[a].version)
  {
  }

  /** One step each is needed: a publication that read the module as a draft and writes it back
      after another publication and a withdrawal makes it published again. */
  lemma OverlappingPublishRevives(lib: Library, maxBytes: int, s: Shelf, id: Id, t1: Nanos, t2: Nanos, t3: Nanos)
    requires id in s.modules && id in s.contents && s.modules[id].state == Draft
    ensures var stale := Publish(s.modules[id], t1);
            var s1 := Apply(lib, maxBytes, s, PublishOp(id), t2).0;
            var s2 := Apply(lib, maxBytes, s1, WithdrawOp(id), t3).0;
            var s3 := Rewrite(s2, id, stale).0;
            && s2.modules[id].state == Withdrawn && s3.modules[id].state == Published
            && !Keeps(s2, s3)
  {
    var s1 := Apply(lib, maxBytes, s, PublishOp(id), t2).0;
    var s2 := Apply(lib, maxBytes, s1, WithdrawOp(id), t3).0;
    var s3 := Rewrite(s2, id, Publish(s.modules[id], t1)).0;
    assert id in s2.modules && id in s2.contents;
    assert Rank(s3.modules[id].state) < Rank(s2.modules[id].state);
  }
}
