/** The store as an object. Writing the snapshot to disk is taken as succeeding. */
module MemoryStores {
  import opened Common
  import opened Executions
  import opened S = Stores
  import M = Modules

  class Memory {
    var modules: map<Id, M.Module>
    var contents: map<Id, Bytes>
    var executions: map<Id, Execution>
    var idempotency: map<string, Id>

    ghost function View(): Disk
      reads this
    {
      Disk(M.Shelf(modules, contents), executions, idempotency)
    }

    constructor ()
      ensures View() == EMPTY_DISK
    {
      modules, contents, executions, idempotency := map[], map[], map[], map[];
    }

    /** Stores a new module unless its identifier or its version is taken. */
    method Create(ctx: Ctx, m: M.Module, content: Bytes) returns (err: Option<M.Problem>)
      modifies this`modules, this`contents
      ensures ctx == Live ==> (err.None? <==> m.id !in old(modules) && !M.HasVersion(old(View()).shelf, m))
      ensures err.None? ==> ctx == Live
      ensures err.None? ==> modules == old(modules)[m.id := m] && contents == old(contents)[m.id := content]
      ensures err.Some? ==> View() == old(View())
      ensures err.Some? ==>
                err.value == if ctx != Live then M.ContextDone
                             else if m.id in old(modules) then M.IdTaken
                             else M.VersionTaken
    {
      if ctx != Live { return Some(M.ContextDone); }
      if m.id in modules { return Some(M.IdTaken); }
      var left := modules.Keys;
      while left != {}
        invariant left <= modules.Keys
        invariant forall id :: id in modules && id !in left ==> !M.SameVersion(modules[id], m)
        decreases left
      {
        var id :| id in left;
        if M.SameVersion(modules[id], m) { return Some(M.VersionTaken); }
        left := left - {id};
      }
      modules := modules[m.id := m];
      contents := contents[m.id := content];
      return None;
    }

    method Update(ctx: Ctx, m: M.Module) returns (err: Option<M.Problem>)
      modifies this`modules
      ensures err == if ctx != Live then Some(M.ContextDone)
                     else if m.id !in old(modules) then Some(M.NoSuchModule)
                     else None
      ensures View() == if err.None? then old(View()).(shelf := M.Shelf(old(modules)[m.id := m], old(contents)))
              else old(View())
    {
      if ctx != Live { return Some(M.ContextDone); }
      if m.id !in modules { return Some(M.NoSuchModule); }
      modules := modules[m.id := m];
      return None;
    }

    method Get(ctx: Ctx, id: Id) returns (m: Option<M.Module>)
      ensures m.Some? <==> ctx == Live && id in modules
      ensures m.Some? ==> m.value == modules[id]
    {
      if ctx != Live || id !in modules { return None; }
      return Some(modules[id]);
    }

    method Content(ctx: Ctx, id: Id) returns (c: Option<Bytes>)
      ensures c.Some? <==> ctx == Live && id in contents
      ensures c.Some? ==> c.value == contents[id]
    {
      if ctx != Live || id !in contents { return None; }
      return Some(contents[id]);
    }

    /** The first module of the version in some order, if the tenant has any; the order is that
        of a list that was sorted by creation time. */
    method FindVersion(ctx: Ctx, t: Tenant, name: string, version: string) returns (m: Option<M.Module>)
      requires forall id :: id in modules ==> modules[id].id == id
      ensures ctx == Live ==> (m.None? <==> M.Answers(View().shelf, t, name, version) == {})
      ensures m.Some? ==> ctx == Live && m.value.id in M.Answers(View().shelf, t, name, version)
      ensures m.Some? ==> modules[m.value.id] == m.value
    {
      if ctx != Live { return None; }
      var left := modules.Keys;
      while left != {}
        invariant left <= modules.Keys
        invariant M.Answers(View().shelf, t, name, version) <= left
        decreases left
      {
        var id :| id in left;
        var v := modules[id];
        if (t == "" || v.tenantId == t) && v.name == name && v.version == version {
          assert id in M.Answers(View().shelf, t, name, version);
          return Some(v);
        }
        left := left - {id};
      }
      return None;
    }

    /** Refuses an identifier that is in use. */
    method CreateExecution(ctx: Ctx, e: Execution) returns (ok: bool)
      modifies this`executions
      ensures ok <==> ctx == Live && e.ticket.id !in old(executions)
      ensures executions == if ok then old(executions)[e.ticket.id := e] else old(executions)
    {
      if ctx != Live || e.ticket.id in executions { return false; }
      executions := executions[e.ticket.id := e];
      return true;
    }

    method UpdateExecution(ctx: Ctx, e: Execution) returns (ok: bool)
      modifies this`executions
      ensures ok <==> ctx == Live && e.ticket.id in old(executions)
      ensures executions == if ok then old(executions)[e.ticket.id := e] else old(executions)
    {
      if ctx != Live || e.ticket.id !in executions { return false; }
      executions := executions[e.ticket.id := e];
      return true;
    }

    method GetExecution(ctx: Ctx, id: Id) returns (e: Option<Execution>)
      ensures e.Some? <==> ctx == Live && id in executions
      ensures e.Some? ==> e.value == executions[id]
    {
      if ctx != Live || id !in executions { return None; }
      return Some(executions[id]);
    }

    method FindIdempotency(ctx: Ctx, t: Tenant, key: string) returns (e: Option<Execution>)
      ensures e == if ctx == Live then Lookup(View(), t, key) else None
    {
      if ctx != Live || EntryKey(t, key) !in idempotency { return None; }
      var id := idempotency[EntryKey(t, key)];
      if id !in executions { return None; }
      return Some(executions[id]);
    }

    method SaveIdempotency(ctx: Ctx, t: Tenant, key: string, id: Id)
      modifies this`idempotency
      ensures View() == if ctx == Live then SaveEntry(old(View()), t, key, id) else old(View())
    {
      if ctx != Live || key == "" { return; }
      idempotency := idempotency[EntryKey(t, key) := id];
    }

    /** Rewrites every unfinished record as interrupted and returns exactly how many there were. */
    method RecoverInterrupted(ctx: Ctx) returns (n: nat)
      modifies this`executions
      ensures ctx == Live ==> executions == Recovered(old(executions)) && n == |Stale(old(executions))|
      ensures ctx != Live ==> executions == old(executions) && n == 0
    {
      if ctx != Live { return 0; }
      n := 0;
      var left := executions.Keys;
      ghost var was := executions;
      CountEnds(was);
      while left != {}
        invariant left <= was.Keys
        invariant Partway(was, executions, left)
        invariant n == Found(was, left)
        decreases left
      {
        var id :| id in left;
        var e := executions[id];
        VisitOne(was, executions, left, id);
        CountOne(was, left, id);
        if e.status == Running || e.status == Queued {
          executions := executions[id := Interrupted(e)];
          n := n + 1;
        }
        left := left - {id};
      }
      AllVisited(was, executions);
    }
  }
}
