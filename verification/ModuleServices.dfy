/** The module service: each method reads the store, and writes the changed module back. */
module ModuleServices {
  import opened Common
  import opened Simulation
  import opened MemoryStores
  import M = Modules

  class ModuleService {
    const repo: Memory
    const lib: Library
    const maxSize: int

    /** The invariant of the module store. */
    ghost predicate Valid()
      reads repo
    {
      M.Coherent(lib, repo.View().shelf)
    }

    constructor (repo: Memory, lib: Library, maxSize: int)
      requires M.Coherent(lib, repo.View().shelf)
      ensures Valid() && this.repo == repo && this.lib == lib && this.maxSize == maxSize
    {
      this.repo, this.lib, this.maxSize := repo, lib, maxSize;
    }

    /** `verified` is the verdict on the signature. */
    method Register(ctx: Ctx, id: Id, reg: M.Registration, verified: bool, now: Nanos) returns (reply: M.Reply)
      requires Valid()
      modifies repo`modules, repo`contents
      ensures Valid() && M.Keeps(old(repo.View().shelf), repo.View().shelf)
      ensures ctx == Live ==>
                (repo.View().shelf, reply) == M.Apply(lib, maxSize, old(repo.View().shelf),
                                                      M.Register(id, reg, verified), now)
      ensures ctx != Live ==> reply.Refused? && repo.View() == old(repo.View())
    {
      M.OneStep(lib, maxSize, repo.View().shelf, M.Register(id, reg, verified), now);
      if !verified { return M.Refused(M.Unverified); }
      var made := M.New(lib, id, reg, maxSize, now);
      if made.Refused? { return made; }
      M.NewIsDescribed(lib, id, reg, maxSize, now);
      var err := repo.Create(ctx, made.mod, reg.content);
      if err.Some? { return M.Refused(err.value); }
      return made;
    }

    method Publish(ctx: Ctx, id: Id, now: Nanos) returns (reply: M.Reply)
      requires Valid()
      modifies repo`modules
      ensures Valid() && M.Keeps(old(repo.View().shelf), repo.View().shelf)
      ensures ctx == Live ==>
                (repo.View().shelf, reply) == M.Apply(lib, maxSize, old(repo.View().shelf), M.PublishOp(id), now)
      ensures ctx != Live ==> reply == M.Refused(M.ContextDone) && repo.View() == old(repo.View())
    {
      M.OneStep(lib, maxSize, repo.View().shelf, M.PublishOp(id), now);
      var found := repo.Get(ctx, id);
      if found.None? { return M.Refused(if ctx != Live then M.ContextDone else M.NoSuchModule); }
      assert M.Described(lib, repo.View().shelf, id);
      reply := M.Publish(found.value, now);
      if reply.Stored? {
        var err := repo.Update(ctx, reply.mod);
      }
    }

    method Withdraw(ctx: Ctx, id: Id, now: Nanos) returns (reply: M.Reply)
      requires Valid()
      modifies repo`modules
      ensures Valid() && M.Keeps(old(repo.View().shelf), repo.View().shelf)
      ensures ctx == Live ==>
                (repo.View().shelf, reply) == M.Apply(lib, maxSize, old(repo.View().shelf), M.WithdrawOp(id), now)
      ensures ctx != Live ==> reply == M.Refused(M.ContextDone) && repo.View() == old(repo.View())
    {
      M.OneStep(lib, maxSize, repo.View().shelf, M.WithdrawOp(id), now);
      var found := repo.Get(ctx, id);
      if found.None? { return M.Refused(if ctx != Live then M.ContextDone else M.NoSuchModule); }
      assert M.Described(lib, repo.View().shelf, id);
      reply := M.Withdraw(found.value, now);
      if reply.Stored? {
        var err := repo.Update(ctx, reply.mod);
      }
    }
  }
}
