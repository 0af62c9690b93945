/** The scheduler: the queue, and the executions flagged so that workers drop them. */
module Schedulers {
  import opened Common
  import Q = RingQueue
  import F = FairQueues

  class Scheduler {
    const queue: F.FairQueue
    var canceled: set<Id>

    constructor (queue: F.FairQueue)
      ensures this.queue == queue && canceled == {}
    {
      this.queue := queue;
      canceled := {};
    }

    method Submit(ctxLive: bool, id: Id, tenant: Tenant, now: Nanos) returns (res: F.EnqueueResult)
      requires queue.Ok()
      modifies queue
      ensures queue.Ok() && queue.closed == old(queue.closed)
      ensures res == if !ctxLive then F.ContextDone else if old(queue.closed) then F.QueueClosed else F.Accepted
      ensures queue.View() == if res.Accepted? then Q.Enqueue(old(queue.View()), Q.Job(id, tenant, now, 0))
              else old(queue.View())
      ensures queue.notified == (res.Accepted? || old(queue.notified))
    {
      res := queue.Enqueue(ctxLive, Q.Job(id, tenant, now, 0));
    }

    method Cancel(id: Id) returns (ok: bool)
      modifies this
      ensures ok && canceled == old(canceled) + {id}
    {
      canceled := canceled + {id};
      return true;
    }

    /** A flag is seen once: the worker that sees it takes it down. */
    method Canceled(id: Id) returns (flagged: bool)
      modifies this
      ensures flagged <==> id in old(canceled)
      ensures canceled == old(canceled) - {id}
    {
      if id in canceled {
        canceled := canceled - {id};
        return true;
      }
      return false;
    }
  }
}
