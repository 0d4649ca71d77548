/** One task queue per worker thread.  A queue is an atomic first-in first-out sequence here; its own step-level
    model is in spsc_ring.dfy. */
module ThreadPools {
  import opened Options
  import opened SymbolRuns

  class ThreadPool {
    var threadQueues: seq<seq<Task>>

    constructor (threadNames: seq<string>)
      requires threadNames != []
      ensures threadQueues == seq(|threadNames|, _ => [])
    {
      var queues: seq<seq<Task>> := [];
      for i := 0 to |threadNames|
        invariant queues == seq(i, _ => [])
      {
        queues := queues + [[]];
      }
      threadQueues := queues;
    }

    /** `thrown` stands for the invalid_argument exception. */
    method SubmitTask(task: Task, queueID: nat) returns (thrown: bool)
      modifies this
      ensures thrown <==> queueID >= old(|threadQueues|)
      ensures threadQueues
           == if thrown then old(threadQueues) else old(threadQueues)[queueID := old(threadQueues)[queueID] + [task]]
    {
      if queueID >= |threadQueues| {
        return true;
      }
      threadQueues := threadQueues[queueID := threadQueues[queueID] + [task]];
      thrown := false;
    }

    /** What a worker does first in each turn of its loop. */
    method TryPop(queueIndex: nat) returns (task: Option<Task>)
      requires queueIndex < |threadQueues|
      modifies this
      ensures task.None? <==> old(threadQueues[queueIndex]) == []
      ensures task.None? ==> threadQueues == old(threadQueues)
      ensures |threadQueues| == old(|threadQueues|)
      ensures task.Some? ==> old(threadQueues[queueIndex]) == [task.value] + threadQueues[queueIndex]
      ensures task.Some? ==> threadQueues == old(threadQueues)[queueIndex := threadQueues[queueIndex]]
    {
      if threadQueues[queueIndex] == [] {
        return None;
      }
      task := Some(threadQueues[queueIndex][0]);
      threadQueues := threadQueues[queueIndex := threadQueues[queueIndex][1..]];
    }
  }
}
