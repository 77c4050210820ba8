/**
 * The dispatcher: owns the worker threads, starts them at most once per
 * `stop`, and halts and forgets them on `stop`.
 */
module Dispatcher {
  import opened Worker

  /** How many workers `range(num_workers)` creates: none for a negative count. */
  function WorkerCount(numWorkers: int): (n: nat)
    ensures n == 0 <==> numWorkers <= 0
    ensures numWorkers > 0 ==> n == numWorkers
  {
    if numWorkers < 0 then 0 else numWorkers
  }

  class MetricsDispatcher {
    const numWorkers: int
    var workers: seq<DispatchWorker>
    var dispatching: bool

    /** Workers are only held while dispatching. */
    ghost predicate Valid()
      reads this
    {
      !dispatching ==> workers == []
    }

    constructor (numWorkers: int)
      ensures Valid()
      ensures this.numWorkers == numWorkers && workers == [] && !dispatching
    {
      this.numWorkers := numWorkers;
      workers := [];
      dispatching := false;
    }

    /** `start`: a no-op while dispatching and without an authenticated user;
        otherwise creates and starts `num_workers` workers and marks the
        dispatcher as dispatching. */
    method Start(authenticated: bool)
      requires Valid()
      modifies this
      ensures Valid()
      ensures old(dispatching) ==> dispatching && workers == old(workers)
      ensures !old(dispatching) && !authenticated ==> !dispatching && workers == old(workers)
      ensures !old(dispatching) && authenticated ==>
        dispatching &&
        |workers| == WorkerCount(numWorkers) &&
        |workers| == |old(workers)| + WorkerCount(numWorkers) &&
        workers[..|old(workers)|] == old(workers) &&
        forall i :: |old(workers)| <= i < |workers| ==>
          fresh(workers[i]) && workers[i].started && !workers[i].halted
      ensures !old(dispatching) && authenticated ==>
        forall i, j :: |old(workers)| <= i < j < |workers| ==> workers[i] != workers[j]
    {
      if dispatching {
        return;
      }
      if !authenticated {
        return;
      }
      var i := 0;
      while i < numWorkers
        invariant 0 <= i <= WorkerCount(numWorkers)
        invariant |workers| == |old(workers)| + i
        invariant workers[..|old(workers)|] == old(workers)
        invariant forall j :: |old(workers)| <= j < |workers| ==>
          fresh(workers[j]) && workers[j].started && !workers[j].halted
        invariant forall j, k :: |old(workers)| <= j < k < |workers| ==> workers[j] != workers[k]
        invariant !dispatching
      {
        var worker := new DispatchWorker();
        worker.Start();
        workers := workers + [worker];
        i := i + 1;
      }
      dispatching := true;
    }

    /** `stop`: halts every worker, then forgets them and stops dispatching.
        Harmless when nothing was started. */
    method Stop()
      modifies this, workers
      ensures Valid()
      ensures !dispatching && workers == []
      ensures forall w :: w in old(workers) ==> w.halted && w.started == old(w.started)
    {
      var i := 0;
      while i < |workers|
        invariant 0 <= i <= |workers|
        invariant workers == old(workers)
        invariant forall j :: 0 <= j < i ==> workers[j].halted
        invariant forall j :: 0 <= j < |workers| ==> workers[j].started == old(workers[j].started)
      {
        workers[i].Halt();
        i := i + 1;
      }
      dispatching := false;
      workers := [];
    }
  }
}
