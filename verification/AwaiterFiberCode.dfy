/** AwaiterFiber, the one-shot handle StoppedFiber, and the part of the waiters
    that stores and uses the handle. What a fiber's routine does between two
    suspensions is not looked at: only which waiters it suspends on. */
module AwaiterFiberCode {
  import opened Sequences

  datatype Stage = Planned | Running | Finished

  class Executor {
    var submitted: seq<AwaiterFiber>

    constructor ()
      ensures submitted == []
    {
      submitted := [];
    }

    method Submit(f: AwaiterFiber)
      modifies this
      ensures submitted == old(submitted) + [f]
    {
      submitted := submitted + [f];
    }
  }

  class StoppedFiber {
    var fiber: AwaiterFiber?

    constructor (f: AwaiterFiber)
      ensures fiber == f
    {
      fiber := f;
    }

    /** Handles are copied when a waiter stores one. */
    constructor Copy(o: StoppedFiber)
      ensures fiber == o.fiber
    {
      fiber := o.fiber;
    }

    /** A handle is good once. */
    method Release() returns (f: AwaiterFiber)
      requires fiber != null
      modifies this
      ensures f == old(fiber) && fiber == null
    {
      f := fiber;
      fiber := null;
    }

    method Schedule(ex: Executor)
      requires fiber != null && fiber.executor == ex
      modifies this, ex
      ensures fiber == null && ex.submitted == old(ex.submitted) + [old(fiber)]
    {
      var f := Release();
      f.Schedule();
    }
  }

  class Waiter {
    var handle: StoppedFiber?

    constructor ()
      ensures handle == null
    {
      handle := null;
    }

    method AwaitSuspend(h: StoppedFiber)
      requires h.fiber != null
      modifies this
      ensures fresh(handle) && handle != null && handle.fiber == h.fiber
    {
      handle := new StoppedFiber.Copy(h);
    }

    method Schedule(ex: Executor)
      requires handle != null && handle.fiber != null && handle.fiber.executor == ex
      modifies handle, ex
      ensures handle.fiber == null && ex.submitted == old(ex.submitted) + [old(handle.fiber)]
    {
      handle.Schedule(ex);
    }
  }

  class AwaiterFiber {
    const executor: Executor
    var toCome: seq<Waiter>   // the waiters its routine will still suspend on
    var awaiter: Waiter?
    var completed: bool
    var stage: Stage

    constructor (ex: Executor, routine: seq<Waiter>)
      ensures executor == ex && toCome == routine && awaiter == null && !completed && stage == Planned
    {
      executor, toCome, awaiter, completed, stage := ex, routine, null, false, Planned;
    }

    /** Throws when the stage is Finished. */
    method ProgressState()
      requires !stage.Finished?
      modifies this`stage
      ensures stage == if old(stage).Planned? then Running else Finished
    {
      stage := if stage.Planned? then Running else Finished;
    }

    method Schedule()
      modifies executor
      ensures executor.submitted == old(executor.submitted) + [this]
    {
      executor.Submit(this);
    }

    method Suspend(w: Waiter)
      modifies this`awaiter
      ensures awaiter == w
    {
      awaiter := w;
    }

    /** Runs the routine up to its next suspension or its end. */
    method Switch()
      requires !completed
      modifies this`toCome, this`awaiter, this`completed
      ensures completed == (old(toCome) == [])
      ensures !completed ==> awaiter == old(toCome)[0] && toCome == old(toCome)[1..]
      ensures completed ==> toCome == [] && awaiter == old(awaiter)
    {
      if toCome == [] {
        completed := true;
      } else {
        var w := toCome[0];
        toCome := toCome[1..];
        Suspend(w);
      }
    }

    /** awaiter_ is never reset, so after the last suspension it is stale; but a
        completed fiber returns before it is looked at, and every other return
        from Switch has set it anew. */
    method Run() returns (complete: bool)
      requires !completed && !stage.Finished?
      modifies this, set w | w in toCome
      ensures complete == (old(toCome) == [])
      ensures complete ==> completed && stage == if old(stage).Planned? then Running else Finished
      ensures !complete ==>
        && !completed && stage == old(stage) && toCome == old(toCome)[1..] && awaiter == old(toCome)[0]
        && old(toCome)[0].handle != null && fresh(old(toCome)[0].handle) && old(toCome)[0].handle.fiber == this
      ensures forall w :: w in old(toCome) && (complete || w != old(toCome)[0]) ==> w.handle == old(w.handle)
    {
      Switch();
      if completed {
        ProgressState();
        return true;
      }
      if awaiter != null {
        var handle := new StoppedFiber(this);
        awaiter.AwaitSuspend(handle);
      }
      return false;
    }
  }

  /** A worker runs the fiber whenever it is submitted, and whatever it waits for
      happens after it was suspended. A fiber that suspends n times is run n + 1
      times, each time after it was scheduled once, through the handle of the
      waiter it was last suspended on, and every handle is used up. */
  method Drive(ex: Executor, f: AwaiterFiber) returns (runs: nat)
    requires f.executor == ex && ex.submitted == [f] && !f.completed && !f.stage.Finished? && NoRepeats(f.toCome)
    modifies ex, f, set w | w in f.toCome
    ensures f.completed && ex.submitted == [] && f.stage == if old(f.stage).Planned? then Running else Finished
    ensures runs == |old(f.toCome)| + 1
    ensures forall w :: w in old(f.toCome) ==> w.handle != null && w.handle.fiber == null
  {
    runs := 0;
    var all := f.toCome;
    while true
      invariant f.executor == ex && ex.submitted == [f] && !f.completed && f.stage == old(f.stage) && !f.stage.Finished?
      invariant runs <= |all| && f.toCome == all[runs..]
      invariant forall i :: 0 <= i < runs ==>
            all[i].handle != null && fresh(all[i].handle) && all[i].handle.fiber == null
      decreases |f.toCome|
    {
      ex.submitted := [];
      var complete := f.Run();
      runs := runs + 1;
      if complete {
        return;
      }
      assert all[runs - 1] in all;
      all[runs - 1].Schedule(ex);
    }
  }
}
