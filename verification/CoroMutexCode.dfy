/** The coroutine AsyncMutex as objects: a guard is a reference to the spinlock
    that one object at a time owns, and parking moves the awaiter's guard and
    handle into a new object in the waiter list. */
module CoroMutexCode {

  type Handle = nat

  datatype Coro = NoCoro | Coro(handle: Handle)

  /** `taken` and `given` count what happened to it. */
  class SpinLock {
    var locked: bool
    var taken: nat
    var given: nat

    constructor ()
      ensures !locked && taken == given == 0
    {
      locked := false;
      taken, given := 0, 0;
    }

    /** Where the code would spin, this asks for a free lock. */
    method Lock()
      requires !locked
      modifies this
      ensures locked && taken == old(taken) + 1 && given == old(given)
    {
      locked := true;
      taken := taken + 1;
    }

    method Unlock()
      requires locked
      modifies this
      ensures !locked && taken == old(taken) && given == old(given) + 1
    {
      locked := false;
      given := given + 1;
    }
  }

  class MutexAwaiter {
    var guard: SpinLock?
    var coro: Coro

    /** Takes over a lock that is held. */
    constructor (lock: SpinLock)
      requires lock.locked
      ensures guard == lock && coro == NoCoro
    {
      guard := lock;
      coro := NoCoro;
    }

    /** The move constructor: both the handle and the guard leave o. */
    constructor Move(o: MutexAwaiter)
      modifies o
      ensures guard == old(o.guard) && coro == old(o.coro) && o.guard == null && o.coro == NoCoro
    {
      guard := o.guard;
      coro := o.coro;
      new;
      o.coro := NoCoro;
      o.guard := null;
    }

    method ReleaseLock()
      requires guard != null ==> guard.locked
      modifies this`guard, guard
      ensures guard == null
      ensures old(guard) != null ==> !old(guard).locked && old(guard).given == old(guard.given) + 1
                                     && old(guard).taken == old(guard.taken)
    {
      if guard != null {
        guard.Unlock();
        guard := null;
      }
    }
  }

  class Mutex {
    const spinlock: SpinLock
    var lockFlag: bool
    var waiters: seq<MutexAwaiter>

    /** Between calls: the spinlock is free and was released as often as it was
        taken, the waiters are distinct, have given up their guards and keep the
        handle they are to resume, and there are none if the flag is clear. */
    ghost predicate Valid()
      reads this, spinlock, waiters
    {
      && !spinlock.locked && spinlock.taken == spinlock.given
      && Listed()
    }

    ghost predicate Listed()
      reads this, waiters
    {
      && (forall i, j :: 0 <= i < j < |waiters| ==> waiters[i] != waiters[j])
      && (forall i :: 0 <= i < |waiters| ==> waiters[i].guard == null && waiters[i].coro.Coro?)
      && (waiters != [] ==> lockFlag)
    }

    /** Whom the list will resume, in order. */
    ghost function Parked(): (r: seq<Coro>)
      reads this, waiters
    {
      seq(|waiters|, i requires 0 <= i < |waiters| reads this, waiters => waiters[i].coro)
    }

    constructor ()
      ensures Valid() && !lockFlag && Parked() == []
    {
      spinlock := new SpinLock();
      lockFlag := false;
      waiters := [];
    }

    method TryLock() returns (own: bool)
      modifies this`lockFlag
      ensures own == !old(lockFlag) && lockFlag
    {
      if lockFlag {
        return false;
      }
      lockFlag := true;
      return true;
    }

    method CoAwait() returns (a: MutexAwaiter)
      requires Valid()
      modifies spinlock
      ensures fresh(a) && a.guard == spinlock && a.coro == NoCoro
      ensures spinlock.locked && spinlock.taken == spinlock.given + 1 && spinlock.given == old(spinlock.given)
    {
      spinlock.Lock();
      a := new MutexAwaiter(spinlock);
    }

    method AwaitReady(a: MutexAwaiter) returns (own: bool)
      requires a.guard == spinlock && spinlock.locked && a !in waiters && Listed()
      modifies this`lockFlag, a`guard, spinlock
      ensures own == !old(lockFlag) && lockFlag
      ensures own ==> a.guard == null && !spinlock.locked && spinlock.given == old(spinlock.given) + 1
      ensures !own ==> a.guard == spinlock && spinlock.locked && spinlock.given == old(spinlock.given)
      ensures spinlock.taken == old(spinlock.taken) && Listed() && Parked() == old(Parked())
    {
      own := TryLock();
      if own {
        a.ReleaseLock();
      }
    }

    /** emplace_back moves the awaiter into the list; the lock is released through
        the moved guard, and the awaiter that is left behind owns nothing. */
    method AwaitSuspend(a: MutexAwaiter, coro: Handle)
      requires a.guard == spinlock && spinlock.locked && lockFlag && a !in waiters && Listed()
      modifies this`waiters, a, spinlock
      ensures a.guard == null && a.coro == NoCoro
      ensures !spinlock.locked && spinlock.given == old(spinlock.given) + 1 && spinlock.taken == old(spinlock.taken)
      ensures Listed() && Parked() == old(Parked()) + [Coro(coro)]
      ensures lockFlag == old(lockFlag) && forall w :: w in waiters ==> w in old(waiters) || fresh(w)
    {
      a.coro := Coro(coro);
      var w := new MutexAwaiter.Move(a);
      waiters := waiters + [w];
      waiters[|waiters| - 1].ReleaseLock();
    }

    /** co_await mutex.lock(): the caller has the mutex, or it is suspended at the
        end of the list; in both cases the one taking of the spinlock was released. */
    method Lock(coro: Handle) returns (ready: bool)
      requires Valid()
      modifies this, spinlock
      ensures Valid() && ready == !old(lockFlag) && lockFlag
      ensures spinlock.taken == old(spinlock.taken) + 1 && spinlock.given == old(spinlock.given) + 1
      ensures Parked() == if ready then old(Parked()) else old(Parked()) + [Coro(coro)]
    {
      var a := CoAwait();
      ready := AwaitReady(a);
      if !ready {
        AwaitSuspend(a, coro);
      }
    }

    /** The mutex stays locked if somebody waits: the first of them is resumed, as
        its owner, when the spinlock has been released. */
    method Unlock() returns (resumed: Coro)
      requires Valid() && lockFlag
      modifies this, spinlock, waiters
      ensures Valid() && lockFlag == (old(Parked()) != [])
      ensures spinlock.taken == old(spinlock.taken) + 1 && spinlock.given == old(spinlock.given) + 1
      ensures if old(Parked()) == [] then resumed == NoCoro && Parked() == []
              else old(Parked()) == [resumed] + Parked()
    {
      spinlock.Lock();
      if waiters != [] {
        var waiter := new MutexAwaiter.Move(waiters[0]);
        waiters := waiters[1..];
        spinlock.Unlock();
        resumed := waiter.coro;
      } else {
        lockFlag := false;
        spinlock.Unlock();
        resumed := NoCoro;
      }
    }
  }
}
