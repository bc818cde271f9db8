/** The critical sections of the fibers' WaitGroup and AsyncMutex on the linked
    list they use, and the walk of WaitGroup::Done outside the guard. A waiter
    is a list node in the stack frame of the fiber that waits. */
module FiberSyncCode {
  import opened IntrusiveList
  import opened Sequences

  class WaitGroup {
    var counter: nat
    const waiters: List
    var resumed: seq<Node>  // the waiters scheduled so far

    constructor ()
      ensures Valid() && counter == 0 && waiters.nodes == [] && resumed == [] && fresh(waiters)
    {
      counter, resumed := 0, [];
      waiters := new List();
    }

    /** With the guard free, nobody is parked once the counter is zero. The
        last waiter's link is null because each Wait makes a new waiter. */
    ghost predicate Valid()
      reads this, waiters, waiters.nodes
    {
      && waiters.Valid()
      && (counter == 0 ==> waiters.nodes == [])
      && (waiters.nodes != [] ==> waiters.nodes[|waiters.nodes| - 1].next == null)
    }

    method Add(add: nat)
      requires Valid()
      modifies this`counter
      ensures Valid() && counter == old(counter) + add
    {
      counter := counter + add;
    }

    /** Wait, up to the point where the fiber is parked and the guard released. */
    method Wait(waiter: Node) returns (parked: bool)
      requires Valid() && waiter !in waiters.nodes && waiter.next == null
      modifies waiters, if waiters.nodes == [] then {} else {waiters.nodes[|waiters.nodes| - 1]}
      ensures Valid() && parked == (counter > 0)
      ensures waiters.nodes == if parked then old(waiters.nodes) + [waiter] else old(waiters.nodes)
    {
      parked := counter > 0;
      if parked {
        waiters.Push(waiter);
      }
    }

    /** Resumes the waiter's fiber, which may at once return from Wait and reuse
        the frame the node is in: nothing is known about the node any more. */
    method Schedule(waiter: Node, garbage: Node?)
      modifies this`resumed, waiter
      ensures resumed == old(resumed) + [waiter] && waiter.next == garbage
    {
      resumed := resumed + [waiter];
      waiter.next := garbage;
    }

    /** One trip of the walk: the link is read before the waiter is scheduled. */
    method WakeOne(waiter: Node, garbage: Node?, newcomers: seq<Node>, late: seq<Node>, ghost chain: seq<Node>)
      returns (next: Node?, later: seq<Node>)
      requires Valid() && waiters.nodes == late && late <= newcomers
      requires NoRepeats(newcomers) && forall i :: |late| <= i < |newcomers| ==> newcomers[i].next == null
      requires waiter in chain && forall n :: n in newcomers ==> n !in chain
      modifies this`counter, this`resumed, waiters, waiter, newcomers
      ensures Valid() && waiters.nodes == later && later <= newcomers
      ensures |later| == (if |late| < |newcomers| then |late| + 1 else |late|)
      ensures counter == old(counter) + |later| - |late|
      ensures forall i :: |later| <= i < |newcomers| ==> newcomers[i].next == null
      ensures next == old(waiter.next) && resumed == old(resumed) + [waiter]
      ensures forall i :: 0 <= i < |chain| && chain[i] != waiter ==> chain[i].next == old(chain[i].next)
    {
      later := MaybeParks(newcomers, late, chain);
      next := waiter.next;
      Schedule(waiter, garbage);
    }

    /** The walk of Done, after the list was cleared and the guard released.
        Meanwhile others add work and park: `newcomers` are their waiters, one
        of them before each Schedule. That is one script of what others can do;
        Fibers has them all. */
    method WakeAll(first: Node, ghost chain: seq<Node>, newcomers: seq<Node>, garbage: Node?)
      returns (late: seq<Node>)
      requires Valid() && waiters.nodes == []
      requires chain != [] && first == chain[0] && NoRepeats(chain) && Linked(chain) && chain[|chain| - 1].next == null
      requires NoRepeats(newcomers) && forall n :: n in newcomers ==> n !in chain && n.next == null
      modifies this`counter, this`resumed, waiters, chain, newcomers
      ensures Valid() && resumed == old(resumed) + chain && late <= newcomers && waiters.nodes == late
      ensures counter == old(counter) + |late|
      ensures |late| == if |newcomers| < |chain| then |newcomers| else |chain|
    {
      late := [];
      var waiter, next := first, null;
      ghost var k := 0;
      while true
        invariant Valid() && waiters.nodes == late && counter == old(counter) + |late|
        invariant late <= newcomers && |late| == if |newcomers| < k then |newcomers| else k
        invariant 0 <= k < |chain| && waiter == chain[k] && resumed == old(resumed) + chain[..k]
        invariant forall i :: k <= i < |chain| - 1 ==> chain[i].next == chain[i + 1]
        invariant chain[|chain| - 1].next == null
        invariant forall i :: |late| <= i < |newcomers| ==> newcomers[i].next == null
        decreases |chain| - k
      {
        hide Valid;
        next, late := WakeOne(waiter, garbage, newcomers, late, chain);
        assert next == if k < |chain| - 1 then chain[k + 1] else null;
        assert old(resumed) + chain[..k] + [waiter] == old(resumed) + chain[..k + 1];
        if next == null {
          assert chain == chain[..k] + [waiter];
          return;
        }
        k := k + 1;
        waiter := next;
      }
    }

    method MaybeParks(newcomers: seq<Node>, late: seq<Node>, ghost chain: seq<Node>) returns (later: seq<Node>)
      requires Valid() && waiters.nodes == late && late <= newcomers
      requires NoRepeats(newcomers) && forall i :: |late| <= i < |newcomers| ==> newcomers[i].next == null
      requires forall n :: n in newcomers ==> n !in chain
      modifies this`counter, waiters, newcomers
      ensures Valid() && waiters.nodes == later && later <= newcomers
      ensures |later| == if |late| < |newcomers| then |late| + 1 else |late|
      ensures counter == old(counter) + |later| - |late|
      ensures forall i :: |later| <= i < |newcomers| ==> newcomers[i].next == null
      ensures forall i :: 0 <= i < |chain| ==> chain[i].next == old(chain[i].next)
    {
      later := late;
      if |late| < |newcomers| {
        Add(1);
        var newcomer := newcomers[|late|];
        if late != [] { assert late[|late| - 1] == newcomers[|late| - 1] && newcomers[|late| - 1] in newcomers; }
        var _ := Wait(newcomer);
        later := late + [newcomer];
      }
    }

    /** Done. It takes one off the counter; if that brings it to zero it schedules
        exactly the waiters parked at that moment, each once and in the order they
        parked, and leaves those who park during the walk alone, each of whom parks
        on work of its own. */
    method Done(newcomers: seq<Node>, garbage: Node?) returns (late: seq<Node>)
      requires Valid() && 0 < counter
      requires NoRepeats(newcomers) && forall n :: n in newcomers ==> n !in waiters.nodes && n.next == null
      modifies this`counter, this`resumed, waiters, waiters.nodes, newcomers
      ensures Valid()
      ensures old(counter) == 1 ==>
                && resumed == old(resumed) + old(waiters.nodes) && waiters.nodes == late && counter == |late|
                && late <= newcomers
                && |late| == if |newcomers| < |old(waiters.nodes)| then |newcomers| else |old(waiters.nodes)|
      ensures old(counter) != 1 ==>
                resumed == old(resumed) && late == [] && waiters.nodes == old(waiters.nodes)
                && counter == old(counter) - 1
    {
      late := [];
      ghost var chain := waiters.nodes;
      counter := counter - 1;
      if counter == 0 {
        var first := waiters.Pop();
        waiters.Clear();
        // the guard is released here
        if first != null {
          late := WakeAll(first, chain, newcomers, garbage);
        }
      }
    }
  }

  class AsyncMutex {
    var locked: bool
    const waiters: List

    constructor ()
      ensures Valid() && !locked && waiters.nodes == [] && fresh(waiters)
    {
      locked := false;
      waiters := new List();
    }

    ghost predicate Valid()
      reads this, waiters, waiters.nodes
    {
      waiters.Valid() && (!locked ==> waiters.nodes == [])
    }

    /** Lock, up to the point where the fiber owns the mutex or is parked. */
    method Lock(waiter: Node) returns (owns: bool)
      requires Valid() && waiter !in waiters.nodes
      modifies this`locked, waiters, if waiters.nodes == [] then {} else {waiters.nodes[|waiters.nodes| - 1]}
      ensures Valid() && locked && owns == !old(locked)
      ensures waiters.nodes == if owns then [] else old(waiters.nodes) + [waiter]
    {
      owns := !locked;
      if locked {
        waiters.Push(waiter);
      } else {
        locked := true;
      }
    }

    /** Unlock by the owner: the mutex stays locked if somebody waits, and goes
        to the one who waited longest. */
    method Unlock() returns (next: Node?)
      requires Valid() && locked
      modifies this`locked, waiters
      ensures Valid()
      ensures old(waiters.nodes) == [] ==> next == null && !locked
      ensures old(waiters.nodes) != [] ==>
                next == old(waiters.nodes)[0] && locked && waiters.nodes == old(waiters.nodes)[1..]
    {
      next := null;
      var empty := waiters.IsEmpty();
      if empty {
        locked := false;
        return;
      }
      next := waiters.Pop();
    }
  }
}
