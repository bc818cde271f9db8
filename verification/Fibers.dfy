/** What the fiber machine promises its fibers, its mutexes and its wait groups, in
    every run. */
module Fibers {
  import opened FiberLinks
  import opened FiberMachine
  import opened FiberSteps
  import opened Sequences

  // ----- what it means for fibers -----

  datatype Place = Executor | ListOf(p: Pid) | HandOfFiber(u: Fid)

  function Contents(s: State, place: Place): seq<Fid> {
    match place
    case Executor => s.ready
    case ListOf(p) => if p in s.prims then s.prims[p].waiters else []
    case HandOfFiber(u) => Hand(Get(s, u).pc)
  }

  /** A worker runs the fiber or is still switching it out. */
  predicate OnWorker(pc: Pc) {
    pc.Running? || pc.Enter? || pc.Act? || pc.Leave? || pc.Look? || pc.Wake? || pc.Suspend? || pc.Store? || pc.Park?
        || pc.Yielding? || pc.Misused?
  }

  /** A fiber is in one place, once; it is there exactly when no worker runs it
      or is still switching it out. No fiber is ever resumed before its context
      is saved, or scheduled through a handle that was already used. */
  lemma OnePlace(es: seq<Event>, f: Fid, a: Place, b: Place)
    ensures var s := Run(Init(), es);
      && !Get(s, f).pc.Fault?
      && NoRepeats(Contents(s, a))
      && (f in Contents(s, a) && f in Contents(s, b) ==> a == b)
      && (f in Contents(s, a) ==> Get(s, f).saved && !OnWorker(Get(s, f).pc) && f in s.fibers)
      && (f in s.fibers && !OnWorker(Get(s, f).pc) && !Get(s, f).pc.Completed? ==> exists c :: f in Contents(s, c))
  {
    var s := Run(Init(), es);
    Reachable(es);
    InPlaces(s, f);
    OnceInPlace(s, a);
    var pc := Get(s, f).pc;
    if f in Contents(s, a) { InPlace(s, f, a); }
    if f in Contents(s, b) { InPlace(s, f, b); }
    if f !in s.fibers { NotSpawned(s, f); }
  }

  /** The place a fiber's own state names. */
  predicate Belongs(b: Fiber, place: Place) {
    match place
    case Executor => b.pc.Queued?
    case ListOf(p) => OnList(b, p)
    case HandOfFiber(u) => b.pc == Popped(u)
  }

  lemma InPlace(s: State, f: Fid, a: Place)
    requires Inv(s)
    ensures f in Contents(s, a) <==> Belongs(Get(s, f), a)
  {
    hide Get, NoRepeats, FiberInv;
    assert f in s.ready <==> Get(s, f).pc.Queued?;
    match a
    case Executor =>
    case ListOf(p) =>
      if p in s.prims { assert PrimInv(s, p); } else { NobodyNames(s, p); }
    case HandOfFiber(u) => assert f in Hand(Get(s, u).pc) <==> Get(s, f).pc == Popped(u);
  }

  lemma OnceInPlace(s: State, a: Place)
    requires Inv(s)
    ensures NoRepeats(Contents(s, a))
  {
    hide Get, FiberInv, NamesInv;
    match a
    case Executor =>
    case ListOf(p) => if p in s.prims { assert PrimInv(s, p); }
    case HandOfFiber(u) =>
  }

  lemma InPlaces(s: State, f: Fid)
    requires Inv(s)
    ensures FiberInv(Get(s, f)) && !Get(s, f).pc.Fault?
    ensures !OnWorker(Get(s, f).pc) && !Get(s, f).pc.Completed? ==> exists c :: f in Contents(s, c)
  {
    hide Get, NamesInv, QueueInv, PrimInv, Contents;
    var b := Get(s, f);
    assert FiberInv(b);
    if b.pc.Queued? {
      InPlace(s, f, Executor);
    } else if b.pc.Popped? {
      InPlace(s, f, HandOfFiber(b.pc.popper));
    } else if b.pc.LeaveParked? || b.pc.Parked? {
      InPlace(s, f, ListOf(b.call.p));
    }
  }

  // ----- what it means for a mutex -----

  /** Two fibers are never both between the return of Lock and the call of
      Unlock; the flag says whether somebody owns the mutex; nobody waits for a
      mutex that is not locked; and ownership is handed over in park order. */
  lemma MutexIsExclusive(es: seq<Event>, p: Pid, f: Fid, g: Fid)
    requires var s := Run(Init(), es); p in s.prims && s.prims[p].body.Mutex?
    ensures var s := Run(Init(), es);
      var q := s.prims[p];
      && (p in Get(s, f).held && p in Get(s, g).held ==> f == g)
      && (p in Get(s, f).held ==> q.body == Mutex(true, Somebody(f)))
      && (q.body.locked <==> exists h :: Owns(Get(s, h), p))
      && (q.waiters != [] ==> q.body.locked)
      && (OnList(Get(s, f), p) && Owns(Get(s, f), p) ==> p in Get(s, f).held)
      && q.parks == q.pops + q.waiters
  {
    var s := Run(Init(), es);
    Reachable(es);
    hide Run, Get, QueueInv, NamesInv, NoRepeats, FiberInv;
    assert PrimInv(s, p);
    assert Owns(Get(s, f), p) <==> s.prims[p].body.owner == Somebody(f);
    assert Owns(Get(s, g), p) <==> s.prims[p].body.owner == Somebody(g);
    if s.prims[p].body.locked { assert Owns(Get(s, s.prims[p].body.owner.f), p); }
    if OnList(Get(s, f), p) && Owns(Get(s, f), p) { WaiterOwnsNothing(s, f, p); }
  }

  /** The only waiter that can own what it waits for locked it a second time. */
  lemma WaiterOwnsNothing(s: State, f: Fid, p: Pid)
    requires OnList(Get(s, f), p)
    ensures Owns(Get(s, f), p) ==> p in Get(s, f).held
  {
  }

  /** Unlock leaves the mutex with the first waiter, or free if there is none. */
  lemma HandOver(es: seq<Event>, f: Fid, p: Pid, x: Fid)
    requires var s := Run(Init(), es); p in s.prims && Get(s, f).pc.Act? && Get(s, f).call == In(p, Unlock)
    ensures var s := Run(Init(), es);
      var q, s' := s.prims[p], Apply(s, Step(f));
      && p in s'.prims && s'.prims[p].body.Mutex?
      && (Owns(Get(s', x), p) <==> q.waiters != [] && x == q.waiters[0])
      && s'.prims[p].body.locked == (q.waiters != [])
      && q.waiters == Hand(Get(s', f).pc) + s'.prims[p].waiters
  {
    var s := Run(Init(), es);
    Reachable(es);
    hide Run, Inv, LinkInv, FiberInv, Owns;
    assert Fits(Unlock, s.prims[p].body) by { NamesOf(s, f); }
    OneList(s, p);
    UnlockDoes(s, f, p);
    ApplyKeeps(s, Step(f));
    OwnerIs(Apply(s, Step(f)), p, x);
  }

  lemma NamesOf(s: State, f: Fid)
    requires Inv(s)
    ensures NamesInv(Get(s, f), s.prims)
  {
  }

  lemma OwnerIs(s: State, p: Pid, x: Fid)
    requires Inv(s) && p in s.prims && s.prims[p].body.Mutex?
    ensures Owns(Get(s, x), p) <==> s.prims[p].body.owner == Somebody(x)
  {
    hide Owns, Get;
    assert PrimInv(s, p);
  }

  lemma UnlockDoes(s: State, f: Fid, p: Pid)
    requires p in s.prims && s.prims[p].body.Mutex? && Get(s, f).pc.Act? && Get(s, f).call == In(p, Unlock)
    requires ListInv(s, p)
    ensures var q, s' := s.prims[p], Apply(s, Step(f));
      && p in s'.prims
      && s'.prims[p].body == (if q.waiters == [] then Mutex(false, Nobody) else Mutex(true, Somebody(q.waiters[0])))
      && q.waiters == Hand(Get(s', f).pc) + s'.prims[p].waiters
  {
    FirstIsLinked(s, p);
    hide Chain;
    if s.prims[p].waiters != [] { assert s.prims[p].waiters == [s.prims[p].waiters[0]] + Later(s.prims[p].waiters); }
  }

  // ----- what it means for a wait group -----

  /** At zero nobody waits; and while the counter is positive every waiter that
      was not popped is still on the list, in the order they parked. */
  lemma NobodyWaitsAtZero(es: seq<Event>, p: Pid, f: Fid)
    requires var s := Run(Init(), es); p in s.prims && s.prims[p].body.Group? && s.prims[p].body.counter == 0
    ensures var s := Run(Init(), es);
      && s.prims[p].waiters == [] && s.prims[p].parks == s.prims[p].pops
      && !OnList(Get(s, f), p) && !Committed(Get(s, f), p)
  {
    var s := Run(Init(), es);
    Reachable(es);
    hide Run, Get, NoRepeats, OnList, Committed;
    assert PrimInv(s, p);
  }

  function StepsOf(es: seq<Event>, f: Fid): nat {
    if es == [] then 0 else (if es[0] == Step(f) then 1 else 0) + StepsOf(es[1..], f)
  }

  /** The fibers that f puts into the executor in this run, in order. */
  function Scheduled(s: State, es: seq<Event>, f: Fid): seq<Fid>
    decreases |es|
  {
    if es == [] then []
    else
      (if es[0] == Step(f) && Get(s, f).pc.Wake? then [Get(s, f).pc.cur] else [])
      + Scheduled(Apply(s, es[0]), es[1..], f)
  }

  /** The fibers whose waiters are met by following links from l. */
  function Follow(links: map<Fid, Link>, l: Link, steps: nat): seq<Fid>
    decreases steps
  {
    if steps == 0 || l.Null? || l.f !in links then [] else [l.f] + Follow(links, links[l.f], steps - 1)
  }

  lemma {:induction false} FollowChain(links: map<Fid, Link>, q: seq<Fid>, steps: nat)
    requires Chain(links, q) && |q| <= steps
    ensures Follow(links, First(q), steps) == q
    decreases |q|
  {
    hide Chain;
    if q != [] {
      FirstLink(links, q);
      LaterChain(links, q);
      FollowChain(links, Later(q), steps - 1);
      assert q == [q[0]] + Later(q);
    }
  }

  /** Whenever Done looks at a waiter, in whatever frames the links then are,
      following them from there meets exactly the waiters that it detached and has
      not scheduled yet, in park order, and ends at a null link; and the one it
      has just left behind was read before it was scheduled. */
  lemma LinksLeadThroughTheHand(es: seq<Event>, f: Fid, steps: nat)
    requires var b := Get(Run(Init(), es), f); b.call.In? && b.call.op.Done? && |Hand(b.pc)| <= steps
    ensures var s := Run(Init(), es);
      var pc := Get(s, f).pc;
      && (pc.Leave? ==> Follow(s.links, pc.first, steps) == pc.hand)
      && (pc.Look? ==> pc.cur in s.links && Follow(s.links, To(pc.cur), steps) == pc.hand)
      && (pc.Wake? ==> pc.cur in s.links && [pc.cur] + Follow(s.links, pc.next, steps) == pc.hand)
  {
    var s := Run(Init(), es);
    Reachable(es);
    hide Run, Get, Inv, Chain, Follow;
    var b := Get(s, f);
    assert FiberInv(b) by { OneFiber(s, f); }
    OneWaiter(s, f);
    var hand := Hand(b.pc);
    FollowChain(s.links, hand, steps);
    if hand != [] {
      FirstLink(s.links, hand);
      LaterChain(s.links, hand);
      FollowChain(s.links, Later(hand), steps);
      assert hand == [hand[0]] + Later(hand);
    }
  }

  /** Nobody but f touches f, the waiters in its hand, or their links, while it
      lets go of them. */
  lemma HandIsPrivate(s: State, e: Event, f: Fid, x: Fid)
    requires AllInv(s) && e != Step(f) && (Get(s, f).pc.Leave? || Get(s, f).pc.Look? || Get(s, f).pc.Wake?)
    requires x in Hand(Get(s, f).pc)
    ensures Get(Apply(s, e), f) == Get(s, f) && Get(Apply(s, e), x) == Get(s, x)
    ensures x in s.links && x in Apply(s, e).links && Apply(s, e).links[x] == s.links[x]
  {
    PopperIsPrivate(s, e, f);
    hide LinkInv, PrimInv, NamesInv, Hand, Get, Apply;
    assert Get(s, x).pc == Popped(f) by { assert x in Hand(Get(s, f).pc) <==> Get(s, x).pc == Popped(f); }
    OneFiber(s, x);
    OneWaiter(s, x);
    hide Inv;
    PoppedIsPrivate(s, e, f, x);
  }

  lemma PopperIsPrivate(s: State, e: Event, f: Fid)
    requires AllInv(s) && e != Step(f) && (Get(s, f).pc.Leave? || Get(s, f).pc.Look? || Get(s, f).pc.Wake?)
    ensures Get(Apply(s, e), f) == Get(s, f)
  {
    hide PrimInv, NamesInv, LinkInv, StepOf;
    assert FiberInv(Get(s, f));
    match e
    case Step(g) => StepOfAnother(s, g, f);
    case PickUp(i) => if i < |s.ready| { assert s.ready[i] in s.ready; }
    case Spawn(g) => if f !in s.fibers { NotSpawned(s, f); }
    case _ =>
  }

  lemma PoppedIsPrivate(s: State, e: Event, f: Fid, x: Fid)
    requires AllInv(s) && e != Step(f) && Get(s, x).pc == Popped(f)
    ensures Get(Apply(s, e), x) == Get(s, x)
    ensures x in s.links ==> x in Apply(s, e).links && Apply(s, e).links[x] == s.links[x]
  {
    hide PrimInv, NamesInv, LinkInv, StepOf;
    match e
    case Step(g) =>
      if g == x { PoppedRests(s, x); } else { StepOfAnother(s, g, x); LinkOfAnother(s, g, x); }
    case PickUp(i) => if i < |s.ready| { assert s.ready[i] in s.ready; }
    case Spawn(g) => if x !in s.fibers { NotSpawned(s, x); }
    case _ =>
  }

  lemma PoppedRests(s: State, x: Fid)
    requires Get(s, x).pc.Popped?
    ensures StepOf(s, x) == s
  {
  }

  /** A step of g leaves a fiber alone that is not on a list and not in g's hand. */
  lemma StepOfAnother(s: State, g: Fid, f: Fid)
    requires AllInv(s) && g != f && Get(s, f).pc != Popped(g) && !Get(s, f).pc.Parked? && !Get(s, f).pc.LeaveParked?
    ensures Get(StepOf(s, g), f) == Get(s, f)
  {
    var b := Get(s, g);
    OneFiber(s, g);
    if b.call.In? && b.call.p in s.prims {
      assert f !in s.prims[b.call.p].waiters by {
        assert PrimInv(s, b.call.p);
        assert f in s.prims[b.call.p].waiters <==> OnList(Get(s, f), b.call.p);
      }
      if b.pc.Act? {
        OneList(s, b.call.p);
        FirstIsLinked(s, b.call.p);
        if s.prims[b.call.p].waiters != [] { assert s.prims[b.call.p].waiters[0] in s.prims[b.call.p].waiters; }
        hide AllInv, FiberInv, Chain;
        ActOfAnother(s, g, b.call.p, f);
      } else if b.pc.Wake? {
        assert b.pc.cur in Hand(b.pc) by { FirstOfHand(s, g, Hand(b.pc)); }
        assert b.pc.cur in Hand(Get(s, g).pc) <==> Get(s, b.pc.cur).pc == Popped(g);
        hide AllInv, FiberInv;
      } else {
        hide AllInv, FiberInv;
      }
    }
  }

  lemma ActOfAnother(s: State, g: Fid, p: Pid, f: Fid)
    requires p in s.prims && g != f && f !in s.prims[p].waiters && Get(s, g).call.In?
    requires s.prims[p].list.size > 0 ==> s.prims[p].list.head.To? && s.prims[p].list.head.f in s.prims[p].waiters
    ensures Get(ActStep(s, g, p, Get(s, g).call.op), f) == Get(s, f)
  {
  }

  lemma LinkOfAnother(s: State, g: Fid, x: Fid)
    requires AllInv(s) && g != x && Get(s, x).pc.Popped?
    ensures x in s.links ==> x in StepOf(s, g).links && StepOf(s, g).links[x] == s.links[x]
  {
    hide Get, Inv, LinkInv, StepOf, Chain;
    var b := Get(s, g);
    if b.call.In? && b.call.p in s.prims && b.pc.Park? {
      NotOnList(s, x, b.call.p);
      OneList(s, b.call.p);
      ParkStepOf(s, g);
    } else {
      LinksStay(s, g);
    }
  }

  lemma NotOnList(s: State, x: Fid, p: Pid)
    requires Inv(s) && p in s.prims && Get(s, x).pc.Popped?
    ensures x !in s.prims[p].waiters
  {
    hide Get;
    assert PrimInv(s, p);
    assert x in s.prims[p].waiters <==> OnList(Get(s, x), p);
  }

  lemma ParkStepOf(s: State, g: Fid)
    requires Get(s, g).call.In? && Get(s, g).call.p in s.prims && Get(s, g).pc.Park?
    requires ListInv(s, Get(s, g).call.p)
    ensures forall x :: x !in s.prims[Get(s, g).call.p].waiters && x in s.links ==>
              x in StepOf(s, g).links && StepOf(s, g).links[x] == s.links[x]
  {
    var w := s.prims[Get(s, g).call.p].waiters;
    ParkMoves(s, g, Get(s, g).call.p);
    hide Get, ParkStep, Chain, Moved;
    if w != [] { assert w[|w| - 1] in w; }
  }

  /** Outside Park a fiber writes no link but that of its own new waiter. */
  lemma LinksStay(s: State, g: Fid)
    requires !(Get(s, g).call.In? && Get(s, g).call.p in s.prims && Get(s, g).pc.Park?)
    ensures StepOf(s, g).links == s.links || StepOf(s, g).links == s.links[g := Null]
  {
  }

  /** Where f is in a Done that detached `hand`: `left` steps are left, one to
      release the guard and two for each waiter. */
  ghost predicate Releasing(b: Fiber, hand: seq<Fid>, left: nat) {
    if left == 0 then hand == []
    else
      && b.call.In? && b.call.op.Done?
      && (b.pc.Leave? || b.pc.Look? || b.pc.Wake?) && b.pc.hand == hand
      && left == 2 * |hand| + (if b.pc.Leave? then 1 else if b.pc.Look? then 0 else -1)
  }

  /** How many of a hand of n are unscheduled when `left` steps are left. */
  function Unscheduled(n: nat, left: nat): nat { if (left + 1) / 2 < n then (left + 1) / 2 else n }

  lemma OwnRelease(s: State, f: Fid, hand: seq<Fid>, left: nat)
    requires AllInv(s) && Releasing(Get(s, f), hand, left) && left > 0
    ensures var b, b' := Get(s, f), Get(Apply(s, Step(f)), f);
      && (b.pc.Wake? ==> hand != [] && b.pc.cur == hand[0])
      && Releasing(b', if b.pc.Wake? then hand[1..] else hand, left - 1)
  {
    var b := Get(s, f);
    OneFiber(s, f);
    OneWaiter(s, f);
    FitsCall(s, f);
    if b.pc.Look? { FirstLink(s.links, hand); }
    if b.pc.Wake? {
      FirstOfHand(s, f, hand);
      OneWaiter(s, b.pc.cur);
      WakeMoves(s, f, b.pc.cur, b.pc.next, hand);
    }
    hide PrimInv, QueueInv, NamesInv, LinkInv, Chain;
  }

  lemma ReleasingMeans(b: Fiber, hand: seq<Fid>, left: nat)
    requires Releasing(b, hand, left)
    ensures left == 0 ==> hand == []
    ensures left > 0 ==> b.pc.Leave? || b.pc.Look? || b.pc.Wake?
    ensures left > 0 ==> left == 2 * |hand| + (if b.pc.Leave? then 1 else if b.pc.Look? then 0 else -1)
    ensures left == 0 ==> forall b' :: Releasing(b', hand, left)
  {
  }

  /** Whatever the others do meanwhile, a Done schedules what it detached one by
      one from the front, each fiber once. */
  lemma {:induction false} SchedulesItsHand(s: State, es: seq<Event>, f: Fid, hand: seq<Fid>, left: nat)
    requires AllInv(s) && Releasing(Get(s, f), hand, left) && StepsOf(es, f) <= left
    ensures Scheduled(s, es, f) == hand[..|hand| - Unscheduled(|hand|, left - StepsOf(es, f))]
    decreases |es|
  {
    hide AllInv, Apply, Get, Releasing;
    ReleasingMeans(Get(s, f), hand, left);
    if es != [] {
      var s' := Apply(s, es[0]);
      ApplyKeeps(s, es[0]);
      if es[0] == Step(f) {
        OwnRelease(s, f, hand, left);
        if Get(s, f).pc.Wake? {
          SchedulesItsHand(s', es[1..], f, hand[1..], left - 1);
          OneMore(hand, left - 1 - StepsOf(es[1..], f));
        } else {
          SchedulesItsHand(s', es[1..], f, hand, left - 1);
        }
      } else {
        if left > 0 { PopperIsPrivate(s, es[0], f); }
        SchedulesItsHand(s', es[1..], f, hand, left);
      }
    }
  }

  /** Taking the first of a hand by itself. */
  lemma OneMore(hand: seq<Fid>, left: nat)
    requires hand != [] && left <= 2 * |hand| - 2
    ensures [hand[0]] + hand[1..][..|hand[1..]| - Unscheduled(|hand[1..]|, left)] ==
            hand[..|hand| - Unscheduled(|hand|, left)]
  {
  }

  /** The Done that reaches zero takes exactly those parked at that moment, and
      schedules each of them once, in park order, although it finds them by
      following the links in their frames, outside the guard and one step at a
      time, with any others calling Add, Wait and Done meanwhile and the fibers
      it has scheduled going on at once. */
  lemma DoneSchedulesTheWaiters(before: seq<Event>, f: Fid, p: Pid, after: seq<Event>)
    requires var s := Run(Init(), before);
      && p in s.prims && Get(s, f).pc.Act? && Get(s, f).call == In(p, Done) && s.prims[p].body == Group(1)
      && StepsOf(after, f) <= 2 * |s.prims[p].waiters| + 1
    ensures var s := Run(Init(), before);
      var parked, s', n := s.prims[p].waiters, Apply(s, Step(f)), StepsOf(after, f);
      && p in s'.prims && s'.prims[p].body == Group(0) && s'.prims[p].waiters == [] && s'.prims[p].list == EMPTY
      && (forall x :: x in parked <==> OnList(Get(s, x), p))
      && NoRepeats(parked)
      && Scheduled(s', after, f) == if n == 0 then [] else parked[..(n - 1) / 2]
  {
    hide Run, AllInv, Get, Apply, Releasing, Unscheduled, OnList, NoRepeats;
    var s := Run(Init(), before);
    Reachable(before);
    ZeroDoes(s, f, p);
    ApplyKeeps(s, Step(f));
    SchedulesItsHand(Apply(s, Step(f)), after, f, s.prims[p].waiters, 2 * |s.prims[p].waiters| + 1);
    HalfOf(|s.prims[p].waiters|, StepsOf(after, f));
  }

  lemma HalfOf(n: nat, steps: nat)
    requires steps <= 2 * n + 1
    ensures n - Unscheduled(n, 2 * n + 1 - steps) == if steps == 0 then 0 else (steps - 1) / 2
  {
  }

  lemma ZeroDoes(s: State, f: Fid, p: Pid)
    requires AllInv(s)
    requires p in s.prims && Get(s, f).pc.Act? && Get(s, f).call == In(p, Done) && s.prims[p].body == Group(1)
    ensures var s' := Apply(s, Step(f));
      && p in s'.prims && s'.prims[p].body == Group(0) && s'.prims[p].waiters == [] && s'.prims[p].list == EMPTY
      && Releasing(Get(s', f), s.prims[p].waiters, 2 * |s.prims[p].waiters| + 1)
    ensures NoRepeats(s.prims[p].waiters) && forall x :: x in s.prims[p].waiters <==> OnList(Get(s, x), p)
  {
    assert PrimInv(s, p);
    OneList(s, p);
    FirstIsLinked(s, p);
    hide AllInv, Chain, PrimInv;
  }
}
