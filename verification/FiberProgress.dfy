/** What the fibers still have to do: every fiber gets through its call, unless it
    waits for a mutex that is owned or for work that is not done; and what Add and
    Done make of the counter of a wait group. */
module FiberProgress {
  import opened FiberLinks
  import opened FiberMachine
  import opened FiberSteps
  import opened Sequences
  import opened Sums

  // ----- the work that is left -----

  /** The steps a fiber has before it until it is in its own code or parked. What is
      left for whoever pops it, and for the worker that resumes it, is put down to
      the fiber itself. */
  function Steps(pc: Pc): nat {
    match pc
    case Enter => 9
    case Act => 8
    case Suspend => 7
    case Store => 6
    case Park => 5
    case LeaveParked => 4
    case Parked => 3
    case Popped(_) => 3
    case Leave(_, _) => 2
    case Look(_, _) => 1
    case Queued => 1
    case Yielding => 2
    case _ => 0
  }

  ghost function Works(fibers: map<Fid, Fiber>): map<Fid, nat> { map f | f in fibers :: Steps(fibers[f].pc) }

  ghost function Work(s: State): nat { Sum(Works(s.fibers)) }

  /** Events that are not up to the code that the fibers run. */
  predicate Internal(e: Event) { e.Step? || e.PickUp? }

  /** One fiber moved on. */
  lemma OneWorks(fibers: map<Fid, Fiber>, f: Fid, b: Fiber)
    ensures Sum(Works(fibers[f := b])) + (if f in fibers then Steps(fibers[f].pc) else 0) ==
            Sum(Works(fibers)) + Steps(b.pc)
  {
    SumPut(Works(fibers), f, Steps(b.pc));
    assert Works(fibers[f := b]) == Works(fibers)[f := Steps(b.pc)];
  }

  lemma MovingCosts(s: State, s': State, f: Fid, b: Fiber)
    requires s'.fibers == s.fibers[f := b] && Steps(b.pc) < Steps(Get(s, f).pc)
    ensures Work(s') < Work(s)
  {
    OneWorks(s.fibers, f, b);
  }

  /** Two fibers moved on. */
  lemma TwoMoving(s: State, s': State, f: Fid, b: Fiber, x: Fid, c: Fiber)
    requires f != x && s'.fibers == s.fibers[x := c][f := b]
    requires Steps(b.pc) + Steps(c.pc) < Steps(Get(s, f).pc) + Steps(Get(s, x).pc)
    ensures Work(s') < Work(s)
  {
    OneWorks(s.fibers, x, c);
    OneWorks(s.fibers[x := c], f, b);
  }

  lemma WaitersAreParked(s: State, f: Fid, p: Pid, x: Fid)
    requires Inv(s) && p in s.prims && Guards(Get(s, f), p) && !OnList(Get(s, f), p) && x in s.prims[p].waiters
    ensures Get(s, x).pc.Parked? && x in s.fibers && x != f
  {
    assert PrimInv(s, p);
    hide Get;
    assert x in s.prims[p].waiters <==> OnList(Get(s, x), p);
    assert Guards(Get(s, x), p) <==> s.prims[p].guard == HeldBy(x);
    assert Guards(Get(s, f), p) <==> s.prims[p].guard == HeldBy(f);
    if x !in s.fibers { NotSpawned(s, x); }
  }

  ghost function WithPopped(fibers: map<Fid, Fiber>, f: Fid, hand: seq<Fid>): map<Fid, Fiber> {
    map x | x in fibers :: if x in hand then fibers[x].(pc := Popped(f)) else fibers[x]
  }

  /** Popping changes where fibers are, not how far they have to go. */
  lemma PoppedAsFar(fibers: map<Fid, Fiber>, f: Fid, hand: seq<Fid>)
    requires forall x :: x in hand ==> x in fibers && fibers[x].pc.Parked?
    ensures Works(WithPopped(fibers, f, hand)) == Works(fibers)
  {
  }

  lemma TakeOffIs(s: State, f: Fid, p: Pid, first: Link, list: List, body: Body, hand: seq<Fid>, rest: seq<Fid>)
    requires p in s.prims
    ensures TakeOff(s, f, p, first, list, body, hand, rest).fibers ==
            WithPopped(s.fibers, f, hand)[f := Get(s, f).(pc := Leave(first, hand))]
  {
  }

  lemma TakingOffCosts(s: State, f: Fid, p: Pid, first: Link, list: List, body: Body, hand: seq<Fid>, rest: seq<Fid>)
    requires p in s.prims && Get(s, f).pc.Act? && f !in hand
    requires forall x :: x in hand ==> x in s.fibers && Get(s, x).pc.Parked?
    ensures Work(TakeOff(s, f, p, first, list, body, hand, rest)) < Work(s)
  {
    var popped := WithPopped(s.fibers, f, hand);
    PoppedAsFar(s.fibers, f, hand);
    assert f in popped && popped[f] == Get(s, f);
    TakeOffIs(s, f, p, first, list, body, hand, rest);
    hide TakeOff, WithPopped, Works, Get;
    OneWorks(popped, f, Get(s, f).(pc := Leave(first, hand)));
  }

  lemma ActCosts(s: State, f: Fid, p: Pid)
    requires AllInv(s) && Busy(s, f, p) && Get(s, f).pc.Act?
    ensures Work(ActStep(s, f, p, Get(s, f).call.op)) < Work(s)
  {
    var op, b, q := Get(s, f).call.op, Get(s, f), s.prims[p];
    FitsCall(s, f);
    OneList(s, p);
    FirstIsLinked(s, p);
    forall x | x in q.waiters ensures Get(s, x).pc.Parked? && x in s.fibers && x != f { WaitersAreParked(s, f, p, x); }
    hide AllInv, Inv, LinkInv, Get, Chain, Work, TakeOff;
    if op.Unlock? && q.waiters != [] {
      var x := q.list.head.f;
      TakingOffCosts(s, f, p, To(x), Shorter(q.list, s.links[x]), Mutex(true, Somebody(x)), [x], Later(q.waiters));
    } else if op.Done? && q.body == Group(1) {
      TakingOffCosts(s, f, p, if q.list.size == 0 then Null else q.list.head, EMPTY, Group(0), q.waiters, []);
    } else {
      PlainActCosts(s, f, p, op);
    }
  }

  lemma PlainActCosts(s: State, f: Fid, p: Pid, op: Op)
    requires p in s.prims && Fits(op, s.prims[p].body) && Get(s, f).pc.Act?
    requires op.Unlock? ==> s.prims[p].list.size == 0
    requires !(op.Done? && s.prims[p].body == Group(1))
    ensures Work(ActStep(s, f, p, op)) < Work(s)
  {
    var s' := ActStep(s, f, p, op);
    assert s'.fibers == s.fibers[f := Get(s, f).(pc := Get(s', f).pc)] && Steps(Get(s', f).pc) < 8;
    hide Work, ActStep, Get;
    MovingCosts(s, s', f, Get(s, f).(pc := Get(s', f).pc));
  }

  lemma WakeIs(s: State, f: Fid, p: Pid, cur: Fid, next: Link, hand: seq<Fid>)
    requires Busy(s, f, p) && Get(s, f).pc == Wake(cur, next, hand) && cur in s.links && Get(s, cur).handle && cur != f
    ensures StepOf(s, f).fibers ==
            s.fibers[cur := Get(s, cur).(pc := Queued, handle := false)][f := AfterWake(Get(s, f), next, hand)]
    ensures Steps(AfterWake(Get(s, f), next, hand).pc) <= 1
  {
  }

  lemma WakeCosts(s: State, f: Fid, p: Pid)
    requires AllInv(s) && Busy(s, f, p) && Get(s, f).pc.Wake?
    ensures Work(StepOf(s, f)) < Work(s)
  {
    var Wake(cur, next, hand) := Get(s, f).pc;
    assert FiberInv(Get(s, f));
    FirstOfHand(s, f, hand);
    OneWaiter(s, cur);
    assert cur in s.links && cur == hand[0];
    hide AllInv, Inv, LinkInv, FiberInv, WaiterInv, HandLinked, Work;
    WakeIs(s, f, p, cur, next, hand);
    hide StepOf, Get;
    TwoMoving(s, StepOf(s, f), f, AfterWake(Get(s, f), next, hand), cur, Get(s, cur).(pc := Queued, handle := false));
  }

  lemma ParkCosts(s: State, f: Fid, p: Pid)
    requires AllInv(s) && Busy(s, f, p) && Get(s, f).pc.Park?
    ensures Work(ParkStep(s, f, p)) < Work(s)
  {
    OneList(s, p);
    LastIsLinked(s, p);
    FirstIsLinked(s, p);
    hide AllInv, Inv, LinkInv, Chain, Work;
    MovingCosts(s, ParkStep(s, f, p), f, Get(s, f).(pc := LeaveParked));
  }

  lemma CallCosts(s: State, f: Fid, p: Pid)
    requires AllInv(s) && Busy(s, f, p) && StepOf(s, f) != s
    ensures Work(StepOf(s, f)) < Work(s)
  {
    assert FiberInv(Get(s, f));
    if Get(s, f).pc.Act? {
      ActCosts(s, f, p);
    } else if Get(s, f).pc.Wake? {
      WakeCosts(s, f, p);
    } else if Get(s, f).pc.Park? {
      ParkCosts(s, f, p);
    } else {
      if Get(s, f).pc.Look? { OneWaiter(s, f); FirstLink(s.links, Get(s, f).pc.hand); }
      hide AllInv, Inv, LinkInv, FiberInv, Work, ActStep, WakeStep, ParkStep;
      OthersCost(s, f, p);
    }
  }

  lemma OthersCost(s: State, f: Fid, p: Pid)
    requires Busy(s, f, p) && StepOf(s, f) != s && (Get(s, f).pc.Look? ==> Get(s, f).pc.cur in s.links)
    requires !Get(s, f).pc.Act? && !Get(s, f).pc.Wake? && !Get(s, f).pc.Park?
    ensures Work(StepOf(s, f)) < Work(s)
  {
    hide Work;
    MovingCosts(s, StepOf(s, f), f, StepOf(s, f).fibers[f]);
  }

  lemma PickUpCosts(s: State, i: nat)
    requires Inv(s) && i < |s.ready|
    ensures Work(PickUpStep(s, i)) < Work(s)
  {
    var f := s.ready[i];
    assert f in s.ready && FiberInv(Get(s, f));
    hide Inv, Work;
    MovingCosts(s, PickUpStep(s, i), f, PickUpStep(s, i).fibers[f]);
  }

  lemma StepCosts(s: State, e: Event)
    requires AllInv(s) && Internal(e) && Apply(s, e) != s
    ensures Work(Apply(s, e)) < Work(s)
  {
    hide Inv, LinkInv, Work, PickUpStep;
    match e
    case PickUp(i) => PickUpCosts(s, i);
    case Step(f) =>
      var b := Get(s, f);
      assert FiberInv(b) by { OneFiber(s, f); }
      if b.call.In? {
        FitsCall(s, f);
        hide StepOf;
        if b.pc.Queued? || b.pc.Popped? { Waiting(s, f); } else { CallCosts(s, f, b.call.p); }
      } else {
        MovingCosts(s, Apply(s, e), f, b.(pc := Queued));
      }
  }

  lemma Waiting(s: State, f: Fid)
    requires Get(s, f).pc.Queued? || Get(s, f).pc.Popped?
    ensures StepOf(s, f) == s
  {
  }

  /** Every step of the library that changes anything uses up work: a run in which
      no fiber does anything of its own has no more than Work(s) such steps left. */
  lemma EveryStepCounts(es: seq<Event>, e: Event)
    requires Internal(e) && Apply(Run(Init(), es), e) != Run(Init(), es)
    ensures Work(Apply(Run(Init(), es), e)) < Work(Run(Init(), es))
  {
    Reachable(es);
    StepCosts(Run(Init(), es), e);
  }

  // ----- somebody can always move -----

  /** In its own code, or waiting for what others have to do there. */
  predicate Resting(pc: Pc) { pc.Running? || pc.Completed? || pc.Parked? }

  ghost predicate AtRest(s: State) { forall f :: Resting(Get(s, f).pc) }

  /** A Done at zero leaves its fiber with the guard in its hands. */
  ghost predicate SomeMisuse(s: State) { exists f :: Get(s, f).pc.Misused? }

  /** In the middle of its call. */
  predicate Moving(pc: Pc) {
    pc.Act? || pc.Leave? || pc.Look? || pc.Wake? || pc.Suspend? || pc.Store? || pc.Park? || pc.LeaveParked?
  }

  lemma MovingMoves(s: State, f: Fid)
    requires AllInv(s) && Moving(Get(s, f).pc)
    ensures StepOf(s, f) != s
  {
    OneFiber(s, f);
    FitsCall(s, f);
    var b, p := Get(s, f), Get(s, f).call.p;
    OneList(s, p);
    hide AllInv, Inv, LinkInv, FiberInv;
    ChangesPc(s, f, p);
  }

  lemma ChangesPc(s: State, f: Fid, p: Pid)
    requires Get(s, f).call.In? && Get(s, f).call.p == p && p in s.prims && Fits(Get(s, f).call.op, s.prims[p].body)
    requires Moving(Get(s, f).pc)
    ensures Get(StepOf(s, f), f).pc != Get(s, f).pc
  {
    if Get(s, f).pc.Act? { hide StepOf; ActChangesPc(s, f, p); StepIsAct(s, f, p); }
  }

  lemma StepIsAct(s: State, f: Fid, p: Pid)
    requires Get(s, f).call.In? && Get(s, f).call.p == p && p in s.prims && Get(s, f).pc.Act?
    ensures StepOf(s, f) == ActStep(s, f, p, Get(s, f).call.op)
  {
  }

  lemma ActChangesPc(s: State, f: Fid, p: Pid)
    requires p in s.prims && Get(s, f).call.In? && Fits(Get(s, f).call.op, s.prims[p].body) && Get(s, f).pc.Act?
    ensures !Get(ActStep(s, f, p, Get(s, f).call.op), f).pc.Act?
  {
  }

  /** Whoever is not at rest can move, or waits for somebody who can. */
  lemma SomeoneMoves(s: State, f: Fid) returns (e: Event)
    requires AllInv(s) && !Resting(Get(s, f).pc) && !SomeMisuse(s)
    ensures Internal(e) && Apply(s, e) != s
  {
    var b := Get(s, f);
    OneFiber(s, f);
    e := Step(f);
    if Moving(b.pc) {
      MovingMoves(s, f);
    } else if b.pc.Enter? {
      e := EntererMoves(s, f);
    } else if b.pc.Queued? {
      e := QueuedMoves(s, f);
    } else if b.pc.Popped? {
      PopperMoves(s, f);
      e := Step(b.pc.popper);
    } else {
      YieldingMoves(s, f);
    }
  }

  lemma YieldingMoves(s: State, f: Fid)
    requires Get(s, f).pc.Yielding? && Get(s, f).call.NoCall?
    ensures StepOf(s, f) != s
  {
    assert |StepOf(s, f).ready| == |s.ready| + 1;
  }

  lemma QueuedMoves(s: State, f: Fid) returns (e: Event)
    requires Inv(s) && Get(s, f).pc.Queued?
    ensures Internal(e) && Apply(s, e) != s
  {
    assert f in s.ready;
    var i: nat :| i < |s.ready| && s.ready[i] == f;
    e := PickUp(i);
    assert |Apply(s, e).ready| == |s.ready| - 1;
  }

  lemma PopperMoves(s: State, f: Fid)
    requires AllInv(s) && Get(s, f).pc.Popped?
    ensures StepOf(s, Get(s, f).pc.popper) != s
  {
    var u := Get(s, f).pc.popper;
    assert f in Hand(Get(s, u).pc) <==> Get(s, f).pc == Popped(u);
    hide AllInv, StepOf;
    MovingMoves(s, u);
  }

  lemma EntererMoves(s: State, f: Fid) returns (e: Event)
    requires AllInv(s) && Get(s, f).pc.Enter? && !SomeMisuse(s)
    ensures Internal(e) && Apply(s, e) != s
  {
    OneFiber(s, f);
    FitsCall(s, f);
    var p := Get(s, f).call.p;
    e := Step(f);
    if s.prims[p].guard.HeldBy? {
      var g := s.prims[p].guard.f;
      assert Guards(Get(s, g), p) by {
        assert PrimInv(s, p);
        assert Guards(Get(s, g), p) <==> s.prims[p].guard == HeldBy(g);
      }
      e := Step(g);
      hide AllInv, StepOf;
      MovingMoves(s, g);
    } else {
      hide AllInv, FiberInv;
      assert Get(StepOf(s, f), f).pc.Act?;
    }
  }

  ghost predicate AllInternal(es: seq<Event>) { forall i :: 0 <= i < |es| ==> Internal(es[i]) }

  lemma {:induction false} Settles(s: State) returns (es: seq<Event>)
    requires AllInv(s)
    ensures AllInternal(es) && |es| <= Work(s) && (AtRest(Run(s, es)) || SomeMisuse(Run(s, es)))
    decreases Work(s)
  {
    hide AllInv, Apply, Work, Resting, SomeMisuse;
    es := [];
    if !AtRest(s) && !SomeMisuse(s) {
      var f :| !Resting(Get(s, f).pc);
      var e := SomeoneMoves(s, f);
      StepCosts(s, e);
      ApplyKeeps(s, e);
      var later := Settles(Apply(s, e));
      es := [e] + later;
      assert es[1..] == later;
    }
  }

  lemma {:induction false} RunSplits(s: State, es: seq<Event>, fs: seq<Event>)
    ensures Run(s, es + fs) == Run(Run(s, es), fs)
    decreases |es|
  {
    hide Apply;
    if es == [] {
      assert es + fs == fs;
    } else {
      assert (es + fs)[1..] == es[1..] + fs;
      RunSplits(Apply(s, es[0]), es[1..], fs);
    }
  }

  /** From every reachable state the fibers come to rest within the steps that are
      left, if they call nothing new: each is then in its own code or parked, and
      parked only at a mutex that is owned or at a wait group with work to do. The
      only thing that can come between is a Done at zero. */
  lemma ComeToRest(es: seq<Event>)
    ensures exists fs :: RestAfter(es, fs)
  {
    Reachable(es);
    var fs := Settles(Run(Init(), es));
    RunSplits(Init(), es, fs);
    Reachable(es + fs);
    var s := Run(Init(), es + fs);
    hide Run, Work, AtRest, SomeMisuse;
    forall f ensures ParkedWell(s, f) { WaitsForSomething(s, f); }
    assert RestAfter(es, fs);
  }

  ghost predicate ParkedWell(s: State, f: Fid) {
    var b := Get(s, f);
    b.pc.Parked? ==> b.call.In? && b.call.p in s.prims && Blocking(s.prims[b.call.p].body)
  }

  lemma WaitsForSomething(s: State, f: Fid)
    requires AllInv(s)
    ensures ParkedWell(s, f)
  {
    var b := Get(s, f);
    if b.pc.Parked? {
      OneFiber(s, f);
      FitsCall(s, f);
      assert PrimInv(s, b.call.p);
      assert f in s.prims[b.call.p].waiters <==> OnList(Get(s, f), b.call.p);
      hide AllInv;
    }
  }

  ghost predicate RestAfter(es: seq<Event>, fs: seq<Event>) {
    && AllInternal(fs) && |fs| <= Work(Run(Init(), es))
    && var s := Run(Init(), es + fs);
       (AtRest(s) || SomeMisuse(s)) && forall f :: ParkedWell(s, f)
  }

  // ----- the counter of a wait group -----

  function CounterOf(s: State, p: Pid): nat {
    if p in s.prims && s.prims[p].body.Group? then s.prims[p].body.counter else 0
  }

  /** What an event adds to the counter of p: only the critical sections of Add and
      Done do. */
  function Change(s: State, e: Event, p: Pid): int {
    if !e.Step? || !Get(s, e.f).pc.Act? || !Get(s, e.f).call.In? || Get(s, e.f).call.p != p then 0
    else
      match Get(s, e.f).call.op
      case Add(n) => n
      case Done => if CounterOf(s, p) > 0 then -1 else 0
      case _ => 0
  }

  /** The Adds less the Dones that have acted in a run from s. */
  function Net(s: State, es: seq<Event>, p: Pid): int
    decreases |es|
  {
    if es == [] then 0 else Change(s, es[0], p) + Net(Apply(s, es[0]), es[1..], p)
  }

  lemma ActCounts(s: State, f: Fid, o: Pid, p: Pid)
    requires o in s.prims && Get(s, f).call.In? && Get(s, f).call.p == o && Get(s, f).pc.Act?
    requires Fits(Get(s, f).call.op, s.prims[o].body) && ListInv(s, o)
    ensures CounterOf(ActStep(s, f, o, Get(s, f).call.op), p) == CounterOf(s, p) + Change(s, Step(f), p)
  {
    FirstIsLinked(s, o);
    hide Chain;
  }

  lemma StepCounts(s: State, f: Fid, p: Pid)
    requires AllInv(s)
    ensures CounterOf(StepOf(s, f), p) == CounterOf(s, p) + Change(s, Step(f), p)
  {
    if Get(s, f).pc.Act? && Get(s, f).call.In? {
      var o := Get(s, f).call.p;
      FitsCall(s, f);
      OneList(s, o);
      hide AllInv, StepOf;
      StepIsAct(s, f, o);
      ActCounts(s, f, o, p);
    } else {
      hide AllInv, ActStep;
      OthersCountNothing(s, f, p);
    }
  }

  lemma OthersCountNothing(s: State, f: Fid, p: Pid)
    requires !(Get(s, f).pc.Act? && Get(s, f).call.In?)
    ensures CounterOf(StepOf(s, f), p) == CounterOf(s, p)
  {
    hide Get;
  }

  lemma ApplyCounts(s: State, e: Event, p: Pid)
    requires AllInv(s)
    ensures CounterOf(Apply(s, e), p) == CounterOf(s, p) + Change(s, e, p)
  {
    hide AllInv, StepOf, Get;
    match e
    case Step(f) => StepCounts(s, f, p);
    case _ =>
  }

  lemma {:induction false} RunCounts(s: State, es: seq<Event>, p: Pid)
    requires AllInv(s)
    ensures CounterOf(Run(s, es), p) == CounterOf(s, p) + Net(s, es, p)
    decreases |es|
  {
    hide AllInv, Apply, CounterOf, Change;
    if es != [] {
      ApplyCounts(s, es[0], p);
      ApplyKeeps(s, es[0]);
      RunCounts(Apply(s, es[0]), es[1..], p);
    }
  }

  /** In every run the counter is the Adds less the Dones that have acted. */
  lemma CounterIsNet(es: seq<Event>, p: Pid)
    ensures CounterOf(Run(Init(), es), p) == Net(Init(), es, p)
  {
    Reachable([]);
    RunCounts(Init(), es, p);
  }

  // ----- a Wait returns only when the work is done -----

  /** f is in Wait on p and has not found the counter at zero. */
  predicate StillWaiting(b: Fiber, p: Pid) {
    && b.call == In(p, Wait)
    && (b.pc.Enter? || b.pc.Act? || b.pc.Suspend? || b.pc.Store? || b.pc.Park? || b.pc.LeaveParked? || b.pc.Parked?)
  }

  lemma OwnWait(s: State, f: Fid, p: Pid)
    requires AllInv(s) && StillWaiting(Get(s, f), p)
    ensures StillWaiting(Get(StepOf(s, f), f), p) || CounterOf(s, p) == 0
  {
    OneFiber(s, f);
    FitsCall(s, f);
    OneList(s, p);
    LastIsLinked(s, p);
    FirstIsLinked(s, p);
    hide AllInv, FiberInv, Chain;
  }

  /** Only a Done that brings the counter to zero takes f off. */
  lemma WaitAmongOthers(s: State, g: Fid, f: Fid, p: Pid)
    requires AllInv(s) && StillWaiting(Get(s, f), p) && g != f
    ensures StillWaiting(Get(StepOf(s, g), f), p) || CounterOf(StepOf(s, g), p) == 0
  {
    var b := Get(s, g);
    OneFiber(s, g);
    FitsCall(s, f);
    if b.call.In? && b.pc.Act? {
      FitsCall(s, g);
      OneList(s, b.call.p);
      FirstIsLinked(s, b.call.p);
      assert f in s.prims[b.call.p].waiters ==> b.call.p == p by {
        assert PrimInv(s, b.call.p);
        assert f in s.prims[b.call.p].waiters <==> OnList(Get(s, f), b.call.p);
      }
      hide AllInv, FiberInv, Chain, StepOf;
      StepIsAct(s, g, b.call.p);
      ActAmongOthers(s, g, b.call.p, f, p);
    } else if b.call.In? && b.pc.Wake? {
      FirstOfHand(s, g, Hand(b.pc));
      hide AllInv;
    } else {
      hide AllInv, FiberInv, ActStep;
    }
  }

  lemma ActAmongOthers(s: State, g: Fid, o: Pid, f: Fid, p: Pid)
    requires o in s.prims && p in s.prims && s.prims[p].body.Group? && StillWaiting(Get(s, f), p) && g != f
    requires Get(s, g).call.In? && Fits(Get(s, g).call.op, s.prims[o].body)
    requires f in s.prims[o].waiters ==> o == p
    requires s.prims[o].list.size > 0 ==> s.prims[o].list.head.To? && s.prims[o].list.head.f in s.prims[o].waiters
    ensures var s' := ActStep(s, g, o, Get(s, g).call.op);
      StillWaiting(Get(s', f), p) || CounterOf(s', p) == 0
  {
  }

  lemma ApplyWaits(s: State, e: Event, f: Fid, p: Pid)
    requires AllInv(s) && StillWaiting(Get(s, f), p)
    ensures StillWaiting(Get(Apply(s, e), f), p) || CounterOf(s, p) == 0 || CounterOf(Apply(s, e), p) == 0
  {
    hide LinkInv, StepOf, PrimInv, NamesInv, CounterOf;
    match e
    case Step(g) => if g == f { OwnWait(s, f, p); } else { WaitAmongOthers(s, g, f, p); }
    case PickUp(i) => if i < |s.ready| { assert s.ready[i] in s.ready; }
    case _ =>
  }

  /** After some beginning of the run the counter of p is zero. */
  ghost predicate SeenZero(s: State, es: seq<Event>, p: Pid) {
    exists k :: 0 <= k <= |es| && CounterOf(Run(s, es[..k]), p) == 0
  }

  lemma SeenLater(s: State, e: Event, es: seq<Event>, p: Pid)
    requires SeenZero(Apply(s, e), es, p)
    ensures SeenZero(s, [e] + es, p)
  {
    hide Apply, CounterOf;
    var k :| 0 <= k <= |es| && CounterOf(Run(Apply(s, e), es[..k]), p) == 0;
    assert ([e] + es)[..k + 1] == [e] + es[..k] && ([e] + es[..k])[1..] == es[..k];
    assert CounterOf(Run(s, ([e] + es)[..k + 1]), p) == 0;
  }

  lemma {:induction false} WaitsForZero(s: State, es: seq<Event>, f: Fid, p: Pid)
    requires AllInv(s) && StillWaiting(Get(s, f), p)
    ensures StillWaiting(Get(Run(s, es), f), p) || SeenZero(s, es, p)
    decreases |es|
  {
    hide AllInv, Apply, CounterOf, StillWaiting, Get;
    if es != [] {
      var s' := Apply(s, es[0]);
      assert es == [es[0]] + es[1..] && es[..0] == [] && es[..1] == [es[0]] && es[..1][1..] == [];
      assert Run(s, es[..0]) == s && Run(s, es[..1]) == s';
      ApplyWaits(s, es[0], f, p);
      ApplyKeeps(s, es[0]);
      if CounterOf(s, p) != 0 && CounterOf(s', p) != 0 {
        WaitsForZero(s', es[1..], f, p);
        if SeenZero(s', es[1..], p) { SeenLater(s, es[0], es[1..], p); }
      }
    }
  }

  /** A Wait comes back only if the counter was zero at some moment since it was
      called. */
  lemma WaitSeesZero(before: seq<Event>, after: seq<Event>, f: Fid, p: Pid)
    requires var b := Get(Run(Init(), before), f); b.pc.Enter? && b.call == In(p, Wait)
    requires Get(Run(Init(), before + after), f).pc.Running?
    ensures exists k :: 0 <= k <= |after| && CounterOf(Run(Init(), before + after[..k]), p) == 0
  {
    Reachable(before);
    var s := Run(Init(), before);
    RunSplits(Init(), before, after);
    WaitsForZero(s, after, f, p);
    var k :| 0 <= k <= |after| && CounterOf(Run(s, after[..k]), p) == 0;
    RunSplits(Init(), before, after[..k]);
  }

  // ----- calls that nobody disturbs -----

  lemma RunOf3(s: State, a: Event, b: Event, c: Event)
    ensures Run(s, [a, b, c]) == Apply(Apply(Apply(s, a), b), c)
  {
    hide Apply;
    assert [a, b, c][1..] == [b, c] && [b, c][1..] == [c] && [c][1..] == [];
    assert Run(Apply(s, a), [b, c]) == Run(Apply(Apply(s, a), b), [c]);
  }

  lemma RunOf4(s: State, a: Event, b: Event, c: Event, d: Event)
    ensures Run(s, [a, b, c, d]) == Apply(Apply(Apply(Apply(s, a), b), c), d)
  {
    hide Apply;
    assert [a, b, c, d][1..] == [b, c, d];
    RunOf3(Apply(s, a), b, c, d);
  }

  /** A Lock that finds the mutex free takes it and returns. */
  lemma FreeMutexIsTaken(es: seq<Event>, f: Fid, p: Pid)
    requires var s := Run(Init(), es);
      && Get(s, f).pc.Running? && p in s.prims && s.prims[p].body.Mutex? && !s.prims[p].body.locked
      && s.prims[p].guard == Free
    ensures var s' := Run(Init(), es + [Begin(f, p, Lock), Step(f), Step(f), Step(f)]);
      && Get(s', f).pc.Running? && p in Get(s', f).held
      && p in s'.prims && s'.prims[p].body == Mutex(true, Somebody(f)) && s'.prims[p].guard == Free
  {
    var s := Run(Init(), es);
    RunSplits(Init(), es, [Begin(f, p, Lock), Step(f), Step(f), Step(f)]);
    RunOf4(s, Begin(f, p, Lock), Step(f), Step(f), Step(f));
    hide Run;
    ToLocked(s, f, p);
  }

  lemma ToLocked(s: State, f: Fid, p: Pid)
    requires Get(s, f).pc.Running? && p in s.prims && s.prims[p].body.Mutex? && !s.prims[p].body.locked
    requires s.prims[p].guard == Free
    ensures var s' := Apply(Apply(Apply(Apply(s, Begin(f, p, Lock)), Step(f)), Step(f)), Step(f));
      && Get(s', f).pc.Running? && p in Get(s', f).held
      && p in s'.prims && s'.prims[p].body == Mutex(true, Somebody(f)) && s'.prims[p].guard == Free
  {
  }

  /** A Wait for work that is not done parks its fiber at the end of the list. */
  lemma WaitParks(es: seq<Event>, f: Fid, p: Pid)
    requires var s := Run(Init(), es);
      && Get(s, f).pc.Running? && p in s.prims && s.prims[p].body.Group? && s.prims[p].body.counter > 0
      && s.prims[p].guard == Free
    ensures var s := Run(Init(), es);
      var s' := Run(Init(), es + ([Begin(f, p, Wait), Step(f), Step(f), Step(f)] + [Step(f), Step(f), Step(f)]));
      && Get(s', f).pc.Parked? && Get(s', f).call == In(p, Wait)
      && p in s'.prims && s'.prims[p].waiters == s.prims[p].waiters + [f] && s'.prims[p].guard == Free
  {
    var s := Run(Init(), es);
    var first, second := [Begin(f, p, Wait), Step(f), Step(f), Step(f)], [Step(f), Step(f), Step(f)];
    Reachable(es);
    OneList(s, p);
    LastIsLinked(s, p);
    FirstIsLinked(s, p);
    RunSplits(Init(), es, first + second);
    RunSplits(s, first, second);
    RunOf4(s, Begin(f, p, Wait), Step(f), Step(f), Step(f));
    RunOf3(Run(s, first), Step(f), Step(f), Step(f));
    hide Run, AllInv, Chain;
    ToStore(s, f, p);
    ToParked(Run(s, first), f, p);
  }

  /** Half way, the handle is about to be stored. */
  lemma ToStore(s: State, f: Fid, p: Pid)
    requires Get(s, f).pc.Running? && p in s.prims && s.prims[p].body.Group? && s.prims[p].body.counter > 0
    requires s.prims[p].guard == Free
    ensures var s' := Apply(Apply(Apply(Apply(s, Begin(f, p, Wait)), Step(f)), Step(f)), Step(f));
      && Get(s', f).pc.Store? && Get(s', f).call == In(p, Wait)
      && p in s'.prims && s'.prims[p] == s.prims[p].(guard := HeldBy(f))
      && forall x :: x in s.links ==> x in s'.links
  {
  }

  lemma ToParked(s: State, f: Fid, p: Pid)
    requires Get(s, f).pc.Store? && Get(s, f).call == In(p, Wait) && p in s.prims && s.prims[p].guard == HeldBy(f)
    requires var list := s.prims[p].list; list.head.To? ==> list.tail.To? && list.tail.f in s.links
    ensures var s' := Apply(Apply(Apply(s, Step(f)), Step(f)), Step(f));
      && Get(s', f).pc.Parked? && Get(s', f).call == In(p, Wait)
      && p in s'.prims && s'.prims[p].waiters == s.prims[p].waiters + [f] && s'.prims[p].guard == Free
  {
  }
}
