/** Fibers, their executor, and the two primitives they block on: AsyncMutex and
    WaitGroup share one waiting protocol (suspend with the guard held, store the
    handle, park, release the guard), so they share one machine here. A waiter is
    an object in the frame of the fiber that waits, and lists are made of links. */
module FiberMachine {
  import opened Sequences

  type Fid = nat
  type Pid = nat

  datatype Op = Lock | Unlock | Add(n: nat) | Done | Wait

  /** A pointer to the waiter of a fiber. */
  datatype Link = Null | To(f: Fid)

  /** Where a fiber is. `hand` is history, the waiters it popped and has yet to
      schedule, and so is the difference between Parked and Popped. From Store to
      LeaveParked the fiber itself is switched out and the worker that ran it acts
      for it, in AwaitSuspend. */
  datatype Pc =
    | Queued                        // in the executor
    | Running                       // user code
    | Enter                         // acquiring the guard
    | Act                           // the critical section
    | Leave(first: Link, hand: seq<Fid>)            // releasing the guard; first was popped
    | Look(cur: Fid, hand: seq<Fid>)                // Done: about to read the link of cur
    | Wake(cur: Fid, next: Link, hand: seq<Fid>)    // about to schedule cur
    | Suspend                       // about to switch out, guard held
    | Store
    | Park
    | LeaveParked                   // parked, guard still held
    | Parked
    | Popped(popper: Fid)           // in the hand of the fiber that popped it
    | Yielding
    | Completed
    | Misused                       // Done at zero
    | Fault                         // a bad link, a used-up handle, or resumed while not saved

  /** The call a fiber is in. */
  datatype Call = NoCall | In(p: Pid, op: Op)

  /** A fiber: `saved` says its context is saved, `handle` that its waiter holds
      a valid StoppedFiber. `held` is history: the mutexes whose Lock has
      returned and whose Unlock has not been called. */
  datatype Fiber = Fiber(pc: Pc, call: Call, saved: bool, handle: bool, held: set<Pid>)

  datatype Guard = Free | HeldBy(f: Fid)

  datatype Owner = Nobody | Somebody(f: Fid)

  /** `owner` is history: who holds the mutex or has been handed it. */
  datatype Body = Mutex(locked: bool, owner: Owner) | Group(counter: nat)

  /** The fields of an intrusive list. */
  datatype List = List(size: nat, head: Link, tail: Link)

  const EMPTY: List := List(0, Null, Null)

  /** A primitive; `waiters`, `parks` and `pops` are history: who is on the list,
      everyone who ever parked, and everyone ever taken off the list, in order. */
  datatype Prim = Prim(guard: Guard, list: List, body: Body, waiters: seq<Fid>, parks: seq<Fid>, pops: seq<Fid>)

  datatype State = State(
    ready: seq<Fid>,        // the executor's tasks, in no particular order
    fibers: map<Fid, Fiber>,
    prims: map<Pid, Prim>,
    links: map<Fid, Link>)  // next_ of the waiters that exist, by the fiber they are for

  datatype Event =
    | Spawn(f: Fid)
    | NewMutex(p: Pid)
    | NewGroup(p: Pid)
    | Begin(f: Fid, p: Pid, op: Op)
    | Step(f: Fid)
    | Yield(f: Fid)
    | Finish(f: Fid)
    | PickUp(i: nat)        // some worker takes the i-th ready fiber

  function Init(): State { State([], map[], map[], map[]) }

  /** A fiber that was never spawned looks like one that has completed. */
  function Get(s: State, f: Fid): Fiber {
    if f in s.fibers then s.fibers[f] else Fiber(Completed, NoCall, false, false, {})
  }

  function Put(s: State, f: Fid, b: Fiber): State { s.(fibers := s.fibers[f := b]) }

  function Set(s: State, p: Pid, q: Prim): State { s.(prims := s.prims[p := q]) }

  function SetGuard(s: State, p: Pid, g: Guard): State
    requires p in s.prims
  {
    Set(s, p, s.prims[p].(guard := g))
  }

  predicate Fits(op: Op, body: Body) { if op.Lock? || op.Unlock? then body.Mutex? else body.Group? }

  /** The fiber goes back to its own code; a Lock that returns has the mutex. */
  function Returned(b: Fiber): Fiber {
    b.(pc := Running, call := NoCall, saved := false,
       held := if b.call.In? && b.call.op.Lock? then b.held + {b.call.p} else b.held)
  }

  // ----- the steps -----

  /** What a caller owes: it unlocks only what it has locked. */
  predicate MayCall(s: State, f: Fid, p: Pid, op: Op) {
    && Get(s, f).pc.Running? && p in s.prims && Fits(op, s.prims[p].body)
    && (op.Unlock? ==> p in Get(s, f).held)
  }

  function BeginStep(s: State, f: Fid, p: Pid, op: Op): State {
    var b := Get(s, f);
    Put(s, f, b.(pc := Enter, call := In(p, op), held := if op.Unlock? then b.held - {p} else b.held))
  }

  function EnterStep(s: State, f: Fid, p: Pid): State
    requires p in s.prims
  {
    if s.prims[p].guard == Free then Put(SetGuard(s, p, HeldBy(f)), f, Get(s, f).(pc := Act)) else s
  }

  function First(q: seq<Fid>): Link { if q == [] then Null else To(q[0]) }

  function Later(q: seq<Fid>): seq<Fid> { if q == [] then [] else q[1..] }

  /** What Pop of a list that is not empty leaves, and what Clear leaves. */
  function Shorter(list: List, next: Link): List
    requires list.size > 0
  {
    if list.size == 1 then EMPTY else List(list.size - 1, next, list.tail)
  }

  /** f has popped `first` and goes on to release the guard; the list is now `list`. */
  function TakeOff(s: State, f: Fid, p: Pid, first: Link, list: List, body: Body, hand: seq<Fid>, rest: seq<Fid>): State
    requires p in s.prims
  {
    var q := s.prims[p];
    var popped := s.(fibers := map x | x in s.fibers ::
                       if x in hand then s.fibers[x].(pc := Popped(f)) else s.fibers[x]);
    Put(Set(popped, p, q.(list := list, body := body, waiters := rest, pops := q.pops + hand)),
        f, Get(s, f).(pc := Leave(first, hand)))
  }

  /** The critical section changes the body of p and goes on to release the guard. */
  function Change(s: State, f: Fid, p: Pid, body: Body): State
    requires p in s.prims
  {
    Put(Set(s, p, s.prims[p].(body := body)), f, Get(s, f).(pc := Leave(Null, [])))
  }

  /** A new waiter, in the frame of f, which is about to suspend itself. */
  function NewWaiter(s: State, f: Fid): State { Put(s.(links := s.links[f := Null]), f, Get(s, f).(pc := Suspend)) }

  /** Whether the first waiter of a list can be looked at. */
  predicate HasFirst(s: State, list: List) { list.head.To? && list.head.f in s.links }

  function ActStep(s: State, f: Fid, p: Pid, op: Op): State
    requires p in s.prims
  {
    var q, b := s.prims[p], Get(s, f);
    match (op, q.body)
    case (Lock, Mutex(locked, _)) =>
      if locked then NewWaiter(s, f) else Change(s, f, p, Mutex(true, Somebody(f)))
    case (Unlock, Mutex(_, _)) =>
      if q.list.size == 0 then Change(s, f, p, Mutex(false, Nobody))
      else if !HasFirst(s, q.list) then Put(s, f, b.(pc := Fault))
      else
        var x := q.list.head.f;
        TakeOff(s, f, p, To(x), Shorter(q.list, s.links[x]), Mutex(true, Somebody(x)), [x], Later(q.waiters))
    case (Add(n), Group(c)) => Change(s, f, p, Group(c + n))
    case (Done, Group(c)) =>
      if c == 0 then Put(s, f, b.(pc := Misused))
      else if c > 1 then Change(s, f, p, Group(c - 1))
      else if q.list.size > 0 && !HasFirst(s, q.list) then Put(s, f, b.(pc := Fault))
      else TakeOff(s, f, p, if q.list.size == 0 then Null else q.list.head, EMPTY, Group(0), q.waiters, [])
    case (Wait, Group(c)) => if c > 0 then NewWaiter(s, f) else Put(s, f, b.(pc := Leave(Null, [])))
    case _ => s
  }

  /** Unlock goes on to schedule the one it popped, Done to walk from it. */
  function Released(b: Fiber, first: Link, hand: seq<Fid>): Fiber {
    if first.Null? then Returned(b)
    else b.(pc := if b.call.In? && b.call.op.Done? then Look(first.f, hand) else Wake(first.f, Null, hand))
  }

  function LeaveStep(s: State, f: Fid, p: Pid, first: Link, hand: seq<Fid>): State
    requires p in s.prims
  {
    Put(SetGuard(s, p, Free), f, Released(Get(s, f), first, hand))
  }

  /** The link has to be read before the waiter is scheduled, which may end it. */
  function LookStep(s: State, f: Fid, cur: Fid, hand: seq<Fid>): State {
    if cur !in s.links then Put(s, f, Get(s, f).(pc := Fault))
    else Put(s, f, Get(s, f).(pc := Wake(cur, s.links[cur], hand)))
  }

  function AfterWake(b: Fiber, next: Link, hand: seq<Fid>): Fiber {
    if next.Null? then Returned(b) else b.(pc := Look(next.f, Later(hand)))
  }

  /** StoppedFiber::Schedule on the waiter's handle, which is used up. */
  function WakeStep(s: State, f: Fid, cur: Fid, next: Link, hand: seq<Fid>): State {
    if cur !in s.links || !Get(s, cur).handle then Put(s, f, Get(s, f).(pc := Fault))
    else
      Put(Put(s.(ready := s.ready + [cur]), cur, Get(s, cur).(pc := Queued, handle := false)),
          f, AfterWake(Get(s, f), next, hand))
  }

  /** Switching out, storing the handle. */
  function SuspendStep(s: State, f: Fid): State { Put(s, f, Get(s, f).(pc := Store, saved := true)) }

  function StoreStep(s: State, f: Fid): State { Put(s, f, Get(s, f).(pc := Park, handle := true)) }

  /** Park: Push links the waiter after the last one. */
  function ParkStep(s: State, f: Fid, p: Pid): State
    requires p in s.prims
  {
    var q := s.prims[p];
    if q.list.head.To? && (q.list.tail.Null? || q.list.tail.f !in s.links) then Put(s, f, Get(s, f).(pc := Fault))
    else
      var links := if q.list.head.To? then s.links[q.list.tail.f := To(f)] else s.links;
      var list := List(q.list.size + 1, if q.list.head.To? then q.list.head else To(f), To(f));
      Put(Set(s.(links := links), p, q.(list := list, waiters := q.waiters + [f], parks := q.parks + [f])),
          f, Get(s, f).(pc := LeaveParked))
  }

  function LeaveParkedStep(s: State, f: Fid, p: Pid): State
    requires p in s.prims
  {
    Put(SetGuard(s, p, Free), f, Get(s, f).(pc := Parked))
  }

  function YieldingStep(s: State, f: Fid): State {
    Put(s.(ready := s.ready + [f]), f, Get(s, f).(pc := Queued))
  }

  function StepOf(s: State, f: Fid): State {
    var b := Get(s, f);
    if b.call.In? && b.call.p in s.prims then
      var p := b.call.p;
      match b.pc
      case Enter => EnterStep(s, f, p)
      case Act => ActStep(s, f, p, b.call.op)
      case Leave(first, hand) => LeaveStep(s, f, p, first, hand)
      case Look(cur, hand) => LookStep(s, f, cur, hand)
      case Wake(cur, next, hand) => WakeStep(s, f, cur, next, hand)
      case Suspend => SuspendStep(s, f)
      case Store => StoreStep(s, f)
      case Park => ParkStep(s, f, p)
      case LeaveParked => LeaveParkedStep(s, f, p)
      case _ => s
    else if b.pc.Yielding? then YieldingStep(s, f)
    else s
  }

  /** A fiber that was waiting returns from its wait, and its waiter is gone. */
  function PickUpStep(s: State, i: nat): State
    requires i < |s.ready|
  {
    var f := s.ready[i];
    var b := Get(s, f);
    Put(s.(ready := s.ready[..i] + s.ready[i + 1..], links := s.links - {f}), f,
        if b.pc.Queued? && b.saved then Returned(b) else b.(pc := Fault))
  }

  function Apply(s: State, e: Event): State {
    match e
    case Spawn(f) =>
      if f in s.fibers then s else Put(s.(ready := s.ready + [f]), f, Fiber(Queued, NoCall, true, false, {}))
    case NewMutex(p) => if p in s.prims then s else Set(s, p, Prim(Free, EMPTY, Mutex(false, Nobody), [], [], []))
    case NewGroup(p) => if p in s.prims then s else Set(s, p, Prim(Free, EMPTY, Group(0), [], [], []))
    case Begin(f, p, op) => if MayCall(s, f, p, op) then BeginStep(s, f, p, op) else s
    case Step(f) => StepOf(s, f)
    case Yield(f) => if Get(s, f).pc.Running? then Put(s, f, Get(s, f).(pc := Yielding, saved := true)) else s
    case Finish(f) => if Get(s, f).pc.Running? then Put(s, f, Get(s, f).(pc := Completed)) else s
    case PickUp(i) => if i < |s.ready| then PickUpStep(s, i) else s
  }

  function Run(s: State, es: seq<Event>): State
    decreases |es|
  {
    if es == [] then s else Run(Apply(s, es[0]), es[1..])
  }

  // ----- what every reachable state satisfies -----

  function Hand(pc: Pc): seq<Fid> {
    match pc
    case Leave(_, hand) => hand
    case Look(_, hand) => hand
    case Wake(_, _, hand) => hand
    case _ => []
  }

  predicate OnList(b: Fiber, p: Pid) { b.call.In? && b.call.p == p && (b.pc.LeaveParked? || b.pc.Parked?) }

  predicate Guards(b: Fiber, p: Pid) {
    && b.call.In? && b.call.p == p
    && (b.pc.Act? || b.pc.Leave? || b.pc.Suspend? || b.pc.Store? || b.pc.Park? || b.pc.LeaveParked? || b.pc.Misused?)
  }

  /** On its way to the list of p, holding the guard. */
  predicate Committed(b: Fiber, p: Pid) { b.call.In? && b.call.p == p && (b.pc.Suspend? || b.pc.Store? || b.pc.Park?) }

  predicate SwitchedOut(pc: Pc) {
    pc.Queued? || pc.Store? || pc.Park? || pc.LeaveParked? || pc.Parked? || pc.Popped? || pc.Yielding?
  }

  predicate HasHandle(pc: Pc) { pc.Park? || pc.LeaveParked? || pc.Parked? || pc.Popped? }

  /** The fiber has the mutex p, or has been handed it and has yet to find out,
      or has called Unlock and has yet to give it up. */
  predicate Owns(b: Fiber, p: Pid) {
    || p in b.held
    || (b.call == In(p, Lock) && (b.pc.Leave? || b.pc.Popped? || b.pc.Queued?))
    || (b.call == In(p, Unlock) && (b.pc.Enter? || b.pc.Act?))
  }

  /** Whether a Lock or Wait that comes now has to wait. */
  predicate Blocking(body: Body) { if body.Mutex? then body.locked else body.counter > 0 }

  /** Unlock pops one waiter, Done any number. */
  predicate MayHold(op: Op, hand: seq<Fid>) { op.Done? || (op.Unlock? && |hand| == 1) }

  /** Where a fiber is agrees with the call it is in, its context is saved when
      it is switched out, and its handle is good while it can be scheduled. */
  predicate FiberInv(b: Fiber) {
    && (b.saved <==> SwitchedOut(b.pc))
    && (b.handle <==> HasHandle(b.pc))
    && (b.call.In? && b.call.op.Unlock? ==> b.call.p !in b.held)
    && match b.pc
       case Enter => b.call.In?
       case Act => b.call.In?
       case Leave(first, hand) => b.call.In? && first == First(hand) && (hand == [] || MayHold(b.call.op, hand))
       case Look(cur, hand) => b.call.In? && b.call.op.Done? && First(hand) == To(cur)
       case Wake(cur, next, hand) =>
         && b.call.In? && MayHold(b.call.op, hand)
         && First(hand) == To(cur) && next == First(Later(hand))
       case Queued => b.call.In? ==> b.call.op.Lock? || b.call.op.Wait?
       case Running => b.call.NoCall?
       case Yielding => b.call.NoCall?
       case Completed => b.call.NoCall?
       case Misused => b.call.In? && b.call.op.Done?
       case Fault => false
       case _ => b.call.In? && (b.call.op.Lock? || b.call.op.Wait?)
  }

  /** A fiber's calls name primitives of the right kind. */
  ghost predicate NamesInv(b: Fiber, prims: map<Pid, Prim>) {
    && (b.call.In? ==> b.call.p in prims && Fits(b.call.op, prims[b.call.p].body))
    && (forall p :: p in b.held ==> p in prims && prims[p].body.Mutex?)
  }

  /** The executor and the hands hold exactly the fibers that say so, once. */
  ghost predicate QueueInv(s: State) {
    && NoRepeats(s.ready)
    && (forall f :: f in s.ready <==> Get(s, f).pc.Queued?)
    && (forall f :: NoRepeats(Hand(Get(s, f).pc)))
    && (forall f, u :: f in Hand(Get(s, u).pc) <==> Get(s, f).pc == Popped(u))
  }

  ghost predicate PrimInv(s: State, p: Pid)
    requires p in s.prims
  {
    var q := s.prims[p];
    && NoRepeats(q.waiters)
    && (forall f :: f in q.waiters <==> OnList(Get(s, f), p))
    && (forall f :: Guards(Get(s, f), p) <==> q.guard == HeldBy(f))
    && q.parks == q.pops + q.waiters
    && (forall f :: Committed(Get(s, f), p) ==> Blocking(q.body))
    && (q.waiters != [] ==> Blocking(q.body))
    && (q.body.Mutex? ==>
          && (q.body.locked <==> q.body.owner.Somebody?)
          && (forall f :: Owns(Get(s, f), p) <==> q.body.owner == Somebody(f)))
  }

  ghost predicate Inv(s: State) {
    && QueueInv(s)
    && (forall f :: FiberInv(Get(s, f)) && NamesInv(Get(s, f), s.prims))
    && (forall p :: p in s.prims ==> PrimInv(s, p))
  }

  predicate LinkedAt(links: map<Fid, Link>, q: seq<Fid>, i: int)
    requires 0 <= i < |q|
  {
    q[i] in links && links[q[i]] == if i + 1 < |q| then To(q[i + 1]) else Null
  }

  /** The links lead through q and end with it. */
  ghost predicate Chain(links: map<Fid, Link>, q: seq<Fid>) {
    forall i :: 0 <= i < |q| ==> LinkedAt(links, q, i)
  }

  function ListOver(q: seq<Fid>): List { if q == [] then EMPTY else List(|q|, To(q[0]), To(q[|q| - 1])) }

  ghost predicate ListInv(s: State, p: Pid)
    requires p in s.prims
  {
    s.prims[p].list == ListOver(s.prims[p].waiters) && Chain(s.links, s.prims[p].waiters)
  }

  /** What a Done has detached and has yet to schedule is still linked. */
  ghost predicate HandLinked(b: Fiber, links: map<Fid, Link>) {
    b.call.In? && b.call.op.Done? ==> Chain(links, Hand(b.pc))
  }

  /** The waiter of a fiber exists from its suspension to its return, and its link
      is null until it is parked. */
  predicate HasWaiter(b: Fiber) {
    && b.call.In?
    && (b.pc.Suspend? || b.pc.Store? || b.pc.Park? || b.pc.LeaveParked? || b.pc.Parked? || b.pc.Popped? || b.pc.Queued?)
  }

  ghost predicate WaiterInv(b: Fiber, x: Fid, links: map<Fid, Link>) {
    && (x in links <==> HasWaiter(b))
    && (b.pc.Suspend? || b.pc.Store? || b.pc.Park? ==> x in links && links[x] == Null)
  }

  ghost predicate LinkInv(s: State) {
    && (forall p :: p in s.prims ==> ListInv(s, p))
    && (forall f :: HandLinked(Get(s, f), s.links) && WaiterInv(Get(s, f), f, s.links))
  }
}
