/** Every step of the fiber machine keeps the links of its lists, and so every
    reachable state satisfies the whole invariant. */
module FiberLinks {
  import opened FiberMachine
  import opened FiberSteps
  import opened Sequences

  predicate Unparked(pc: Pc) { pc.Suspend? || pc.Store? || pc.Park? }

  /** What b' may be if no link is touched. */
  predicate Calm(b: Fiber, b': Fiber) {
    && HasWaiter(b') == HasWaiter(b)
    && (Hand(b'.pc) == [] || (Hand(b'.pc) == Hand(b.pc) && b'.call == b.call))
    && (Unparked(b'.pc) ==> Unparked(b.pc))
  }

  lemma QuietLinks(s: State, s': State)
    requires LinkInv(s) && s'.links == s.links
    requires forall p :: p in s'.prims ==>
               if p in s.prims then s'.prims[p].list == s.prims[p].list && s'.prims[p].waiters == s.prims[p].waiters
               else s'.prims[p].list == EMPTY && s'.prims[p].waiters == []
    requires forall x :: Calm(Get(s, x), Get(s', x))
    ensures LinkInv(s')
  {
    hide Get, Chain, HasWaiter, Hand;
    forall p | p in s'.prims ensures ListInv(s', p) {
      if p in s.prims { assert ListInv(s, p); } else { EmptyChain(s'.links); }
    }
    forall x ensures HandLinked(Get(s', x), s'.links) && WaiterInv(Get(s', x), x, s'.links) {
      assert HandLinked(Get(s, x), s.links) && WaiterInv(Get(s, x), x, s.links) && Calm(Get(s, x), Get(s', x));
      EmptyChain(s'.links);
    }
  }

  lemma EmptyChain(links: map<Fid, Link>)
    ensures Chain(links, [])
  {
  }

  /** f becomes b, calmly, and p becomes q with the list it has. */
  lemma OneCalm(s: State, ready: seq<Fid>, f: Fid, b: Fiber, p: Pid, q: Prim)
    requires LinkInv(s) && Calm(Get(s, f), b) && p in s.prims
    requires q.list == s.prims[p].list && q.waiters == s.prims[p].waiters
    ensures LinkInv(Put(Set(s.(ready := ready), p, q), f, b))
  {
    PutMoves(s, f, b, p, q);
    var s' := Put(Set(s, p, q), f, b);
    SameFibers(s', s'.(ready := ready));
    hide Get, LinkInv, Calm;
    CalmSelf();
    QuietLinks(s, s'.(ready := ready));
  }

  lemma CalmSelf()
    ensures forall b :: Calm(b, b)
  {
  }

  lemma SameFibers(s: State, s': State)
    requires s'.fibers == s.fibers
    ensures forall x :: Get(s', x) == Get(s, x)
  {
  }

  /** The same, with no primitive involved. */
  lemma AloneCalm(s: State, ready: seq<Fid>, f: Fid, b: Fiber)
    requires LinkInv(s) && Calm(Get(s, f), b)
    ensures LinkInv(Put(s.(ready := ready), f, b))
  {
    var s' := Put(s.(ready := ready), f, b);
    assert Get(s', f) == b && forall x :: x != f ==> Get(s', x) == Get(s, x);
    hide Get, LinkInv, Calm;
    CalmSelf();
    QuietLinks(s, s');
  }

  lemma ChainElsewhere(links: map<Fid, Link>, links': map<Fid, Link>, q: seq<Fid>)
    requires Chain(links, q) && forall x :: x in q && x in links ==> x in links' && links'[x] == links[x]
    ensures Chain(links', q)
  {
    forall i | 0 <= i < |q| ensures LinkedAt(links', q, i) { assert LinkedAt(links, q, i) && q[i] in q; }
  }

  /** Nobody's list or hand leads through f. */
  ghost predicate Unlinked(s: State, f: Fid) {
    && (forall p :: p in s.prims ==> f !in s.prims[p].waiters)
    && (forall u :: f !in Hand(Get(s, u).pc))
  }

  lemma IsUnlinked(s: State, f: Fid)
    requires Inv(s) && !Get(s, f).pc.Popped? && !Get(s, f).pc.LeaveParked? && !Get(s, f).pc.Parked?
    ensures Unlinked(s, f)
  {
    hide Get, Hand, FiberInv, NamesInv;
    forall p | p in s.prims ensures f !in s.prims[p].waiters {
      assert PrimInv(s, p);
      assert f in s.prims[p].waiters <==> OnList(Get(s, f), p);
    }
    forall u ensures f !in Hand(Get(s, u).pc) { assert f in Hand(Get(s, u).pc) <==> Get(s, f).pc == Popped(u); }
  }

  /** The waiter of f appears, or goes. */
  lemma OneLink(s: State, s': State, f: Fid)
    requires LinkInv(s) && Unlinked(s, f) && s'.prims == s.prims
    requires forall x :: x != f ==> Get(s', x) == Get(s, x)
    requires forall x :: x != f ==> (x in s'.links <==> x in s.links)
    requires forall x :: x != f && x in s.links ==> s'.links[x] == s.links[x]
    requires Hand(Get(s', f).pc) == [] && WaiterInv(Get(s', f), f, s'.links)
    ensures LinkInv(s')
  {
    hide Get, Hand, Chain, HasWaiter;
    forall p | p in s'.prims ensures ListInv(s', p) {
      assert ListInv(s, p);
      ChainElsewhere(s.links, s'.links, s.prims[p].waiters);
    }
    forall x ensures HandLinked(Get(s', x), s'.links) && WaiterInv(Get(s', x), x, s'.links) {
      if x == f {
        EmptyChain(s'.links);
      } else {
        assert HandLinked(Get(s, x), s.links) && WaiterInv(Get(s, x), x, s.links);
        if Chain(s.links, Hand(Get(s, x).pc)) { ChainElsewhere(s.links, s'.links, Hand(Get(s, x).pc)); }
      }
    }
  }

  lemma ActLinks(s: State, f: Fid, p: Pid)
    requires Inv(s) && LinkInv(s) && Busy(s, f, p) && Get(s, f).pc.Act?
    requires !(Get(s, f).call.op.Unlock? && s.prims[p].waiters != [])
    requires !(Get(s, f).call.op.Done? && s.prims[p].body == Group(1))
    ensures LinkInv(ActStep(s, f, p, Get(s, f).call.op))
  {
    var op, b, q := Get(s, f).call.op, Get(s, f), s.prims[p];
    FitsCall(s, f);
    OneList(s, p);
    FirstIsLinked(s, p);
    ActCalm(b);
    hide Inv, Get, LinkInv, Chain, Calm;
    if (op.Lock? && q.body.locked) || (op.Wait? && q.body.counter > 0) {
      NewWaiterLinks(s, f);
    } else if op.Wait? || (op.Done? && q.body.counter == 0) {
      AloneCalm(s, s.ready, f, b.(pc := if op.Wait? then Leave(Null, []) else Misused));
    } else {
      var body :=
        match op
        case Lock => Mutex(true, Somebody(f))
        case Unlock => Mutex(false, Nobody)
        case Add(n) => Group(q.body.counter + n)
        case Done => Group(q.body.counter - 1)
        case Wait => q.body;
      OneCalm(s, s.ready, f, b.(pc := Leave(Null, [])), p, q.(body := body));
    }
  }

  lemma ActCalm(b: Fiber)
    requires b.pc.Act?
    ensures Calm(b, b.(pc := Leave(Null, []))) && Calm(b, b.(pc := Misused))
  {
  }

  lemma NewWaiterLinks(s: State, f: Fid)
    requires Inv(s) && LinkInv(s) && Get(s, f).pc.Act? && Get(s, f).call.In?
    ensures LinkInv(NewWaiter(s, f))
  {
    var s' := NewWaiter(s, f);
    IsUnlinked(s, f);
    assert Get(s', f) == Get(s, f).(pc := Suspend) && forall x :: x != f ==> Get(s', x) == Get(s, x);
    hide Inv, Get, LinkInv, Unlinked;
    OneLink(s, s', f);
  }

  /** The list of p after a pop. */
  lemma ShorterChain(links: map<Fid, Link>, q: seq<Fid>)
    requires Chain(links, q) && q != []
    ensures Chain(links, Later(q)) && q[0] in links && Shorter(ListOver(q), links[q[0]]) == ListOver(Later(q))
  {
    LaterChain(links, q);
    FirstLink(links, q);
  }

  lemma PopLinks(s: State, s': State, f: Fid, p: Pid, hand: seq<Fid>, rest: seq<Fid>, q: Prim)
    requires LinkInv(s) && Pops(s, f, p, hand) && Took(s, s', f, p, hand, q) && s'.links == s.links
    requires q.waiters == rest && q.list == ListOver(rest) && Chain(s.links, rest)
    requires Get(s, f).call.op.Done? ==> Chain(s.links, hand)
    requires forall x :: x in hand ==> FiberInv(Get(s, x))
    ensures LinkInv(s')
  {
    hide Get, Chain;
    forall o | o in s'.prims ensures ListInv(s', o) {
      if o != p { assert ListInv(s, o); }
    }
    EmptyChain(s.links);
    forall x ensures HandLinked(Get(s', x), s'.links) && WaiterInv(Get(s', x), x, s'.links) {
      assert HandLinked(Get(s, x), s.links) && WaiterInv(Get(s, x), x, s.links);
      if x in hand { assert WaitsAt(Get(s, x), p); }
    }
  }

  lemma TakeOffKeepsLinks(s: State, f: Fid, p: Pid, body: Body, hand: seq<Fid>, rest: seq<Fid>)
    requires Inv(s) && LinkInv(s) && Busy(s, f, p) && Get(s, f).pc.Act? && s.prims[p].waiters == hand + rest
    requires MayHold(Get(s, f).call.op, hand) && Chain(s.links, rest)
    requires Get(s, f).call.op.Done? ==> Chain(s.links, hand)
    ensures LinkInv(TakeOff(s, f, p, First(hand), ListOver(rest), body, hand, rest))
  {
    hide Get, PrimInv, QueueInv, FiberInv, NamesInv, NoRepeats, Took, LinkInv, Chain;
    var s' := TakeOff(s, f, p, First(hand), ListOver(rest), body, hand, rest);
    var q := s.prims[p].(list := ListOver(rest), body := body, waiters := rest, pops := s.prims[p].pops + hand);
    HandOf(s, f, p, hand, rest);
    TakeOffTakes(s, f, p, ListOver(rest), body, hand, rest);
    PopLinks(s, s', f, p, hand, rest, q);
  }

  lemma UnlockLinks(s: State, f: Fid, p: Pid)
    requires Inv(s) && LinkInv(s) && Busy(s, f, p) && Get(s, f).pc.Act? && s.prims[p].body.Mutex?
    requires Get(s, f).call.op.Unlock? && s.prims[p].waiters != []
    ensures LinkInv(ActStep(s, f, p, Unlock))
  {
    hide Get, Inv, TakeOff, Chain, LinkInv;
    assert ListInv(s, p) by { OneList(s, p); }
    var q := s.prims[p];
    var x := q.waiters[0];
    FirstIsLinked(s, p);
    ShorterChain(s.links, q.waiters);
    assert q.waiters == [x] + Later(q.waiters);
    TakeOffKeepsLinks(s, f, p, Mutex(true, Somebody(x)), [x], Later(q.waiters));
  }

  lemma OneList(s: State, p: Pid)
    requires LinkInv(s) && p in s.prims
    ensures ListInv(s, p)
  {
  }

  lemma DoneLinks(s: State, f: Fid, p: Pid)
    requires Inv(s) && LinkInv(s) && Busy(s, f, p) && Get(s, f).pc.Act? && s.prims[p].body == Group(1)
    requires Get(s, f).call.op.Done?
    ensures LinkInv(ActStep(s, f, p, Done))
  {
    hide Get, Inv, TakeOff, Chain, LinkInv;
    assert ListInv(s, p) by { OneList(s, p); }
    FirstIsLinked(s, p);
    EmptyChain(s.links);
    assert s.prims[p].waiters == s.prims[p].waiters + [];
    TakeOffKeepsLinks(s, f, p, Group(0), s.prims[p].waiters, []);
  }

  /** The link that Push writes is the last of its own list, and nobody else's. */
  lemma LastIsOwn(s: State, f: Fid, p: Pid)
    requires Inv(s) && Busy(s, f, p) && Get(s, f).pc.Park? && s.prims[p].waiters != []
    ensures var w := s.prims[p].waiters; var last := w[|w| - 1];
      && last != f && last !in w[..|w| - 1] && !Unparked(Get(s, last).pc) && f !in w
      && (forall o :: o in s.prims && o != p ==> last !in s.prims[o].waiters)
      && (forall u :: last !in Hand(Get(s, u).pc))
  {
    hide Get, Hand, FiberInv, NamesInv;
    var w := s.prims[p].waiters;
    var last := w[|w| - 1];
    assert PrimInv(s, p);
    assert last in w && (last in w <==> OnList(Get(s, last), p));
    assert f in w <==> OnList(Get(s, f), p);
    forall o | o in s.prims && o != p ensures last !in s.prims[o].waiters {
      assert PrimInv(s, o);
      assert last in s.prims[o].waiters <==> OnList(Get(s, last), o);
    }
    forall u ensures last !in Hand(Get(s, u).pc) {
      assert last in Hand(Get(s, u).pc) <==> Get(s, last).pc == Popped(u);
    }
  }

  lemma LongerChain(links: map<Fid, Link>, w: seq<Fid>, f: Fid)
    requires Chain(links, w) && f in links && links[f] == Null && f !in w
    requires w != [] ==> w[|w| - 1] !in w[..|w| - 1]
    ensures Chain(if w == [] then links else links[w[|w| - 1] := To(f)], w + [f])
  {
    var links' := if w == [] then links else links[w[|w| - 1] := To(f)];
    forall i | 0 <= i < |w| + 1 ensures LinkedAt(links', w + [f], i) {
      if i < |w| { assert LinkedAt(links, w, i); }
      if i + 1 < |w| { assert w[i] in w[..|w| - 1]; }
    }
  }

  lemma ParkMoves(s: State, f: Fid, p: Pid)
    requires p in s.prims && ListInv(s, p) && Get(s, f).pc.Park?
    ensures var q, s' := s.prims[p], ParkStep(s, f, p);
      var w := q.waiters;
      && s'.links == (if w == [] then s.links else s.links[w[|w| - 1] := To(f)])
      && Moved(s, s', f, Get(s, f).(pc := LeaveParked), p,
               q.(list := ListOver(w + [f]), waiters := w + [f], parks := q.parks + [f]))
  {
    LastIsLinked(s, p);
    FirstIsLinked(s, p);
    hide Chain;
  }

  lemma ParkLinks(s: State, f: Fid, p: Pid)
    requires Inv(s) && LinkInv(s) && Busy(s, f, p) && Get(s, f).pc.Park?
    ensures LinkInv(ParkStep(s, f, p))
  {
    var s', w := ParkStep(s, f, p), s.prims[p].waiters;
    OneList(s, p);
    ParkMoves(s, f, p);
    LastIsLinked(s, p);
    if w != [] { LastIsOwn(s, f, p); } else { IsUnlinked(s, f); }
    OneWaiter(s, f);
    hide Inv, Get, Chain, HasWaiter, Hand, ParkStep, LinkInv;
    LongerChain(s.links, w, f);
    ParkLists(s, s', f, p);
    ParkWaiters(s, s', f, p);
    AllLinks(s');
  }

  lemma AllLinks(s: State)
    requires forall o :: o in s.prims ==> ListInv(s, o)
    requires forall x :: HandLinked(Get(s, x), s.links) && WaiterInv(Get(s, x), x, s.links)
    ensures LinkInv(s)
  {
  }

  lemma OneWaiter(s: State, f: Fid)
    requires LinkInv(s)
    ensures HandLinked(Get(s, f), s.links) && WaiterInv(Get(s, f), f, s.links)
  {
  }

  lemma ParkLists(s: State, s': State, f: Fid, p: Pid)
    requires LinkInv(s) && p in s.prims
    requires var w := s.prims[p].waiters;
      && s'.links == (if w == [] then s.links else s.links[w[|w| - 1] := To(f)])
      && s'.prims.Keys == s.prims.Keys
      && s'.prims[p].list == ListOver(w + [f]) && s'.prims[p].waiters == w + [f] && Chain(s'.links, w + [f])
      && (forall o :: o in s.prims && o != p ==> s'.prims[o] == s.prims[o])
      && (w != [] ==> forall o :: o in s.prims && o != p ==> w[|w| - 1] !in s.prims[o].waiters)
    ensures forall o :: o in s'.prims ==> ListInv(s', o)
  {
    hide Get, Chain, HasWaiter, Hand;
    forall o | o in s'.prims ensures ListInv(s', o) {
      assert ListInv(s, o);
      if o != p { ChainElsewhere(s.links, s'.links, s.prims[o].waiters); }
    }
  }

  lemma ParkWaiters(s: State, s': State, f: Fid, p: Pid)
    requires LinkInv(s) && p in s.prims && Get(s, f).pc.Park? && Get(s, f).call.In?
    requires var w := s.prims[p].waiters;
      && s'.links == (if w == [] then s.links else s.links[w[|w| - 1] := To(f)])
      && (w != [] ==>
            && w[|w| - 1] in s.links && !Unparked(Get(s, w[|w| - 1]).pc)
            && forall u :: w[|w| - 1] !in Hand(Get(s, u).pc))
    requires Get(s', f) == Get(s, f).(pc := LeaveParked) && forall x :: x != f ==> Get(s', x) == Get(s, x)
    ensures forall x :: HandLinked(Get(s', x), s'.links) && WaiterInv(Get(s', x), x, s'.links)
  {
    hide Get, Chain;
    EmptyChain(s'.links);
    forall x ensures HandLinked(Get(s', x), s'.links) && WaiterInv(Get(s', x), x, s'.links) {
      assert HandLinked(Get(s, x), s.links) && WaiterInv(Get(s, x), x, s.links);
      if Chain(s.links, Hand(Get(s, x).pc)) { ChainElsewhere(s.links, s'.links, Hand(Get(s, x).pc)); }
    }
  }

  lemma LaterChain(links: map<Fid, Link>, q: seq<Fid>)
    requires Chain(links, q)
    ensures Chain(links, Later(q))
  {
    var rest := Later(q);
    forall i | 0 <= i < |rest| ensures LinkedAt(links, rest, i) { assert LinkedAt(links, q, i + 1); }
  }

  lemma WakeMoves(s: State, f: Fid, cur: Fid, next: Link, hand: seq<Fid>)
    requires cur in s.links && Get(s, cur).handle && cur != f
    ensures var s' := WakeStep(s, f, cur, next, hand);
      && Get(s', cur) == Get(s, cur).(pc := Queued, handle := false)
      && Get(s', f) == AfterWake(Get(s, f), next, hand)
      && forall y :: y != cur && y != f ==> Get(s', y) == Get(s, y)
  {
  }

  lemma WakeLinks(s: State, f: Fid, cur: Fid, next: Link, hand: seq<Fid>)
    requires Inv(s) && LinkInv(s) && Get(s, f).pc == Wake(cur, next, hand)
    ensures LinkInv(WakeStep(s, f, cur, next, hand))
  {
    hide Get, Chain, WakeStep, LinkInv, HandLinked, WaiterInv, QueueInv, PrimInv, NamesInv;
    OneWaiter(s, cur);
    OneWaiter(s, f);
    WakeKeeps(s, f, cur, next, hand);
    FirstOfHand(s, f, hand);
    WakeFrame(s, f, cur, next, hand);
    WakeMoves(s, f, cur, next, hand);
    var s' := WakeStep(s, f, cur, next, hand);
    WokenLinks(Get(s, f), Get(s, cur), f, cur, s.links);
    forall p | p in s'.prims ensures ListInv(s', p) { OneList(s, p); }
    forall x ensures HandLinked(Get(s', x), s'.links) && WaiterInv(Get(s', x), x, s'.links) { OneWaiter(s, x); }
    AllLinks(s');
  }

  lemma WokenLinks(b: Fiber, x: Fiber, f: Fid, cur: Fid, links: map<Fid, Link>)
    requires b.pc.Wake? && FiberInv(b) && HandLinked(b, links) && WaiterInv(b, f, links)
    requires x.pc.Popped? && FiberInv(x) && HandLinked(x, links) && WaiterInv(x, cur, links)
    ensures var b' := AfterWake(b, b.pc.next, b.pc.hand); HandLinked(b', links) && WaiterInv(b', f, links)
    ensures var x' := x.(pc := Queued, handle := false); HandLinked(x', links) && WaiterInv(x', cur, links)
  {
    EmptyChain(links);
    if b.call.op.Done? { LaterChain(links, b.pc.hand); }
    hide Chain;
  }

  lemma PickUpLinks(s: State, i: nat)
    requires Inv(s) && LinkInv(s) && i < |s.ready|
    ensures LinkInv(PickUpStep(s, i))
  {
    var s', f := PickUpStep(s, i), s.ready[i];
    assert f in s.ready && Get(s, f).pc.Queued? && FiberInv(Get(s, f));
    IsUnlinked(s, f);
    assert Get(s', f) == Returned(Get(s, f)) && forall x :: x != f ==> Get(s', x) == Get(s, x);
    hide Inv, Get, Chain, LinkInv, Unlinked;
    OneLink(s, s', f);
  }

  /** The steps within a call that touch no link. */
  lemma CalmStep(s: State, f: Fid, p: Pid)
    requires LinkInv(s) && Busy(s, f, p) && FiberInv(Get(s, f))
    requires var pc := Get(s, f).pc; pc.Enter? || pc.Leave? || pc.Suspend? || pc.Store? || pc.LeaveParked?
    ensures LinkInv(StepOf(s, f))
  {
    var b, q := Get(s, f), s.prims[p];
    CalmAfter(b);
    hide Get, LinkInv, Calm, FiberInv, Returned, Released;
    match b.pc
    case Enter => OneCalm(s, s.ready, f, b.(pc := Act), p, q.(guard := HeldBy(f)));
    case Leave(first, hand) => OneCalm(s, s.ready, f, Released(b, first, hand), p, q.(guard := Free));
    case Suspend => AloneCalm(s, s.ready, f, b.(pc := Store, saved := true));
    case Store => AloneCalm(s, s.ready, f, b.(pc := Park, handle := true));
    case LeaveParked => OneCalm(s, s.ready, f, b.(pc := Parked), p, q.(guard := Free));
  }

  lemma CalmAfter(b: Fiber)
    requires FiberInv(b)
    ensures b.pc.Enter? ==> Calm(b, b.(pc := Act))
    ensures b.pc.Leave? ==> Calm(b, Released(b, b.pc.first, b.pc.hand))
    ensures b.pc.Suspend? ==> Calm(b, b.(pc := Store, saved := true))
    ensures b.pc.Store? ==> Calm(b, b.(pc := Park, handle := true))
    ensures b.pc.LeaveParked? ==> Calm(b, b.(pc := Parked))
    ensures b.pc.Yielding? ==> Calm(b, b.(pc := Queued))
  {
  }

  lemma LookLinks(s: State, f: Fid, cur: Fid, hand: seq<Fid>)
    requires LinkInv(s) && Get(s, f).pc == Look(cur, hand) && cur in s.links
    ensures LinkInv(LookStep(s, f, cur, hand))
  {
    hide Get, LinkInv;
    AloneCalm(s, s.ready, f, Get(s, f).(pc := Wake(cur, s.links[cur], hand)));
  }

  lemma ActAllLinks(s: State, f: Fid, p: Pid)
    requires Inv(s) && LinkInv(s) && Busy(s, f, p) && Get(s, f).pc.Act?
    ensures LinkInv(ActStep(s, f, p, Get(s, f).call.op))
  {
    hide Inv, Get, LinkInv, ActStep;
    if Get(s, f).call.op.Unlock? && s.prims[p].waiters != [] {
      FitsCall(s, f);
      UnlockLinks(s, f, p);
    } else if Get(s, f).call.op.Done? && s.prims[p].body == Group(1) {
      DoneLinks(s, f, p);
    } else {
      ActLinks(s, f, p);
    }
  }

  lemma StepLinks(s: State, f: Fid)
    requires Inv(s) && LinkInv(s)
    ensures LinkInv(StepOf(s, f))
  {
    hide QueueInv, PrimInv, NamesInv, FiberInv, LinkInv, ActStep, EnterStep, LeaveStep, LookStep, WakeStep, ParkStep,
         LeaveParkedStep, SuspendStep, StoreStep, HandLinked;
    var b := Get(s, f);
    assert FiberInv(b);
    OneWaiter(s, f);
    if b.call.In? && b.call.p in s.prims {
      var p := b.call.p;
      match b.pc
      case Act => ActAllLinks(s, f, p);
      case Park => ParkLinks(s, f, p);
      case Wake(cur, next, hand) => WakeLinks(s, f, cur, next, hand);
      case Look(cur, hand) =>
        LookKeeps(s, f, p, cur, hand);
        LookLinks(s, f, cur, hand);
      case Enter => CalmStep(s, f, p);
      case Leave(_, _) => CalmStep(s, f, p);
      case Suspend => CalmStep(s, f, p);
      case Store => CalmStep(s, f, p);
      case LeaveParked => CalmStep(s, f, p);
      case _ =>
    } else if b.pc.Yielding? {
      CalmAfter(b);
      AloneCalm(s, s.ready + [f], f, b.(pc := Queued));
    }
  }

  lemma OneFiber(s: State, f: Fid)
    requires Inv(s)
    ensures FiberInv(Get(s, f))
  {
  }

  lemma FitsCall(s: State, f: Fid)
    requires Inv(s) && Get(s, f).call.In?
    ensures Get(s, f).call.p in s.prims && Fits(Get(s, f).call.op, s.prims[Get(s, f).call.p].body)
  {
    assert NamesInv(Get(s, f), s.prims);
  }

  lemma ApplyLinks(s: State, e: Event)
    requires Inv(s) && LinkInv(s)
    ensures LinkInv(Apply(s, e))
  {
    match e
    case Step(f) => StepLinks(s, f);
    case PickUp(i) => if i < |s.ready| { PickUpLinks(s, i); }
    case NewMutex(p) => NewLinks(s, e);
    case NewGroup(p) => NewLinks(s, e);
    case Spawn(f) => OutsideLinks(s, e, f);
    case Begin(f, p, op) => OutsideLinks(s, e, f);
    case Yield(f) => OutsideLinks(s, e, f);
    case Finish(f) => OutsideLinks(s, e, f);
  }

  lemma NewLinks(s: State, e: Event)
    requires LinkInv(s) && (e.NewMutex? || e.NewGroup?)
    ensures LinkInv(Apply(s, e))
  {
    var s' := Apply(s, e);
    assert forall x :: Get(s', x) == Get(s, x);
    hide Get, LinkInv;
    QuietLinks(s, s');
  }

  /** The steps outside every call. */
  lemma OutsideLinks(s: State, e: Event, f: Fid)
    requires Inv(s) && LinkInv(s)
    requires match e
             case Spawn(g) => f == g
             case Begin(g, _, _) => f == g
             case Yield(g) => f == g
             case Finish(g) => f == g
             case _ => false
    ensures LinkInv(Apply(s, e))
  {
    var b := Get(s, f);
    assert FiberInv(b);
    hide Inv, FiberInv, LinkInv;
    match e
    case Spawn(_) => if f !in s.fibers { AloneCalm(s, s.ready + [f], f, Fiber(Queued, NoCall, true, false, {})); }
    case Begin(_, p, op) =>
      if MayCall(s, f, p, op) {
        AloneCalm(s, s.ready, f,
                  b.(pc := Enter, call := In(p, op), held := if op.Unlock? then b.held - {p} else b.held));
      }
    case Yield(_) => if b.pc.Running? { AloneCalm(s, s.ready, f, b.(pc := Yielding, saved := true)); }
    case Finish(_) => if b.pc.Running? { AloneCalm(s, s.ready, f, b.(pc := Completed)); }
  }

  // ----- every step keeps everything -----

  ghost predicate AllInv(s: State) { Inv(s) && LinkInv(s) }

  lemma StepKeeps(s: State, f: Fid)
    requires Inv(s) && LinkInv(s)
    ensures Inv(StepOf(s, f))
  {
    hide QueueInv, PrimInv, NamesInv, ActStep, EnterStep, LeaveStep, LookStep, WakeStep, ParkStep, LeaveParkedStep,
         YieldingStep, SuspendStep, StoreStep, Chain;
    var b := Get(s, f);
    assert FiberInv(b) && HandLinked(b, s.links);
    if b.call.In? && b.call.p in s.prims {
      var p := b.call.p;
      assert ListInv(s, p);
      match b.pc
      case Enter => EnterKeeps(s, f, p);
      case Act => ActKeeps(s, f, p);
      case Leave(first, hand) => LeaveKeeps(s, f, p, first, hand);
      case Look(cur, hand) => LookKeeps(s, f, p, cur, hand);
      case Wake(cur, next, hand) => WakeKeeps(s, f, cur, next, hand);
      case Suspend => SuspendKeeps(s, f, p);
      case Store => SuspendKeeps(s, f, p);
      case Park => ParkKeeps(s, f, p);
      case LeaveParked => LeaveParkedKeeps(s, f, p);
      case _ =>
    } else if b.pc.Yielding? {
      YieldingKeeps(s, f);
    }
  }

  lemma ApplyKeeps(s: State, e: Event)
    requires AllInv(s)
    ensures AllInv(Apply(s, e))
  {
    hide Inv, LinkInv, StepOf, PickUpStep, BeginStep;
    ApplyLinks(s, e);
    match e
    case Spawn(f) => if f !in s.fibers { SpawnKeeps(s, f); }
    case NewMutex(p) => if p !in s.prims { NewKeeps(s, p, Mutex(false, Nobody)); }
    case NewGroup(p) => if p !in s.prims { NewKeeps(s, p, Group(0)); }
    case Begin(f, p, op) => if MayCall(s, f, p, op) { BeginKeeps(s, f, p, op); }
    case Step(f) => StepKeeps(s, f);
    case Yield(f) => if Get(s, f).pc.Running? { EndKeeps(s, f); }
    case Finish(f) => if Get(s, f).pc.Running? { EndKeeps(s, f); }
    case PickUp(i) => if i < |s.ready| { PickUpKeeps(s, i); }
  }

  lemma {:induction false} RunKeeps(s: State, es: seq<Event>)
    requires AllInv(s)
    ensures AllInv(Run(s, es))
    decreases |es|
  {
    hide AllInv, Apply;
    if es != [] {
      ApplyKeeps(s, es[0]);
      RunKeeps(Apply(s, es[0]), es[1..]);
    }
  }

  lemma Reachable(es: seq<Event>)
    ensures AllInv(Run(Init(), es))
  {
    RunKeeps(Init(), es);
  }
}
