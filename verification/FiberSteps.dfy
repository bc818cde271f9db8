/** Every step of the fiber machine keeps the part of the invariant that does not
    look at links. */
module FiberSteps {
  import opened FiberMachine
  import opened Sequences

  /** f became b, the primitive p became q, and that is all. */
  ghost predicate Moved(s: State, s': State, f: Fid, b: Fiber, p: Pid, q: Prim) {
    && s'.ready == s.ready
    && s'.prims == s.prims[p := q]
    && Get(s', f) == b
    && (forall x :: x != f ==> Get(s', x) == Get(s, x))
  }

  lemma PutMoves(s: State, f: Fid, b: Fiber, p: Pid, q: Prim)
    ensures Moved(s, Put(Set(s, p, q), f, b), f, b, p, q)
  {
  }

  /** The core of the invariant does not look at links. */
  lemma LinksMove(s: State, s': State, f: Fid, b: Fiber, p: Pid, q: Prim, links: map<Fid, Link>)
    requires Moved(s, s', f, b, p, q)
    ensures Moved(s, s'.(links := links), f, b, p, q)
  {
    forall x ensures Get(s'.(links := links), x) == Get(s', x) {}
  }

  lemma PutAloneMoves(s: State, f: Fid, b: Fiber, p: Pid)
    requires p in s.prims
    ensures Moved(s, Put(s, f, b), f, b, p, s.prims[p])
  {
    assert s.prims == s.prims[p := s.prims[p]];
  }

  /** f is in a call on p, outside the executor and everybody's hands. */
  ghost predicate Busy(s: State, f: Fid, p: Pid) {
    && Get(s, f).call.In? && Get(s, f).call.p == p && p in s.prims
    && !Get(s, f).pc.Queued? && !Get(s, f).pc.Popped?
  }

  /** What b may be, if f becomes b within its call on p or on returning from it. */
  ghost predicate NextOf(was: Fiber, b: Fiber, p: Pid) {
    && FiberInv(b) && !b.pc.Queued? && !b.pc.Popped? && Hand(b.pc) == Hand(was.pc)
    && (b.call == was.call || b.call.NoCall?)
    && (b.held == was.held || (b.held == was.held + {p} && was.call == In(p, Lock)))
  }

  lemma MovedQueue(s: State, s': State, f: Fid, b: Fiber, p: Pid, q: Prim)
    requires QueueInv(s) && Busy(s, f, p) && Moved(s, s', f, b, p, q) && NextOf(Get(s, f), b, p)
    ensures QueueInv(s')
  {
    hide Get, FiberInv;
    forall x, u ensures x in Hand(Get(s', u).pc) <==> Get(s', x).pc == Popped(u) {
      assert x in Hand(Get(s, u).pc) <==> Get(s, x).pc == Popped(u);
    }
  }

  /** A primitive other than the one f is busy with. */
  lemma MovedOther(s: State, s': State, f: Fid, b: Fiber, p: Pid, q: Prim, o: Pid)
    requires Busy(s, f, p) && Moved(s, s', f, b, p, q) && NextOf(Get(s, f), b, p)
    requires o in s.prims && o != p && PrimInv(s, o)
    ensures PrimInv(s', o)
  {
    hide Get, NoRepeats, FiberInv;
  }

  lemma MovedNames(s: State, s': State, f: Fid, b: Fiber, p: Pid, q: Prim, x: Fid)
    requires Busy(s, f, p) && Moved(s, s', f, b, p, q) && NextOf(Get(s, f), b, p)
    requires q.body.Mutex? == s.prims[p].body.Mutex?
    requires NamesInv(Get(s, x), s.prims) && FiberInv(Get(s, x)) && NamesInv(Get(s, f), s.prims)
    ensures NamesInv(Get(s', x), s'.prims) && FiberInv(Get(s', x))
  {
    hide Get, FiberInv;
  }

  /** What is left to show of a step within a call: what it does to p. */
  lemma MovedKeeps(s: State, s': State, f: Fid, b: Fiber, p: Pid, q: Prim)
    requires Inv(s) && Busy(s, f, p) && Moved(s, s', f, b, p, q) && NextOf(Get(s, f), b, p)
    requires q.body.Mutex? == s.prims[p].body.Mutex? && PrimInv(s', p)
    ensures Inv(s')
  {
    hide FiberInv, NamesInv, QueueInv, PrimInv, NextOf, Get;
    MovedQueue(s, s', f, b, p, q);
    forall o | o in s'.prims ensures PrimInv(s', o) {
      if o != p { MovedOther(s, s', f, b, p, q, o); }
    }
    forall x ensures FiberInv(Get(s', x)) && NamesInv(Get(s', x), s'.prims) { MovedNames(s, s', f, b, p, q, x); }
  }

  /** The guard is taken. */
  lemma TakeGuard(s: State, s': State, f: Fid, b: Fiber, p: Pid)
    requires p in s.prims && Moved(s, s', f, b, p, s.prims[p].(guard := HeldBy(f))) && PrimInv(s, p)
    requires s.prims[p].guard == Free && Guards(b, p) && !OnList(b, p) && !Committed(b, p)
    requires !OnList(Get(s, f), p) && Owns(b, p) == Owns(Get(s, f), p)
    ensures PrimInv(s', p)
  {
    hide Get, NoRepeats, Guards, OnList, Committed, Owns;
  }

  /** The guard is released. */
  lemma FreeGuard(s: State, s': State, f: Fid, b: Fiber, p: Pid)
    requires p in s.prims && Moved(s, s', f, b, p, s.prims[p].(guard := Free)) && PrimInv(s, p)
    requires Guards(Get(s, f), p) && !Guards(b, p) && OnList(b, p) == OnList(Get(s, f), p) && !Committed(b, p)
    requires s.prims[p].body.Mutex? ==> Owns(b, p) == Owns(Get(s, f), p)
    ensures PrimInv(s', p)
  {
    hide Get, NoRepeats, Guards, OnList, Committed, Owns;
  }

  /** Only the body changes, under the guard, and only ownership may follow it. */
  lemma NewBody(s: State, s': State, f: Fid, b: Fiber, p: Pid, body: Body)
    requires p in s.prims && Moved(s, s', f, b, p, s.prims[p].(body := body)) && PrimInv(s, p)
    requires Guards(Get(s, f), p) && Guards(b, p) && !OnList(b, p) && !OnList(Get(s, f), p)
    requires Committed(b, p) || s.prims[p].waiters != [] ==> Blocking(body)
    requires body.Mutex? == s.prims[p].body.Mutex?
    requires body.Mutex? ==>
      && (body.locked <==> body.owner.Somebody?)
      && (if s.prims[p].body.owner == Nobody || s.prims[p].body.owner == Somebody(f)
          then (if Owns(b, p) then body.owner == Somebody(f) else body.owner == Nobody)
          else body == s.prims[p].body && !Owns(b, p))
    ensures PrimInv(s', p)
  {
    hide Get, NoRepeats, OnList, Owns;
  }

  /** f joins the list. */
  lemma Joins(s: State, s': State, f: Fid, b: Fiber, p: Pid, list: List)
    requires p in s.prims && PrimInv(s, p)
    requires var q := s.prims[p];
      Moved(s, s', f, b, p, q.(list := list, waiters := q.waiters + [f], parks := q.parks + [f]))
    requires Guards(Get(s, f), p) && Guards(b, p) && OnList(b, p) && !OnList(Get(s, f), p)
    requires Committed(Get(s, f), p) && !Committed(b, p)
    requires s.prims[p].body.Mutex? ==> Owns(b, p) == Owns(Get(s, f), p)
    ensures PrimInv(s', p)
  {
    hide Get, Guards, OnList, Owns, Committed;
  }

  lemma EnterKeeps(s: State, f: Fid, p: Pid)
    requires Inv(s) && Busy(s, f, p) && Get(s, f).pc.Enter?
    ensures Inv(EnterStep(s, f, p))
  {
    hide QueueInv, PrimInv, NamesInv;
    if s.prims[p].guard == Free {
      var b, q := Get(s, f).(pc := Act), s.prims[p].(guard := HeldBy(f));
      PutMoves(s, f, b, p, q);
      TakeGuard(s, EnterStep(s, f, p), f, b, p);
      MovedKeeps(s, EnterStep(s, f, p), f, b, p, q);
    }
  }

  /** A critical section that pops nobody. */
  lemma ChangeKeeps(s: State, f: Fid, p: Pid, b: Fiber, body: Body, links: map<Fid, Link>)
    requires Inv(s) && Busy(s, f, p) && Get(s, f).pc.Act? && NextOf(Get(s, f), b, p)
    requires b.call == Get(s, f).call && b.held == Get(s, f).held && (b.pc.Leave? || b.pc.Suspend? || b.pc.Misused?)
    requires body.Mutex? == s.prims[p].body.Mutex?
    requires b.pc.Suspend? || s.prims[p].waiters != [] ==> Blocking(body)
    requires body.Mutex? ==>
      && (body.locked <==> body.owner.Somebody?)
      && (if s.prims[p].body.owner == Nobody || s.prims[p].body.owner == Somebody(f)
          then (if Owns(b, p) then body.owner == Somebody(f) else body.owner == Nobody)
          else body == s.prims[p].body && !Owns(b, p))
    ensures Inv(Put(Set(s, p, s.prims[p].(body := body)), f, b).(links := links))
  {
    hide QueueInv, PrimInv, NamesInv, Get, FiberInv;
    var q := s.prims[p].(body := body);
    var s' := Put(Set(s, p, q), f, b).(links := links);
    PutMoves(s, f, b, p, q);
    LinksMove(s, Put(Set(s, p, q), f, b), f, b, p, q, links);
    NewBody(s, s', f, b, p, body);
    MovedKeeps(s, s', f, b, p, q);
  }

  /** What f's standing is when it is in the critical section of a mutex. */
  lemma InMutex(s: State, f: Fid, p: Pid)
    requires Inv(s) && Busy(s, f, p) && Get(s, f).pc.Act? && s.prims[p].body.Mutex?
    ensures FiberInv(Get(s, f)) && Fits(Get(s, f).call.op, s.prims[p].body)
    ensures s.prims[p].body.locked <==> s.prims[p].body.owner.Somebody?
    ensures s.prims[p].waiters != [] ==> s.prims[p].body.locked
    ensures Get(s, f).call.op.Unlock? ==> s.prims[p].body.owner == Somebody(f) && p !in Get(s, f).held
    ensures Get(s, f).call.op.Lock? ==> (p in Get(s, f).held <==> s.prims[p].body.owner == Somebody(f))
  {
    assert PrimInv(s, p);
    assert Owns(Get(s, f), p) <==> s.prims[p].body.owner == Somebody(f);
    assert NamesInv(Get(s, f), s.prims);
  }

  lemma AfterAct(b: Fiber, pc: Pc, p: Pid)
    requires FiberInv(b) && b.pc.Act?
    requires
      || pc == Leave(Null, [])
      || (pc.Suspend? && (b.call.op.Lock? || b.call.op.Wait?))
      || (pc.Misused? && b.call.op.Done?)
    ensures NextOf(b, b.(pc := pc), p)
  {
  }

  lemma SameBody(s: State, p: Pid)
    requires p in s.prims
    ensures Set(s, p, s.prims[p].(body := s.prims[p].body)) == s
  {
    assert s.prims[p := s.prims[p]] == s.prims;
  }

  lemma MutexActKeeps(s: State, f: Fid, p: Pid)
    requires Inv(s) && Busy(s, f, p) && Get(s, f).pc.Act? && s.prims[p].body.Mutex?
    requires Get(s, f).call.op.Unlock? ==> s.prims[p].waiters == [] && s.prims[p].list == EMPTY
    ensures Inv(ActStep(s, f, p, Get(s, f).call.op))
  {
    hide Inv, Get, FiberInv, NextOf;
    InMutex(s, f, p);
    SameBody(s, p);
    var b, q := Get(s, f), s.prims[p];
    AfterAct(b, Leave(Null, []), p);
    if b.call.op.Unlock? {
      ChangeKeeps(s, f, p, b.(pc := Leave(Null, [])), Mutex(false, Nobody), s.links);
    } else if q.body.locked {
      AfterAct(b, Suspend, p);
      ChangeKeeps(s, f, p, b.(pc := Suspend), q.body, s.links[f := Null]);
    } else {
      ChangeKeeps(s, f, p, b.(pc := Leave(Null, [])), Mutex(true, Somebody(f)), s.links);
    }
  }

  lemma InGroup(s: State, f: Fid, p: Pid)
    requires Inv(s) && Busy(s, f, p) && Get(s, f).pc.Act? && s.prims[p].body.Group?
    ensures FiberInv(Get(s, f)) && Fits(Get(s, f).call.op, s.prims[p].body)
    ensures s.prims[p].waiters != [] ==> s.prims[p].body.counter > 0
  {
    assert NamesInv(Get(s, f), s.prims) && PrimInv(s, p);
  }

  lemma GroupActKeeps(s: State, f: Fid, p: Pid)
    requires Inv(s) && Busy(s, f, p) && Get(s, f).pc.Act? && s.prims[p].body.Group?
    requires Get(s, f).call.op.Done? ==> s.prims[p].body.counter != 1
    ensures Inv(ActStep(s, f, p, Get(s, f).call.op))
  {
    hide Inv, Get, FiberInv, NextOf;
    InGroup(s, f, p);
    SameBody(s, p);
    var b, q := Get(s, f), s.prims[p];
    var c := q.body.counter;
    AfterAct(b, Leave(Null, []), p);
    match b.call.op
    case Add(n) => ChangeKeeps(s, f, p, b.(pc := Leave(Null, [])), Group(c + n), s.links);
    case Done =>
      if c == 0 {
        AfterAct(b, Misused, p);
        ChangeKeeps(s, f, p, b.(pc := Misused), q.body, s.links);
      } else {
        ChangeKeeps(s, f, p, b.(pc := Leave(Null, [])), Group(c - 1), s.links);
      }
    case Wait =>
      if c > 0 {
        AfterAct(b, Suspend, p);
        ChangeKeeps(s, f, p, b.(pc := Suspend), q.body, s.links[f := Null]);
      } else {
        ChangeKeeps(s, f, p, b.(pc := Leave(Null, [])), q.body, s.links);
      }
    case _ =>
  }

  lemma LeaveKeeps(s: State, f: Fid, p: Pid, first: Link, hand: seq<Fid>)
    requires Inv(s) && Busy(s, f, p) && Get(s, f).pc == Leave(first, hand)
    ensures Inv(LeaveStep(s, f, p, first, hand))
  {
    hide QueueInv, PrimInv, NamesInv;
    assert FiberInv(Get(s, f));
    var b, q := Released(Get(s, f), first, hand), s.prims[p].(guard := Free);
    PutMoves(s, f, b, p, q);
    FreeGuard(s, LeaveStep(s, f, p, first, hand), f, b, p);
    MovedKeeps(s, LeaveStep(s, f, p, first, hand), f, b, p, q);
  }

  lemma FirstLink(links: map<Fid, Link>, hand: seq<Fid>)
    requires Chain(links, hand) && hand != []
    ensures hand[0] in links && links[hand[0]] == First(Later(hand))
  {
    assert LinkedAt(links, hand, 0);
  }

  /** Reading a link changes nobody's standing. */
  lemma LookKeeps(s: State, f: Fid, p: Pid, cur: Fid, hand: seq<Fid>)
    requires Inv(s) && Busy(s, f, p) && Get(s, f).pc == Look(cur, hand) && HandLinked(Get(s, f), s.links)
    ensures Inv(LookStep(s, f, cur, hand)) && cur in s.links && s.links[cur] == First(Later(hand))
  {
    hide QueueInv, PrimInv, NamesInv;
    assert FiberInv(Get(s, f));
    FirstLink(s.links, hand);
    var b := Get(s, f).(pc := Wake(cur, s.links[cur], hand));
    PutAloneMoves(s, f, b, p);
    SameStanding(s, Put(s, f, b), f, b, p);
    MovedKeeps(s, Put(s, f, b), f, b, p, s.prims[p]);
  }

  lemma SuspendKeeps(s: State, f: Fid, p: Pid)
    requires Inv(s) && Busy(s, f, p) && (Get(s, f).pc.Suspend? || Get(s, f).pc.Store?)
    ensures Inv(if Get(s, f).pc.Suspend? then SuspendStep(s, f) else StoreStep(s, f))
  {
    hide QueueInv, PrimInv, NamesInv;
    assert FiberInv(Get(s, f));
    var b := if Get(s, f).pc.Suspend? then Get(s, f).(pc := Store, saved := true)
             else Get(s, f).(pc := Park, handle := true);
    PutAloneMoves(s, f, b, p);
    SameStanding(s, Put(s, f, b), f, b, p);
    MovedKeeps(s, Put(s, f, b), f, b, p, s.prims[p]);
  }

  lemma SameStanding(s: State, s': State, f: Fid, b: Fiber, p: Pid)
    requires p in s.prims && PrimInv(s, p) && Moved(s, s', f, b, p, s.prims[p])
    requires Guards(b, p) == Guards(Get(s, f), p) && OnList(b, p) == OnList(Get(s, f), p)
    requires Committed(b, p) == Committed(Get(s, f), p) && Owns(b, p) == Owns(Get(s, f), p)
    ensures PrimInv(s', p)
  {
    hide Get, NoRepeats, Guards, OnList, Owns, Committed;
  }

  lemma ParkKeeps(s: State, f: Fid, p: Pid)
    requires Inv(s) && Busy(s, f, p) && ListInv(s, p) && Get(s, f).pc.Park?
    ensures Inv(ParkStep(s, f, p))
  {
    hide QueueInv, PrimInv, NamesInv;
    assert FiberInv(Get(s, f));
    var s' := ParkStep(s, f, p);
    LastIsLinked(s, p);
    var b, list := Get(s, f).(pc := LeaveParked), s'.prims[p].list;
    var q := s.prims[p].(list := list, waiters := s.prims[p].waiters + [f], parks := s.prims[p].parks + [f]);
    PutMoves(s, f, b, p, q);
    LinksMove(s, Put(Set(s, p, q), f, b), f, b, p, q, s'.links);
    Joins(s, s', f, b, p, list);
    MovedKeeps(s, s', f, b, p, q);
  }

  lemma LastIsLinked(s: State, p: Pid)
    requires p in s.prims && ListInv(s, p)
    ensures var q := s.prims[p];
      if q.waiters == [] then q.list == EMPTY
      else q.list.head.To? && q.list.tail == To(q.waiters[|q.waiters| - 1]) && q.list.tail.f in s.links
  {
    var w := s.prims[p].waiters;
    if w != [] { assert LinkedAt(s.links, w, |w| - 1); }
  }

  lemma LeaveParkedKeeps(s: State, f: Fid, p: Pid)
    requires Inv(s) && Busy(s, f, p) && Get(s, f).pc.LeaveParked?
    ensures Inv(LeaveParkedStep(s, f, p))
  {
    hide QueueInv, PrimInv, NamesInv;
    assert FiberInv(Get(s, f));
    var b := Get(s, f).(pc := Parked);
    var q := s.prims[p].(guard := Free);
    PutMoves(s, f, b, p, q);
    FreeGuard(s, LeaveParkedStep(s, f, p), f, b, p);
    MovedKeeps(s, LeaveParkedStep(s, f, p), f, b, p, q);
  }

  // ----- the steps that move two fibers or a queue -----

  /** b and b' mean the same to p. */
  predicate AlikeAt(b: Fiber, b': Fiber, p: Pid) {
    && OnList(b', p) == OnList(b, p) && Guards(b', p) == Guards(b, p)
    && Committed(b', p) == Committed(b, p) && Owns(b', p) == Owns(b, p)
  }

  ghost predicate Alike(b: Fiber, b': Fiber) { forall p :: AlikeAt(b, b', p) }

  lemma PrimUnmoved(s: State, s': State, p: Pid)
    requires p in s.prims && PrimInv(s, p) && p in s'.prims && s'.prims[p] == s.prims[p]
    requires forall x :: AlikeAt(Get(s, x), Get(s', x), p)
    ensures PrimInv(s', p)
  {
    hide Get, NoRepeats, Guards, OnList, Owns, Committed, AlikeAt;
    forall x ensures OnList(Get(s', x), p) == OnList(Get(s, x), p) && Guards(Get(s', x), p) == Guards(Get(s, x), p)
    ensures Committed(Get(s', x), p) == Committed(Get(s, x), p) && Owns(Get(s', x), p) == Owns(Get(s, x), p) {
      AlikeMeans(Get(s, x), Get(s', x), p);
    }
  }

  lemma AlikeMeans(b: Fiber, b': Fiber, p: Pid)
    requires AlikeAt(b, b', p)
    ensures OnList(b', p) == OnList(b, p) && Guards(b', p) == Guards(b, p)
    ensures Committed(b', p) == Committed(b, p) && Owns(b', p) == Owns(b, p)
  {
  }

  lemma AlikeKeepsPrims(s: State, s': State)
    requires Inv(s) && s'.prims == s.prims
    requires forall x :: Alike(Get(s, x), Get(s', x))
    ensures forall p :: p in s'.prims ==> PrimInv(s', p)
  {
    hide Get, PrimInv, FiberInv, NamesInv, QueueInv, AlikeAt;
    forall p | p in s'.prims ensures PrimInv(s', p) {
      forall x ensures AlikeAt(Get(s, x), Get(s', x), p) { assert Alike(Get(s, x), Get(s', x)); }
      PrimUnmoved(s, s', p);
    }
  }

  /** One fiber changes, alike to every primitive, and the executor may too. */
  lemma AlikeKeeps(s: State, s': State, f: Fid, b: Fiber)
    requires Inv(s) && s'.prims == s.prims && QueueInv(s')
    requires Get(s', f) == b && forall x :: x != f ==> Get(s', x) == Get(s, x)
    requires Alike(Get(s, f), b) && FiberInv(b) && NamesInv(b, s.prims)
    ensures Inv(s')
  {
    hide Get, FiberInv, NamesInv, QueueInv, PrimInv;
    forall x ensures Alike(Get(s, x), Get(s', x)) {}
    AlikeKeepsPrims(s, s');
  }

  lemma IntoReady(s: State, s': State, f: Fid, b: Fiber)
    requires QueueInv(s) && s'.ready == s.ready + [f] && Get(s', f) == b && b.pc.Queued?
    requires forall x :: x != f ==> Get(s', x) == Get(s, x)
    requires !Get(s, f).pc.Queued? && !Get(s, f).pc.Popped? && Hand(Get(s, f).pc) == []
    ensures QueueInv(s')
  {
    hide Get;
    forall x, u ensures x in Hand(Get(s', u).pc) <==> Get(s', x).pc == Popped(u) {
      assert x in Hand(Get(s, u).pc) <==> Get(s, x).pc == Popped(u);
    }
  }

  lemma SpawnKeeps(s: State, f: Fid)
    requires Inv(s) && f !in s.fibers
    ensures Inv(Apply(s, Spawn(f)))
  {
    var s' := Apply(s, Spawn(f));
    var b := Fiber(Queued, NoCall, true, false, {});
    assert Get(s, f) == Fiber(Completed, NoCall, false, false, {});
    assert Get(s', f) == b && forall x :: x != f ==> Get(s', x) == Get(s, x);
    hide PrimInv;
    IntoReady(s, s', f, b);
    AlikeKeeps(s, s', f, b);
  }

  lemma YieldingKeeps(s: State, f: Fid)
    requires Inv(s) && Get(s, f).pc.Yielding?
    ensures Inv(YieldingStep(s, f))
  {
    var s' := YieldingStep(s, f);
    var b := Get(s, f).(pc := Queued);
    assert FiberInv(Get(s, f)) && NamesInv(Get(s, f), s.prims);
    assert Get(s', f) == b && forall x :: x != f ==> Get(s', x) == Get(s, x);
    hide PrimInv;
    IntoReady(s, s', f, b);
    AlikeKeeps(s, s', f, b);
  }

  // ----- taking waiters off a list -----

  /** f took `hand` off the list of p, which is now q. */
  ghost predicate Took(s: State, s': State, f: Fid, p: Pid, hand: seq<Fid>, q: Prim) {
    && s'.ready == s.ready
    && s'.prims == s.prims[p := q]
    && Get(s', f) == Get(s, f).(pc := Leave(First(hand), hand))
    && (forall x :: x in hand ==> Get(s', x) == Get(s, x).(pc := Popped(f)))
    && (forall x :: x != f && x !in hand ==> Get(s', x) == Get(s, x))
  }

  /** f is in a critical section that pops. */
  ghost predicate Pops(s: State, f: Fid, p: Pid, hand: seq<Fid>) {
    && Busy(s, f, p) && Get(s, f).pc.Act? && (Get(s, f).call.op.Unlock? || Get(s, f).call.op.Done?)
    && MayHold(Get(s, f).call.op, hand)
    && NoRepeats(hand) && f !in hand && (forall x :: x in hand ==> WaitsAt(Get(s, x), p))
  }

  predicate WaitsAt(b: Fiber, p: Pid) { b.pc.Parked? && b.call.In? && b.call.p == p }

  /** Nobody on the list still holds the guard while f does. */
  lemma ListIsParked(s: State, f: Fid, p: Pid, x: Fid)
    requires Busy(s, f, p) && PrimInv(s, p) && Get(s, f).pc.Act? && x in s.prims[p].waiters
    ensures WaitsAt(Get(s, x), p) && x != f && x in s.fibers
  {
    hide Get, NoRepeats;
    assert Guards(Get(s, f), p);
    assert OnList(Get(s, x), p);
    if Get(s, x).pc.LeaveParked? { assert Guards(Get(s, x), p); }
    if x !in s.fibers { NotSpawned(s, x); }
  }

  lemma NotSpawned(s: State, x: Fid)
    requires x !in s.fibers
    ensures Get(s, x).pc.Completed?
  {
  }

  lemma TakeOffTakes(s: State, f: Fid, p: Pid, list: List, body: Body, hand: seq<Fid>, rest: seq<Fid>)
    requires Busy(s, f, p) && f !in hand && forall x :: x in hand ==> x in s.fibers
    ensures var q := s.prims[p];
            Took(s, TakeOff(s, f, p, First(hand), list, body, hand, rest), f, p, hand,
                 q.(list := list, body := body, waiters := rest, pops := q.pops + hand))
  {
  }

  lemma TookQueue(s: State, s': State, f: Fid, p: Pid, hand: seq<Fid>, q: Prim)
    requires QueueInv(s) && Took(s, s', f, p, hand, q) && Pops(s, f, p, hand)
    ensures QueueInv(s')
  {
    hide Get;
    forall x ensures x in s'.ready <==> Get(s', x).pc.Queued? {
      if x in hand { assert WaitsAt(Get(s, x), p); }
    }
    forall x, u ensures x in Hand(Get(s', u).pc) <==> Get(s', x).pc == Popped(u) {
      assert x in Hand(Get(s, u).pc) <==> Get(s, x).pc == Popped(u);
      if x in hand { assert WaitsAt(Get(s, x), p); }
      if u in hand { assert WaitsAt(Get(s, u), p); }
    }
  }

  lemma TookAlike(s: State, s': State, f: Fid, p: Pid, hand: seq<Fid>, q: Prim, o: Pid, x: Fid)
    requires Pops(s, f, p, hand) && Took(s, s', f, p, hand, q) && o != p
    ensures AlikeAt(Get(s, x), Get(s', x), o)
  {
    hide Get, NoRepeats;
    if x in hand { assert WaitsAt(Get(s, x), p); }
  }

  lemma TookNames(s: State, s': State, f: Fid, p: Pid, hand: seq<Fid>, q: Prim, x: Fid)
    requires Pops(s, f, p, hand) && Took(s, s', f, p, hand, q) && q.body.Mutex? == s.prims[p].body.Mutex?
    requires NamesInv(Get(s, x), s.prims) && FiberInv(Get(s, x))
    ensures NamesInv(Get(s', x), s'.prims) && FiberInv(Get(s', x))
  {
    hide Get, NoRepeats;
    if x in hand { assert WaitsAt(Get(s, x), p); }
  }

  /** Splitting the list of p into the hand and the rest. */
  lemma SplitList(waiters: seq<Fid>, hand: seq<Fid>, rest: seq<Fid>)
    requires NoRepeats(waiters) && waiters == hand + rest
    ensures NoRepeats(hand) && NoRepeats(rest) && forall x :: x in waiters <==> x in hand || x in rest
    ensures forall x :: x in hand ==> x !in rest
  {
    forall i, j | 0 <= i < j < |hand| ensures hand[i] != hand[j] {
      assert waiters[i] == hand[i] && waiters[j] == hand[j];
    }
    forall i, j | 0 <= i < j < |rest| ensures rest[i] != rest[j] {
      assert waiters[|hand| + i] == rest[i] && waiters[|hand| + j] == rest[j];
    }
    forall i, j | 0 <= i < |hand| && 0 <= j < |rest| ensures hand[i] != rest[j] {
      assert waiters[i] == hand[i] && waiters[|hand| + j] == rest[j];
    }
  }

  /** One fiber's standing at p after the pop. */
  lemma TookStanding(s: State, s': State, f: Fid, p: Pid, hand: seq<Fid>, q: Prim, x: Fid)
    requires Pops(s, f, p, hand) && Took(s, s', f, p, hand, q) && PrimInv(s, p) && FiberInv(Get(s, f))
    ensures OnList(Get(s', x), p) <==> OnList(Get(s, x), p) && x !in hand
    ensures Guards(Get(s', x), p) <==> x == f
    ensures !Committed(Get(s', x), p)
  {
    hide Get, NoRepeats;
    assert Guards(Get(s, f), p);
    assert Guards(Get(s, x), p) <==> s.prims[p].guard == HeldBy(x);
    if x in hand { assert WaitsAt(Get(s, x), p); }
  }

  /** Whom the mutex belongs to after the pop. */
  lemma TookOwner(s: State, s': State, f: Fid, p: Pid, to: Fid, q: Prim, x: Fid)
    requires Pops(s, f, p, [to]) && Took(s, s', f, p, [to], q) && PrimInv(s, p)
    requires s.prims[p].body.Mutex? && Get(s, f).call.op.Unlock? && FiberInv(Get(s, f))
    requires FiberInv(Get(s, to)) && NamesInv(Get(s, to), s.prims)
    ensures Owns(Get(s', x), p) <==> x == to
  {
    hide Get, NoRepeats;
    assert to in [to] && WaitsAt(Get(s, to), p);
    assert Owns(Get(s, f), p);
    assert Owns(Get(s, x), p) <==> s.prims[p].body.owner == Somebody(x);
  }

  lemma TookPrim(s: State, s': State, f: Fid, p: Pid, list: List, body: Body, hand: seq<Fid>, rest: seq<Fid>)
    requires p in s.prims && PrimInv(s, p) && p in s'.prims
    requires var q := s.prims[p];
      s'.prims[p] == q.(list := list, body := body, waiters := rest, pops := q.pops + hand)
    requires s.prims[p].waiters == hand + rest && s.prims[p].guard == HeldBy(f)
    requires forall x :: OnList(Get(s', x), p) <==> OnList(Get(s, x), p) && x !in hand
    requires forall x :: Guards(Get(s', x), p) <==> x == f
    requires forall x :: !Committed(Get(s', x), p)
    requires rest != [] ==> Blocking(body)
    requires body.Mutex? ==>
          body.locked && body.owner.Somebody? && forall x :: Owns(Get(s', x), p) <==> x == body.owner.f
    ensures PrimInv(s', p)
  {
    hide Get, NoRepeats, OnList, Guards, Committed, Owns;
    SplitList(s.prims[p].waiters, hand, rest);
  }

  lemma TakeOffKeeps(s: State, f: Fid, p: Pid, list: List, body: Body, hand: seq<Fid>, rest: seq<Fid>)
    requires Inv(s) && Busy(s, f, p) && Get(s, f).pc.Act? && s.prims[p].waiters == hand + rest
    requires body.Mutex? == s.prims[p].body.Mutex? && (rest != [] ==> Blocking(body))
    requires if body.Mutex? then Get(s, f).call.op.Unlock? && |hand| == 1 && body == Mutex(true, Somebody(hand[0]))
                            else Get(s, f).call.op.Done?
    ensures Inv(TakeOff(s, f, p, First(hand), list, body, hand, rest))
  {
    hide Get, PrimInv, QueueInv, FiberInv, NamesInv, NoRepeats, TakeOff, Guards, Took;
    var s' := TakeOff(s, f, p, First(hand), list, body, hand, rest);
    var q := s.prims[p].(list := list, body := body, waiters := rest, pops := s.prims[p].pops + hand);
    HandOf(s, f, p, hand, rest);
    TakeOffTakes(s, f, p, list, body, hand, rest);
    TookQueue(s, s', f, p, hand, q);
    TookKeepsPrims(s, s', f, p, list, body, hand, rest);
    TookDomain(s, s', f, p, hand, q);
    forall x ensures FiberInv(Get(s', x)) && NamesInv(Get(s', x), s'.prims) { TookNames(s, s', f, p, hand, q, x); }
  }

  lemma TookDomain(s: State, s': State, f: Fid, p: Pid, hand: seq<Fid>, q: Prim)
    requires Took(s, s', f, p, hand, q)
    ensures s'.prims == s.prims[p := q]
  {
  }

  lemma HandOf(s: State, f: Fid, p: Pid, hand: seq<Fid>, rest: seq<Fid>)
    requires Busy(s, f, p) && PrimInv(s, p) && Get(s, f).pc.Act? && s.prims[p].waiters == hand + rest
    requires MayHold(Get(s, f).call.op, hand)
    ensures Pops(s, f, p, hand) && s.prims[p].guard == HeldBy(f)
    ensures forall x :: x in hand ==> x in s.fibers
  {
    hide Get, NoRepeats;
    assert Guards(Get(s, f), p);
    SplitList(s.prims[p].waiters, hand, rest);
    forall x | x in hand ensures WaitsAt(Get(s, x), p) && x != f && x in s.fibers { ListIsParked(s, f, p, x); }
  }

  lemma TookKeepsPrims(s: State, s': State, f: Fid, p: Pid, list: List, body: Body, hand: seq<Fid>, rest: seq<Fid>)
    requires Inv(s) && Pops(s, f, p, hand) && s.prims[p].waiters == hand + rest && s.prims[p].guard == HeldBy(f)
    requires var q := s.prims[p];
      Took(s, s', f, p, hand, q.(list := list, body := body, waiters := rest, pops := q.pops + hand))
    requires body.Mutex? == s.prims[p].body.Mutex? && (rest != [] ==> Blocking(body))
    requires body.Mutex? ==> Get(s, f).call.op.Unlock? && |hand| == 1 && body == Mutex(true, Somebody(hand[0]))
    ensures forall o :: o in s'.prims ==> PrimInv(s', o)
  {
    hide Get, PrimInv, QueueInv, FiberInv, NamesInv, NoRepeats, Guards, Took, AlikeAt, Owns, OnList, Committed;
    var q := s.prims[p].(list := list, body := body, waiters := rest, pops := s.prims[p].pops + hand);
    TookDomain(s, s', f, p, hand, q);
    forall o | o in s'.prims ensures PrimInv(s', o) {
      if o != p {
        forall x ensures AlikeAt(Get(s, x), Get(s', x), o) { TookAlike(s, s', f, p, hand, q, o, x); }
        PrimUnmoved(s, s', o);
      } else {
        forall x ensures OnList(Get(s', x), p) <==> OnList(Get(s, x), p) && x !in hand
        ensures (Guards(Get(s', x), p) <==> x == f) && !Committed(Get(s', x), p) {
          TookStanding(s, s', f, p, hand, q, x);
        }
        if body.Mutex? {
          assert hand == [hand[0]];
          forall x ensures Owns(Get(s', x), p) <==> x == hand[0] { TookOwner(s, s', f, p, hand[0], q, x); }
        }
        TookPrim(s, s', f, p, list, body, hand, rest);
      }
    }
  }

  // ----- the other steps -----

  /** f takes the first of its hand off it and puts it into the executor. */
  lemma WakeQueue(s: State, s': State, f: Fid, hand: seq<Fid>, bx: Fiber, bf: Fiber)
    requires QueueInv(s) && hand != [] && Hand(Get(s, f).pc) == hand && !Get(s, f).pc.Queued? && !Get(s, f).pc.Popped?
    requires s'.ready == s.ready + [hand[0]] && Get(s', hand[0]) == bx && bx.pc.Queued?
    requires Get(s', f) == bf && Hand(bf.pc) == hand[1..] && !bf.pc.Queued? && !bf.pc.Popped?
    requires forall y :: y != hand[0] && y != f ==> Get(s', y) == Get(s, y)
    ensures QueueInv(s')
  {
    hide Get;
    var x := hand[0];
    assert Hand(Get(s, f).pc) == hand && x in Hand(Get(s, f).pc);
    assert x in hand <==> Get(s, x).pc == Popped(f);
    assert hand == [x] + hand[1..];
    forall y, u ensures y in Hand(Get(s', u).pc) <==> Get(s', y).pc == Popped(u) {
      assert y in Hand(Get(s, u).pc) <==> Get(s, y).pc == Popped(u);
    }
    forall y ensures y in s'.ready <==> Get(s', y).pc.Queued? { assert y in s.ready <==> Get(s, y).pc.Queued?; }
  }

  /** Whoever is in a hand can be scheduled, and is not the one whose hand it is. */
  lemma FirstOfHand(s: State, f: Fid, hand: seq<Fid>)
    requires Inv(s) && hand != [] && Hand(Get(s, f).pc) == hand
    ensures Get(s, hand[0]).pc == Popped(f) && Get(s, hand[0]).handle && hand[0] != f
    ensures FiberInv(Get(s, f)) && FiberInv(Get(s, hand[0]))
  {
    hide Get, NamesInv, PrimInv;
    assert hand[0] in Hand(Get(s, f).pc);
    assert FiberInv(Get(s, hand[0])) && FiberInv(Get(s, f));
  }

  lemma WakeAlike(f: Fid, x: Fiber, b: Fiber, b': Fiber)
    requires FiberInv(x) && x.pc.Popped? && FiberInv(b) && b.pc.Wake? && b' == AfterWake(b, b.pc.next, b.pc.hand)
    ensures Alike(x, x.(pc := Queued, handle := false)) && FiberInv(x.(pc := Queued, handle := false))
    ensures Alike(b, b') && FiberInv(b') && b.pc.hand != [] && Hand(b'.pc) == b.pc.hand[1..] && b'.held == b.held
    ensures !b'.pc.Queued? && !b'.pc.Popped? && (b'.call == b.call || b'.call.NoCall?)
  {
  }

  lemma WakeKeeps(s: State, f: Fid, cur: Fid, next: Link, hand: seq<Fid>)
    requires Inv(s) && Get(s, f).pc == Wake(cur, next, hand) && WaiterInv(Get(s, cur), cur, s.links)
    ensures Inv(WakeStep(s, f, cur, next, hand)) && cur in s.links && Get(s, cur).handle
    ensures hand != [] && cur == hand[0] && Get(s, cur).pc == Popped(f)
  {
    assert FiberInv(Get(s, f));
    FirstOfHand(s, f, hand);
    var s' := WakeStep(s, f, cur, next, hand);
    var bx, bf := Get(s, cur).(pc := Queued, handle := false), AfterWake(Get(s, f), next, hand);
    assert Get(s', cur) == bx && Get(s', f) == bf && forall y :: y != cur && y != f ==> Get(s', y) == Get(s, y);
    hide Get, PrimInv, NoRepeats, FiberInv, WakeStep, AfterWake, Alike, AlikeAt;
    assert s'.ready == s.ready + [cur] && s'.prims == s.prims by { WakeFrame(s, f, cur, next, hand); }
    WakeAlike(f, Get(s, cur), Get(s, f), bf);
    WakeQueue(s, s', f, hand, bx, bf);
    TwoAlikeKeep(s, s', f, bf, cur, bx);
  }

  lemma WakeFrame(s: State, f: Fid, cur: Fid, next: Link, hand: seq<Fid>)
    requires cur in s.links && Get(s, cur).handle
    ensures var s' := WakeStep(s, f, cur, next, hand);
      s'.ready == s.ready + [cur] && s'.prims == s.prims && s'.links == s.links
  {
  }

  lemma AlikeSelf(b: Fiber)
    ensures Alike(b, b)
  {
  }

  lemma TwoAlikeKeep(s: State, s': State, f: Fid, bf: Fiber, x: Fid, bx: Fiber)
    requires Inv(s) && s'.prims == s.prims && QueueInv(s')
    requires Get(s', f) == bf && Get(s', x) == bx && forall y :: y != f && y != x ==> Get(s', y) == Get(s, y)
    requires Alike(Get(s, f), bf) && FiberInv(bf) && bf.held == Get(s, f).held
    requires bf.call == Get(s, f).call || bf.call.NoCall?
    requires Alike(Get(s, x), bx) && FiberInv(bx) && bx.call == Get(s, x).call && bx.held == Get(s, x).held
    ensures Inv(s')
  {
    hide Get, FiberInv, QueueInv, PrimInv, Alike;
    forall y ensures Alike(Get(s, y), Get(s', y)) { AlikeSelf(Get(s, y)); }
    AlikeKeepsPrims(s, s');
    forall y ensures FiberInv(Get(s', y)) && NamesInv(Get(s', y), s'.prims) {
      assert FiberInv(Get(s, y)) && NamesInv(Get(s, y), s.prims);
    }
  }

  /** Leaving the executor. */
  lemma OutOfReady(s: State, s': State, i: nat, b: Fiber)
    requires QueueInv(s) && i < |s.ready| && s'.ready == s.ready[..i] + s.ready[i + 1..]
    requires Get(s', s.ready[i]) == b && !b.pc.Queued? && !b.pc.Popped? && Hand(b.pc) == []
    requires forall x :: x != s.ready[i] ==> Get(s', x) == Get(s, x)
    ensures QueueInv(s')
  {
    hide Get;
    var f := s.ready[i];
    assert f in s.ready && Get(s, f).pc.Queued?;
    WithoutOne(s.ready, i);
    forall x, u ensures x in Hand(Get(s', u).pc) <==> Get(s', x).pc == Popped(u) {
      assert x in Hand(Get(s, u).pc) <==> Get(s, x).pc == Popped(u);
    }
  }

  lemma WithoutOne(q: seq<Fid>, i: nat)
    requires NoRepeats(q) && i < |q|
    ensures NoRepeats(q[..i] + q[i + 1..])
    ensures forall x :: x in q[..i] + q[i + 1..] <==> x in q && x != q[i]
  {
    var r := q[..i] + q[i + 1..];
    forall j, k | 0 <= j < k < |r| ensures r[j] != r[k] {
      assert r[j] == q[if j < i then j else j + 1] && r[k] == q[if k < i then k else k + 1];
    }
    forall x | x in q && x != q[i] ensures x in r {
      var j :| 0 <= j < |q| && q[j] == x;
      assert r[if j < i then j else j - 1] == x;
    }
  }

  lemma ReturnedAlike(b: Fiber, prims: map<Pid, Prim>)
    requires FiberInv(b) && b.pc.Queued? && NamesInv(b, prims)
    ensures Alike(b, Returned(b)) && FiberInv(Returned(b)) && NamesInv(Returned(b), prims)
  {
  }

  lemma PickUpKeeps(s: State, i: nat)
    requires Inv(s) && i < |s.ready|
    ensures Inv(PickUpStep(s, i))
  {
    var s', f := PickUpStep(s, i), s.ready[i];
    assert f in s.ready && Get(s, f).pc.Queued? && FiberInv(Get(s, f)) && NamesInv(Get(s, f), s.prims);
    var b := Returned(Get(s, f));
    assert Get(s', f) == b && forall x :: x != f ==> Get(s', x) == Get(s, x);
    hide Get, PrimInv, NoRepeats, FiberInv, NamesInv, Alike;
    ReturnedAlike(Get(s, f), s.prims);
    OutOfReady(s, s', i, b);
    AlikeKeeps(s, s', f, b);
  }

  /** Neither the executor nor a hand is involved. */
  lemma StaysOut(s: State, s': State, f: Fid, b: Fiber)
    requires QueueInv(s) && s'.ready == s.ready && Get(s', f) == b && forall x :: x != f ==> Get(s', x) == Get(s, x)
    requires Get(s, f).pc.Running? && !b.pc.Queued? && !b.pc.Popped? && Hand(b.pc) == []
    ensures QueueInv(s')
  {
    hide Get;
    forall x, u ensures x in Hand(Get(s', u).pc) <==> Get(s', x).pc == Popped(u) {
      assert x in Hand(Get(s, u).pc) <==> Get(s, x).pc == Popped(u);
    }
  }

  lemma RunningKeeps(s: State, f: Fid, b: Fiber)
    requires Inv(s) && Get(s, f).pc.Running? && !b.pc.Queued? && !b.pc.Popped? && Hand(b.pc) == []
    requires Alike(Get(s, f), b) && FiberInv(b) && NamesInv(b, s.prims)
    ensures Inv(Put(s, f, b))
  {
    var s' := Put(s, f, b);
    assert Get(s', f) == b && forall x :: x != f ==> Get(s', x) == Get(s, x);
    hide Get, PrimInv, NoRepeats, FiberInv, NamesInv, Alike;
    StaysOut(s, s', f, b);
    AlikeKeeps(s, s', f, b);
  }

  lemma BeginKeeps(s: State, f: Fid, p: Pid, op: Op)
    requires Inv(s) && MayCall(s, f, p, op)
    ensures Inv(BeginStep(s, f, p, op))
  {
    hide QueueInv, PrimInv;
    var b := Get(s, f);
    assert FiberInv(b) && NamesInv(b, s.prims);
    RunningKeeps(s, f, b.(pc := Enter, call := In(p, op), held := if op.Unlock? then b.held - {p} else b.held));
  }

  lemma EndKeeps(s: State, f: Fid)
    requires Inv(s) && Get(s, f).pc.Running?
    ensures Inv(Apply(s, Yield(f))) && Inv(Apply(s, Finish(f)))
  {
    hide QueueInv, PrimInv;
    var b := Get(s, f);
    assert FiberInv(b) && NamesInv(b, s.prims);
    RunningKeeps(s, f, b.(pc := Yielding, saved := true));
    RunningKeeps(s, f, b.(pc := Completed));
  }

  lemma NewKeeps(s: State, p: Pid, body: Body)
    requires Inv(s) && p !in s.prims && body in {Mutex(false, Nobody), Group(0)}
    ensures Inv(Set(s, p, Prim(Free, EMPTY, body, [], [], [])))
  {
    var s' := Set(s, p, Prim(Free, EMPTY, body, [], [], []));
    assert forall x :: Get(s', x) == Get(s, x);
    hide Get, FiberInv, PrimInv, QueueInv, AlikeAt;
    NewQueue(s, s');
    forall o | o in s'.prims ensures PrimInv(s', o) {
      if o == p {
        NobodyNames(s, p);
        EmptyPrim(s', p, body);
      } else {
        forall x ensures AlikeAt(Get(s, x), Get(s', x), o) { AlikeSelf(Get(s, x)); assert Alike(Get(s, x), Get(s, x)); }
        PrimUnmoved(s, s', o);
      }
    }
  }

  lemma NewQueue(s: State, s': State)
    requires QueueInv(s) && s'.ready == s.ready && forall x :: Get(s', x) == Get(s, x)
    ensures QueueInv(s')
  {
    hide Get;
    forall x, u ensures x in Hand(Get(s', u).pc) <==> Get(s', x).pc == Popped(u) {
      assert x in Hand(Get(s, u).pc) <==> Get(s, x).pc == Popped(u);
    }
  }

  lemma EmptyPrim(s: State, p: Pid, body: Body)
    requires p in s.prims && body in {Mutex(false, Nobody), Group(0)}
    requires s.prims[p] == Prim(Free, EMPTY, body, [], [], [])
    requires forall x ::
          !OnList(Get(s, x), p) && !Guards(Get(s, x), p) && !Committed(Get(s, x), p) && !Owns(Get(s, x), p)
    ensures PrimInv(s, p)
  {
    hide Get, OnList, Guards, Committed, Owns;
  }

  lemma NobodyNames(s: State, p: Pid)
    requires Inv(s) && p !in s.prims
    ensures forall x ::
          !OnList(Get(s, x), p) && !Guards(Get(s, x), p) && !Committed(Get(s, x), p) && !Owns(Get(s, x), p)
  {
    hide Get, QueueInv, PrimInv, FiberInv;
    forall x ensures !OnList(Get(s, x), p) && !Guards(Get(s, x), p) && !Committed(Get(s, x), p) && !Owns(Get(s, x), p) {
      assert NamesInv(Get(s, x), s.prims);
    }
  }

  lemma UnlockPops(s: State, f: Fid, p: Pid)
    requires Inv(s) && Busy(s, f, p) && ListInv(s, p) && Get(s, f).pc.Act? && s.prims[p].body.Mutex?
    requires Get(s, f).call.op.Unlock? && s.prims[p].waiters != []
    ensures Inv(ActStep(s, f, p, Unlock))
  {
    hide Inv, Get, TakeOff;
    var q := s.prims[p];
    InMutex(s, f, p);
    var x := q.waiters[0];
    assert q.waiters == [x] + Later(q.waiters);
    FirstIsLinked(s, p);
    TakeOffKeeps(s, f, p, Shorter(q.list, s.links[x]), Mutex(true, Somebody(x)), [x], Later(q.waiters));
  }

  lemma ActKeeps(s: State, f: Fid, p: Pid)
    requires Inv(s) && Busy(s, f, p) && Get(s, f).pc.Act? && ListInv(s, p)
    ensures Inv(ActStep(s, f, p, Get(s, f).call.op))
  {
    hide Inv, Get, Chain, TakeOff;
    var q, op := s.prims[p], Get(s, f).call.op;
    if q.body.Mutex? {
      if op.Unlock? && q.waiters != [] { UnlockPops(s, f, p); } else { MutexActKeeps(s, f, p); }
    } else {
      InGroup(s, f, p);
      if op.Done? && q.body.counter == 1 {
        LastIsLinked(s, p);
        FirstIsLinked(s, p);
        assert q.waiters == q.waiters + [];
        TakeOffKeeps(s, f, p, EMPTY, Group(0), q.waiters, []);
      } else {
        GroupActKeeps(s, f, p);
      }
    }
  }

  lemma FirstIsLinked(s: State, p: Pid)
    requires p in s.prims && ListInv(s, p)
    ensures var q := s.prims[p]; q.list.size == |q.waiters| && q.list.head == First(q.waiters)
    ensures var q := s.prims[p]; q.waiters != [] ==> HasFirst(s, q.list)
  {
    if s.prims[p].waiters != [] { FirstLink(s.links, s.prims[p].waiters); }
  }
}
