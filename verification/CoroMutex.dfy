/** The coroutine AsyncMutex: awaiting it takes its spinlock and keeps it across
    await_ready and await_suspend, in a guard that is moved from the awaiter into
    the waiter list before it is released. Any number of coroutines. */
module CoroMutex {

  type Cid = nat

  datatype Pc =
    | Outside                 // its own code
    | AwaitSpin               // operator co_await, about to take the spinlock
    | AwaitReady              // await_ready, about to try the flag
    | LeaveReady              // the flag was free and is set: about to release
    | AwaitSuspend            // suspended, about to move the awaiter into the list
    | Parking                 // in the list, about to release the list's guard
    | Parked
    | UnlockSpin              // Unlock, about to take the spinlock
    | InUnlock
    | ClearSpin               // the flag is cleared: about to release
    | GiveSpin(x: Cid)        // x was popped: about to release
    | Resume(x: Cid)          // about to resume x
    | Popped(popper: Cid)
    | Ended
    | Fault                   // resumed while not suspended, or back() is another's

  /** `guard` says that the unique_lock of this coroutine's awaiter, or of its
      Unlock, owns the spinlock. History: whether it has locked and not begun to
      unlock, and how often its calls took and released the spinlock. */
  datatype Co = Co(pc: Pc, guard: bool, holds: bool, took: nat, gave: nat)

  datatype Owner = Nobody | Somebody(c: Cid)

  /** A MutexAwaiter in the list, with its own guard. */
  datatype Waiter = Waiter(c: Cid, guard: bool)

  /** `token`, `owner`, `parks` and `pops` are history: who has the spinlock, who
      has the mutex or was handed it, and who ever parked and was ever popped. */
  datatype State = State(
    spin: bool, flag: bool, waiters: seq<Waiter>, cos: map<Cid, Co>,
    token: Owner, owner: Owner, parks: seq<Cid>, pops: seq<Cid>)

  datatype Event = Start(c: Cid) | BeginLock(c: Cid) | BeginUnlock(c: Cid) | End(c: Cid) | Step(c: Cid)

  function Init(): State { State(false, false, [], map[], Nobody, Nobody, [], []) }

  function Get(s: State, c: Cid): Co { if c in s.cos then s.cos[c] else Co(Ended, false, false, 0, 0) }

  function Put(s: State, c: Cid, b: Co): State { s.(cos := s.cos[c := b]) }

  // ----- the steps -----

  /** Spins until the spinlock is free. */
  function TakeStep(s: State, c: Cid, pc: Pc): State {
    if s.spin then s
    else Put(s.(spin := true, token := Somebody(c)), c, Get(s, c).(pc := pc, guard := true, took := Get(s, c).took + 1))
  }

  /** unlock() through a guard, if the guard owns the spinlock. */
  function GiveStep(s: State, c: Cid, pc: Pc): State {
    var b := Get(s, c);
    if b.guard then Put(s.(spin := false, token := Nobody), c, b.(pc := pc, guard := false, gave := b.gave + 1))
    else Put(s, c, b.(pc := pc))
  }

  function ReadyStep(s: State, c: Cid): State {
    if s.flag then Put(s, c, Get(s, c).(pc := AwaitSuspend))
    else Put(s.(flag := true, owner := Somebody(c)), c, Get(s, c).(pc := LeaveReady))
  }

  /** await_suspend: emplace_back moves the awaiter and its guard. */
  function SuspendStep(s: State, c: Cid): State {
    var b := Get(s, c);
    Put(s.(waiters := s.waiters + [Waiter(c, b.guard)], parks := s.parks + [c]), c, b.(pc := Parking, guard := false))
  }

  /** waiters.back().ReleaseLock() */
  function ParkingStep(s: State, c: Cid): State {
    var b, n := Get(s, c), |s.waiters|;
    if n == 0 || s.waiters[n - 1].c != c then Put(s, c, b.(pc := Fault))
    else if s.waiters[n - 1].guard then
      Put(s.(spin := false, token := Nobody, waiters := s.waiters[n - 1 := Waiter(c, false)]), c,
          b.(pc := Parked, gave := b.gave + 1))
    else Put(s, c, b.(pc := Parked))
  }

  function UnlockStep(s: State, c: Cid): State {
    var b := Get(s, c);
    if s.waiters == [] then Put(s.(flag := false, owner := Nobody), c, b.(pc := ClearSpin))
    else
      var x := s.waiters[0].c;
      var popped := s.(waiters := s.waiters[1..], owner := Somebody(x), pops := s.pops + [x]);
      Put(Put(popped, x, Get(s, x).(pc := Popped(c))), c, b.(pc := GiveSpin(x)))
  }

  function ResumeStep(s: State, c: Cid, x: Cid): State {
    if Get(s, x).pc.Popped? then
      Put(Put(s, x, Get(s, x).(pc := Outside, holds := true)), c, Get(s, c).(pc := Outside))
    else Put(s, c, Get(s, c).(pc := Fault))
  }

  function StepOf(s: State, c: Cid): State {
    match Get(s, c).pc
    case AwaitSpin => TakeStep(s, c, AwaitReady)
    case AwaitReady => ReadyStep(s, c)
    case LeaveReady => var s' := GiveStep(s, c, Outside); Put(s', c, Get(s', c).(holds := true))
    case AwaitSuspend => SuspendStep(s, c)
    case Parking => ParkingStep(s, c)
    case UnlockSpin => TakeStep(s, c, InUnlock)
    case InUnlock => UnlockStep(s, c)
    case ClearSpin => GiveStep(s, c, Outside)
    case GiveSpin(x) => GiveStep(s, c, Resume(x))
    case Resume(x) => ResumeStep(s, c, x)
    case _ => s
  }

  /** Only a coroutine that holds the mutex unlocks it; one that locks it again
      waits for itself. */
  function Apply(s: State, e: Event): State {
    var b := Get(s, e.c);
    match e
    case Start(c) => if c in s.cos then s else Put(s, c, b.(pc := Outside))
    case BeginLock(c) => if b.pc.Outside? then Put(s, c, b.(pc := AwaitSpin)) else s
    case BeginUnlock(c) => if b.pc.Outside? && b.holds then Put(s, c, b.(pc := UnlockSpin, holds := false)) else s
    case End(c) => if b.pc.Outside? then Put(s, c, b.(pc := Ended)) else s
    case Step(c) => StepOf(s, c)
  }

  function Run(s: State, es: seq<Event>): State
    decreases |es|
  {
    if es == [] then s else Run(Apply(s, es[0]), es[1..])
  }

  // ----- what every reachable state satisfies -----

  predicate HasToken(pc: Pc) {
    pc.AwaitReady? || pc.LeaveReady? || pc.AwaitSuspend? || pc.Parking? || pc.InUnlock? || pc.ClearSpin? || pc.GiveSpin?
  }

  predicate Owns(b: Co) { b.holds || b.pc.LeaveReady? || b.pc.Popped? || b.pc.UnlockSpin? || b.pc.InUnlock? }

  predicate Listed(pc: Pc) { pc.Parking? || pc.Parked? }

  /** The guards of one coroutine say where it is in its call, and its calls have
      released what they took except for the one that is under way. */
  predicate CoInv(b: Co) {
    && !b.pc.Fault?
    && (b.guard <==> HasToken(b.pc) && !b.pc.Parking?)
    && b.took == b.gave + (if HasToken(b.pc) then 1 else 0)
    && (b.holds ==>
          b.pc.Outside? || b.pc.Ended? || b.pc.AwaitSpin? || b.pc.AwaitReady? || b.pc.AwaitSuspend? || Listed(b.pc))
  }

  function Names(ws: seq<Waiter>): (r: seq<Cid>)
    ensures |r| == |ws| && forall i :: 0 <= i < |r| ==> r[i] == ws[i].c
  {
    if ws == [] then [] else [ws[0].c] + Names(ws[1..])
  }

  ghost predicate DistinctNames(ws: seq<Waiter>) { forall i, j :: 0 <= i < j < |ws| ==> ws[i].c != ws[j].c }

  ghost predicate InList(s: State, c: Cid) { exists i :: 0 <= i < |s.waiters| && s.waiters[i].c == c }

  ghost predicate SpinInv(s: State) {
    && (s.spin <==> s.token.Somebody?)
    && (forall c :: HasToken(Get(s, c).pc) <==> s.token == Somebody(c))
  }

  /** Only the last waiter can still have the spinlock. */
  predicate GuardInv(s: State, i: nat)
    requires i < |s.waiters|
  {
    && (s.waiters[i].guard <==> Get(s, s.waiters[i].c).pc.Parking?)
    && (s.waiters[i].guard ==> i == |s.waiters| - 1)
  }

  ghost predicate GuardsInv(s: State) {
    forall i {:trigger s.waiters[i]} {:trigger GuardInv(s, i)} :: 0 <= i < |s.waiters| ==> GuardInv(s, i)
  }

  ghost predicate MembersInv(s: State) { forall c :: InList(s, c) <==> Listed(Get(s, c).pc) }

  ghost predicate ListInv(s: State) {
    && DistinctNames(s.waiters) && MembersInv(s) && GuardsInv(s)
    && s.parks == s.pops + Names(s.waiters)
  }

  ghost predicate OwnerInv(s: State) {
    && (s.flag <==> s.owner.Somebody?)
    && (forall c :: Owns(Get(s, c)) <==> s.owner == Somebody(c))
    && (s.waiters != [] ==> s.flag)
    && (forall c :: Get(s, c).pc.AwaitSuspend? ==> s.flag)
  }

  predicate Carries(pc: Pc, x: Cid) { pc == GiveSpin(x) || pc == Resume(x) }

  ghost predicate HandInv(s: State) {
    forall c, x :: Carries(Get(s, c).pc, x) <==> Get(s, x).pc == Popped(c)
  }

  ghost predicate Inv(s: State) {
    && SpinInv(s) && ListInv(s) && OwnerInv(s) && HandInv(s)
    && forall c :: CoInv(Get(s, c))
  }

  // ----- every step keeps it -----

  /** c became b, and nobody else changed. */
  ghost predicate Became(s: State, s': State, c: Cid, b: Co) {
    Get(s', c) == b && forall x :: x != c ==> Get(s', x) == Get(s, x)
  }

  lemma ListStays(s: State, s': State, c: Cid, b: Co)
    requires ListInv(s) && Became(s, s', c, b) && s'.waiters == s.waiters && s'.parks == s.parks && s'.pops == s.pops
    requires b.pc.Parking? == Get(s, c).pc.Parking? && b.pc.Parked? == Get(s, c).pc.Parked?
    ensures ListInv(s')
  {
    hide Get, DistinctNames;
    forall x ensures InList(s', x) <==> Listed(Get(s', x).pc) {
      assert InList(s, x) <==> Listed(Get(s, x).pc);
      assert InList(s', x) == InList(s, x);
    }
  }

  lemma OwnerStays(s: State, s': State, c: Cid, b: Co)
    requires OwnerInv(s) && Became(s, s', c, b) && s'.flag == s.flag && s'.owner == s.owner && s'.waiters == s.waiters
    requires Owns(b) == Owns(Get(s, c)) && (b.pc.AwaitSuspend? ==> s.flag)
    ensures OwnerInv(s')
  {
    hide Get, Owns;
  }

  lemma HandStays(s: State, s': State, c: Cid, b: Co)
    requires HandInv(s) && Became(s, s', c, b) && !b.pc.Popped? && !Get(s, c).pc.Popped?
    requires forall x :: Carries(b.pc, x) == Carries(Get(s, c).pc, x)
    ensures HandInv(s')
  {
    hide Get, Carries;
    forall d, x ensures Carries(Get(s', d).pc, x) <==> Get(s', x).pc == Popped(d) {
      assert Carries(Get(s, d).pc, x) <==> Get(s, x).pc == Popped(d);
    }
  }

  lemma SpinStays(s: State, s': State, c: Cid, b: Co)
    requires SpinInv(s) && Became(s, s', c, b) && s'.spin == s.spin && s'.token == s.token
    requires HasToken(b.pc) == HasToken(Get(s, c).pc)
    ensures SpinInv(s')
  {
    hide Get, HasToken;
  }

  lemma PutBecomes(s: State, s': State, c: Cid, b: Co)
    requires s'.cos == s.cos[c := b]
    ensures Became(s, s', c, b)
  {
  }

  /** A step in which neither the spinlock nor the list is involved. */
  lemma QuietKeeps(s: State, c: Cid, b: Co)
    requires Inv(s) && CoInv(b) && HasToken(b.pc) == HasToken(Get(s, c).pc) && Owns(b) == Owns(Get(s, c))
    requires b.pc.Parking? == Get(s, c).pc.Parking? && b.pc.Parked? == Get(s, c).pc.Parked?
    requires !b.pc.Popped? && !Get(s, c).pc.Popped? && (b.pc.AwaitSuspend? ==> s.flag)
    requires forall x :: Carries(b.pc, x) == Carries(Get(s, c).pc, x)
    ensures Inv(Put(s, c, b))
  {
    var s' := Put(s, c, b);
    PutBecomes(s, s', c, b);
    hide Get, SpinInv, ListInv, OwnerInv, HandInv, CoInv, HasToken, Owns, Carries;
    SpinStays(s, s', c, b);
    ListStays(s, s', c, b);
    OwnerStays(s, s', c, b);
    HandStays(s, s', c, b);
  }

  lemma TakeKeeps(s: State, c: Cid)
    requires Inv(s) && (Get(s, c).pc.AwaitSpin? || Get(s, c).pc.UnlockSpin?)
    ensures Inv(StepOf(s, c))
  {
    var s' := StepOf(s, c);
    if !s.spin {
      var pc := if Get(s, c).pc.AwaitSpin? then AwaitReady else InUnlock;
      var b := Get(s, c).(pc := pc, guard := true, took := Get(s, c).took + 1);
      PutBecomes(s, s', c, b);
      assert CoInv(Get(s, c));
      hide Get, ListInv, OwnerInv, HandInv;
      ListStays(s, s', c, b);
      OwnerStays(s, s', c, b);
      HandStays(s, s', c, b);
    }
  }

  lemma GiveKeeps(s: State, c: Cid)
    requires Inv(s) && (Get(s, c).pc.LeaveReady? || Get(s, c).pc.ClearSpin? || Get(s, c).pc.GiveSpin?)
    ensures Inv(StepOf(s, c)) && !StepOf(s, c).spin
  {
    var s' := StepOf(s, c);
    assert CoInv(Get(s, c));
    var pc := Get(s, c).pc;
    var pc' := if pc.GiveSpin? then Resume(pc.x) else Outside;
    var b := Get(s, c).(pc := pc', guard := false, gave := Get(s, c).gave + 1,
                        holds := pc.LeaveReady? || Get(s, c).holds);
    assert Get(s', c) == b && forall x :: x != c ==> Get(s', x) == Get(s, x);
    GiveMoves(s, c);
    hide Get, ListInv, OwnerInv, HandInv, SpinInv, StepOf, CoInv, HasToken;
    GiveCo(Get(s, c), b);
    GiveSpins(s, s', c, b);
    ListStays(s, s', c, b);
    OwnerStays(s, s', c, b);
    HandStays(s, s', c, b);
  }

  lemma GiveMoves(s: State, c: Cid)
    requires (Get(s, c).pc.LeaveReady? || Get(s, c).pc.ClearSpin? || Get(s, c).pc.GiveSpin?) && Get(s, c).guard
    ensures StepOf(s, c) == s.(cos := StepOf(s, c).cos, spin := false, token := Nobody)
  {
  }

  lemma GiveCo(b: Co, b': Co)
    requires CoInv(b) && (b.pc.LeaveReady? || b.pc.ClearSpin? || b.pc.GiveSpin?)
    requires b' == b.(pc := if b.pc.GiveSpin? then Resume(b.pc.x) else Outside, guard := false, gave := b.gave + 1,
                      holds := b.pc.LeaveReady? || b.holds)
    ensures CoInv(b') && Owns(b') == Owns(b) && HasToken(b.pc) && !HasToken(b'.pc)
  {
  }

  lemma GiveSpins(s: State, s': State, c: Cid, b: Co)
    requires SpinInv(s) && Became(s, s', c, b) && HasToken(Get(s, c).pc) && !HasToken(b.pc)
    requires !s'.spin && s'.token == Nobody
    ensures SpinInv(s')
  {
    hide Get, HasToken;
  }

  lemma ReadyKeeps(s: State, c: Cid)
    requires Inv(s) && Get(s, c).pc.AwaitReady?
    ensures Inv(StepOf(s, c))
  {
    var s' := StepOf(s, c);
    assert CoInv(Get(s, c));
    if s.flag {
      QuietKeeps(s, c, Get(s, c).(pc := AwaitSuspend));
    } else {
      var b := Get(s, c).(pc := LeaveReady);
      PutBecomes(s, s', c, b);
      hide Get, ListInv, HandInv, SpinInv;
      SpinStays(s, s', c, b);
      ListStays(s, s', c, b);
      HandStays(s, s', c, b);
    }
  }

  lemma NamesSnoc(ws: seq<Waiter>, w: Waiter)
    ensures Names(ws + [w]) == Names(ws) + [w.c]
  {
  }

  lemma IsInList(s: State, i: nat)
    requires i < |s.waiters|
    ensures InList(s, s.waiters[i].c)
  {
  }

  lemma SuspendList(s: State, c: Cid)
    requires ListInv(s) && SpinInv(s) && Get(s, c).pc.AwaitSuspend? && Get(s, c).guard
    ensures ListInv(SuspendStep(s, c))
  {
    var s' := SuspendStep(s, c);
    PutBecomes(s, s', c, Get(s, c).(pc := Parking, guard := false));
    NamesSnoc(s.waiters, Waiter(c, true));
    assert s'.waiters == s.waiters + [Waiter(c, true)] && s'.parks == s.parks + [c] && s'.pops == s.pops;
    assert !InList(s, c);
    forall i | 0 <= i < |s.waiters| ensures s.waiters[i].c != c { IsInList(s, i); }
    hide Get, Names, MembersInv, GuardsInv, SuspendStep;
    SuspendMembers(s, s', c);
    SuspendGuards(s, s', c);
  }

  lemma SuspendMembers(s: State, s': State, c: Cid)
    requires MembersInv(s) && s'.waiters == s.waiters + [Waiter(c, true)] && Get(s', c).pc.Parking?
    requires forall y :: y != c ==> Get(s', y) == Get(s, y)
    ensures MembersInv(s')
  {
    hide Get, Listed;
    forall x ensures InList(s', x) <==> InList(s, x) || x == c {
      if x == c { assert s'.waiters[|s.waiters|].c == c; }
      if InList(s, x) {
        var i :| 0 <= i < |s.waiters| && s.waiters[i].c == x;
        assert s'.waiters[i].c == x;
      }
    }
    hide InList;
    assert Listed(Get(s', c).pc) by { ParkingIsListed(Get(s', c).pc); }
  }

  lemma ParkingIsListed(pc: Pc)
    requires pc.Parking?
    ensures Listed(pc)
  {
  }

  /** Nobody else can still have the spinlock. */
  lemma SuspendGuards(s: State, s': State, c: Cid)
    requires GuardsInv(s) && SpinInv(s) && Get(s, c).pc.AwaitSuspend?
    requires s'.waiters == s.waiters + [Waiter(c, true)] && Get(s', c).pc.Parking?
    requires forall y :: y != c ==> Get(s', y) == Get(s, y)
    requires forall i :: 0 <= i < |s.waiters| ==> s.waiters[i].c != c
    ensures GuardsInv(s')
  {
    hide Get;
    forall i | 0 <= i < |s'.waiters| ensures GuardInv(s', i) {
      if i < |s.waiters| {
        assert GuardInv(s, i);
        assert HasToken(Get(s, c).pc) <==> s.token == Somebody(c);
        assert HasToken(Get(s, s.waiters[i].c).pc) <==> s.token == Somebody(s.waiters[i].c);
      }
    }
  }

  lemma SuspendKeeps(s: State, c: Cid)
    requires Inv(s) && Get(s, c).pc.AwaitSuspend?
    ensures Inv(StepOf(s, c))
  {
    var s' := StepOf(s, c);
    var b := Get(s, c).(pc := Parking, guard := false);
    assert CoInv(Get(s, c));
    PutBecomes(s, s', c, b);
    SuspendList(s, c);
    hide Get, ListInv, HandInv, SpinInv, DistinctNames;
    SpinStays(s, s', c, b);
    HandStays(s, s', c, b);
  }

  lemma NamesSet(ws: seq<Waiter>, i: nat, w: Waiter)
    requires i < |ws| && w.c == ws[i].c
    ensures Names(ws[i := w]) == Names(ws)
  {
  }

  /** back() is still the awaiter that was just moved in, and its guard owns the
      spinlock. */
  lemma BackIsOwn(s: State, c: Cid)
    requires Inv(s) && Get(s, c).pc.Parking?
    ensures s.waiters != [] && s.waiters[|s.waiters| - 1] == Waiter(c, true)
  {
    hide Get, OwnerInv, HandInv, Names;
    assert InList(s, c);
  }

  lemma ParkingList(s: State, c: Cid)
    requires Inv(s) && Get(s, c).pc.Parking?
    ensures ListInv(ParkingStep(s, c))
  {
    BackIsOwn(s, c);
    var s', n := ParkingStep(s, c), |s.waiters|;
    PutBecomes(s, s', c, Get(s, c).(pc := Parked, gave := Get(s, c).gave + 1));
    NamesSet(s.waiters, n - 1, Waiter(c, false));
    hide Get, Names;
    forall x ensures InList(s', x) <==> InList(s, x) {
      assert forall i :: 0 <= i < n ==> s'.waiters[i].c == s.waiters[i].c;
    }
  }

  lemma ParkingKeeps(s: State, c: Cid)
    requires Inv(s) && Get(s, c).pc.Parking?
    ensures Inv(StepOf(s, c)) && !StepOf(s, c).spin
  {
    BackIsOwn(s, c);
    ParkingList(s, c);
    var s' := StepOf(s, c);
    var b := Get(s, c).(pc := Parked, gave := Get(s, c).gave + 1);
    assert CoInv(Get(s, c));
    PutBecomes(s, s', c, b);
    hide Get, ListInv, HandInv, DistinctNames;
    HandStays(s, s', c, b);
  }

  lemma FirstIsParked(s: State, c: Cid)
    requires Inv(s) && Get(s, c).pc.InUnlock? && s.waiters != []
    ensures Get(s, s.waiters[0].c).pc.Parked? && s.waiters[0].c != c && CoInv(Get(s, s.waiters[0].c))
    ensures s.owner == Somebody(c) && CoInv(Get(s, c)) && !Get(s, s.waiters[0].c).holds
  {
    hide Get, HandInv, Names;
    var x := s.waiters[0].c;
    assert InList(s, x);
    assert HasToken(Get(s, c).pc) <==> s.token == Somebody(c);
    assert HasToken(Get(s, x).pc) <==> s.token == Somebody(x);
    assert Owns(Get(s, c)) <==> s.owner == Somebody(c);
    assert Owns(Get(s, x)) <==> s.owner == Somebody(x);
  }

  lemma RestOfList(s: State, s': State)
    requires DistinctNames(s.waiters) && s.waiters != [] && s'.waiters == s.waiters[1..]
    ensures DistinctNames(s'.waiters) && Names(s.waiters) == [s.waiters[0].c] + Names(s'.waiters)
    ensures forall y :: InList(s', y) <==> InList(s, y) && y != s.waiters[0].c
  {
    assert s.waiters == [s.waiters[0]] + s'.waiters;
    assert Names(s.waiters) == [s.waiters[0].c] + Names(s'.waiters);
    hide Names;
    forall y ensures InList(s', y) <==> InList(s, y) && y != s.waiters[0].c {
      if InList(s', y) {
        var i :| 0 <= i < |s'.waiters| && s'.waiters[i].c == y;
        assert s.waiters[i + 1].c == y;
      }
      if InList(s, y) && y != s.waiters[0].c {
        var i :| 0 <= i < |s.waiters| && s.waiters[i].c == y;
        assert s'.waiters[i - 1].c == y;
      }
    }
  }

  lemma UnlockList(s: State, s': State, c: Cid, x: Cid)
    requires ListInv(s) && s.waiters != [] && x == s.waiters[0].c && s'.waiters == s.waiters[1..] && c != x
    requires s'.parks == s.parks && s'.pops == s.pops + [x]
    requires !Listed(Get(s, c).pc) && !Listed(Get(s', c).pc) && !Listed(Get(s', x).pc)
    requires forall y :: y != x && y != c ==> Get(s', y) == Get(s, y)
    ensures ListInv(s')
  {
    hide Get, MembersInv, GuardsInv, Names, DistinctNames, InList;
    RestOfList(s, s');
    UnlockMembers(s, s', c, x);
    UnlockGuards(s, s', c, x);
    assert s.pops + ([x] + Names(s'.waiters)) == s.pops + [x] + Names(s'.waiters);
  }

  lemma UnlockMembers(s: State, s': State, c: Cid, x: Cid)
    requires MembersInv(s) && (forall y :: InList(s', y) <==> InList(s, y) && y != x) && c != x
    requires !Listed(Get(s, c).pc) && !Listed(Get(s', c).pc) && !Listed(Get(s', x).pc)
    requires forall y :: y != x && y != c ==> Get(s', y) == Get(s, y)
    ensures MembersInv(s')
  {
    hide Get, InList, Listed;
    forall y ensures InList(s', y) <==> Listed(Get(s', y).pc) { assert InList(s, y) <==> Listed(Get(s, y).pc); }
  }

  lemma UnlockGuards(s: State, s': State, c: Cid, x: Cid)
    requires GuardsInv(s) && s.waiters != [] && x == s.waiters[0].c && s'.waiters == s.waiters[1..]
    requires !Listed(Get(s, c).pc) && !Listed(Get(s', c).pc) && DistinctNames(s.waiters)
    requires forall y :: y != x && y != c ==> Get(s', y) == Get(s, y)
    ensures GuardsInv(s')
  {
    hide Get, GuardInv, DistinctNames;
    forall i | 0 <= i < |s'.waiters| ensures GuardInv(s', i) {
      assert GuardInv(s, i + 1);
      GuardRest(s, s', c, x, i);
    }
  }

  lemma GuardRest(s: State, s': State, c: Cid, x: Cid, i: nat)
    requires s.waiters != [] && x == s.waiters[0].c && s'.waiters == s.waiters[1..] && i < |s'.waiters|
    requires GuardInv(s, i + 1) && !Listed(Get(s, c).pc) && !Listed(Get(s', c).pc) && DistinctNames(s.waiters)
    requires forall y :: y != x && y != c ==> Get(s', y) == Get(s, y)
    ensures GuardInv(s', i)
  {
    hide Get;
    assert s'.waiters[i] == s.waiters[i + 1] && s.waiters[i + 1].c != x;
  }

  lemma UnlockHand(s: State, s': State, c: Cid, x: Cid)
    requires HandInv(s) && Get(s, c).pc.InUnlock? && Get(s, x).pc.Parked? && c != x
    requires Get(s', c).pc == GiveSpin(x) && Get(s', x).pc == Popped(c)
    requires forall y :: y != c && y != x ==> Get(s', y) == Get(s, y)
    ensures HandInv(s')
  {
    hide Get;
    forall d, y ensures Carries(Get(s', d).pc, y) <==> Get(s', y).pc == Popped(d) {
      assert Carries(Get(s, d).pc, y) <==> Get(s, y).pc == Popped(d);
    }
  }

  lemma UnlockKeeps(s: State, c: Cid)
    requires Inv(s) && Get(s, c).pc.InUnlock?
    ensures Inv(StepOf(s, c))
  {
    var s' := StepOf(s, c);
    assert CoInv(Get(s, c));
    if s.waiters == [] {
      var b := Get(s, c).(pc := ClearSpin);
      PutBecomes(s, s', c, b);
      assert Owns(Get(s, c)) <==> s.owner == Somebody(c);
      NobodySuspends(s, c);
      hide Get, ListInv, HandInv, SpinInv;
      SpinStays(s, s', c, b);
      ListStays(s, s', c, b);
      HandStays(s, s', c, b);
    } else {
      var x := s.waiters[0].c;
      FirstIsParked(s, c);
      assert Get(s', x) == Get(s, x).(pc := Popped(c)) && Get(s', c) == Get(s, c).(pc := GiveSpin(x));
      assert forall y :: y != c && y != x ==> Get(s', y) == Get(s, y);
      hide Get, ListInv, HandInv, SpinInv, DistinctNames, StepOf, CoInv, OwnerInv, HasToken;
      UnlockMoves(s, c);
      UnlockList(s, s', c, x);
      UnlockHand(s, s', c, x);
      UnlockOwner(s, s', c, x);
      UnlockSpins(s, s', c, x);
      UnlockCo(Get(s, c), Get(s, x), c, x);
    }
  }

  lemma UnlockMoves(s: State, c: Cid)
    requires Get(s, c).pc.InUnlock? && s.waiters != []
    ensures var s' := StepOf(s, c);
      var x := s.waiters[0].c;
      s' == s.(cos := s'.cos, waiters := s.waiters[1..], owner := Somebody(x), pops := s.pops + [x])
  {
  }

  lemma UnlockCo(b: Co, bx: Co, c: Cid, x: Cid)
    requires CoInv(b) && b.pc.InUnlock? && CoInv(bx) && bx.pc.Parked? && !bx.holds
    ensures CoInv(b.(pc := GiveSpin(x))) && CoInv(bx.(pc := Popped(c)))
  {
  }

  lemma UnlockOwner(s: State, s': State, c: Cid, x: Cid)
    requires OwnerInv(s) && s.waiters != [] && s.owner == Somebody(c) && c != x && CoInv(Get(s, c))
    requires Get(s, c).pc.InUnlock?
    requires s'.flag == s.flag && s'.owner == Somebody(x) && s'.waiters == s.waiters[1..]
    requires Get(s', x) == Get(s, x).(pc := Popped(c)) && Get(s', c) == Get(s, c).(pc := GiveSpin(x))
    requires forall y :: y != c && y != x ==> Get(s', y) == Get(s, y)
    ensures OwnerInv(s')
  {
    UnlockerHoldsNothing(Get(s, c));
    hide Get, CoInv;
  }

  lemma UnlockerHoldsNothing(b: Co)
    requires CoInv(b) && b.pc.InUnlock?
    ensures !b.holds
  {
  }

  lemma UnlockSpins(s: State, s': State, c: Cid, x: Cid)
    requires SpinInv(s) && s'.spin == s.spin && s'.token == s.token
    requires Get(s, x).pc.Parked? && Get(s, c).pc.InUnlock? && Get(s', c).pc.GiveSpin? && Get(s', x).pc.Popped?
    requires forall y :: y != c && y != x ==> Get(s', y) == Get(s, y)
    ensures SpinInv(s')
  {
    hide Get;
  }

  lemma FlagIsSet(s: State, c: Cid)
    requires OwnerInv(s) && s.waiters != []
    ensures s.flag
  {
  }

  /** Whoever has the spinlock is the only one between await_ready and the list. */
  lemma NobodySuspends(s: State, c: Cid)
    requires SpinInv(s) && Get(s, c).pc.InUnlock?
    ensures forall x :: !Get(s, x).pc.AwaitSuspend?
  {
    hide Get;
    forall x ensures !Get(s, x).pc.AwaitSuspend? {
      assert HasToken(Get(s, x).pc) <==> s.token == Somebody(x);
      assert HasToken(Get(s, c).pc) <==> s.token == Somebody(c);
    }
  }

  lemma ResumeKeeps(s: State, c: Cid)
    requires Inv(s) && Get(s, c).pc.Resume?
    ensures Inv(StepOf(s, c))
  {
    var s', x := StepOf(s, c), Get(s, c).pc.x;
    assert Carries(Get(s, c).pc, x) <==> Get(s, x).pc == Popped(c);
    assert CoInv(Get(s, c)) && CoInv(Get(s, x));
    assert Get(s', x) == Get(s, x).(pc := Outside, holds := true) && Get(s', c) == Get(s, c).(pc := Outside);
    assert forall y :: y != c && y != x ==> Get(s', y) == Get(s, y);
    hide Get, ListInv, HandInv, DistinctNames;
    ResumeHand(s, s', c, x);
    ResumeList(s, s', c, x);
  }

  lemma ResumeHand(s: State, s': State, c: Cid, x: Cid)
    requires HandInv(s) && Get(s, c).pc == Resume(x) && Get(s', c).pc.Outside? && Get(s', x).pc.Outside?
    requires forall y :: y != c && y != x ==> Get(s', y) == Get(s, y)
    ensures HandInv(s')
  {
    hide Get;
    assert Carries(Get(s, c).pc, x) <==> Get(s, x).pc == Popped(c);
    forall d, y ensures Carries(Get(s', d).pc, y) <==> Get(s', y).pc == Popped(d) {
      assert Carries(Get(s, d).pc, y) <==> Get(s, y).pc == Popped(d);
    }
  }

  lemma ResumeList(s: State, s': State, c: Cid, x: Cid)
    requires ListInv(s) && s'.waiters == s.waiters && s'.parks == s.parks && s'.pops == s.pops
    requires Get(s, c).pc.Resume? && Get(s, x).pc.Popped? && Get(s', c).pc.Outside? && Get(s', x).pc.Outside?
    requires forall y :: y != c && y != x ==> Get(s', y) == Get(s, y)
    ensures ListInv(s')
  {
    hide Get, DistinctNames;
    forall y ensures InList(s', y) <==> Listed(Get(s', y).pc) {
      assert InList(s, y) <==> Listed(Get(s, y).pc);
      assert InList(s', y) == InList(s, y);
    }
  }

  lemma StepKeeps(s: State, c: Cid)
    requires Inv(s)
    ensures Inv(StepOf(s, c))
  {
    var pc := Get(s, c).pc;
    hide Inv, Get;
    match pc
    case AwaitSpin => TakeKeeps(s, c);
    case AwaitReady => ReadyKeeps(s, c);
    case LeaveReady => GiveKeeps(s, c);
    case AwaitSuspend => SuspendKeeps(s, c);
    case Parking => ParkingKeeps(s, c);
    case UnlockSpin => TakeKeeps(s, c);
    case InUnlock => UnlockKeeps(s, c);
    case ClearSpin => GiveKeeps(s, c);
    case GiveSpin(x) => GiveKeeps(s, c);
    case Resume(x) => ResumeKeeps(s, c);
    case _ =>
  }

  lemma ApplyKeeps(s: State, e: Event)
    requires Inv(s)
    ensures Inv(Apply(s, e))
  {
    var b := Get(s, e.c);
    assert CoInv(b);
    hide SpinInv, ListInv, OwnerInv, HandInv;
    match e
    case Start(c) => if c !in s.cos { QuietKeeps(s, c, b.(pc := Outside)); }
    case BeginLock(c) => if b.pc.Outside? { QuietKeeps(s, c, b.(pc := AwaitSpin)); }
    case BeginUnlock(c) => if b.pc.Outside? && b.holds { QuietKeeps(s, c, b.(pc := UnlockSpin, holds := false)); }
    case End(c) => if b.pc.Outside? { QuietKeeps(s, c, b.(pc := Ended)); }
    case Step(c) => StepKeeps(s, c);
  }

  lemma {:induction false} RunKeeps(s: State, es: seq<Event>)
    requires Inv(s)
    ensures Inv(Run(s, es))
    decreases |es|
  {
    hide Inv, Apply;
    if es != [] {
      ApplyKeeps(s, es[0]);
      RunKeeps(Apply(s, es[0]), es[1..]);
    }
  }

  lemma Reachable(es: seq<Event>)
    ensures Inv(Run(Init(), es))
  {
    RunKeeps(Init(), es);
  }

  // ----- the results -----

  /** The spinlock is taken exactly while one coroutine's call is between taking
      and releasing it; every call that is over, and every coroutine that waits in
      the list, has released the spinlock as often as it took it; and a guard is
      never lost or doubled on its way into the list. */
  lemma EachTakenIsReleased(es: seq<Event>, c: Cid, d: Cid)
    ensures var s := Run(Init(), es);
      && (Get(s, c).guard && Get(s, d).guard ==> c == d)
      && (Get(s, c).guard ==> s.spin)
      && Get(s, c).took == Get(s, c).gave + (if HasToken(Get(s, c).pc) then 1 else 0)
      && (HasToken(Get(s, c).pc) ==> s.spin)
      && (HasToken(Get(s, c).pc) && HasToken(Get(s, d).pc) ==> c == d)
      && (forall i :: 0 <= i < |s.waiters| && s.waiters[i].guard ==> i == |s.waiters| - 1 && !Get(s, c).guard)
  {
    Reachable(es);
    var s := Run(Init(), es);
    hide Run, Get, HandInv, OwnerInv;
    assert CoInv(Get(s, c)) && CoInv(Get(s, d));
    assert HasToken(Get(s, c).pc) <==> s.token == Somebody(c);
    assert HasToken(Get(s, d).pc) <==> s.token == Somebody(d);
    forall i | 0 <= i < |s.waiters| && s.waiters[i].guard ensures i == |s.waiters| - 1 && !Get(s, c).guard {
      var x := s.waiters[i].c;
      assert HasToken(Get(s, x).pc) <==> s.token == Somebody(x);
    }
  }

  /** At most one coroutine is between the end of lock and the beginning of
      unlock; the flag says whether the mutex has an owner; nobody waits for a
      free mutex; it is handed over in park order; and a coroutine is never
      resumed unless it is suspended and was popped. */
  lemma MutexIsExclusive(es: seq<Event>, c: Cid, d: Cid)
    ensures var s := Run(Init(), es);
      && (Get(s, c).holds && Get(s, d).holds ==> c == d)
      && (Get(s, c).holds ==> s.flag && !Get(s, d).pc.LeaveReady? && !Get(s, d).pc.Popped?)
      && (s.flag <==> exists x :: Owns(Get(s, x)))
      && (s.waiters != [] ==> s.flag)
      && s.parks == s.pops + Names(s.waiters)
      && !Get(s, c).pc.Fault?
  {
    Reachable(es);
    var s := Run(Init(), es);
    hide Run, Get, HandInv, SpinInv, DistinctNames, Names;
    assert CoInv(Get(s, c));
    assert Owns(Get(s, c)) <==> s.owner == Somebody(c);
    assert Owns(Get(s, d)) <==> s.owner == Somebody(d);
    if Get(s, c).holds && c == d { assert CoInv(Get(s, d)); }
    if s.flag { assert Owns(Get(s, s.owner.c)); }
  }

  /** Unlock hands the mutex to the first waiter, or frees it if there is none. */
  lemma HandOver(es: seq<Event>, c: Cid, x: Cid)
    requires Get(Run(Init(), es), c).pc.InUnlock?
    ensures var s := Run(Init(), es);
      var s' := Apply(s, Step(c));
      && (Owns(Get(s', x)) <==> s.waiters != [] && x == s.waiters[0].c)
      && s'.flag == (s.waiters != [])
  {
    Reachable(es);
    var s := Run(Init(), es);
    ApplyKeeps(s, Step(c));
    var s' := Apply(s, Step(c));
    if s.waiters != [] { FirstIsParked(s, c); FlagIsSet(s, c); }
    hide Run, SpinInv, ListInv, HandInv, Owns;
    assert Owns(Get(s', x)) <==> s'.owner == Somebody(x);
  }
}
