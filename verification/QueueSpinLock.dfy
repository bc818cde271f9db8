/** The queue lock of queue_spinlock.h: any number of guards, one atomic access
    per step. A guard is named by the number it was created with. */
module QueueSpinLock {

  type GuardId = nat

  datatype Link = Nobody | Of(g: GuardId)

  /** The two atomics of a Guard object. */
  datatype Guard = Guard(next: Link, isOwner: bool)

  datatype Pc =
    | Created
    | SetSelfOwner
    | SetNext(ancestor: GuardId)
    | Spin
    | Inside      // between the end of Acquire and the start of Release
    | TestNext
    | LoadNext
    | WakeNext(next: Link)
    | ClearTail
    | TestNextAgain
    | ClearOwner
    | Outside
    | Gone        // destroyed
    | Fault

  /** The memory and the guards' counters, then history: the guards in the order
      of their exchange on tail_, where each stands in it, how many have passed
      the lock on, and the guards in the order they got in. */
  datatype State = State(
    tail: Link,
    guards: seq<Guard>,
    pcs: seq<Pc>,
    order: seq<GuardId>,
    rank: map<GuardId, nat>,
    turn: nat,
    entered: seq<GuardId>)

  datatype Event =
    | New
    | Step(g: GuardId, weakFails: bool)
    | Leave(g: GuardId)    // Release is called
    | Destroy(g: GuardId)  // the destructor tests is_owner

  function Init(): State { State(Nobody, [], [], [], map[], 0, []) }

  function At(s: State, g: GuardId, pc: Pc): State
    requires g < |s.pcs|
  {
    s.(pcs := s.pcs[g := pc])
  }

  predicate Exists(s: State, g: GuardId) { g < |s.guards| && g < |s.pcs| }

  function Own(s: State, g: GuardId, b: bool): State
    requires g < |s.guards|
  {
    s.(guards := s.guards[g := s.guards[g].(isOwner := b)])
  }

  function StepOf(s: State, g: GuardId, weakFails: bool): State
    requires Exists(s, g)
  {
    match s.pcs[g]
    case Created =>
      var s' := s.(tail := Of(g), order := s.order + [g], rank := s.rank[g := |s.order|]);
      At(s', g, if s.tail == Nobody then SetSelfOwner else SetNext(s.tail.g))
    case SetSelfOwner => At(Own(s, g, true), g, Inside).(entered := s.entered + [g])
    case SetNext(a) =>
      if !Exists(s, a) then At(s, g, Fault)
      else At(s.(guards := s.guards[a := s.guards[a].(next := Of(g))]), g, Spin)
    case Spin => if s.guards[g].isOwner then At(s, g, Inside).(entered := s.entered + [g]) else s
    case TestNext => At(s, g, if s.guards[g].next != Nobody then LoadNext else ClearTail)
    case LoadNext => At(s, g, WakeNext(s.guards[g].next))
    case WakeNext(n) =>
      if n == Nobody || !Exists(s, n.g) then At(s, g, Fault)
      else At(Own(s, n.g, true), g, ClearOwner).(turn := s.turn + 1)
    case ClearTail =>
      if s.tail == Of(g) && !weakFails then At(s.(tail := Nobody, turn := s.turn + 1), g, ClearOwner)
      else At(s, g, TestNextAgain)
    case TestNextAgain => At(s, g, if s.guards[g].next != Nobody then LoadNext else ClearTail)
    case ClearOwner => At(Own(s, g, false), g, Outside)
    case _ => s
  }

  function Apply(s: State, e: Event): State {
    match e
    case New => s.(guards := s.guards + [Guard(Nobody, false)], pcs := s.pcs + [Created])
    case Step(g, w) => if Exists(s, g) then StepOf(s, g, w) else s
    case Leave(g) => if Exists(s, g) && s.pcs[g].Inside? then At(s, g, TestNext) else s
    case Destroy(g) =>
      if Exists(s, g) && (s.pcs[g].Inside? || s.pcs[g].Outside?) then
        At(s, g, if s.guards[g].isOwner then TestNext else Gone)
      else s
  }

  function Run(s: State, es: seq<Event>): State
    decreases |es|
  {
    if es == [] then s else Run(Apply(s, es[0]), es[1..])
  }

  // ----- what every reachable state satisfies -----

  /** The lock has been taken and not yet passed on. */
  predicate Owning(pc: Pc) {
    pc.Inside? || pc.TestNext? || pc.LoadNext? || pc.WakeNext? || pc.ClearTail? || pc.TestNextAgain?
  }

  predicate Leaving(pc: Pc) { Owning(pc) && !pc.Inside? }

  predicate Done(pc: Pc) { pc.ClearOwner? || pc.Outside? || pc.Gone? }

  ghost predicate OrderInv(s: State) {
    && |s.guards| == |s.pcs|
    && s.turn <= |s.order|
    && (forall i :: 0 <= i < |s.order| ==> Exists(s, s.order[i]) && s.order[i] in s.rank && s.rank[s.order[i]] == i)
    && (forall g :: g in s.rank ==> s.rank[g] < |s.order| && s.order[s.rank[g]] == g)
    && s.tail == (if s.turn == |s.order| then Nobody else Of(s.order[|s.order| - 1]))
    && s.turn <= |s.entered| <= |s.order|
    && s.entered <= s.order
    && |s.entered| == (if s.turn < |s.order| && Owning(s.pcs[s.order[s.turn]]) then s.turn + 1 else s.turn)
  }

  /** Whether the guard at position i has been told who comes next. */
  ghost predicate Told(s: State, i: nat)
    requires OrderInv(s)
  {
    i + 1 < |s.order| && !s.pcs[s.order[i + 1]].SetNext?
  }

  ghost predicate GuardInv(s: State, g: GuardId)
    requires OrderInv(s) && g < |s.pcs|
  {
    var pc, me := s.pcs[g], s.guards[g];
    if pc.Created? then g !in s.rank && me == Guard(Nobody, false)
    else
      && g in s.rank
      && var i := s.rank[g];
         && (s.turn <= i ==> me.next == if Told(s, i) then Of(s.order[i + 1]) else Nobody)
         && (i < s.turn <==> Done(pc))
         && (i == s.turn <==> Owning(pc) || pc.SetSelfOwner? || (pc.Spin? && me.isOwner))
         && (pc.SetNext? ==> 0 < i && pc.ancestor == s.order[i - 1])
         && (pc.WakeNext? ==> me.next != Nobody && pc.next == me.next)
         && (pc.LoadNext? ==> me.next != Nobody)
         && (me.isOwner <==> Owning(pc) || pc.ClearOwner? || (pc.Spin? && i == s.turn))
         && !pc.Fault?
  }

  ghost predicate Inv(s: State) {
    OrderInv(s) && forall g :: 0 <= g < |s.pcs| ==> GuardInv(s, g)
  }

  // ----- every step keeps it -----

  lemma NewKeeps(s: State)
    requires Inv(s)
    ensures Inv(Apply(s, New))
  {
    var s' := Apply(s, New);
    forall g | 0 <= g < |s'.pcs| ensures GuardInv(s', g) {
      if g < |s.pcs| { assert GuardInv(s, g); } else { assert g !in s.rank; }
    }
  }

  lemma ExchangeKeepsOther(s: State, s': State, g: GuardId, h: GuardId)
    requires Inv(s) && Exists(s, g) && s.pcs[g].Created? && s' == StepOf(s, g, false) && OrderInv(s')
    requires Exists(s, h) && h != g
    ensures GuardInv(s', h)
  {
    assert GuardInv(s, h);
    if h in s.rank && s.turn <= s.rank[h] { assert Told(s', s.rank[h]) == Told(s, s.rank[h]); }
    hide Told;
  }

  lemma ExchangeKeeps(s: State, g: GuardId)
    requires Inv(s) && Exists(s, g) && s.pcs[g].Created?
    ensures Inv(StepOf(s, g, false))
  {
    var s' := StepOf(s, g, false);
    assert GuardInv(s, g);
    assert OrderInv(s') by { hide GuardInv; }
    assert GuardInv(s', g);
    hide OrderInv, GuardInv;
    forall h | 0 <= h < |s'.pcs| && h != g ensures GuardInv(s', h) { ExchangeKeepsOther(s, s', g, h); }
  }

  lemma SetNextKeepsOther(s: State, s': State, g: GuardId, h: GuardId)
    requires OrderInv(s) && Exists(s, g) && s.pcs[g].SetNext? && s' == StepOf(s, g, false) && OrderInv(s')
    requires Exists(s, h) && h != g && GuardInv(s, g) && GuardInv(s, h)
    ensures GuardInv(s', h)
  {
    AncestorIsBefore(s, g);
    hide OrderInv, Told;
    if h in s.rank { SetNextTells(s, s', g, h); }
  }

  lemma AncestorIsBefore(s: State, g: GuardId)
    requires OrderInv(s) && Exists(s, g) && s.pcs[g].SetNext? && GuardInv(s, g)
    ensures var a := s.pcs[g].ancestor;
      Exists(s, a) && a in s.rank && s.rank[g] == s.rank[a] + 1 < |s.order| && s.order[s.rank[g]] == g
  {
  }

  lemma SetNextTells(s: State, s': State, g: GuardId, h: GuardId)
    requires OrderInv(s) && Exists(s, g) && s.pcs[g].SetNext? && s' == StepOf(s, g, false) && OrderInv(s')
    requires Exists(s, h) && h in s.rank && GuardInv(s, g)
    ensures s'.rank == s.rank && (Told(s', s.rank[h]) <==> h == s.pcs[g].ancestor || Told(s, s.rank[h]))
  {
  }

  lemma SetNextKeeps(s: State, g: GuardId)
    requires Inv(s) && Exists(s, g) && s.pcs[g].SetNext?
    ensures Inv(StepOf(s, g, false))
  {
    var s' := StepOf(s, g, false);
    assert GuardInv(s, g);
    assert GuardInv(s, s.pcs[g].ancestor);
    assert OrderInv(s') by { hide GuardInv; }
    assert GuardInv(s', g);
    hide OrderInv, GuardInv;
    forall h | 0 <= h < |s'.pcs| && h != g ensures GuardInv(s', h) { SetNextKeepsOther(s, s', g, h); }
  }

  lemma EnterKeepsOrder(s: State, g: GuardId)
    requires Inv(s) && Exists(s, g) && (s.pcs[g].SetSelfOwner? || (s.pcs[g].Spin? && s.guards[g].isOwner))
    ensures OrderInv(StepOf(s, g, false)) && s.turn < |s.order| && s.order[s.turn] == g
  {
    assert GuardInv(s, g);
    hide GuardInv;
    assert s.order[s.turn] == g;
    assert StepOf(s, g, false).entered == s.order[..s.turn] + [g];
  }

  lemma EnterKeeps(s: State, g: GuardId)
    requires Inv(s) && Exists(s, g) && (s.pcs[g].SetSelfOwner? || (s.pcs[g].Spin? && s.guards[g].isOwner))
    ensures Inv(StepOf(s, g, false))
  {
    var s' := StepOf(s, g, false);
    EnterKeepsOrder(s, g);
    assert GuardInv(s, g);
    hide OrderInv;
    assert Told(s', s.rank[g]) == Told(s, s.rank[g]);
    forall h | 0 <= h < |s'.pcs| && h != g ensures GuardInv(s', h) { SameFor(s, s', g, h); }
  }

  /** Between two states that agree on the order and on h, only whether h has
      been told its successor could matter. */
  lemma SameFor(s: State, s': State, g: GuardId, h: GuardId)
    requires OrderInv(s) && OrderInv(s') && Exists(s, h) && Exists(s, g) && GuardInv(s, h) && h != g
    requires |s'.pcs| == |s.pcs| && s'.order == s.order && s'.rank == s.rank && s'.turn == s.turn
    requires s'.guards[h] == s.guards[h] && s'.pcs == s.pcs[g := s'.pcs[g]]
    requires s'.pcs[g].SetNext? == s.pcs[g].SetNext?
    ensures GuardInv(s', h)
  {
    if h in s.rank { assert Told(s', s.rank[h]) == Told(s, s.rank[h]); }
    hide OrderInv, Told;
  }

  /** Steps inside Release that pass nothing on. */
  lemma LeavingKeeps(s: State, g: GuardId, pc: Pc)
    requires Inv(s) && Exists(s, g) && Owning(s.pcs[g]) && Owning(pc)
    requires pc.LoadNext? ==> s.guards[g].next != Nobody
    requires pc.WakeNext? ==> s.guards[g].next != Nobody && pc.next == s.guards[g].next
    ensures Inv(At(s, g, pc))
  {
    var s' := At(s, g, pc);
    assert GuardInv(s, g);
    assert OrderInv(s') by { hide GuardInv; }
    assert GuardInv(s', g) by { assert Told(s', s.rank[g]) == Told(s, s.rank[g]); }
    forall h | 0 <= h < |s'.pcs| && h != g ensures GuardInv(s', h) {
      hide OrderInv;
      SameFor(s, s', g, h);
    }
  }

  /** g passes the lock on: to the guard behind it, or to nobody. */
  ghost predicate PassesOn(s: State, g: GuardId, w: bool) {
    Exists(s, g) && (s.pcs[g].WakeNext? || (s.pcs[g].ClearTail? && !w && s.tail == Of(g)))
  }

  lemma PassOnKeepsOrder(s: State, g: GuardId, w: bool)
    requires Inv(s) && PassesOn(s, g, w)
    ensures OrderInv(StepOf(s, g, w))
    ensures s.turn < |s.order| && s.order[s.turn] == g
    ensures s.turn + 1 < |s.order| <==> s.pcs[g].WakeNext?
    ensures s.pcs[g].WakeNext? ==> s.pcs[g].next == Of(s.order[s.turn + 1]) && s.pcs[s.order[s.turn + 1]] == Spin
  {
    IsNext(s, g, w);
    hide GuardInv;
  }

  lemma IsNext(s: State, g: GuardId, w: bool)
    requires Inv(s) && PassesOn(s, g, w)
    ensures s.turn < |s.order| && s.order[s.turn] == g
    ensures s.turn + 1 < |s.order| <==> s.pcs[g].WakeNext?
    ensures s.pcs[g].WakeNext? ==> s.pcs[g].next == Of(s.order[s.turn + 1]) && s.pcs[s.order[s.turn + 1]] == Spin
  {
    assert GuardInv(s, g);
    assert s.order[s.turn] == g;
    if s.turn + 1 < |s.order| { assert GuardInv(s, s.order[s.turn + 1]); }
  }

  lemma WakeKeepsOther(s: State, s': State, g: GuardId, w: bool, h: GuardId)
    requires OrderInv(s) && PassesOn(s, g, w) && s' == StepOf(s, g, w) && OrderInv(s')
    requires s.turn < |s.order| && s.order[s.turn] == g && Exists(s, h) && h != g && GuardInv(s, h)
    requires s.turn + 1 < |s.order| && s.pcs[g].WakeNext?
    requires s.pcs[g].next == Of(s.order[s.turn + 1]) && s.pcs[s.order[s.turn + 1]] == Spin
    ensures GuardInv(s', h)
  {
    if h in s.rank { assert Told(s', s.rank[h]) == Told(s, s.rank[h]); }
    hide Told, PassesOn;
  }

  lemma EmptyKeepsOther(s: State, s': State, g: GuardId, w: bool, h: GuardId)
    requires OrderInv(s) && PassesOn(s, g, w) && s' == StepOf(s, g, w) && OrderInv(s')
    requires s.turn < |s.order| && s.order[s.turn] == g && Exists(s, h) && h != g && GuardInv(s, h)
    requires s.turn + 1 == |s.order| && !s.pcs[g].WakeNext?
    ensures GuardInv(s', h)
  {
    if h in s.rank { assert Told(s', s.rank[h]) == Told(s, s.rank[h]); }
    hide Told, PassesOn;
  }

  lemma PassOnKeeps(s: State, g: GuardId, w: bool)
    requires Inv(s) && PassesOn(s, g, w)
    ensures Inv(StepOf(s, g, w))
  {
    var s' := StepOf(s, g, w);
    PassOnKeepsOrder(s, g, w);
    assert GuardInv(s, g);
    assert GuardInv(s', g);
    hide OrderInv, GuardInv, PassesOn;
    forall h | 0 <= h < |s'.pcs| && h != g ensures GuardInv(s', h) {
      if s.pcs[g].WakeNext? { WakeKeepsOther(s, s', g, w, h); } else { EmptyKeepsOther(s, s', g, w, h); }
    }
  }

  lemma ClearOwnerKeeps(s: State, g: GuardId)
    requires Inv(s) && Exists(s, g) && s.pcs[g].ClearOwner?
    ensures Inv(StepOf(s, g, false))
  {
    var s' := StepOf(s, g, false);
    assert GuardInv(s, g);
    assert OrderInv(s');
    forall h | 0 <= h < |s'.pcs| ensures GuardInv(s', h) { assert GuardInv(s, h); }
  }

  lemma DestroyKeeps(s: State, g: GuardId)
    requires Inv(s) && Exists(s, g) && s.pcs[g].Outside?
    ensures Inv(At(s, g, Gone)) && !s.guards[g].isOwner
  {
    var s' := At(s, g, Gone);
    assert GuardInv(s, g);
    assert OrderInv(s') by { hide GuardInv; }
    forall h | 0 <= h < |s'.pcs| && h != g ensures GuardInv(s', h) {
      hide OrderInv;
      SameFor(s, s', g, h);
    }
  }

  lemma StepKeeps(s: State, g: GuardId, w: bool)
    requires Inv(s) && Exists(s, g)
    ensures Inv(StepOf(s, g, w))
  {
    assert GuardInv(s, g);
    match s.pcs[g]
    case Created => ExchangeKeeps(s, g);
    case SetNext(_) => SetNextKeeps(s, g);
    case SetSelfOwner => EnterKeeps(s, g);
    case Spin => if s.guards[g].isOwner { EnterKeeps(s, g); }
    case WakeNext(_) => PassOnKeeps(s, g, w);
    case ClearTail => if !w && s.tail == Of(g) { PassOnKeeps(s, g, w); } else { LeavingKeeps(s, g, TestNextAgain); }
    case ClearOwner => ClearOwnerKeeps(s, g);
    case TestNext => LeavingKeeps(s, g, if s.guards[g].next != Nobody then LoadNext else ClearTail);
    case TestNextAgain => LeavingKeeps(s, g, if s.guards[g].next != Nobody then LoadNext else ClearTail);
    case LoadNext => LeavingKeeps(s, g, WakeNext(s.guards[g].next));
    case _ =>
  }

  lemma ApplyKeeps(s: State, e: Event)
    requires Inv(s)
    ensures Inv(Apply(s, e))
  {
    match e
    case New => NewKeeps(s);
    case Step(g, w) => if Exists(s, g) { StepKeeps(s, g, w); }
    case Leave(g) => if Exists(s, g) && s.pcs[g].Inside? { LeavingKeeps(s, g, TestNext); }
    case Destroy(g) =>
      if Exists(s, g) {
        assert GuardInv(s, g);
        if s.pcs[g].Inside? { LeavingKeeps(s, g, TestNext); }
        if s.pcs[g].Outside? { DestroyKeeps(s, g); }
      }
  }

  lemma {:induction false} RunKeeps(s: State, es: seq<Event>)
    requires Inv(s)
    ensures Inv(Run(s, es))
    decreases |es|
  {
    if es != [] {
      ApplyKeeps(s, es[0]);
      RunKeeps(Apply(s, es[0]), es[1..]);
    }
  }

  // ----- the results -----

  lemma Reachable(es: seq<Event>)
    ensures Inv(Run(Init(), es))
  {
    RunKeeps(Init(), es);
  }

  /** Mutual exclusion: two guards never hold the lock at once, neither in the
      critical section nor in the part of Release before it is passed on. */
  lemma MutualExclusion(es: seq<Event>, g: GuardId, h: GuardId)
    requires var s := Run(Init(), es);
             Exists(s, g) && Exists(s, h) && Owning(s.pcs[g]) && Owning(s.pcs[h])
    ensures g == h
  {
    Reachable(es);
    var s := Run(Init(), es);
    assert GuardInv(s, g) && GuardInv(s, h);
  }

  /** First come, first served: the guards have got in exactly in the order of
      their exchanges on tail_. */
  lemma EntersInOrder(es: seq<Event>)
    ensures var s := Run(Init(), es);
            && s.entered <= s.order
            && (forall i, j :: 0 <= i < j < |s.order| ==> s.order[i] != s.order[j])
            && (forall g: GuardId :: Exists(s, g) ==> (g in s.order <==> !s.pcs[g].Created?))
            && (forall g: GuardId :: Exists(s, g) ==> (g in s.entered <==> Owning(s.pcs[g]) || Done(s.pcs[g])))
  {
    Reachable(es);
    var s := Run(Init(), es);
    forall g: GuardId | Exists(s, g)
      ensures g in s.order <==> !s.pcs[g].Created?
      ensures g in s.entered <==> Owning(s.pcs[g]) || Done(s.pcs[g])
    {
      assert GuardInv(s, g);
      if g in s.rank {
        assert s.order[s.rank[g]] == g;
        if s.rank[g] < |s.entered| { assert s.entered[s.rank[g]] == g; }
      }
    }
  }

  /** No stranded successor and no write to a dead guard: while g has yet to
      write its ancestor's `next`, the ancestor has not passed the lock on, and
      the guard a Release is about to wake is spinning. */
  lemma NeighboursAreAlive(es: seq<Event>, g: GuardId)
    requires Exists(Run(Init(), es), g)
    ensures var s := Run(Init(), es);
            && (s.pcs[g].SetNext? ==>
                  Exists(s, s.pcs[g].ancestor)
                  && !s.pcs[s.pcs[g].ancestor].Created? && !Done(s.pcs[s.pcs[g].ancestor]))
            && (s.pcs[g].WakeNext? ==>
                  s.pcs[g].next.Of? && Exists(s, s.pcs[g].next.g) && s.pcs[s.pcs[g].next.g].Spin?)
            && !s.pcs[g].Fault?
  {
    Reachable(es);
    var s := Run(Init(), es);
    assert GuardInv(s, g);
    if s.pcs[g].SetNext? { assert GuardInv(s, s.order[s.rank[g] - 1]); }
    if s.pcs[g].WakeNext? { assert GuardInv(s, s.order[s.rank[g] + 1]); }
  }

  /** The destructor's test is right: is_owner is true while the lock is still
      to be released and false once it has been. */
  lemma DestructorTestIsRight(es: seq<Event>, g: GuardId)
    requires Exists(Run(Init(), es), g)
    ensures var s := Run(Init(), es);
            && (s.pcs[g].Inside? ==> s.guards[g].isOwner)
            && (s.pcs[g].Outside? ==> !s.guards[g].isOwner)
  {
    Reachable(es);
    assert GuardInv(Run(Init(), es), g);
  }

  // ----- the lock is handed over -----

  /** How many useful steps are left until somebody is in the critical section
      or the lock is free. Spinning and re-testing do not count. */
  ghost function Distance(s: State): nat
    requires OrderInv(s)
  {
    if s.turn == |s.order| then 0
    else
      var g := s.order[s.turn];
      var last := s.turn + 1 == |s.order|;
      match s.pcs[g]
      case Inside => 0
      case Spin => 1
      case SetSelfOwner => 1
      case WakeNext(_) => 2
      case LoadNext => 3
      case ClearTail => if last then 1 else if Told(s, s.turn) then 5 else 6
      case _ => if last then 2 else if Told(s, s.turn) then 4 else 6
  }

  /** The lock is wanted and nobody is in the critical section. */
  ghost predicate HandOver(s: State) {
    Inv(s) && s.turn < |s.order| && !s.pcs[s.order[s.turn]].Inside?
  }

  /** The guard whose step brings the next entry closer. */
  ghost function Helper(s: State): GuardId
    requires HandOver(s)
  {
    if Leaving(s.pcs[s.order[s.turn]]) && s.turn + 1 < |s.order| && !Told(s, s.turn)
    then s.order[s.turn + 1] else s.order[s.turn]
  }

  /** What the guard whose turn it is can be doing. */
  lemma AtTheFront(s: State)
    requires HandOver(s)
    ensures var g := s.order[s.turn]; var pc := s.pcs[g];
            && Exists(s, g)
            && (pc.SetSelfOwner? || pc.Spin? || Leaving(pc))
            && (pc.Spin? ==> s.guards[g].isOwner)
            && s.guards[g].next == (if Told(s, s.turn) then Of(s.order[s.turn + 1]) else Nobody)
            && (pc.WakeNext? || pc.LoadNext? ==> Told(s, s.turn))
            && (pc.WakeNext? ==> pc.next == Of(s.order[s.turn + 1]))
            && (s.turn + 1 == |s.order| <==> s.tail == Of(g))
    ensures s.turn + 1 < |s.order| ==>
              var h := s.order[s.turn + 1];
              && Exists(s, h) && h != s.order[s.turn]
              && (s.pcs[h].SetNext? || s.pcs[h].Spin?)
              && (s.pcs[h].SetNext? ==> s.pcs[h].ancestor == s.order[s.turn])
  {
    assert GuardInv(s, s.order[s.turn]);
    if s.turn + 1 < |s.order| { assert GuardInv(s, s.order[s.turn + 1]); }
  }

  lemma FrontMovesWithin(s: State)
    requires HandOver(s)
    requires var pc := s.pcs[s.order[s.turn]];
             pc.TestNext? || pc.LoadNext? || pc.TestNextAgain? || (pc.ClearTail? && s.turn + 1 < |s.order|)
    ensures var s' := StepOf(s, s.order[s.turn], false);
            && Inv(s')
            && Distance(s') <= Distance(s)
            && (Helper(s) == s.order[s.turn] ==> Distance(s') < Distance(s))
  {
    hide GuardInv, OrderInv;
    AtTheFront(s);
    var g := s.order[s.turn];
    StepKeeps(s, g, false);
    var s' := StepOf(s, g, false);
    assert s'.order == s.order && s'.turn == s.turn && (s.turn + 1 < |s.order| ==> Told(s', s.turn) == Told(s, s.turn));
  }

  lemma FrontMoves(s: State)
    requires HandOver(s)
    ensures var s' := StepOf(s, s.order[s.turn], false);
            && Inv(s')
            && Distance(s') <= Distance(s)
            && (Helper(s) == s.order[s.turn] ==> Distance(s') < Distance(s))
  {
    hide GuardInv, OrderInv;
    AtTheFront(s);
    var g := s.order[s.turn];
    var pc := s.pcs[g];
    if pc.TestNext? || pc.LoadNext? || pc.TestNextAgain? || (pc.ClearTail? && s.turn + 1 < |s.order|) {
      FrontMovesWithin(s);
    } else {
      StepKeeps(s, g, false);
    }
  }

  lemma HelperMoves(s: State)
    requires HandOver(s)
    ensures Exists(s, Helper(s)) && Inv(StepOf(s, Helper(s), false))
    ensures Distance(StepOf(s, Helper(s), false)) < Distance(s)
  {
    AtTheFront(s);
    if Helper(s) == s.order[s.turn] {
      FrontMoves(s);
    } else {
      StepKeeps(s, Helper(s), false);
      hide GuardInv;
    }
  }

  /** While the lock is wanted and nobody is in the critical section, some guard
      has a step that brings the next entry closer: at most six such steps are
      ever needed, and nobody waits for nothing. */
  lemma SomeoneCanMove(es: seq<Event>)
    requires HandOver(Run(Init(), es))
    ensures exists g :: g in Run(Init(), es).order && Closer(Run(Init(), es), g)
    ensures Distance(Run(Init(), es)) <= 6
  {
    var s := Run(Init(), es);
    HelperMoves(s);
    AtTheFront(s);
    assert Helper(s) in s.order && Closer(s, Helper(s));
  }

  ghost predicate Closer(s: State, g: GuardId)
    requires OrderInv(s)
  {
    Exists(s, g) && OrderInv(StepOf(s, g, false)) && Distance(StepOf(s, g, false)) < Distance(s)
  }

  /** And no step of any other guard moves the next entry further away, short of
      a new arrival, weak CAS failures aside. */
  lemma NoSetback(es: seq<Event>, g: GuardId)
    requires HandOver(Run(Init(), es)) && Exists(Run(Init(), es), g) && !Run(Init(), es).pcs[g].Created?
    ensures Inv(StepOf(Run(Init(), es), g, false))
    ensures Distance(StepOf(Run(Init(), es), g, false)) <= Distance(Run(Init(), es))
  {
    var s := Run(Init(), es);
    AtTheFront(s);
    if g == s.order[s.turn] { FrontMoves(s); } else { OtherMoves(s, g); }
  }

  lemma OthersDoNotOwn(s: State, g: GuardId)
    requires Inv(s) && Exists(s, g) && s.turn < |s.order| && g != s.order[s.turn]
    ensures !Owning(s.pcs[g]) && !s.pcs[g].SetSelfOwner? && (s.pcs[g].Spin? ==> !s.guards[g].isOwner)
  {
    assert GuardInv(s, g);
  }

  lemma OtherMoves(s: State, g: GuardId)
    requires HandOver(s) && Exists(s, g) && !s.pcs[g].Created? && g != s.order[s.turn]
    ensures Inv(StepOf(s, g, false)) && Distance(StepOf(s, g, false)) <= Distance(s)
  {
    hide OrderInv, GuardInv;
    AtTheFront(s);
    OthersDoNotOwn(s, g);
    StepKeeps(s, g, false);
    var s' := StepOf(s, g, false);
    assert s'.order == s.order && s'.turn == s.turn && s'.pcs[s.order[s.turn]] == s.pcs[s.order[s.turn]];
    assert Told(s, s.turn) ==> Told(s', s.turn);
  }
}
