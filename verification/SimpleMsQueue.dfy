/** The Michael-Scott queue of simple_ms_queue.h together with the hazard slot
    protocol of mutator.h, one atomic access per step. */
module SimpleMsQueue {
  import opened LockFree

  /** The optional<T> in a node: the dummy's is empty, and a popped node keeps
      a moved-from value. */
  datatype Cell = Nothing | Full(v: Value) | MovedFrom

  datatype Node = Node(value: Cell, next: Ptr)

  /** The shared memory, followed by history that no step reads back. */
  datatype Shared = Shared(
    nodes: seq<Node>,
    head: Ptr,
    tail: Ptr,
    hazard: map<Tid, Ptr>,
    // history
    owner: seq<Tid>,       // who allocated each node
    linked: seq<nat>,      // nodes in the order they were linked
    rank: map<nat, nat>,   // where each linked node sits in `linked`
    hpos: nat,             // how often head moved
    tpos: nat,             // how often tail moved
    claims: seq<Tid>,      // who made each move of head
    vals: seq<Value>,      // the values linked so far
    retired: set<nat>,     // nodes handed to Retire
    log: seq<Entry>)       // operations in the order they took effect

  /** Where a thread is, with its live locals. Each name says what the next
      step does. */
  datatype Pc =
    | Idle
    | Fault  // dereferenced a bad pointer or took a value twice
    | Push(node: Ptr, v: Value, push: PushAt)
    | Acquire(acquire: AcquireAt)  // Mutator::Acquire(&head), called by TryPop
    | Look(h: Ptr, look: LookAt)   // TryPop after Acquire returned h
    | Take(h: Ptr, take: TakeAt)   // TryPop after it moved head away from h

  datatype PushAt =
    | LoadTail
    | LoadNext(oldTail: Ptr)
    | HelpLoad(oldTail: Ptr)
    | HelpCas(oldTail: Ptr, next: Ptr)
    | LinkCas(oldTail: Ptr)
    | SwingTail(oldTail: Ptr)

  datatype AcquireAt = LoadHead | Protect(p: Ptr) | Validate(p: Ptr)

  datatype LookAt =
    | TestNext
    | GiveUp
    | TestTail
    | LagLoad
    | LagCas(next: Ptr)
    | HeadLoad
    | HeadCas(next: Ptr)

  datatype TakeAt = ReadNext | MoveOut(next: Ptr) | Release(v: Value) | Retire(v: Value)

  /** A thread: its counter, then history: what its calls returned, the shared
      measure when its current loop trip began, and how many trips failed. */
  datatype Local = Local(pc: Pc, returned: seq<Entry>, since: nat, retries: nat)

  datatype State = State(sh: Shared, threads: map<Tid, Local>)

  datatype Event =
    | Register(t: Tid)
    | BeginPush(t: Tid, v: Value)
    | BeginPop(t: Tid)
    | Step(t: Tid, weakFails: bool)  // weakFails: a weak CAS fails spuriously

  function Measure(sh: Shared): nat { |sh.linked| + sh.hpos + sh.tpos }

  predicate Deref(sh: Shared, p: Ptr) { p.At? && p.n < |sh.nodes| }

  function Next(sh: Shared, p: Ptr): Ptr
    requires Deref(sh, p)
  {
    sh.nodes[p.n].next
  }

  // ----- the steps -----

  function Init(): State {
    State(
      Shared([Node(Nothing, Null)], At(0), At(0), map[], [0], [0], map[0 := 0], 0, 0, [], [], {}, []),
      map[])
  }

  function MoveTail(sh: Shared, to: Ptr): Shared { sh.(tail := to, tpos := sh.tpos + 1) }

  function Link(sh: Shared, t: Tid, node: nat, v: Value, after: nat): Shared
    requires after < |sh.nodes|
  {
    sh.(nodes := sh.nodes[after := sh.nodes[after].(next := At(node))],
        linked := sh.linked + [node],
        rank := sh.rank[node := |sh.linked|],
        vals := sh.vals + [v],
        log := sh.log + [Enq(t, v)])
  }

  function MoveHead(sh: Shared, t: Tid, to: Ptr): Shared
    requires sh.hpos < |sh.vals|
  {
    sh.(head := to, hpos := sh.hpos + 1, claims := sh.claims + [t], log := sh.log + [Deq(t, sh.vals[sh.hpos])])
  }

  /** Back to the top of a loop; a trip lost only to a spurious failure is not counted. */
  function Again(sh: Shared, l: Local, pc: Pc, counted: bool): Local {
    l.(pc := pc, since := Measure(sh), retries := if counted then l.retries + 1 else l.retries)
  }

  function Return(l: Local, e: Entry): Local {
    l.(pc := Idle, returned := l.returned + [e])
  }

  /** One atomic access of a Push call. */
  function ActPush(sh: Shared, t: Tid, l: Local, weakFails: bool): (Shared, Local)
    requires l.pc.Push?
  {
    var Push(node, v, at) := l.pc;
    match at
    case LoadTail =>
      (sh, l.(pc := Push(node, v, LoadNext(sh.tail))))
    case LoadNext(ot) =>
      if !Deref(sh, ot) then (sh, l.(pc := Fault))
      else if Next(sh, ot) != Null then (sh, l.(pc := Push(node, v, HelpLoad(ot))))
      else (sh, l.(pc := Push(node, v, LinkCas(ot))))
    case HelpLoad(ot) =>
      if !Deref(sh, ot) then (sh, l.(pc := Fault))
      else (sh, l.(pc := Push(node, v, HelpCas(ot, Next(sh, ot)))))
    case HelpCas(ot, nx) =>
      if sh.tail == ot && !weakFails then
        var sh' := MoveTail(sh, nx);
        (sh', Again(sh', l, Push(node, v, LoadTail), true))
      else (sh, Again(sh, l, Push(node, v, LoadTail), sh.tail != ot))
    case LinkCas(ot) =>
      if !Deref(sh, ot) || !node.At? then (sh, l.(pc := Fault))
      else if Next(sh, ot) == Null && !weakFails then
        (Link(sh, t, node.n, v, ot.n), l.(pc := Push(node, v, SwingTail(ot))))
      else (sh, Again(sh, l, Push(node, v, LoadTail), Next(sh, ot) != Null))
    case SwingTail(ot) =>
      (if sh.tail == ot then MoveTail(sh, node) else sh, Return(l, Enq(t, v)))
  }

  /** One atomic access of Mutator::Acquire(&head). */
  function ActAcquire(sh: Shared, t: Tid, l: Local): (Shared, Local)
    requires l.pc.Acquire?
  {
    match l.pc.acquire
    case LoadHead => (sh, l.(pc := Acquire(Protect(sh.head))))
    case Protect(p) => (sh.(hazard := sh.hazard[t := p]), l.(pc := Acquire(Validate(p))))
    case Validate(p) =>
      if sh.head == p then (sh, l.(pc := Look(p, TestNext)))
      else (sh, Again(sh, l, Acquire(Protect(sh.head)), true))
  }

  /** One atomic access of TryPop between Acquire and the move of head. */
  function ActLook(sh: Shared, t: Tid, l: Local, weakFails: bool): (Shared, Local)
    requires l.pc.Look?
  {
    var Look(h, at) := l.pc;
    match at
    case TestNext =>
      if !Deref(sh, h) then (sh, l.(pc := Fault))
      else if Next(sh, h) == Null then (sh.(log := sh.log + [Empty(t)]), l.(pc := Look(h, GiveUp)))
      else (sh, l.(pc := Look(h, TestTail)))
    case GiveUp => (sh.(hazard := sh.hazard[t := Null]), Return(l, Empty(t)))
    case TestTail => (sh, l.(pc := Look(h, if h == sh.tail then LagLoad else HeadLoad)))
    case LagLoad =>
      if !Deref(sh, h) then (sh, l.(pc := Fault)) else (sh, l.(pc := Look(h, LagCas(Next(sh, h)))))
    case LagCas(nx) =>
      if sh.tail == h && !weakFails then
        var sh' := MoveTail(sh, nx);
        (sh', Again(sh', l, Acquire(LoadHead), true))
      else (sh, Again(sh, l, Acquire(LoadHead), sh.tail != h))
    case HeadLoad =>
      if !Deref(sh, h) then (sh, l.(pc := Fault)) else (sh, l.(pc := Look(h, HeadCas(Next(sh, h)))))
    case HeadCas(nx) =>
      if sh.head == h && !weakFails then
        if sh.hpos < |sh.vals| then (MoveHead(sh, t, nx), l.(pc := Take(h, ReadNext)))
        else (sh, l.(pc := Fault))
      else (sh, Again(sh, l, Acquire(LoadHead), sh.head != h))
  }

  /** One atomic access of TryPop after it moved head: take the value, release
      the hazard slot, retire the old dummy. */
  function ActTake(sh: Shared, t: Tid, l: Local): (Shared, Local)
    requires l.pc.Take?
  {
    var Take(h, at) := l.pc;
    match at
    case ReadNext =>
      if !Deref(sh, h) then (sh, l.(pc := Fault)) else (sh, l.(pc := Take(h, MoveOut(Next(sh, h)))))
    case MoveOut(nx) =>
      if !Deref(sh, nx) || !sh.nodes[nx.n].value.Full? then (sh, l.(pc := Fault))
      else
        (sh.(nodes := sh.nodes[nx.n := sh.nodes[nx.n].(value := MovedFrom)]),
         l.(pc := Take(h, Release(sh.nodes[nx.n].value.v))))
    case Release(v) => (sh.(hazard := sh.hazard[t := Null]), l.(pc := Take(h, Retire(v))))
    case Retire(v) =>
      if !h.At? then (sh, l.(pc := Fault))
      else (sh.(retired := sh.retired + {h.n}), Return(l, Deq(t, v)))
  }

  function Act(sh: Shared, t: Tid, l: Local, weakFails: bool): (Shared, Local) {
    match l.pc
    case Idle => (sh, l)
    case Fault => (sh, l)
    case Push(_, _, _) => ActPush(sh, t, l, weakFails)
    case Acquire(_) => ActAcquire(sh, t, l)
    case Look(_, _) => ActLook(sh, t, l, weakFails)
    case Take(_, _) => ActTake(sh, t, l)
  }

  /** An event that is not enabled changes nothing. */
  function Apply(s: State, e: Event): State {
    match e
    case Register(t) =>
      if t in s.threads then s
      else State(s.sh.(hazard := s.sh.hazard[t := Null]),
                 s.threads[t := Local(Idle, [], Measure(s.sh), 0)])
    case BeginPush(t, v) =>
      if t in s.threads && s.threads[t].pc.Idle? then
        State(s.sh.(nodes := s.sh.nodes + [Node(Full(v), Null)], owner := s.sh.owner + [t]),
              s.threads[t := s.threads[t].(pc := Push(At(|s.sh.nodes|), v, LoadTail), since := Measure(s.sh))])
      else s
    case BeginPop(t) =>
      if t in s.threads && s.threads[t].pc.Idle? then
        s.(threads := s.threads[t := s.threads[t].(pc := Acquire(LoadHead), since := Measure(s.sh))])
      else s
    case Step(t, w) =>
      if t in s.threads then
        var (sh, l) := Act(s.sh, t, s.threads[t], w);
        State(sh, s.threads[t := l])
      else s
  }

  function Run(s: State, es: seq<Event>): State
    decreases |es|
  {
    if es == [] then s else Run(Apply(s, es[0]), es[1..])
  }

  // ----- what every reachable state satisfies -----

  ghost predicate Linked(sh: Shared, p: Ptr) { p.At? && p.n in sh.rank }

  /** The chain from the first dummy: acyclic because every node has one rank. */
  ghost predicate ChainInv(sh: Shared) {
    && |sh.owner| == |sh.nodes|
    && 0 < |sh.linked|
    && (forall i :: 0 <= i < |sh.linked| ==>
          sh.linked[i] < |sh.nodes| && sh.linked[i] in sh.rank && sh.rank[sh.linked[i]] == i)
    && (forall x :: x in sh.rank ==> sh.rank[x] < |sh.linked| && sh.linked[sh.rank[x]] == x)
    && (forall i {:trigger sh.nodes[sh.linked[i]]} :: 0 <= i < |sh.linked| - 1 ==>
        sh.nodes[sh.linked[i]].next == At(sh.linked[i + 1]))
    && sh.nodes[sh.linked[|sh.linked| - 1]].next == Null
  }

  /** Head does not overtake tail, and tail is the last node or the one before. */
  ghost predicate EndsInv(sh: Shared) {
    && sh.hpos <= sh.tpos < |sh.linked| <= sh.tpos + 2
    && sh.head == At(sh.linked[sh.hpos])
    && sh.tail == At(sh.linked[sh.tpos])
  }

  /** The queued values are in the nodes after head, and the log is a legal
      sequential history that leaves exactly those values. */
  ghost predicate ContentInv(sh: Shared)
    requires ChainInv(sh)
  {
    && |sh.vals| == |sh.linked| - 1
    && |sh.claims| == sh.hpos
    && sh.hpos <= |sh.vals|
    && (forall i {:trigger sh.nodes[sh.linked[i]]} :: sh.hpos < i < |sh.linked| ==>
        sh.nodes[sh.linked[i]].value == Full(sh.vals[i - 1]))
    && Replay(sh.log) == Queue(sh.vals[sh.hpos..])
    && Pushed(sh.log) == sh.vals
    && (forall x {:trigger x in sh.retired} :: x in sh.retired ==> x in sh.rank && sh.rank[x] < sh.hpos)
  }

  ghost predicate SharedInv(sh: Shared) {
    && ChainInv(sh)
    && EndsInv(sh)
    && ContentInv(sh)
  }

  /** The operation of t that has taken effect but has not returned yet. */
  ghost function Pending(sh: Shared, t: Tid, pc: Pc): seq<Entry> {
    match pc
    case Push(_, v, SwingTail(_)) => [Enq(t, v)]
    case Look(_, GiveUp) => [Empty(t)]
    case Take(h, at) => if Claimed(sh, t, h) then [Deq(t, sh.vals[sh.rank[h.n]])] else []
    case _ => []
  }

  /** Thread t moved head away from h and has not retired it. */
  ghost predicate Claimed(sh: Shared, t: Tid, h: Ptr) {
    && Linked(sh, h)
    && sh.rank[h.n] < |sh.claims|
    && sh.rank[h.n] < |sh.vals|
    && sh.claims[sh.rank[h.n]] == t
    && h.n !in sh.retired
  }

  /** The value behind h is still there for t to take. */
  ghost predicate Takeable(sh: Shared, t: Tid, h: Ptr) {
    && Claimed(sh, t, h)
    && sh.rank[h.n] + 1 < |sh.linked|
    && sh.linked[sh.rank[h.n] + 1] < |sh.nodes|
    && sh.nodes[sh.linked[sh.rank[h.n] + 1]].value == Full(sh.vals[sh.rank[h.n]])
  }

  /** A node of t that no other thread can reach yet. */
  ghost predicate Private(sh: Shared, t: Tid, node: Ptr, v: Value) {
    && Deref(sh, node)
    && node.n < |sh.owner|
    && node.n !in sh.rank
    && sh.owner[node.n] == t
    && sh.nodes[node.n] == Node(Full(v), Null)
  }

  ghost predicate HasNext(sh: Shared, p: Ptr) { Deref(sh, p) && Next(sh, p) != Null }

  /** Tail still is ot, or the queue has changed since this trip began. */
  ghost predicate TailOr(sh: Shared, l: Local, ot: Ptr) {
    Linked(sh, ot) && sh.rank[ot.n] <= sh.tpos && (sh.tail == ot || l.since < Measure(sh))
  }

  ghost predicate HeadOr(sh: Shared, l: Local, h: Ptr) {
    Linked(sh, h) && sh.rank[h.n] <= sh.hpos && (sh.head == h || l.since < Measure(sh))
  }

  /** What a thread that is past Acquire and before Release protects. */
  function Held(pc: Pc): Ptr {
    match pc
    case Look(h, _) => h
    case Take(h, at) => if at.Retire? then Null else h
    case _ => Null
  }

  ghost predicate PushInv(sh: Shared, t: Tid, l: Local)
    requires l.pc.Push?
  {
    var Push(node, v, at) := l.pc;
    && (at.SwingTail? || Private(sh, t, node, v))
    && match at
       case LoadTail => true
       case LoadNext(ot) => TailOr(sh, l, ot)
       case HelpLoad(ot) => TailOr(sh, l, ot) && HasNext(sh, ot)
       case HelpCas(ot, nx) => TailOr(sh, l, ot) && HasNext(sh, ot) && Next(sh, ot) == nx
       case LinkCas(ot) =>
         Linked(sh, ot) && sh.rank[ot.n] <= sh.tpos && (HasNext(sh, ot) ==> l.since < Measure(sh))
       case SwingTail(ot) => Linked(sh, ot) && HasNext(sh, ot) && Next(sh, ot) == node
  }

  ghost predicate LookInv(sh: Shared, l: Local)
    requires l.pc.Look?
  {
    var Look(h, at) := l.pc;
    && HeadOr(sh, l, h)
    && (at.TestNext? || at.GiveUp? || HasNext(sh, h))
    && match at
       case LagLoad => TailOr(sh, l, h)
       case LagCas(nx) => TailOr(sh, l, h) && Next(sh, h) == nx
       case HeadLoad => sh.rank[h.n] < sh.tpos
       case HeadCas(nx) => sh.rank[h.n] < sh.tpos && Next(sh, h) == nx
       case _ => true
  }

  ghost predicate TakeInv(sh: Shared, t: Tid, l: Local)
    requires l.pc.Take?
  {
    var Take(h, at) := l.pc;
    && Claimed(sh, t, h)
    && match at
       case ReadNext => Takeable(sh, t, h)
       case MoveOut(nx) => Takeable(sh, t, h) && nx == At(sh.linked[sh.rank[h.n] + 1])
       case Release(v) => v == sh.vals[sh.rank[h.n]]
       case Retire(v) => v == sh.vals[sh.rank[h.n]]
  }

  ghost predicate PcInv(sh: Shared, t: Tid, l: Local) {
    match l.pc
    case Idle => true
    case Fault => false
    case Push(_, _, _) => PushInv(sh, t, l)
    case Acquire(at) => at.LoadHead? || HeadOr(sh, l, at.p)
    case Look(_, _) => LookInv(sh, l)
    case Take(_, _) => TakeInv(sh, t, l)
  }

  ghost predicate LocalInv(sh: Shared, t: Tid, l: Local) {
    && PcInv(sh, t, l)
    // what t has returned, plus at most the call in progress, is its part of the log
    && Of(sh.log, t) == l.returned + Pending(sh, t, l.pc)
    // each counted retry saw the measure grow
    && l.retries < l.since <= Measure(sh)
    // a validated pointer is in the hazard slot
    && t in sh.hazard
    && (Held(l.pc) != Null ==> sh.hazard[t] == Held(l.pc))
    && (l.pc.Acquire? && l.pc.acquire.Validate? ==> sh.hazard[t] == l.pc.acquire.p)
  }

  ghost predicate Inv(s: State) {
    && SharedInv(s.sh)
    && (forall t :: t in s.threads ==> LocalInv(s.sh, t, s.threads[t]))
  }

  // ----- what a step of t guarantees to the other threads -----

  /** Pointers only move forward and links are written once. */
  ghost predicate Forward(a: Shared, b: Shared) {
    && |a.nodes| <= |b.nodes|
    && a.owner <= b.owner
    && a.linked <= b.linked
    && a.hpos <= b.hpos
    && a.tpos <= b.tpos
    && a.claims <= b.claims
    && a.vals <= b.vals
    && a.log <= b.log
    && a.retired <= b.retired
    && (forall i {:trigger b.nodes[i]} {:trigger a.nodes[i]} :: 0 <= i < |a.nodes| && a.nodes[i].next != Null ==>
          b.nodes[i].next == a.nodes[i].next)
    && (forall x {:trigger x in a.rank} {:trigger a.rank[x]} :: x in a.rank ==> x in b.rank && b.rank[x] == a.rank[x])
  }

  ghost predicate Guarantees(a: Shared, b: Shared, t: Tid) {
    && Forward(a, b)
    && (a.head != b.head ==> Measure(a) < Measure(b))
    && (a.tail != b.tail ==> Measure(a) < Measure(b))
    && (forall i {:trigger b.nodes[i]} :: 0 <= i < |a.nodes| && a.nodes[i].next != b.nodes[i].next ==>
          Measure(a) < Measure(b))
    // nodes of others that are not linked stay as they are
    && (forall i {:trigger a.owner[i]} :: 0 <= i < |a.nodes| && i < |a.owner| && a.owner[i] != t && i !in a.rank ==>
          i !in b.rank && b.nodes[i] == a.nodes[i])
    // values claimed by others stay, and so do the nodes they hold
    && (forall i {:trigger a.claims[i]} ::
          0 <= i < |a.claims| && i + 1 < |a.linked| && a.claims[i] != t && a.linked[i + 1] < |a.nodes| ==>
          b.nodes[a.linked[i + 1]].value == a.nodes[a.linked[i + 1]].value)
    && (forall x {:trigger x in b.retired} ::
          x in b.retired && x !in a.retired && x in a.rank && a.rank[x] < |a.claims| ==> a.claims[a.rank[x]] == t)
    && (forall u :: u in a.hazard ==> u in b.hazard && (u != t ==> b.hazard[u] == a.hazard[u]))
    && (forall u :: u != t ==> Of(b.log, u) == Of(a.log, u))
  }

  lemma StablePrivate(a: Shared, b: Shared, t: Tid, u: Tid, node: Ptr, v: Value)
    requires u != t && Guarantees(a, b, t) && Private(a, u, node, v)
    ensures Private(b, u, node, v)
  {
  }

  lemma StableNext(a: Shared, b: Shared, t: Tid, p: Ptr)
    requires Guarantees(a, b, t) && HasNext(a, p)
    ensures HasNext(b, p) && Next(b, p) == Next(a, p)
  {
  }

  lemma StableClaim(a: Shared, b: Shared, t: Tid, u: Tid, h: Ptr)
    requires u != t && Guarantees(a, b, t) && Claimed(a, u, h)
    ensures Claimed(b, u, h) && b.rank[h.n] == a.rank[h.n] && b.vals[b.rank[h.n]] == a.vals[a.rank[h.n]]
    ensures Takeable(a, u, h) ==> Takeable(b, u, h) && b.linked[b.rank[h.n] + 1] == a.linked[a.rank[h.n] + 1]
  {
  }

  lemma StableLink(a: Shared, b: Shared, t: Tid, l: Local, p: Ptr)
    requires Guarantees(a, b, t) && SharedInv(a) && SharedInv(b) && l.since <= Measure(a) && Linked(a, p)
    ensures Linked(b, p) && b.rank[p.n] == a.rank[p.n]
    ensures TailOr(a, l, p) ==> TailOr(b, l, p)
    ensures HeadOr(a, l, p) ==> HeadOr(b, l, p)
    ensures HasNext(b, p) && !HasNext(a, p) ==> l.since < Measure(b)
    ensures l.since <= Measure(a) <= Measure(b)
  {
  }

  lemma StablePush(a: Shared, b: Shared, t: Tid, u: Tid, l: Local)
    requires u != t && Guarantees(a, b, t)
    requires SharedInv(a) && SharedInv(b) && l.since <= Measure(a)
    requires l.pc.Push? && PushInv(a, u, l)
    ensures PushInv(b, u, l)
  {
    if !l.pc.push.SwingTail? { StablePrivate(a, b, t, u, l.pc.node, l.pc.v); }
    if !l.pc.push.LoadTail? {
      StableLink(a, b, t, l, l.pc.push.oldTail);
      if HasNext(a, l.pc.push.oldTail) { StableNext(a, b, t, l.pc.push.oldTail); }
    }
  }

  lemma StableLook(a: Shared, b: Shared, t: Tid, u: Tid, l: Local)
    requires u != t && Guarantees(a, b, t)
    requires SharedInv(a) && SharedInv(b) && l.since <= Measure(a)
    requires l.pc.Look? && LookInv(a, l)
    ensures LookInv(b, l)
  {
    StableLink(a, b, t, l, l.pc.h);
    if HasNext(a, l.pc.h) { StableNext(a, b, t, l.pc.h); }
  }

  lemma Stable(a: Shared, b: Shared, t: Tid, u: Tid, l: Local)
    requires u != t && Guarantees(a, b, t)
    requires SharedInv(a) && SharedInv(b) && LocalInv(a, u, l)
    ensures LocalInv(b, u, l)
  {
    hide ChainInv, EndsInv, ContentInv, Of;
    match l.pc
    case Push(_, _, _) => StablePush(a, b, t, u, l);
    case Acquire(at) => if !at.LoadHead? { StableLink(a, b, t, l, at.p); }
    case Look(_, _) => StableLook(a, b, t, u, l);
    case Take(h, _) => StableClaim(a, b, t, u, h);
    case _ =>
  }

  // ----- each step keeps the invariant -----

  lemma ChainNext(sh: Shared, p: Ptr)
    requires ChainInv(sh) && Linked(sh, p)
    ensures Deref(sh, p) && sh.linked[sh.rank[p.n]] == p.n
    ensures Next(sh, p) == if sh.rank[p.n] == |sh.linked| - 1 then Null else At(sh.linked[sh.rank[p.n] + 1])
  {
    assert sh.linked[sh.rank[p.n]] == p.n;
  }

  lemma MoveTailKeeps(sh: Shared, t: Tid, ot: Ptr)
    requires SharedInv(sh) && HasNext(sh, ot) && sh.tail == ot
    ensures SharedInv(MoveTail(sh, Next(sh, ot)))
    ensures Guarantees(sh, MoveTail(sh, Next(sh, ot)), t)
    ensures Measure(MoveTail(sh, Next(sh, ot))) == Measure(sh) + 1
  {
  }

  lemma LogGrows(sh: Shared, e: Entry)
    requires Replay(sh.log).Queue?
    ensures Pushed(sh.log + [e]) == if e.Enq? then Pushed(sh.log) + [e.v] else Pushed(sh.log)
    ensures Of(sh.log + [e], e.who) == Of(sh.log, e.who) + [e]
    ensures forall u :: u != e.who ==> Of(sh.log + [e], u) == Of(sh.log, u)
    ensures var q := Replay(sh.log).items;
            && (e.Enq? ==> Replay(sh.log + [e]) == Queue(q + [e.v]))
            && (e.Deq? && q != [] && q[0] == e.v ==> Replay(sh.log + [e]) == Queue(q[1..]))
            && (e.Empty? && q == [] ==> Replay(sh.log + [e]) == Queue(q))
  {
    ReplaySnoc(sh.log, e);
    assert (sh.log + [e])[..|sh.log|] == sh.log;
    forall u ensures Of(sh.log + [e], u) == if u == e.who then Of(sh.log, u) + [e] else Of(sh.log, u) {
      OfSnoc(sh.log, e, u);
    }
  }

  lemma LinkKeepsChain(sh: Shared, t: Tid, node: Ptr, v: Value, ot: Ptr)
    requires ChainInv(sh) && EndsInv(sh) && Private(sh, t, node, v)
    requires Linked(sh, ot) && Deref(sh, ot) && Next(sh, ot) == Null && sh.rank[ot.n] <= sh.tpos
    ensures var b := Link(sh, t, node.n, v, ot.n); ChainInv(b) && EndsInv(b)
  {
    var b := Link(sh, t, node.n, v, ot.n);
    ChainNext(sh, ot);
    forall i | 0 <= i < |b.linked| - 1 ensures b.nodes[b.linked[i]].next == At(b.linked[i + 1]) {
      if i < |sh.linked| - 1 { assert sh.nodes[sh.linked[i]].next == At(sh.linked[i + 1]); }
    }
  }

  lemma LinkKeepsValues(sh: Shared, t: Tid, node: Ptr, v: Value, ot: Ptr, i: nat)
    requires ChainInv(sh) && ContentInv(sh) && Private(sh, t, node, v) && Linked(sh, ot) && Deref(sh, ot)
    requires sh.hpos < i <= |sh.linked|
    ensures var b := Link(sh, t, node.n, v, ot.n);
            (if i < |sh.linked| then sh.linked[i] else node.n) < |b.nodes|
            && b.nodes[if i < |sh.linked| then sh.linked[i] else node.n].value == Full(b.vals[i - 1])
  {
    hide Replay, Pushed;
    if i < |sh.linked| { assert sh.nodes[sh.linked[i]].value == Full(sh.vals[i - 1]); }
  }

  lemma AreNodes(sh: Shared)
    requires ChainInv(sh)
    ensures forall i :: 0 <= i < |sh.linked| ==> sh.linked[i] < |sh.nodes|
  {
  }

  lemma SuffixGrows<T>(s: seq<T>, k: nat, x: T)
    requires k <= |s|
    ensures (s + [x])[k..] == s[k..] + [x]
  {
  }

  lemma LinkKeepsContent(sh: Shared, t: Tid, node: Ptr, v: Value, ot: Ptr)
    requires SharedInv(sh) && Private(sh, t, node, v)
    requires Linked(sh, ot) && Deref(sh, ot) && Next(sh, ot) == Null && sh.rank[ot.n] <= sh.tpos
    requires ChainInv(Link(sh, t, node.n, v, ot.n))
    ensures ContentInv(Link(sh, t, node.n, v, ot.n))
  {
    hide Replay, Pushed, Of, ChainInv, EndsInv;
    var b := Link(sh, t, node.n, v, ot.n);
    LogGrows(sh, Enq(t, v));
    SuffixGrows(sh.vals, sh.hpos, v);
    AreNodes(b);
    forall i | b.hpos < i < |b.linked| ensures b.nodes[b.linked[i]].value == Full(b.vals[i - 1]) {
      LinkKeepsValues(sh, t, node, v, ot, i);
    }
  }

  lemma LinkGuarantees(sh: Shared, t: Tid, node: Ptr, v: Value, ot: Ptr)
    requires Private(sh, t, node, v) && Deref(sh, ot) && Next(sh, ot) == Null
    requires forall u :: u != t ==> Of(sh.log + [Enq(t, v)], u) == Of(sh.log, u)
    requires ot.n in sh.rank && sh.rank[ot.n] < |sh.linked|
    ensures Guarantees(sh, Link(sh, t, node.n, v, ot.n), t)
  {
    hide Of;
  }

  lemma LogIsLegal(sh: Shared)
    requires SharedInv(sh)
    ensures Replay(sh.log).Queue?
  {
  }

  lemma LinkKeeps(sh: Shared, t: Tid, node: Ptr, v: Value, ot: Ptr)
    requires SharedInv(sh) && Private(sh, t, node, v)
    requires Linked(sh, ot) && Deref(sh, ot) && Next(sh, ot) == Null && sh.rank[ot.n] <= sh.tpos
    ensures var b := Link(sh, t, node.n, v, ot.n);
            SharedInv(b) && Guarantees(sh, b, t) && Linked(b, ot) && HasNext(b, ot) && Next(b, ot) == node
            && Of(b.log, t) == Of(sh.log, t) + [Enq(t, v)]
            && Measure(b) == Measure(sh) + 1
  {
    hide ChainInv, EndsInv, ContentInv, Of, Guarantees, Replay, Pushed;
    LinkKeepsChain(sh, t, node, v, ot);
    LinkKeepsContent(sh, t, node, v, ot);
    LogIsLegal(sh);
    LogGrows(sh, Enq(t, v));
    EndsLinked(sh);
    LinkGuarantees(sh, t, node, v, ot);
  }

  /** Head goes one link on and stays behind tail; the value behind the old dummy is
      then t's to take. */
  lemma MoveHeadShape(sh: Shared, t: Tid, h: Ptr)
    requires SharedInv(sh) && HasNext(sh, h) && sh.head == h && sh.rank[h.n] < sh.tpos
    ensures sh.hpos < |sh.vals| && h.n in sh.rank && sh.rank[h.n] == sh.hpos < sh.tpos
    ensures var b := MoveHead(sh, t, Next(sh, h)); ChainInv(b) && EndsInv(b) && Takeable(b, t, h)
  {
    hide Replay, Pushed;
    ChainNext(sh, h);
    assert sh.nodes[sh.linked[sh.hpos + 1]].value == Full(sh.vals[sh.hpos]);
  }

  lemma MoveHeadContent(sh: Shared, t: Tid, to: Ptr)
    requires SharedInv(sh) && sh.hpos < sh.tpos && sh.hpos < |sh.vals|
    ensures var b := MoveHead(sh, t, to);
            ContentInv(b) && Of(b.log, t) == Of(sh.log, t) + [Deq(t, sh.vals[sh.hpos])]
            && forall u :: u != t ==> Of(b.log, u) == Of(sh.log, u)
  {
    LogGrows(sh, Deq(t, sh.vals[sh.hpos]));
    hide Replay, Pushed, Of;
    assert sh.vals[sh.hpos + 1..] == sh.vals[sh.hpos..][1..];
  }

  lemma MoveHeadGuarantees(sh: Shared, t: Tid, to: Ptr)
    requires sh.hpos < |sh.vals|
    requires forall u :: u != t ==> Of(MoveHead(sh, t, to).log, u) == Of(sh.log, u)
    ensures Guarantees(sh, MoveHead(sh, t, to), t)
  {
    hide Of;
  }

  lemma MoveHeadKeeps(sh: Shared, t: Tid, h: Ptr)
    requires SharedInv(sh) && HasNext(sh, h) && sh.head == h && sh.rank[h.n] < sh.tpos
    ensures sh.hpos < |sh.vals|
    ensures var b := MoveHead(sh, t, Next(sh, h));
            SharedInv(b) && Guarantees(sh, b, t) && Takeable(b, t, h)
            && Of(b.log, t) == Of(sh.log, t) + [Deq(t, b.vals[b.rank[h.n]])]
            && Measure(b) == Measure(sh) + 1
  {
    MoveHeadShape(sh, t, h);
    MoveHeadContent(sh, t, Next(sh, h));
    hide Replay, Pushed, Of, ChainInv, EndsInv, ContentInv, Guarantees, Takeable;
    MoveHeadGuarantees(sh, t, Next(sh, h));
  }

  /** An empty answer is true at the load that finds no successor: head cannot
      have left a node without a successor. */
  lemma EmptyKeeps(sh: Shared, t: Tid, h: Ptr)
    requires SharedInv(sh) && Linked(sh, h) && Deref(sh, h) && Next(sh, h) == Null && sh.rank[h.n] <= sh.hpos
    ensures sh.vals[sh.hpos..] == []
    ensures var b := sh.(log := sh.log + [Empty(t)]);
            SharedInv(b) && Guarantees(sh, b, t) && Of(b.log, t) == Of(sh.log, t) + [Empty(t)]
  {
    ChainNext(sh, h);
    LogGrows(sh, Empty(t));
  }

  lemma TakeGuarantees(sh: Shared, t: Tid, h: Ptr, n: nat)
    requires ChainInv(sh) && Takeable(sh, t, h) && n == sh.linked[sh.rank[h.n] + 1]
    ensures Guarantees(sh, sh.(nodes := sh.nodes[n := sh.nodes[n].(value := MovedFrom)]), t)
  {
    hide Of;
    var b := sh.(nodes := sh.nodes[n := sh.nodes[n].(value := MovedFrom)]);
    forall i | 0 <= i < |sh.claims| && i + 1 < |sh.linked| && sh.claims[i] != t
      ensures b.nodes[sh.linked[i + 1]].value == sh.nodes[sh.linked[i + 1]].value
    {
      assert sh.rank[sh.linked[i + 1]] == i + 1;
    }
  }

  lemma TakeKeeps(sh: Shared, t: Tid, h: Ptr, n: nat)
    requires SharedInv(sh) && Takeable(sh, t, h) && n == sh.linked[sh.rank[h.n] + 1]
    ensures var b := sh.(nodes := sh.nodes[n := sh.nodes[n].(value := MovedFrom)]);
            SharedInv(b) && Guarantees(sh, b, t)
  {
    hide Replay, Pushed, Of, Guarantees;
    TakeGuarantees(sh, t, h, n);
    forall i | sh.hpos < i < |sh.linked| ensures sh.linked[i] != n {
      assert sh.rank[n] <= sh.hpos;
    }
  }

  /** What the outcome r of a step of t from sh owes to t and to the others. */
  ghost predicate Keeps(sh: Shared, t: Tid, r: (Shared, Local)) {
    SharedInv(r.0) && Guarantees(sh, r.0, t) && LocalInv(r.0, t, r.1)
  }

  lemma EndsLinked(sh: Shared)
    requires SharedInv(sh)
    ensures 0 < Measure(sh)
    ensures Linked(sh, sh.head) && sh.rank[sh.head.n] == sh.hpos
    ensures Linked(sh, sh.tail) && sh.rank[sh.tail.n] == sh.tpos
    ensures sh.hpos <= sh.tpos < |sh.linked|
    ensures forall p :: Linked(sh, p) && sh.rank[p.n] == sh.hpos ==> p == sh.head
    ensures forall p :: Linked(sh, p) && sh.rank[p.n] == sh.tpos ==> p == sh.tail
  {
  }

  lemma OnlyHazard(sh: Shared, t: Tid, p: Ptr)
    requires SharedInv(sh)
    ensures var b := sh.(hazard := sh.hazard[t := p]); SharedInv(b) && Guarantees(sh, b, t)
  {
  }

  lemma RetireKeeps(sh: Shared, t: Tid, h: Ptr)
    requires SharedInv(sh) && Claimed(sh, t, h)
    ensures var b := sh.(retired := sh.retired + {h.n}); SharedInv(b) && Guarantees(sh, b, t)
  {
  }

  lemma NothingShared(sh: Shared, t: Tid)
    ensures Guarantees(sh, sh, t)
  {
  }

  lemma PushLinkKeeps(sh: Shared, t: Tid, l: Local, weakFails: bool)
    requires SharedInv(sh) && LocalInv(sh, t, l) && l.pc.Push? && l.pc.push.LinkCas?
    ensures Keeps(sh, t, ActPush(sh, t, l, weakFails))
  {
    hide ChainInv, EndsInv, ContentInv, Guarantees, Of;
    var ot := l.pc.push.oldTail;
    ChainNext(sh, ot);
    if Next(sh, ot) == Null && !weakFails { LinkKeeps(sh, t, l.pc.node, l.pc.v, ot); } else { NothingShared(sh, t); }
  }

  lemma PushTailKeeps(sh: Shared, t: Tid, l: Local, weakFails: bool)
    requires SharedInv(sh) && LocalInv(sh, t, l) && l.pc.Push? && (l.pc.push.HelpCas? || l.pc.push.SwingTail?)
    ensures Keeps(sh, t, ActPush(sh, t, l, weakFails))
  {
    hide ChainInv, EndsInv, ContentInv, Guarantees, Of;
    if sh.tail == l.pc.push.oldTail { MoveTailKeeps(sh, t, l.pc.push.oldTail); }
    NothingShared(sh, t);
  }

  lemma PushKeeps(sh: Shared, t: Tid, l: Local, weakFails: bool)
    requires SharedInv(sh) && LocalInv(sh, t, l) && l.pc.Push?
    ensures Keeps(sh, t, ActPush(sh, t, l, weakFails))
  {
    hide ChainInv, EndsInv, ContentInv, Guarantees, Of;
    if l.pc.push.LinkCas? {
      PushLinkKeeps(sh, t, l, weakFails);
    } else if l.pc.push.HelpCas? || l.pc.push.SwingTail? {
      PushTailKeeps(sh, t, l, weakFails);
    } else {
      NothingShared(sh, t);
      EndsLinked(sh);
      if !l.pc.push.LoadTail? { ChainNext(sh, l.pc.push.oldTail); }
    }
  }

  lemma AcquireKeeps(sh: Shared, t: Tid, l: Local)
    requires SharedInv(sh) && LocalInv(sh, t, l) && l.pc.Acquire?
    ensures Keeps(sh, t, ActAcquire(sh, t, l))
  {
    hide ChainInv, EndsInv, ContentInv, Guarantees, Of;
    EndsLinked(sh);
    if l.pc.acquire.Protect? { OnlyHazard(sh, t, l.pc.acquire.p); } else { NothingShared(sh, t); }
  }

  lemma LookReadKeeps(sh: Shared, t: Tid, l: Local, weakFails: bool)
    requires SharedInv(sh) && LocalInv(sh, t, l) && l.pc.Look? && !l.pc.look.LagCas? && !l.pc.look.HeadCas?
    ensures Keeps(sh, t, ActLook(sh, t, l, weakFails))
  {
    hide ChainInv, EndsInv, ContentInv, Guarantees, Of;
    var h := l.pc.h;
    ChainNext(sh, h);
    EndsLinked(sh);
    if l.pc.look.TestNext? && Next(sh, h) == Null {
      EmptyKeeps(sh, t, h);
    } else if l.pc.look.GiveUp? {
      OnlyHazard(sh, t, Null);
    } else {
      NothingShared(sh, t);
    }
  }

  lemma LookCasKeeps(sh: Shared, t: Tid, l: Local, weakFails: bool)
    requires SharedInv(sh) && LocalInv(sh, t, l) && l.pc.Look? && (l.pc.look.LagCas? || l.pc.look.HeadCas?)
    ensures Keeps(sh, t, ActLook(sh, t, l, weakFails))
  {
    hide ChainInv, EndsInv, ContentInv, Guarantees, Of;
    var h := l.pc.h;
    if l.pc.look.LagCas? && sh.tail == h && !weakFails {
      MoveTailKeeps(sh, t, h);
    } else if l.pc.look.HeadCas? && sh.head == h && !weakFails {
      MoveHeadKeeps(sh, t, h);
    } else {
      NothingShared(sh, t);
    }
  }

  lemma TakeStepKeeps(sh: Shared, t: Tid, l: Local)
    requires SharedInv(sh) && LocalInv(sh, t, l) && l.pc.Take?
    ensures Keeps(sh, t, ActTake(sh, t, l))
  {
    hide ChainInv, EndsInv, ContentInv, Guarantees, Of;
    var h := l.pc.h;
    match l.pc.take
    case ReadNext => ChainNext(sh, h); NothingShared(sh, t);
    case MoveOut(nx) => TakeKeeps(sh, t, h, nx.n);
    case Release(v) => OnlyHazard(sh, t, Null);
    case Retire(v) => RetireKeeps(sh, t, h);
  }

  lemma ActKeeps(sh: Shared, t: Tid, l: Local, weakFails: bool)
    requires SharedInv(sh) && LocalInv(sh, t, l)
    ensures Keeps(sh, t, Act(sh, t, l, weakFails))
  {
    match l.pc
    case Push(_, _, _) => PushKeeps(sh, t, l, weakFails);
    case Acquire(_) => AcquireKeeps(sh, t, l);
    case Look(_, look) =>
      if look.LagCas? || look.HeadCas? {
        LookCasKeeps(sh, t, l, weakFails);
      } else {
        LookReadKeeps(sh, t, l, weakFails);
      }
    case Take(_, _) => TakeStepKeeps(sh, t, l);
    case Idle => NothingShared(sh, t);
    case Fault =>
  }

  lemma AllocKeeps(sh: Shared, t: Tid, v: Value)
    requires SharedInv(sh)
    ensures var b := sh.(nodes := sh.nodes + [Node(Full(v), Null)], owner := sh.owner + [t]);
            SharedInv(b) && Guarantees(sh, b, t) && Private(b, t, At(|sh.nodes|), v)
  {
  }

  /** The log of a thread that never ran is empty. */
  ghost predicate StrangersInv(s: State) {
    forall t :: t !in s.threads ==> Of(s.sh.log, t) == []
  }

  /** A transition in which only t moved keeps the whole invariant. */
  lemma OnlyOneMoved(s: State, s': State, t: Tid)
    requires Inv(s) && StrangersInv(s) && SharedInv(s'.sh) && Guarantees(s.sh, s'.sh, t)
    requires s'.threads.Keys == s.threads.Keys + {t}
    requires forall u :: u in s.threads && u != t ==> s'.threads[u] == s.threads[u]
    requires LocalInv(s'.sh, t, s'.threads[t])
    ensures Inv(s') && StrangersInv(s')
  {
    hide ChainInv, EndsInv, ContentInv, Forward, Of;
    forall u | u in s'.threads ensures LocalInv(s'.sh, u, s'.threads[u]) {
      if u != t { Stable(s.sh, s'.sh, t, u, s.threads[u]); }
    }
  }

  lemma BeginKeeps(s: State, e: Event)
    requires Inv(s) && StrangersInv(s) && !e.Step?
    ensures Inv(Apply(s, e)) && StrangersInv(Apply(s, e)) && Guarantees(s.sh, Apply(s, e).sh, e.t)
  {
    hide ChainInv, EndsInv, ContentInv, Guarantees, Of;
    var s' := Apply(s, e);
    NothingShared(s.sh, e.t);
    EndsLinked(s.sh);
    if s' != s {
      if e.Register? {
        OnlyHazard(s.sh, e.t, Null);
      } else if e.BeginPush? {
        AllocKeeps(s.sh, e.t, e.v);
        MeasureGrows(s.sh, s'.sh, e.t);
      }
      OnlyOneMoved(s, s', e.t);
    }
  }

  lemma MeasureGrows(a: Shared, b: Shared, t: Tid)
    requires Guarantees(a, b, t)
    ensures Measure(a) <= Measure(b)
  {
  }

  lemma StepKeeps(s: State, t: Tid, w: bool)
    requires Inv(s) && StrangersInv(s) && t in s.threads
    ensures Inv(Apply(s, Step(t, w))) && StrangersInv(Apply(s, Step(t, w)))
    ensures Guarantees(s.sh, Apply(s, Step(t, w)).sh, t)
  {
    hide SharedInv, Guarantees, LocalInv, Of, Act, StrangersInv;
    ActKeeps(s.sh, t, s.threads[t], w);
    OnlyOneMoved(s, Apply(s, Step(t, w)), t);
  }

  lemma ApplyKeeps(s: State, e: Event)
    requires Inv(s) && StrangersInv(s)
    ensures Inv(Apply(s, e)) && StrangersInv(Apply(s, e)) && Guarantees(s.sh, Apply(s, e).sh, e.t)
  {
    hide SharedInv, Guarantees, LocalInv, Of, Act, StrangersInv, Inv;
    if !e.Step? {
      BeginKeeps(s, e);
    } else if e.t in s.threads {
      StepKeeps(s, e.t, e.weakFails);
    } else {
      NothingShared(s.sh, e.t);
    }
  }

  lemma {:induction false} RunKeeps(s: State, es: seq<Event>)
    requires Inv(s) && StrangersInv(s)
    ensures Inv(Run(s, es)) && StrangersInv(Run(s, es)) && Forward(s.sh, Run(s, es).sh)
    decreases |es|
  {
    if es != [] {
      ApplyKeeps(s, es[0]);
      RunKeeps(Apply(s, es[0]), es[1..]);
    }
  }

  lemma InitKeeps()
    ensures Inv(Init()) && StrangersInv(Init())
  {
  }

  // ----- the results -----

  /** Entry e answers the call that t is executing. */
  predicate CallOf(pc: Pc, t: Tid, e: Entry) {
    match pc
    case Idle => false
    case Fault => false
    case Push(_, v, _) => e == Enq(t, v)
    case _ => e.who == t && !e.Enq?
  }

  /** Every interleaving of any number of calls refines an atomic FIFO queue:
      the log is a legal history of a sequential queue, and each thread's part
      of it is what its calls returned plus at most the call in progress. Since
      the log only grows (OnlyForward), a call's entry lies between its start
      and its return, so the log is a linearization. */
  lemma Linearizable(es: seq<Event>)
    ensures var s := Run(Init(), es);
            && Replay(s.sh.log).Queue?
            && forall t :: t in s.threads ==>
                 || Of(s.sh.log, t) == s.threads[t].returned
                 || (exists e :: Of(s.sh.log, t) == s.threads[t].returned + [e] && CallOf(s.threads[t].pc, t, e))
  {
    InitKeeps();
    RunKeeps(Init(), es);
    var s := Run(Init(), es);
    hide ChainInv, EndsInv, Of;
    forall t | t in s.threads
      ensures Of(s.sh.log, t) == s.threads[t].returned
              || (exists e :: Of(s.sh.log, t) == s.threads[t].returned + [e] && CallOf(s.threads[t].pc, t, e))
    {
      assert LocalInv(s.sh, t, s.threads[t]);
    }
  }

  /** Values leave in the order they were linked, each to one caller. */
  lemma FirstInFirstOut(es: seq<Event>)
    ensures var s := Run(Init(), es);
            && Pushed(s.sh.log) == s.sh.vals
            && s.sh.hpos <= |s.sh.vals|
            && Popped(s.sh.log) == s.sh.vals[..s.sh.hpos]
  {
    InitKeeps();
    RunKeeps(Init(), es);
    var sh := Run(Init(), es).sh;
    LegalLogsAreFifo(sh.log);
    assert sh.vals == sh.vals[..sh.hpos] + sh.vals[sh.hpos..];
  }

  /** The values met by following next pointers from p. */
  ghost function Walk(nodes: seq<Node>, p: Ptr, steps: nat): seq<Cell>
    decreases steps
  {
    if steps == 0 || p == Null || |nodes| <= p.n then []
    else [nodes[p.n].value] + Walk(nodes, nodes[p.n].next, steps - 1)
  }

  lemma {:induction false} WalkFrom(sh: Shared, i: nat, steps: nat)
    requires SharedInv(sh) && sh.hpos < i <= |sh.linked| && |sh.linked| - i <= steps
    ensures var p := if i == |sh.linked| then Null else At(sh.linked[i]);
            Walk(sh.nodes, p, steps) ==
            seq(|sh.linked| - i, k requires 0 <= k < |sh.linked| - i => Full(sh.vals[i - 1 + k]))
    decreases |sh.linked| - i
  {
    if i < |sh.linked| {
      ChainNext(sh, At(sh.linked[i]));
      assert sh.nodes[sh.linked[i]].value == Full(sh.vals[i - 1]);
      WalkFrom(sh, i + 1, steps - 1);
    }
  }

  /** The memory holds the abstract queue: following next from head's node
      meets exactly the values the sequential queue holds, in its order. */
  lemma MemoryHoldsTheQueue(es: seq<Event>, steps: nat)
    requires |Run(Init(), es).sh.linked| <= steps
    ensures var sh := Run(Init(), es).sh;
            && Deref(sh, sh.head)
            && Replay(sh.log).Queue?
            && var q := Replay(sh.log).items;
               Walk(sh.nodes, Next(sh, sh.head), steps) == seq(|q|, k requires 0 <= k < |q| => Full(q[k]))
  {
    InitKeeps();
    RunKeeps(Init(), es);
    var sh := Run(Init(), es).sh;
    EndsLinked(sh);
    ChainNext(sh, sh.head);
    WalkFrom(sh, sh.hpos + 1, steps);
  }

  /** The chain is acyclic, head reaches tail, tail is the last node or the one
      before it, and no thread ever follows a null pointer or takes a value twice. */
  lemma ChainShape(es: seq<Event>)
    ensures var s := Run(Init(), es);
            && (forall i, j :: 0 <= i < j < |s.sh.linked| ==> s.sh.linked[i] != s.sh.linked[j])
            && EndsInv(s.sh)
            && ChainInv(s.sh)
            && (forall t :: t in s.threads ==> !s.threads[t].pc.Fault?)
  {
    InitKeeps();
    RunKeeps(Init(), es);
    var s := Run(Init(), es);
    forall t | t in s.threads ensures !s.threads[t].pc.Fault? {
      assert LocalInv(s.sh, t, s.threads[t]);
    }
  }

  lemma {:induction false} RunSplits(s: State, es: seq<Event>, fs: seq<Event>)
    ensures Run(s, es + fs) == Run(Run(s, es), fs)
    decreases |es|
  {
    if es == [] {
      assert es + fs == fs;
    } else {
      assert (es + fs)[1..] == es[1..] + fs;
      RunSplits(Apply(s, es[0]), es[1..], fs);
    }
  }

  /** From any reachable state on, head and tail only move forward, the chain
      and the log only grow, and a next pointer once set never changes. */
  lemma OnlyForward(es: seq<Event>, fs: seq<Event>)
    ensures Forward(Run(Init(), es).sh, Run(Init(), es + fs).sh)
  {
    InitKeeps();
    RunKeeps(Init(), es);
    RunSplits(Init(), es, fs);
    RunKeeps(Run(Init(), es), fs);
  }

  /** When Push returns, tail has reached its node, whoever moved it. */
  lemma TailReachesThePush(es: seq<Event>, t: Tid, w: bool)
    requires var s := Run(Init(), es); t in s.threads && s.threads[t].pc.Push? && s.threads[t].pc.push.SwingTail?
    ensures var s, s' := Run(Init(), es), Apply(Run(Init(), es), Step(t, w));
            var node := s.threads[t].pc.node;
            && t in s'.threads && s'.threads[t].pc.Idle? && Linked(s'.sh, node) && s'.sh.rank[node.n] <= s'.sh.tpos
  {
    hide Run, SharedInv, Act;
    InitKeeps();
    RunKeeps(Init(), es);
    var s := Run(Init(), es);
    assert LocalInv(s.sh, t, s.threads[t]);
    hide LocalInv;
    TailAfterSwing(s.sh, t, s.threads[t], w);
  }

  lemma TailAfterSwing(sh: Shared, t: Tid, l: Local, w: bool)
    requires SharedInv(sh) && LocalInv(sh, t, l) && l.pc.Push? && l.pc.push.SwingTail?
    ensures var (sh', l') := Act(sh, t, l, w);
            l'.pc.Idle? && Linked(sh', l.pc.node) && sh'.rank[l.pc.node.n] <= sh'.tpos
  {
    hide ContentInv, Of;
    ChainNext(sh, l.pc.push.oldTail);
  }

  /** Lock freedom as a bound: with m values linked in total, no thread ever
      makes more than 3m failed loop trips, in all its Push, TryPop and Acquire
      loops together, not counting spurious failures of a weak CAS. */
  lemma RetriesBounded(es: seq<Event>, t: Tid)
    requires t in Run(Init(), es).threads
    ensures var s := Run(Init(), es); s.threads[t].retries <= 3 * |Pushed(s.sh.log)|
  {
    InitKeeps();
    RunKeeps(Init(), es);
    var s := Run(Init(), es);
    assert LocalInv(s.sh, t, s.threads[t]);
  }

  /** Where operations take effect: Push at the successful CAS on next, TryPop
      at the successful CAS on head, an empty answer at the load of a null
      next, which finds the queue empty. No other step touches the log. */
  lemma EffectPoints(es: seq<Event>, e: Event)
    ensures var s, s' := Run(Init(), es), Apply(Run(Init(), es), e);
            var before, after := Replay(s.sh.log), Replay(s'.sh.log);
            before.Queue? && after.Queue? &&
            (s'.sh.log == s.sh.log ||
             (e.Step? && e.t in s.threads &&
              match s.threads[e.t].pc
              case Push(node, v, LinkCas(ot)) =>
                HasNext(s'.sh, ot) && Next(s'.sh, ot) == node && after.items == before.items + [v]
              case Look(h, HeadCas(nx)) =>
                s.sh.head == h && s'.sh.head == nx && before.items != [] && after.items == before.items[1..]
              case Look(h, TestNext) =>
                before.items == [] && after.items == [] && s'.threads[e.t].pc == Look(h, GiveUp)
              case _ => false))
  {
    InitKeeps();
    RunKeeps(Init(), es);
    var s := Run(Init(), es);
    var s' := Apply(s, e);
    ApplyKeeps(s, e);
    if s'.sh.log != s.sh.log {
      assert LocalInv(s.sh, e.t, s.threads[e.t]);
      EffectsOf(s.sh, e.t, s.threads[e.t], e.weakFails);
    }
  }

  lemma EffectsOf(sh: Shared, t: Tid, l: Local, w: bool)
    requires SharedInv(sh) && LocalInv(sh, t, l) && Act(sh, t, l, w).0.log != sh.log
    ensures var sh' := Act(sh, t, l, w).0;
            var before, after := Replay(sh.log), Replay(sh'.log);
            before.Queue? && after.Queue? &&
            match l.pc
            case Push(node, v, LinkCas(ot)) =>
              HasNext(sh', ot) && Next(sh', ot) == node && after.items == before.items + [v]
            case Look(h, HeadCas(nx)) =>
              sh.head == h && sh'.head == nx && before.items != [] && after.items == before.items[1..]
            case Look(h, TestNext) =>
              before.items == [] && after.items == [] && Act(sh, t, l, w).1.pc == Look(h, GiveUp)
            case _ => false
  {
    hide ChainInv, EndsInv, Of, Guarantees;
    match l.pc
    case Push(node, v, LinkCas(ot)) => ChainNext(sh, ot); LinkKeeps(sh, t, node, v, ot); LogGrows(sh, Enq(t, v));
    case Look(h, HeadCas(nx)) => ChainNext(sh, h); MoveHeadKeeps(sh, t, h); LogGrows(sh, Deq(t, sh.vals[sh.hpos]));
    case Look(h, TestNext) => ChainNext(sh, h); EmptyKeeps(sh, t, h); LogGrows(sh, Empty(t));
    case _ =>
  }
}
