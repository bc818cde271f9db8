/** The counted-pointer Michael-Scott queue of classic_ms_queue.h, one atomic
    access per step. Nodes are neither freed nor used again here. */
module ClassicMsQueue {
  import opened LockFree

  /** A pointer and its modification count, read and written together. */
  datatype Counted = Counted(ptr: Ptr, count: nat)

  const NONE: Counted := Counted(Null, 0)

  /** The dummy holds a default value that is never taken. */
  datatype Cell = Default | Full(v: Value)

  datatype Node = Node(value: Cell, next: Counted)

  /** The shared memory, followed by history that no step reads back. */
  datatype Shared = Shared(
    nodes: seq<Node>,
    head: Counted,
    tail: Counted,
    // history
    owner: seq<Tid>,       // who allocated each node
    linked: seq<nat>,      // nodes in the order they were linked
    rank: map<nat, nat>,   // where each linked node sits in `linked`
    hpos: nat,             // how often head moved
    tpos: nat,             // how often tail moved
    vals: seq<Value>,      // the values linked so far
    log: seq<Entry>)       // the pushes and pops, in the order they took effect

  datatype Pc =
    | Idle
    | Fault
    | Push(node: Ptr, v: Value, push: PushAt)
    | Pop(pop: PopAt)

  /** `at` is history: which entry of the log is this call's. */
  datatype PushAt =
    | LoadTail
    | LoadNext(ot: Counted)
    | CheckTail(ot: Counted, nx: Counted)
    | HelpCas(ot: Counted, nx: Counted)
    | LinkCas(ot: Counted, nx: Counted)
    | SwingTail(ot: Counted, at: nat)

  /** `seen` is history: the length of the log when next was read. */
  datatype PopAt =
    | LoadHead
    | ThenTail(oh: Counted)
    | ThenNext(oh: Counted, ot: Counted)
    | CheckHead(oh: Counted, ot: Counted, nx: Counted, seen: nat)
    | LagCas(ot: Counted, nx: Counted)
    | ReadValue(oh: Counted, nx: Counted)
    | HeadCas(oh: Counted, nx: Counted, v: Value)

  /** A finished call: the length of the log when it began and when it ended,
      what it answered, and the place in the log where it took effect. */
  datatype Answer = Answer(began: nat, at: nat, ended: nat, what: Entry)

  /** A thread: its counter and, as history, its answers, the length of the log
      when its call began, the measure when its loop trip began, and its failed trips. */
  datatype Local = Local(pc: Pc, answers: seq<Answer>, began: nat, since: nat, retries: nat)

  datatype State = State(sh: Shared, threads: map<Tid, Local>)

  datatype Event =
    | Register(t: Tid)
    | BeginPush(t: Tid, v: Value)
    | BeginPop(t: Tid)
    | Step(t: Tid)

  function Measure(sh: Shared): nat { |sh.linked| + sh.hpos + sh.tpos }

  predicate Deref(sh: Shared, p: Ptr) { p.At? && p.n < |sh.nodes| }

  function Next(sh: Shared, p: Ptr): Counted
    requires Deref(sh, p)
  {
    sh.nodes[p.n].next
  }

  // ----- the steps -----

  function Init(): State {
    State(Shared([Node(Default, NONE)], Counted(At(0), 0), Counted(At(0), 0),
                 [0], [0], map[0 := 0], 0, 0, [], []), map[])
  }

  /** tail.compare_exchange_strong(from, {to, from.count + 1}) that succeeds. */
  function MoveTail(sh: Shared, to: Ptr): Shared {
    sh.(tail := Counted(to, sh.tail.count + 1), tpos := sh.tpos + 1)
  }

  function Link(sh: Shared, t: Tid, node: nat, v: Value, after: nat): Shared
    requires after < |sh.nodes|
  {
    sh.(nodes := sh.nodes[after := sh.nodes[after].(next := Counted(At(node), sh.nodes[after].next.count + 1))],
        linked := sh.linked + [node],
        rank := sh.rank[node := |sh.linked|],
        vals := sh.vals + [v],
        log := sh.log + [Enq(t, v)])
  }

  function MoveHead(sh: Shared, t: Tid, to: Ptr, v: Value): Shared {
    sh.(head := Counted(to, sh.head.count + 1), hpos := sh.hpos + 1, log := sh.log + [Deq(t, v)])
  }

  function Again(sh: Shared, l: Local, pc: Pc): Local {
    l.(pc := pc, since := Measure(sh), retries := l.retries + 1)
  }

  function Return(sh: Shared, l: Local, at: nat, what: Entry): Local {
    l.(pc := Idle, answers := l.answers + [Answer(l.began, at, |sh.log|, what)])
  }

  function ActPush(sh: Shared, t: Tid, l: Local): (Shared, Local)
    requires l.pc.Push?
  {
    var Push(node, v, at) := l.pc;
    match at
    case LoadTail => (sh, l.(pc := Push(node, v, LoadNext(sh.tail))))
    case LoadNext(ot) =>
      if !Deref(sh, ot.ptr) then (sh, l.(pc := Fault))
      else (sh, l.(pc := Push(node, v, CheckTail(ot, Next(sh, ot.ptr)))))
    case CheckTail(ot, nx) =>
      if sh.tail != ot then (sh, Again(sh, l, Push(node, v, LoadTail)))
      else (sh, l.(pc := Push(node, v, if nx.ptr == Null then LinkCas(ot, nx) else HelpCas(ot, nx))))
    case HelpCas(ot, nx) =>
      var sh' := if sh.tail == ot then MoveTail(sh, nx.ptr) else sh;
      (sh', Again(sh', l, Push(node, v, LoadTail)))
    case LinkCas(ot, nx) =>
      if !Deref(sh, ot.ptr) || !node.At? then (sh, l.(pc := Fault))
      else if Next(sh, ot.ptr) == nx then
        (Link(sh, t, node.n, v, ot.ptr.n), l.(pc := Push(node, v, SwingTail(ot, |sh.log|))))
      else (sh, Again(sh, l, Push(node, v, LoadTail)))
    case SwingTail(ot, k) =>
      (if sh.tail == ot then MoveTail(sh, node) else sh, Return(sh, l, k, Enq(t, v)))
  }

  function ActPop(sh: Shared, t: Tid, l: Local): (Shared, Local)
    requires l.pc.Pop?
  {
    match l.pc.pop
    case LoadHead => (sh, l.(pc := Pop(ThenTail(sh.head))))
    case ThenTail(oh) => (sh, l.(pc := Pop(ThenNext(oh, sh.tail))))
    case ThenNext(oh, ot) =>
      if !Deref(sh, oh.ptr) then (sh, l.(pc := Fault))
      else (sh, l.(pc := Pop(CheckHead(oh, ot, Next(sh, oh.ptr), |sh.log|))))
    case CheckHead(oh, ot, nx, seen) =>
      if sh.head != oh then (sh, Again(sh, l, Pop(LoadHead)))
      else if oh.ptr != ot.ptr then (sh, l.(pc := Pop(ReadValue(oh, nx))))
      else if nx.ptr == Null then (sh, Return(sh, l, seen, Empty(t)))
      else (sh, l.(pc := Pop(LagCas(ot, nx))))
    case LagCas(ot, nx) =>
      var sh' := if sh.tail == ot then MoveTail(sh, nx.ptr) else sh;
      (sh', Again(sh', l, Pop(LoadHead)))
    case ReadValue(oh, nx) =>
      if !Deref(sh, nx.ptr) || !sh.nodes[nx.ptr.n].value.Full? then (sh, l.(pc := Fault))
      else (sh, l.(pc := Pop(HeadCas(oh, nx, sh.nodes[nx.ptr.n].value.v))))
    case HeadCas(oh, nx, v) =>
      if sh.head == oh then
        var sh' := MoveHead(sh, t, nx.ptr, v);
        (sh', Return(sh', l, |sh.log|, Deq(t, v)))
      else (sh, Again(sh, l, Pop(LoadHead)))
  }

  function Act(sh: Shared, t: Tid, l: Local): (Shared, Local) {
    match l.pc
    case Push(_, _, _) => ActPush(sh, t, l)
    case Pop(_) => ActPop(sh, t, l)
    case _ => (sh, l)
  }

  /** An event that is not enabled changes nothing. */
  function Apply(s: State, e: Event): State {
    match e
    case Register(t) =>
      if t in s.threads then s else s.(threads := s.threads[t := Local(Idle, [], |s.sh.log|, Measure(s.sh), 0)])
    case BeginPush(t, v) =>
      if t in s.threads && s.threads[t].pc.Idle? then
        State(s.sh.(nodes := s.sh.nodes + [Node(Full(v), NONE)], owner := s.sh.owner + [t]),
              s.threads[t := s.threads[t].(pc := Push(At(|s.sh.nodes|), v, LoadTail),
                                           began := |s.sh.log|, since := Measure(s.sh))])
      else s
    case BeginPop(t) =>
      if t in s.threads && s.threads[t].pc.Idle? then
        s.(threads := s.threads[t := s.threads[t].(pc := Pop(LoadHead), began := |s.sh.log|, since := Measure(s.sh))])
      else s
    case Step(t) =>
      if t in s.threads then
        var (sh, l) := Act(s.sh, t, s.threads[t]);
        State(sh, s.threads[t := l])
      else s
  }

  function Run(s: State, es: seq<Event>): State
    decreases |es|
  {
    if es == [] then s else Run(Apply(s, es[0]), es[1..])
  }

  // ----- what every reachable state satisfies -----

  ghost predicate ChainInv(sh: Shared) {
    && |sh.owner| == |sh.nodes|
    && 0 < |sh.linked|
    && (forall i :: 0 <= i < |sh.linked| ==>
          sh.linked[i] < |sh.nodes| && sh.linked[i] in sh.rank && sh.rank[sh.linked[i]] == i)
    && (forall x :: x in sh.rank ==> sh.rank[x] < |sh.linked| && sh.linked[sh.rank[x]] == x)
    && (forall i {:trigger sh.nodes[sh.linked[i]]} :: 0 <= i < |sh.linked| - 1 ==>
          sh.nodes[sh.linked[i]].next == Counted(At(sh.linked[i + 1]), 1))
    && sh.nodes[sh.linked[|sh.linked| - 1]].next == NONE
  }

  /** The counters count the moves. */
  ghost predicate EndsInv(sh: Shared) {
    && sh.hpos <= sh.tpos < |sh.linked| <= sh.tpos + 2
    && sh.head == Counted(At(sh.linked[sh.hpos]), sh.hpos)
    && sh.tail == Counted(At(sh.linked[sh.tpos]), sh.tpos)
  }

  ghost predicate ContentInv(sh: Shared)
    requires ChainInv(sh)
  {
    && |sh.vals| == |sh.linked| - 1
    && sh.hpos <= |sh.vals|
    && (forall i {:trigger sh.nodes[sh.linked[i]]} :: 0 < i < |sh.linked| ==>
        sh.nodes[sh.linked[i]].value == Full(sh.vals[i - 1]))
    && Replay(sh.log) == Queue(sh.vals[sh.hpos..])
    && Pushed(sh.log) == sh.vals
  }

  ghost predicate SharedInv(sh: Shared) { ChainInv(sh) && EndsInv(sh) && ContentInv(sh) }

  /** A counted pointer that was read from head or tail at some time. */
  ghost predicate Linked(sh: Shared, c: Counted) { c.ptr.At? && c.ptr.n in sh.rank && sh.rank[c.ptr.n] == c.count }

  ghost predicate HasNext(sh: Shared, c: Counted) { Deref(sh, c.ptr) && Next(sh, c.ptr).ptr != Null }

  /** A node of t that no other thread can reach yet. */
  ghost predicate Private(sh: Shared, t: Tid, node: Ptr, v: Value) {
    && Deref(sh, node) && node.n < |sh.owner| && node.n !in sh.rank
    && sh.owner[node.n] == t && sh.nodes[node.n] == Node(Full(v), NONE)
  }

  /** Tail still is ot, or the queue has changed since this trip began. */
  ghost predicate TailOr(sh: Shared, l: Local, ot: Counted) {
    Linked(sh, ot) && ot.count <= sh.tpos && (sh.tail == ot || l.since < Measure(sh))
  }

  ghost predicate HeadOr(sh: Shared, l: Local, oh: Counted) {
    Linked(sh, oh) && oh.count <= sh.hpos && (sh.head == oh || l.since < Measure(sh))
  }

  /** nx was read from ot's node: a link is final, a missing one may appear. */
  ghost predicate NextRead(sh: Shared, l: Local, c: Counted, nx: Counted) {
    if nx.ptr == Null then nx == NONE && (HasNext(sh, c) ==> l.since < Measure(sh))
    else HasNext(sh, c) && Next(sh, c.ptr) == nx
  }

  ghost predicate PushInv(sh: Shared, t: Tid, l: Local)
    requires l.pc.Push?
  {
    var Push(node, v, at) := l.pc;
    && (at.SwingTail? || Private(sh, t, node, v))
    && match at
       case LoadTail => true
       case LoadNext(ot) => TailOr(sh, l, ot)
       case CheckTail(ot, nx) => TailOr(sh, l, ot) && NextRead(sh, l, ot, nx)
       case HelpCas(ot, nx) => TailOr(sh, l, ot) && NextRead(sh, l, ot, nx) && nx.ptr != Null
       case LinkCas(ot, nx) => TailOr(sh, l, ot) && NextRead(sh, l, ot, nx) && nx.ptr == Null
       case SwingTail(ot, k) =>
         && Linked(sh, ot) && HasNext(sh, ot) && Next(sh, ot.ptr).ptr == node
         && l.began <= k < |sh.log| && sh.log[k] == Enq(t, v)
  }

  ghost predicate PopInv(sh: Shared, l: Local)
    requires l.pc.Pop?
  {
    match l.pc.pop
    case LoadHead => true
    case ThenTail(oh) => HeadOr(sh, l, oh)
    case ThenNext(oh, ot) => HeadOr(sh, l, oh) && TailOr(sh, l, ot) && oh.count <= ot.count
    case CheckHead(oh, ot, nx, seen) =>
      && HeadOr(sh, l, oh) && TailOr(sh, l, ot) && oh.count <= ot.count
      && (if nx.ptr == Null then oh.count == ot.count else HasNext(sh, oh) && Next(sh, oh.ptr) == nx)
      && l.began <= seen <= |sh.log|
      && (nx.ptr == Null ==> Replay(sh.log[..seen]) == Queue([]))
    case LagCas(ot, nx) => TailOr(sh, l, ot) && HasNext(sh, ot) && Next(sh, ot.ptr) == nx
    case ReadValue(oh, nx) => HeadOr(sh, l, oh) && oh.count < sh.tpos && HasNext(sh, oh) && Next(sh, oh.ptr) == nx
    case HeadCas(oh, nx, v) =>
      && HeadOr(sh, l, oh) && oh.count < sh.tpos && HasNext(sh, oh) && Next(sh, oh.ptr) == nx
      && oh.count < |sh.vals| && v == sh.vals[oh.count]
  }

  ghost predicate PcInv(sh: Shared, t: Tid, l: Local) {
    match l.pc
    case Idle => true
    case Fault => false
    case Push(_, _, _) => PushInv(sh, t, l)
    case Pop(_) => PopInv(sh, l)
  }

  /** The call took effect while it was running: a push or pop is the entry of
      the log at `at`, and at `at` the queue was empty for an empty answer. */
  ghost predicate Sound(sh: Shared, t: Tid, a: Answer) {
    && a.began <= a.at <= a.ended <= |sh.log| && a.what.who == t
    && (if a.what.Empty? then Replay(sh.log[..a.at]) == Queue([])
        else a.at < a.ended && sh.log[a.at] == a.what)
  }

  /** The pushes and pops among some answers. */
  function Effects(answers: seq<Answer>): seq<Entry> {
    if answers == [] then []
    else
      var rest, e := Effects(answers[..|answers| - 1]), answers[|answers| - 1].what;
      if e.Empty? then rest else rest + [e]
  }

  /** The operation of t that has taken effect but has not returned yet. */
  function Pending(t: Tid, pc: Pc): seq<Entry> {
    if pc.Push? && pc.push.SwingTail? then [Enq(t, pc.v)] else []
  }

  ghost predicate AnswersInv(sh: Shared, t: Tid, l: Local) {
    && (forall i :: 0 <= i < |l.answers| ==> Sound(sh, t, l.answers[i]))
    && (!l.pc.Idle? ==> forall i :: 0 <= i < |l.answers| ==> l.answers[i].ended <= l.began)
    && (forall i, j :: 0 <= i < j < |l.answers| ==> l.answers[i].ended <= l.answers[j].began)
    && l.began <= |sh.log|
    && Of(sh.log, t) == Effects(l.answers) + Pending(t, l.pc)
  }

  ghost predicate LocalInv(sh: Shared, t: Tid, l: Local) {
    && PcInv(sh, t, l)
    && AnswersInv(sh, t, l)
    && l.retries < l.since <= Measure(sh)
  }

  ghost predicate Inv(s: State) {
    && SharedInv(s.sh)
    && (forall t :: t in s.threads ==> LocalInv(s.sh, t, s.threads[t]))
    && (forall t :: t !in s.threads ==> Of(s.sh.log, t) == [])
  }

  // ----- what a step of t guarantees to the other threads -----

  /** Pointers only move forward, links are written once, values never change. */
  ghost predicate Forward(a: Shared, b: Shared) {
    && |a.nodes| <= |b.nodes|
    && a.owner <= b.owner
    && a.linked <= b.linked
    && a.hpos <= b.hpos
    && a.tpos <= b.tpos
    && a.vals <= b.vals
    && a.log <= b.log
    && (forall i {:trigger b.nodes[i]} {:trigger a.nodes[i]} :: 0 <= i < |a.nodes| ==>
          b.nodes[i].value == a.nodes[i].value && (a.nodes[i].next.ptr != Null ==> b.nodes[i].next == a.nodes[i].next))
    && (forall x {:trigger x in a.rank} {:trigger a.rank[x]} :: x in a.rank ==> x in b.rank && b.rank[x] == a.rank[x])
  }

  ghost predicate Guarantees(a: Shared, b: Shared, t: Tid) {
    && Forward(a, b)
    && (a.head != b.head ==> Measure(a) < Measure(b))
    && (a.tail != b.tail ==> Measure(a) < Measure(b))
    && (forall i {:trigger b.nodes[i]} :: 0 <= i < |a.nodes| && a.nodes[i].next != b.nodes[i].next ==>
          Measure(a) < Measure(b))
    && (forall i {:trigger a.owner[i]} :: 0 <= i < |a.nodes| && i < |a.owner| && a.owner[i] != t && i !in a.rank ==>
          i !in b.rank && b.nodes[i] == a.nodes[i])
    && (forall u :: u != t ==> Of(b.log, u) == Of(a.log, u))
  }

  lemma StableNext(a: Shared, b: Shared, t: Tid, l: Local, c: Counted, nx: Counted)
    requires Guarantees(a, b, t) && SharedInv(a) && SharedInv(b) && l.since <= Measure(a) && Linked(a, c)
    requires NextRead(a, l, c, nx)
    ensures NextRead(b, l, c, nx)
  {
    ChainNext(a, c);
  }

  lemma StableSeen(a: Shared, b: Shared, t: Tid, l: Local, c: Counted)
    requires Guarantees(a, b, t) && l.since <= Measure(a) && Linked(a, c)
    ensures Linked(b, c) && a.hpos <= b.hpos && a.tpos <= b.tpos
    ensures TailOr(a, l, c) ==> TailOr(b, l, c)
    ensures HeadOr(a, l, c) ==> HeadOr(b, l, c)
    ensures HasNext(a, c) ==> HasNext(b, c) && Next(b, c.ptr) == Next(a, c.ptr)
  {
  }

  lemma StablePush(a: Shared, b: Shared, t: Tid, u: Tid, l: Local)
    requires u != t && Guarantees(a, b, t) && SharedInv(a) && SharedInv(b) && l.since <= Measure(a)
    requires l.pc.Push? && PushInv(a, u, l)
    ensures PushInv(b, u, l)
  {
    hide ChainInv, EndsInv, ContentInv, NextRead, TailOr, HeadOr;
    if !l.pc.push.LoadTail? {
      var ot := l.pc.push.ot;
      assert Linked(a, ot) by { assert l.pc.push.SwingTail? || TailOr(a, l, ot); TailIsLinked(a, l, ot); }
      StableSeen(a, b, t, l, ot);
      if !l.pc.push.LoadNext? && !l.pc.push.SwingTail? { StableNext(a, b, t, l, ot, l.pc.push.nx); }
    }
  }

  lemma TailIsLinked(sh: Shared, l: Local, c: Counted)
    ensures TailOr(sh, l, c) || HeadOr(sh, l, c) ==> Linked(sh, c)
  {
  }

  lemma StablePop(a: Shared, b: Shared, t: Tid, l: Local)
    requires Guarantees(a, b, t) && SharedInv(a) && SharedInv(b) && l.since <= Measure(a)
    requires l.pc.Pop? && PopInv(a, l)
    ensures PopInv(b, l)
  {
    hide ChainInv, EndsInv, ContentInv, TailOr, HeadOr, Of;
    var p := l.pc.pop;
    if !p.LoadHead? && !p.LagCas? {
      TailIsLinked(a, l, p.oh);
      StableSeen(a, b, t, l, p.oh);
    }
    if p.ThenNext? || p.CheckHead? || p.LagCas? {
      TailIsLinked(a, l, p.ot);
      StableSeen(a, b, t, l, p.ot);
    }
    if p.CheckHead? { assert b.log[..p.seen] == a.log[..p.seen]; }
  }

  lemma StableAnswers(a: Shared, b: Shared, t: Tid, u: Tid, l: Local)
    requires u != t && Guarantees(a, b, t) && AnswersInv(a, u, l)
    ensures AnswersInv(b, u, l)
  {
    hide Of, Replay;
    forall i | 0 <= i < |l.answers| ensures Sound(b, u, l.answers[i]) { SoundStays(a, b, u, l.answers[i]); }
  }

  lemma SoundStays(a: Shared, b: Shared, t: Tid, x: Answer)
    requires a.log <= b.log && Sound(a, t, x)
    ensures Sound(b, t, x)
  {
    hide Replay;
    assert b.log[..x.at] == a.log[..x.at];
  }

  lemma Stable(a: Shared, b: Shared, t: Tid, u: Tid, l: Local)
    requires u != t && Guarantees(a, b, t) && SharedInv(a) && SharedInv(b) && LocalInv(a, u, l)
    ensures LocalInv(b, u, l)
  {
    hide SharedInv, PushInv, PopInv, AnswersInv, Of;
    StableAnswers(a, b, t, u, l);
    match l.pc
    case Push(_, _, _) => StablePush(a, b, t, u, l);
    case Pop(_) => StablePop(a, b, t, l);
    case _ =>
  }

  // ----- each step keeps the invariant -----

  lemma ChainNext(sh: Shared, c: Counted)
    requires ChainInv(sh) && Linked(sh, c)
    ensures Deref(sh, c.ptr) && c.count < |sh.linked| && sh.linked[c.count] == c.ptr.n
    ensures Next(sh, c.ptr) == if c.count == |sh.linked| - 1 then NONE else Counted(At(sh.linked[c.count + 1]), 1)
  {
    assert sh.linked[sh.rank[c.ptr.n]] == c.ptr.n;
  }

  lemma EndsLinked(sh: Shared)
    requires SharedInv(sh)
    ensures 0 < Measure(sh)
    ensures Linked(sh, sh.head) && sh.head.count == sh.hpos
    ensures Linked(sh, sh.tail) && sh.tail.count == sh.tpos
    ensures sh.hpos <= sh.tpos < |sh.linked| && sh.hpos <= |sh.vals|
  {
  }

  lemma LogGrows(sh: Shared, e: Entry)
    requires Replay(sh.log).Queue?
    ensures Pushed(sh.log + [e]) == if e.Enq? then Pushed(sh.log) + [e.v] else Pushed(sh.log)
    ensures Of(sh.log + [e], e.who) == Of(sh.log, e.who) + [e]
    ensures forall u :: u != e.who ==> Of(sh.log + [e], u) == Of(sh.log, u)
    ensures var q := Replay(sh.log).items;
            && (e.Enq? ==> Replay(sh.log + [e]) == Queue(q + [e.v]))
            && (e.Deq? && q != [] && q[0] == e.v ==> Replay(sh.log + [e]) == Queue(q[1..]))
  {
    ReplaySnoc(sh.log, e);
    assert (sh.log + [e])[..|sh.log|] == sh.log;
    forall u ensures Of(sh.log + [e], u) == if u == e.who then Of(sh.log, u) + [e] else Of(sh.log, u) {
      OfSnoc(sh.log, e, u);
    }
  }

  lemma MoveTailKeeps(sh: Shared, t: Tid, ot: Counted)
    requires SharedInv(sh) && HasNext(sh, ot) && sh.tail == ot
    ensures var b := MoveTail(sh, Next(sh, ot.ptr).ptr);
      SharedInv(b) && Guarantees(sh, b, t) && Measure(b) == Measure(sh) + 1
  {
    hide Of, Replay, Pushed;
    ChainNext(sh, ot);
  }

  lemma LinkKeepsChain(sh: Shared, t: Tid, node: Ptr, v: Value, ot: Counted)
    requires ChainInv(sh) && EndsInv(sh) && Private(sh, t, node, v) && ot.count <= sh.tpos
    requires Linked(sh, ot) && Deref(sh, ot.ptr) && Next(sh, ot.ptr) == NONE
    ensures var b := Link(sh, t, node.n, v, ot.ptr.n); ChainInv(b) && EndsInv(b)
  {
    var b := Link(sh, t, node.n, v, ot.ptr.n);
    ChainNext(sh, ot);
    forall i | 0 <= i < |b.linked| - 1 ensures b.nodes[b.linked[i]].next == Counted(At(b.linked[i + 1]), 1) {
      if i < |sh.linked| - 1 { assert sh.nodes[sh.linked[i]].next == Counted(At(sh.linked[i + 1]), 1); }
    }
  }

  lemma LinkKeepsValues(sh: Shared, t: Tid, node: Ptr, v: Value, ot: Counted, i: nat)
    requires ChainInv(sh) && ContentInv(sh) && Private(sh, t, node, v) && Linked(sh, ot) && Deref(sh, ot.ptr)
    requires 0 < i <= |sh.linked|
    ensures var b := Link(sh, t, node.n, v, ot.ptr.n);
            (if i < |sh.linked| then sh.linked[i] else node.n) < |b.nodes|
            && b.nodes[if i < |sh.linked| then sh.linked[i] else node.n].value == Full(b.vals[i - 1])
  {
    hide Replay, Pushed;
    if i < |sh.linked| { assert sh.nodes[sh.linked[i]].value == Full(sh.vals[i - 1]); }
  }

  lemma AreNodes(sh: Shared)
    requires ChainInv(sh)
    ensures forall i :: 0 <= i < |sh.linked| ==> sh.linked[i] < |sh.nodes|
  {
  }

  lemma SuffixGrows<T>(s: seq<T>, k: nat, x: T)
    requires k <= |s|
    ensures (s + [x])[k..] == s[k..] + [x]
  {
  }

  lemma LinkKeepsContent(sh: Shared, t: Tid, node: Ptr, v: Value, ot: Counted)
    requires SharedInv(sh) && Private(sh, t, node, v)
    requires Linked(sh, ot) && Deref(sh, ot.ptr) && ChainInv(Link(sh, t, node.n, v, ot.ptr.n))
    ensures ContentInv(Link(sh, t, node.n, v, ot.ptr.n))
  {
    hide Replay, Pushed, Of, ChainInv, EndsInv;
    var b := Link(sh, t, node.n, v, ot.ptr.n);
    LogGrows(sh, Enq(t, v));
    SuffixGrows(sh.vals, sh.hpos, v);
    AreNodes(b);
    forall i | 0 < i < |b.linked| ensures b.nodes[b.linked[i]].value == Full(b.vals[i - 1]) {
      LinkKeepsValues(sh, t, node, v, ot, i);
    }
  }

  lemma LinkGuarantees(sh: Shared, t: Tid, node: Ptr, v: Value, ot: Counted)
    requires Private(sh, t, node, v) && Deref(sh, ot.ptr) && Next(sh, ot.ptr) == NONE
    requires forall u :: u != t ==> Of(sh.log + [Enq(t, v)], u) == Of(sh.log, u)
    requires ot.ptr.n in sh.rank
    ensures Guarantees(sh, Link(sh, t, node.n, v, ot.ptr.n), t)
  {
    hide Of;
  }

  lemma LogIsLegal(sh: Shared)
    requires SharedInv(sh)
    ensures Replay(sh.log).Queue?
  {
  }

  lemma LinkKeeps(sh: Shared, t: Tid, node: Ptr, v: Value, ot: Counted)
    requires SharedInv(sh) && Private(sh, t, node, v) && ot.count <= sh.tpos
    requires Linked(sh, ot) && Deref(sh, ot.ptr) && Next(sh, ot.ptr) == NONE
    ensures var b := Link(sh, t, node.n, v, ot.ptr.n);
            SharedInv(b) && Guarantees(sh, b, t) && Linked(b, ot) && HasNext(b, ot) && Next(b, ot.ptr).ptr == node
            && Of(b.log, t) == Of(sh.log, t) + [Enq(t, v)] && Measure(b) == Measure(sh) + 1
  {
    hide ChainInv, EndsInv, ContentInv, Of, Guarantees, Replay, Pushed;
    LinkKeepsChain(sh, t, node, v, ot);
    LinkKeepsContent(sh, t, node, v, ot);
    LogIsLegal(sh);
    LogGrows(sh, Enq(t, v));
    LinkGuarantees(sh, t, node, v, ot);
  }

  lemma MoveHeadShape(sh: Shared, t: Tid, oh: Counted, v: Value)
    requires ChainInv(sh) && EndsInv(sh) && HasNext(sh, oh) && sh.head == oh && oh.count < sh.tpos
    ensures oh.count == sh.hpos
    ensures var b := MoveHead(sh, t, Next(sh, oh.ptr).ptr, v); ChainInv(b) && EndsInv(b)
  {
    ChainNext(sh, oh);
  }

  lemma MoveHeadGuarantees(sh: Shared, t: Tid, to: Ptr, v: Value)
    requires forall u :: u != t ==> Of(MoveHead(sh, t, to, v).log, u) == Of(sh.log, u)
    ensures Guarantees(sh, MoveHead(sh, t, to, v), t)
  {
    hide Of;
  }

  lemma MoveHeadContent(sh: Shared, t: Tid, to: Ptr, v: Value)
    requires SharedInv(sh) && sh.hpos < sh.tpos && v == sh.vals[sh.hpos]
    ensures ContentInv(MoveHead(sh, t, to, v))
    ensures Of(MoveHead(sh, t, to, v).log, t) == Of(sh.log, t) + [Deq(t, v)]
    ensures forall u :: u != t ==> Of(MoveHead(sh, t, to, v).log, u) == Of(sh.log, u)
  {
    LogGrows(sh, Deq(t, v));
    assert sh.vals[sh.hpos + 1..] == sh.vals[sh.hpos..][1..];
    hide Replay, Pushed, Of;
  }

  /** The value read early is the one at the front when head is moved. */
  lemma MoveHeadKeeps(sh: Shared, t: Tid, oh: Counted, v: Value)
    requires SharedInv(sh) && HasNext(sh, oh) && sh.head == oh && oh.count < sh.tpos
    requires oh.count < |sh.vals| && v == sh.vals[oh.count]
    ensures var b := MoveHead(sh, t, Next(sh, oh.ptr).ptr, v);
            SharedInv(b) && Guarantees(sh, b, t)
            && Of(b.log, t) == Of(sh.log, t) + [Deq(t, v)] && Measure(b) == Measure(sh) + 1
  {
    hide Replay, Pushed, Of, ChainInv, EndsInv, ContentInv, Guarantees;
    MoveHeadShape(sh, t, oh, v);
    MoveHeadContent(sh, t, Next(sh, oh.ptr).ptr, v);
    MoveHeadGuarantees(sh, t, Next(sh, oh.ptr).ptr, v);
  }

  /** A linked node without a successor is the last, so head is on it. */
  lemma NoNextNoValues(sh: Shared, oh: Counted)
    requires SharedInv(sh) && Linked(sh, oh) && oh.count <= sh.hpos && !HasNext(sh, oh)
    ensures Replay(sh.log) == Queue([]) && sh.hpos == sh.tpos == oh.count
  {
    ChainNext(sh, oh);
  }

  /** What the outcome r of a step of t from sh owes to t and to the others. */
  ghost predicate Keeps(sh: Shared, t: Tid, r: (Shared, Local)) {
    SharedInv(r.0) && Guarantees(sh, r.0, t) && LocalInv(r.0, t, r.1)
  }

  lemma NothingShared(sh: Shared, t: Tid)
    ensures Guarantees(sh, sh, t)
  {
  }

  /** The call goes on: nothing is answered and no entry is due. */
  lemma AnswersStay(sh: Shared, sh': Shared, t: Tid, l: Local, l': Local)
    requires AnswersInv(sh, t, l) && sh'.log == sh.log && l'.answers == l.answers && l'.began == l.began
    requires !l.pc.Idle? && !l'.pc.Idle? && Pending(t, l'.pc) == Pending(t, l.pc)
    ensures AnswersInv(sh', t, l')
  {
    hide Of, Replay, Effects, Pending;
    forall i | 0 <= i < |l'.answers| ensures Sound(sh', t, l'.answers[i]) { assert Sound(sh, t, l.answers[i]); }
  }

  lemma Answers(sh: Shared, sh': Shared, t: Tid, l: Local, at: nat, what: Entry)
    requires AnswersInv(sh, t, l) && !l.pc.Idle? && sh.log <= sh'.log
    requires Sound(sh', t, Answer(l.began, at, |sh'.log|, what))
    requires Of(sh'.log, t) == Effects(l.answers) + if what.Empty? then [] else [what]
    ensures AnswersInv(sh', t, Return(sh', l, at, what))
  {
    hide Of, Replay;
    var l' := Return(sh', l, at, what);
    assert l'.answers[..|l'.answers| - 1] == l.answers;
    forall i | 0 <= i < |l.answers| ensures Sound(sh', t, l.answers[i]) { SoundStays(sh, sh', t, l.answers[i]); }
  }

  lemma PushReads(sh: Shared, t: Tid, l: Local)
    requires SharedInv(sh) && LocalInv(sh, t, l) && l.pc.Push?
    requires l.pc.push.LoadTail? || l.pc.push.LoadNext? || l.pc.push.CheckTail?
    ensures Keeps(sh, t, ActPush(sh, t, l))
  {
    hide ChainInv, EndsInv, ContentInv, Guarantees, AnswersInv;
    NothingShared(sh, t);
    EndsLinked(sh);
    if !l.pc.push.LoadTail? { ChainNext(sh, l.pc.push.ot); }
    AnswersStay(sh, sh, t, l, ActPush(sh, t, l).1);
  }

  lemma PushHelps(sh: Shared, t: Tid, l: Local)
    requires SharedInv(sh) && LocalInv(sh, t, l) && l.pc.Push? && l.pc.push.HelpCas?
    ensures Keeps(sh, t, ActPush(sh, t, l))
  {
    hide ChainInv, EndsInv, ContentInv, Guarantees, AnswersInv;
    NothingShared(sh, t);
    if sh.tail == l.pc.push.ot { MoveTailKeeps(sh, t, l.pc.push.ot); }
    AnswersStay(sh, ActPush(sh, t, l).0, t, l, ActPush(sh, t, l).1);
  }

  lemma PushSwings(sh: Shared, t: Tid, l: Local)
    requires SharedInv(sh) && LocalInv(sh, t, l) && l.pc.Push? && l.pc.push.SwingTail?
    ensures Keeps(sh, t, ActPush(sh, t, l))
  {
    hide ChainInv, EndsInv, ContentInv, Guarantees, Of, Replay;
    var sh' := ActPush(sh, t, l).0;
    NothingShared(sh, t);
    if sh.tail == l.pc.push.ot { MoveTailKeeps(sh, t, l.pc.push.ot); }
    Answers(sh, sh', t, l, l.pc.push.at, Enq(t, l.pc.v));
  }

  lemma PushLinks(sh: Shared, t: Tid, l: Local)
    requires SharedInv(sh) && LocalInv(sh, t, l) && l.pc.Push? && l.pc.push.LinkCas?
    ensures Keeps(sh, t, ActPush(sh, t, l))
  {
    hide ChainInv, EndsInv, ContentInv, Guarantees, Of, Replay;
    var ot := l.pc.push.ot;
    ChainNext(sh, ot);
    if Next(sh, ot.ptr) == l.pc.push.nx {
      LinkKeeps(sh, t, l.pc.node, l.pc.v, ot);
      var (sh', l') := ActPush(sh, t, l);
      forall i | 0 <= i < |l.answers| ensures Sound(sh', t, l.answers[i]) { SoundStays(sh, sh', t, l.answers[i]); }
    } else {
      NothingShared(sh, t);
      AnswersStay(sh, sh, t, l, ActPush(sh, t, l).1);
    }
  }

  lemma PopReads(sh: Shared, t: Tid, l: Local)
    requires SharedInv(sh) && LocalInv(sh, t, l) && l.pc.Pop?
    requires l.pc.pop.LoadHead? || l.pc.pop.ThenTail? || l.pc.pop.ThenNext?
    ensures Keeps(sh, t, ActPop(sh, t, l))
  {
    hide ChainInv, EndsInv, ContentInv, Guarantees, AnswersInv, Replay;
    NothingShared(sh, t);
    EndsLinked(sh);
    if l.pc.pop.ThenNext? {
      ChainNext(sh, l.pc.pop.oh);
      if !HasNext(sh, l.pc.pop.oh) { NoNextNoValues(sh, l.pc.pop.oh); }
      BeganBefore(sh, t, l);
      assert sh.log[..|sh.log|] == sh.log;
    }
    AnswersStay(sh, sh, t, l, ActPop(sh, t, l).1);
  }

  lemma BeganBefore(sh: Shared, t: Tid, l: Local)
    requires AnswersInv(sh, t, l)
    ensures l.began <= |sh.log|
  {
  }

  lemma PopChecks(sh: Shared, t: Tid, l: Local)
    requires SharedInv(sh) && LocalInv(sh, t, l) && l.pc.Pop? && l.pc.pop.CheckHead?
    ensures Keeps(sh, t, ActPop(sh, t, l))
  {
    hide ChainInv, EndsInv, ContentInv, Guarantees, Of, Replay, AnswersInv;
    var CheckHead(oh, ot, nx, seen) := l.pc.pop;
    NothingShared(sh, t);
    EndsLinked(sh);
    ChainNext(sh, oh);
    ChainNext(sh, ot);
    if sh.head == oh && oh.ptr == ot.ptr && nx.ptr == Null {
      AnswersEmpty(sh, t, l);
    } else {
      AnswersStay(sh, sh, t, l, ActPop(sh, t, l).1);
    }
  }

  lemma AnswersEmpty(sh: Shared, t: Tid, l: Local)
    requires LocalInv(sh, t, l) && l.pc.Pop? && l.pc.pop.CheckHead? && l.pc.pop.nx.ptr == Null
    ensures AnswersInv(sh, t, Return(sh, l, l.pc.pop.seen, Empty(t)))
  {
    hide Of, Replay;
    Answers(sh, sh, t, l, l.pc.pop.seen, Empty(t));
  }

  lemma PopValue(sh: Shared, t: Tid, l: Local)
    requires SharedInv(sh) && LocalInv(sh, t, l) && l.pc.Pop? && l.pc.pop.ReadValue?
    ensures Keeps(sh, t, ActPop(sh, t, l))
  {
    hide EndsInv, Guarantees, Of, Replay, AnswersInv;
    NothingShared(sh, t);
    ChainNext(sh, l.pc.pop.oh);
    assert sh.nodes[sh.linked[l.pc.pop.oh.count + 1]].value == Full(sh.vals[l.pc.pop.oh.count]);
    AnswersStay(sh, sh, t, l, ActPop(sh, t, l).1);
  }

  lemma PopLags(sh: Shared, t: Tid, l: Local)
    requires SharedInv(sh) && LocalInv(sh, t, l) && l.pc.Pop? && l.pc.pop.LagCas?
    ensures Keeps(sh, t, ActPop(sh, t, l))
  {
    hide ChainInv, EndsInv, ContentInv, Guarantees, AnswersInv;
    NothingShared(sh, t);
    if sh.tail == l.pc.pop.ot { MoveTailKeeps(sh, t, l.pc.pop.ot); }
    AnswersStay(sh, ActPop(sh, t, l).0, t, l, ActPop(sh, t, l).1);
  }

  lemma PopTakes(sh: Shared, t: Tid, l: Local)
    requires SharedInv(sh) && LocalInv(sh, t, l) && l.pc.Pop? && l.pc.pop.HeadCas?
    ensures Keeps(sh, t, ActPop(sh, t, l))
  {
    hide ChainInv, EndsInv, ContentInv, Guarantees, Of, Replay;
    var HeadCas(oh, nx, v) := l.pc.pop;
    if sh.head == oh {
      MoveHeadKeeps(sh, t, oh, v);
      Answers(sh, ActPop(sh, t, l).0, t, l, |sh.log|, Deq(t, v));
    } else {
      NothingShared(sh, t);
      AnswersStay(sh, sh, t, l, ActPop(sh, t, l).1);
    }
  }

  lemma ActKeeps(sh: Shared, t: Tid, l: Local)
    requires SharedInv(sh) && LocalInv(sh, t, l)
    ensures Keeps(sh, t, Act(sh, t, l))
  {
    hide SharedInv, Guarantees, PushInv, PopInv, ActPush, ActPop, AnswersInv;
    match l.pc
    case Push(_, _, at) =>
      match at {
        case HelpCas(_, _) => PushHelps(sh, t, l);
        case LinkCas(_, _) => PushLinks(sh, t, l);
        case SwingTail(_, _) => PushSwings(sh, t, l);
        case _ => PushReads(sh, t, l);
      }
    case Pop(at) =>
      match at {
        case CheckHead(_, _, _, _) => PopChecks(sh, t, l);
        case LagCas(_, _) => PopLags(sh, t, l);
        case ReadValue(_, _) => PopValue(sh, t, l);
        case HeadCas(_, _, _) => PopTakes(sh, t, l);
        case _ => PopReads(sh, t, l);
      }
    case Idle => NothingShared(sh, t);
    case Fault =>
  }

  lemma AllocKeeps(sh: Shared, t: Tid, v: Value)
    requires SharedInv(sh)
    ensures var b := sh.(nodes := sh.nodes + [Node(Full(v), NONE)], owner := sh.owner + [t]);
            SharedInv(b) && Guarantees(sh, b, t) && Private(b, t, At(|sh.nodes|), v)
  {
  }

  /** A transition in which only t moved keeps the whole invariant. */
  lemma OnlyOneMoved(s: State, s': State, t: Tid)
    requires Inv(s) && SharedInv(s'.sh) && Guarantees(s.sh, s'.sh, t)
    requires s'.threads.Keys == s.threads.Keys + {t}
    requires forall u :: u in s.threads && u != t ==> s'.threads[u] == s.threads[u]
    requires LocalInv(s'.sh, t, s'.threads[t])
    ensures Inv(s')
  {
    hide SharedInv, Forward, Of, LocalInv;
    forall u | u in s'.threads ensures LocalInv(s'.sh, u, s'.threads[u]) {
      if u != t { Stable(s.sh, s'.sh, t, u, s.threads[u]); }
    }
  }

  lemma BeginLocal(sh: Shared, sh': Shared, t: Tid, l: Local, pc: Pc)
    requires SharedInv(sh) && LocalInv(sh, t, l) && l.pc.Idle? && !pc.Idle? && Pending(t, pc) == []
    requires Guarantees(sh, sh', t)
    requires sh'.log == sh.log && Measure(sh') == Measure(sh) && 0 < Measure(sh)
    requires PcInv(sh', t, l.(pc := pc, began := |sh.log|, since := Measure(sh)))
    ensures LocalInv(sh', t, l.(pc := pc, began := |sh.log|, since := Measure(sh)))
  {
    hide Of, Replay, PcInv, Guarantees, Effects;
    forall i | 0 <= i < |l.answers| ensures Sound(sh', t, l.answers[i]) && l.answers[i].ended <= |sh.log| {
      assert Sound(sh, t, l.answers[i]);
    }
  }

  lemma BeginKeeps(s: State, e: Event)
    requires Inv(s) && !e.Step?
    ensures Inv(Apply(s, e)) && Guarantees(s.sh, Apply(s, e).sh, e.t)
  {
    hide ChainInv, EndsInv, ContentInv, Guarantees, Of, AnswersInv;
    var s' := Apply(s, e);
    NothingShared(s.sh, e.t);
    EndsLinked(s.sh);
    if s' != s {
      if e.Register? {
        NewThread(s.sh, e.t);
      } else if e.BeginPush? {
        AllocKeeps(s.sh, e.t, e.v);
        BeginLocal(s.sh, s'.sh, e.t, s.threads[e.t], s'.threads[e.t].pc);
      } else {
        BeginLocal(s.sh, s'.sh, e.t, s.threads[e.t], s'.threads[e.t].pc);
      }
      OnlyOneMoved(s, s', e.t);
    }
  }

  lemma NewThread(sh: Shared, t: Tid)
    requires SharedInv(sh) && Of(sh.log, t) == [] && 0 < Measure(sh)
    ensures LocalInv(sh, t, Local(Idle, [], |sh.log|, Measure(sh), 0))
  {
  }

  lemma ApplyKeeps(s: State, e: Event)
    requires Inv(s)
    ensures Inv(Apply(s, e)) && Guarantees(s.sh, Apply(s, e).sh, e.t)
  {
    hide SharedInv, Guarantees, LocalInv, Of, Act;
    if !e.Step? {
      BeginKeeps(s, e);
    } else if e.t in s.threads {
      ActKeeps(s.sh, e.t, s.threads[e.t]);
      OnlyOneMoved(s, Apply(s, e), e.t);
    } else {
      NothingShared(s.sh, e.t);
    }
  }

  lemma {:induction false} RunKeeps(s: State, es: seq<Event>)
    requires Inv(s)
    ensures Inv(Run(s, es)) && Forward(s.sh, Run(s, es).sh)
    decreases |es|
  {
    hide Inv, Apply;
    if es != [] {
      ApplyKeeps(s, es[0]);
      RunKeeps(Apply(s, es[0]), es[1..]);
    }
  }

  lemma Reachable(es: seq<Event>)
    ensures Inv(Run(Init(), es))
  {
    RunKeeps(Init(), es);
  }

  // ----- the results -----

  /** Every interleaving of any number of calls refines an atomic FIFO queue: the
      log is a legal history of a sequential queue; each finished call took effect
      at its place in the log, between its beginning and its end, an empty answer
      at a moment when the queue was empty; and the calls of a thread do not
      overlap and leave out nothing but a push that still has to swing tail. */
  lemma Linearizable(es: seq<Event>, t: Tid)
    requires t in Run(Init(), es).threads
    ensures var s := Run(Init(), es);
            var l := s.threads[t];
            && Replay(s.sh.log).Queue?
            && (forall i :: 0 <= i < |l.answers| ==> Sound(s.sh, t, l.answers[i]))
            && (forall i, j :: 0 <= i < j < |l.answers| ==> l.answers[i].ended <= l.answers[j].began)
            && (Of(s.sh.log, t) == Effects(l.answers)
                || (l.pc.Push? && l.pc.push.SwingTail? && Of(s.sh.log, t) == Effects(l.answers) + [Enq(t, l.pc.v)]))
  {
    Reachable(es);
    hide Run, ChainInv, EndsInv, PcInv, Of;
    assert LocalInv(Run(Init(), es).sh, t, Run(Init(), es).threads[t]);
  }

  /** So the empty answers can be put into the history, each at its place, and it
      stays a legal history that leaves the same queue. */
  lemma {:induction false} EmptyFits(log: seq<Entry>, at: nat, t: Tid)
    requires Replay(log).Queue? && at <= |log| && Replay(log[..at]) == Queue([])
    ensures Replay(log[..at] + [Empty(t)] + log[at..]) == Replay(log)
    decreases |log|
  {
    if at == |log| {
      assert log[..at] == log && log[at..] == [];
      assert log + [Empty(t)] + [] == log + [Empty(t)];
      ReplaySnoc(log, Empty(t));
    } else {
      var init, e := log[..|log| - 1], log[|log| - 1];
      assert init[..at] == log[..at] && init[at..] + [e] == log[at..] && init + [e] == log;
      EmptyFits(init, at, t);
      var more := init[..at] + [Empty(t)] + init[at..];
      assert log[..at] + [Empty(t)] + log[at..] == more + [e];
      ReplaySnoc(more, e);
      ReplaySnoc(init, e);
    }
  }

  /** Values leave in the order they were linked, each to one caller. */
  lemma FirstInFirstOut(es: seq<Event>)
    ensures var sh := Run(Init(), es).sh;
            && Pushed(sh.log) == sh.vals && sh.hpos <= |sh.vals|
            && Popped(sh.log) == sh.vals[..sh.hpos]
  {
    Reachable(es);
    var sh := Run(Init(), es).sh;
    LegalLogsAreFifo(sh.log);
    assert sh.vals == sh.vals[..sh.hpos] + sh.vals[sh.hpos..];
  }

  /** The chain is acyclic, head reaches tail, tail is the last node or the one
      before it, each counter counts the moves of its pointer, and no thread ever
      follows a null pointer or takes the dummy's value. */
  lemma ChainShape(es: seq<Event>, t: Tid)
    ensures var s := Run(Init(), es);
            && (forall i, j :: 0 <= i < j < |s.sh.linked| ==> s.sh.linked[i] != s.sh.linked[j])
            && ChainInv(s.sh) && EndsInv(s.sh)
            && (t in s.threads ==> !s.threads[t].pc.Fault?)
  {
    Reachable(es);
    var s := Run(Init(), es);
    hide Run, ContentInv, AnswersInv, EndsInv;
    if t in s.threads { assert LocalInv(s.sh, t, s.threads[t]); }
  }

  lemma {:induction false} RunSplits(s: State, es: seq<Event>, fs: seq<Event>)
    ensures Run(s, es + fs) == Run(Run(s, es), fs)
    decreases |es|
  {
    hide Apply;
    if es == [] {
      assert es + fs == fs;
    } else {
      assert (es + fs)[1..] == es[1..] + fs;
      RunSplits(Apply(s, es[0]), es[1..], fs);
    }
  }

  /** From any reachable state on, head and tail only move forward, the chain and
      the log only grow, links are final and values never change. */
  lemma OnlyForward(es: seq<Event>, fs: seq<Event>)
    ensures Forward(Run(Init(), es).sh, Run(Init(), es + fs).sh)
  {
    Reachable(es);
    RunSplits(Init(), es, fs);
    RunKeeps(Run(Init(), es), fs);
  }

  /** Two equal reads of head, with its counter, mean that it did not move in
      between; and so for tail. */
  lemma EqualReadsMeanNoMove(es: seq<Event>, fs: seq<Event>, k: nat)
    requires k <= |fs|
    ensures var a, b, c := Run(Init(), es).sh, Run(Init(), es + fs[..k]).sh, Run(Init(), es + fs).sh;
            (a.head == c.head ==> b.head == a.head) && (a.tail == c.tail ==> b.tail == a.tail)
  {
    OnlyForward(es, fs[..k]);
    OnlyForward(es + fs[..k], fs[k..]);
    assert es + fs[..k] + fs[k..] == es + fs;
    Reachable(es);
    Reachable(es + fs[..k]);
    Reachable(es + fs);
    hide Forward, SharedInv, Run, LocalInv;
    Between(Run(Init(), es).sh, Run(Init(), es + fs[..k]).sh, Run(Init(), es + fs).sh);
  }

  lemma Between(a: Shared, b: Shared, c: Shared)
    requires SharedInv(a) && SharedInv(b) && SharedInv(c) && Forward(a, b) && Forward(b, c)
    ensures (a.head == c.head ==> b.head == a.head) && (a.tail == c.tail ==> b.tail == a.tail)
  {
    assert a.head == c.head ==> a.hpos == b.hpos;
    assert a.tail == c.tail ==> a.tpos == b.tpos;
    hide ContentInv, ChainInv;
    assert b.linked[..|a.linked|] == a.linked;
    assert a.hpos == b.hpos ==> b.linked[a.hpos] == a.linked[a.hpos];
    assert a.tpos == b.tpos ==> b.linked[a.tpos] == a.linked[a.tpos];
  }

  /** When Push returns, tail has reached its node, whoever moved it. */
  lemma TailReachesThePush(es: seq<Event>, t: Tid)
    requires var s := Run(Init(), es); t in s.threads && s.threads[t].pc.Push? && s.threads[t].pc.push.SwingTail?
    ensures var s, s' := Run(Init(), es), Apply(Run(Init(), es), Step(t));
            var node := s.threads[t].pc.node;
            && t in s'.threads && s'.threads[t].pc.Idle? && node.At? && node.n in s'.sh.rank
            && s'.sh.rank[node.n] <= s'.sh.tpos
  {
    Reachable(es);
    hide Run, AnswersInv;
    var s := Run(Init(), es);
    assert LocalInv(s.sh, t, s.threads[t]);
    ChainNext(s.sh, s.threads[t].pc.push.ot);
    EndsLinked(s.sh);
    hide ContentInv, LocalInv;
  }

  /** With m values linked in total, no thread ever makes more than 3m failed
      loop trips. */
  lemma RetriesBounded(es: seq<Event>, t: Tid)
    requires t in Run(Init(), es).threads
    ensures var s := Run(Init(), es); s.threads[t].retries <= 3 * |Pushed(s.sh.log)|
  {
    Reachable(es);
    var s := Run(Init(), es);
    hide Run, AnswersInv, PcInv;
    assert LocalInv(s.sh, t, s.threads[t]);
  }

  /** A push takes effect at the successful CAS on next, a pop at the successful
      CAS on head, and then the value that was read before the CAS is the one at
      the front of the queue. No other step touches the log. */
  lemma EffectPoints(es: seq<Event>, e: Event)
    ensures var s, s' := Run(Init(), es), Apply(Run(Init(), es), e);
            var before, after := Replay(s.sh.log), Replay(s'.sh.log);
            before.Queue? && after.Queue? &&
            (s'.sh.log == s.sh.log ||
             (e.Step? && e.t in s.threads &&
              match s.threads[e.t].pc
              case Push(node, v, LinkCas(ot, _)) =>
                HasNext(s'.sh, ot) && Next(s'.sh, ot.ptr).ptr == node && after.items == before.items + [v]
              case Pop(HeadCas(oh, nx, v)) =>
                s.sh.head == oh && s'.sh.head == Counted(nx.ptr, oh.count + 1) && before.items == [v] + after.items
              case _ => false))
  {
    Reachable(es);
    var s := Run(Init(), es);
    var s' := Apply(s, e);
    ApplyKeeps(s, e);
    hide Run, AnswersInv;
    if s'.sh.log != s.sh.log {
      assert LocalInv(s.sh, e.t, s.threads[e.t]);
      EffectsOf(s.sh, e.t, s.threads[e.t]);
    }
  }

  lemma EffectsOf(sh: Shared, t: Tid, l: Local)
    requires SharedInv(sh) && LocalInv(sh, t, l) && Act(sh, t, l).0.log != sh.log
    ensures var sh' := Act(sh, t, l).0;
            var before, after := Replay(sh.log), Replay(sh'.log);
            before.Queue? && after.Queue? &&
            match l.pc
            case Push(node, v, LinkCas(ot, _)) =>
              HasNext(sh', ot) && Next(sh', ot.ptr).ptr == node && after.items == before.items + [v]
            case Pop(HeadCas(oh, nx, v)) =>
              sh.head == oh && sh'.head == Counted(nx.ptr, oh.count + 1) && before.items == [v] + after.items
            case _ => false
  {
    hide ChainInv, EndsInv, Of, Guarantees, AnswersInv;
    match l.pc
    case Push(node, v, LinkCas(ot, _)) => ChainNext(sh, ot); LinkKeeps(sh, t, node, v, ot); LogGrows(sh, Enq(t, v));
    case Pop(HeadCas(oh, nx, v)) =>
      EndsLinked(sh);
      MoveHeadKeeps(sh, t, oh, v);
      assert sh.vals[sh.hpos..] == [v] + sh.vals[sh.hpos + 1..];
    case _ =>
  }
}
