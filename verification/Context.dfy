/** Contexts with stacks of their own: the first frame that is built in a buffer,
    and switching between stacks, over registers and word memory. A word is eight
    bytes at an address that is a multiple of eight. */
module Context {

  type Cid = nat

  /** The callee-saved registers, the stack pointer and the instruction pointer. */
  datatype Regs = Regs(
    rsp: int, rbx: int, rbp: int, r12: int, r13: int, r14: int, r15: int, rip: int)

  type Memory = map<int, int>

  function Load(m: Memory, a: int): int { if a in m then m[a] else 0 }

  /** The words of six pushes from stack pointer t. */
  function Six(m: Memory, t: int, a: int, b: int, c: int, d: int, e: int, f: int): Memory {
    m[t - 8 := a][t - 16 := b][t - 24 := c][t - 32 := d][t - 40 := e][t - 48 := f]
  }

  // ----- the first frame -----

  /** Where the stack pointer is when the frame is begun, from the address of the
      last byte of the buffer. */
  function Top(last: int): int {
    var a := last - 64;
    a - a % 16 + 8
  }

  function FirstFrame(m: Memory, last: int, callRunner: int, runner: int): Memory {
    var top := Top(last);
    Six(m[top + 8 := runner][top - 8 := callRunner], top - 8, 0, 0, 0, 0, 0, 0)
  }

  /** The eight bytes at a are inside the buffer of n bytes at base. */
  predicate Inside(a: int, base: int, n: int) { base <= a && a + 8 <= base + n }

  predicate Writes(m: Memory, base: int, n: int, callRunner: int, runner: int, a: int) {
    a in FirstFrame(m, base + n - 1, callRunner, runner) && a !in m
  }

  /** No write of PrepareContextInBuffer leaves the buffer. */
  ghost predicate WritesInside(base: int, n: int) {
    forall m: Memory, callRunner, runner, a :: Writes(m, base, n, callRunner, runner, a) ==> Inside(a, base, n)
  }

  /** Exactly which buffers are large enough. */
  lemma FitsExactlyWhen(base: int, n: int)
    ensures WritesInside(base, n) <==> n >= 113 + (base + n - 65) % 16
  {
    var top := Top(base + n - 1);
    if WritesInside(base, n) {
      assert Writes(map[], base, n, 0, 0, top - 56);
    } else {
      var m: Memory, callRunner, runner, a :|
        Writes(m, base, n, callRunner, runner, a) && !Inside(a, base, n);
      assert top - 56 <= a <= top + 8;
    }
  }

  /** So 128 bytes are enough at every address, and no smaller size is. */
  lemma EnoughIs128(n: nat)
    ensures (forall base: nat :: WritesInside(base, n)) <==> n >= 128
  {
    if n >= 128 {
      forall base: nat ensures WritesInside(base, n) { FitsExactlyWhen(base, n); }
    } else {
      var base: nat := 80 + 15 * n;
      assert (base + n - 65) % 16 == 15;
      FitsExactlyWhen(base, n);
    }
  }

  // ----- one switch -----

  /** What leaving pushes: the return address and the six registers. */
  function Frame(m: Memory, r: Regs): Memory {
    Six(m[r.rsp - 8 := r.rip], r.rsp - 8, r.r15, r.r14, r.r13, r.r12, r.rbx, r.rbp)
  }

  /** What arriving on the stack at sp pops. */
  function Restore(m: Memory, sp: int): Regs {
    Regs(sp + 56, Load(m, sp + 8), Load(m, sp), Load(m, sp + 16), Load(m, sp + 24), Load(m, sp + 32),
         Load(m, sp + 40), Load(m, sp + 48))
  }

  /** The frame that was pushed is the frame that is popped. */
  lemma FrameRestores(m: Memory, r: Regs)
    ensures Restore(Frame(m, r), r.rsp - 56) == r
  {
  }

  /** A frame that was prepared starts CallRunner with a stack pointer that is
      eight below a multiple of sixteen, and the runner as its seventh argument. */
  lemma FirstFrameRestores(m: Memory, last: int, callRunner: int, runner: int)
    ensures var m', top := FirstFrame(m, last, callRunner, runner), Top(last);
      && Restore(m', top - 56) == Regs(top, 0, 0, 0, 0, 0, 0, callRunner)
      && (top + 8) % 16 == 0 && Load(m', top + 8) == runner
  {
  }

  // ----- any number of contexts -----

  datatype Stack = Stack(base: int, size: nat)

  predicate OnStack(a: int, k: Stack) { Inside(a, k.base, k.size) }

  /** See FitsExactlyWhen. */
  predicate Roomy(k: Stack) { k.size >= 113 + (k.base + k.size - 65) % 16 }

  predicate Apart(k: Stack, l: Stack) { k.base + k.size <= l.base || l.base + l.size <= k.base }

  /** `saved` is rsp_ of every context. `left` and `newborn` are history: the
      registers a context had when it last left, and the runner of a context that
      has not run yet. */
  datatype State = State(
    regs: Regs, mem: Memory, current: Cid, saved: map<Cid, int>, stacks: map<Cid, Stack>,
    left: map<Cid, Regs>, newborn: map<Cid, int>)

  datatype Event =
    | Compute(regs: Regs)                 // the current context changes registers
    | Write(a: int, v: int)               // and writes a word of its own stack
    | Setup(c: Cid, k: Stack, callRunner: int, runner: int)
    | SwitchTo(c: Cid, back: int)         // the call leaves `back` as return address

  /** Registers a context may have: the stack pointer is on its stack, aligned. */
  predicate Sane(r: Regs, k: Stack) { r.rsp % 8 == 0 && k.base <= r.rsp <= k.base + k.size }

  predicate Enabled(s: State, e: Event) {
    s.current in s.stacks &&
    match e
    case Compute(r) => Sane(r, s.stacks[s.current])
    case Write(a, _) => a % 8 == 0 && OnStack(a, s.stacks[s.current])
    case Setup(c, k, _, _) => c !in s.stacks && Roomy(k) && forall d :: d in s.stacks ==> Apart(k, s.stacks[d])
    case SwitchTo(c, _) =>
      c in s.stacks && (c == s.current || c in s.saved) && OnStack(s.regs.rsp - 56, s.stacks[s.current])
  }

  function Last(k: Stack): int { k.base + k.size - 1 }

  function SwitchStep(s: State, c: Cid, back: int): State {
    var r := s.regs.(rip := back);
    var m := Frame(s.mem, r);
    var saved := s.saved[s.current := r.rsp - 56];
    s.(mem := m, saved := saved, regs := Restore(m, if c in saved then saved[c] else 0), current := c,
       left := s.left[s.current := r], newborn := s.newborn - {c})
  }

  function SetupStep(s: State, c: Cid, k: Stack, callRunner: int, runner: int): State {
    s.(mem := FirstFrame(s.mem, Last(k), callRunner, runner),
       saved := s.saved[c := Top(Last(k)) - 56], stacks := s.stacks[c := k],
       left := s.left[c := Regs(Top(Last(k)), 0, 0, 0, 0, 0, 0, callRunner)], newborn := s.newborn[c := runner])
  }

  function Apply(s: State, e: Event): State {
    if !Enabled(s, e) then s else
    match e
    case Compute(r) => s.(regs := r)
    case Write(a, v) => s.(mem := s.mem[a := v])
    case Setup(c, k, callRunner, runner) => SetupStep(s, c, k, callRunner, runner)
    case SwitchTo(c, back) => SwitchStep(s, c, back)
  }

  function Run(s: State, es: seq<Event>): State
    decreases |es|
  {
    if es == [] then s else Run(Apply(s, es[0]), es[1..])
  }

  /** A thread on its own stack, before it has made any context. */
  function Init(r: Regs, k: Stack): State { State(r, map[], 0, map[], map[0 := k], map[], map[]) }

  // ----- what every reachable state satisfies -----

  /** A context that is not running is wholly on its stack. */
  ghost predicate Suspended(s: State, c: Cid)
    requires c in s.stacks
  {
    && c in s.saved && c in s.left
    && s.saved[c] == s.left[c].rsp - 56 && s.saved[c] % 8 == 0
    && OnStack(s.saved[c], s.stacks[c]) && s.saved[c] + 56 <= s.stacks[c].base + s.stacks[c].size
    && Restore(s.mem, s.saved[c]) == s.left[c]
  }

  ghost predicate Unstarted(s: State, c: Cid)
    requires c in s.stacks
  {
    && c in s.left && c in s.newborn && (s.left[c].rsp + 8) % 16 == 0
    && OnStack(s.left[c].rsp + 8, s.stacks[c]) && Load(s.mem, s.left[c].rsp + 8) == s.newborn[c]
  }

  ghost predicate StacksApart(stacks: map<Cid, Stack>) {
    forall c, d :: c in stacks && d in stacks && c != d ==> Apart(stacks[c], stacks[d])
  }

  ghost predicate Inv(s: State) {
    && s.current in s.stacks && Sane(s.regs, s.stacks[s.current])
    && StacksApart(s.stacks)
    && (forall c :: c in s.stacks && c != s.current ==> Suspended(s, c))
    && (forall c :: c in s.newborn ==> c in s.stacks && c != s.current && Unstarted(s, c))
  }

  /** Memory changed only on the stack k. */
  ghost predicate Same(m: Memory, m': Memory, k: Stack) {
    forall a :: a % 8 == 0 && !OnStack(a, k) ==> Load(m', a) == Load(m, a)
  }

  /** A suspended context does not notice what happens on another stack. */
  lemma SuspendedStays(s: State, s': State, c: Cid, k: Stack)
    requires c in s.stacks && Suspended(s, c) && c in s'.stacks && s'.stacks[c] == s.stacks[c]
    requires Apart(k, s.stacks[c]) && Same(s.mem, s'.mem, k)
    requires c in s.saved ==> c in s'.saved && s'.saved[c] == s.saved[c]
    requires c in s.left ==> c in s'.left && s'.left[c] == s.left[c]
    ensures Suspended(s', c)
  {
    var sp := s.saved[c];
    forall i | 0 <= i < 7 ensures Load(s'.mem, sp + 8 * i) == Load(s.mem, sp + 8 * i) {
      assert (sp + 8 * i) % 8 == 0 && !OnStack(sp + 8 * i, k);
    }
    assert Load(s'.mem, sp + 8 * 0) == Load(s.mem, sp) && Load(s'.mem, sp + 8 * 1) == Load(s.mem, sp + 8);
    assert Load(s'.mem, sp + 8 * 2) == Load(s.mem, sp + 16) && Load(s'.mem, sp + 8 * 3) == Load(s.mem, sp + 24);
    assert Load(s'.mem, sp + 8 * 4) == Load(s.mem, sp + 32) && Load(s'.mem, sp + 8 * 5) == Load(s.mem, sp + 40);
    assert Load(s'.mem, sp + 8 * 6) == Load(s.mem, sp + 48);
  }

  lemma UnstartedStays(s: State, s': State, c: Cid, k: Stack)
    requires c in s.stacks && c in s.newborn && Unstarted(s, c) && c in s'.stacks && s'.stacks[c] == s.stacks[c]
    requires Apart(k, s.stacks[c]) && Same(s.mem, s'.mem, k)
    requires c in s.left ==> c in s'.left && s'.left[c] == s.left[c]
    requires c in s'.newborn && s'.newborn[c] == s.newborn[c]
    ensures Unstarted(s', c)
  {
    var a := s.left[c].rsp + 8;
    assert a % 8 == 0 && !OnStack(a, k);
  }

  lemma FrameIsOnStack(m: Memory, r: Regs, k: Stack)
    requires r.rsp % 8 == 0 && r.rsp <= k.base + k.size && OnStack(r.rsp - 56, k)
    ensures Same(m, Frame(m, r), k)
  {
  }

  lemma FirstFrameStays(m: Memory, last: int, callRunner: int, runner: int, a: int)
    requires a < Top(last) - 56 || a > Top(last) + 8
    ensures Load(FirstFrame(m, last, callRunner, runner), a) == Load(m, a)
  {
  }

  lemma TopFits(k: Stack)
    requires Roomy(k)
    ensures k.base <= Top(Last(k)) - 56 && Top(Last(k)) + 16 <= k.base + k.size && Top(Last(k)) % 16 == 8
  {
  }

  /** Arriving does not depend on what leaving pushed elsewhere. */
  lemma FrameApart(m: Memory, r: Regs, sp: int)
    requires r.rsp <= sp || sp + 56 <= r.rsp - 56
    ensures Restore(Frame(m, r), sp) == Restore(m, sp)
  {
  }

  lemma FirstFrameIsOnStack(m: Memory, k: Stack, callRunner: int, runner: int)
    requires Roomy(k)
    ensures Same(m, FirstFrame(m, Last(k), callRunner, runner), k)
    ensures OnStack(Top(Last(k)) - 56, k) && OnStack(Top(Last(k)) + 8, k) && Top(Last(k)) % 16 == 8
  {
  }

  lemma WriteKeeps(s: State, a: int, v: int)
    requires Inv(s) && Enabled(s, Write(a, v))
    ensures Inv(Apply(s, Write(a, v)))
  {
    hide Suspended, Unstarted, Apart, Sane;
    var s', k := Apply(s, Write(a, v)), s.stacks[s.current];
    forall c | c in s'.stacks && c != s'.current ensures Suspended(s', c) { SuspendedStays(s, s', c, k); }
    forall c | c in s'.newborn ensures Unstarted(s', c) { UnstartedStays(s, s', c, k); }
  }

  lemma ComputeKeeps(s: State, r: Regs)
    requires Inv(s) && Enabled(s, Compute(r))
    ensures Inv(Apply(s, Compute(r)))
  {
    hide Apart, Sane, Restore, OnStack;
    var s' := Apply(s, Compute(r));
    forall c | c in s'.stacks && c != s'.current ensures Suspended(s', c) { assert Suspended(s, c); }
    forall c | c in s'.newborn ensures Unstarted(s', c) { assert Unstarted(s, c); }
  }

  lemma SetupKeeps(s: State, c: Cid, k: Stack, callRunner: int, runner: int)
    requires Inv(s) && Enabled(s, Setup(c, k, callRunner, runner))
    ensures Inv(SetupStep(s, c, k, callRunner, runner))
  {
    hide Suspended, Unstarted, Apart, Sane, FirstFrame, Top, Same;
    var s' := SetupStep(s, c, k, callRunner, runner);
    FirstFrameIsOnStack(s.mem, k, callRunner, runner);
    SetsUp(s, c, k, callRunner, runner);
    assert StacksApart(s'.stacks) by { MoreApart(s.stacks, c, k); }
    forall d | d in s'.stacks && d != s'.current ensures Suspended(s', d) {
      if d != c { SuspendedStays(s, s', d, k); }
    }
    forall d | d in s'.newborn ensures Unstarted(s', d) {
      if d != c { UnstartedStays(s, s', d, k); }
    }
  }

  lemma MoreApart(stacks: map<Cid, Stack>, c: Cid, k: Stack)
    requires StacksApart(stacks) && c !in stacks && forall d :: d in stacks ==> Apart(k, stacks[d])
    ensures StacksApart(stacks[c := k])
  {
  }

  lemma SetsUp(s: State, c: Cid, k: Stack, callRunner: int, runner: int)
    requires Roomy(k)
    ensures var s' := SetupStep(s, c, k, callRunner, runner); Suspended(s', c) && Unstarted(s', c)
  {
    FirstFrameRestores(s.mem, Last(k), callRunner, runner);
    FirstFrameIsOnStack(s.mem, k, callRunner, runner);
  }

  lemma SwitchKeeps(s: State, c: Cid, back: int)
    requires Inv(s) && Enabled(s, SwitchTo(c, back))
    ensures Inv(SwitchStep(s, c, back))
    ensures SwitchStep(s, c, back).regs == if c == s.current then s.regs.(rip := back) else s.left[c]
  {
    hide Suspended, Unstarted, Apart, Frame, Restore, Same;
    var s', k, r := SwitchStep(s, c, back), s.stacks[s.current], s.regs.(rip := back);
    FrameIsOnStack(s.mem, r, k);
    FrameRestores(s.mem, r);
    forall d | d in s'.stacks && (d != s'.current || c != s.current) ensures Suspended(s', d) {
      if d == s.current { Leaves(s, s', r); } else { SuspendedStays(s, s', d, k); }
    }
    forall d | d in s'.newborn ensures Unstarted(s', d) { UnstartedStays(s, s', d, k); }
    if c != s.current { Arrives(s', c); }
  }

  lemma Leaves(s: State, s': State, r: Regs)
    requires s.current in s.stacks && s'.stacks == s.stacks
    requires s.current in s'.saved && s'.saved[s.current] == r.rsp - 56
    requires s.current in s'.left && s'.left[s.current] == r
    requires Sane(r, s.stacks[s.current]) && OnStack(r.rsp - 56, s.stacks[s.current])
    requires Restore(s'.mem, r.rsp - 56) == r
    ensures Suspended(s', s.current)
  {
  }

  lemma Arrives(s: State, c: Cid)
    requires c in s.stacks && Suspended(s, c)
    ensures c in s.saved && c in s.left && Restore(s.mem, s.saved[c]) == s.left[c] && Sane(s.left[c], s.stacks[c])
  {
  }

  lemma ApplyKeeps(s: State, e: Event)
    requires Inv(s)
    ensures Inv(Apply(s, e))
  {
    hide Inv, SwitchStep, SetupStep;
    if Enabled(s, e) {
      match e
      case Compute(r) => ComputeKeeps(s, r);
      case Write(a, v) => WriteKeeps(s, a, v);
      case Setup(c, k, callRunner, runner) => SetupKeeps(s, c, k, callRunner, runner);
      case SwitchTo(c, back) => SwitchKeeps(s, c, back);
    }
  }

  lemma {:induction false} RunKeeps(s: State, es: seq<Event>)
    requires Inv(s)
    ensures Inv(Run(s, es))
    decreases |es|
  {
    hide Inv, Apply;
    if es != [] {
      ApplyKeeps(s, es[0]);
      RunKeeps(Apply(s, es[0]), es[1..]);
    }
  }

  lemma Reachable(r: Regs, k: Stack, es: seq<Event>)
    requires Sane(r, k)
    ensures Inv(Run(Init(r, k), es))
  {
    RunKeeps(Init(r, k), es);
  }

  // ----- the round trip -----

  /** c stays away: nobody switches to it. */
  ghost predicate NotTo(es: seq<Event>, c: Cid) { forall i :: 0 <= i < |es| && es[i].SwitchTo? ==> es[i].c != c }

  /** Nobody touches the stack of a context that stays away, nor its saved
      stack pointer. */
  lemma {:induction false} StaysAway(s: State, es: seq<Event>, c: Cid, a: int)
    requires Inv(s) && c in s.stacks && c != s.current && NotTo(es, c)
    requires a % 8 == 0 && OnStack(a, s.stacks[c])
    ensures var s' := Run(s, es);
      && c in s'.stacks && c != s'.current && s'.stacks[c] == s.stacks[c]
      && c in s.left && c in s'.left && s'.left[c] == s.left[c]
      && Load(s'.mem, a) == Load(s.mem, a)
      && (c in s.newborn ==> c in s'.newborn && s'.newborn[c] == s.newborn[c])
    decreases |es|
  {
    hide Inv, Run, Apply, OnStack;
    SuspendedIs(s, c);
    if es == [] {
      NoEvents(s);
    } else {
      OneAway(s, es[0], c, a);
      ApplyKeeps(s, es[0]);
      StaysAway(Apply(s, es[0]), es[1..], c, a);
      OneEvent(s, es);
    }
  }

  lemma SuspendedIs(s: State, c: Cid)
    requires Inv(s) && c in s.stacks && c != s.current
    ensures c in s.saved && c in s.left
  {
    assert Suspended(s, c);
  }

  lemma NoEvents(s: State)
    ensures Run(s, []) == s
  {
  }

  lemma OneEvent(s: State, es: seq<Event>)
    requires es != []
    ensures Run(s, es) == Run(Apply(s, es[0]), es[1..])
  {
  }

  lemma OneAway(s: State, e: Event, c: Cid, a: int)
    requires Inv(s) && c in s.stacks && c != s.current && c in s.left && (e.SwitchTo? ==> e.c != c)
    requires a % 8 == 0 && OnStack(a, s.stacks[c])
    ensures var s' := Apply(s, e);
      && c in s'.stacks && c != s'.current && s'.stacks[c] == s.stacks[c]
      && c in s'.left && s'.left[c] == s.left[c]
      && Load(s'.mem, a) == Load(s.mem, a)
      && (c in s.newborn ==> c in s'.newborn && s'.newborn[c] == s.newborn[c])
  {
    hide Suspended, Unstarted, Frame, FirstFrame, Restore, Top;
    var k := s.stacks[s.current];
    assert Apart(k, s.stacks[c]);
    match e
    case SwitchTo(d, back) => if Enabled(s, e) { FrameIsOnStack(s.mem, s.regs.(rip := back), k); }
    case Setup(d, l, callRunner, runner) => if Enabled(s, e) { FirstFrameIsOnStack(s.mem, l, callRunner, runner); }
    case _ =>
  }

  /** The context that runs may use its registers and its own stack as it likes, and
      nobody's saved state changes. */
  lemma RunsFreely(r: Regs, k: Stack, es: seq<Event>, regs: Regs, a: int, v: int)
    requires Sane(r, k)
    requires var s := Run(Init(r, k), es); Enabled(s, Compute(regs)) && Enabled(s, Write(a, v))
    ensures var s := Run(Init(r, k), es);
      var s' := Apply(Apply(s, Compute(regs)), Write(a, v));
      && s'.regs == regs && Load(s'.mem, a) == v && s'.current == s.current && s'.saved == s.saved
      && forall c :: c in s.stacks && c != s.current ==> Suspended(s', c) && s'.left[c] == s.left[c]
  {
    Reachable(r, k, es);
    var s := Run(Init(r, k), es);
    hide Run, Suspended;
    ApplyKeeps(s, Compute(regs));
    ApplyKeeps(Apply(s, Compute(regs)), Write(a, v));
    forall c | c in s.stacks && c != s.current ensures c in s.left { SuspendedIs(s, c); }
  }

  /** Whatever the other contexts do meanwhile, a context that left and is
      switched back to has its callee-saved registers, its stack pointer and its
      return address again, and its stack as it left it, down to the stack
      pointer. */
  lemma RoundTrip(r: Regs, k: Stack, before: seq<Event>, d: Cid, back: int, es: seq<Event>, back': int, a: int)
    requires Sane(r, k)
    requires var s := Run(Init(r, k), before); Enabled(s, SwitchTo(d, back)) && d != s.current && NotTo(es, s.current)
    requires var s := Run(Init(r, k), before);
      && Enabled(Run(Apply(s, SwitchTo(d, back)), es), SwitchTo(s.current, back'))
      && a % 8 == 0 && OnStack(a, s.stacks[s.current]) && a >= s.regs.rsp
    ensures var s := Run(Init(r, k), before);
      var s' := Apply(Run(Apply(s, SwitchTo(d, back)), es), SwitchTo(s.current, back'));
      && s'.current == s.current && s'.regs == s.regs.(rip := back) && Load(s'.mem, a) == Load(s.mem, a)
  {
    hide Run, Inv, Enabled, SwitchStep, OnStack;
    var s := Run(Init(r, k), before);
    Reachable(r, k, before);
    var c := s.current;
    var t := Apply(s, SwitchTo(d, back));
    LeavesBehind(s, d, back, a);
    ApplyKeeps(s, SwitchTo(d, back));
    StaysAway(t, es, c, a);
    RunKeeps(t, es);
    ComesBack(Run(t, es), c, back', a);
  }

  lemma LeavesBehind(s: State, d: Cid, back: int, a: int)
    requires Inv(s) && Enabled(s, SwitchTo(d, back)) && d != s.current && a >= s.regs.rsp
    ensures var t := Apply(s, SwitchTo(d, back));
      && s.current in t.left && t.left[s.current] == s.regs.(rip := back) && t.stacks == s.stacks && t.current == d
      && Load(t.mem, a) == Load(s.mem, a)
  {
  }

  lemma ComesBack(s: State, c: Cid, back: int, a: int)
    requires Inv(s) && Enabled(s, SwitchTo(c, back)) && c != s.current && a % 8 == 0 && OnStack(a, s.stacks[c])
    ensures var s' := Apply(s, SwitchTo(c, back));
      && c in s.left && s'.regs == s.left[c] && s'.current == c && Load(s'.mem, a) == Load(s.mem, a)
  {
    hide Suspended, Unstarted, Frame, Restore;
    assert Apart(s.stacks[s.current], s.stacks[c]);
    SuspendedIs(s, c);
    SwitchKeeps(s, c, back);
    FrameIsOnStack(s.mem, s.regs.(rip := back), s.stacks[s.current]);
  }

  /** Whatever happens between its Setup and the first switch to it, a new
      context begins in CallRunner, with the stack aligned as a call leaves it and
      the runner as the seventh argument. */
  lemma FirstEntry(r: Regs, k: Stack, before: seq<Event>, c: Cid, l: Stack, callRunner: int, runner: int,
                   es: seq<Event>, back: int)
    requires Sane(r, k) && Enabled(Run(Init(r, k), before), Setup(c, l, callRunner, runner)) && NotTo(es, c)
    requires var t := Run(Apply(Run(Init(r, k), before), Setup(c, l, callRunner, runner)), es);
      Enabled(t, SwitchTo(c, back))
    ensures var t := Run(Apply(Run(Init(r, k), before), Setup(c, l, callRunner, runner)), es);
      var s' := Apply(t, SwitchTo(c, back));
      && s'.regs.rip == callRunner && (s'.regs.rsp + 8) % 16 == 0
      && Load(s'.mem, s'.regs.rsp + 8) == runner && OnStack(s'.regs.rsp + 8, l)
  {
    hide Run, Inv, Enabled, SwitchStep, OnStack, Top;
    var s := Run(Init(r, k), before);
    Reachable(r, k, before);
    var u := Apply(s, Setup(c, l, callRunner, runner));
    ApplyKeeps(s, Setup(c, l, callRunner, runner));
    PreparedIs(s, c, l, callRunner, runner);
    var a := u.left[c].rsp + 8;
    StaysAway(u, es, c, a);
    RunKeeps(u, es);
    ComesBack(Run(u, es), c, back, a);
  }

  lemma PreparedIs(s: State, c: Cid, l: Stack, callRunner: int, runner: int)
    requires Inv(s) && Enabled(s, Setup(c, l, callRunner, runner))
    ensures var u := Apply(s, Setup(c, l, callRunner, runner));
      && c in u.stacks && c != u.current && u.stacks[c] == l && c in u.left && u.left[c].rip == callRunner
      && (u.left[c].rsp + 8) % 16 == 0
      && OnStack(u.left[c].rsp + 8, l) && Load(u.mem, u.left[c].rsp + 8) == runner
  {
    SetsUp(s, c, l, callRunner, runner);
  }
}
