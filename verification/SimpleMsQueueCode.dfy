/** SimpleMSQueue::Push and TryPop as the source writes them, loops included.
    Before every atomic access the other threads may run: a call is handed the
    finite list of what they do, and must come back having done its own work. */
module SimpleMsQueueCode {
  import opened LockFree
  import opened SimpleMsQueue
  import opened Turns

  datatype Answer = None | Some(v: Value)

  /** What the others are going to do. */
  type Env = seq<Turn<Event>>

  function MineOf(t: Tid): Event -> bool { (e: Event) => e.t == t }

  lemma {:induction false} OthersLeaveMe(s: State, es: seq<Event>, t: Tid)
    requires t in s.threads && forall j :: 0 <= j < |es| ==> es[j].t != t
    ensures t in Run(s, es).threads && Run(s, es).threads[t] == s.threads[t]
    decreases |es|
  {
    if es != [] { OthersLeaveMe(Apply(s, es[0]), es[1..], t); }
  }

  function Last<T>(s: seq<T>): T
    requires s != []
  {
    s[|s| - 1]
  }

  /** What the successful CAS on head records. */
  lemma HeadSwings(sh: Shared, t: Tid, h: Ptr)
    requires SharedInv(sh) && HasNext(sh, h) && sh.head == h && sh.rank[h.n] < sh.tpos
    ensures sh.hpos < |sh.vals|
    ensures var b := MoveHead(sh, t, Next(sh, h));
      && b.head == Next(sh, h) && 0 < b.hpos <= |b.vals| && b.claims != [] && Last(b.claims) == t
      && b.log != [] && Last(b.log) == Deq(t, b.vals[b.hpos - 1])
  {
    hide Replay, Pushed, ChainInv, ContentInv, EndsInv, Guarantees, Takeable, Of;
    MoveHeadShape(sh, t, h);
  }

  /** How far tail is behind. */
  function Lag(sh: Shared): nat { if sh.tpos < |sh.linked| then |sh.linked| - sh.tpos else 0 }

  class MsQueue {
    var sh: Shared
    var threads: map<Tid, Local>
    ghost var trace: seq<Event>  // everything that happened so far

    /** The object is in a state some run of the step machine reaches. */
    ghost predicate Valid()
      reads this
    {
      State(sh, threads) == Run(Init(), trace)
    }

    constructor ()
      ensures Valid() && trace == [] && threads == map[]
    {
      sh, threads, trace := Init().sh, map[], [];
    }

    ghost function View(): State
      reads this
    {
      State(sh, threads)
    }

    /** Thread t may take its next step, and `env` is what the others will do. */
    ghost predicate Ready(t: Tid, env: Env)
      reads this
    {
      Valid() && Inv(View()) && StrangersInv(View()) && t in threads && Foreign(MineOf(t), env)
    }

    /** Time passed: t did one thing more, and the others took one turn before it. */
    twostate predicate Passed(t: Tid, env: Env, new rest: Env)
      reads this
    {
      && Ready(t, rest) && old(trace) <= trace && Spent(MineOf(t), old(trace), env, trace, rest)
      && (if env == [] then rest == [] else |rest| < |env|)
    }

    /** Records that event e turned `before` into the current fields. */
    ghost method Did(before: State, e: Event)
      requires before == Run(Init(), trace) && View() == Apply(before, e)
      modifies this`trace
      ensures trace == old(trace) + [e]
      ensures Valid() && Inv(View()) && StrangersInv(View())
      ensures ByOthers(MineOf(e.t), trace) == ByOthers(MineOf(e.t), old(trace))
      ensures Mine(MineOf(e.t), trace) == Mine(MineOf(e.t), old(trace)) + 1
    {
      hide Apply, Inv, StrangersInv, ByOthers, Mine;
      IMove(MineOf(e.t), trace, e);
      InitKeeps();
      RunSplits(Init(), trace, [e]);
      RunKeeps(Init(), trace + [e]);
      assert Run(before, [e]) == Apply(before, e) by { assert [e][1..] == []; }
      trace := trace + [e];
    }

    /** The others take their turn. */
    method Others(t: Tid, env: Env) returns (rest: Env, weakFails: bool)
      requires Ready(t, env)
      modifies this
      ensures Ready(t, rest) && old(trace) <= trace && rest == Later(env) && threads[t] == old(threads[t])
      ensures ByOthers(MineOf(t), trace) + AllOf(rest) == ByOthers(MineOf(t), old(trace)) + AllOf(env)
      ensures Mine(MineOf(t), trace) == Mine(MineOf(t), old(trace))
      ensures env == [] ==> sh == old(sh) && !weakFails
    {
      hide Apply, Inv, StrangersInv, ByOthers, Mine, AllOf, Foreign;
      rest, weakFails := [], false;
      if env != [] {
        TurnTaken(MineOf(t), trace, env);
        var after := Run(State(sh, threads), env[0].es);
        OthersLeaveMe(State(sh, threads), env[0].es, t);
        RunSplits(Init(), trace, env[0].es);
        RunKeeps(View(), env[0].es);
        sh, threads, trace := after.sh, after.threads, trace + env[0].es;
        rest, weakFails := env[1..], env[0].weakFails;
      }
    }

    // ----- the atomic accesses of Push -----

    method LoadTail(t: Tid, env: Env) returns (rest: Env, oldTail: Ptr)
      requires Ready(t, env) && threads[t].pc.Push? && threads[t].pc.push.LoadTail?
      modifies this
      ensures Passed(t, env, rest)
      ensures threads[t] == old(threads[t]).(pc := old(threads[t].pc).(push := PushAt.LoadNext(oldTail)))
      ensures env == [] ==> sh == old(sh) && oldTail == sh.tail
    {
      hide ChainInv, EndsInv, ContentInv, Of, StrangersInv, Run, ByOthers, Mine, AllOf, Foreign;
      var w;
      rest, w := Others(t, env);
      ghost var before := View();
      oldTail := sh.tail;
      threads := threads[t := threads[t].(pc := threads[t].pc.(push := PushAt.LoadNext(oldTail)))];
      Did(before, Step(t, w));
    }

    method NewNode(t: Tid, env: Env, item: Value) returns (rest: Env, node: Ptr)
      requires Ready(t, env) && threads[t].pc.Idle?
      modifies this
      ensures Passed(t, env, rest)
      ensures threads[t].pc == Pc.Push(node, item, PushAt.LoadTail) && threads[t].returned == old(threads[t].returned)
    {
      hide ChainInv, EndsInv, ContentInv, Of, StrangersInv, Run, ByOthers, Mine, AllOf, Foreign;
      var w;
      rest, w := Others(t, env);
      ghost var before := View();
      node := At(|sh.nodes|);
      sh := sh.(nodes := sh.nodes + [Node(Full(item), Null)], owner := sh.owner + [t]);
      threads := threads[t := threads[t].(pc := Pc.Push(node, item, PushAt.LoadTail), since := Measure(sh))];
      Did(before, BeginPush(t, item));
    }

    method CasTail(expected: Ptr, desired: Ptr, weakFails: bool) returns (ok: bool)
      modifies this`sh
      ensures ok == (old(sh.tail) == expected && !weakFails)
      ensures sh == if ok then MoveTail(old(sh), desired) else old(sh)
    {
      ok := sh.tail == expected && !weakFails;
      if ok { sh := MoveTail(sh, desired); }
    }

    method LoadNext(t: Tid, env: Env, oldTail: Ptr) returns (rest: Env, next: Ptr)
      requires Ready(t, env) && threads[t].pc.Push? && threads[t].pc.push == PushAt.LoadNext(oldTail)
      modifies this
      ensures Passed(t, env, rest)
      ensures var push := if next != Null then HelpLoad(oldTail) else LinkCas(oldTail);
        threads[t] == old(threads[t]).(pc := old(threads[t].pc).(push := push))
      ensures env == [] ==> sh == old(sh) && Deref(sh, oldTail) && next == Next(sh, oldTail)
    {
      hide ChainInv, EndsInv, ContentInv, Of, StrangersInv, Run, ByOthers, Mine, AllOf, Foreign;
      var w;
      rest, w := Others(t, env);
      ghost var before := View();
      ChainNext(sh, oldTail);
      next := Next(sh, oldTail);
      var push := if next != Null then HelpLoad(oldTail) else LinkCas(oldTail);
      threads := threads[t := threads[t].(pc := threads[t].pc.(push := push))];
      Did(before, Step(t, w));
    }

    method LoadNextAgain(t: Tid, env: Env, oldTail: Ptr) returns (rest: Env, next: Ptr)
      requires Ready(t, env) && threads[t].pc.Push? && threads[t].pc.push == HelpLoad(oldTail)
      modifies this
      ensures Passed(t, env, rest)
      ensures threads[t] == old(threads[t]).(pc := old(threads[t].pc).(push := HelpCas(oldTail, next)))
      ensures env == [] ==> sh == old(sh)
    {
      hide ChainInv, EndsInv, ContentInv, Of, StrangersInv, Run, ByOthers, Mine, AllOf, Foreign;
      var w;
      rest, w := Others(t, env);
      ghost var before := View();
      next := Next(sh, oldTail);
      threads := threads[t := threads[t].(pc := threads[t].pc.(push := HelpCas(oldTail, next)))];
      Did(before, Step(t, w));
    }

    method HelpTail(t: Tid, env: Env, oldTail: Ptr, next: Ptr) returns (rest: Env)
      requires Ready(t, env) && threads[t].pc.Push? && threads[t].pc.push == HelpCas(oldTail, next)
      modifies this
      ensures Passed(t, env, rest)
      ensures threads[t].pc == old(threads[t].pc).(push := PushAt.LoadTail)
      ensures threads[t].returned == old(threads[t].returned)
      ensures env == [] && old(sh.tail) == oldTail ==> Lag(sh) < Lag(old(sh))
    {
      hide ChainInv, EndsInv, ContentInv, Of, StrangersInv, Run, ByOthers, Mine, AllOf, Foreign;
      var w;
      rest, w := Others(t, env);
      ghost var before := View();
      EndsLinked(sh);
      var moved := CasTail(oldTail, next, w);
      var pc := threads[t].pc.(push := PushAt.LoadTail);
      threads := threads[t := Again(sh, threads[t], pc, moved || sh.tail != oldTail)];
      Did(before, Step(t, w));
    }

    method LinkNode(t: Tid, env: Env, node: Ptr, v: Value, oldTail: Ptr) returns (rest: Env, ok: bool)
      requires Ready(t, env) && threads[t].pc == Pc.Push(node, v, LinkCas(oldTail))
      modifies this
      ensures Passed(t, env, rest)
      ensures threads[t].pc == Pc.Push(node, v, if ok then SwingTail(oldTail) else PushAt.LoadTail)
      ensures threads[t].returned == old(threads[t].returned)
      ensures ok ==>
        && Deref(sh, oldTail) && Next(sh, oldTail) == node && sh.linked != [] && node == At(Last(sh.linked))
        && sh.log != [] && Last(sh.log) == Enq(t, v)
      ensures env == [] && (Deref(old(sh), oldTail) ==> Next(old(sh), oldTail) == Null) ==> ok
    {
      hide ChainInv, EndsInv, ContentInv, Of, StrangersInv, Run, ByOthers, Mine, AllOf, Foreign;
      var w;
      rest, w := Others(t, env);
      ghost var before := View();
      ChainNext(sh, oldTail);
      ok := Next(sh, oldTail) == Null && !w;
      if ok {
        sh := Link(sh, t, node.n, v, oldTail.n);
        threads := threads[t := threads[t].(pc := Pc.Push(node, v, SwingTail(oldTail)))];
      } else {
        threads := threads[t := Again(sh, threads[t], Pc.Push(node, v, PushAt.LoadTail), Next(sh, oldTail) != Null)];
      }
      Did(before, Step(t, w));
    }

    method FinishPush(t: Tid, env: Env, node: Ptr, v: Value, oldTail: Ptr) returns (rest: Env)
      requires Ready(t, env) && threads[t].pc == Pc.Push(node, v, SwingTail(oldTail))
      modifies this
      ensures Passed(t, env, rest)
      ensures threads[t].pc.Idle? && threads[t].returned == old(threads[t].returned) + [Enq(t, v)]
    {
      hide ChainInv, EndsInv, ContentInv, Of, StrangersInv, Run, ByOthers, Mine, AllOf, Foreign;
      var w;
      rest, w := Others(t, env);
      ghost var before := View();
      var _ := CasTail(oldTail, node, false);  // a strong CAS
      threads := threads[t := Return(threads[t], Enq(t, v))];
      Did(before, Step(t, w));
    }

    /** SimpleMSQueue::Push. It returns after finitely many turns of the others,
        whatever they did, having pushed `item` once. */
    method Push(t: Tid, item: Value, others: Env) returns (env: Env)
      requires Ready(t, others) && threads[t].pc.Idle?
      modifies this
      ensures Passed(t, others, env) && threads[t].pc.Idle?
      ensures threads[t].returned == old(threads[t].returned) + [Enq(t, item)]
    {
      hide Inv, StrangersInv, Run, Foreign, ByOthers, Mine, AllOf, Valid, View;
      var newNode;
      env, newNode := NewNode(t, others, item);
      var oldTail, next, ok := Null, Null, false;
      while true
        invariant Passed(t, others, env)
        invariant threads[t].pc == Pc.Push(newNode, item, PushAt.LoadTail)
        invariant threads[t].returned == old(threads[t].returned)
        decreases |env|, Lag(sh)
      {
        env, oldTail := LoadTail(t, env);
        env, next := LoadNext(t, env, oldTail);
        if next != Null {
          env, next := LoadNextAgain(t, env, oldTail);
          env := HelpTail(t, env, oldTail, next);
          continue;
        }
        env, ok := LinkNode(t, env, newNode, item, oldTail);
        if ok {
          break;
        }
      }
      env := FinishPush(t, env, newNode, item, oldTail);
    }

    // ----- the atomic accesses of TryPop -----

    method StartPop(t: Tid, env: Env) returns (rest: Env)
      requires Ready(t, env) && threads[t].pc.Idle?
      modifies this
      ensures Passed(t, env, rest)
      ensures threads[t].pc == Pc.Acquire(AcquireAt.LoadHead) && threads[t].returned == old(threads[t].returned)
    {
      hide ChainInv, EndsInv, ContentInv, Of, StrangersInv, Run, ByOthers, Mine, AllOf, Foreign;
      var w;
      rest, w := Others(t, env);
      ghost var before := View();
      threads := threads[t := threads[t].(pc := Pc.Acquire(AcquireAt.LoadHead), since := Measure(sh))];
      Did(before, BeginPop(t));
    }

    method LoadHead(t: Tid, env: Env) returns (rest: Env, head: Ptr)
      requires Ready(t, env) && threads[t].pc == Pc.Acquire(AcquireAt.LoadHead)
      modifies this
      ensures Passed(t, env, rest)
      ensures threads[t] == old(threads[t]).(pc := Pc.Acquire(Protect(head)))
      ensures env == [] ==> sh == old(sh) && head == sh.head
    {
      hide ChainInv, EndsInv, ContentInv, Of, StrangersInv, Run, ByOthers, Mine, AllOf, Foreign;
      var w;
      rest, w := Others(t, env);
      ghost var before := View();
      head := sh.head;
      threads := threads[t := threads[t].(pc := Pc.Acquire(Protect(head)))];
      Did(before, Step(t, w));
    }

    method StoreHazard(t: Tid, env: Env, p: Ptr) returns (rest: Env)
      requires Ready(t, env) && threads[t].pc == Pc.Acquire(Protect(p))
      modifies this
      ensures Passed(t, env, rest)
      ensures threads[t] == old(threads[t]).(pc := Pc.Acquire(Validate(p)))
      ensures env == [] ==> sh == old(sh).(hazard := old(sh.hazard)[t := p])
    {
      hide ChainInv, EndsInv, ContentInv, Of, StrangersInv, Run, ByOthers, Mine, AllOf, Foreign;
      var w;
      rest, w := Others(t, env);
      ghost var before := View();
      sh := sh.(hazard := sh.hazard[t := p]);
      threads := threads[t := threads[t].(pc := Pc.Acquire(Validate(p)))];
      Did(before, Step(t, w));
    }

    method LoadHeadAgain(t: Tid, env: Env, p: Ptr) returns (rest: Env, head: Ptr)
      requires Ready(t, env) && threads[t].pc == Pc.Acquire(Validate(p))
      modifies this
      ensures Passed(t, env, rest)
      ensures threads[t].pc == if head == p then Look(p, TestNext) else Pc.Acquire(Protect(head))
      ensures threads[t].returned == old(threads[t].returned)
      ensures env == [] ==> sh == old(sh) && head == sh.head
    {
      hide ChainInv, EndsInv, ContentInv, Of, StrangersInv, Run, ByOthers, Mine, AllOf, Foreign;
      var w;
      rest, w := Others(t, env);
      ghost var before := View();
      head := sh.head;
      threads := threads[t :=
        if head == p then threads[t].(pc := Look(p, TestNext))
        else Again(sh, threads[t], Pc.Acquire(Protect(head)), true)];
      Did(before, Step(t, w));
    }

    /** Mutator::Acquire(&head). */
    method Acquire(t: Tid, env: Env) returns (rest: Env, head: Ptr)
      requires Ready(t, env) && threads[t].pc == Pc.Acquire(AcquireAt.LoadHead)
      modifies this
      ensures Passed(t, env, rest)
      ensures threads[t].pc == Look(head, TestNext) && threads[t].returned == old(threads[t].returned)
      ensures env == [] ==> sh == old(sh).(hazard := sh.hazard) && head == sh.head
    {
      hide Inv, StrangersInv, ByOthers, Mine, AllOf, Foreign;
      var beforeStore, afterStore := Null, Null;
      rest, beforeStore := LoadHead(t, env);
      while true
        invariant Passed(t, env, rest)
        invariant threads[t].pc == Pc.Acquire(Protect(beforeStore)) && threads[t].returned == old(threads[t].returned)
        invariant env == [] ==> sh == old(sh).(hazard := sh.hazard) && beforeStore == sh.head
        decreases |rest|, if sh.head == beforeStore then 0 else 1
      {
        rest := StoreHazard(t, rest, beforeStore);
        rest, afterStore := LoadHeadAgain(t, rest, beforeStore);
        if afterStore == beforeStore {
          return rest, afterStore;
        }
        beforeStore := afterStore;
      }
    }

    method FoundNothing(t: Tid, env: Env, h: Ptr) returns (rest: Env, empty: bool)
      requires Ready(t, env) && threads[t].pc == Look(h, TestNext)
      modifies this
      ensures Passed(t, env, rest)
      ensures threads[t] == old(threads[t]).(pc := Look(h, if empty then GiveUp else TestTail))
      ensures env == [] ==> sh == old(sh).(log := sh.log)
    {
      hide ChainInv, EndsInv, ContentInv, Of, StrangersInv, Run, ByOthers, Mine, AllOf, Foreign;
      var w;
      rest, w := Others(t, env);
      ghost var before := View();
      ChainNext(sh, h);
      empty := Next(sh, h) == Null;
      if empty { sh := sh.(log := sh.log + [Entry.Empty(t)]); }
      threads := threads[t := threads[t].(pc := Look(h, if empty then GiveUp else TestTail))];
      Did(before, Step(t, w));
    }

    method AnswerEmpty(t: Tid, env: Env, h: Ptr) returns (rest: Env)
      requires Ready(t, env) && threads[t].pc == Look(h, GiveUp)
      modifies this
      ensures Passed(t, env, rest)
      ensures threads[t].pc.Idle? && threads[t].returned == old(threads[t].returned) + [Entry.Empty(t)]
    {
      hide ChainInv, EndsInv, ContentInv, Of, StrangersInv, Run, ByOthers, Mine, AllOf, Foreign;
      var w;
      rest, w := Others(t, env);
      ghost var before := View();
      sh := sh.(hazard := sh.hazard[t := Null]);
      threads := threads[t := Return(threads[t], Entry.Empty(t))];
      Did(before, Step(t, w));
    }

    method TailLags(t: Tid, env: Env, h: Ptr) returns (rest: Env, lagging: bool)
      requires Ready(t, env) && threads[t].pc == Look(h, TestTail)
      modifies this
      ensures Passed(t, env, rest)
      ensures threads[t] == old(threads[t]).(pc := Look(h, if lagging then LagLoad else HeadLoad))
      ensures env == [] ==> sh == old(sh) && lagging == (h == sh.tail)
    {
      hide ChainInv, EndsInv, ContentInv, Of, StrangersInv, Run, ByOthers, Mine, AllOf, Foreign;
      var w;
      rest, w := Others(t, env);
      ghost var before := View();
      lagging := h == sh.tail;
      threads := threads[t := threads[t].(pc := Look(h, if lagging then LagLoad else HeadLoad))];
      Did(before, Step(t, w));
    }

    method LoadNextOf(t: Tid, env: Env, h: Ptr) returns (rest: Env, next: Ptr)
      requires Ready(t, env) && (threads[t].pc == Look(h, LagLoad) || threads[t].pc == Look(h, HeadLoad))
      modifies this
      ensures Passed(t, env, rest)
      ensures var look := if old(threads[t].pc.look.LagLoad?) then LagCas(next) else HeadCas(next);
        threads[t] == old(threads[t]).(pc := Look(h, look))
      ensures env == [] ==> sh == old(sh)
    {
      hide ChainInv, EndsInv, ContentInv, Of, StrangersInv, Run, ByOthers, Mine, AllOf, Foreign;
      var w;
      rest, w := Others(t, env);
      ghost var before := View();
      next := Next(sh, h);
      var look := if threads[t].pc.look.LagLoad? then LagCas(next) else HeadCas(next);
      threads := threads[t := threads[t].(pc := Look(h, look))];
      Did(before, Step(t, w));
    }

    method HelpLag(t: Tid, env: Env, h: Ptr, next: Ptr) returns (rest: Env)
      requires Ready(t, env) && threads[t].pc == Look(h, LagCas(next))
      modifies this
      ensures Passed(t, env, rest)
      ensures threads[t].pc == Pc.Acquire(AcquireAt.LoadHead) && threads[t].returned == old(threads[t].returned)
      ensures env == [] && old(sh.tail) == h ==> Lag(sh) < Lag(old(sh))
    {
      hide ChainInv, EndsInv, ContentInv, Of, StrangersInv, Run, ByOthers, Mine, AllOf, Foreign;
      var w;
      rest, w := Others(t, env);
      ghost var before := View();
      EndsLinked(sh);
      var moved := CasTail(h, next, w);
      threads := threads[t := Again(sh, threads[t], Pc.Acquire(AcquireAt.LoadHead), moved || sh.tail != h)];
      Did(before, Step(t, w));
    }

    method SwingHead(t: Tid, env: Env, h: Ptr, next: Ptr) returns (rest: Env, ok: bool)
      requires Ready(t, env) && threads[t].pc == Look(h, HeadCas(next))
      modifies this
      ensures Passed(t, env, rest)
      ensures threads[t].pc == if ok then Take(h, ReadNext) else Pc.Acquire(AcquireAt.LoadHead)
      ensures threads[t].returned == old(threads[t].returned)
      ensures ok ==>
        && sh.head == next && 0 < sh.hpos <= |sh.vals| && sh.claims != []
        && Last(sh.claims) == t && sh.log != [] && Last(sh.log) == Deq(t, sh.vals[sh.hpos - 1])
      ensures env == [] && old(sh.head) == h ==> ok
    {
      hide SharedInv, Of, StrangersInv, Run, MoveHead, Last, ByOthers, Mine, AllOf, Foreign;
      var w;
      rest, w := Others(t, env);
      ghost var before := View();
      if sh.head == h { HeadSwings(sh, t, h); }
      ok := sh.head == h && !w;
      if ok {
        sh := MoveHead(sh, t, next);
        threads := threads[t := threads[t].(pc := Take(h, ReadNext))];
      } else {
        threads := threads[t := Again(sh, threads[t], Pc.Acquire(AcquireAt.LoadHead), sh.head != h)];
      }
      Did(before, Step(t, w));
    }

    /** tail_.compare_exchange_weak(old_head, old_head->next) */
    method TailToNext(t: Tid, env: Env, h: Ptr) returns (rest: Env)
      requires Ready(t, env) && threads[t].pc == Look(h, LagLoad)
      modifies this
      ensures Passed(t, env, rest)
      ensures threads[t].pc == Pc.Acquire(AcquireAt.LoadHead) && threads[t].returned == old(threads[t].returned)
      ensures env == [] && old(sh.tail) == h ==> Lag(sh) < Lag(old(sh))
    {
      hide Inv, StrangersInv, Run, Foreign, ByOthers, Mine, AllOf, Valid, View;
      var next;
      rest, next := LoadNextOf(t, env, h);
      rest := HelpLag(t, rest, h, next);
    }

    /** head_.compare_exchange_weak(old_head, old_head->next) */
    method HeadToNext(t: Tid, env: Env, h: Ptr) returns (rest: Env, ok: bool)
      requires Ready(t, env) && threads[t].pc == Look(h, HeadLoad)
      modifies this
      ensures Passed(t, env, rest)
      ensures threads[t].pc == if ok then Take(h, ReadNext) else Pc.Acquire(AcquireAt.LoadHead)
      ensures threads[t].returned == old(threads[t].returned)
      ensures env == [] && old(sh.head) == h ==> ok
    {
      hide Inv, StrangersInv, Run, Foreign, ByOthers, Mine, AllOf, Valid, View, Last;
      var next;
      rest, next := LoadNextOf(t, env, h);
      rest, ok := SwingHead(t, rest, h, next);
    }

    method LoadTaken(t: Tid, env: Env, h: Ptr) returns (rest: Env, next: Ptr)
      requires Ready(t, env) && threads[t].pc == Take(h, ReadNext)
      modifies this
      ensures Passed(t, env, rest)
      ensures threads[t] == old(threads[t]).(pc := Take(h, MoveOut(next)))
    {
      hide ChainInv, EndsInv, ContentInv, Of, StrangersInv, Run, ByOthers, Mine, AllOf, Foreign;
      var w;
      rest, w := Others(t, env);
      ghost var before := View();
      ChainNext(sh, h);
      next := Next(sh, h);
      threads := threads[t := threads[t].(pc := Take(h, MoveOut(next)))];
      Did(before, Step(t, w));
    }

    method MoveValue(t: Tid, env: Env, h: Ptr, next: Ptr) returns (rest: Env, v: Value)
      requires Ready(t, env) && threads[t].pc == Take(h, MoveOut(next))
      modifies this
      ensures Passed(t, env, rest)
      ensures threads[t] == old(threads[t]).(pc := Take(h, Release(v)))
    {
      hide SharedInv, Claimed, Of, StrangersInv, Run, ByOthers, Mine, AllOf, Foreign;
      var w;
      rest, w := Others(t, env);
      ghost var before := View();
      v := sh.nodes[next.n].value.v;
      sh := sh.(nodes := sh.nodes[next.n := sh.nodes[next.n].(value := MovedFrom)]);
      threads := threads[t := threads[t].(pc := Take(h, Release(v)))];
      Did(before, Step(t, w));
    }

    method ClearHazard(t: Tid, env: Env, h: Ptr, v: Value) returns (rest: Env)
      requires Ready(t, env) && threads[t].pc == Take(h, Release(v))
      modifies this
      ensures Passed(t, env, rest)
      ensures threads[t] == old(threads[t]).(pc := Take(h, Retire(v)))
    {
      hide ChainInv, EndsInv, ContentInv, Of, StrangersInv, Run, ByOthers, Mine, AllOf, Foreign;
      var w;
      rest, w := Others(t, env);
      ghost var before := View();
      sh := sh.(hazard := sh.hazard[t := Null]);
      threads := threads[t := threads[t].(pc := Take(h, Retire(v)))];
      Did(before, Step(t, w));
    }

    method RetireNode(t: Tid, env: Env, h: Ptr, v: Value) returns (rest: Env)
      requires Ready(t, env) && threads[t].pc == Take(h, Retire(v))
      modifies this
      ensures Passed(t, env, rest)
      ensures threads[t].pc.Idle? && threads[t].returned == old(threads[t].returned) + [Deq(t, v)]
    {
      hide ChainInv, EndsInv, ContentInv, Of, StrangersInv, Run, ByOthers, Mine, AllOf, Foreign;
      var w;
      rest, w := Others(t, env);
      ghost var before := View();
      sh := sh.(retired := sh.retired + {h.n});
      threads := threads[t := Return(threads[t], Deq(t, v))];
      Did(before, Step(t, w));
    }

    /** What TryPop does once it has moved head away from h. */
    method FinishPop(t: Tid, env: Env, h: Ptr) returns (rest: Env, answer: Answer)
      requires Ready(t, env) && threads[t].pc == Take(h, ReadNext)
      modifies this
      ensures Passed(t, env, rest) && answer.Some?
      ensures threads[t].pc.Idle? && threads[t].returned == old(threads[t].returned) + [Deq(t, answer.v)]
    {
      hide Inv, StrangersInv, Run, Foreign, ByOthers, Mine, AllOf, Valid, View;
      var next, v;
      rest, next := LoadTaken(t, env, h);
      rest, v := MoveValue(t, rest, h, next);
      rest := ClearHazard(t, rest, h, v);
      rest := RetireNode(t, rest, h, v);
      answer := Some(v);
    }

    /** SimpleMSQueue::TryPop, which also returns after finitely many turns. */
    method TryPop(t: Tid, others: Env) returns (env: Env, answer: Answer)
      requires Ready(t, others) && threads[t].pc.Idle?
      modifies this
      ensures Passed(t, others, env) && threads[t].pc.Idle?
      ensures var e := if answer.None? then Entry.Empty(t) else Deq(t, answer.v);
        threads[t].returned == old(threads[t].returned) + [e]
    {
      hide Inv, StrangersInv, Run, Foreign, ByOthers, Mine, AllOf, Valid, View, Last;
      var oldHead := Null;
      var empty, lagging, ok := false, false, false;
      env := StartPop(t, others);
      while true
        invariant Passed(t, others, env)
        invariant threads[t].pc == Pc.Acquire(AcquireAt.LoadHead) && threads[t].returned == old(threads[t].returned)
        decreases |env|, Lag(sh)
      {
        env, oldHead := Acquire(t, env);
        env, empty := FoundNothing(t, env, oldHead);
        if empty {
          env := AnswerEmpty(t, env, oldHead);
          return env, None;
        }
        env, lagging := TailLags(t, env, oldHead);
        if lagging {
          env := TailToNext(t, env, oldHead);
          continue;
        }
        env, ok := HeadToNext(t, env, oldHead);
        if ok {
          env, answer := FinishPop(t, env, oldHead);
          return;
        }
      }
    }
  }
}
