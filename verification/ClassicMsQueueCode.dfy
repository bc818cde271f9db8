/** ClassicMSQueue::Push and TryPop as the source writes them, loops included,
    against the step machine of ClassicMsQueue: before every atomic access the
    other threads take a finite turn. */
module ClassicMsQueueCode {
  import opened LockFree
  import opened ClassicMsQueue
  import opened Turns

  datatype Result = None | Some(v: Value)

  /** What the others are going to do. */
  type Env = seq<Turn<Event>>

  function MineOf(t: Tid): Event -> bool { (e: Event) => e.t == t }

  lemma {:induction false} OthersLeaveMe(s: State, es: seq<Event>, t: Tid)
    requires t in s.threads && forall j :: 0 <= j < |es| ==> es[j].t != t
    ensures t in Run(s, es).threads && Run(s, es).threads[t] == s.threads[t]
    decreases |es|
  {
    if es != [] { OthersLeaveMe(Apply(s, es[0]), es[1..], t); }
  }

  /** How far tail is behind. */
  function Lag(sh: Shared): nat { if sh.tpos < |sh.linked| then |sh.linked| - sh.tpos else 0 }

  class MsQueue {
    var sh: Shared
    var threads: map<Tid, Local>
    ghost var trace: seq<Event>

    /** The object is in a state some run of the step machine reaches. */
    ghost predicate Valid()
      reads this
    {
      State(sh, threads) == Run(Init(), trace)
    }

    constructor ()
      ensures Valid() && trace == [] && threads == map[]
    {
      sh, threads, trace := Init().sh, map[], [];
    }

    /** Thread t may take its next step, and `env` is what the others will do. */
    ghost predicate Ready(t: Tid, env: Env)
      reads this
    {
      Valid() && Inv(State(sh, threads)) && t in threads && Foreign(MineOf(t), env)
    }

    /** Time passed: t did one thing more, and the others took one turn before it. */
    twostate predicate Passed(t: Tid, env: Env, new rest: Env)
      reads this
    {
      && Ready(t, rest) && old(trace) <= trace && Spent(MineOf(t), old(trace), env, trace, rest)
      && (if env == [] then rest == [] else |rest| < |env|)
    }

    /** Records that event e turned `before` into the current fields. */
    ghost method Did(before: State, e: Event)
      requires before == Run(Init(), trace) && State(sh, threads) == Apply(before, e)
      modifies this`trace
      ensures trace == old(trace) + [e]
      ensures Valid() && Inv(State(sh, threads))
      ensures ByOthers(MineOf(e.t), trace) == ByOthers(MineOf(e.t), old(trace))
      ensures Mine(MineOf(e.t), trace) == Mine(MineOf(e.t), old(trace)) + 1
    {
      hide Apply, Inv, ByOthers, Mine;
      IMove(MineOf(e.t), trace, e);
      RunSplits(Init(), trace, [e]);
      Reachable(trace + [e]);
      assert Run(before, [e]) == Apply(before, e) by { assert [e][1..] == []; }
      trace := trace + [e];
    }

    /** The others take their turn. Every CAS of this queue is a strong one. */
    method Others(t: Tid, env: Env) returns (rest: Env)
      requires Ready(t, env)
      modifies this
      ensures Ready(t, rest) && old(trace) <= trace && rest == Later(env) && threads[t] == old(threads[t])
      ensures ByOthers(MineOf(t), trace) + AllOf(rest) == ByOthers(MineOf(t), old(trace)) + AllOf(env)
      ensures Mine(MineOf(t), trace) == Mine(MineOf(t), old(trace))
      ensures env == [] ==> sh == old(sh)
    {
      hide Apply, Inv, ByOthers, Mine, AllOf, Foreign;
      rest := [];
      if env != [] {
        TurnTaken(MineOf(t), trace, env);
        var after := Run(State(sh, threads), env[0].es);
        OthersLeaveMe(State(sh, threads), env[0].es, t);
        RunSplits(Init(), trace, env[0].es);
        Reachable(trace + env[0].es);
        sh, threads, trace := after.sh, after.threads, trace + env[0].es;
        rest := env[1..];
      }
    }

    /** tail.compare_exchange_strong(expected, {desired, expected.count + 1}) */
    method CasTail(expected: Counted, desired: Ptr) returns (ok: bool)
      modifies this`sh
      ensures ok == (old(sh.tail) == expected)
      ensures sh == if ok then MoveTail(old(sh), desired) else old(sh)
    {
      ok := sh.tail == expected;
      if ok { sh := MoveTail(sh, desired); }
    }

    // ----- Push -----

    method NewNode(t: Tid, env: Env, item: Value) returns (rest: Env, node: Ptr)
      requires Ready(t, env) && threads[t].pc.Idle?
      modifies this
      ensures Passed(t, env, rest)
      ensures threads[t].pc == Pc.Push(node, item, LoadTail) && threads[t].answers == old(threads[t].answers)
    {
      hide Inv, Run, ByOthers, Mine, AllOf, Foreign;
      rest := Others(t, env);
      ghost var before := State(sh, threads);
      node := At(|sh.nodes|);
      threads := threads[t :=
        threads[t].(pc := Pc.Push(node, item, LoadTail), began := |sh.log|, since := Measure(sh))];
      sh := sh.(nodes := sh.nodes + [Node(Full(item), NONE)], owner := sh.owner + [t]);
      Did(before, BeginPush(t, item));
    }

    method ReadTail(t: Tid, env: Env) returns (rest: Env, oldTail: Counted)
      requires Ready(t, env) && threads[t].pc.Push? && threads[t].pc.push.LoadTail?
      modifies this
      ensures Passed(t, env, rest)
      ensures threads[t] == old(threads[t]).(pc := old(threads[t].pc).(push := LoadNext(oldTail)))
      ensures env == [] ==> sh == old(sh) && oldTail == sh.tail
    {
      hide Inv, Run, ByOthers, Mine, AllOf, Foreign;
      rest := Others(t, env);
      ghost var before := State(sh, threads);
      oldTail := sh.tail;
      threads := threads[t := threads[t].(pc := threads[t].pc.(push := LoadNext(oldTail)))];
      Did(before, Step(t));
    }

    method ReadNext(t: Tid, env: Env, oldTail: Counted) returns (rest: Env, next: Counted)
      requires Ready(t, env) && threads[t].pc.Push? && threads[t].pc.push == LoadNext(oldTail)
      modifies this
      ensures Passed(t, env, rest)
      ensures threads[t] == old(threads[t]).(pc := old(threads[t].pc).(push := CheckTail(oldTail, next)))
      ensures env == [] ==> sh == old(sh) && Deref(sh, oldTail.ptr) && next == Next(sh, oldTail.ptr)
    {
      hide Inv, Run, ByOthers, Mine, AllOf, Foreign;
      rest := Others(t, env);
      ghost var before := State(sh, threads);
      PushDerefs(before, t);
      next := Next(sh, oldTail.ptr);
      threads := threads[t := threads[t].(pc := threads[t].pc.(push := CheckTail(oldTail, next)))];
      Did(before, Step(t));
    }

    method TailIsStill(t: Tid, env: Env, oldTail: Counted, next: Counted) returns (rest: Env, same: bool)
      requires Ready(t, env) && threads[t].pc.Push? && threads[t].pc.push == CheckTail(oldTail, next)
      modifies this
      ensures Passed(t, env, rest) && threads[t].answers == old(threads[t].answers)
      ensures threads[t].pc == old(threads[t].pc).(push :=
                if !same then LoadTail else if next.ptr == Null then LinkCas(oldTail, next) else HelpCas(oldTail, next))
      ensures env == [] ==> sh == old(sh) && same == (sh.tail == oldTail)
    {
      hide Inv, Run, ByOthers, Mine, AllOf, Foreign;
      rest := Others(t, env);
      ghost var before := State(sh, threads);
      same := sh.tail == oldTail;
      var pc := threads[t].pc;
      threads := threads[t :=
        if !same then Again(sh, threads[t], pc.(push := LoadTail))
        else if next.ptr == Null then threads[t].(pc := pc.(push := LinkCas(oldTail, next)))
        else threads[t].(pc := pc.(push := HelpCas(oldTail, next)))];
      Did(before, Step(t));
    }

    method LinkNode(t: Tid, env: Env, node: Ptr, v: Value, oldTail: Counted, next: Counted)
      returns (rest: Env, ok: bool)
      requires Ready(t, env) && threads[t].pc == Pc.Push(node, v, LinkCas(oldTail, next))
      modifies this
      ensures Passed(t, env, rest) && threads[t].answers == old(threads[t].answers)
      ensures threads[t].pc.Push? && threads[t].pc == Pc.Push(node, v, threads[t].pc.push)
      ensures if ok then threads[t].pc.push.SwingTail? && threads[t].pc.push.ot == oldTail
              else threads[t].pc.push == LoadTail
      ensures ok ==>
        && Deref(sh, oldTail.ptr) && Next(sh, oldTail.ptr) == Counted(node, next.count + 1)
        && sh.log != [] && sh.log[|sh.log| - 1] == Enq(t, v)
      ensures env == [] && Deref(old(sh), oldTail.ptr) && Next(old(sh), oldTail.ptr) == next ==> ok
    {
      hide Inv, Run, ByOthers, Mine, AllOf, Foreign;
      rest := Others(t, env);
      ghost var before := State(sh, threads);
      PushDerefs(before, t);
      ok := Next(sh, oldTail.ptr) == next;
      if ok {
        threads := threads[t := threads[t].(pc := Pc.Push(node, v, SwingTail(oldTail, |sh.log|)))];
        sh := ClassicMsQueue.Link(sh, t, node.n, v, oldTail.ptr.n);
      } else {
        threads := threads[t := Again(sh, threads[t], Pc.Push(node, v, LoadTail))];
      }
      Did(before, Step(t));
    }

    method Help(t: Tid, env: Env, oldTail: Counted, next: Counted) returns (rest: Env)
      requires Ready(t, env) && threads[t].pc.Push? && threads[t].pc.push == HelpCas(oldTail, next)
      modifies this
      ensures Passed(t, env, rest) && threads[t].answers == old(threads[t].answers)
      ensures threads[t].pc == old(threads[t].pc).(push := LoadTail)
      ensures env == [] && old(sh.tail) == oldTail ==> Lag(sh) < Lag(old(sh))
    {
      hide Inv, Run, ByOthers, Mine, AllOf, Foreign;
      rest := Others(t, env);
      ghost var before := State(sh, threads);
      TailIsInside(before);
      var _ := CasTail(oldTail, next.ptr);
      threads := threads[t := Again(sh, threads[t], threads[t].pc.(push := LoadTail))];
      Did(before, Step(t));
    }

    method FinishPush(t: Tid, env: Env, node: Ptr, v: Value, oldTail: Counted) returns (rest: Env)
      requires Ready(t, env) && threads[t].pc.Push? && threads[t].pc.push.SwingTail?
      requires threads[t].pc == Pc.Push(node, v, SwingTail(oldTail, threads[t].pc.push.at))
      modifies this
      ensures Passed(t, env, rest) && threads[t].pc.Idle? && Answers(t, old(threads[t].answers), Enq(t, v))
    {
      hide Inv, Run, ByOthers, Mine, AllOf, Foreign;
      rest := Others(t, env);
      ghost var before := State(sh, threads);
      threads := threads[t := Return(sh, threads[t], threads[t].pc.push.at, Enq(t, v))];
      var _ := CasTail(oldTail, node);
      Did(before, Step(t));
    }

    /** Thread t answered `what`, and nothing else. */
    ghost predicate Answers(t: Tid, before: seq<Answer>, what: Entry)
      reads this
    {
      && t in threads && |threads[t].answers| == |before| + 1
      && threads[t].answers[..|before|] == before && threads[t].answers[|before|].what == what
    }

    /** ClassicMSQueue::Push. It returns after finitely many turns of the others,
        whatever they did, having pushed `item` once. */
    method Push(t: Tid, item: Value, others: Env) returns (env: Env)
      requires Ready(t, others) && threads[t].pc.Idle?
      modifies this
      ensures Passed(t, others, env)
      ensures Answers(t, old(threads[t].answers), Enq(t, item)) && threads[t].pc.Idle?
    {
      hide Inv, Run, ByOthers, Mine, AllOf, Foreign, Valid;
      var newNode;
      env, newNode := NewNode(t, others, item);
      var oldTail, next, same, ok := NONE, NONE, false, false;
      while true
        invariant Passed(t, others, env)
        invariant threads[t].pc == Pc.Push(newNode, item, LoadTail) && threads[t].answers == old(threads[t].answers)
        decreases |env|, Lag(sh)
      {
        env, oldTail := ReadTail(t, env);
        env, next := ReadNext(t, env, oldTail);
        env, same := TailIsStill(t, env, oldTail, next);
        if same {
          if next.ptr == Null {
            env, ok := LinkNode(t, env, newNode, item, oldTail, next);
            if ok {
              break;
            }
          } else {
            env := Help(t, env, oldTail, next);
          }
        }
      }
      env := FinishPush(t, env, newNode, item, oldTail);
    }

    // ----- TryPop -----

    method StartPop(t: Tid, env: Env) returns (rest: Env)
      requires Ready(t, env) && threads[t].pc.Idle?
      modifies this
      ensures Passed(t, env, rest)
      ensures threads[t].pc == Pop(LoadHead) && threads[t].answers == old(threads[t].answers)
    {
      hide Inv, Run, ByOthers, Mine, AllOf, Foreign;
      rest := Others(t, env);
      ghost var before := State(sh, threads);
      threads := threads[t := threads[t].(pc := Pop(LoadHead), began := |sh.log|, since := Measure(sh))];
      Did(before, BeginPop(t));
    }

    method ReadHead(t: Tid, env: Env) returns (rest: Env, oldHead: Counted)
      requires Ready(t, env) && threads[t].pc == Pop(LoadHead)
      modifies this
      ensures Passed(t, env, rest) && threads[t] == old(threads[t]).(pc := Pop(ThenTail(oldHead)))
      ensures env == [] ==> sh == old(sh) && oldHead == sh.head
    {
      hide Inv, Run, ByOthers, Mine, AllOf, Foreign;
      rest := Others(t, env);
      ghost var before := State(sh, threads);
      oldHead := sh.head;
      threads := threads[t := threads[t].(pc := Pop(ThenTail(oldHead)))];
      Did(before, Step(t));
    }

    method ReadTailToo(t: Tid, env: Env, oldHead: Counted) returns (rest: Env, oldTail: Counted)
      requires Ready(t, env) && threads[t].pc == Pop(ThenTail(oldHead))
      modifies this
      ensures Passed(t, env, rest) && threads[t] == old(threads[t]).(pc := Pop(ThenNext(oldHead, oldTail)))
      ensures env == [] ==> sh == old(sh) && oldTail == sh.tail
    {
      hide Inv, Run, ByOthers, Mine, AllOf, Foreign;
      rest := Others(t, env);
      ghost var before := State(sh, threads);
      oldTail := sh.tail;
      threads := threads[t := threads[t].(pc := Pop(ThenNext(oldHead, oldTail)))];
      Did(before, Step(t));
    }

    method ReadNextOfHead(t: Tid, env: Env, oldHead: Counted, oldTail: Counted)
      returns (rest: Env, next: Counted)
      requires Ready(t, env) && threads[t].pc == Pop(ThenNext(oldHead, oldTail))
      modifies this
      ensures Passed(t, env, rest)
      ensures threads[t].pc.Pop? && threads[t].pc.pop.CheckHead? && threads[t].answers == old(threads[t].answers)
      ensures threads[t].pc.pop == CheckHead(oldHead, oldTail, next, threads[t].pc.pop.seen)
      ensures env == [] ==> sh == old(sh)
    {
      hide Inv, Run, ByOthers, Mine, AllOf, Foreign;
      rest := Others(t, env);
      ghost var before := State(sh, threads);
      PopDerefs(before, t);
      next := Next(sh, oldHead.ptr);
      threads := threads[t := threads[t].(pc := Pop(CheckHead(oldHead, oldTail, next, |sh.log|)))];
      Did(before, Step(t));
    }

    /** The test of head, and of what the code does next: an empty answer is given
        here, for the moment when next was read. */
    method HeadIsStill(t: Tid, env: Env, oldHead: Counted, oldTail: Counted, next: Counted)
      returns (rest: Env, same: bool)
      requires Ready(t, env) && threads[t].pc.Pop? && threads[t].pc.pop.CheckHead?
      requires threads[t].pc.pop == CheckHead(oldHead, oldTail, next, threads[t].pc.pop.seen)
      modifies this
      ensures Passed(t, env, rest)
      ensures if same && oldHead.ptr == oldTail.ptr && next.ptr == Null
              then threads[t].pc.Idle? && Answers(t, old(threads[t].answers), Entry.Empty(t))
              else threads[t].answers == old(threads[t].answers)
      ensures !same ==> threads[t].pc == Pop(LoadHead)
      ensures same && oldHead.ptr != oldTail.ptr ==> threads[t].pc == Pop(ReadValue(oldHead, next))
      ensures same && oldHead.ptr == oldTail.ptr && next.ptr != Null ==> threads[t].pc == Pop(LagCas(oldTail, next))
      ensures env == [] ==> sh == old(sh) && same == (sh.head == oldHead)
    {
      hide Inv, Run, ByOthers, Mine, AllOf, Foreign;
      rest := Others(t, env);
      ghost var before := State(sh, threads);
      same := sh.head == oldHead;
      threads := threads[t :=
        if !same then Again(sh, threads[t], Pop(LoadHead))
        else if oldHead.ptr != oldTail.ptr then threads[t].(pc := Pop(ReadValue(oldHead, next)))
        else if next.ptr == Null then Return(sh, threads[t], threads[t].pc.pop.seen, Entry.Empty(t))
        else threads[t].(pc := Pop(LagCas(oldTail, next)))];
      Did(before, Step(t));
    }

    method HelpTail(t: Tid, env: Env, oldTail: Counted, next: Counted) returns (rest: Env)
      requires Ready(t, env) && threads[t].pc == Pop(LagCas(oldTail, next))
      modifies this
      ensures Passed(t, env, rest)
      ensures threads[t].pc == Pop(LoadHead) && threads[t].answers == old(threads[t].answers)
      ensures env == [] && old(sh.tail) == oldTail ==> Lag(sh) < Lag(old(sh))
    {
      hide Inv, Run, ByOthers, Mine, AllOf, Foreign;
      rest := Others(t, env);
      ghost var before := State(sh, threads);
      TailIsInside(before);
      var _ := CasTail(oldTail, next.ptr);
      threads := threads[t := Again(sh, threads[t], Pop(LoadHead))];
      Did(before, Step(t));
    }

    method CopyValue(t: Tid, env: Env, oldHead: Counted, next: Counted) returns (rest: Env, v: Value)
      requires Ready(t, env) && threads[t].pc == Pop(ReadValue(oldHead, next))
      modifies this
      ensures Passed(t, env, rest) && threads[t] == old(threads[t]).(pc := Pop(HeadCas(oldHead, next, v)))
      ensures env == [] ==> sh == old(sh)
    {
      hide Inv, Run, ByOthers, Mine, AllOf, Foreign;
      rest := Others(t, env);
      ghost var before := State(sh, threads);
      PopDerefs(before, t);
      v := sh.nodes[next.ptr.n].value.v;
      threads := threads[t := threads[t].(pc := Pop(HeadCas(oldHead, next, v)))];
      Did(before, Step(t));
    }

    method SwingHead(t: Tid, env: Env, oldHead: Counted, next: Counted, v: Value) returns (rest: Env, ok: bool)
      requires Ready(t, env) && threads[t].pc == Pop(HeadCas(oldHead, next, v))
      modifies this
      ensures Passed(t, env, rest)
      ensures if ok then threads[t].pc.Idle? && Answers(t, old(threads[t].answers), Deq(t, v))
              else threads[t].pc == Pop(LoadHead) && threads[t].answers == old(threads[t].answers)
      ensures ok ==>
        && sh.head == Counted(next.ptr, oldHead.count + 1)
        && sh.log != [] && sh.log[|sh.log| - 1] == Deq(t, v)
      ensures env == [] && old(sh.head) == oldHead ==> ok
    {
      hide Inv, Run, ByOthers, Mine, AllOf, Foreign;
      rest := Others(t, env);
      ghost var before := State(sh, threads);
      ok := sh.head == oldHead;
      if ok {
        var at := |sh.log|;
        sh := MoveHead(sh, t, next.ptr, v);
        threads := threads[t := Return(sh, threads[t], at, Deq(t, v))];
      } else {
        threads := threads[t := Again(sh, threads[t], Pop(LoadHead))];
      }
      Did(before, Step(t));
    }

    /** ClassicMSQueue::TryPop, which also returns after finitely many turns. */
    method TryPop(t: Tid, others: Env) returns (env: Env, result: Result)
      requires Ready(t, others) && threads[t].pc.Idle?
      modifies this
      ensures Passed(t, others, env) && threads[t].pc.Idle?
      ensures Answers(t, old(threads[t].answers), if result.None? then Entry.Empty(t) else Deq(t, result.v))
    {
      hide Inv, Run, ByOthers, Mine, AllOf, Foreign, Valid;
      var oldHead, oldTail, next := NONE, NONE, NONE;
      var same, ok, v := false, false, *;
      env := StartPop(t, others);
      while true
        invariant Passed(t, others, env)
        invariant threads[t].pc == Pop(LoadHead) && threads[t].answers == old(threads[t].answers)
        decreases |env|, Lag(sh)
      {
        env, oldHead := ReadHead(t, env);
        env, oldTail := ReadTailToo(t, env, oldHead);
        env, next := ReadNextOfHead(t, env, oldHead, oldTail);
        env, same := HeadIsStill(t, env, oldHead, oldTail, next);
        if same {
          if oldHead.ptr == oldTail.ptr {
            if next.ptr == Null {
              return env, None;
            }
            env := HelpTail(t, env, oldTail, next);
          } else {
            env, v := CopyValue(t, env, oldHead, next);
            env, ok := SwingHead(t, env, oldHead, next, v);
            if ok {
              return env, Some(v);
            }
          }
        }
      }
    }
  }

  /** What the invariant says about the pointers a thread is about to follow. */
  lemma PushDerefs(s: State, t: Tid)
    requires Inv(s) && t in s.threads && s.threads[t].pc.Push?
    requires s.threads[t].pc.push.LoadNext? || s.threads[t].pc.push.LinkCas?
    ensures Deref(s.sh, s.threads[t].pc.push.ot.ptr) && s.threads[t].pc.node.At?
  {
    assert LocalInv(s.sh, t, s.threads[t]);
    ChainNext(s.sh, s.threads[t].pc.push.ot);
  }

  lemma PopDerefs(s: State, t: Tid)
    requires Inv(s) && t in s.threads && s.threads[t].pc.Pop?
    ensures s.threads[t].pc.pop.ThenNext? ==> Deref(s.sh, s.threads[t].pc.pop.oh.ptr)
    ensures s.threads[t].pc.pop.ReadValue? ==>
              var next := s.threads[t].pc.pop.nx;
              Deref(s.sh, next.ptr) && s.sh.nodes[next.ptr.n].value.Full?
  {
    assert LocalInv(s.sh, t, s.threads[t]);
    var pc := s.threads[t].pc.pop;
    if pc.ThenNext? || pc.ReadValue? { ChainNext(s.sh, pc.oh); }
    if pc.ReadValue? { assert s.sh.nodes[s.sh.linked[pc.oh.count + 1]].value == Full(s.sh.vals[pc.oh.count]); }
  }

  lemma TailIsInside(s: State)
    requires Inv(s)
    ensures s.sh.tpos < |s.sh.linked|
  {
  }
}
