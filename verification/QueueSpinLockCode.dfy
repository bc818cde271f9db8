/** QueueSpinLock::Guard as the source writes it: constructor, Release and
    destructor, with the other guards moving before every atomic access. */
module QueueSpinLockCode {
  import opened QueueSpinLock
  import opened Turns

  predicate Spares(g: GuardId, e: Event) { e.New? || e.g != g }

  /** What the others are going to do. */
  type Env = seq<Turn<Event>>

  function MineOf(g: GuardId): Event -> bool { (e: Event) => !Spares(g, e) }

  lemma {:induction false} OthersLeaveMe(s: State, es: seq<Event>, g: GuardId)
    requires Inv(s) && Exists(s, g) && forall j :: 0 <= j < |es| ==> Spares(g, es[j])
    ensures Exists(Run(s, es), g) && Run(s, es).pcs[g] == s.pcs[g]
    decreases |es|
  {
    if es != [] {
      ApplyKeeps(s, es[0]);
      OneLeavesMe(s, es[0], g);
      OthersLeaveMe(Apply(s, es[0]), es[1..], g);
    }
  }

  lemma OneLeavesMe(s: State, e: Event, g: GuardId)
    requires Exists(s, g) && Spares(g, e)
    ensures Exists(Apply(s, e), g) && Apply(s, e).pcs[g] == s.pcs[g]
  {
  }

  lemma {:induction false} RunSplits(s: State, es: seq<Event>, fs: seq<Event>)
    ensures Run(s, es + fs) == Run(Run(s, es), fs)
    decreases |es|
  {
    hide Apply;
    if es == [] {
      assert es + fs == fs;
    } else {
      assert (es + fs)[1..] == es[1..] + fs;
      RunSplits(Apply(s, es[0]), es[1..], fs);
    }
  }

  class SpinLock {
    var st: State
    ghost var trace: seq<Event>

    ghost predicate Valid()
      reads this
    {
      st == Run(Init(), trace) && Inv(st)
    }

    constructor ()
      ensures Valid() && trace == []
    {
      st, trace := Init(), [];
    }

    ghost predicate Ready(g: GuardId, env: Env)
      reads this
    {
      Valid() && Exists(st, g) && Foreign(MineOf(g), env)
    }

    twostate predicate Passed(g: GuardId, env: Env, new rest: Env)
      reads this
    {
      && Ready(g, rest) && old(trace) <= trace && Spent(MineOf(g), old(trace), env, trace, rest)
      && (if env == [] then rest == [] else |rest| < |env|)
    }

    /** Records that event e turned `before` into the current fields. */
    ghost method Did(before: State, e: Event)
      requires before == Run(Init(), trace) && Inv(before) && st == Apply(before, e)
      modifies this`trace
      ensures trace == old(trace) + [e] && Valid()
      ensures !e.New? ==> ByOthers(MineOf(e.g), trace) == ByOthers(MineOf(e.g), old(trace))
      ensures !e.New? ==> Mine(MineOf(e.g), trace) == Mine(MineOf(e.g), old(trace)) + 1
    {
      hide Apply, Inv, ByOthers, Mine;
      if !e.New? { IMove(MineOf(e.g), trace, e); }
      ApplyKeeps(before, e);
      RunSplits(Init(), trace, [e]);
      assert Run(before, [e]) == Apply(before, e) by { assert [e][1..] == []; }
      trace := trace + [e];
    }

    method Others(g: GuardId, env: Env) returns (rest: Env, weakFails: bool)
      requires Ready(g, env)
      modifies this
      ensures Ready(g, rest) && old(trace) <= trace && rest == Later(env) && st.pcs[g] == old(st.pcs[g])
      ensures ByOthers(MineOf(g), trace) + AllOf(rest) == ByOthers(MineOf(g), old(trace)) + AllOf(env)
      ensures Mine(MineOf(g), trace) == Mine(MineOf(g), old(trace))
      ensures env == [] ==> st == old(st) && !weakFails
    {
      hide Apply, Inv, ByOthers, Mine, AllOf, Foreign;
      rest, weakFails := [], false;
      if env != [] {
        TurnTaken(MineOf(g), trace, env);
        OthersLeaveMe(st, env[0].es, g);
        RunSplits(Init(), trace, env[0].es);
        RunKeeps(st, env[0].es);
        st, trace := Run(st, env[0].es), trace + env[0].es;
        rest, weakFails := env[1..], env[0].weakFails;
      }
    }

    method Create() returns (g: GuardId)
      requires Valid()
      modifies this
      ensures Valid() && old(trace) <= trace && Exists(st, g) && st.pcs[g] == Created
    {
      ghost var before := st;
      g := |st.guards|;
      assert |st.pcs| == |st.guards|;
      st := st.(guards := st.guards + [Guard.Guard(Nobody, false)], pcs := st.pcs + [Created]);
      Did(before, New);
    }

    method ExchangeTail(g: GuardId, env: Env) returns (rest: Env, ancestor: Link)
      requires Ready(g, env) && st.pcs[g] == Created
      modifies this
      ensures Passed(g, env, rest)
      ensures st.pcs[g] == if ancestor == Nobody then Pc.SetSelfOwner else Pc.SetNext(ancestor.g)
    {
      hide Inv, ByOthers, Mine, AllOf, Foreign;
      var w;
      rest, w := Others(g, env);
      ghost var before := st;
      ancestor := st.tail;
      st := st.(tail := Of(g), order := st.order + [g], rank := st.rank[g := |st.order|],
                pcs := st.pcs[g := if ancestor == Nobody then Pc.SetSelfOwner else Pc.SetNext(ancestor.g)]);
      Did(before, Step(g, w));
    }

    method OwnAtOnce(g: GuardId, env: Env) returns (rest: Env)
      requires Ready(g, env) && st.pcs[g] == Pc.SetSelfOwner
      modifies this
      ensures Passed(g, env, rest) && st.pcs[g] == Inside
    {
      hide Inv, ByOthers, Mine, AllOf, Foreign;
      var w;
      rest, w := Others(g, env);
      ghost var before := st;
      st := st.(guards := st.guards[g := st.guards[g].(isOwner := true)], pcs := st.pcs[g := Inside],
                entered := st.entered + [g]);
      Did(before, Step(g, w));
    }

    method SetNextOf(ancestor: GuardId, g: GuardId, env: Env) returns (rest: Env)
      requires Ready(g, env) && st.pcs[g] == Pc.SetNext(ancestor)
      modifies this
      ensures Passed(g, env, rest) && st.pcs[g] == Spin
    {
      var w;
      rest, w := Others(g, env);
      ghost var before := st;
      AncestorExists(st, g);
      hide Inv, ByOthers, Mine, AllOf, Foreign;
      st := st.(guards := st.guards[ancestor := st.guards[ancestor].(next := Of(g))], pcs := st.pcs[g := Spin]);
      Did(before, Step(g, w));
    }

    method IsOwner(g: GuardId, env: Env) returns (rest: Env, yes: bool)
      requires Ready(g, env) && st.pcs[g] == Spin
      modifies this
      ensures Passed(g, env, rest) && st.pcs[g] == if yes then Inside else Spin
      ensures !yes ==> !st.guards[g].isOwner
    {
      hide Inv, ByOthers, Mine, AllOf, Foreign;
      var w;
      rest, w := Others(g, env);
      ghost var before := st;
      yes := st.guards[g].isOwner;
      if yes {
        st := st.(pcs := st.pcs[g := Inside], entered := st.entered + [g]);
      }
      Did(before, Step(g, w));
    }

    /** QueueSpinLock::Acquire. It comes back holding the lock, or still spinning
        once the others have made their last move, none of which gave it the lock. */
    method Acquire(g: GuardId, env: Env) returns (rest: Env, acquired: bool)
      requires Ready(g, env) && st.pcs[g] == Created
      modifies this
      ensures Ready(g, rest) && old(trace) <= trace && Spent(MineOf(g), old(trace), env, trace, rest)
      ensures st.pcs[g] == if acquired then Inside else Spin
      ensures !acquired ==> rest == [] && !st.guards[g].isOwner
    {
      hide Inv, Run, Foreign, ByOthers, Mine, AllOf;
      var ancestor;
      rest, ancestor := ExchangeTail(g, env);
      if ancestor == Nobody {
        rest := OwnAtOnce(g, rest);
        return rest, true;
      }
      rest := SetNextOf(ancestor.g, g, rest);
      rest, acquired := IsOwner(g, rest);
      while !acquired && rest != []
        invariant Ready(g, rest) && old(trace) <= trace && Spent(MineOf(g), old(trace), env, trace, rest)
        invariant st.pcs[g] == if acquired then Inside else Spin
        invariant !acquired ==> !st.guards[g].isOwner
        decreases |rest|
      {
        rest, acquired := IsOwner(g, rest);
      }
    }

    method HasNext(g: GuardId, env: Env) returns (rest: Env, yes: bool)
      requires Ready(g, env) && (st.pcs[g] == Pc.TestNext || st.pcs[g] == TestNextAgain)
      modifies this
      ensures Passed(g, env, rest) && st.pcs[g] == if yes then Pc.LoadNext else ClearTail
      ensures !yes ==> st.guards[g].next == Nobody
      ensures env == [] ==> st.guards == old(st.guards) && st.tail == old(st.tail)
    {
      hide Inv, ByOthers, Mine, AllOf, Foreign;
      var w;
      rest, w := Others(g, env);
      ghost var before := st;
      yes := st.guards[g].next != Nobody;
      st := st.(pcs := st.pcs[g := if yes then Pc.LoadNext else ClearTail]);
      Did(before, Step(g, w));
    }

    method LoadNext(g: GuardId, env: Env) returns (rest: Env, next: Link)
      requires Ready(g, env) && st.pcs[g] == Pc.LoadNext
      modifies this
      ensures Passed(g, env, rest) && st.pcs[g] == WakeNext(next)
    {
      hide Inv, ByOthers, Mine, AllOf, Foreign;
      var w;
      rest, w := Others(g, env);
      ghost var before := st;
      next := st.guards[g].next;
      st := st.(pcs := st.pcs[g := WakeNext(next)]);
      Did(before, Step(g, w));
    }

    method SetNextOwner(g: GuardId, env: Env) returns (rest: Env)
      requires Ready(g, env) && st.pcs[g] == Pc.LoadNext
      modifies this
      ensures Passed(g, env, rest) && st.pcs[g] == ClearOwner
    {
      hide Inv, ByOthers, Mine, AllOf, Foreign;
      var next, w;
      rest, next := LoadNext(g, env);
      rest, w := Others(g, rest);
      ghost var before := st;
      FrontWakes(st, g);
      st := st.(guards := st.guards[next.g := st.guards[next.g].(isOwner := true)],
                pcs := st.pcs[g := ClearOwner], turn := st.turn + 1);
      Did(before, Step(g, w));
    }

    method CasTail(g: GuardId, env: Env) returns (rest: Env, ok: bool)
      requires Ready(g, env) && st.pcs[g] == ClearTail
      modifies this
      ensures Passed(g, env, rest) && st.pcs[g] == if ok then ClearOwner else TestNextAgain
      ensures env == [] ==> ok == (old(st.tail) == Of(g))
      ensures env == [] && !ok ==> st.guards == old(st.guards) && st.tail == old(st.tail)
    {
      hide Inv, ByOthers, Mine, AllOf, Foreign;
      var w;
      rest, w := Others(g, env);
      ghost var before := st;
      ok := st.tail == Of(g) && !w;
      st := if ok then st.(tail := Nobody, turn := st.turn + 1, pcs := st.pcs[g := ClearOwner])
            else st.(pcs := st.pcs[g := TestNextAgain]);
      Did(before, Step(g, w));
    }

    /** QueueSpinLock::Release. It comes back having passed the lock on, or once the
        others have made their last move, if then a guard that has exchanged the tail
        has yet to announce itself. */
    method PassOn(g: GuardId, env: Env) returns (rest: Env, passed: bool)
      requires Ready(g, env) && st.pcs[g] == Pc.TestNext
      modifies this
      ensures Ready(g, rest) && old(trace) <= trace && Spent(MineOf(g), old(trace), env, trace, rest)
      ensures passed ==> st.pcs[g] == ClearOwner
      ensures !passed ==> rest == [] && Unannounced(st, g)
    {
      hide Inv, Run, Foreign, ByOthers, Mine, AllOf;
      var has, ok;
      rest, has := HasNext(g, env);
      if has {
        rest := SetNextOwner(g, rest);
        return rest, true;
      }
      rest, ok := CasTail(g, rest);
      var quiet := false;  // a whole round with nobody else moving
      while !ok && !quiet
        invariant Ready(g, rest) && old(trace) <= trace && Spent(MineOf(g), old(trace), env, trace, rest)
        invariant st.pcs[g] == if ok then ClearOwner else TestNextAgain
        invariant !ok && quiet ==> rest == [] && st.guards[g].next == Nobody && st.tail != Of(g)
        decreases |rest|, if quiet then 0 else 1
      {
        quiet := rest == [];
        rest, has := HasNext(g, rest);
        if has {
          rest := SetNextOwner(g, rest);
          return rest, true;
        }
        rest, ok := CasTail(g, rest);
      }
      passed := ok;
      if !ok { StillUnannounced(st, g); }
    }

    /** Guard::Release. */
    method Release(g: GuardId, env: Env) returns (rest: Env, released: bool)
      requires Ready(g, env) && st.pcs[g] == Inside
      modifies this
      ensures Ready(g, rest) && old(trace) <= trace && Spent(MineOf(g), old(trace) + [Leave(g)], env, trace, rest)
      ensures released ==> st.pcs[g] == Outside
      ensures !released ==> rest == [] && Unannounced(st, g)
    {
      hide Inv, Run, Foreign, ByOthers, Mine, AllOf, Unannounced;
      ghost var before := st;
      st := st.(pcs := st.pcs[g := Pc.TestNext]);
      Did(before, Leave(g));
      var passed;
      rest, passed := PassOn(g, env);
      if !passed {
        return rest, false;
      }
      var w;
      rest, w := Others(g, rest);
      before := st;
      st := st.(guards := st.guards[g := st.guards[g].(isOwner := false)], pcs := st.pcs[g := Outside]);
      Did(before, Step(g, w));
      released := true;
    }
  }

  /** g is still at the front and cannot pass the lock on: somebody else has
      exchanged the tail and has yet to write the next of g. */
  ghost predicate Unannounced(s: State, g: GuardId) {
    && Exists(s, g) && s.pcs[g] == TestNextAgain && s.guards[g].next == Nobody && s.tail != Of(g)
    && exists h: GuardId :: Exists(s, h) && s.pcs[h] == Pc.SetNext(g)
  }

  lemma StillUnannounced(s: State, g: GuardId)
    requires Inv(s) && Exists(s, g) && s.pcs[g] == TestNextAgain && s.guards[g].next == Nobody && s.tail != Of(g)
    ensures Unannounced(s, g)
  {
    assert GuardInv(s, g);
    assert s.order[s.turn] == g;
    var h := s.order[s.turn + 1];
    assert GuardInv(s, h);
    assert Exists(s, h) && s.pcs[h] == Pc.SetNext(g);
  }

  lemma AncestorExists(s: State, g: GuardId)
    requires Inv(s) && Exists(s, g) && s.pcs[g].SetNext?
    ensures Exists(s, s.pcs[g].ancestor)
  {
    assert GuardInv(s, g);
  }

  lemma FrontWakes(s: State, g: GuardId)
    requires Inv(s) && Exists(s, g) && s.pcs[g].WakeNext?
    ensures s.pcs[g].next == s.guards[g].next && s.pcs[g].next.Of? && Exists(s, s.pcs[g].next.g)
  {
    assert GuardInv(s, g);
  }
}
