/** A popped value is moved out of its node, by the one thread that popped it. */
module PoppedValues {
  import opened LockFree
  import opened SimpleMsQueue

  /** Between moving head away from h and taking the value behind it. */
  predicate Taking(pc: Pc, h: Ptr) { pc.Take? && pc.h == h && (pc.take.ReadNext? || pc.take.MoveOut?) }

  /** The i-th linked node has been emptied, or its popper is about to do it. */
  ghost predicate Emptied(s: State, i: nat)
    requires 0 < i < |s.sh.linked|
  {
    && s.sh.linked[i] < |s.sh.nodes|
    && (s.sh.nodes[s.sh.linked[i]].value.MovedFrom?
        || exists t :: t in s.threads && Taking(s.threads[t].pc, At(s.sh.linked[i - 1])))
  }

  ghost predicate AllEmptied(s: State) { forall i: nat :: 0 < i <= s.sh.hpos && i < |s.sh.linked| ==> Emptied(s, i) }

  /** What a step does to the nodes and to head. */
  lemma ActEmpties(sh: Shared, t: Tid, l: Local, w: bool)
    requires SharedInv(sh) && LocalInv(sh, t, l)
    ensures var (sh', l') := Act(sh, t, l, w);
            && |sh.nodes| <= |sh'.nodes| && sh.linked <= sh'.linked
            && (forall x :: 0 <= x < |sh.nodes| && sh.nodes[x].value.MovedFrom? ==> sh'.nodes[x].value.MovedFrom?)
            && (sh'.hpos == sh.hpos
                || (sh'.hpos == sh.hpos + 1 < |sh.linked| && Taking(l'.pc, At(sh.linked[sh.hpos]))))
  {
    hide Of, Replay, Pushed;
  }

  lemma TakerEmpties(sh: Shared, t: Tid, l: Local, w: bool, i: nat)
    requires SharedInv(sh) && LocalInv(sh, t, l) && 0 < i < |sh.linked| && Taking(l.pc, At(sh.linked[i - 1]))
    ensures var (sh', l') := Act(sh, t, l, w);
            Taking(l'.pc, At(sh.linked[i - 1]))
            || (sh.linked[i] < |sh'.nodes| && sh'.nodes[sh.linked[i]].value.MovedFrom?)
  {
    hide Of, Replay, Pushed;
    ChainNext(sh, l.pc.h);
  }

  lemma InvParts(s: State, t: Tid)
    requires Inv(s)
    ensures SharedInv(s.sh) && s.sh.hpos < |s.sh.linked| && (t in s.threads ==> LocalInv(s.sh, t, s.threads[t]))
    ensures forall i :: 0 <= i < |s.sh.linked| ==> s.sh.linked[i] < |s.sh.nodes|
  {
    hide ContentInv, LocalInv;
  }

  lemma OldStaysEmptied(s: State, s': State, t: Tid, w: bool, i: nat)
    requires Inv(s) && t in s.threads && s' == State(Act(s.sh, t, s.threads[t], w).0,
                                                     s.threads[t := Act(s.sh, t, s.threads[t], w).1])
    requires 0 < i < |s.sh.linked| && Emptied(s, i) && i < |s'.sh.linked|
    ensures Emptied(s', i)
  {
    hide Inv, Act, Taking, SharedInv, LocalInv;
    InvParts(s, t);
    ActEmpties(s.sh, t, s.threads[t], w);
    assert s'.sh.linked[i] == s.sh.linked[i] && s'.sh.linked[i - 1] == s.sh.linked[i - 1];
    if !s.sh.nodes[s.sh.linked[i]].value.MovedFrom? {
      var u :| u in s.threads && Taking(s.threads[u].pc, At(s.sh.linked[i - 1]));
      if u == t { TakerEmpties(s.sh, t, s.threads[t], w, i); }
      assert u in s'.threads;
    }
  }

  lemma StepEmpties(s: State, t: Tid, w: bool)
    requires Inv(s) && t in s.threads && AllEmptied(s)
    ensures AllEmptied(Apply(s, Step(t, w)))
  {
    hide Inv, Act, Taking, SharedInv, LocalInv, Emptied;
    var s' := Apply(s, Step(t, w));
    InvParts(s, t);
    ActEmpties(s.sh, t, s.threads[t], w);
    forall i: nat | 0 < i <= s'.sh.hpos && i < |s'.sh.linked| ensures Emptied(s', i) {
      if i > s.sh.hpos {
        NewTaker(s', t, i, s.sh.linked[i - 1], s.sh.linked[i]);
      } else {
        OldStaysEmptied(s, s', t, w, i);
      }
    }
  }

  lemma NewTaker(s: State, t: Tid, i: nat, before: nat, node: nat)
    requires 0 < i < |s.sh.linked| && t in s.threads && Taking(s.threads[t].pc, At(before))
    requires s.sh.linked[i - 1] == before && s.sh.linked[i] == node < |s.sh.nodes|
    ensures Emptied(s, i)
  {
  }

  lemma BusyTaker(pc: Pc, h: Ptr)
    requires Taking(pc, h)
    ensures !pc.Idle?
  {
  }

  lemma BeginEmpties(s: State, e: Event)
    requires Inv(s) && !e.Step? && AllEmptied(s)
    ensures AllEmptied(Apply(s, e))
  {
    hide Inv, SharedInv, Taking;
    InvParts(s, e.t);
    var s' := Apply(s, e);
    forall i: nat | 0 < i <= s'.sh.hpos && i < |s'.sh.linked| ensures Emptied(s', i) {
      assert Emptied(s, i);
      if !s.sh.nodes[s.sh.linked[i]].value.MovedFrom? {
        var u :| u in s.threads && Taking(s.threads[u].pc, At(s.sh.linked[i - 1]));
        BusyTaker(s.threads[u].pc, At(s.sh.linked[i - 1]));
        assert u in s'.threads && Taking(s'.threads[u].pc, At(s'.sh.linked[i - 1]));
      }
    }
  }

  lemma {:induction false} RunEmpties(s: State, es: seq<Event>)
    requires Inv(s) && StrangersInv(s) && AllEmptied(s)
    ensures AllEmptied(Run(s, es))
    decreases |es|
  {
    hide Inv, StrangersInv, Apply, AllEmptied;
    if es != [] {
      ApplyKeeps(s, es[0]);
      if !es[0].Step? {
        BeginEmpties(s, es[0]);
      } else if es[0].t in s.threads {
        StepEmpties(s, es[0].t, es[0].weakFails);
      } else {
        NoSuchThread(s, es[0]);
      }
      RunEmpties(Apply(s, es[0]), es[1..]);
    }
  }

  lemma NoSuchThread(s: State, e: Event)
    requires e.Step? && e.t !in s.threads
    ensures Apply(s, e) == s
  {
  }

  /** Every value that was popped has been moved out of its node, or is about to be by
      the thread that moved head over it; every value that was not is still there. */
  lemma PoppedOnce(es: seq<Event>, i: nat)
    requires 0 < i < |Run(Init(), es).sh.linked|
    ensures var s := Run(Init(), es);
            && s.sh.linked[i] < |s.sh.nodes|
            && (if i <= s.sh.hpos then Emptied(s, i)
                else i <= |s.sh.vals| && s.sh.nodes[s.sh.linked[i]].value == Full(s.sh.vals[i - 1]))
  {
    InitKeeps();
    RunKeeps(Init(), es);
    RunEmpties(Init(), es);
    var s := Run(Init(), es);
    hide Run;
    assert i > s.sh.hpos ==> s.sh.nodes[s.sh.linked[i]].value == Full(s.sh.vals[i - 1]);
  }
}
