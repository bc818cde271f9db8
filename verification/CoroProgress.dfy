/** What the coroutines still have to do: every call of the coroutine AsyncMutex gets
    through, unless it waits for a mutex that is owned. */
module CoroProgress {
  import opened CoroMutex
  import opened Sums

  /** The steps a coroutine has before it until it is in its own code or parked;
      whoever is popped is resumed by the coroutine that popped it. */
  function Steps(pc: Pc): nat {
    match pc
    case AwaitSpin => 4
    case AwaitReady => 3
    case AwaitSuspend => 2
    case LeaveReady => 1
    case Parking => 1
    case UnlockSpin => 4
    case InUnlock => 3
    case ClearSpin => 2
    case GiveSpin(_) => 2
    case Resume(_) => 1
    case _ => 0
  }

  ghost function Works(cos: map<Cid, Co>): map<Cid, nat> { map c | c in cos :: Steps(cos[c].pc) }

  ghost function Work(s: State): nat { Sum(Works(s.cos)) }

  lemma OneWorks(cos: map<Cid, Co>, c: Cid, b: Co)
    ensures Sum(Works(cos[c := b])) + (if c in cos then Steps(cos[c].pc) else 0) == Sum(Works(cos)) + Steps(b.pc)
  {
    SumPut(Works(cos), c, Steps(b.pc));
    assert Works(cos[c := b]) == Works(cos)[c := Steps(b.pc)];
  }

  lemma MovingCosts(s: State, s': State, c: Cid, b: Co)
    requires s'.cos == s.cos[c := b] && Steps(b.pc) < Steps(Get(s, c).pc)
    ensures Work(s') < Work(s)
  {
    OneWorks(s.cos, c, b);
  }

  lemma TwoMoving(s: State, s': State, c: Cid, b: Co, x: Cid, d: Co)
    requires c != x && s'.cos == s.cos[x := d][c := b]
    requires Steps(b.pc) + Steps(d.pc) < Steps(Get(s, c).pc) + Steps(Get(s, x).pc)
    ensures Work(s') < Work(s)
  {
    OneWorks(s.cos, x, d);
    OneWorks(s.cos[x := d], c, b);
  }

  lemma UnlockCosts(s: State, c: Cid)
    requires Inv(s) && Get(s, c).pc.InUnlock?
    ensures Work(StepOf(s, c)) < Work(s)
  {
    if s.waiters != [] {
      var x := s.waiters[0].c;
      FirstIsParked(s, c);
      hide Inv, Work;
      TwoMoving(s, StepOf(s, c), c, Get(s, c).(pc := GiveSpin(x)), x, Get(s, x).(pc := Popped(c)));
    } else {
      hide Inv, Work;
      MovingCosts(s, StepOf(s, c), c, Get(s, c).(pc := ClearSpin));
    }
  }

  lemma ResumeCosts(s: State, c: Cid)
    requires Inv(s) && Get(s, c).pc.Resume?
    ensures Work(StepOf(s, c)) < Work(s)
  {
    var x := Get(s, c).pc.x;
    assert Carries(Get(s, c).pc, x) <==> Get(s, x).pc == Popped(c);
    hide Inv, Work;
    TwoMoving(s, StepOf(s, c), c, Get(s, c).(pc := Outside), x, Get(s, x).(pc := Outside, holds := true));
  }

  lemma TakeCosts(s: State, c: Cid)
    requires Spinning(Get(s, c).pc) && !s.spin
    ensures Work(StepOf(s, c)) < Work(s)
  {
    var pc := if Get(s, c).pc.AwaitSpin? then AwaitReady else InUnlock;
    hide Work;
    MovingCosts(s, StepOf(s, c), c, Get(s, c).(pc := pc, guard := true, took := Get(s, c).took + 1));
  }

  lemma GiveCosts(s: State, c: Cid, pc: Pc)
    requires Steps(pc) < Steps(Get(s, c).pc)
    ensures Work(GiveStep(s, c, pc)) < Work(s) && Get(GiveStep(s, c, pc), c).pc == pc
  {
    var s' := GiveStep(s, c, pc);
    assert s'.cos == s.cos[c := Get(s', c)];
    hide Work, GiveStep;
    MovingCosts(s, s', c, Get(s', c));
  }

  lemma LeaveCosts(s: State, c: Cid)
    requires Get(s, c).pc.LeaveReady?
    ensures Work(StepOf(s, c)) < Work(s)
  {
    var s' := GiveStep(s, c, Outside);
    GiveCosts(s, c, Outside);
    assert StepOf(s, c) == Put(s', c, Get(s', c).(holds := true));
    hide GiveStep, StepOf;
    OneWorks(s'.cos, c, Get(s', c).(holds := true));
  }

  lemma ParkingCosts(s: State, c: Cid)
    requires Get(s, c).pc.Parking? && s.waiters != [] && s.waiters[|s.waiters| - 1].c == c
    ensures Work(StepOf(s, c)) < Work(s)
  {
    var s' := ParkingStep(s, c);
    assert s'.cos == s.cos[c := Get(s', c)] && Get(s', c).pc.Parked?;
    hide Work, ParkingStep;
    MovingCosts(s, s', c, Get(s', c));
  }

  lemma AwaitCosts(s: State, c: Cid)
    requires Get(s, c).pc.AwaitReady? || Get(s, c).pc.AwaitSuspend?
    ensures Work(StepOf(s, c)) < Work(s)
  {
    var pc := if Get(s, c).pc.AwaitSuspend? then Parking else if s.flag then AwaitSuspend else LeaveReady;
    hide Work;
    MovingCosts(s, StepOf(s, c), c, Get(s, c).(pc := pc, guard := !Get(s, c).pc.AwaitSuspend? && Get(s, c).guard));
  }

  lemma StepCosts(s: State, c: Cid)
    requires Inv(s) && StepOf(s, c) != s
    ensures Work(StepOf(s, c)) < Work(s)
  {
    hide Inv, Work, TakeStep, GiveStep, ParkingStep, UnlockStep, ResumeStep, Put;
    match Get(s, c).pc
    case InUnlock => UnlockCosts(s, c);
    case Resume(_) => ResumeCosts(s, c);
    case LeaveReady => LeaveCosts(s, c);
    case ClearSpin => GiveCosts(s, c, Outside);
    case GiveSpin(x) => GiveCosts(s, c, Resume(x));
    case Parking =>
      BackIsOwn(s, c);
      ParkingCosts(s, c);
    case AwaitReady => AwaitCosts(s, c);
    case AwaitSuspend => AwaitCosts(s, c);
    case _ =>
      SpinsWhileTaken(s, c);
      TakeCosts(s, c);
  }

  lemma SpinsWhileTaken(s: State, c: Cid)
    requires StepOf(s, c) != s
    requires var pc := Get(s, c).pc; Spinning(pc) || Resting(pc) || pc.Popped? || pc.Fault?
    ensures Spinning(Get(s, c).pc) && !s.spin
  {
  }

  /** Every step of the mutex that changes anything uses up work: if no coroutine
      begins anything new, a run has no more than Work(s) such steps left. */
  lemma EveryStepCounts(es: seq<Event>, c: Cid)
    requires StepOf(Run(Init(), es), c) != Run(Init(), es)
    ensures Work(StepOf(Run(Init(), es), c)) < Work(Run(Init(), es))
  {
    Reachable(es);
    StepCosts(Run(Init(), es), c);
  }

  /** In its own code, or waiting for the owner. */
  predicate Resting(pc: Pc) { pc.Outside? || pc.Ended? || pc.Parked? }

  ghost predicate AtRest(s: State) { forall c :: Resting(Get(s, c).pc) }

  predicate Spinning(pc: Pc) { pc.AwaitSpin? || pc.UnlockSpin? }

  lemma MovingMoves(s: State, c: Cid)
    requires !Resting(Get(s, c).pc) && !Get(s, c).pc.Popped? && !Get(s, c).pc.Fault?
    requires Spinning(Get(s, c).pc) ==> !s.spin
    ensures StepOf(s, c) != s
  {
    assert Get(StepOf(s, c), c).pc != Get(s, c).pc;
  }

  /** Whoever is not at rest can move, or waits for somebody who can. */
  lemma SomeoneMoves(s: State, c: Cid) returns (d: Cid)
    requires Inv(s) && !Resting(Get(s, c).pc)
    ensures StepOf(s, d) != s
  {
    assert CoInv(Get(s, c));
    d := c;
    if Get(s, c).pc.Popped? {
      d := Get(s, c).pc.popper;
      assert Carries(Get(s, d).pc, c) <==> Get(s, c).pc == Popped(d);
    } else if Spinning(Get(s, c).pc) && s.spin {
      d := s.token.c;
      assert HasToken(Get(s, d).pc) <==> s.token == Somebody(d);
    }
    assert CoInv(Get(s, d));
    hide Inv;
    MovingMoves(s, d);
  }

  ghost predicate AllSteps(es: seq<Event>) { forall i :: 0 <= i < |es| ==> es[i].Step? }

  lemma {:induction false} Settles(s: State) returns (es: seq<Event>)
    requires Inv(s)
    ensures AllSteps(es) && |es| <= Work(s) && AtRest(Run(s, es))
    decreases Work(s)
  {
    hide Inv, StepOf, Work, Resting;
    es := [];
    if !AtRest(s) {
      var c :| !Resting(Get(s, c).pc);
      var d := SomeoneMoves(s, c);
      StepCosts(s, d);
      ApplyKeeps(s, Step(d));
      var later := Settles(Apply(s, Step(d)));
      es := [Step(d)] + later;
      assert es[1..] == later;
    }
  }

  lemma {:induction false} RunSplits(s: State, es: seq<Event>, fs: seq<Event>)
    ensures Run(s, es + fs) == Run(Run(s, es), fs)
    decreases |es|
  {
    hide Apply;
    if es == [] {
      assert es + fs == fs;
    } else {
      assert (es + fs)[1..] == es[1..] + fs;
      RunSplits(Apply(s, es[0]), es[1..], fs);
    }
  }

  /** From every reachable state the coroutines come to rest within the steps that are
      left, if they begin nothing new: each is then in its own code or in the list,
      the spinlock is free, and if anyone is in the list the mutex is owned by one
      that is in its own code or in the list itself. */
  lemma ComeToRest(es: seq<Event>)
    ensures exists fs :: RestAfter(es, fs)
  {
    Reachable(es);
    var fs := Settles(Run(Init(), es));
    RunSplits(Init(), es, fs);
    Reachable(es + fs);
    hide Run, Work, Inv;
    AtRestMeans(Run(Init(), es + fs));
    assert RestAfter(es, fs);
  }

  lemma AtRestMeans(s: State)
    requires Inv(s) && AtRest(s)
    ensures !s.spin && (s.waiters != [] ==> exists c :: Get(s, c).holds)
  {
    hide ListInv, HandInv, Get;
    assert forall c :: !HasToken(Get(s, c).pc);
    if s.waiters != [] {
      var c := s.owner.c;
      assert Owns(Get(s, c)) <==> s.owner == Somebody(c);
      assert Get(s, c).holds;
    }
  }

  ghost predicate RestAfter(es: seq<Event>, fs: seq<Event>) {
    && AllSteps(fs) && |fs| <= Work(Run(Init(), es))
    && var s := Run(Init(), es + fs);
       AtRest(s) && !s.spin && (s.waiters != [] ==> exists c :: Get(s, c).holds)
  }

  // ----- calls that nobody disturbs -----

  lemma RunOf3(s: State, a: Event, b: Event, c: Event)
    ensures Run(s, [a, b, c]) == Apply(Apply(Apply(s, a), b), c)
  {
    hide Apply;
    assert [a, b, c][1..] == [b, c] && [b, c][1..] == [c] && [c][1..] == [];
    assert Run(Apply(s, a), [b, c]) == Run(Apply(Apply(s, a), b), [c]);
  }

  lemma RunOf4(s: State, a: Event, b: Event, c: Event, d: Event)
    ensures Run(s, [a, b, c, d]) == Apply(Apply(Apply(Apply(s, a), b), c), d)
  {
    hide Apply;
    assert [a, b, c, d][1..] == [b, c, d];
    RunOf3(Apply(s, a), b, c, d);
  }

  lemma RunOf5(s: State, a: Event, b: Event, c: Event, d: Event, e: Event)
    ensures Run(s, [a, b, c, d, e]) == Apply(Apply(Apply(Apply(Apply(s, a), b), c), d), e)
  {
    hide Apply;
    assert [a, b, c, d, e][1..] == [b, c, d, e];
    RunOf4(Apply(s, a), b, c, d, e);
  }

  /** A lock that finds the mutex free takes it. */
  lemma FreeMutexIsTaken(es: seq<Event>, c: Cid)
    requires var s := Run(Init(), es); Get(s, c).pc.Outside? && !s.flag && !s.spin
    ensures var s' := Run(Init(), es + [BeginLock(c), Step(c), Step(c), Step(c)]);
      Get(s', c).pc.Outside? && Get(s', c).holds && s'.flag && !s'.spin
  {
    var s := Run(Init(), es);
    RunSplits(Init(), es, [BeginLock(c), Step(c), Step(c), Step(c)]);
    RunOf4(s, BeginLock(c), Step(c), Step(c), Step(c));
    hide Run;
  }

  /** One that finds it taken goes to the end of the list, and lets go of the spinlock. */
  lemma TakenMutexIsWaitedFor(es: seq<Event>, c: Cid)
    requires var s := Run(Init(), es); Get(s, c).pc.Outside? && s.flag && !s.spin
    ensures var s, s' := Run(Init(), es), Run(Init(), es + [BeginLock(c), Step(c), Step(c), Step(c), Step(c)]);
      Get(s', c).pc.Parked? && s'.waiters == s.waiters + [Waiter(c, false)] && s'.flag && !s'.spin
  {
    var s := Run(Init(), es);
    RunSplits(Init(), es, [BeginLock(c), Step(c), Step(c), Step(c), Step(c)]);
    RunOf5(s, BeginLock(c), Step(c), Step(c), Step(c), Step(c));
    hide Run;
    ToSuspend(s, c);
    ToParked(Apply(Apply(Apply(s, BeginLock(c)), Step(c)), Step(c)), c);
  }

  lemma ToSuspend(s: State, c: Cid)
    requires Get(s, c).pc.Outside? && s.flag && !s.spin
    ensures var s' := Apply(Apply(Apply(s, BeginLock(c)), Step(c)), Step(c));
      Get(s', c).pc.AwaitSuspend? && Get(s', c).guard && s'.flag && s'.waiters == s.waiters
  {
  }

  lemma ToParked(s: State, c: Cid)
    requires Get(s, c).pc.AwaitSuspend? && Get(s, c).guard
    ensures var s' := Apply(Apply(s, Step(c)), Step(c));
      Get(s', c).pc.Parked? && s'.waiters == s.waiters + [Waiter(c, false)] && s'.flag == s.flag && !s'.spin
  {
    assert (s.waiters + [Waiter(c, true)])[|s.waiters| := Waiter(c, false)] == s.waiters + [Waiter(c, false)];
  }

  /** An unlock resumes the first waiter as the owner. */
  lemma UnlockResumes(es: seq<Event>, c: Cid)
    requires var s := Run(Init(), es); Get(s, c).pc.Outside? && Get(s, c).holds && !s.spin && s.waiters != []
    ensures var s, s' := Run(Init(), es), Run(Init(), es + [BeginUnlock(c), Step(c), Step(c), Step(c), Step(c)]);
      var x := s.waiters[0].c;
      && Get(s', c).pc.Outside? && !Get(s', c).holds && s'.waiters == s.waiters[1..]
      && Get(s', x).pc.Outside? && Get(s', x).holds && s'.flag && !s'.spin
  {
    var s := Run(Init(), es);
    Reachable(es);
    assert CoInv(Get(s, c));
    assert InList(s, s.waiters[0].c);
    RunSplits(Init(), es, [BeginUnlock(c), Step(c), Step(c), Step(c), Step(c)]);
    RunOf5(s, BeginUnlock(c), Step(c), Step(c), Step(c), Step(c));
    hide Run, Inv;
  }
}
