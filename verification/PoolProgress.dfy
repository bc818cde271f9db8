/** That the pool gets its tasks done: while a worker is at work, whatever is under way
    reaches a worker, runs, and is parked or complete. */
module PoolProgress {
  import opened Pool
  import opened Sequences
  import opened Sums

  // ----- a worker does not leave while it is needed -----

  /** The worker's Process has not returned. */
  predicate Open(pc: Pc) { !pc.Ended? && !pc.Closed? && !pc.Broken? }

  /** The task belongs to the worker, or is in its queue or its hands. */
  predicate AtHome(b: Task, w: Wid) {
    b.worker == By(w) || b.at == InLocal(w) || b.at == ToLocal(w) || HeldBy(b.at, w)
  }

  /** The steps a task has before it until it is parked or complete. */
  function Steps(at: Place): nat {
    match at
    case Entering => 12
    case Adding => 11
    case Progressing => 10
    case Routing => 9
    case ToGlobal => 8
    case InGlobal => 7
    case Moving(_) => 6
    case ToLocal(_) => 6
    case InLocal(_) => 5
    case Picked(_) => 4
    case Ready(_) => 3
    case OnWorker(_) => 2
    case Ending(_) => 1
    case _ => 0
  }

  ghost predicate HomeInv(s: State) {
    forall t, w :: Counted(Get(s, t)) && AtHome(Get(s, t), w) ==> Open(Pos(s, w))
  }

  lemma CountedIsLive(s: State, t: Tid)
    requires Inv(s) && Counted(Get(s, t))
    ensures s.count > 0
  {
    if s.count <= 0 { NothingLive(s, t); }
  }

  lemma StaysOpen(s: State, e: Event, w: Wid)
    requires Open(Pos(s, w)) && s.count > 0
    ensures Open(Pos(Apply(s, e), w))
  {
    hide SubmitStepOf, WorkerStepOf;
    match e
    case SubmitStep(t) => SubmitMovesNobody(s, t, w);
    case WorkerStep(v) => StepStaysOpen(s, v, w);
    case _ =>
  }

  lemma StepStaysOpen(s: State, v: Wid, w: Wid)
    requires Open(Pos(s, w)) && s.count > 0
    ensures Open(Pos(WorkerStepOf(s, v), w))
  {
    hide Get, Queue, BusyStep;
    if Pos(s, v).Busy? { BusyStaysOpen(s, v, Pos(s, v).t, w); }
  }

  /** A task comes to be a worker's only through that worker's own hands. */
  lemma NewAtHome(s: State, e: Event, t: Tid, w: Wid)
    requires TaskInv(Get(s, t)) && Counted(Get(Apply(s, e), t)) && AtHome(Get(Apply(s, e), t), w)
    requires Inv(s)
    ensures (Counted(Get(s, t)) && AtHome(Get(s, t), w)) || Pos(Apply(s, e), w) == Busy(t)
  {
    hide SubmitStepOf, WorkerStepOf, Inv;
    match e
    case SubmitStep(u) => SubmitAtHome(s, u, t, w);
    case WorkerStep(v) =>
      InWorkersHands(s, v);
      WorkerAtHome(s, v, t, w);
    case _ =>
  }

  lemma InWorkersHands(s: State, v: Wid)
    requires Inv(s)
    ensures Pos(s, v).Busy? ==> HeldBy(Get(s, Pos(s, v).t).at, v)
    ensures Queue(s, v) != [] ==> Get(s, Queue(s, v)[0]).at == InLocal(v)
    ensures s.global != [] ==> Get(s, s.global[0]).at.InGlobal?
  {
    hide Get, Queue, NoRepeats;
    if Queue(s, v) != [] { assert Queue(s, v)[0] in Queue(s, v); }
    if s.global != [] { assert s.global[0] in s.global; }
  }

  /** Where a step of Submit takes the task, and what it leaves alone. */
  lemma SubmitTouches(s: State, u: Tid)
    ensures var s' := SubmitStepOf(s, u);
      && (s'.tasks == s.tasks || s'.tasks == s.tasks[u := Get(s', u)])
      && (forall x :: x != u ==> Get(s', x) == Get(s, x))
  {
    hide Queue;
  }

  /** What a step of Submit makes of its task. */
  function Submitted(b: Task): Task {
    match b.at
    case Entering => b.(at := if b.stage.Planned? then Adding else Routing)
    case Adding => b.(at := Progressing)
    case Progressing => Progress(b, Routing)
    case Routing => b.(at := if b.worker.By? then ToLocal(b.worker.w) else ToGlobal)
    case ToLocal(w) => b.(at := InLocal(w))
    case ToGlobal => b.(at := InGlobal)
    case _ => b
  }

  lemma SubmitMakes(s: State, u: Tid)
    ensures Get(SubmitStepOf(s, u), u) == Submitted(Get(s, u))
    ensures Submitted(Get(s, u)) == Get(s, u) ==> SubmitStepOf(s, u) == s
  {
    hide Queue;
  }

  lemma SubmitLowers(s: State, u: Tid)
    ensures SubmitStepOf(s, u) == s || Steps(Get(SubmitStepOf(s, u), u).at) < Steps(Get(s, u).at)
  {
    SubmitMakes(s, u);
    hide SubmitStepOf, Get;
  }

  lemma SubmitTakes(s: State, u: Tid, w: Wid)
    requires TaskInv(Get(s, u)) && Counted(Get(SubmitStepOf(s, u), u)) && AtHome(Get(SubmitStepOf(s, u), u), w)
    ensures Counted(Get(s, u)) && AtHome(Get(s, u), w)
  {
    SubmitMakes(s, u);
    hide SubmitStepOf, Get, Steps;
  }

  lemma SubmitAtHome(s: State, u: Tid, t: Tid, w: Wid)
    requires TaskInv(Get(s, t)) && Counted(Get(SubmitStepOf(s, u), t)) && AtHome(Get(SubmitStepOf(s, u), t), w)
    ensures Counted(Get(s, t)) && AtHome(Get(s, t), w)
  {
    hide SubmitStepOf, Get, Counted, AtHome, Steps, TaskInv;
    SubmitTouches(s, u);
    if t == u { SubmitTakes(s, u, w); }
  }

  /** And of the task in a worker's hands. */
  lemma BusyTouches(s: State, v: Wid, t: Tid)
    ensures var s' := BusyStep(s, v, t);
      && (s'.tasks == s.tasks || s'.tasks == s.tasks[t := Get(s', t)])
      && (forall x :: x != t ==> Get(s', x) == Get(s, x))
  {
    hide Queue;
  }

  lemma BusyLowers(s: State, v: Wid, t: Tid)
    requires HeldBy(Get(s, t).at, v)
    ensures BusyStep(s, v, t) == s || Steps(Get(BusyStep(s, v, t), t).at) < Steps(Get(s, t).at)
  {
    hide Queue;
  }

  lemma BusyTakes(s: State, v: Wid, t: Tid, w: Wid)
    requires HeldBy(Get(s, t).at, v) && TaskInv(Get(s, t))
    requires Counted(Get(BusyStep(s, v, t), t)) && AtHome(Get(BusyStep(s, v, t), t), w)
    ensures Counted(Get(s, t)) && AtHome(Get(s, t), w)
  {
    hide Queue, Steps;
  }

  lemma BusyAtHome(s: State, v: Wid, u: Tid, t: Tid, w: Wid)
    requires HeldBy(Get(s, u).at, v) && TaskInv(Get(s, t))
    requires Counted(Get(BusyStep(s, v, u), t)) && AtHome(Get(BusyStep(s, v, u), t), w)
    ensures Counted(Get(s, t)) && AtHome(Get(s, t), w)
  {
    hide BusyStep, Get, Counted, AtHome, Steps, TaskInv, HeldBy;
    BusyTouches(s, v, u);
    if t == u { BusyTakes(s, v, u, w); }
  }

  lemma IdleAtHome(s: State, v: Wid, t: Tid, w: Wid)
    requires !Pos(s, v).Busy?
    requires Counted(Get(WorkerStepOf(s, v), t)) && AtHome(Get(WorkerStepOf(s, v), t), w)
    requires Queue(s, v) != [] ==> Get(s, Queue(s, v)[0]).at == InLocal(v)
    requires s.global != [] ==> Get(s, s.global[0]).at.InGlobal?
    ensures (Counted(Get(s, t)) && AtHome(Get(s, t), w)) || Pos(WorkerStepOf(s, v), w) == Busy(t)
  {
    hide Queue, BusyStep, Counted, AtHome;
    TakenWasHere(s, v, t, w);
    if WorkerStepOf(s, v).tasks == s.tasks {
      SameTask(s, WorkerStepOf(s, v), t);
      hide WorkerStepOf;
    } else {
      TakingIs(s, v, t);
      hide WorkerStepOf, Get;
    }
  }

  lemma TakingIs(s: State, v: Wid, t: Tid)
    requires WorkerStepOf(s, v).tasks != s.tasks && !Pos(s, v).Busy?
    requires Queue(s, v) != [] ==> Get(s, Queue(s, v)[0]).at == InLocal(v)
    requires s.global != [] ==> Get(s, s.global[0]).at.InGlobal?
    ensures var s', b := WorkerStepOf(s, v), Get(s, t);
      || Get(s', t) == b
      || (Pos(s', v) == Busy(t) && b.at == InLocal(v) && Get(s', t) == b.(at := Picked(v)))
      || (Pos(s', v) == Busy(t) && b.at.InGlobal? && Get(s', t) == b.(at := Moving(v)))
  {
    hide Queue;
  }

  lemma SameTask(s: State, s': State, t: Tid)
    requires s'.tasks == s.tasks
    ensures Get(s', t) == Get(s, t)
  {
  }

  /** A task that is in a queue is counted, and taking it changes only where it is. */
  lemma TakenWasHere(s: State, v: Wid, t: Tid, w: Wid)
    ensures Get(s, t).at == InLocal(v) ==>
              Counted(Get(s, t)) && (AtHome(Get(s, t).(at := Picked(v)), w) ==> AtHome(Get(s, t), w))
    ensures Get(s, t).at.InGlobal? ==>
              Counted(Get(s, t)) && (AtHome(Get(s, t).(at := Moving(v)), w) ==> AtHome(Get(s, t), w) || w == v)
  {
  }

  lemma WorkerAtHome(s: State, v: Wid, t: Tid, w: Wid)
    requires TaskInv(Get(s, t)) && Counted(Get(WorkerStepOf(s, v), t)) && AtHome(Get(WorkerStepOf(s, v), t), w)
    requires Pos(s, v).Busy? ==> HeldBy(Get(s, Pos(s, v).t).at, v)
    requires Queue(s, v) != [] ==> Get(s, Queue(s, v)[0]).at == InLocal(v)
    requires s.global != [] ==> Get(s, s.global[0]).at.InGlobal?
    ensures (Counted(Get(s, t)) && AtHome(Get(s, t), w)) || Pos(WorkerStepOf(s, v), w) == Busy(t)
  {
    hide Get, Queue, BusyStep, Counted, AtHome, TaskInv, HeldBy;
    if Pos(s, v).Busy? {
      BusyAtHome(s, v, Pos(s, v).t, t, w);
    } else {
      hide WorkerStepOf;
      IdleAtHome(s, v, t, w);
    }
  }

  lemma HomeKeeps(s: State, e: Event)
    requires Inv(s) && HomeInv(s)
    ensures HomeInv(Apply(s, e))
  {
    hide Apply, Get, Pos, Counted, AtHome, QueuesInv, Open;
    forall t, w | Counted(Get(Apply(s, e), t)) && AtHome(Get(Apply(s, e), t), w) ensures Open(Pos(Apply(s, e), w)) {
      NewAtHome(s, e, t, w);
      if Counted(Get(s, t)) && AtHome(Get(s, t), w) {
        CountedIsLive(s, t);
        StaysOpen(s, e, w);
      } else {
        BusyIsOpen(Pos(Apply(s, e), w));
      }
    }
  }

  lemma BusyIsOpen(pc: Pc)
    requires pc.Busy?
    ensures Open(pc)
  {
  }

  lemma {:induction false} HomeKept(s: State, es: seq<Event>)
    requires Inv(s) && HomeInv(s)
    ensures Inv(Run(s, es)) && HomeInv(Run(s, es))
    decreases |es|
  {
    hide Inv, HomeInv, Apply;
    if es != [] {
      ApplyKeeps(s, es[0]);
      HomeKeeps(s, es[0]);
      HomeKept(Apply(s, es[0]), es[1..]);
    }
  }

  lemma HomeReachable(es: seq<Event>)
    ensures Inv(Run(Init(), es)) && HomeInv(Run(Init(), es))
  {
    Reachable([]);
    assert HomeInv(Init());
    HomeKept(Init(), es);
  }

  // ----- the work that is left -----

  ghost function Works(tasks: map<Tid, Task>): map<Tid, nat> { map t | t in tasks :: Steps(tasks[t].at) }

  ghost function Work(s: State): nat { Sum(Works(s.tasks)) }

  /** Events that are not new to the pool: a run that ends is one of them. */
  predicate Internal(e: Event) { e.SubmitStep? || e.WorkerStep? || e.Pause? || e.Park? || e.Complete? }

  lemma MovingCosts(s: State, s': State, t: Tid, b: Task)
    requires s'.tasks == s.tasks[t := b] && Steps(b.at) < Steps(Get(s, t).at)
    ensures Work(s') < Work(s)
  {
    SumPut(Works(s.tasks), t, Steps(b.at));
    assert Works(s'.tasks) == Works(s.tasks)[t := Steps(b.at)];
  }

  lemma SubmitCosts(s: State, t: Tid)
    requires SubmitStepOf(s, t).tasks != s.tasks
    ensures Work(SubmitStepOf(s, t)) < Work(s)
  {
    hide Work, SubmitStepOf, Steps;
    SubmitTouches(s, t);
    SubmitLowers(s, t);
    MovingCosts(s, SubmitStepOf(s, t), t, Get(SubmitStepOf(s, t), t));
  }

  lemma BusyCosts(s: State, w: Wid, t: Tid)
    requires Pos(s, w) == Busy(t) && HeldBy(Get(s, t).at, w) && BusyStep(s, w, t).tasks != s.tasks
    ensures Work(BusyStep(s, w, t)) < Work(s)
  {
    hide Work, BusyStep, Steps;
    BusyTouches(s, w, t);
    BusyLowers(s, w, t);
    MovingCosts(s, BusyStep(s, w, t), t, Get(BusyStep(s, w, t), t));
  }

  /** A worker takes the first of its own queue, or the first of the global one. */
  lemma TakingCosts(s: State, w: Wid)
    requires Inv(s)
    requires (Pos(s, w).Looking? && Queue(s, w) != []) || (Pos(s, w).LookingGlobal? && s.global != [])
    ensures Work(WorkerStepOf(s, w)) < Work(s)
  {
    var s' := WorkerStepOf(s, w);
    var t := if Pos(s, w).Looking? then Queue(s, w)[0] else s.global[0];
    assert t in Queue(s, w) <==> Get(s, t).at == InLocal(w);
    assert t in s.global <==> Get(s, t).at.InGlobal?;
    hide Inv, Work, Queue, Get;
    var at := if Pos(s, w).Looking? then Picked(w) else Moving(w);
    MovingCosts(s, s', t, Get(s, t).(at := at));
  }

  lemma WorkerCosts(s: State, w: Wid)
    requires Inv(s) && WorkerStepOf(s, w).tasks != s.tasks
    ensures Work(WorkerStepOf(s, w)) < Work(s)
  {
    if Pos(s, w).Busy? {
      assert HeldBy(Get(s, Pos(s, w).t).at, w);
      hide Inv, Work, Get, Queue, BusyStep;
      BusyCosts(s, w, Pos(s, w).t);
    } else {
      hide Work;
      OnlyTakingTouches(s, w);
      hide WorkerStepOf, Inv;
      TakingCosts(s, w);
    }
  }

  lemma OnlyTakingTouches(s: State, w: Wid)
    requires WorkerStepOf(s, w).tasks != s.tasks && !Pos(s, w).Busy?
    ensures (Pos(s, w).Looking? && Queue(s, w) != []) || (Pos(s, w).LookingGlobal? && s.global != [])
  {
    hide Queue, Get;
  }

  lemma RunEndCosts(s: State, e: Event)
    requires e.Park? || e.Complete?
    requires Runs(s, e.w)
    ensures Work(Apply(s, e)) < Work(s)
  {
    var s', t := Apply(s, e), Pos(s, e.w).t;
    assert s'.tasks == s.tasks[t := Get(s', t)] && Steps(Get(s', t).at) < Steps(Get(s, t).at);
    hide Work, Apply, Get;
    MovingCosts(s, s', t, Get(s', t));
  }

  lemma StepCosts(s: State, e: Event)
    requires Inv(s) && Internal(e) && Apply(s, e).tasks != s.tasks
    ensures Work(Apply(s, e)) < Work(s)
  {
    hide Inv, Work, SubmitStepOf, WorkerStepOf;
    match e
    case SubmitStep(t) => SubmitCosts(s, t);
    case WorkerStep(w) => WorkerCosts(s, w);
    case Pause(w) =>
    case Park(w) => RunEndCosts(s, e);
    case Complete(w, _) => RunEndCosts(s, e);
  }

  /** Every step of the pool that touches a task brings that task nearer to being
      parked or complete: without new submissions there are at most Work(s) of them. */
  lemma EveryTaskStepCounts(es: seq<Event>, e: Event)
    requires Internal(e) && Apply(Run(Init(), es), e).tasks != Run(Init(), es).tasks
    ensures Work(Apply(Run(Init(), es), e)) < Work(Run(Init(), es))
  {
    Reachable(es);
    StepCosts(Run(Init(), es), e);
  }

  // ----- somebody always moves a task -----

  ghost predicate Good(s: State, w: Wid) { Inv(s) && HomeInv(s) && Open(Pos(s, w)) }

  /** From s the events lead to a state with less to do, and w is still at work. */
  ghost predicate Leads(s: State, es: seq<Event>, w: Wid) {
    AllInternal(es) && Good(Run(s, es), w) && Work(Run(s, es)) < Work(s)
  }

  ghost predicate AllInternal(es: seq<Event>) { forall i :: 0 <= i < |es| ==> Internal(es[i]) }

  lemma OneLeads(s: State, e: Event, w: Wid)
    requires Good(s, w) && Internal(e) && Work(Apply(s, e)) < Work(s) && Open(Pos(Apply(s, e), w))
    ensures Leads(s, [e], w)
  {
    ApplyKeeps(s, e);
    HomeKeeps(s, e);
    hide Inv, HomeInv, Apply, Work, Open;
    assert [e][1..] == [] && Run(s, [e]) == Run(Apply(s, e), []);
  }

  lemma ThenLeads(s: State, e: Event, es: seq<Event>, w: Wid)
    requires Internal(e) && Leads(Apply(s, e), es, w) && Work(Apply(s, e)) <= Work(s)
    ensures Leads(s, [e] + es, w)
  {
    hide Good, Apply, Work;
    assert ([e] + es)[1..] == es;
  }

  /** A worker with a task in its hands does something with it. */
  lemma BusyLeads(s: State, v: Wid, w: Wid) returns (es: seq<Event>)
    requires Good(s, w) && Pos(s, v).Busy?
    ensures Leads(s, es, w)
  {
    var t := Pos(s, v).t;
    assert HeldBy(Get(s, t).at, v);
    assert TaskInv(Get(s, t));
    hide Inv, HomeInv, Work;
    if Get(s, t).at.OnWorker? {
      es := [Complete(v, true)];
      RunEndCosts(s, es[0]);
      OneLeads(s, es[0], w);
    } else {
      es := [WorkerStep(v)];
      BusyMoves(s, v, t, w);
      WorkerCosts(s, v);
      OneLeads(s, es[0], w);
    }
  }

  lemma BusyMoves(s: State, v: Wid, t: Tid, w: Wid)
    requires Pos(s, v) == Busy(t) && HeldBy(Get(s, t).at, v) && !Get(s, t).at.OnWorker? && Open(Pos(s, w))
    ensures WorkerStepOf(s, v).tasks != s.tasks && Open(Pos(WorkerStepOf(s, v), w))
  {
    BusyStaysOpen(s, v, t, w);
    assert Get(WorkerStepOf(s, v), t).at != Get(s, t).at;
  }

  /** How far an idle worker is from looking where there is a task. */
  function Distance(s: State, v: Wid): nat {
    match Pos(s, v)
    case Looking => 2
    case LookingGlobal => if s.global != [] then 1 else 4
    case _ => 3
  }

  /** A worker that is at work gets to its own queue or to the global one, whichever
      is not empty. */
  lemma {:induction false} WorkerLeads(s: State, v: Wid, w: Wid) returns (es: seq<Event>)
    requires Good(s, w) && Open(Pos(s, v)) && s.count > 0 && (Queue(s, v) != [] || s.global != [])
    ensures Leads(s, es, w)
    decreases Distance(s, v)
  {
    if Pos(s, v).Busy? {
      es := BusyLeads(s, v, w);
    } else {
      var e, s' := WorkerStep(v), Apply(s, WorkerStep(v));
      StaysOpen(s, e, w);
      StaysOpen(s, e, v);
      if (Pos(s, v).Looking? && Queue(s, v) != []) || (Pos(s, v).LookingGlobal? && s.global != []) {
        TakingCosts(s, v);
        hide Inv, HomeInv, Work, WorkerStepOf, Open;
        es := [e];
        OneLeads(s, e, w);
      } else {
        ApplyKeeps(s, e);
        HomeKeeps(s, e);
        hide Inv, HomeInv, Work, Leads;
        IdleStep(s, v);
        hide WorkerStepOf, Queue, Distance, Open;
        es := WorkerLeads(s', v, w);
        SameTasks(s, s');
        ThenLeads(s, e, es, w);
        es := [e] + es;
      }
    }
  }

  lemma SameTasks(s: State, s': State)
    requires s'.tasks == s.tasks
    ensures Work(s') == Work(s)
  {
  }

  lemma IdleStep(s: State, v: Wid)
    requires Open(Pos(s, v)) && s.count > 0 && !Pos(s, v).Busy? && (Queue(s, v) != [] || s.global != [])
    requires !(Pos(s, v).Looking? && Queue(s, v) != []) && !(Pos(s, v).LookingGlobal? && s.global != [])
    ensures var s' := WorkerStepOf(s, v);
      && s'.tasks == s.tasks && s'.count == s.count && Distance(s', v) < Distance(s, v)
      && (Queue(s', v) != [] || s'.global != [])
  {
  }

  /** The task still has something before it. */
  predicate UnderWork(at: Place) { Steps(at) > 0 }

  lemma TaskLeads(s: State, t: Tid, w: Wid) returns (es: seq<Event>)
    requires Good(s, w) && UnderWork(Get(s, t).at)
    ensures Leads(s, es, w)
  {
    var at := Get(s, t).at;
    assert TaskInv(Get(s, t));
    if at.InGlobal? {
      assert t in s.global;
      CountedIsLive(s, t);
      es := WorkerLeads(s, w, w);
    } else if at.InLocal? {
      assert t in Queue(s, at.w);
      CountedIsLive(s, t);
      es := WorkerLeads(s, at.w, w);
    } else if at.Moving? || at.Picked? || at.Ready? || at.OnWorker? || at.Ending? {
      assert HeldBy(at, at.w) && Pos(s, at.w) == Busy(t);
      hide Inv, HomeInv, Leads;
      es := BusyLeads(s, at.w, w);
    } else {
      es := [SubmitStep(t)];
      hide Inv, HomeInv, Work;
      SubmitMovesNobody(s, t, w);
      SubmitMoves(s, t);
      hide SubmitStepOf;
      SubmitCosts(s, t);
      OneLeads(s, es[0], w);
    }
  }

  lemma SubmitMoves(s: State, t: Tid)
    requires var at := Get(s, t).at;
      at.Entering? || at.Adding? || at.Progressing? || at.Routing? || at.ToLocal? || at.ToGlobal?
    ensures SubmitStepOf(s, t).tasks != s.tasks
  {
    assert Get(SubmitStepOf(s, t), t).at != Get(s, t).at;
  }

  ghost predicate AllSettled(s: State) { forall t :: !UnderWork(Get(s, t).at) }

  lemma {:induction false} Settles(s: State, w: Wid) returns (es: seq<Event>)
    requires Good(s, w)
    ensures AllInternal(es) && Good(Run(s, es), w) && AllSettled(Run(s, es))
    decreases Work(s)
  {
    hide Good, Work, UnderWork, Apply;
    es := [];
    if !AllSettled(s) {
      var t :| UnderWork(Get(s, t).at);
      es := TaskLeads(s, t, w);
      var later := Settles(Run(s, es), w);
      RunInTwo(s, es, later);
      es := es + later;
    }
  }

  lemma RunInTwo(s: State, es: seq<Event>, fs: seq<Event>)
    requires AllInternal(es) && AllInternal(fs)
    ensures AllInternal(es + fs) && Run(s, es + fs) == Run(Run(s, es), fs)
  {
    RunSplits(s, es, fs);
  }

  /** Nothing new is submitted and no worker is hired, and every task is parked,
      complete, or not submitted yet. */
  ghost predicate SettledAfter(es: seq<Event>, fs: seq<Event>) {
    && AllInternal(fs)
    && forall t :: var at := Get(Run(Init(), es + fs), t).at; at.Made? || at.Parked? || at.Gone?
  }

  /** From every reachable state in which some worker is at work, all that is under way
      gets done: every task that was submitted has run until it was parked or
      complete. */
  lemma EveryTaskGetsThrough(es: seq<Event>, w: Wid)
    requires Open(Pos(Run(Init(), es), w))
    ensures exists fs :: SettledAfter(es, fs)
  {
    HomeReachable(es);
    var fs := Settles(Run(Init(), es), w);
    RunSplits(Init(), es, fs);
    var s := Run(Init(), es + fs);
    hide Run;
    forall t ensures var at := Get(s, t).at; at.Made? || at.Parked? || at.Gone? {
      assert TaskInv(Get(s, t)) && !UnderWork(Get(s, t).at);
    }
    assert SettledAfter(es, fs);
  }

  /** A worker that has nothing to do and pauses looks again, unless it may close. */
  lemma PausedLooksAgain(es: seq<Event>, w: Wid)
    requires var s := Run(Init(), es); Pos(s, w).Deciding? && !CanCloseWorker(s)
    ensures var s' := Run(Init(), es + [Pause(w), WorkerStep(w)]); Pos(s', w).Looking?
    ensures var s' := Run(Init(), es + [Pause(w), StartShutdown, WorkerStep(w)]);
      if Run(Init(), es).count == 0 then Pos(s', w).Closed? else Pos(s', w).Looking?
  {
    var s := Run(Init(), es);
    RunSplits(Init(), es, [Pause(w), WorkerStep(w)]);
    RunSplits(Init(), es, [Pause(w), StartShutdown, WorkerStep(w)]);
    assert [Pause(w), WorkerStep(w)][1..] == [WorkerStep(w)] && [WorkerStep(w)][1..] == [];
    assert [Pause(w), StartShutdown, WorkerStep(w)][1..] == [StartShutdown, WorkerStep(w)];
    assert [StartShutdown, WorkerStep(w)][1..] == [WorkerStep(w)];
    var s1 := Apply(s, Pause(w));
    assert Run(s, [Pause(w), WorkerStep(w)]) == Run(s1, [WorkerStep(w)]) == Apply(s1, WorkerStep(w));
    var s2 := Apply(s1, StartShutdown);
    assert Run(s, [Pause(w), StartShutdown, WorkerStep(w)]) == Run(s2, [WorkerStep(w)]) == Apply(s2, WorkerStep(w));
  }

  // ----- the queues are served in order -----

  /** The global queue, or a worker's own. */
  datatype Where = Everyones | Own(w: Wid)

  function QueueOf(s: State, q: Where): seq<Tid> { if q.Own? then Queue(s, q.w) else s.global }

  predicate IsIn(at: Place, q: Where) { if q.Own? then at == InLocal(q.w) else at.InGlobal? }

  /** Going from s to s' the queue loses its first task, or gains a last one, or stays
      as it is; and that is what becomes of the tasks. */
  ghost predicate InTurn(s: State, s': State, q: Where) {
    && (forall t :: IsIn(Get(s, t).at, q) && !IsIn(Get(s', t).at, q) ==> QueueOf(s, q) == [t] + QueueOf(s', q))
    && (forall t :: !IsIn(Get(s, t).at, q) && IsIn(Get(s', t).at, q) ==> QueueOf(s', q) == QueueOf(s, q) + [t])
    && ((forall t :: IsIn(Get(s, t).at, q) == IsIn(Get(s', t).at, q)) ==> QueueOf(s', q) == QueueOf(s, q))
  }

  lemma SubmitInTurn(s: State, u: Tid, q: Where)
    ensures InTurn(s, SubmitStepOf(s, u), q)
  {
    SubmitTouches(s, u);
    SubmitQueues(s, u, q);
    hide SubmitStepOf, Get, Steps;
  }

  lemma SubmitQueues(s: State, u: Tid, q: Where)
    ensures var s', at := SubmitStepOf(s, u), Get(s, u).at;
      var at' := Get(s', u).at;
      && (IsIn(at, q) ==> s' == s)
      && QueueOf(s', q) == QueueOf(s, q) + if !IsIn(at, q) && IsIn(at', q) then [u] else []
  {
    hide Steps;
  }

  lemma BusyInTurn(s: State, v: Wid, u: Tid, q: Where)
    requires HeldBy(Get(s, u).at, v)
    ensures InTurn(s, BusyStep(s, v, u), q)
  {
    BusyTouches(s, v, u);
    BusyQueues(s, v, u, q);
    hide BusyStep, Get, Steps;
  }

  lemma BusyQueues(s: State, v: Wid, u: Tid, q: Where)
    requires HeldBy(Get(s, u).at, v)
    ensures var s', at := BusyStep(s, v, u), Get(s, u).at;
      var at' := Get(s', u).at;
      !IsIn(at, q) && QueueOf(s', q) == QueueOf(s, q) + if IsIn(at', q) then [u] else []
  {
    hide Steps;
  }

  lemma TakingInTurn(s: State, v: Wid, q: Where)
    requires Inv(s)
    requires (Pos(s, v).Looking? && Queue(s, v) != []) || (Pos(s, v).LookingGlobal? && s.global != [])
    ensures InTurn(s, WorkerStepOf(s, v), q)
  {
    InWorkersHands(s, v);
    hide Inv;
    hide WorkerStepOf, Get, Pos, Queue, QueueOf, InTurn;
    TakingTouches(s, v);
    TakingQueues(s, v, q);
    OneLess(s, WorkerStepOf(s, v), if Pos(s, v).Looking? then Queue(s, v)[0] else s.global[0], q);
  }

  lemma OneLess(s: State, s': State, u: Tid, q: Where)
    requires (forall x :: x != u ==> Get(s', x) == Get(s, x)) && !IsIn(Get(s', u).at, q)
    requires QueueOf(s, q) == (if IsIn(Get(s, u).at, q) then [u] else []) + QueueOf(s', q)
    ensures InTurn(s, s', q)
  {
    hide Get, QueueOf, IsIn;
  }

  lemma TakingTouches(s: State, v: Wid)
    requires (Pos(s, v).Looking? && Queue(s, v) != []) || (Pos(s, v).LookingGlobal? && s.global != [])
    ensures var u := if Pos(s, v).Looking? then Queue(s, v)[0] else s.global[0];
      forall x :: x != u ==> Get(WorkerStepOf(s, v), x) == Get(s, x)
  {
    hide Queue;
  }

  lemma TakingQueues(s: State, v: Wid, q: Where)
    requires (Pos(s, v).Looking? && Queue(s, v) != []) || (Pos(s, v).LookingGlobal? && s.global != [])
    requires Queue(s, v) != [] ==> Get(s, Queue(s, v)[0]).at == InLocal(v)
    requires s.global != [] ==> Get(s, s.global[0]).at.InGlobal?
    ensures var s', u := WorkerStepOf(s, v), if Pos(s, v).Looking? then Queue(s, v)[0] else s.global[0];
      && !IsIn(Get(s', u).at, q)
      && QueueOf(s, q) == (if IsIn(Get(s, u).at, q) then [u] else []) + QueueOf(s', q)
  {
  }

  lemma NothingInTurn(s: State, s': State, q: Where)
    requires QueueOf(s', q) == QueueOf(s, q) && forall t :: IsIn(Get(s, t).at, q) == IsIn(Get(s', t).at, q)
    ensures InTurn(s, s', q)
  {
  }

  lemma IdleTouchesNothing(s: State, v: Wid, q: Where)
    requires !Pos(s, v).Busy?
    requires !(Pos(s, v).Looking? && Queue(s, v) != []) && !(Pos(s, v).LookingGlobal? && s.global != [])
    ensures QueueOf(WorkerStepOf(s, v), q) == QueueOf(s, q) && WorkerStepOf(s, v).tasks == s.tasks
    ensures forall t :: Get(WorkerStepOf(s, v), t) == Get(s, t)
  {
    hide BusyStep;
  }

  lemma WorkerInTurn(s: State, v: Wid, q: Where)
    requires Inv(s)
    ensures InTurn(s, WorkerStepOf(s, v), q)
  {
    hide InTurn;
    if Pos(s, v).Busy? {
      InWorkersHands(s, v);
      hide Inv, BusyStep;
      BusyInTurn(s, v, Pos(s, v).t, q);
    } else if (Pos(s, v).Looking? && Queue(s, v) != []) || (Pos(s, v).LookingGlobal? && s.global != []) {
      hide WorkerStepOf;
      TakingInTurn(s, v, q);
    } else {
      hide Inv;
      IdleTouchesNothing(s, v, q);
      hide WorkerStepOf;
      NothingInTurn(s, WorkerStepOf(s, v), q);
    }
  }

  /** Every queue is first in, first out: in every reachable state a step takes nothing
      from a queue but its first task, and puts a task nowhere but at its end. */
  lemma QueuesAreFifo(es: seq<Event>, e: Event, q: Where)
    ensures InTurn(Run(Init(), es), Apply(Run(Init(), es), e), q)
  {
    Reachable(es);
    var s := Run(Init(), es);
    hide Run, Inv, InTurn;
    if e.SubmitStep? {
      hide SubmitStepOf;
      SubmitInTurn(s, e.t, q);
    } else if e.WorkerStep? {
      hide WorkerStepOf;
      WorkerInTurn(s, e.w, q);
    } else {
      OtherInTurn(s, e, q);
      NothingInTurn(s, Apply(s, e), q);
    }
  }

  lemma OtherInTurn(s: State, e: Event, q: Where)
    requires !e.SubmitStep? && !e.WorkerStep?
    ensures QueueOf(Apply(s, e), q) == QueueOf(s, q)
    ensures forall t :: IsIn(Get(s, t).at, q) == IsIn(Get(Apply(s, e), t).at, q)
  {
  }
}
