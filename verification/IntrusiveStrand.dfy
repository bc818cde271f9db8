/** IntrusiveStrand over any executor and any number of submitters: the strand's
    state word, its task list under the spinlock, and the RunBatch jobs, one
    atomic access or critical section per step. */
module IntrusiveStrand {
  import opened Sums

  type Task(==, !new)
  type Tid = nat
  type Rid = nat

  datatype Phase = READY | PLAN | RUNNING

  /** A thread in Submit. It holds the spinlock from Pushed to Unlocking. */
  datatype SubmitPc = Idle | Locking(task: Task) | Pushed | Planning | Unlocking

  /** A RunBatch job that an executor thread has picked up. */
  datatype RunPc =
    | Begin                               // CAS PLAN -> RUNNING
    | Swap                                // take the list
    | Batch(rest: seq<Task>)
    | InTask(task: Task, rest: seq<Task>) // task->Run() is on
    | Check                               // IsTasksEmpty
    | ToReady                             // CAS RUNNING -> READY
    | Replan                              // CAS RUNNING -> PLAN
    | Resubmit                            // SubmitInternal
    | End
    | AssertFailed

  /** The spinlock; who holds it is history. */
  datatype Lock = Free | HeldBy(t: Tid)

  /** History: who is responsible for the strand moving on. */
  datatype Baton =
    | Dropped
    | WithSubmitter(t: Tid)
    | InExecutor
    | WithRunner(r: Rid)

  datatype State = State(
    phase: Phase,
    pending: seq<Task>,
    lock: Lock,
    queued: nat,                // RunBatch jobs waiting in the executor
    submitters: map<Tid, SubmitPc>,
    runners: seq<RunPc>,
    // history
    baton: Baton,
    submitted: seq<Task>,       // in the order of the pushes
    executed: seq<Task>,        // in the order their runs began
    raced: bool)                // since the strand last left READY, a Submit lost its CAS
                                // between Check and ToReady

  datatype Event =
    | Submit(t: Tid, task: Task)
    | Submitter(t: Tid)
    | PickUp                    // an executor thread starts a queued RunBatch
    | Runner(r: Rid)

  function Init(): State { State(READY, [], Free, 0, map[], [], Dropped, [], [], false) }

  function PcOf(s: State, t: Tid): SubmitPc { if t in s.submitters then s.submitters[t] else Idle }

  function Sub(s: State, t: Tid, pc: SubmitPc): State { s.(submitters := s.submitters[t := pc]) }

  function SetRunner(s: State, r: Rid, pc: RunPc): State
    requires r < |s.runners|
  {
    s.(runners := s.runners[r := pc])
  }

  function SubmitterStep(s: State, t: Tid): State {
    match PcOf(s, t)
    case Idle => s
    case Locking(task) =>
      if s.lock != Free then s
      else Sub(s.(lock := HeldBy(t), pending := s.pending + [task], submitted := s.submitted + [task]), t, Pushed)
    case Pushed =>
      if s.phase == READY then Sub(s.(phase := PLAN, baton := WithSubmitter(t), raced := false), t, Planning)
      else Sub(s.(raced := s.raced || RunnerAt(s, ToReady)), t, Unlocking)
    case Planning => Sub(s.(queued := s.queued + 1, baton := InExecutor), t, Unlocking)
    case Unlocking => Sub(s.(lock := Free), t, Idle)
  }

  function RunnerStep(s: State, r: Rid): State
    requires r < |s.runners|
  {
    match s.runners[r]
    case Begin =>
      if s.phase == PLAN then SetRunner(s.(phase := RUNNING), r, Swap) else SetRunner(s, r, AssertFailed)
    case Swap =>
      if s.lock != Free then s
      else if s.pending == [] then SetRunner(s, r, AssertFailed)
      else SetRunner(s.(pending := []), r, Batch(s.pending))
    case Batch(rest) =>
      if rest == [] then SetRunner(s, r, Check)
      else SetRunner(s.(executed := s.executed + [rest[0]]), r, InTask(rest[0], rest[1..]))
    case InTask(_, rest) => SetRunner(s, r, Batch(rest))
    case Check => if s.lock != Free then s else SetRunner(s, r, if s.pending == [] then ToReady else Replan)
    case ToReady =>
      if s.phase == RUNNING then SetRunner(s.(phase := READY, baton := Dropped), r, End)
      else SetRunner(s, r, AssertFailed)
    case Replan => if s.phase == RUNNING then SetRunner(s.(phase := PLAN), r, Resubmit) else SetRunner(s, r, End)
    case Resubmit => SetRunner(s.(queued := s.queued + 1, baton := InExecutor), r, End)
    case End => s
    case AssertFailed => s
  }

  function Apply(s: State, e: Event): State {
    match e
    case Submit(t, task) => if PcOf(s, t).Idle? then Sub(s, t, Locking(task)) else s
    case Submitter(t) => SubmitterStep(s, t)
    case PickUp =>
      if s.queued == 0 then s
      else s.(queued := s.queued - 1, runners := s.runners + [Begin], baton := WithRunner(|s.runners|))
    case Runner(r) => if r < |s.runners| then RunnerStep(s, r) else s
  }

  function Run(s: State, es: seq<Event>): State
    decreases |es|
  {
    if es == [] then s else Run(Apply(s, es[0]), es[1..])
  }

  // ----- what every reachable state satisfies -----

  /** The tasks the running batch has still to start. */
  function Rest(s: State): seq<Task> {
    if s.baton.WithRunner? && s.baton.r < |s.runners| then
      match s.runners[s.baton.r]
      case Batch(rest) => rest
      case InTask(_, rest) => rest
      case _ => []
    else []
  }

  predicate Holding(pc: SubmitPc) { pc.Pushed? || pc.Planning? || pc.Unlocking? }

  /** Exactly one party holds the baton, and the phase says which kind. */
  ghost predicate BatonInv(s: State) {
    && s.queued == (if s.baton.InExecutor? then 1 else 0)
    && (forall t :: PcOf(s, t).Planning? ==> s.baton == WithSubmitter(t))
    && (forall r :: 0 <= r < |s.runners| && !s.runners[r].End? ==> s.baton == WithRunner(r))
    && match s.baton
       case Dropped => s.phase == READY
       case WithSubmitter(t) => s.phase == PLAN && PcOf(s, t).Planning?
       case InExecutor => s.phase == PLAN
       case WithRunner(r) =>
         && r < |s.runners|
         && var pc := s.runners[r];
            !pc.End? && !pc.AssertFailed? && s.phase == if pc.Begin? || pc.Resubmit? then PLAN else RUNNING
  }

  ghost predicate LockInv(s: State) {
    forall t :: Holding(PcOf(s, t)) <==> s.lock == HeldBy(t)
  }

  /** The running batch is at the given point. */
  predicate RunnerAt(s: State, pc: RunPc) {
    s.baton.WithRunner? && s.baton.r < |s.runners| && s.runners[s.baton.r] == pc
  }

  /** Whoever carries a plan will find a task, and no task is lost or reordered. */
  ghost predicate WorkInv(s: State) {
    && (s.phase == PLAN || RunnerAt(s, Swap) || RunnerAt(s, Replan) ==> s.pending != [])
    && (forall t :: PcOf(s, t).Pushed? ==> s.pending != [])
    && s.submitted == s.executed + Rest(s) + s.pending
  }

  /** A Submit has pushed and has yet to try its CAS. */
  predicate Trying(s: State) { s.lock.HeldBy? && PcOf(s, s.lock.t).Pushed? }

  /** Once the strand is settling, tasks are left over exactly if a Submit raced
      with the move to READY or has yet to try its CAS. */
  ghost predicate RaceInv(s: State) {
    && (s.raced ==> s.phase == READY || RunnerAt(s, ToReady))
    && (s.phase == READY || RunnerAt(s, ToReady) ==> (s.pending != [] <==> s.raced || Trying(s)))
  }

  ghost predicate Inv(s: State) {
    BatonInv(s) && LockInv(s) && WorkInv(s) && RaceInv(s)
  }

  // ----- every step keeps it -----

  lemma SubmitterKeeps(s: State, t: Tid)
    requires Inv(s)
    ensures Inv(SubmitterStep(s, t))
  {
    var s' := SubmitterStep(s, t);
    assert forall u :: u != t ==> PcOf(s', u) == PcOf(s, u);
    hide PcOf;
    assert BatonInv(s') && LockInv(s') by { hide WorkInv, RaceInv; }
    assert WorkInv(s') by { hide RaceInv; }
    assert RaceInv(s');
  }

  lemma RunnerKeepsBaton(s: State, r: Rid)
    requires Inv(s) && r < |s.runners| && !s.runners[r].End?
    ensures s.baton == WithRunner(r) && BatonInv(RunnerStep(s, r)) && LockInv(RunnerStep(s, r))
  {
    assert forall u :: PcOf(RunnerStep(s, r), u) == PcOf(s, u);
    hide RaceInv, PcOf;
  }

  lemma RunnerKeepsOrder(s: State, r: Rid)
    requires s.submitted == s.executed + Rest(s) + s.pending && r < |s.runners| && s.baton == WithRunner(r)
    requires s.runners[r].Swap? || s.runners[r].Batch? || s.runners[r].InTask? || Rest(RunnerStep(s, r)) == []
    ensures var s' := RunnerStep(s, r); s'.submitted == s'.executed + Rest(s') + s'.pending
  {
    var s' := RunnerStep(s, r);
    match s.runners[r]
    case Batch(rest) =>
      if rest != [] { assert s.executed + rest == s.executed + [rest[0]] + rest[1..]; }
    case Swap => assert s.executed + [] + s.pending == s.executed + s.pending + [];
    case _ =>
  }

  lemma RunnerKeepsWork(s: State, r: Rid)
    requires Inv(s) && r < |s.runners| && s.baton == WithRunner(r)
    ensures WorkInv(RunnerStep(s, r))
  {
    assert forall u :: PcOf(RunnerStep(s, r), u) == PcOf(s, u);
    RunnerKeepsOrder(s, r);
    hide RaceInv, LockInv, PcOf, Rest;
  }

  lemma RunnerKeepsRace(s: State, r: Rid)
    requires Inv(s) && r < |s.runners| && s.baton == WithRunner(r)
    ensures RaceInv(RunnerStep(s, r))
  {
    assert forall u :: PcOf(RunnerStep(s, r), u) == PcOf(s, u);
    hide PcOf;
  }

  lemma RunnerKeeps(s: State, r: Rid)
    requires Inv(s) && r < |s.runners|
    ensures Inv(RunnerStep(s, r))
  {
    hide BatonInv, LockInv, WorkInv, RaceInv;
    if !s.runners[r].End? {
      RunnerKeepsBaton(s, r);
      RunnerKeepsWork(s, r);
      RunnerKeepsRace(s, r);
    }
  }

  lemma ApplyKeeps(s: State, e: Event)
    requires Inv(s)
    ensures Inv(Apply(s, e))
  {
    match e
    case Submit(t, task) => assert forall u :: u != t ==> PcOf(Apply(s, e), u) == PcOf(s, u);
    case Submitter(t) => SubmitterKeeps(s, t);
    case PickUp => assert forall u :: PcOf(Apply(s, e), u) == PcOf(s, u);
    case Runner(r) => if r < |s.runners| { RunnerKeeps(s, r); }
  }

  lemma {:induction false} RunKeeps(s: State, es: seq<Event>)
    requires Inv(s)
    ensures Inv(Run(s, es))
    decreases |es|
  {
    if es != [] {
      ApplyKeeps(s, es[0]);
      RunKeeps(Apply(s, es[0]), es[1..]);
    }
  }

  lemma Reachable(es: seq<Event>)
    ensures Inv(Run(Init(), es))
  {
    RunKeeps(Init(), es);
  }

  // ----- the results -----

  /** Serial and in order: at most one RunBatch is queued or unfinished, so at
      most one task runs at a time; and what has been started, then the rest of
      the batch, then the list, is always exactly what was submitted. */
  lemma SerialInOrder(es: seq<Event>)
    ensures var s := Run(Init(), es);
            && s.submitted == s.executed + Rest(s) + s.pending
            && s.queued <= 1
            && (forall r, q ::
                  0 <= r < |s.runners| && 0 <= q < |s.runners| && !s.runners[r].End? && !s.runners[q].End? ==> r == q)
            && (s.queued == 1 ==> forall r :: 0 <= r < |s.runners| ==> s.runners[r].End?)
  {
    Reachable(es);
  }

  /** None of the three asserts of RunBatch can fail. */
  lemma AssertsHold(es: seq<Event>, r: Rid)
    requires r < |Run(Init(), es).runners|
    ensures !Run(Init(), es).runners[r].AssertFailed?
  {
    Reachable(es);
  }

  /** Nobody is in Submit, no RunBatch is queued or running. */
  ghost predicate Quiet(s: State) {
    (forall t :: PcOf(s, t).Idle?) && s.queued == 0 && forall r :: 0 <= r < |s.runners| ==> s.runners[r].End?
  }

  /** When everything has come to rest, every submitted task has run, in order,
      exactly if, since the strand last left READY, no Submit lost its CAS
      between a batch's emptiness check and its move to READY. A Submit that
      comes later and plans a batch makes up for it. */
  lemma AllRunUnlessRaced(es: seq<Event>)
    requires Quiet(Run(Init(), es))
    ensures var s := Run(Init(), es);
            s.executed == s.submitted <==> !s.raced
  {
    Reachable(es);
    var s := Run(Init(), es);
    assert !Trying(s);
    if s.pending != [] { assert |s.submitted| > |s.executed|; }
  }

  // ----- every run comes to rest -----

  /** What a thread in Submit has still to do: Locking will put a task on the list,
      and Pushed may make a plan. */
  function SubmitWork(pc: SubmitPc): nat {
    match pc
    case Idle => 0
    case Locking(_) => 19
    case Pushed => 9
    case Planning => 2
    case Unlocking => 1
  }

  ghost function Works(s: State): map<Tid, nat> { map t | t in s.submitters :: SubmitWork(s.submitters[t]) }

  /** What a RunBatch has still to do until it has made its next plan or ended. The
      tasks on the list pay for the batch that takes them. */
  function RunWork(pc: RunPc): nat {
    match pc
    case Begin => 4
    case Swap => 3
    case Batch(rest) => 9 + 2 * |rest|
    case InTask(_, rest) => 10 + 2 * |rest|
    case Check => 8
    case ToReady => 7
    case Replan => 7
    case Resubmit => 6
    case End => 0
    case AssertFailed => 0
  }

  ghost function BatonWork(s: State): nat {
    match s.baton
    case Dropped => 0
    case WithSubmitter(_) => 6
    case InExecutor => 5
    case WithRunner(r) => if r < |s.runners| then RunWork(s.runners[r]) else 0
  }

  /** How many steps are left if nobody calls Submit. */
  ghost function Work(s: State): nat { Sum(Works(s)) + 9 * |s.pending| + BatonWork(s) }

  lemma SubmitterWorks(s: State, s': State, t: Tid, pc: SubmitPc)
    requires s'.submitters == s.submitters[t := pc]
    ensures Sum(Works(s')) + SubmitWork(PcOf(s, t)) == Sum(Works(s)) + SubmitWork(pc)
  {
    SumPut(Works(s), t, SubmitWork(pc));
    assert Works(s') == Works(s)[t := SubmitWork(pc)];
  }

  lemma SubmitterCosts(s: State, t: Tid)
    requires Inv(s) && SubmitterStep(s, t) != s
    ensures Work(SubmitterStep(s, t)) < Work(s)
  {
    var s' := SubmitterStep(s, t);
    SubmitterWorks(s, s', t, PcOf(s', t));
    SubmitterAndBaton(s, t);
    hide Works, Inv, RunWork;
  }

  lemma SubmitterAndBaton(s: State, t: Tid)
    requires Inv(s)
    ensures PcOf(s, t).Planning? ==> s.baton == WithSubmitter(t)
    ensures s.phase == READY ==> s.baton == Dropped
  {
    hide LockInv, WorkInv, RaceInv, PcOf;
  }

  lemma RunnerCosts(s: State, r: Rid)
    requires Inv(s) && r < |s.runners| && RunnerStep(s, r) != s
    ensures Work(RunnerStep(s, r)) < Work(s)
  {
    RunnerHasBaton(s, r);
    SameSubmitters(s, RunnerStep(s, r));
    hide Inv, Works;
  }

  lemma RunnerHasBaton(s: State, r: Rid)
    requires Inv(s) && r < |s.runners| && RunnerStep(s, r) != s
    ensures s.baton == WithRunner(r) && (s.runners[r].Begin? ==> s.phase == PLAN)
    ensures s.runners[r].Replan? || s.runners[r].ToReady? ==> s.phase == RUNNING
    ensures s.runners[r].Swap? || s.runners[r].Resubmit? ==> s.pending != []
  {
    hide LockInv, RaceInv;
  }

  lemma SameSubmitters(s: State, s': State)
    requires s'.submitters == s.submitters
    ensures Sum(Works(s')) == Sum(Works(s))
  {
    assert Works(s') == Works(s);
  }

  /** Every step that is not a new Submit and changes anything uses up work: so
      without new Submits a run has no more than Work(s) such steps left. */
  lemma EveryStepCounts(es: seq<Event>, e: Event)
    requires !e.Submit? && Apply(Run(Init(), es), e) != Run(Init(), es)
    ensures Work(Apply(Run(Init(), es), e)) < Work(Run(Init(), es))
  {
    Reachable(es);
    StepCosts(Run(Init(), es), e);
  }

  lemma StepCosts(s: State, e: Event)
    requires Inv(s) && !e.Submit? && Apply(s, e) != s
    ensures Work(Apply(s, e)) < Work(s)
  {
    hide Inv, Work;
    match e
    case Submitter(t) => SubmitterCosts(s, t);
    case Runner(r) => RunnerCosts(s, r);
    case PickUp => PickUpCosts(s);
  }

  lemma PickUpCosts(s: State)
    requires Inv(s) && s.queued > 0
    ensures Work(Apply(s, PickUp)) < Work(s)
  {
    SameSubmitters(s, Apply(s, PickUp));
    hide LockInv, WorkInv, RaceInv, Works;
  }

  /** Whoever is not at rest can move, or waits for a thread that can. */
  lemma SomeoneMoves(s: State) returns (e: Event)
    requires Inv(s) && !Quiet(s)
    ensures !e.Submit? && Apply(s, e) != s
  {
    hide WorkInv, RaceInv;
    if s.lock.HeldBy? {
      e := Submitter(s.lock.t);
      HolderMoves(s, s.lock.t);
    } else if s.queued > 0 {
      e := PickUp;
    } else if exists t :: !PcOf(s, t).Idle? {
      var t :| !PcOf(s, t).Idle?;
      e := Submitter(t);
      assert Holding(PcOf(s, t)) ==> s.lock == HeldBy(t);
    } else {
      var r :| 0 <= r < |s.runners| && !s.runners[r].End?;
      e := Runner(r);
      RunnerMoves(s, r);
    }
  }

  lemma HolderMoves(s: State, t: Tid)
    requires Inv(s) && s.lock == HeldBy(t)
    ensures SubmitterStep(s, t) != s
  {
    assert Holding(PcOf(s, t));
    hide BatonInv, LockInv, WorkInv, RaceInv;
  }

  lemma RunnerMoves(s: State, r: Rid)
    requires Inv(s) && r < |s.runners| && !s.runners[r].End? && s.lock == Free
    ensures RunnerStep(s, r) != s
  {
    hide LockInv, WorkInv, RaceInv;
    assert RunnerStep(s, r).runners[r] != s.runners[r];
  }

  ghost predicate NoSubmit(es: seq<Event>) { forall i :: 0 <= i < |es| ==> !es[i].Submit? }

  lemma {:induction false} Settles(s: State) returns (es: seq<Event>)
    requires Inv(s)
    ensures NoSubmit(es) && Quiet(Run(s, es)) && |es| <= Work(s)
    decreases Work(s)
  {
    hide Inv, Apply, Work, Quiet;
    es := [];
    if !Quiet(s) {
      var e := SomeoneMoves(s);
      StepCosts(s, e);
      ApplyKeeps(s, e);
      var later := Settles(Apply(s, e));
      es := [e] + later;
      assert es[1..] == later;
    }
  }

  /** From every reachable state the strand comes to rest within the steps that are
      left if nobody submits any more; and then every task has run, in order, unless
      a Submit raced. */
  lemma ComesToRest(es: seq<Event>)
    ensures exists fs :: RestsAfter(es, fs)
  {
    Reachable(es);
    var fs := Settles(Run(Init(), es));
    RunSplits(Init(), es, fs);
    AllRunUnlessRaced(es + fs);
    assert RestsAfter(es, fs);
  }

  ghost predicate RestsAfter(es: seq<Event>, fs: seq<Event>) {
    && NoSubmit(fs) && |fs| <= Work(Run(Init(), es))
    && var s := Run(Init(), es + fs); Quiet(s) && (s.executed == s.submitted <==> !s.raced)
  }

  lemma {:induction false} RunSplits(s: State, es: seq<Event>, fs: seq<Event>)
    ensures Run(s, es + fs) == Run(Run(s, es), fs)
    decreases |es|
  {
    hide Apply;
    if es == [] {
      assert es + fs == fs;
    } else {
      assert (es + fs)[1..] == es[1..] + fs;
      RunSplits(Apply(s, es[0]), es[1..], fs);
    }
  }

  lemma Four(s: State, es: seq<Event>)
    requires |es| == 4
    ensures Run(s, es) == Apply(Apply(Apply(Apply(s, es[0]), es[1]), es[2]), es[3])
  {
    hide Apply;
    var s1 := Apply(s, es[0]);
    var s2 := Apply(s1, es[1]);
    var s3 := Apply(s2, es[2]);
    assert Run(s3, es[3..]) == Run(Apply(s3, es[3]), es[3..][1..]);
    assert Run(s2, es[2..]) == Run(s3, es[2..][1..]) && es[2..][1..] == es[3..];
    assert Run(s1, es[1..]) == Run(s2, es[1..][1..]) && es[1..][1..] == es[2..];
  }

  /** The run in which submitter 1 pushes b after the batch of a has found the
      list empty and before it moves to READY. */
  function Racy(a: Task, b: Task): seq<Event> {
    [Submit(0, a), Submitter(0), Submitter(0), Submitter(0)]
    + [Submitter(0), PickUp, Runner(0), Runner(0)]
    + [Runner(0), Runner(0), Runner(0), Runner(0)]
    + [Submit(1, b), Submitter(1), Submitter(1), Submitter(1)]
    + [Runner(0)]
  }

  lemma RacyStart(a: Task)
    ensures var es := [Submit(0, a), Submitter(0), Submitter(0), Submitter(0)];
      Run(Init(), es + [Submitter(0), PickUp, Runner(0), Runner(0)]) ==
      State(RUNNING, [], Free, 0, map[0 := Idle], [Batch([a])], WithRunner(0), [a], [], false)
  {
    var es := [Submit(0, a), Submitter(0), Submitter(0), Submitter(0)];
    var fs := [Submitter(0), PickUp, Runner(0), Runner(0)];
    var s1 := State(PLAN, [a], HeldBy(0), 1, map[0 := Unlocking], [], InExecutor, [a], [], false);
    Four(Init(), es);
    assert Run(Init(), es) == s1;
    Four(s1, fs);
    RunSplits(Init(), es, fs);
  }

  lemma RacyMiddle(s: State, a: Task)
    requires s == State(RUNNING, [], Free, 0, map[0 := Idle], [Batch([a])], WithRunner(0), [a], [], false)
    ensures Run(s, [Runner(0), Runner(0), Runner(0), Runner(0)])
            == State(RUNNING, [], Free, 0, map[0 := Idle], [ToReady], WithRunner(0), [a], [a], false)
  {
    Four(s, [Runner(0), Runner(0), Runner(0), Runner(0)]);
  }

  lemma RacyEnd(s: State, a: Task, b: Task)
    requires s == State(RUNNING, [], Free, 0, map[0 := Idle], [ToReady], WithRunner(0), [a], [a], false)
    ensures Run(s, [Submit(1, b), Submitter(1), Submitter(1), Submitter(1)])
            == State(RUNNING, [b], Free, 0, map[0 := Idle, 1 := Idle], [ToReady], WithRunner(0), [a, b], [a], true)
  {
    Four(s, [Submit(1, b), Submitter(1), Submitter(1), Submitter(1)]);
  }

  /** Without the condition it fails: two submitters can bring the strand to
      rest with the second task still on its list. */
  lemma ARaceLeavesATask(a: Task, b: Task)
    ensures var s := Run(Init(), Racy(a, b));
            Quiet(s) && s.raced && s.executed == [a] && s.submitted == [a, b] && s.pending == [b]
  {
    var c1 := [Submit(0, a), Submitter(0), Submitter(0), Submitter(0)] + [Submitter(0), PickUp, Runner(0), Runner(0)];
    var c2 := [Runner(0), Runner(0), Runner(0), Runner(0)];
    var c3 := [Submit(1, b), Submitter(1), Submitter(1), Submitter(1)];
    RacyStart(a);
    RacyMiddle(Run(Init(), c1), a);
    RunSplits(Init(), c1, c2);
    RacyEnd(Run(Init(), c1 + c2), a, b);
    RunSplits(Init(), c1 + c2, c3);
    RunSplits(Init(), c1 + c2 + c3, [Runner(0)]);
    var s := Run(Init(), c1 + c2 + c3);
    assert Run(s, [Runner(0)]) == Apply(s, Runner(0)) by { assert [Runner(0)][1..] == []; }
    assert Racy(a, b) == c1 + c2 + c3 + [Runner(0)];
  }
}
