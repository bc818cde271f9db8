/** Task accounting of the distributed pool: any number of workers and of threads
    that submit, one atomic access per step. A task is submitted when it is new
    or parked, and never again once it is complete. */
module Pool {
  import opened Sequences

  type Tid = nat
  type Wid = nat

  datatype Stage = Planned | Running | Finished

  datatype Worker = NoWorker | By(w: Wid)

  /** Where a task is and, while somebody acts for it, what is to be done next. */
  datatype Place =
    | Made
    | Entering          // Submit is about to look at its stage
    | Adding            // about to AddTask
    | Progressing       // about to ProgressState
    | Routing           // about to look at its worker
    | ToLocal(w: Wid)   // about to be pushed
    | ToGlobal
    | InGlobal
    | InLocal(w: Wid)
    | Moving(w: Wid)    // popped from the global queue, about to be pushed by w
    | Picked(w: Wid)    // popped from w's queue, about to SetWorker
    | Ready(w: Wid)     // about to Run
    | OnWorker(w: Wid)
    | Parked
    | Ending(w: Wid)    // Run returned COMPLETE, about to RemoveTask
    | Gone
    | Thrown            // ProgressState threw

  datatype Task = Task(stage: Stage, worker: Worker, at: Place)

  datatype Pc =
    | Looking           // about to pop the worker's own queue
    | LookingGlobal
    | Deciding          // Process is about to ask CanCloseWorker
    | Busy(t: Tid)
    | Returning         // Run returned UNCOMPLETED
    | Suspended         // Process suspended itself: Loop is about to ask too
    | Ended             // Process returned: Loop is about to ask too
    | Closed
    | Broken            // Loop resumed a Process that had returned

  /** `late` is history: a task was counted after shutdown had begun and while
      nothing was counted, when workers may be closing. */
  datatype State = State(
    count: int, shutdown: bool, global: seq<Tid>, local: map<Wid, seq<Tid>>,
    tasks: map<Tid, Task>, workers: map<Wid, Pc>, late: bool)

  datatype Event =
    | Hire(w: Wid)
    | Make(t: Tid)
    | Submit(t: Tid)
    | SubmitStep(t: Tid)
    | WorkerStep(w: Wid)
    | Pause(w: Wid)                       // Process suspends itself: nothing to do
    | Park(w: Wid)                        // the task that w runs suspends itself
    | Complete(w: Wid, progresses: bool)  // it completes; a fiber also progresses
    | StartShutdown

  function Init(): State { State(0, false, [], map[], map[], map[], false) }

  /** A task that was never made looks like one that is gone. */
  function Get(s: State, t: Tid): Task { if t in s.tasks then s.tasks[t] else Task(Planned, NoWorker, Gone) }

  function Put(s: State, t: Tid, b: Task): State { s.(tasks := s.tasks[t := b]) }

  function Pos(s: State, w: Wid): Pc { if w in s.workers then s.workers[w] else Closed }

  function Queue(s: State, w: Wid): seq<Tid> { if w in s.local then s.local[w] else [] }

  function Goto(s: State, w: Wid, pc: Pc): State { s.(workers := s.workers[w := pc]) }

  // ----- the steps -----

  /** TaskBase::ProgressState */
  function Progress(b: Task, at: Place): Task {
    match b.stage
    case Planned => b.(stage := Running, at := at)
    case Running => b.(stage := Finished, at := at)
    case Finished => b.(at := Thrown)
  }

  function PushLocal(s: State, t: Tid, w: Wid): State {
    Put(s.(local := s.local[w := Queue(s, w) + [t]]), t, Get(s, t).(at := InLocal(w)))
  }

  function SubmitStepOf(s: State, t: Tid): State {
    var b := Get(s, t);
    match b.at
    case Entering => Put(s, t, b.(at := if b.stage.Planned? then Adding else Routing))
    case Adding => Put(s.(count := s.count + 1, late := s.late || CanCloseWorker(s)), t, b.(at := Progressing))
    case Progressing => Put(s, t, Progress(b, Routing))
    case Routing => Put(s, t, b.(at := if b.worker.By? then ToLocal(b.worker.w) else ToGlobal))
    case ToLocal(w) => PushLocal(s, t, w)
    case ToGlobal => Put(s.(global := s.global + [t]), t, b.(at := InGlobal))
    case _ => s
  }

  /** What a worker does with the task it has. */
  function BusyStep(s: State, w: Wid, t: Tid): State {
    var b := Get(s, t);
    match b.at
    case Moving(_) => Goto(PushLocal(s, t, w), w, Looking)
    case Picked(_) => Put(s, t, b.(worker := if b.worker.By? then b.worker else By(w), at := Ready(w)))
    case Ready(_) => Put(s, t, b.(at := OnWorker(w)))
    case Ending(_) => Goto(Put(s.(count := s.count - 1), t, b.(at := Gone)), w, Looking)
    case _ => s
  }

  predicate CanCloseWorker(s: State) { s.shutdown && s.count == 0 }

  function WorkerStepOf(s: State, w: Wid): State {
    match Pos(s, w)
    case Looking =>
      if Queue(s, w) == [] then Goto(s, w, LookingGlobal)
      else
        var t := Queue(s, w)[0];
        Goto(Put(s.(local := s.local[w := Queue(s, w)[1..]]), t, Get(s, t).(at := Picked(w))), w, Busy(t))
    case LookingGlobal =>
      if s.global == [] then Goto(s, w, Deciding)
      else
        var t := s.global[0];
        Goto(Put(s.(global := s.global[1..]), t, Get(s, t).(at := Moving(w))), w, Busy(t))
    case Deciding => Goto(s, w, if CanCloseWorker(s) then Ended else Looking)
    case Suspended => Goto(s, w, if CanCloseWorker(s) then Closed else Looking)
    case Ended => Goto(s, w, if CanCloseWorker(s) then Closed else Broken)
    case Busy(t) => BusyStep(s, w, t)
    case Returning => Goto(s, w, Looking)
    case _ => s
  }

  /** The task that w is running, if it is running one. */
  predicate Runs(s: State, w: Wid) { Pos(s, w).Busy? && Get(s, Pos(s, w).t).at == OnWorker(w) }

  function Apply(s: State, e: Event): State {
    match e
    case Hire(w) => if w in s.workers then s else Goto(s, w, Looking)
    case Make(t) => if t in s.tasks then s else Put(s, t, Task(Planned, NoWorker, Made))
    case Submit(t) => if Get(s, t).at.Made? || Get(s, t).at.Parked? then Put(s, t, Get(s, t).(at := Entering)) else s
    case SubmitStep(t) => SubmitStepOf(s, t)
    case WorkerStep(w) => WorkerStepOf(s, w)
    case Pause(w) => if Pos(s, w).Deciding? && !CanCloseWorker(s) then Goto(s, w, Suspended) else s
    case Park(w) =>
      if Runs(s, w) then Goto(Put(s, Pos(s, w).t, Get(s, Pos(s, w).t).(at := Parked)), w, Returning) else s
    case Complete(w, progresses) =>
      if Runs(s, w) then
        var b := Get(s, Pos(s, w).t);
        Put(s, Pos(s, w).t, if progresses then Progress(b, Ending(w)) else b.(at := Ending(w)))
      else s
    case StartShutdown => s.(shutdown := true)
  }

  function Run(s: State, es: seq<Event>): State
    decreases |es|
  {
    if es == [] then s else Run(Apply(s, es[0]), es[1..])
  }

  // ----- what every reachable state satisfies -----

  /** Held by worker w, from taking it off a queue to letting go of it. */
  predicate HeldBy(at: Place, w: Wid) {
    at == Moving(w) || at == Picked(w) || at == Ready(w) || at == OnWorker(w) || at == Ending(w)
  }

  /** Submitted for the first time and not complete. */
  predicate Counted(b: Task) {
    match b.at
    case Made => false
    case Entering => !b.stage.Planned?
    case Adding => false
    case Gone => false
    case Thrown => false
    case _ => true
  }

  /** Stage and worker agree with the place. */
  predicate TaskInv(b: Task) {
    match b.at
    case Made => b.stage.Planned? && b.worker.NoWorker?
    case Entering => if b.stage.Planned? then b.worker.NoWorker? else b.stage.Running? && b.worker.By?
    case Adding => b.stage.Planned? && b.worker.NoWorker?
    case Progressing => b.stage.Planned? && b.worker.NoWorker?
    case Routing => b.stage.Running?
    case ToLocal(w) => b.stage.Running? && b.worker == By(w)
    case ToGlobal => b.stage.Running? && b.worker.NoWorker?
    case InGlobal => b.stage.Running? && b.worker.NoWorker?
    case InLocal(w) => b.stage.Running? && (b.worker.NoWorker? || b.worker == By(w))
    case Moving(w) => b.stage.Running? && b.worker.NoWorker?
    case Picked(w) => b.stage.Running? && (b.worker.NoWorker? || b.worker == By(w))
    case Ready(w) => b.stage.Running? && b.worker == By(w)
    case OnWorker(w) => b.stage.Running? && b.worker == By(w)
    case Parked => b.stage.Running? && b.worker.By?
    case Ending(w) => b.worker == By(w)
    case Gone => true
    case Thrown => false
  }

  ghost function Live(s: State): set<Tid> { set t | t in s.tasks && Counted(s.tasks[t]) }

  ghost predicate QueuesInv(s: State) {
    && NoRepeats(s.global) && (forall t :: t in s.global <==> Get(s, t).at.InGlobal?)
    && (forall w :: NoRepeats(Queue(s, w)))
    && (forall w, t :: t in Queue(s, w) <==> Get(s, t).at == InLocal(w))
  }

  ghost predicate WorkersInv(s: State) { forall w, t :: Pos(s, w) == Busy(t) <==> HeldBy(Get(s, t).at, w) }

  ghost predicate TasksInv(s: State) { forall t :: TaskInv(Get(s, t)) }

  ghost predicate Inv(s: State) { QueuesInv(s) && WorkersInv(s) && TasksInv(s) && s.count == |Live(s)| }

  // ----- every step keeps it -----

  /** t became b, and no other task changed. */
  ghost predicate Became(s: State, s': State, t: Tid, b: Task) {
    s'.tasks == s.tasks[t := b]
  }

  lemma Others(s: State, s': State, t: Tid, b: Task)
    requires Became(s, s', t, b)
    ensures Get(s', t) == b && forall x :: x != t ==> Get(s', x) == Get(s, x)
  {
  }

  lemma TasksStay(s: State, s': State, t: Tid, b: Task)
    requires TasksInv(s) && Became(s, s', t, b) && TaskInv(b)
    ensures TasksInv(s')
  {
    Others(s, s', t, b);
    hide Get, TaskInv, Became;
  }

  /** The count follows a task into and out of the live ones. */
  lemma CountFollows(s: State, s': State, t: Tid, b: Task)
    requires s.count == |Live(s)| && Became(s, s', t, b)
    requires s'.count == s.count + (if Counted(b) then 1 else 0) - (if Counted(Get(s, t)) then 1 else 0)
    ensures s'.count == |Live(s')|
  {
    LiveIs(s, s', t, b);
    hide Counted, Live, Get, Became;
  }

  lemma LiveIs(s: State, s': State, t: Tid, b: Task)
    requires Became(s, s', t, b)
    ensures Live(s') == if Counted(b) then Live(s) + {t} else Live(s) - {t}
    ensures t in Live(s) <==> Counted(Get(s, t))
  {
  }

  lemma QueuesStay(s: State, s': State, t: Tid, b: Task)
    requires QueuesInv(s) && Became(s, s', t, b) && s'.global == s.global && s'.local == s.local
    requires !b.at.InGlobal? && !b.at.InLocal? && !Get(s, t).at.InGlobal? && !Get(s, t).at.InLocal?
    ensures QueuesInv(s')
  {
    Others(s, s', t, b);
    assert forall w :: Queue(s', w) == Queue(s, w);
    hide Get, Queue, NoRepeats, Became;
    forall w, x ensures x in Queue(s', w) <==> Get(s', x).at == InLocal(w) {
      assert x in Queue(s, w) <==> Get(s, x).at == InLocal(w);
    }
  }

  lemma WorkersStay(s: State, s': State, t: Tid, b: Task)
    requires WorkersInv(s) && Became(s, s', t, b) && s'.workers == s.workers
    requires forall w :: HeldBy(b.at, w) == HeldBy(Get(s, t).at, w)
    ensures WorkersInv(s')
  {
    Others(s, s', t, b);
    assert forall w :: Pos(s', w) == Pos(s, w);
    hide Get, Pos, HeldBy, Became;
    forall w, x ensures Pos(s', w) == Busy(x) <==> HeldBy(Get(s', x).at, w) {
      assert Pos(s, w) == Busy(x) <==> HeldBy(Get(s, x).at, w);
    }
  }

  /** A step of a task that touches neither a queue nor a worker. */
  lemma QuietKeeps(s: State, s': State, t: Tid, b: Task)
    requires Inv(s) && Became(s, s', t, b) && TaskInv(b)
    requires s' == s.(tasks := s'.tasks, count := s'.count, late := s'.late)
    requires s'.count == s.count + (if Counted(b) then 1 else 0) - (if Counted(Get(s, t)) then 1 else 0)
    requires !b.at.InGlobal? && !b.at.InLocal? && !Get(s, t).at.InGlobal? && !Get(s, t).at.InLocal?
    requires forall w :: HeldBy(b.at, w) == HeldBy(Get(s, t).at, w)
    ensures Inv(s')
  {
    hide Get, QueuesInv, WorkersInv, TasksInv, Live, Became, Counted, TaskInv, HeldBy;
    TasksStay(s, s', t, b);
    CountFollows(s, s', t, b);
    QueuesStay(s, s', t, b);
    WorkersStay(s, s', t, b);
  }

  // ----- the queues -----

  lemma Appended(q: seq<Tid>, t: Tid)
    requires NoRepeats(q) && t !in q
    ensures NoRepeats(q + [t]) && forall x :: x in q + [t] <==> x in q || x == t
  {
  }

  lemma WithoutFirst(q: seq<Tid>)
    requires NoRepeats(q) && q != []
    ensures NoRepeats(q[1..]) && forall x :: x in q[1..] <==> x in q && x != q[0]
  {
    forall x | x in q && x != q[0] ensures x in q[1..] {
      var i :| 0 <= i < |q| && q[i] == x;
      assert q[1..][i - 1] == x;
    }
  }

  /** Only the queue of w changes, and t goes into it or comes out of it. */
  lemma LocalChanges(s: State, s': State, t: Tid, b: Task, w: Wid)
    requires QueuesInv(s) && Became(s, s', t, b) && s'.global == s.global && s'.local == s.local[w := Queue(s', w)]
    requires NoRepeats(Queue(s', w)) && !Get(s, t).at.InGlobal? && !b.at.InGlobal?
    requires forall x :: x != t ==> (x in Queue(s', w) <==> x in Queue(s, w))
    requires t in Queue(s', w) <==> b.at == InLocal(w)
    requires forall v :: v != w ==> b.at != InLocal(v) && Get(s, t).at != InLocal(v)
    ensures QueuesInv(s')
  {
    Others(s, s', t, b);
    assert forall v :: v != w ==> Queue(s', v) == Queue(s, v);
    hide Get, Queue, NoRepeats, Became;
    forall v, x ensures x in Queue(s', v) <==> Get(s', x).at == InLocal(v) {
      assert x in Queue(s, v) <==> Get(s, x).at == InLocal(v);
    }
    forall v ensures NoRepeats(Queue(s', v)) { assert NoRepeats(Queue(s, v)); }
  }

  lemma GlobalChanges(s: State, s': State, t: Tid, b: Task)
    requires QueuesInv(s) && Became(s, s', t, b) && s'.local == s.local && NoRepeats(s'.global)
    requires forall x :: x != t ==> (x in s'.global <==> x in s.global)
    requires t in s'.global <==> b.at.InGlobal?
    requires !b.at.InLocal? && !Get(s, t).at.InLocal?
    ensures QueuesInv(s')
  {
    Others(s, s', t, b);
    assert forall v :: Queue(s', v) == Queue(s, v);
    hide Get, Queue, NoRepeats, Became;
    forall v, x ensures x in Queue(s', v) <==> Get(s', x).at == InLocal(v) {
      assert x in Queue(s, v) <==> Get(s, x).at == InLocal(v);
    }
  }

  /** Worker w goes to pc, and t into its hands or out of them. */
  lemma WorkerMoves(s: State, s': State, t: Tid, b: Task, w: Wid, pc: Pc)
    requires WorkersInv(s) && Became(s, s', t, b) && s'.workers == s.workers[w := pc]
    requires Pos(s, w) == Busy(t) || (!Pos(s, w).Busy? && forall v :: !HeldBy(Get(s, t).at, v))
    requires pc == Busy(t) || !pc.Busy?
    requires forall v :: HeldBy(b.at, v) <==> v == w && pc.Busy?
    ensures WorkersInv(s')
  {
    Others(s, s', t, b);
    assert Pos(s', w) == pc && forall v :: v != w ==> Pos(s', v) == Pos(s, v);
    hide Get, Pos, HeldBy, Became;
    forall v, x ensures Pos(s', v) == Busy(x) <==> HeldBy(Get(s', x).at, v) {
      assert Pos(s, v) == Busy(x) <==> HeldBy(Get(s, x).at, v);
      assert Pos(s, v) == Busy(t) <==> HeldBy(Get(s, t).at, v);
      assert Pos(s, w) == Busy(x) <==> HeldBy(Get(s, x).at, w);
    }
  }

  lemma NotQueued(s: State, t: Tid)
    requires QueuesInv(s)
    ensures !Get(s, t).at.InGlobal? ==> t !in s.global
    ensures forall w :: Get(s, t).at != InLocal(w) ==> t !in Queue(s, w)
  {
  }

  /** PushLocal, by a submitter or by the worker itself. */
  lemma PushLocalKeeps(s: State, s': State, t: Tid, w: Wid)
    requires Inv(s) && (Get(s, t).at == ToLocal(w) || Get(s, t).at == Moving(w))
    requires s' == PushLocal(s, t, w).(workers := s'.workers) && WorkersInv(s')
    ensures Inv(s')
  {
    var b := Get(s, t).(at := InLocal(w));
    NotQueued(s, t);
    assert NoRepeats(Queue(s, w)) && TaskInv(Get(s, t));
    Appended(Queue(s, w), t);
    assert Queue(s', w) == Queue(s, w) + [t];
    hide Get, QueuesInv, WorkersInv, TasksInv, Live, NoRepeats, Queue;
    TasksStay(s, s', t, b);
    CountFollows(s, s', t, b);
    LocalChanges(s, s', t, b, w);
  }

  lemma ToLocalKeeps(s: State, t: Tid)
    requires Inv(s) && Get(s, t).at.ToLocal?
    ensures Inv(SubmitStepOf(s, t))
  {
    var s', b := SubmitStepOf(s, t), Get(s, t).(at := InLocal(Get(s, t).at.w));
    hide Get, QueuesInv, TasksInv, Live, Inv, WorkersInv;
    assert WorkersInv(s') by { InvParts(s); WorkersStay(s, s', t, b); }
    PushLocalKeeps(s, s', t, Get(s, t).at.w);
  }

  lemma InvParts(s: State)
    requires Inv(s)
    ensures QueuesInv(s) && WorkersInv(s) && TasksInv(s)
  {
  }

  lemma ToGlobalKeeps(s: State, t: Tid)
    requires Inv(s) && Get(s, t).at.ToGlobal?
    ensures Inv(SubmitStepOf(s, t))
  {
    var s', b := SubmitStepOf(s, t), Get(s, t).(at := InGlobal);
    NotQueued(s, t);
    assert TaskInv(Get(s, t)) && NoRepeats(s.global);
    Appended(s.global, t);
    hide Get, QueuesInv, WorkersInv, TasksInv, Live, NoRepeats;
    TasksStay(s, s', t, b);
    CountFollows(s, s', t, b);
    GlobalChanges(s, s', t, b);
    WorkersStay(s, s', t, b);
  }

  lemma SubmitStepKeeps(s: State, t: Tid)
    requires Inv(s)
    ensures Inv(SubmitStepOf(s, t))
  {
    var b := Get(s, t);
    assert TaskInv(b);
    if b.at.ToLocal? {
      ToLocalKeeps(s, t);
    } else if b.at.ToGlobal? {
      ToGlobalKeeps(s, t);
    } else {
      var s' := SubmitStepOf(s, t);
      hide Inv, Get;
      if b.at.Entering? || b.at.Adding? || b.at.Progressing? || b.at.Routing? {
        QuietKeeps(s, s', t, s'.tasks[t]);
      }
    }
  }

  // ----- the workers -----

  /** Worker w takes the first task of its own queue. */
  lemma PickKeeps(s: State, w: Wid)
    requires Inv(s) && Pos(s, w).Looking? && Queue(s, w) != []
    ensures Inv(WorkerStepOf(s, w))
  {
    var s', t := WorkerStepOf(s, w), Queue(s, w)[0];
    var b := Get(s, t).(at := Picked(w));
    assert t in Queue(s, w);
    assert Get(s, t).at == InLocal(w) && TaskInv(Get(s, t)) && NoRepeats(Queue(s, w));
    WithoutFirst(Queue(s, w));
    assert Queue(s', w) == Queue(s, w)[1..];
    hide Get, QueuesInv, WorkersInv, TasksInv, Live, NoRepeats, Queue, Pos;
    TasksStay(s, s', t, b);
    CountFollows(s, s', t, b);
    LocalChanges(s, s', t, b, w);
    WorkerMoves(s, s', t, b, w, Busy(t));
  }

  lemma FetchKeeps(s: State, w: Wid)
    requires Inv(s) && Pos(s, w).LookingGlobal? && s.global != []
    ensures Inv(WorkerStepOf(s, w))
  {
    var s', t := WorkerStepOf(s, w), s.global[0];
    var b := Get(s, t).(at := Moving(w));
    assert t in s.global;
    assert Get(s, t).at.InGlobal? && TaskInv(Get(s, t)) && NoRepeats(s.global);
    WithoutFirst(s.global);
    hide Get, QueuesInv, WorkersInv, TasksInv, Live, NoRepeats, Pos;
    TasksStay(s, s', t, b);
    CountFollows(s, s', t, b);
    GlobalChanges(s, s', t, b);
    WorkerMoves(s, s', t, b, w, Busy(t));
  }

  /** Worker w, with nothing in its hands, goes on. */
  lemma GotoKeeps(s: State, w: Wid, pc: Pc)
    requires Inv(s) && !Pos(s, w).Busy? && !pc.Busy?
    ensures Inv(Goto(s, w, pc))
  {
    var s' := Goto(s, w, pc);
    assert Pos(s', w) == pc && forall v :: v != w ==> Pos(s', v) == Pos(s, v);
    assert forall t :: Get(s', t) == Get(s, t);
    assert forall v :: Queue(s', v) == Queue(s, v);
    assert Live(s') == Live(s);
    hide Get, Queue, Pos, Live, NoRepeats, HeldBy;
    forall v, x ensures x in Queue(s', v) <==> Get(s', x).at == InLocal(v) {
      assert x in Queue(s, v) <==> Get(s, x).at == InLocal(v);
    }
    forall v, x ensures Pos(s', v) == Busy(x) <==> HeldBy(Get(s', x).at, v) {
      assert Pos(s, v) == Busy(x) <==> HeldBy(Get(s, x).at, v);
    }
  }

  lemma InHands(s: State, w: Wid, t: Tid)
    requires Inv(s) && Pos(s, w) == Busy(t)
    ensures HeldBy(Get(s, t).at, w) && TaskInv(Get(s, t))
  {
  }

  lemma BusyKeeps(s: State, w: Wid, t: Tid)
    requires Inv(s) && Pos(s, w) == Busy(t)
    ensures Inv(BusyStep(s, w, t))
  {
    InHands(s, w, t);
    var s', b := BusyStep(s, w, t), Get(s, t);
    hide Get, QueuesInv, WorkersInv, TasksInv, Live, Pos, Queue;
    if b.at.Moving? {
      WorkerMoves(s, s', t, b.(at := InLocal(w)), w, Looking);
      PushLocalKeeps(s, s', t, w);
    } else if b.at.Ending? {
      LeavesKeeps(s, s', w, t, b.(at := Gone), Looking);
    } else if b.at.Picked? || b.at.Ready? {
      QuietKeeps(s, s', t, s'.tasks[t]);
    }
  }

  /** Worker w lets go of t for good, or parks it. */
  lemma LeavesKeeps(s: State, s': State, w: Wid, t: Tid, b: Task, pc: Pc)
    requires Inv(s) && Pos(s, w) == Busy(t) && !pc.Busy? && (b.at.Gone? || b.at.Parked?) && TaskInv(b)
    requires s' == s.(tasks := s.tasks[t := b], workers := s.workers[w := pc], count := s'.count)
    requires s'.count == s.count + (if Counted(b) then 1 else 0) - (if Counted(Get(s, t)) then 1 else 0)
    ensures Inv(s')
  {
    InHands(s, w, t);
    hide Get, QueuesInv, WorkersInv, TasksInv, Live, Pos;
    TasksStay(s, s', t, b);
    CountFollows(s, s', t, b);
    QueuesStay(s, s', t, b);
    WorkerMoves(s, s', t, b, w, pc);
  }

  lemma WorkerStepKeeps(s: State, w: Wid)
    requires Inv(s)
    ensures Inv(WorkerStepOf(s, w))
  {
    hide Inv, BusyStep;
    match Pos(s, w)
    case Looking => if Queue(s, w) == [] { GotoKeeps(s, w, LookingGlobal); } else { PickKeeps(s, w); }
    case LookingGlobal => if s.global == [] { GotoKeeps(s, w, Deciding); } else { FetchKeeps(s, w); }
    case Deciding => GotoKeeps(s, w, if CanCloseWorker(s) then Ended else Looking);
    case Suspended => GotoKeeps(s, w, if CanCloseWorker(s) then Closed else Looking);
    case Ended => GotoKeeps(s, w, if CanCloseWorker(s) then Closed else Broken);
    case Busy(t) => BusyKeeps(s, w, t);
    case Returning => GotoKeeps(s, w, Looking);
    case _ =>
  }

  lemma RunEndsKeeps(s: State, e: Event)
    requires Inv(s) && (e.Park? || e.Complete?)
    ensures Inv(Apply(s, e))
  {
    if Runs(s, e.w) {
      var t := Pos(s, e.w).t;
      InHands(s, e.w, t);
      var s', b := Apply(s, e), Get(s, t);
      hide Inv, Get, Pos;
      if e.Park? {
        LeavesKeeps(s, s', e.w, t, b.(at := Parked), Returning);
      } else {
        QuietKeeps(s, s', t, s'.tasks[t]);
      }
    }
  }

  lemma ShutdownKeeps(s: State)
    requires Inv(s)
    ensures Inv(s.(shutdown := true))
  {
    var s' := s.(shutdown := true);
    assert forall t :: Get(s', t) == Get(s, t);
    assert forall v :: Queue(s', v) == Queue(s, v);
    assert forall v :: Pos(s', v) == Pos(s, v);
    assert Live(s') == Live(s);
    hide Get, Queue, Pos, Live, NoRepeats, HeldBy;
    forall v, x ensures x in Queue(s', v) <==> Get(s', x).at == InLocal(v) {
      assert x in Queue(s, v) <==> Get(s, x).at == InLocal(v);
    }
    forall v, x ensures Pos(s', v) == Busy(x) <==> HeldBy(Get(s', x).at, v) {
      assert Pos(s, v) == Busy(x) <==> HeldBy(Get(s, x).at, v);
    }
  }

  lemma MakeKeeps(s: State, t: Tid)
    requires Inv(s)
    ensures Inv(Apply(s, Make(t))) && Inv(Apply(s, Submit(t)))
  {
    assert TaskInv(Get(s, t));
    var s1, s2 := Apply(s, Make(t)), Apply(s, Submit(t));
    hide Inv;
    if t !in s.tasks { QuietKeeps(s, s1, t, s1.tasks[t]); }
    if Get(s, t).at.Made? || Get(s, t).at.Parked? { QuietKeeps(s, s2, t, s2.tasks[t]); }
  }

  lemma ApplyKeeps(s: State, e: Event)
    requires Inv(s)
    ensures Inv(Apply(s, e))
  {
    hide Inv, SubmitStepOf, WorkerStepOf, Get;
    match e
    case Hire(w) => if w !in s.workers { GotoKeeps(s, w, Looking); }
    case Make(t) => MakeKeeps(s, t);
    case Submit(t) => MakeKeeps(s, t);
    case SubmitStep(t) => SubmitStepKeeps(s, t);
    case WorkerStep(w) => WorkerStepKeeps(s, w);
    case Pause(w) => if Pos(s, w).Deciding? && !CanCloseWorker(s) { GotoKeeps(s, w, Suspended); }
    case Park(w) => RunEndsKeeps(s, e);
    case Complete(w, progresses) => RunEndsKeeps(s, e);
    case StartShutdown => ShutdownKeeps(s);
  }

  lemma {:induction false} RunKeeps(s: State, es: seq<Event>)
    requires Inv(s)
    ensures Inv(Run(s, es))
    decreases |es|
  {
    hide Inv, Apply;
    if es != [] {
      ApplyKeeps(s, es[0]);
      RunKeeps(Apply(s, es[0]), es[1..]);
    }
  }

  lemma Reachable(es: seq<Event>)
    ensures Inv(Run(Init(), es))
  {
    assert Live(Init()) == {};
    RunKeeps(Init(), es);
  }

  // ----- the results -----

  /** Submitted and not complete: in a queue, between queues, running or parked. */
  predicate UnderWay(at: Place) {
    at.ToLocal? || at.ToGlobal? || at.InGlobal? || at.InLocal? || at.Moving? || at.Picked? || at.Ready?
        || at.OnWorker? || at.Parked?
  }

  /** However often a task is submitted again, it is counted once until it
      completes; no ProgressState ever throws; and each task is in one place. */
  lemma CountsEachTaskOnce(es: seq<Event>, t: Tid)
    ensures var s := Run(Init(), es);
      && s.count == |Live(s)|
      && (UnderWay(Get(s, t).at) ==> t in Live(s))
      && (Get(s, t).at.Made? || Get(s, t).at.Gone? ==> t !in Live(s))
      && !Get(s, t).at.Thrown?
      && (t in s.global <==> Get(s, t).at.InGlobal?)
      && (forall w :: t in Queue(s, w) <==> Get(s, t).at == InLocal(w))
      && (forall w :: Pos(s, w) == Busy(t) <==> HeldBy(Get(s, t).at, w))
  {
    Reachable(es);
    var s := Run(Init(), es);
    hide Run;
    assert TaskInv(Get(s, t));
  }

  /** So when the count is zero no task is queued, running or parked, and no
      worker has one in its hands. */
  lemma ZeroMeansIdle(es: seq<Event>, t: Tid, w: Wid)
    requires Run(Init(), es).count == 0
    ensures var s := Run(Init(), es);
      && !UnderWay(Get(s, t).at) && s.global == [] && Queue(s, w) == [] && !Pos(s, w).Busy?
  {
    var s := Run(Init(), es);
    Reachable(es);
    hide Run;
    NothingLive(s, t);
    if s.global != [] { assert s.global[0] in s.global; NothingLive(s, s.global[0]); }
    if Queue(s, w) != [] { assert Queue(s, w)[0] in Queue(s, w); NothingLive(s, Queue(s, w)[0]); }
    if Pos(s, w).Busy? { InHands(s, w, Pos(s, w).t); NothingLive(s, Pos(s, w).t); }
  }

  lemma NothingLive(s: State, t: Tid)
    requires Inv(s) && s.count == 0
    ensures !Counted(Get(s, t))
  {
    assert Live(s) == {};
    assert Counted(Get(s, t)) ==> t in Live(s);
  }

  /** A worker closes only after shutdown began and when no task is under way. */
  lemma ClosesOnlyWhenIdle(es: seq<Event>, e: Event, w: Wid, t: Tid)
    requires var s := Run(Init(), es); w in s.workers && !Pos(s, w).Closed? && Pos(Apply(s, e), w).Closed?
    ensures var s := Run(Init(), es); s.shutdown && !UnderWay(Get(s, t).at) && s.global == [] && Queue(s, w) == []
  {
    var s := Run(Init(), es);
    ClosingCloses(s, e, w);
    ZeroMeansIdle(es, t, w);
  }

  lemma ClosingCloses(s: State, e: Event, w: Wid)
    requires w in s.workers && !Pos(s, w).Closed? && Pos(Apply(s, e), w).Closed?
    ensures CanCloseWorker(s)
  {
    hide SubmitStepOf, WorkerStepOf;
    match e
    case SubmitStep(t) => SubmitMovesNobody(s, t, w);
    case WorkerStep(v) => WorkerCloses(s, v, w);
    case _ =>
  }

  lemma SubmitMovesNobody(s: State, t: Tid, w: Wid)
    ensures Pos(SubmitStepOf(s, t), w) == Pos(s, w)
  {
    hide Get, Queue;
  }

  lemma WorkerCloses(s: State, v: Wid, w: Wid)
    requires !Pos(s, w).Closed? && Pos(WorkerStepOf(s, v), w).Closed?
    ensures CanCloseWorker(s)
  {
    hide Get, Queue, BusyStep;
    if Pos(s, v).Busy? { BusyStaysOpen(s, v, Pos(s, v).t, w); }
  }

  lemma BusyStaysOpen(s: State, v: Wid, t: Tid, w: Wid)
    requires Pos(s, v) == Busy(t)
    ensures Pos(BusyStep(s, v, t), w) == Pos(s, w) || (v == w && Pos(BusyStep(s, v, t), w).Looking?)
    ensures BusyStep(s, v, t).shutdown == s.shutdown
  {
    hide Get, Queue;
  }

  // ----- when Loop resumes a Process that has returned -----

  /** What a step does to where w is, as far as Ended and Broken go. */
  lemma StepBreaks(s: State, v: Wid, w: Wid)
    ensures var s' := WorkerStepOf(s, v);
      && s'.shutdown == s.shutdown
      && (Pos(s', w).Broken? <==> Pos(s, w).Broken? || (v == w && Pos(s, w).Ended? && !CanCloseWorker(s)))
      && (Pos(s', w).Ended? ==> Pos(s, w).Ended? || s.shutdown)
  {
    hide Get, Queue, BusyStep;
    if Pos(s, v).Busy? { BusyStaysOpen(s, v, Pos(s, v).t, w); }
  }

  lemma ApplyBreaks(s: State, e: Event, w: Wid)
    ensures var s' := Apply(s, e);
      && (s.shutdown ==> s'.shutdown)
      && (Pos(s', w).Broken? <==>
            Pos(s, w).Broken? || (e == WorkerStep(w) && Pos(s, w).Ended? && !CanCloseWorker(s)))
      && (Pos(s', w).Ended? ==> Pos(s, w).Ended? || s.shutdown)
  {
    hide SubmitStepOf, WorkerStepOf, CanCloseWorker;
    match e
    case SubmitStep(t) =>
      SubmitMovesNobody(s, t, w);
      SubmitLeavesShutdown(s, t);
    case WorkerStep(v) => StepBreaks(s, v, w);
    case _ =>
  }

  lemma SubmitLeavesShutdown(s: State, t: Tid)
    ensures SubmitStepOf(s, t).shutdown == s.shutdown
  {
    hide Get, Queue;
  }

  /** Process returns only when shutdown has begun. */
  lemma {:induction false} EndedMeansShutdown(es: seq<Event>, w: Wid)
    ensures Pos(Run(Init(), es), w).Ended? ==> Run(Init(), es).shutdown
    decreases |es|
  {
    hide Apply;
    if es != [] {
      EndedMeansShutdown(es[..|es| - 1], w);
      LastEvent(es);
      ApplyBreaks(Run(Init(), es[..|es| - 1]), es[|es| - 1], w);
    }
  }

  lemma LastEvent(es: seq<Event>)
    requires es != []
    ensures Run(Init(), es) == Apply(Run(Init(), es[..|es| - 1]), es[|es| - 1])
  {
    hide Apply;
    var last := [es[|es| - 1]];
    assert es == es[..|es| - 1] + last && last[1..] == [];
    RunSplits(Init(), es[..|es| - 1], last);
  }

  ghost predicate SomeCounted(s: State) { exists t :: Counted(Get(s, t)) }

  lemma CountIsZero(s: State)
    requires Inv(s)
    ensures s.count == 0 <==> !SomeCounted(s)
  {
    assert forall t :: t in Live(s) <==> Counted(Get(s, t));
    if s.count != 0 {
      var t :| t in Live(s);
      assert Counted(Get(s, t));
    }
  }

  /** Once Process has returned, Loop's own test decides: if some task is then
      counted Loop resumes the Process that has returned, and otherwise it ends. */
  lemma BreaksExactlyWhen(es: seq<Event>, w: Wid)
    requires Pos(Run(Init(), es), w).Ended?
    ensures var s := Run(Init(), es);
      var pc := Pos(Apply(s, WorkerStep(w)), w);
      && (pc.Broken? <==> SomeCounted(s))
      && (pc.Closed? <==> !SomeCounted(s))
  {
    Reachable(es);
    EndedMeansShutdown(es, w);
    CountIsZero(Run(Init(), es));
    hide Run, Inv, SomeCounted, Get, Queue;
  }

  /** The k-th event is w's Loop, whose Process has returned, making its test while
      some task is counted. */
  ghost predicate TestsTooLate(es: seq<Event>, k: nat, w: Wid)
    requires k < |es|
  {
    es[k] == WorkerStep(w) && Pos(Run(Init(), es[..k]), w).Ended? && SomeCounted(Run(Init(), es[..k]))
  }

  /** So a run in which Loop resumes a Process that has returned is exactly one in
      which Loop makes its test, after Process has returned, while a task is counted. */
  lemma {:induction false} ResumesExactlyWhen(es: seq<Event>, w: Wid)
    ensures Pos(Run(Init(), es), w).Broken? <==> exists k: nat :: k < |es| && TestsTooLate(es, k, w)
    decreases |es|
  {
    hide Apply, Inv, SomeCounted, CanCloseWorker;
    if es != [] {
      var init, n := es[..|es| - 1], |es| - 1;
      var s := Run(Init(), init);
      ResumesExactlyWhen(init, w);
      LastEvent(es);
      Reachable(init);
      EndedMeansShutdown(init, w);
      CountIsZero(s);
      ApplyBreaks(s, es[n], w);
      hide Run, Pos;
      ClosingIsCounting(s);
      hide TestsTooLate;
      OneMoreEvent(es, w);
    }
  }

  lemma OneMoreEvent(es: seq<Event>, w: Wid)
    requires es != []
    ensures var n := |es| - 1;
      (exists k: nat :: k < |es| && TestsTooLate(es, k, w)) <==>
      (exists k: nat :: k < n && TestsTooLate(es[..n], k, w))
      || (es[n] == WorkerStep(w) && Pos(Run(Init(), es[..n]), w).Ended? && SomeCounted(Run(Init(), es[..n])))
  {
    hide Run, Pos, SomeCounted;
    var n := |es| - 1;
    var init := es[..n];
    forall k: nat | k < n ensures TestsTooLate(es, k, w) <==> TestsTooLate(init, k, w) {
      assert init[..k] == es[..k];
    }
    assert TestsTooLate(es, n, w) <==>
           es[n] == WorkerStep(w) && Pos(Run(Init(), init), w).Ended? && SomeCounted(Run(Init(), init));
  }

  lemma ClosingIsCounting(s: State)
    ensures CanCloseWorker(s) <==> s.shutdown && s.count == 0
  {
  }

  /** A worker whose Process has returned may close, if nobody outside the pool
      has submitted a new task when shutdown had begun and nothing was under way. */
  ghost predicate LateInv(s: State) {
    !s.late ==> forall w :: !Pos(s, w).Broken? && (Pos(s, w).Ended? ==> CanCloseWorker(s))
  }

  /** At most w moved, and not to where the others could not be. */
  ghost predicate MovesWell(s: State, s': State, w: Wid) {
    && s'.late == s.late && (CanCloseWorker(s) ==> CanCloseWorker(s'))
    && (forall v :: v != w ==> Pos(s', v) == Pos(s, v))
    && (Pos(s', w).Ended? ==> CanCloseWorker(s'))
    && (Pos(s', w).Broken? ==> Pos(s, w).Broken? || (Pos(s, w).Ended? && !CanCloseWorker(s)))
  }

  lemma MovingKeepsLate(s: State, s': State, w: Wid)
    requires LateInv(s) && MovesWell(s, s', w)
    ensures LateInv(s')
  {
    hide Pos;
  }

  lemma LateKeeps(s: State, e: Event)
    requires Inv(s) && LateInv(s)
    ensures LateInv(Apply(s, e))
  {
    var s' := Apply(s, e);
    hide Inv, SubmitStepOf, WorkerStepOf, LateInv, Get;
    match e
    case SubmitStep(t) => SubmitKeepsLate(s, t);
    case WorkerStep(w) => WorkerKeepsLate(s, w);
    case Hire(w) => if w !in s.workers { MovingKeepsLate(s, s', w); }
    case Pause(w) => if s' != s { MovingKeepsLate(s, s', w); }
    case Park(w) => if s' != s { MovingKeepsLate(s, s', w); }
    case _ => SameWorkers(s, s');
  }

  lemma SameWorkers(s: State, s': State)
    requires LateInv(s) && s'.workers == s.workers && s'.late == s.late && s'.count == s.count
    requires s.shutdown ==> s'.shutdown
    ensures LateInv(s')
  {
    assert forall w :: Pos(s', w) == Pos(s, w);
    hide Pos;
  }

  lemma SubmitKeepsLate(s: State, t: Tid)
    requires LateInv(s)
    ensures LateInv(SubmitStepOf(s, t))
  {
    var s' := SubmitStepOf(s, t);
    forall w ensures Pos(s', w) == Pos(s, w) { SubmitMovesNobody(s, t, w); }
    hide Pos, Queue;
  }

  lemma WorkerKeepsLate(s: State, w: Wid)
    requires Inv(s) && LateInv(s)
    ensures LateInv(WorkerStepOf(s, w))
  {
    hide Inv, Queue, LateInv, WorkerStepOf, Get, MovesWell;
    if Pos(s, w).Ended? && !CanCloseWorker(s) {
      EndedStep(s, w);
    } else {
      if Pos(s, w).Busy? && Get(s, Pos(s, w).t).at.Ending? { EndingIsCounted(s, w, Pos(s, w).t); }
      WorkerMovesWell(s, w);
      MovingKeepsLate(s, WorkerStepOf(s, w), w);
    }
  }

  lemma EndedStep(s: State, w: Wid)
    requires LateInv(s) && Pos(s, w).Ended? && !CanCloseWorker(s)
    ensures LateInv(WorkerStepOf(s, w))
  {
    hide Queue, Get;
  }

  lemma OneWorkerMoves(s: State, s': State, w: Wid, pc: Pc)
    requires s'.workers == s.workers[w := pc]
    ensures Pos(s', w) == pc && forall v :: v != w ==> Pos(s', v) == Pos(s, v)
  {
  }

  lemma NoWorkerMoves(s: State, s': State)
    requires s'.workers == s.workers
    ensures forall v :: Pos(s', v) == Pos(s, v)
  {
  }

  lemma GoesWell(s: State, s': State, w: Wid, pc: Pc)
    requires s'.workers == s.workers[w := pc] && s'.late == s.late && s'.count == s.count && s'.shutdown == s.shutdown
    requires (pc.Ended? ==> CanCloseWorker(s)) && !pc.Broken?
    ensures MovesWell(s, s', w)
  {
    OneWorkerMoves(s, s', w, pc);
    hide Pos;
  }

  lemma StaysWell(s: State, w: Wid)
    requires !Pos(s, w).Ended?
    ensures MovesWell(s, s, w)
  {
  }

  lemma WorkerMovesWell(s: State, w: Wid)
    requires Pos(s, w).Busy? && Get(s, Pos(s, w).t).at.Ending? ==> s.count > 0
    requires !(Pos(s, w).Ended? && !CanCloseWorker(s))
    ensures MovesWell(s, WorkerStepOf(s, w), w)
  {
    hide Queue, Get, Pos, BusyStep, MovesWell;
    var s' := WorkerStepOf(s, w);
    match Pos(s, w)
    case Looking => GoesWell(s, s', w, if Queue(s, w) == [] then LookingGlobal else Busy(Queue(s, w)[0]));
    case LookingGlobal => GoesWell(s, s', w, if s.global == [] then Deciding else Busy(s.global[0]));
    case Busy(t) => BusyMovesWell(s, w, t);
    case _ => AskingMovesWell(s, w);
  }

  lemma AskingMovesWell(s: State, w: Wid)
    requires !Pos(s, w).Looking? && !Pos(s, w).LookingGlobal? && !Pos(s, w).Busy?
    requires !(Pos(s, w).Ended? && !CanCloseWorker(s))
    ensures MovesWell(s, WorkerStepOf(s, w), w)
  {
    hide Queue, Get, Pos, BusyStep, MovesWell;
    var s' := WorkerStepOf(s, w);
    match Pos(s, w)
    case Deciding => GoesWell(s, s', w, if CanCloseWorker(s) then Ended else Looking);
    case Suspended => GoesWell(s, s', w, if CanCloseWorker(s) then Closed else Looking);
    case Ended => GoesWell(s, s', w, Closed);
    case Returning => GoesWell(s, s', w, Looking);
    case _ => StaysWell(s, w);
  }

  lemma BusyMovesWell(s: State, w: Wid, t: Tid)
    requires Pos(s, w) == Busy(t) && (Get(s, t).at.Ending? ==> s.count > 0)
    ensures MovesWell(s, BusyStep(s, w, t), w)
  {
    hide Queue, Get, Pos;
    var s', at := BusyStep(s, w, t), Get(s, t).at;
    if at.Moving? || at.Ending? { OneWorkerMoves(s, s', w, Looking); } else { NoWorkerMoves(s, s'); }
  }

  lemma {:induction false} LateRunKeeps(s: State, es: seq<Event>)
    requires Inv(s) && LateInv(s)
    ensures LateInv(Run(s, es))
    decreases |es|
  {
    hide Inv, LateInv, Apply;
    if es != [] {
      ApplyKeeps(s, es[0]);
      LateKeeps(s, es[0]);
      LateRunKeeps(Apply(s, es[0]), es[1..]);
    }
  }

  /** The task counted then is one that came in from outside when the pool was
      shutting down with nothing under way: without such a task Loop never resumes
      a Process that has returned. */
  lemma NoReturnedProcessIsResumed(es: seq<Event>, w: Wid)
    ensures var s := Run(Init(), es); !s.late ==> !Pos(s, w).Broken?
  {
    Reachable([]);
    LateRunKeeps(Init(), es);
  }

  function Tardy(w: Wid, t: Tid): seq<Event> {
    [Hire(w), StartShutdown, WorkerStep(w), WorkerStep(w), WorkerStep(w)]
    + [Make(t), Submit(t), SubmitStep(t), SubmitStep(t), WorkerStep(w)]
  }

  lemma RunOf5(s: State, a: Event, b: Event, c: Event, d: Event, e: Event)
    ensures Run(s, [a, b, c, d, e]) == Apply(Apply(Apply(Apply(Apply(s, a), b), c), d), e)
  {
    hide Apply;
    assert [a, b, c, d, e][1..] == [b, c, d, e] && [b, c, d, e][1..] == [c, d, e];
    assert [c, d, e][1..] == [d, e] && [d, e][1..] == [e] && [e][1..] == [];
    assert Run(Apply(Apply(Apply(Apply(s, a), b), c), d), [e]) == Apply(Apply(Apply(Apply(Apply(s, a), b), c), d), e);
    assert Run(Apply(Apply(s, a), b), [c, d, e]) == Run(Apply(Apply(Apply(s, a), b), c), [d, e]);
  }

  /** And it happens: Process returns, a new task is counted, Loop may no longer
      close and resumes it. */
  lemma ALateTaskBreaks(w: Wid, t: Tid)
    ensures var s := Run(Init(), Tardy(w, t)); s.late && Pos(s, w).Broken?
  {
    var first := [Hire(w), StartShutdown, WorkerStep(w), WorkerStep(w), WorkerStep(w)];
    RunSplits(Init(), first, [Make(t), Submit(t), SubmitStep(t), SubmitStep(t), WorkerStep(w)]);
    RunOf5(Init(), Hire(w), StartShutdown, WorkerStep(w), WorkerStep(w), WorkerStep(w));
    RunOf5(Run(Init(), first), Make(t), Submit(t), SubmitStep(t), SubmitStep(t), WorkerStep(w));
    hide Run;
    ReturnedBeforeClosing(w);
    ThenCounted(Run(Init(), first), w, t);
  }

  lemma ReturnedBeforeClosing(w: Wid)
    ensures var s := Apply(Apply(Apply(Apply(Apply(Init(), Hire(w)), StartShutdown), WorkerStep(w)), WorkerStep(w)),
                           WorkerStep(w));
            Pos(s, w).Ended? && s.tasks == map[] && s.count == 0 && s.shutdown
  {
  }

  lemma ThenCounted(s: State, w: Wid, t: Tid)
    requires Pos(s, w).Ended? && s.tasks == map[] && s.count == 0 && s.shutdown
    ensures var s' := Apply(Apply(Apply(Apply(Apply(s, Make(t)), Submit(t)), SubmitStep(t)), SubmitStep(t)),
                            WorkerStep(w));
            s'.late && Pos(s', w).Broken?
  {
  }

  lemma EndingIsCounted(s: State, w: Wid, t: Tid)
    requires Inv(s) && Pos(s, w) == Busy(t) && Get(s, t).at.Ending?
    ensures s.count > 0
  {
    if s.count <= 0 { NothingLive(s, t); }
  }

  lemma {:induction false} RunSplits(s: State, es: seq<Event>, fs: seq<Event>)
    ensures Run(s, es + fs) == Run(Run(s, es), fs)
    decreases |es|
  {
    hide Apply;
    if es == [] {
      assert es + fs == fs;
    } else {
      assert (es + fs)[1..] == es[1..] + fs;
      RunSplits(Apply(s, es[0]), es[1..], fs);
    }
  }

  lemma WorkerStays(s: State, e: Event, t: Tid)
    requires Inv(s) && Get(s, t).worker.By?
    ensures Get(Apply(s, e), t).worker == Get(s, t).worker
  {
    hide Inv, SubmitStepOf, WorkerStepOf;
    match e
    case SubmitStep(u) => SubmitKeepsWorker(s, u, t);
    case WorkerStep(w) => StepKeepsWorker(s, w, t);
    case _ =>
  }

  lemma SubmitKeepsWorker(s: State, u: Tid, t: Tid)
    ensures Get(SubmitStepOf(s, u), t).worker == Get(s, t).worker
  {
    hide Queue;
  }

  lemma StepKeepsWorker(s: State, w: Wid, t: Tid)
    requires Get(s, t).worker.By?
    ensures Get(WorkerStepOf(s, w), t).worker == Get(s, t).worker
  {
    hide Queue, Pos;
  }

  lemma {:induction false} WorkerStaysAll(s: State, es: seq<Event>, t: Tid)
    requires Inv(s) && Get(s, t).worker.By?
    ensures Get(Run(s, es), t).worker == Get(s, t).worker
    decreases |es|
  {
    hide Inv, Apply, Get;
    if es != [] {
      WorkerStays(s, es[0], t);
      ApplyKeeps(s, es[0]);
      WorkerStaysAll(Apply(s, es[0]), es[1..], t);
    }
  }

  /** Once a task has a worker it never changes, and every later run of the task
      is on that worker. */
  lemma AffinityIsForever(es: seq<Event>, fs: seq<Event>, t: Tid)
    requires Get(Run(Init(), es), t).worker.By?
    ensures var b, b' := Get(Run(Init(), es), t), Get(Run(Init(), es + fs), t);
      && b'.worker == b.worker
      && (b'.at.OnWorker? || b'.at.Picked? || b'.at.InLocal? || b'.at.ToLocal? ==> b'.at.w == b.worker.w)
      && !b'.at.InGlobal?
  {
    Reachable(es);
    Reachable(es + fs);
    RunSplits(Init(), es, fs);
    WorkerStaysAll(Run(Init(), es), fs, t);
    hide Run, Get, QueuesInv, WorkersInv;
    assert TaskInv(Get(Run(Init(), es + fs), t));
  }
}
