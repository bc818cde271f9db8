/** The pool's own code: Submit, and the loop of a worker that has the pool to
    itself. A task suspends a given number of times before it completes, and
    whoever it waits for submits it again before its Run returns. */
module PoolCode {
  import opened Pool
  import opened Sequences

  /** A TaskBase, and how many of its runs will end in suspension. */
  datatype Job = Job(stage: Stage, worker: Worker, suspensions: nat)

  /** How many runs the queued tasks still have before them. */
  function Work(jobs: map<Tid, Job>, q: seq<Tid>): nat {
    if q == [] then 0
    else (if q[0] in jobs then jobs[q[0]].suspensions + 1 else 0) + Work(jobs, q[1..])
  }

  lemma {:induction false} WorkOfBoth(jobs: map<Tid, Job>, p: seq<Tid>, q: seq<Tid>)
    ensures Work(jobs, p + q) == Work(jobs, p) + Work(jobs, q)
  {
    if p == [] {
      assert p + q == q;
    } else {
      assert (p + q)[1..] == p[1..] + q;
      WorkOfBoth(jobs, p[1..], q);
    }
  }

  /** A task that is not in the queue may change. */
  lemma {:induction false} WorkElsewhere(jobs: map<Tid, Job>, q: seq<Tid>, t: Tid, j: Job)
    requires t !in q
    ensures Work(jobs[t := j], q) == Work(jobs, q)
  {
    if q != [] { WorkElsewhere(jobs, q[1..], t, j); }
  }

  /** Taking the first of the queues p and q. */
  lemma FirstOf(p: seq<Tid>, q: seq<Tid>)
    requires p != [] && NoRepeats(p + q)
    ensures p[0] !in p[1..] + q && NoRepeats(p[1..] + q) && forall x :: x in p + q <==> x == p[0] || x in p[1..] + q
  {
    var r, rest := p + q, p[1..] + q;
    assert r == [p[0]] + rest;
    forall i, j | 0 <= i < j < |rest| ensures rest[i] != rest[j] { assert r[i + 1] == rest[i] && r[j + 1] == rest[j]; }
    forall i | 0 <= i < |rest| ensures rest[i] != p[0] { assert r[i + 1] == rest[i] && r[0] == p[0]; }
  }

  /** Putting t between them. */
  lemma Between(p: seq<Tid>, q: seq<Tid>, t: Tid)
    requires NoRepeats(p + q) && t !in p + q
    ensures NoRepeats(p + [t] + q) && forall x :: x in p + [t] + q <==> x == t || x in p + q
  {
    var r, s := p + q, p + [t] + q;
    assert forall i :: 0 <= i < |s| ==> s[i] == if i < |p| then r[i] else if i == |p| then t else r[i - 1];
    forall i, j | 0 <= i < j < |s| ensures s[i] != s[j] {
      var a, b := if i < |p| then i else i - 1, if j < |p| then j else j - 1;
      assert i != |p| ==> s[i] == r[a];
      assert j != |p| ==> s[j] == r[b];
    }
    forall x ensures x in s <==> x == t || x in r {
      if x in r {
        var i :| 0 <= i < |r| && r[i] == x;
        assert s[if i < |p| then i else i + 1] == x;
      }
      if x == t { assert s[|p|] == x; }
    }
  }

  lemma WorkBetween(jobs: map<Tid, Job>, p: seq<Tid>, q: seq<Tid>, t: Tid)
    requires t in jobs
    ensures Work(jobs, p + [t] + q) == Work(jobs, p + q) + jobs[t].suspensions + 1
    ensures Work(jobs, [t] + (p + q)) == Work(jobs, p + q) + jobs[t].suspensions + 1
  {
    WorkOfBoth(jobs, p, [t] + q);
    WorkOfBoth(jobs, [t], q);
    WorkOfBoth(jobs, p, q);
    WorkOfBoth(jobs, [t], p + q);
    assert p + [t] + q == p + ([t] + q);
    assert [t][1..] == [];
  }

  // ----- the order in which a worker runs its tasks -----

  /** A queued task and how many of its runs will still end in suspension. */
  datatype Due = Due(t: Tid, n: nat)

  function Total(q: seq<Due>): nat { if q == [] then 0 else q[0].n + 1 + Total(q[1..]) }

  lemma {:induction false} TotalOfBoth(p: seq<Due>, q: seq<Due>)
    ensures Total(p + q) == Total(p) + Total(q)
  {
    if p == [] {
      assert p + q == q;
    } else {
      assert (p + q)[1..] == p[1..] + q;
      TotalOfBoth(p[1..], q);
    }
  }

  /** What the first of a queue becomes when it has run once more. */
  function Again(d: Due): seq<Due> { if d.n > 0 then [Due(d.t, d.n - 1)] else [] }

  /** A queue whose tasks come back at its end each time they suspend. */
  function Serve(q: seq<Due>): seq<Tid>
    decreases Total(q)
  {
    if q == [] then []
    else
      TotalOfBoth(q[1..], Again(q[0]));
      [q[0].t] + Serve(q[1..] + Again(q[0]))
  }

  lemma ServeOne(q: seq<Due>)
    requires q != []
    ensures Serve(q) == [q[0].t] + Serve(q[1..] + Again(q[0]))
  {
  }

  /** Tasks that are run one at a time, each until it is complete. */
  function OneByOne(q: seq<Due>): seq<Tid> { if q == [] then [] else Serve([q[0]]) + OneByOne(q[1..]) }

  function Names(q: seq<Due>): seq<Tid> { if q == [] then [] else [q[0].t] + Names(q[1..]) }

  /** Those that come back after a round. */
  function NextRound(q: seq<Due>): seq<Due> { if q == [] then [] else Again(q[0]) + NextRound(q[1..]) }

  lemma {:induction false} RoundFrom(p: seq<Due>, q: seq<Due>)
    ensures Serve(p + q) == Names(p) + Serve(q + NextRound(p))
    decreases |p|
  {
    if p == [] {
      assert p + q == q && q + [] == q;
    } else {
      var rest, back := p[1..], Again(p[0]);
      assert (p + q)[0] == p[0] && (p + q)[1..] + back == rest + (q + back);
      assert q + back + NextRound(rest) == q + (back + NextRound(rest));
      RoundFrom(rest, q + back);
    }
  }

  /** Such a queue is served in rounds: in each, every task that is not complete runs
      once, in the order in which they were queued. */
  lemma ServedInRounds(q: seq<Due>)
    ensures Serve(q) == Names(q) + Serve(NextRound(q))
  {
    assert q + [] == q && [] + NextRound(q) == NextRound(q);
    RoundFrom(q, []);
  }

  ghost function Dues(jobs: map<Tid, Job>, q: seq<Tid>): seq<Due>
    requires forall t :: t in q ==> t in jobs
  {
    if q == [] then [] else [Due(q[0], jobs[q[0]].suspensions)] + Dues(jobs, q[1..])
  }

  lemma {:induction false} DuesOfBoth(jobs: map<Tid, Job>, p: seq<Tid>, q: seq<Tid>)
    requires forall t :: t in p + q ==> t in jobs
    ensures (forall t :: t in p || t in q ==> t in jobs) && Dues(jobs, p + q) == Dues(jobs, p) + Dues(jobs, q)
    decreases |p|
  {
    assert forall t :: t in p || t in q ==> t in p + q;
    if p == [] {
      assert p + q == q;
    } else {
      assert (p + q)[1..] == p[1..] + q;
      DuesOfBoth(jobs, p[1..], q);
    }
  }

  lemma {:induction false} DuesElsewhere(jobs: map<Tid, Job>, jobs': map<Tid, Job>, q: seq<Tid>)
    requires forall t :: t in q ==> t in jobs && t in jobs' && jobs'[t].suspensions == jobs[t].suspensions
    ensures Dues(jobs', q) == Dues(jobs, q)
  {
    if q != [] { DuesElsewhere(jobs, jobs', q[1..]); }
  }

  /** What is still to run, in order. */
  ghost function ToRun(jobs: map<Tid, Job>, local: seq<Tid>, global: seq<Tid>): seq<Tid>
    requires forall t :: t in local + global ==> t in jobs
  {
    assert forall t :: t in local || t in global ==> t in local + global;
    Serve(Dues(jobs, local)) + OneByOne(Dues(jobs, global))
  }

  lemma LocalRuns(jobs: map<Tid, Job>, jobs': map<Tid, Job>, local: seq<Tid>, back: seq<Tid>)
    requires local != [] && (forall t :: t in local ==> t in jobs) && forall t :: t in local[1..] + back ==> t in jobs'
    requires back == if jobs[local[0]].suspensions > 0 then [local[0]] else []
    requires forall t :: t in local[1..] ==> t in jobs' && jobs'[t].suspensions == jobs[t].suspensions
    requires back != [] ==> jobs'[local[0]].suspensions == jobs[local[0]].suspensions - 1
    ensures Serve(Dues(jobs, local)) == [local[0]] + Serve(Dues(jobs', local[1..] + back))
  {
    hide Serve;
    var t, q := local[0], Dues(jobs, local);
    DuesOfBoth(jobs', local[1..], back);
    DuesElsewhere(jobs, jobs', local[1..]);
    assert Dues(jobs', back) == Again(Due(t, jobs[t].suspensions));
    assert q[1..] == Dues(jobs, local[1..]);
    ServeOne(q);
  }

  lemma RunningFirst(jobs: map<Tid, Job>, jobs': map<Tid, Job>, local: seq<Tid>, back: seq<Tid>, global: seq<Tid>)
    requires local != [] && NoRepeats(local + global) && forall t :: t in local + global ==> t in jobs
    requires back == if jobs[local[0]].suspensions > 0 then [local[0]] else []
    requires forall t :: t in local[1..] + back + global ==> t in jobs'
    requires forall t :: t in local[1..] + global ==> t in jobs' && jobs'[t].suspensions == jobs[t].suspensions
    requires back != [] ==> local[0] in jobs' && jobs'[local[0]].suspensions == jobs[local[0]].suspensions - 1
    ensures ToRun(jobs, local, global) == [local[0]] + ToRun(jobs', local[1..] + back, global)
  {
    hide NoRepeats, Serve, OneByOne, Dues;
    InOne(local, global);
    InOne(local[1..], global);
    InOne(local[1..] + back, global);
    LocalRuns(jobs, jobs', local, back);
    DuesElsewhere(jobs, jobs', global);
  }

  lemma InOne(p: seq<Tid>, q: seq<Tid>)
    ensures forall x :: x in p || x in q ==> x in p + q
  {
  }

  /** How often t is due to run. */
  function Runs(q: seq<Due>, t: Tid): nat {
    if q == [] then 0 else (if q[0].t == t then q[0].n + 1 else 0) + Runs(q[1..], t)
  }

  lemma {:induction false} RunsOfBoth(p: seq<Due>, q: seq<Due>, t: Tid)
    ensures Runs(p + q, t) == Runs(p, t) + Runs(q, t)
  {
    if p == [] {
      assert p + q == q;
    } else {
      assert (p + q)[1..] == p[1..] + q;
      RunsOfBoth(p[1..], q, t);
    }
  }

  lemma {:induction false} ServeRuns(q: seq<Due>, t: Tid)
    ensures multiset(Serve(q))[t] == Runs(q, t)
    decreases Total(q)
  {
    if q != [] {
      var rest := q[1..] + Again(q[0]);
      TotalOfBoth(q[1..], Again(q[0]));
      ServeRuns(rest, t);
      RunsOfBoth(q[1..], Again(q[0]), t);
      ServeOne(q);
      hide Serve, Total;
      assert multiset([q[0].t] + Serve(rest)) == multiset{q[0].t} + multiset(Serve(rest));
    }
  }

  lemma {:induction false} OneByOneRuns(q: seq<Due>, t: Tid)
    ensures multiset(OneByOne(q))[t] == Runs(q, t)
  {
    if q != [] {
      ServeRuns([q[0]], t);
      OneByOneRuns(q[1..], t);
      assert [q[0]][1..] == [];
      hide Serve;
    }
  }

  lemma {:induction false} DuesRuns(jobs: map<Tid, Job>, q: seq<Tid>, t: Tid)
    requires NoRepeats(q) && forall x :: x in q ==> x in jobs
    ensures Runs(Dues(jobs, q), t) == if t in q then jobs[t].suspensions + 1 else 0
  {
    if q != [] {
      assert q == [q[0]] + q[1..] && q[0] !in q[1..];
      DuesRuns(jobs, q[1..], t);
    }
  }

  /** Every task runs as often as it suspends and once more. */
  lemma PlanIsFull(jobs: map<Tid, Job>, local: seq<Tid>, global: seq<Tid>)
    requires NoRepeats(local + global) && forall t :: t in local + global ==> t in jobs
    ensures forall t :: multiset(ToRun(jobs, local, global))[t] ==
                        if t in local + global then jobs[t].suspensions + 1 else 0
  {
    InOne(local, global);
    PartsRepeatNothing(local, global);
    hide Serve, OneByOne, Dues, NoRepeats, Runs;
    forall t
      ensures multiset(ToRun(jobs, local, global))[t] == if t in local + global then jobs[t].suspensions + 1 else 0
    {
      ServeRuns(Dues(jobs, local), t);
      OneByOneRuns(Dues(jobs, global), t);
      DuesRuns(jobs, local, t);
      DuesRuns(jobs, global, t);
    }
  }

  lemma PartsRepeatNothing(p: seq<Tid>, q: seq<Tid>)
    requires NoRepeats(p + q)
    ensures NoRepeats(p) && NoRepeats(q) && forall t :: t in p ==> t !in q
  {
    forall i, j | 0 <= i < |p| && 0 <= j < |q| ensures p[i] != q[j] {
      assert (p + q)[i] == p[i] && (p + q)[|p| + j] == q[j];
    }
    forall i, j | 0 <= i < j < |p| ensures p[i] != p[j] { assert (p + q)[i] == p[i] && (p + q)[j] == p[j]; }
    forall i, j | 0 <= i < j < |q| ensures q[i] != q[j] {
      assert (p + q)[|p| + i] == q[i] && (p + q)[|p| + j] == q[j];
    }
  }

  lemma NothingToRun(jobs: map<Tid, Job>)
    ensures ToRun(jobs, [], []) == []
  {
  }

  lemma MovingFirst(jobs: map<Tid, Job>, global: seq<Tid>)
    requires global != [] && forall t :: t in global ==> t in jobs
    ensures forall t :: t in [] + global || t in [global[0]] + global[1..] ==> t in jobs
    ensures ToRun(jobs, [], global) == ToRun(jobs, [global[0]], global[1..])
  {
    var t := global[0];
    assert [t][1..] == [];
    assert Dues(jobs, [t]) == [Due(t, jobs[t].suspensions)];
    assert Dues(jobs, global) == [Due(t, jobs[t].suspensions)] + Dues(jobs, global[1..]);
  }

  class DistributedPool {
    const me: Wid
    var countTasks: nat
    var shutdown: bool
    var globalTasks: seq<Tid>
    var localTasks: seq<Tid>
    var jobs: map<Tid, Job>

    ghost function Queued(): seq<Tid>
      reads this
    {
      localTasks + globalTasks
    }

    /** Every counted task is in one queue, once; those without a worker are in
        the global queue or came from it. */
    ghost predicate Valid()
      reads this
    {
      && countTasks == |Queued()| && NoRepeats(Queued())
      && (forall t :: t in Queued() ==> t in jobs && jobs[t].stage.Running?)
      && (forall t :: t in Queued() && jobs[t].worker.By? ==> jobs[t].worker.w == me)
      && (forall t :: t in globalTasks ==> jobs[t].worker.NoWorker?)
    }

    constructor (w: Wid)
      ensures Valid() && Queued() == [] && !shutdown && jobs == map[] && me == w
    {
      me, countTasks, shutdown, globalTasks, localTasks, jobs := w, 0, false, [], [], map[];
    }

    method ProgressState(t: Tid) returns (threw: bool)
      requires t in jobs
      modifies this`jobs
      ensures threw == old(jobs[t].stage.Finished?)
      ensures jobs == if threw then old(jobs)
                      else
                        var stage := if old(jobs[t].stage.Planned?) then Running else Finished;
                        old(jobs)[t := old(jobs[t]).(stage := stage)]
    {
      threw := false;
      match jobs[t].stage
      case Planned => jobs := jobs[t := jobs[t].(stage := Running)];
      case Running => jobs := jobs[t := jobs[t].(stage := Finished)];
      case Finished => threw := true;
    }

    /** The first worker stays. */
    method SetWorker(t: Tid, w: Wid)
      requires t in jobs
      modifies this`jobs
      ensures var worker := if old(jobs[t].worker.By?) then old(jobs[t].worker) else By(w);
        jobs == old(jobs)[t := old(jobs[t]).(worker := worker)]
    {
      if jobs[t].worker.NoWorker? {
        jobs := jobs[t := jobs[t].(worker := By(w))];
      }
    }

    /** Only the first submission counts the task; it goes to the worker it has. */
    method Submit(t: Tid)
      requires t in jobs && t !in Queued() && !jobs[t].stage.Finished?
      requires jobs[t].stage.Planned? ==> jobs[t].worker.NoWorker?
      requires jobs[t].worker.By? ==> jobs[t].worker.w == me
      modifies this
      ensures shutdown == old(shutdown)
      ensures jobs == old(jobs)[t := old(jobs[t]).(stage := Running)]
      ensures countTasks == old(countTasks) + if old(jobs[t].stage.Planned?) then 1 else 0
      ensures localTasks == old(localTasks) + if old(jobs[t].worker.By?) then [t] else []
      ensures globalTasks == old(globalTasks) + if old(jobs[t].worker.By?) then [] else [t]
    {
      if jobs[t].stage.Planned? {
        countTasks := countTasks + 1;
        var _ := ProgressState(t);
      }
      if jobs[t].worker.By? {
        localTasks := localTasks + [t];
      } else {
        globalTasks := globalTasks + [t];
      }
    }

    /** One Run: the task suspends and is submitted again, or it completes. */
    method RunTask(t: Tid) returns (complete: bool)
      requires t in jobs && t !in Queued() && jobs[t].stage.Running? && jobs[t].worker == By(me)
      modifies this
      ensures shutdown == old(shutdown) && countTasks == old(countTasks) && globalTasks == old(globalTasks)
      ensures complete == (old(jobs[t].suspensions) == 0)
      ensures localTasks == old(localTasks) + if complete then [] else [t]
      ensures jobs == old(jobs)[t := if complete then old(jobs[t]).(stage := Finished)
                                     else old(jobs[t]).(suspensions := old(jobs[t].suspensions) - 1)]
    {
      complete := jobs[t].suspensions == 0;
      if complete {
        var _ := ProgressState(t);
      } else {
        jobs := jobs[t := jobs[t].(suspensions := jobs[t].suspensions - 1)];
        Submit(t);
      }
    }

    /** What it will run, in order. */
    ghost function Plan(): seq<Tid>
      reads this
      requires Valid()
    {
      ToRun(jobs, localTasks, globalTasks)
    }

    /** Worker::Process. It comes to rest with nothing queued and nothing counted,
        after running every queued task until it completed: no run is lost, none
        is made twice, and all of them are on this worker. Its own queue is served
        in rounds, and then the tasks of the global queue one at a time. */
    method Process() returns (ran: seq<Tid>, closed: bool)
      requires Valid()
      modifies this
      ensures Valid() && Queued() == [] && countTasks == 0 && closed == old(shutdown)
      ensures forall t :: multiset(ran)[t] == if t in old(Queued()) then old(jobs)[t].suspensions + 1 else 0
      ensures ran == old(Plan())
      ensures forall t :: t in old(Queued()) ==> t in jobs && jobs[t].stage.Finished? && jobs[t].worker == By(me)
    {
      ran, closed := [], false;
      while true
        invariant Valid() && shutdown == old(shutdown)
        invariant ran + Plan() == old(Plan())
        invariant forall t :: t in Queued() ==> t in old(Queued())
        invariant forall t :: t in old(Queued()) && t !in Queued() ==>
              t in jobs && jobs[t].stage.Finished? && jobs[t].worker == By(me)
        decreases Work(jobs, Queued()), |globalTasks|
      {
        if localTasks != [] {
          hide Plan, Work, NoRepeats;
          ran := RunFirst(ran);
        } else if globalTasks != [] {
          hide Plan, Work, NoRepeats;
          Move();
        } else {
          NothingToRun(jobs);
          PlanIsFull(old(jobs), old(localTasks), old(globalTasks));
          hide Work, NoRepeats, ToRun;
          closed := shutdown && countTasks == 0;
          return;
        }
      }
    }

    /** The first global task goes to the end of the worker's own queue. */
    method Move()
      requires Valid() && localTasks == [] && globalTasks != []
      modifies this`globalTasks, this`localTasks
      ensures Valid() && Queued() == old(Queued()) && |globalTasks| < |old(globalTasks)|
      ensures localTasks == old(localTasks) + [old(globalTasks)[0]] && globalTasks == old(globalTasks)[1..]
      ensures Plan() == old(Plan())
    {
      hide ToRun, NoRepeats, Work;
      MovingFirst(jobs, globalTasks);
      assert globalTasks == [globalTasks[0]] + globalTasks[1..];
      assert localTasks + [globalTasks[0]] + globalTasks[1..] == localTasks + globalTasks;
      localTasks := localTasks + [globalTasks[0]];
      globalTasks := globalTasks[1..];
      assert localTasks == [old(globalTasks)[0]];
    }

    method RunFirst(ran: seq<Tid>) returns (more: seq<Tid>)
      requires Valid() && localTasks != []
      modifies this
      ensures Valid() && shutdown == old(shutdown) && globalTasks == old(globalTasks)
      ensures more == ran + [old(localTasks)[0]]
      ensures more + Plan() == ran + old(Plan())
      ensures forall t :: t in Queued() ==> t in old(Queued())
      ensures forall t :: t in old(Queued()) && t !in Queued() ==>
            t in jobs && jobs[t].stage.Finished? && jobs[t].worker == By(me)
      ensures forall t :: t in old(jobs) && t !in old(Queued()) ==> t in jobs && jobs[t] == old(jobs[t])
      ensures Work(jobs, Queued()) < Work(old(jobs), old(Queued()))
    {
      hide Work, NoRepeats, ToRun;
      var t := localTasks[0];
      ghost var p, q, j := localTasks[1..], globalTasks, jobs[t];
      FirstOf(localTasks, q);
      assert Queued() == [t] + (p + q);
      WorkBetween(jobs, p, q, t);
      localTasks := localTasks[1..];
      SetWorker(t, me);
      var complete := RunTask(t);
      more := ran + [t];
      WorkElsewhere(old(jobs), p + q, t, jobs[t]);
      assert jobs == old(jobs)[t := jobs[t]];
      RunningFirst(old(jobs), jobs, old(localTasks), if complete then [] else [t], q);
      ghost var later := ToRun(jobs, localTasks, q);
      assert ran + ([t] + later) == more + later;
      if complete {
        countTasks := countTasks - 1;
        assert Queued() == p + q;
      } else {
        assert Queued() == p + [t] + q;
        Between(p, q, t);
        WorkBetween(jobs, p, q, t);
      }
    }
  }
}
