/** IntrusiveStrand on top of IntrusiveManualExecutor, single threaded, with
    tasks that submit further tasks to the strand while they run. */
module StrandOnManual {

  /** A task and what it submits to the strand when it is run. */
  datatype Task = Task(id: nat, submits: seq<Task>)

  function Size(t: Task): nat { 1 + Sizes(t.submits) }

  function Sizes(ts: seq<Task>): nat {
    if ts == [] then 0 else Size(ts[0]) + Sizes(ts[1..])
  }

  lemma {:induction false} SizesOfBoth(a: seq<Task>, b: seq<Task>)
    ensures Sizes(a + b) == Sizes(a) + Sizes(b)
  {
    if a == [] {
      assert a + b == b;
    } else {
      assert (a + b)[1..] == a[1..] + b;
      SizesOfBoth(a[1..], b);
    }
  }

  lemma FirstStep(q: seq<Task>)
    requires q != []
    ensures Sizes(q[1..] + q[0].submits) < Sizes(q)
  {
    SizesOfBoth(q[1..], q[0].submits);
  }

  /** What a plain queue would run, which starts with q and appends whatever the
      tasks submit: the reference the batching strand is held to. */
  function InOrder(q: seq<Task>): seq<Task>
    decreases Sizes(q)
  {
    if q == [] then []
    else
      FirstStep(q);
      [q[0]] + InOrder(q[1..] + q[0].submits)
  }

  /** Some tasks and all that they submit, directly or not, each occurrence once. */
  function Everything(ts: seq<Task>): multiset<Task> {
    if ts == [] then multiset{} else multiset{ts[0]} + Everything(ts[0].submits) + Everything(ts[1..])
  }

  lemma {:induction false} EverythingOfBoth(a: seq<Task>, b: seq<Task>)
    ensures Everything(a + b) == Everything(a) + Everything(b)
  {
    if a == [] {
      assert a + b == b;
    } else {
      assert (a + b)[1..] == a[1..] + b;
      EverythingOfBoth(a[1..], b);
    }
  }

  lemma {:induction false} InOrderLasts(q: seq<Task>)
    ensures |InOrder(q)| == Sizes(q) && q <= InOrder(q)
    decreases Sizes(q)
  {
    if q != [] {
      FirstStep(q);
      var rest := q[1..] + q[0].submits;
      InOrderLasts(rest);
      SizesOfBoth(q[1..], q[0].submits);
      assert q == [q[0]] + q[1..];
    }
  }

  lemma MultisetOfFirst(t: Task, more: seq<Task>)
    ensures multiset([t] + more) == multiset{t} + multiset(more)
  {
  }

  lemma {:induction false} InOrderIsEverything(q: seq<Task>)
    ensures multiset(InOrder(q)) == Everything(q)
    decreases Sizes(q)
  {
    if q != [] {
      FirstStep(q);
      var rest := q[1..] + q[0].submits;
      InOrderIsEverything(rest);
      EverythingOfBoth(q[1..], q[0].submits);
      hide Sizes;
      MultisetOfFirst(q[0], InOrder(rest));
      assert InOrder(q) == [q[0]] + InOrder(rest);
    }
  }

  /** Everything submitted is run, each occurrence once, and q first. */
  lemma InOrderRunsEverything(q: seq<Task>)
    ensures |InOrder(q)| == Sizes(q) && q <= InOrder(q)
    ensures multiset(InOrder(q)) == Everything(q)
  {
    hide InOrder, Sizes, Everything;
    InOrderLasts(q);
    InOrderIsEverything(q);
  }

  /** What a batch of tasks leaves on the list: their submissions, in order. */
  function Generation(ts: seq<Task>): seq<Task> {
    if ts == [] then [] else ts[0].submits + Generation(ts[1..])
  }

  lemma {:induction false} GenerationIsSmaller(ts: seq<Task>)
    ensures Sizes(ts) == |ts| + Sizes(Generation(ts))
  {
    if ts != [] {
      GenerationIsSmaller(ts[1..]);
      SizesOfBoth(ts[0].submits, Generation(ts[1..]));
    }
  }

  /** How many batches it takes until nothing is left. */
  function Generations(ts: seq<Task>): nat
    decreases Sizes(ts)
  {
    if ts == [] then 0
    else
      GenerationIsSmaller(ts);
      1 + Generations(Generation(ts))
  }

  /** What is on the list after n batches, and what they have run. */
  function After(ts: seq<Task>, n: nat): seq<Task> { if n == 0 then ts else Generation(After(ts, n - 1)) }

  function RunBy(ts: seq<Task>, n: nat): seq<Task> { if n == 0 then [] else RunBy(ts, n - 1) + After(ts, n - 1) }

  datatype Phase = READY | PLAN | RUNNING

  /** IntrusiveManualExecutor. Its jobs are all the RunBatch of one strand, so
      its list is their number; count_tasks is kept beside it as in the source. */
  class ManualExecutor {
    var jobs: nat
    var countTasks: nat

    constructor ()
      ensures jobs == 0 && countTasks == 0
    {
      jobs, countTasks := 0, 0;
    }

    method Submit()
      modifies this
      ensures jobs == old(jobs) + 1 && countTasks == old(countTasks) + 1
    {
      jobs := jobs + 1;
      countTasks := countTasks + 1;
    }

    /** Drain. */
    method Drain(strand: Strand) returns (done: nat)
      requires strand.underlying == this && strand.Valid()
      modifies this, strand
      ensures strand.Valid() && strand.underlying == this
      ensures strand.phase == READY && strand.tasks == [] && countTasks == 0
      ensures strand.executed == old(strand.executed) + InOrder(old(strand.tasks))
      ensures done == Generations(old(strand.tasks))
    {
      done := 0;
      while countTasks != 0
        invariant strand.Valid() && strand.underlying == this
        invariant strand.executed + InOrder(strand.tasks) == old(strand.executed) + InOrder(old(strand.tasks))
        invariant done + Generations(strand.tasks) == Generations(old(strand.tasks))
        decreases Sizes(strand.tasks)
      {
        jobs, countTasks := jobs - 1, countTasks - 1;
        strand.RunBatch();
        done := done + 1;
      }
    }

    /** RunAtMost: it runs one batch after the other, as many as the limit allows and
        as there are, and says how many; what has run is exactly those batches. */
    method RunAtMost(strand: Strand, limit: nat) returns (done: nat)
      requires strand.underlying == this && strand.Valid()
      modifies this, strand
      ensures strand.Valid() && strand.underlying == this
      ensures done <= limit && (done < limit ==> strand.tasks == [])
      ensures done + Generations(strand.tasks) == Generations(old(strand.tasks))
      ensures strand.tasks == After(old(strand.tasks), done)
      ensures strand.executed == old(strand.executed) + RunBy(old(strand.tasks), done)
      ensures strand.executed + InOrder(strand.tasks) == old(strand.executed) + InOrder(old(strand.tasks))
      ensures 0 < limit ==> old(strand.executed) + old(strand.tasks) <= strand.executed
    {
      done := 0;
      while done != limit
        invariant strand.Valid() && strand.underlying == this
        invariant done <= limit
        invariant strand.executed + InOrder(strand.tasks) == old(strand.executed) + InOrder(old(strand.tasks))
        invariant done + Generations(strand.tasks) == Generations(old(strand.tasks))
        invariant strand.tasks == After(old(strand.tasks), done)
        invariant strand.executed == old(strand.executed) + RunBy(old(strand.tasks), done)
        invariant 0 < done ==> old(strand.executed) + old(strand.tasks) <= strand.executed
        decreases limit - done
      {
        if countTasks == 0 {
          break;
        }
        jobs, countTasks := jobs - 1, countTasks - 1;
        strand.RunBatch();
        done := done + 1;
      }
    }
  }

  /** IntrusiveStrand; `executed` is history. */
  class Strand {
    const underlying: ManualExecutor
    var phase: Phase
    var tasks: seq<Task>
    var executed: seq<Task>

    constructor (underlying: ManualExecutor)
      requires underlying.jobs == 0 && underlying.countTasks == 0
      ensures Valid() && this.underlying == underlying && tasks == [] && executed == []
    {
      this.underlying := underlying;
      phase, tasks, executed := READY, [], [];
    }

    /** Between executor steps: READY means nothing to do anywhere, PLAN means
        one RunBatch queued and something for it to do. */
    ghost predicate Valid()
      reads this, underlying
    {
      && underlying.jobs == underlying.countTasks
      && match phase
         case READY => tasks == [] && underlying.jobs == 0
         case PLAN => tasks != [] && underlying.jobs == 1
         case RUNNING => false
    }

    /** The same while a RunBatch runs: nothing is queued. */
    ghost predicate InBatch()
      reads this, underlying
    {
      phase == RUNNING && underlying.jobs == underlying.countTasks == 0
    }

    /** PlanTask(from). */
    method PlanTask(from: Phase)
      modifies this`phase, underlying
      ensures phase == if old(phase) == from then PLAN else old(phase)
      ensures underlying.jobs == old(underlying.jobs) + (if old(phase) == from then 1 else 0)
      ensures underlying.countTasks == old(underlying.countTasks) + (if old(phase) == from then 1 else 0)
    {
      if phase == from {
        phase := PLAN;
        underlying.Submit();
      }
    }

    method ChangeState(from: Phase, to: Phase) returns (result: bool)
      modifies this`phase
      ensures result == (old(phase) == from)
      ensures phase == if result then to else old(phase)
    {
      result := phase == from;
      if result { phase := to; }
    }

    method Submit(task: Task)
      requires Valid() || InBatch()
      modifies this`phase, this`tasks, underlying
      ensures tasks == old(tasks) + [task]
      ensures if old(InBatch()) then InBatch() else Valid()
    {
      tasks := tasks + [task];
      PlanTask(READY);
    }

    /** task->Run(): the task submits what it has to submit. */
    method RunTask(task: Task)
      requires InBatch()
      modifies this`phase, this`tasks, this`executed, underlying
      ensures InBatch()
      ensures executed == old(executed) + [task]
      ensures tasks == old(tasks) + task.submits
    {
      executed := executed + [task];
      for i := 0 to |task.submits|
        invariant InBatch()
        invariant executed == old(executed) + [task]
        invariant tasks == old(tasks) + task.submits[..i]
      {
        Submit(task.submits[i]);
      }
    }

    /** RunBatch, which the executor has just taken off its list. */
    method RunBatch()
      requires phase == PLAN && tasks != [] && underlying.jobs == underlying.countTasks == 0
      modifies this`phase, this`tasks, this`executed, underlying
      ensures Valid()
      ensures executed == old(executed) + old(tasks)
      ensures executed + InOrder(tasks) == old(executed) + InOrder(old(tasks))
      ensures tasks == Generation(old(tasks)) && Sizes(tasks) < Sizes(old(tasks))
    {
      var result := ChangeState(PLAN, RUNNING);
      assert result;
      assert tasks != [];
      var scheduled := tasks;
      tasks := [];
      assert scheduled + tasks == old(tasks);
      while scheduled != []
        invariant InBatch()
        invariant executed + InOrder(scheduled + tasks) == old(executed) + InOrder(old(tasks))
        invariant executed + scheduled == old(executed) + old(tasks)
        invariant tasks + Generation(scheduled) == Generation(old(tasks))
        decreases |scheduled|
      {
        BatchStep(scheduled, tasks);
        var task := scheduled[0];
        scheduled := scheduled[1..];
        RunTask(task);
      }
      assert scheduled + tasks == tasks;
      GenerationIsSmaller(old(tasks));
      if tasks == [] {
        result := ChangeState(RUNNING, READY);
        assert result;
      } else {
        PlanTask(RUNNING);
      }
    }
  }

  lemma InOrderStep(scheduled: seq<Task>, tasks: seq<Task>)
    requires scheduled != []
    ensures InOrder(scheduled + tasks) == [scheduled[0]] + InOrder(scheduled[1..] + (tasks + scheduled[0].submits))
  {
    hide Generation;
    var q := scheduled + tasks;
    assert q[1..] + q[0].submits == scheduled[1..] + (tasks + scheduled[0].submits);
  }

  lemma BatchStep(scheduled: seq<Task>, tasks: seq<Task>)
    requires scheduled != []
    ensures InOrder(scheduled + tasks) == [scheduled[0]] + InOrder(scheduled[1..] + (tasks + scheduled[0].submits))
    ensures tasks + Generation(scheduled) == (tasks + scheduled[0].submits) + Generation(scheduled[1..])
  {
    InOrderStep(scheduled, tasks);
    hide InOrder, Sizes;
    var first, later := scheduled[0].submits, Generation(scheduled[1..]);
    assert Generation(scheduled) == first + later;
    assert tasks + (first + later) == (tasks + first) + later;
  }
}
