/** The condition in HazardCollector.PassFreesNothingHeld cannot be dropped: a node
    retired after a pass began its scan may be freed by that pass while a thread
    protects it. The run below is followed two steps at a time. */
module LateRetirement {
  import opened LockFree
  import opened Q = SimpleMsQueue
  import opened C = HazardCollector

  lemma {:induction false} RunSplits(r: Heap, es: seq<C.Event>, fs: seq<C.Event>)
    ensures C.Run(r, es + fs) == C.Run(C.Run(r, es), fs)
    decreases |es|
  {
    hide C.Apply;
    if es == [] {
      assert es + fs == fs;
    } else {
      assert (es + fs)[1..] == es[1..] + fs;
      RunSplits(C.Apply(r, es[0]), es[1..], fs);
    }
  }

  lemma Extend(es: seq<C.Event>, r: Heap, a: C.Event, b: C.Event)
    requires C.Run(Start(), es) == r
    ensures C.Run(Start(), es + [a, b]) == C.Apply(C.Apply(r, a), b)
  {
    hide C.Apply;
    RunSplits(Start(), es, [a, b]);
    assert C.Run(r, [a, b]) == C.Run(C.Apply(r, a), [a, b][1..]) && [a, b][1..] == [b];
    assert C.Run(C.Apply(r, a), [b]) == C.Run(C.Apply(C.Apply(r, a), b), [b][1..]);
  }

  /** One step of a thread. */
  function Go(t: Tid): C.Event { OfQueue(Step(t, false)) }

  /** Threads 1 and 2, with nothing retired. */
  function Scene(sh: Q.Shared, one: Q.Local, two: Q.Local, c: Collector): Heap {
    Heap(Q.State(sh, map[1 := one, 2 := two]), map[1 := [], 2 := []], map[], c, [], map[])
  }

  /** The queue before v is linked, with v in it, and when v was popped. */
  function Before(v: Value): Q.Shared {
    Shared([Node(Nothing, Null), Node(Full(v), Null)], At(0), At(0), map[1 := Null, 2 := Null],
           [0, 2], [0], map[0 := 0], 0, 0, [], [], {}, [])
  }

  function With(v: Value, tail: nat, hazard: map<Tid, Ptr>): Q.Shared {
    Shared([Node(Nothing, At(1)), Node(Full(v), Null)], At(0), At(tail), hazard,
           [0, 2], [0, 1], map[0 := 0, 1 := 1], 0, tail, [], [v], {}, [Enq(2, v)])
  }

  function After(v: Value, cell: Cell, hazard: map<Tid, Ptr>): Q.Shared {
    Shared([Node(Nothing, At(1)), Node(cell, Null)], At(1), At(1), hazard,
           [0, 2], [0, 1], map[0 := 0, 1 := 1], 1, 1, [2], [v], {}, [Enq(2, v), Deq(2, v)])
  }

  function New(pc: Q.Pc): Q.Local { Local(pc, [], 1, 0) }

  /** In a pop that began with v queued. */
  function Holds(pc: Q.Pc): Q.Local { Local(pc, [], 3, 0) }

  function Pops(v: Value, pc: Q.Pc): Q.Local { Local(pc, [Enq(2, v)], 3, 0) }

  /** Threads 1 and 2 are registered. */
  function Moment1(v: Value): Heap {
    Scene(Init().sh.(hazard := map[1 := Null, 2 := Null]), New(Idle), New(Idle), Resting)
  }

  lemma Move1(v: Value)
    ensures C.Apply(C.Apply(Start(), OfQueue(Register(1))), OfQueue(Register(2))) == Moment1(v)
  {
  }

  /** Thread 2 begins to push v. */
  function Moment2(v: Value): Heap {
    Scene(Before(v), New(Idle), New(Push(At(1), v, LoadNext(At(0)))), Resting)
  }

  lemma Move2(v: Value)
    ensures C.Apply(C.Apply(Moment1(v), OfQueue(BeginPush(2, v))), Go(2)) == Moment2(v)
  {
  }

  /** Thread 2 has linked it. */
  function Moment3(v: Value): Heap {
    Scene(With(v, 0, map[1 := Null, 2 := Null]), New(Idle), New(Push(At(1), v, SwingTail(At(0)))), Resting)
  }

  lemma Move3(v: Value)
    ensures C.Apply(C.Apply(Moment2(v), Go(2)), Go(2)) == Moment3(v)
  {
  }

  /** Tail is swung, and a pass begins. */
  function Moment4(v: Value): Heap {
    Scene(With(v, 1, map[1 := Null, 2 := Null]), New(Idle), Local(Idle, [Enq(2, v)], 1, 0),
          Scanning({1, 2}, {}, Known({}, map[])))
  }

  lemma Move4(v: Value)
    ensures C.Apply(C.Apply(Moment3(v), Go(2)), StartPass) == Moment4(v)
  {
    assert [] + [Enq(2, v)] == [Enq(2, v)];
    assert C.Apply(Moment3(v), Go(2)).q.threads.Keys == {1, 2};
  }

  /** Its scan finds the slot of thread 1 empty, and thread 1 begins to pop. */
  function Moment5(v: Value): Heap {
    Scene(With(v, 1, map[1 := Null, 2 := Null]),
          Holds(Acquire(LoadHead)), Local(Idle, [Enq(2, v)], 1, 0), Scanning({2}, {}, Known({}, map[1 := {}])))
  }

  lemma Move5(v: Value)
    ensures C.Apply(C.Apply(Moment4(v), Scan(1)), OfQueue(BeginPop(1))) == Moment5(v)
  {
    assert {1, 2} - {1} == {2};
  }

  /** Thread 1 stores the dummy in its slot. */
  function Moment6(v: Value): Heap {
    Scene(With(v, 1, map[1 := At(0), 2 := Null]),
          Holds(Acquire(Validate(At(0)))), Local(Idle, [Enq(2, v)], 1, 0), Scanning({2}, {}, Known({}, map[1 := {}])))
  }

  lemma Move6(v: Value)
    ensures C.Apply(C.Apply(Moment5(v), Go(1)), Go(1)) == Moment6(v)
  {
  }

  /** Thread 1 has validated it, and thread 2 begins to pop. */
  function Moment7(v: Value): Heap {
    Scene(With(v, 1, map[1 := At(0), 2 := Null]),
          Holds(Look(At(0), TestNext)),
          Pops(v, Acquire(LoadHead)), Scanning({2}, {}, Known({}, map[1 := {}])))
  }

  lemma Move7(v: Value)
    ensures C.Apply(C.Apply(Moment6(v), Go(1)), OfQueue(BeginPop(2))) == Moment7(v)
  {
  }

  /** Thread 2 stores the dummy in its slot too. */
  function Moment8(v: Value): Heap {
    Scene(With(v, 1, map[1 := At(0), 2 := At(0)]),
          Holds(Look(At(0), TestNext)),
          Pops(v, Acquire(Validate(At(0)))), Scanning({2}, {}, Known({}, map[1 := {}])))
  }

  lemma Move8(v: Value)
    ensures C.Apply(C.Apply(Moment7(v), Go(2)), Go(2)) == Moment8(v)
  {
  }

  /** Thread 2 has found a successor. */
  function Moment9(v: Value): Heap {
    Scene(With(v, 1, map[1 := At(0), 2 := At(0)]),
          Holds(Look(At(0), TestNext)),
          Pops(v, Look(At(0), TestTail)), Scanning({2}, {}, Known({}, map[1 := {}])))
  }

  lemma Move9(v: Value)
    ensures C.Apply(C.Apply(Moment8(v), Go(2)), Go(2)) == Moment9(v)
  {
  }

  /** Thread 2 is about to move head. */
  function Moment10(v: Value): Heap {
    Scene(With(v, 1, map[1 := At(0), 2 := At(0)]),
          Holds(Look(At(0), TestNext)),
          Pops(v, Look(At(0), HeadCas(At(1)))), Scanning({2}, {}, Known({}, map[1 := {}])))
  }

  lemma Move10(v: Value)
    ensures C.Apply(C.Apply(Moment9(v), Go(2)), Go(2)) == Moment10(v)
  {
  }

  /** Thread 2 has moved head. */
  function Moment11(v: Value): Heap {
    Scene(After(v, Full(v), map[1 := At(0), 2 := At(0)]),
          Holds(Look(At(0), TestNext)),
          Pops(v, Take(At(0), MoveOut(At(1)))), Scanning({2}, {}, Known({}, map[1 := {}])))
  }

  lemma Move11(v: Value)
    ensures C.Apply(C.Apply(Moment10(v), Go(2)), Go(2)) == Moment11(v)
  {
  }

  /** Thread 2 has taken v and cleared its slot. */
  function Moment12(v: Value): Heap {
    Scene(After(v, MovedFrom, map[1 := At(0), 2 := Null]),
          Holds(Look(At(0), TestNext)),
          Pops(v, Take(At(0), Retire(v))), Scanning({2}, {}, Known({}, map[1 := {}])))
  }

  lemma Move12(v: Value)
    ensures C.Apply(C.Apply(Moment11(v), Go(2)), Go(2)) == Moment12(v)
  {
  }

  /** Thread 2 has retired the dummy. */
  function Moment13(v: Value): Heap {
    Heap(Q.State(After(v, MovedFrom, map[1 := At(0), 2 := Null]).(retired := {0}),
                 map[1 := Holds(Look(At(0), TestNext)), 2 := Local(Idle, [Enq(2, v), Deq(2, v)], 3, 0)]),
         map[1 := [], 2 := [0]], map[], Scanning({2}, {}, Known({}, map[1 := {}])), [], map[0 := Listed(2)])
  }

  lemma Move13(v: Value)
    ensures C.Apply(C.Apply(Moment12(v), RetireLoad(2)), RetireCas(2, false)) == Moment13(v)
  {
    assert C.Apply(Moment12(v), RetireLoad(2)).tops - {2} == map[];
    assert [Enq(2, v)] + [Deq(2, v)] == [Enq(2, v), Deq(2, v)] && [0] + [] == [0];
  }

  /** The scan is over, and the dummy detached. */
  function Moment14(v: Value): Heap {
    Heap(Q.State(After(v, MovedFrom, map[1 := At(0), 2 := Null]).(retired := {0}),
                 map[1 := Holds(Look(At(0), TestNext)), 2 := Local(Idle, [Enq(2, v), Deq(2, v)], 3, 0)]),
         map[1 := [], 2 := []], map[], Walking(2, [0], {1}, {}, Known({}, map[1 := {}, 2 := {0}])), [],
         map[0 := Detached])
  }

  lemma Move14(v: Value)
    ensures C.Apply(C.Apply(Moment13(v), Scan(2)), Detach(2)) == Moment14(v)
  {
    assert Moment13(v).q.threads.Keys == {1, 2} && {1, 2} - {2} == {1};
  }

  /** The run, up to the moment before the collector looks at the dummy. */
  function Path(v: Value): seq<C.Event> {
    []
    + [OfQueue(Register(1)), OfQueue(Register(2))]
    + [OfQueue(BeginPush(2, v)), Go(2)]
    + [Go(2), Go(2)]
    + [Go(2), StartPass]
    + [Scan(1), OfQueue(BeginPop(1))]
    + [Go(1), Go(1)]
    + [Go(1), OfQueue(BeginPop(2))]
    + [Go(2), Go(2)]
    + [Go(2), Go(2)]
    + [Go(2), Go(2)]
    + [Go(2), Go(2)]
    + [Go(2), Go(2)]
    + [RetireLoad(2), RetireCas(2, false)]
    + [Scan(2), Detach(2)]
  }

  lemma PathLeads(v: Value)
    ensures C.Run(Start(), Path(v)) == Moment14(v)
  {
    hide C.Apply, Start, Moment1, Moment2, Moment3, Moment4, Moment5, Moment6, Moment7,
         Moment8, Moment9, Moment10, Moment11, Moment12, Moment13, Moment14;
    var es: seq<C.Event> := [];
    Extend(es, Start(), OfQueue(Register(1)), OfQueue(Register(2)));
    Move1(v);
    es := es + [OfQueue(Register(1)), OfQueue(Register(2))];
    Extend(es, Moment1(v), OfQueue(BeginPush(2, v)), Go(2));
    Move2(v);
    es := es + [OfQueue(BeginPush(2, v)), Go(2)];
    Extend(es, Moment2(v), Go(2), Go(2));
    Move3(v);
    es := es + [Go(2), Go(2)];
    Extend(es, Moment3(v), Go(2), StartPass);
    Move4(v);
    es := es + [Go(2), StartPass];
    Extend(es, Moment4(v), Scan(1), OfQueue(BeginPop(1)));
    Move5(v);
    es := es + [Scan(1), OfQueue(BeginPop(1))];
    Extend(es, Moment5(v), Go(1), Go(1));
    Move6(v);
    es := es + [Go(1), Go(1)];
    Extend(es, Moment6(v), Go(1), OfQueue(BeginPop(2)));
    Move7(v);
    es := es + [Go(1), OfQueue(BeginPop(2))];
    Extend(es, Moment7(v), Go(2), Go(2));
    Move8(v);
    es := es + [Go(2), Go(2)];
    Extend(es, Moment8(v), Go(2), Go(2));
    Move9(v);
    es := es + [Go(2), Go(2)];
    Extend(es, Moment9(v), Go(2), Go(2));
    Move10(v);
    es := es + [Go(2), Go(2)];
    Extend(es, Moment10(v), Go(2), Go(2));
    Move11(v);
    es := es + [Go(2), Go(2)];
    Extend(es, Moment11(v), Go(2), Go(2));
    Move12(v);
    es := es + [Go(2), Go(2)];
    Extend(es, Moment12(v), RetireLoad(2), RetireCas(2, false));
    Move13(v);
    es := es + [RetireLoad(2), RetireCas(2, false)];
    Extend(es, Moment13(v), Scan(2), Detach(2));
    Move14(v);
    es := es + [Scan(2), Detach(2)];
    assert es == Path(v);
  }

  /** Thread 1 protects the dummy after the scan has looked at its slot, the dummy
      is retired before the scan ends, and the pass frees it. */
  lemma ALaterRetirementIsFreed(v: Value)
    ensures var r := C.Run(Start(), Path(v) + [Examine]);
      && 1 in r.q.threads && Held(r.q.threads[1].pc) == At(0)
      && 1 in r.q.sh.hazard && r.q.sh.hazard[1] == At(0) && r.freed == [0]
  {
    PathLeads(v);
    RunSplits(Start(), Path(v), [Examine]);
    hide Path;
    assert C.Run(Moment14(v), [Examine]) == C.Run(C.Apply(Moment14(v), Examine), [Examine][1..]);
  }
}
