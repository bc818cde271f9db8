/** That reclamation gets its work done: a Retire ends, and a pass of the collector
    ends and frees every retired node that no hazard slot names. */
module HazardProgress {
  import opened HazardCollector
  import opened LockFree
  import opened Sequences
  import opened Sums
  import Q = SimpleMsQueue

  // ----- the collector's round -----

  /** The collector is on its way through the threads that are there. */
  ghost predicate RoundInv(r: Heap) {
    && (Active(r.collector) ==> r.collector.todo <= r.q.threads.Keys)
    && (r.collector.Scanning? || r.collector.Detaching? ==> r.collector.todo != {})
    && (r.collector.Walking? || r.collector.Repushing? ==> r.collector.of !in r.collector.todo)
  }

  lemma ThreadsStay(s: Q.State, e: Q.Event)
    ensures s.threads.Keys <= Q.Apply(s, e).threads.Keys
  {
    hide Q.Act;
  }

  lemma QueueKeepsRound(r: Heap, e: Event)
    requires RoundInv(r) && (e.OfQueue? || e.RetireCas? || e.RetireLoad?)
    ensures RoundInv(Apply(r, e))
  {
    hide Q.Apply;
    match e
    case OfQueue(qe) => ThreadsStay(r.q, qe);
    case RetireCas(t, _) => ThreadsStay(r.q, Q.Step(t, false));
    case RetireLoad(_) =>
  }

  lemma CollectorKeepsRound(r: Heap, e: Event)
    requires RoundInv(r) && !e.OfQueue? && !e.RetireCas? && !e.RetireLoad?
    ensures RoundInv(Apply(r, e))
  {
    hide Q.Apply;
  }

  lemma {:induction false} RoundKept(r: Heap, es: seq<Event>)
    requires RoundInv(r)
    ensures RoundInv(Run(r, es))
    decreases |es|
  {
    hide RoundInv, Apply;
    if es != [] {
      if es[0].OfQueue? || es[0].RetireCas? || es[0].RetireLoad? {
        QueueKeepsRound(r, es[0]);
      } else {
        CollectorKeepsRound(r, es[0]);
      }
      RoundKept(Apply(r, es[0]), es[1..]);
    }
  }

  // ----- how far a pass has to go -----

  ghost function Costs(lists: map<Tid, seq<nat>>, ts: set<Tid>): map<Tid, nat> {
    map t | t in lists && t in ts :: 2 + 3 * |lists[t]|
  }

  ghost function PassWork(r: Heap): nat {
    match r.collector
    case Resting => 0
    case Scanning(todo, _, _) => |todo| + 1 + Sum(Costs(r.lists, r.q.threads.Keys))
    case Detaching(todo, _, _) => Sum(Costs(r.lists, todo))
    case Walking(_, chain, todo, _, _) => 1 + 3 * |chain| + Sum(Costs(r.lists, todo))
    case Repushing(top, of, chain, todo, _, _) =>
      3 * |chain| + Sum(Costs(r.lists, todo)) + if of in r.lists && Top(r.lists[of]) == top then 0 else 1
  }

  lemma CostsElsewhere(lists: map<Tid, seq<nat>>, ts: set<Tid>, t: Tid, list: seq<nat>)
    requires t !in ts
    ensures Costs(lists[t := list], ts) == Costs(lists, ts)
  {
  }

  lemma CostsWithout(lists: map<Tid, seq<nat>>, ts: set<Tid>, t: Tid)
    requires t in lists && t in ts
    ensures Sum(Costs(lists, ts)) == 2 + 3 * |lists[t]| + Sum(Costs(lists, ts - {t}))
  {
    SumTakes(Costs(lists, ts), t);
    assert Costs(lists, ts) - {t} == Costs(lists, ts - {t});
  }

  // ----- what a pass will free -----

  /** The node is named by the snapshot or by a slot that is still to be read. */
  ghost predicate WillBeKept(r: Heap, x: nat)
    requires Active(r.collector)
  {
    || x in r.collector.kept
    || (r.collector.Scanning? &&
        exists t :: t in r.collector.todo && t in r.q.sh.hazard && r.q.sh.hazard[t] == At(x))
  }

  /** The pass has still to come to the node. */
  ghost predicate IsAhead(r: Heap, x: nat)
    requires Active(r.collector)
  {
    && x in r.place
    && match r.place[x]
       case Freed => false
       case Detached => true
       case Listed(t) => r.collector.Scanning? || t in r.collector.todo
  }

  /** The node is free, or will be when the pass has ended if nobody else moves. */
  ghost predicate WillBeFree(r: Heap, x: nat) {
    || (x in r.place && r.place[x].Freed?)
    || (Active(r.collector) && IsAhead(r, x) && !WillBeKept(r, x))
  }

  predicate OfCollector(e: Event) { e.Scan? || e.Detach? || e.Examine? || e.Repush? }

  ghost predicate SameFates(r: Heap, r': Heap) { forall x :: WillBeFree(r', x) <==> WillBeFree(r, x) }

  /** One step of the pass by itself, from r to r'. */
  ghost predicate Goes(r: Heap, r': Heap) { PassWork(r') < PassWork(r) && r'.q == r.q && SameFates(r, r') }

  // what the invariant says where the collector is
  lemma AtCollector(r: Heap)
    requires HeapInv(r) && RoundInv(r) && Active(r.collector)
    ensures r.lists.Keys == r.q.threads.Keys && forall t :: t in r.collector.todo ==> t in r.lists
    ensures forall x :: x in Chain(r.collector) <==> x in r.place && r.place[x] == Detached
    ensures r.collector.Walking? || r.collector.Repushing? ==> r.collector.of in r.lists
    ensures r.collector.Repushing? ==> r.collector.chain != [] && r.collector.chain[0] in r.collector.kept
    ensures NoRepeats(Chain(r.collector))
  {
  }

  lemma ScanCosts(r: Heap, t: Tid)
    requires r.collector.Scanning? && t in r.collector.todo && t in r.q.sh.hazard
    ensures PassWork(ApplyScan(r, t)) < PassWork(r)
  {
    hide Costs;
    assert |r.collector.todo - {t}| == |r.collector.todo| - 1;
  }

  lemma ScanFates(r: Heap, t: Tid)
    requires r.collector.Scanning? && t in r.collector.todo && t in r.q.sh.hazard && r.lists.Keys == r.q.threads.Keys
    requires forall x :: x in r.place && r.place[x].Listed? ==> r.place[x].t in r.lists
    ensures SameFates(r, ApplyScan(r, t))
  {
    var r' := ApplyScan(r, t);
    forall x ensures WillBeFree(r', x) <==> WillBeFree(r, x) {
      ScanNames(r, t, x);
      hide ApplyScan, WillBeKept;
      ScanMoves(r, t);
    }
  }

  lemma ScanMoves(r: Heap, t: Tid)
    requires r.collector.Scanning? && t in r.collector.todo && t in r.q.sh.hazard
    ensures var r' := ApplyScan(r, t);
      && r'.place == r.place
      && (r'.collector.Scanning? || (r'.collector.Detaching? && r'.collector.todo == r.q.threads.Keys))
  {
  }

  lemma ScanNames(r: Heap, t: Tid, x: nat)
    requires r.collector.Scanning? && t in r.collector.todo && t in r.q.sh.hazard
    ensures var r' := ApplyScan(r, t); Active(r'.collector) && (WillBeKept(r', x) <==> WillBeKept(r, x))
  {
    var r' := ApplyScan(r, t);
    if WillBeKept(r, x) && x !in r.collector.kept && r.q.sh.hazard[t] != At(x) {
      var u :| u in r.collector.todo && u in r.q.sh.hazard && r.q.sh.hazard[u] == At(x);
      assert u != t && r'.collector.Scanning? && u in r'.collector.todo;
    }
  }

  lemma ScanGoes(r: Heap, t: Tid)
    requires HeapInv(r) && RoundInv(r) && r.collector.Scanning? && t in r.collector.todo
    ensures Goes(r, ApplyScan(r, t))
  {
    AtCollector(r);
    assert t in r.q.sh.hazard by { HeldIsInSlot(r.q, t); }
    assert forall x :: x in r.place && r.place[x].Listed? ==> r.place[x].t in r.lists;
    hide HeapInv, PassWork, SameFates;
    ScanCosts(r, t);
    ScanFates(r, t);
  }

  lemma DetachCosts(r: Heap, t: Tid)
    requires r.collector.Detaching? && t in r.collector.todo && t in r.lists
    ensures PassWork(ApplyDetach(r, t)) < PassWork(r)
  {
    CostsWithout(r.lists, r.collector.todo, t);
    CostsElsewhere(r.lists, r.collector.todo - {t}, t, []);
    hide Costs;
  }

  lemma DetachFates(r: Heap, t: Tid)
    requires r.collector.Detaching? && t in r.collector.todo && t in r.lists
    ensures SameFates(r, ApplyDetach(r, t))
  {
  }

  lemma DetachGoes(r: Heap, t: Tid)
    requires HeapInv(r) && RoundInv(r) && r.collector.Detaching? && t in r.collector.todo
    ensures Goes(r, ApplyDetach(r, t))
  {
    AtCollector(r);
    hide HeapInv, PassWork, SameFates;
    DetachCosts(r, t);
    DetachFates(r, t);
  }

  lemma ExamineCosts(r: Heap)
    requires r.collector.Walking?
    ensures PassWork(ApplyExamine(r)) < PassWork(r)
  {
    hide Costs;
  }

  lemma ExamineFates(r: Heap)
    requires r.collector.Walking? && r.collector.of in r.lists
    requires forall x :: x in r.collector.chain <==> x in r.place && r.place[x] == Detached
    ensures SameFates(r, ApplyExamine(r))
  {
    if r.collector.chain != [] { assert r.collector.chain[0] in r.collector.chain; }
  }

  lemma ExamineGoes(r: Heap)
    requires HeapInv(r) && RoundInv(r) && r.collector.Walking?
    ensures Goes(r, ApplyExamine(r))
  {
    AtCollector(r);
    hide HeapInv, PassWork, SameFates;
    ExamineCosts(r);
    ExamineFates(r);
  }

  lemma RepushCosts(r: Heap)
    requires r.collector.Repushing? && r.collector.chain != [] && r.collector.of in r.lists
    requires r.collector.of !in r.collector.todo
    ensures PassWork(ApplyRepush(r, false)) < PassWork(r)
  {
    CostsElsewhere(r.lists, r.collector.todo, r.collector.of, [r.collector.chain[0]] + r.lists[r.collector.of]);
    hide Costs;
  }

  lemma RepushFates(r: Heap)
    requires r.collector.Repushing? && r.collector.chain != [] && r.collector.of in r.lists
    requires r.collector.of !in r.collector.todo && r.collector.chain[0] in r.collector.kept
    requires forall x :: x in r.collector.chain <==> x in r.place && r.place[x] == Detached
    ensures SameFates(r, ApplyRepush(r, false))
  {
    assert r.collector.chain[0] in r.collector.chain;
  }

  lemma RepushGoes(r: Heap)
    requires HeapInv(r) && RoundInv(r) && r.collector.Repushing?
    ensures Goes(r, ApplyRepush(r, false))
  {
    AtCollector(r);
    hide HeapInv, PassWork, SameFates;
    RepushCosts(r);
    RepushFates(r);
  }

  lemma PassGoesOn(r: Heap) returns (e: Event)
    requires HeapInv(r) && RoundInv(r) && Active(r.collector)
    ensures OfCollector(e) && Goes(r, Apply(r, e))
  {
    hide HeapInv, Goes, ApplyScan, ApplyDetach, ApplyExamine, ApplyRepush;
    match r.collector
    case Scanning(todo, _, _) =>
      var t :| t in todo;
      e := Scan(t);
      ScanGoes(r, t);
    case Detaching(todo, _, _) =>
      var t :| t in todo;
      e := Detach(t);
      DetachGoes(r, t);
    case Walking(_, _, _, _, _) =>
      e := Examine;
      ExamineGoes(r);
    case Repushing(_, _, _, _, _, _) =>
      e := Repush(false);
      RepushGoes(r);
  }

  ghost predicate ByCollector(es: seq<Event>) { forall i :: 0 <= i < |es| ==> OfCollector(es[i]) }

  lemma {:induction false} PassEnds(r: Heap) returns (es: seq<Event>)
    requires HeapInv(r) && RoundInv(r)
    ensures ByCollector(es) && |es| <= PassWork(r)
    ensures HeapInv(Run(r, es)) && Run(r, es).collector.Resting? && Run(r, es).q == r.q
    ensures forall x :: WillBeFree(Run(r, es), x) <==> WillBeFree(r, x)
    decreases PassWork(r)
  {
    hide HeapInv, RoundInv, Apply, PassWork, WillBeFree;
    es := [];
    if Active(r.collector) {
      var e := PassGoesOn(r);
      HeapKeeps(r, e);
      CollectorKeepsRound(r, e);
      var later := PassEnds(Apply(r, e));
      es := [e] + later;
      assert es[1..] == later;
    }
  }

  // ----- the results -----

  lemma {:induction false} RunSplits(r: Heap, es: seq<Event>, fs: seq<Event>)
    ensures Run(r, es + fs) == Run(Run(r, es), fs)
    decreases |es|
  {
    hide Apply;
    if es == [] {
      assert es + fs == fs;
    } else {
      assert (es + fs)[1..] == es[1..] + fs;
      RunSplits(Apply(r, es[0]), es[1..], fs);
    }
  }

  /** The pass that is under way has ended, and nobody else moved. */
  ghost predicate EndsAfter(es: seq<Event>, fs: seq<Event>) {
    var r, r' := Run(Start(), es), Run(Start(), es + fs);
    && ByCollector(fs) && |fs| <= PassWork(r) && r'.collector.Resting? && r'.q == r.q
    && (Active(r.collector) ==>
          forall x :: x in r'.freed <==> x in r.freed || (IsAhead(r, x) && !WillBeKept(r, x)))
  }

  lemma RoundReachable(es: seq<Event>)
    ensures HeapInv(Run(Start(), es)) && RoundInv(Run(Start(), es))
  {
    StartKeeps();
    HeapRunKeeps(Start(), es);
    RoundKept(Start(), es);
  }

  lemma FreedIsPlaced(r: Heap, x: nat)
    requires HeapInv(r)
    ensures x in r.freed <==> x in r.place && r.place[x].Freed?
  {
  }

  /** From every reachable state a pass that is under way ends within the steps it has
      left; it has then freed, of what it had still to come to, exactly the nodes
      that neither its snapshot nor a slot it had still to read names. */
  lemma PassComesToItsEnd(es: seq<Event>)
    ensures exists fs :: EndsAfter(es, fs)
  {
    RoundReachable(es);
    var r := Run(Start(), es);
    var fs := PassEnds(r);
    RunSplits(Start(), es, fs);
    var r' := Run(Start(), es + fs);
    hide Run, HeapInv, PassWork;
    forall x ensures x in r'.freed <==> WillBeFree(r, x) { FreedIsPlaced(r', x); }
    forall x ensures x in r.freed <==> x in r.place && r.place[x].Freed? { FreedIsPlaced(r, x); }
    assert EndsAfter(es, fs);
  }

  ghost predicate Named(q: Q.State, x: nat) {
    exists t :: t in q.threads && t in q.sh.hazard && q.sh.hazard[t] == At(x)
  }

  ghost predicate FreesAll(es: seq<Event>, fs: seq<Event>) {
    var r, r' := Run(Start(), es), Run(Start(), es + fs);
    && r'.collector.Resting? && r'.q == r.q
    && forall x :: x in r'.freed <==> x in r.freed || (x in r.q.sh.retired && !Named(r.q, x))
  }

  /** So a whole pass with nobody else moving frees every retired node that no hazard
      slot names, and no other. */
  lemma WholePass(es: seq<Event>)
    requires var r := Run(Start(), es); r.collector.Resting? && r.q.threads != map[]
    ensures exists fs :: FreesAll(es, fs)
  {
    hide Run, HeapInv, PassWork, ApplyStartPass, WillBeKept, IsAhead, Named;
    RoundReachable(es);
    PassComesToItsEnd(es + [StartPass]);
    var fs :| EndsAfter(es + [StartPass], fs);
    BeginsWithStart(es, fs);
    var r := Run(Start(), es);
    var r' := Run(Start(), es + ([StartPass] + fs));
    FateAtStart(r, 0);
    forall x ensures x in r'.freed <==> x in r.freed || (x in r.q.sh.retired && !Named(r.q, x)) { FateAtStart(r, x); }
    assert FreesAll(es, [StartPass] + fs);
  }

  lemma BeginsWithStart(es: seq<Event>, fs: seq<Event>)
    ensures Run(Start(), es + [StartPass]) == Apply(Run(Start(), es), StartPass)
    ensures es + [StartPass] + fs == es + ([StartPass] + fs)
  {
    hide Apply;
    RunSplits(Start(), es, [StartPass]);
    assert [StartPass][1..] == [];
  }

  /** What the start of a pass means for x. */
  ghost predicate Fated(r: Heap, x: nat) {
    var r' := Apply(r, StartPass);
    && Active(r'.collector) && r'.freed == r.freed && r'.q == r.q
    && (x in r.freed || (IsAhead(r', x) && !WillBeKept(r', x)) <==>
          x in r.freed || (x in r.q.sh.retired && !Named(r.q, x)))
  }

  lemma FateAtStart(r: Heap, x: nat)
    requires HeapInv(r) && r.collector.Resting? && r.q.threads != map[]
    ensures Fated(r, x)
  {
    FreedIsPlaced(r, x);
    hide Q.Inv, Q.StrangersInv, PassInv, Q.Apply;
  }

  // ----- Retire -----

  /** Retire's loop ends as soon as nobody comes between its load and its CAS: the
      record is then on top of its thread's list, and the thread is through. */
  lemma RetireEnds(es: seq<Event>, t: Tid)
    requires Retiring(Run(Start(), es).q, t)
    ensures var r := Run(Start(), es);
      var r', x := Apply(Apply(r, RetireLoad(t)), RetireCas(t, false)), r.q.threads[t].pc.h.n;
      && t in r.lists && t in r'.lists && r'.lists[t] == [x] + r.lists[t]
      && t in r'.q.threads && r'.q.threads[t].pc.Idle? && x in r'.q.sh.retired && x !in r.q.sh.retired
  {
    hide Run;
    RoundReachable(es);
    var r := Run(Start(), es);
    hide Q.Inv, Q.StrangersInv, PassInv, ListsInv, Exactly, Q.Apply;
    RetiredBy(r.q, Q.Step(t, false));
    LastStep(r.q, t);
  }

  lemma LastStep(s: Q.State, t: Tid)
    requires Retiring(s, t)
    ensures t in Q.Apply(s, Q.Step(t, false)).threads && Q.Apply(s, Q.Step(t, false)).threads[t].pc.Idle?
  {
  }
}
