/** Reclamation for the queue of SimpleMsQueue: each thread's list of retired
    records, Mutator::Retire, and the collector of hazard_manager.cpp, running
    against the queue machine one atomic access at a time. */
module HazardCollector {
  import opened LockFree
  import opened Q = SimpleMsQueue
  import opened Sequences

  /** History of a pass: what had been retired when it began, and when it read
      each thread's hazard slot. */
  datatype Known = Known(early: set<nat>, seen: map<Tid, set<nat>>)

  /** The collector thread. `todo` are the threads it has still to visit and
      `kept` is its snapshot of the hazard slots. */
  datatype Collector =
    | Resting
    | Scanning(todo: set<Tid>, kept: set<nat>, known: Known)
    | Detaching(todo: set<Tid>, kept: set<nat>, known: Known)
    | Walking(of: Tid, chain: seq<nat>, todo: set<Tid>, kept: set<nat>, known: Known)
    | Repushing(top: Ptr, of: Tid, chain: seq<nat>, todo: set<Tid>, kept: set<nat>, known: Known)

  datatype Place = Listed(t: Tid) | Detached | Freed

  datatype Heap = Heap(
    q: Q.State,
    lists: map<Tid, seq<nat>>,  // retired_ptrs of each thread, top first
    tops: map<Tid, Ptr>,        // the `next` a Retire in progress has prepared
    collector: Collector,
    freed: seq<nat>,
    place: map<nat, Place>)     // history: where each retired node went

  datatype Event =
    | OfQueue(e: Q.Event)
    | RetireLoad(t: Tid)
    | RetireCas(t: Tid, weakFails: bool)
    | StartPass
    | Scan(t: Tid)
    | Detach(t: Tid)
    | Examine
    | Repush(weakFails: bool)

  function Start(): Heap { Heap(Q.Init(), map[], map[], Resting, [], map[]) }

  function Top(list: seq<nat>): Ptr { if list == [] then Null else At(list[0]) }

  predicate Retiring(s: Q.State, t: Tid) {
    t in s.threads && s.threads[t].pc.Take? && s.threads[t].pc.take.Retire? && s.threads[t].pc.h.At?
  }

  /** Which queue events may happen now: Retire has its own steps below, and
      thread_lock keeps new threads out while a pass runs. */
  predicate Enabled(r: Heap, e: Q.Event) {
    && (e.Step? ==> !Retiring(r.q, e.t))
    && (e.Register? ==> r.collector.Resting?)
  }

  function Active(c: Collector): bool { !c.Resting? }

  function Chain(c: Collector): seq<nat> { if c.Walking? || c.Repushing? then c.chain else [] }

  function ApplyQueue(r: Heap, e: Q.Event): Heap {
    if !Enabled(r, e) then r
    else
      var r' := r.(q := Q.Apply(r.q, e));
      if e.Register? && e.t !in r.lists then r'.(lists := r.lists[e.t := []]) else r'
  }

  function ApplyRetire(r: Heap, t: Tid, weakFails: bool): Heap {
    if !Retiring(r.q, t) || t !in r.lists || t !in r.tops then r
    else if Top(r.lists[t]) == r.tops[t] && !weakFails then
      var x := r.q.threads[t].pc.h.n;
      r.(q := Q.Apply(r.q, Step(t, false)), lists := r.lists[t := [x] + r.lists[t]], tops := r.tops - {t},
         place := r.place[x := Listed(t)])
    else r.(tops := r.tops[t := Top(r.lists[t])])
  }

  function AfterThread(r: Heap, c: Collector): Collector
    requires c.Walking?
  {
    if c.todo == {} then Resting else Detaching(c.todo, c.kept, c.known)
  }

  function ApplyStartPass(r: Heap): Heap {
    if r.collector.Resting? && r.q.threads != map[] then
      r.(collector := Scanning(r.q.threads.Keys, {}, Known(r.q.sh.retired, map[])))
    else r
  }

  function ApplyScan(r: Heap, t: Tid): Heap {
    if r.collector.Scanning? && t in r.collector.todo && t in r.q.sh.hazard then
      var Scanning(todo, kept, known) := r.collector;
      var kept' := if r.q.sh.hazard[t].At? then kept + {r.q.sh.hazard[t].n} else kept;
      var known' := known.(seen := known.seen[t := r.q.sh.retired]);
      r.(collector :=
           if todo == {t} then Detaching(r.q.threads.Keys, kept', known') else Scanning(todo - {t}, kept', known'))
    else r
  }

  function ApplyDetach(r: Heap, t: Tid): Heap {
    if r.collector.Detaching? && t in r.collector.todo && t in r.lists then
      var Detaching(todo, kept, known) := r.collector;
      r.(collector := Walking(t, r.lists[t], todo - {t}, kept, known), lists := r.lists[t := []],
         place := map x | x in r.place :: if r.place[x] == Listed(t) then Detached else r.place[x])
    else r
  }

  function ApplyExamine(r: Heap): Heap {
    if r.collector.Walking? then
      var Walking(of, chain, todo, kept, known) := r.collector;
      if chain == [] then r.(collector := AfterThread(r, r.collector))
      else if chain[0] in kept && of in r.lists then
        r.(collector := Repushing(Top(r.lists[of]), of, chain, todo, kept, known))
      else
        r.(collector := Walking(of, chain[1..], todo, kept, known), freed := r.freed + [chain[0]],
           place := r.place[chain[0] := Freed])
    else r
  }

  function ApplyRepush(r: Heap, weakFails: bool): Heap {
    if r.collector.Repushing? && r.collector.chain != [] && r.collector.of in r.lists then
      var Repushing(top, of, chain, todo, kept, known) := r.collector;
      if Top(r.lists[of]) == top && !weakFails then
        r.(collector := Walking(of, chain[1..], todo, kept, known), lists := r.lists[of := [chain[0]] + r.lists[of]],
           place := r.place[chain[0] := Listed(of)])
      else r.(collector := Repushing(Top(r.lists[of]), of, chain, todo, kept, known))
    else r
  }

  function Apply(r: Heap, e: Event): Heap {
    match e
    case OfQueue(qe) => ApplyQueue(r, qe)
    case RetireLoad(t) =>
      if Retiring(r.q, t) && t in r.lists then r.(tops := r.tops[t := Top(r.lists[t])]) else r
    case RetireCas(t, w) => ApplyRetire(r, t, w)
    case StartPass => ApplyStartPass(r)
    case Scan(t) => ApplyScan(r, t)
    case Detach(t) => ApplyDetach(r, t)
    case Examine => ApplyExamine(r)
    case Repush(w) => ApplyRepush(r, w)
  }

  function Run(r: Heap, es: seq<Event>): Heap
    decreases |es|
  {
    if es == [] then r else Run(Apply(r, es[0]), es[1..])
  }

  // ----- conservation -----

  /** The lists hold, without repeats, exactly what `place` says they hold. */
  ghost predicate ListsInv(lists: map<Tid, seq<nat>>, place: map<nat, Place>) {
    && (forall t :: t in lists ==> NoRepeats(lists[t]))
    && (forall t, x {:trigger x in lists[t]} :: t in lists && x in lists[t] ==> x in place && place[x] == Listed(t))
    && (forall x {:trigger place[x]} :: x in place && place[x].Listed? ==>
          place[x].t in lists && x in lists[place[x].t])
  }

  /** The sequence holds each node in the given place once, and nothing else. */
  ghost predicate Exactly(s: seq<nat>, place: map<nat, Place>, p: Place) {
    NoRepeats(s) && forall x :: x in s <==> x in place && place[x] == p
  }

  /** Each retired node is in exactly one place, once. */
  ghost predicate PlacesInv(r: Heap) {
    && r.lists.Keys == r.q.threads.Keys
    && r.place.Keys == r.q.sh.retired
    && ListsInv(r.lists, r.place)
    && Exactly(Chain(r.collector), r.place, Detached)
    && Exactly(r.freed, r.place, Freed)
    && (r.collector.Walking? || r.collector.Repushing? ==> r.collector.of in r.lists)
    && (r.collector.Repushing? ==> r.collector.chain != [] && r.collector.chain[0] in r.collector.kept)
  }

  /** What a pass knows: a node that was retired when it read a thread's slot, and
      that the thread holds, is in the snapshot. */
  ghost predicate PassInv(r: Heap) {
    Active(r.collector) ==>
      && (forall t :: t in r.collector.known.seen ==>
            r.collector.known.early <= r.collector.known.seen[t] <= r.q.sh.retired)
      && r.collector.known.early <= r.q.sh.retired
      && (forall t :: t in r.q.threads ==> Covered(r, t))
  }

  ghost predicate Covered(r: Heap, t: Tid)
    requires Active(r.collector) && t in r.q.threads
  {
    var p := Held(r.q.threads[t].pc);
    if t in r.collector.known.seen then p.At? && p.n in r.collector.known.seen[t] ==> p.n in r.collector.kept
    else r.collector.Scanning? && t in r.collector.todo
  }

  ghost predicate HeapInv(r: Heap) {
    && Q.Inv(r.q)
    && Q.StrangersInv(r.q)
    && PlacesInv(r)
    && PassInv(r)
  }

  // ----- what the queue machine contributes -----

  /** Only a retire step retires, and it retires a node not yet retired. */
  lemma RetiredBy(s: Q.State, e: Q.Event)
    requires Q.Inv(s) && Q.StrangersInv(s)
    ensures e.Step? && Retiring(s, e.t) ==>
              s.threads[e.t].pc.h.n !in s.sh.retired
              && Q.Apply(s, e).sh.retired == s.sh.retired + {s.threads[e.t].pc.h.n}
    ensures !(e.Step? && Retiring(s, e.t)) ==> Q.Apply(s, e).sh.retired == s.sh.retired
    ensures Q.Apply(s, e).threads.Keys == if e.Register? then s.threads.Keys + {e.t} else s.threads.Keys
  {
    hide Q.SharedInv, Q.LocalInv, Q.StrangersInv, Q.Act;
    if e.Step? && e.t in s.threads { ActRetires(s.sh, e.t, s.threads[e.t], e.weakFails); }
  }

  lemma ActRetires(sh: Q.Shared, t: Tid, l: Q.Local, w: bool)
    requires Q.LocalInv(sh, t, l)
    ensures var sh' := Q.Act(sh, t, l, w).0;
            if l.pc.Take? && l.pc.take.Retire? && l.pc.h.At? then
              l.pc.h.n !in sh.retired && sh'.retired == sh.retired + {l.pc.h.n}
            else sh'.retired == sh.retired
  {
    hide Of, Q.PushInv, Q.LookInv;
  }

  /** Nobody comes to hold a retired node: Acquire returns only what it saw in
      head, and a retired node is behind head for good. */
  lemma NoNewHold(s: Q.State, e: Q.Event, t: Tid)
    requires Q.Inv(s) && t in Q.Apply(s, e).threads
    requires var p := Held(Q.Apply(s, e).threads[t].pc); p.At? && p.n in s.sh.retired
    ensures t in s.threads && Held(s.threads[t].pc) == Held(Q.Apply(s, e).threads[t].pc)
  {
    if t in s.threads && e.t == t && e.Step? {
      assert LocalInv(s.sh, t, s.threads[t]);
      hide Q.LocalInv, Q.SharedInv, Q.Act;
      StepHold(s.sh, t, s.threads[t], e.weakFails);
    }
  }

  /** A thread comes to hold only what it sees in head. */
  lemma StepHold(sh: Q.Shared, t: Tid, l: Q.Local, w: bool)
    requires Q.SharedInv(sh)
    requires var p := Held(Q.Act(sh, t, l, w).1.pc); p.At? && p.n in sh.retired
    ensures Held(l.pc) == Held(Q.Act(sh, t, l, w).1.pc)
  {
    EndsLinked(sh);
    assert forall x :: x in sh.retired ==> sh.rank[x] < sh.hpos;
    hide Q.ChainInv, Q.EndsInv, Q.ContentInv;
  }

  /** What a thread holds is in its hazard slot. */
  lemma HeldIsInSlot(s: Q.State, t: Tid)
    requires Q.Inv(s) && t in s.threads
    ensures t in s.sh.hazard
    ensures Held(s.threads[t].pc) != Null ==> s.sh.hazard[t] == Held(s.threads[t].pc)
  {
    assert LocalInv(s.sh, t, s.threads[t]);
  }

  // ----- every step keeps the invariant -----

  /** Putting x, which is on no list, on top of t's list. */
  lemma OnTop(lists: map<Tid, seq<nat>>, place: map<nat, Place>, t: Tid, x: nat)
    requires ListsInv(lists, place) && t in lists && (x in place ==> !place[x].Listed?)
    ensures ListsInv(lists[t := [x] + lists[t]], place[x := Listed(t)])
  {
    var list := [x] + lists[t];
    assert forall y :: y in list <==> y == x || y in lists[t];
    assert x !in lists[t];
  }

  /** The first node of a sequence leaves for a different place. */
  lemma FirstOut(s: seq<nat>, place: map<nat, Place>, p: Place, q: Place)
    requires Exactly(s, place, p) && s != [] && p != q
    ensures s[0] in place && place[s[0]] == p && Exactly(s[1..], place[s[0] := q], p)
  {
    var rest, place' := s[1..], place[s[0] := q];
    assert s == [s[0]] + rest;
    assert s[0] in s;
    forall i, j | 0 <= i < j < |rest| ensures rest[i] != rest[j] { assert s[i + 1] != s[j + 1]; }
    forall x ensures x in rest <==> x in place' && place'[x] == p {
      if x in rest {
        var i :| 0 <= i < |rest| && rest[i] == x;
        assert s[i + 1] == x && x in s;
      }
      if x in place' && place'[x] == p { assert x in s; }
    }
  }

  /** A node that was elsewhere arrives at the end of a sequence. */
  lemma LastIn(s: seq<nat>, place: map<nat, Place>, p: Place, x: nat)
    requires Exactly(s, place, p) && (x in place ==> place[x] != p)
    ensures Exactly(s + [x], place[x := p], p)
  {
  }

  lemma Elsewhere(s: seq<nat>, place: map<nat, Place>, p: Place, x: nat, q: Place)
    requires Exactly(s, place, p) && (x in place ==> place[x] != p) && q != p
    ensures Exactly(s, place[x := q], p)
  {
  }

  lemma OffLists(lists: map<Tid, seq<nat>>, place: map<nat, Place>, x: nat, q: Place)
    requires ListsInv(lists, place) && x in place && !place[x].Listed? && !q.Listed?
    ensures ListsInv(lists, place[x := q])
  {
  }

  /** Once the scan is over, walking and repushing lose nothing of it. */
  lemma SameCover(r: Heap, r': Heap)
    requires PassInv(r) && r'.q == r.q && Active(r.collector) && !r.collector.Scanning?
    requires Active(r'.collector) ==> r'.collector.kept == r.collector.kept && r'.collector.known == r.collector.known
    ensures PassInv(r')
  {
    if Active(r'.collector) {
      forall t | t in r'.q.threads ensures Covered(r', t) { assert Covered(r, t); }
    }
  }

  /** All that a queue step from s by e means to the collector. */
  lemma QueueStep(s: Q.State, e: Q.Event)
    requires Q.Inv(s) && Q.StrangersInv(s)
    ensures var s' := Q.Apply(s, e);
            && Q.Inv(s') && Q.StrangersInv(s')
            && (e.Step? && Retiring(s, e.t) ==>
                  s.threads[e.t].pc.h.n !in s.sh.retired && s'.sh.retired == s.sh.retired + {s.threads[e.t].pc.h.n})
            && (!(e.Step? && Retiring(s, e.t)) ==> s'.sh.retired == s.sh.retired)
            && s'.threads.Keys == (if e.Register? then s.threads.Keys + {e.t} else s.threads.Keys)
            && (forall t ::
                  t in s'.threads && Held(s'.threads[t].pc).At? && Held(s'.threads[t].pc).n in s.sh.retired ==>
                  t in s.threads && Held(s.threads[t].pc) == Held(s'.threads[t].pc))
  {
    hide Q.Inv, Q.StrangersInv, Q.Apply;
    ApplyKeeps(s, e);
    RetiredBy(s, e);
    var s' := Q.Apply(s, e);
    forall t | t in s'.threads && Held(s'.threads[t].pc).At? && Held(s'.threads[t].pc).n in s.sh.retired
      ensures t in s.threads && Held(s.threads[t].pc) == Held(s'.threads[t].pc)
    {
      NoNewHold(s, e, t);
    }
  }

  lemma QueueKeeps(r: Heap, e: Q.Event)
    requires HeapInv(r)
    ensures HeapInv(ApplyQueue(r, e))
  {
    hide Q.Inv, Q.StrangersInv, Q.Apply, Held;
    if Enabled(r, e) { QueueStep(r.q, e); }
  }

  lemma RetireKeeps(r: Heap, t: Tid, weakFails: bool)
    requires HeapInv(r)
    ensures HeapInv(ApplyRetire(r, t, weakFails))
  {
    hide Q.Inv, Q.StrangersInv, Q.Apply, Held, Exactly, ListsInv;
    if Retiring(r.q, t) {
      QueueStep(r.q, Step(t, false));
      var x := r.q.threads[t].pc.h.n;
      if t in r.lists { OnTop(r.lists, r.place, t, x); }
      Elsewhere(Chain(r.collector), r.place, Detached, x, Listed(t));
      Elsewhere(r.freed, r.place, Freed, x, Listed(t));
    }
  }

  lemma StartPassKeeps(r: Heap)
    requires HeapInv(r)
    ensures HeapInv(ApplyStartPass(r))
  {
    hide Q.Inv, Q.StrangersInv, Held, Exactly, ListsInv;
  }

  lemma ScanKeeps(r: Heap, t: Tid)
    requires HeapInv(r)
    ensures HeapInv(ApplyScan(r, t))
  {
    hide Q.Inv, Q.StrangersInv, Held, Exactly, ListsInv;
    var r' := ApplyScan(r, t);
    if r' != r {
      if t in r.q.threads { HeldIsInSlot(r.q, t); }
      forall u | u in r'.q.threads ensures Covered(r', u) { assert Covered(r, u); }
    }
  }

  lemma DetachKeeps(r: Heap, t: Tid)
    requires HeapInv(r)
    ensures HeapInv(ApplyDetach(r, t))
  {
    hide Q.Inv, Q.StrangersInv, Held, Covered;
    var r' := ApplyDetach(r, t);
    if r' != r { SameCover(r, r'); }
  }

  lemma ExamineKeeps(r: Heap)
    requires HeapInv(r)
    ensures HeapInv(ApplyExamine(r))
  {
    hide Q.Inv, Q.StrangersInv, Held, Exactly, ListsInv, Covered;
    var r' := ApplyExamine(r);
    if r'.freed != r.freed {
      var chain := r.collector.chain;
      FirstOut(chain, r.place, Detached, Freed);
      LastIn(r.freed, r.place, Freed, chain[0]);
      OffLists(r.lists, r.place, chain[0], Freed);
    }
    if r' != r { SameCover(r, r'); }
  }

  lemma RepushKeeps(r: Heap, weakFails: bool)
    requires HeapInv(r)
    ensures HeapInv(ApplyRepush(r, weakFails))
  {
    hide Q.Inv, Q.StrangersInv, Held, Exactly, ListsInv, Covered;
    var r' := ApplyRepush(r, weakFails);
    if r.collector.Repushing? {
      var chain, of := r.collector.chain, r.collector.of;
      FirstOut(chain, r.place, Detached, Listed(of));
      OnTop(r.lists, r.place, of, chain[0]);
      Elsewhere(r.freed, r.place, Freed, chain[0], Listed(of));
    }
    if r' != r { SameCover(r, r'); }
  }

  lemma HeapKeeps(r: Heap, e: Event)
    requires HeapInv(r)
    ensures HeapInv(Apply(r, e))
  {
    hide Q.Inv, Q.StrangersInv, ApplyQueue, ApplyRetire, ApplyStartPass, ApplyScan, ApplyDetach, ApplyExamine,
        ApplyRepush;
    match e
    case OfQueue(qe) => QueueKeeps(r, qe);
    case RetireCas(t, w) => RetireKeeps(r, t, w);
    case RetireLoad(t) =>
    case StartPass => StartPassKeeps(r);
    case Scan(t) => ScanKeeps(r, t);
    case Detach(t) => DetachKeeps(r, t);
    case Examine => ExamineKeeps(r);
    case Repush(w) => RepushKeeps(r, w);
  }

  lemma {:induction false} HeapRunKeeps(r: Heap, es: seq<Event>)
    requires HeapInv(r)
    ensures HeapInv(Run(r, es))
    decreases |es|
  {
    hide HeapInv, Apply;
    if es != [] {
      HeapKeeps(r, es[0]);
      HeapRunKeeps(Apply(r, es[0]), es[1..]);
    }
  }

  lemma StartKeeps()
    ensures HeapInv(Start())
  {
    InitKeeps();
  }

  // ----- the results -----

  /** What hazard pointers are for: when a pass frees a node, it has read every
      thread's slot, and no thread holds the node whose slot was read after the
      node had been retired. */
  lemma FreesNothingHeldWhenRead(es: seq<Event>, e: Event, x: nat, t: Tid)
    requires var r := Run(Start(), es); Apply(r, e).freed == r.freed + [x] && t in r.q.threads
    ensures var r := Run(Start(), es);
            && Active(r.collector) && t in r.collector.known.seen
            && (x in r.collector.known.seen[t] ==> Held(r.q.threads[t].pc) != At(x))
  {
    StartKeeps();
    HeapRunKeeps(Start(), es);
    hide Q.Inv, Q.StrangersInv, PlacesInv, Q.Apply, Run;
    var r := Run(Start(), es);
    FreesOnlyUnkept(r, e, x);
    assert Covered(r, t);
  }

  /** So a node that had been retired when the pass began, and that the pass frees,
      is held by no thread. */
  lemma PassFreesNothingHeld(es: seq<Event>, e: Event, x: nat, t: Tid)
    requires var r := Run(Start(), es);
             && Apply(r, e).freed == r.freed + [x] && t in r.q.threads
             && Active(r.collector) && x in r.collector.known.early
    ensures Held(Run(Start(), es).q.threads[t].pc) != At(x)
  {
    FreesNothingHeldWhenRead(es, e, x, t);
    StartKeeps();
    HeapRunKeeps(Start(), es);
    hide Q.Inv, Q.StrangersInv, PlacesInv, Q.Apply, Run, Covered;
  }

  /** Outside TryPop, and when TryPop has released its slot. */
  predicate Unprotecting(pc: Q.Pc) { pc.Idle? || pc.Push? || (pc.Take? && pc.take.Retire?) }

  ghost predicate SlotsInv(s: Q.State) {
    forall t :: t in s.threads ==> t in s.sh.hazard && (Unprotecting(s.threads[t].pc) ==> s.sh.hazard[t] == Null)
  }

  /** A step writes no slot but the thread's own, and clears it on its way out. */
  lemma ActSlots(sh: Q.Shared, t: Tid, l: Q.Local, w: bool)
    requires t in sh.hazard && (Unprotecting(l.pc) ==> sh.hazard[t] == Null)
    ensures var (sh', l') := Q.Act(sh, t, l, w);
            && sh'.hazard == sh.hazard[t := sh'.hazard[t]]
            && (Unprotecting(l'.pc) ==> sh'.hazard[t] == Null)
  {
    match l.pc
    case Push(_, _, _) => PushSlots(sh, t, l, w);
    case _ => hide Q.ActPush;
  }

  lemma PushSlots(sh: Q.Shared, t: Tid, l: Q.Local, w: bool)
    requires l.pc.Push?
    ensures Q.ActPush(sh, t, l, w).0.hazard == sh.hazard
    ensures Unprotecting(Q.ActPush(sh, t, l, w).1.pc) ==> Unprotecting(l.pc)
  {
  }

  lemma BeginSlots(s: Q.State, e: Q.Event)
    requires SlotsInv(s) && !e.Step?
    ensures SlotsInv(Q.Apply(s, e))
  {
  }

  lemma QueueKeepsSlots(s: Q.State, e: Q.Event)
    requires SlotsInv(s)
    ensures SlotsInv(Q.Apply(s, e))
  {
    hide Q.Act, Unprotecting;
    match e
    case Step(t, w) => if t in s.threads { ActSlots(s.sh, t, s.threads[t], w); }
    case _ => BeginSlots(s, e);
  }

  lemma {:induction false} SlotsKept(r: Heap, es: seq<Event>)
    requires SlotsInv(r.q)
    ensures SlotsInv(Run(r, es).q)
    decreases |es|
  {
    hide SlotsInv, Q.Apply;
    if es != [] {
      match es[0] {
        case OfQueue(e) => QueueKeepsSlots(r.q, e);
        case RetireCas(t, _) => QueueKeepsSlots(r.q, Step(t, false));
        case _ =>
      }
      SlotsKept(Apply(r, es[0]), es[1..]);
    }
  }

  /** A thread that is in no TryPop, or has released its slot, protects nothing:
      when all have returned every slot is null, as the destructor asserts. */
  lemma SlotIsNullOutside(es: seq<Event>, t: Tid)
    requires var q := Run(Start(), es).q; t in q.threads && Unprotecting(q.threads[t].pc)
    ensures var q := Run(Start(), es).q; t in q.sh.hazard && q.sh.hazard[t] == Null
  {
    SlotsKept(Start(), es);
    hide Run, Unprotecting;
  }

  /** A node is freed only by the collector examining it off its snapshot. */
  lemma FreesOnlyUnkept(r: Heap, e: Event, x: nat)
    requires PlacesInv(r) && Apply(r, e).freed == r.freed + [x]
    ensures e.Examine? && r.collector.Walking? && x !in r.collector.kept
    ensures r.collector.chain != [] && r.collector.chain[0] == x
  {
    hide Q.Apply;
    assert |r.freed + [x]| == |r.freed| + 1;
    assert (r.freed + [x])[|r.freed|] == x;
  }

  /** Every retired node is in exactly one place and there once: on one thread's
      list, in the chain the collector detached, or freed. */
  lemma RetiredExactlyOnce(es: seq<Event>)
    ensures var r := Run(Start(), es);
            && (forall t, x :: t in r.lists && x in r.lists[t] ==>
                  x in r.q.sh.retired && x !in Chain(r.collector) && x !in r.freed
                  && forall u :: u in r.lists && x in r.lists[u] ==> u == t)
            && (forall x :: x in Chain(r.collector) ==> x in r.q.sh.retired && x !in r.freed)
            && (forall x :: x in r.q.sh.retired ==>
                  x in Chain(r.collector) || x in r.freed || exists t :: t in r.lists && x in r.lists[t])
            && (forall t :: t in r.lists ==> NoRepeats(r.lists[t]))
            && NoRepeats(Chain(r.collector)) && NoRepeats(r.freed)
            && (forall x :: x in r.freed ==> x in r.q.sh.retired)
  {
    hide Q.Inv, Q.StrangersInv, PassInv, NoRepeats, Run, Q.Run, Chain;
    StartKeeps();
    HeapRunKeeps(Start(), es);
    var r := Run(Start(), es);
    forall x | x in r.q.sh.retired
      ensures x in Chain(r.collector) || x in r.freed || exists t :: t in r.lists && x in r.lists[t]
    {
      assert x in r.place;
      match r.place[x]
      case Listed(t) => assert x in r.lists[t];
      case _ =>
    }
  }

  lemma OnlyTheCollectorMoves(r: Heap, e: Event)
    requires !e.Examine? && !e.Repush? && Chain(r.collector) != []
    ensures Apply(r, e).collector == r.collector
  {
    hide Q.Apply;
  }

  lemma FirstIsTheOnlyOne(s: seq<nat>, x: nat)
    requires x in s && x !in s[1..]
    ensures s[0] == x
  {
  }

  lemma ExamineDecides(r: Heap, x: nat)
    requires PlacesInv(r) && x in Chain(r.collector) && x !in Chain(ApplyExamine(r).collector)
    ensures x !in r.collector.kept && ApplyExamine(r).freed == r.freed + [x] && ApplyExamine(r).lists == r.lists
  {
    hide Exactly, ListsInv;
    FirstIsTheOnlyOne(r.collector.chain, x);
  }

  lemma RepushDecides(r: Heap, w: bool, x: nat)
    requires PlacesInv(r) && x in Chain(r.collector) && x !in Chain(ApplyRepush(r, w).collector)
    ensures var r' := ApplyRepush(r, w);
            x in r.collector.kept && r'.freed == r.freed
            && r.collector.of in r'.lists && r'.lists[r.collector.of] == [x] + r.lists[r.collector.of]
  {
    hide Exactly, ListsInv;
    FirstIsTheOnlyOne(r.collector.chain, x);
  }

  lemma KeepsItsSnapshot(r: Heap, e: Event, x: nat)
    requires HeapInv(r) && x in Chain(r.collector) && x !in Chain(Apply(r, e).collector)
    ensures var r' := Apply(r, e);
            if x in r.collector.kept then
              && r'.freed == r.freed
              && r.collector.of in r'.lists && r'.lists[r.collector.of] == [x] + r.lists[r.collector.of]
            else r'.freed == r.freed + [x] && r'.lists == r.lists
  {
    hide Q.Inv, Q.StrangersInv, PassInv, PlacesInv, Chain, ApplyQueue, ApplyRetire, ApplyStartPass, ApplyScan,
        ApplyDetach, ApplyExamine, ApplyRepush;
    match e
    case Examine => ExamineDecides(r, x);
    case Repush(w) => RepushDecides(r, w, x);
    case _ => OnlyTheCollectorMoves(r, e);
  }

  /** A pass keeps exactly the detached nodes of its snapshot: a node leaves the
      detached chain to be freed if it is off the snapshot, and goes back to its
      thread's list if it is on it. */
  lemma PassKeepsItsSnapshot(es: seq<Event>, e: Event, x: nat)
    requires x in Chain(Run(Start(), es).collector) && x !in Chain(Apply(Run(Start(), es), e).collector)
    ensures var r, r' := Run(Start(), es), Apply(Run(Start(), es), e);
            if x in r.collector.kept then
              && r'.freed == r.freed
              && r.collector.of in r'.lists && r'.lists[r.collector.of] == [x] + r.lists[r.collector.of]
            else r'.freed == r.freed + [x] && r'.lists == r.lists
  {
    hide HeapInv, Apply, Chain, Run;
    StartKeeps();
    HeapRunKeeps(Start(), es);
    KeepsItsSnapshot(Run(Start(), es), e, x);
  }
}
