/** HazardManager as the source writes it, while no other thread retires: the
    walk over a detached list, one pass of Collect, and the destructor. */
module HazardManagerCode {
  import opened LockFree

  /** The records whose node is in the snapshot, and the others. */
  function Kept(s: seq<nat>, snapshot: set<nat>): seq<nat> {
    if s == [] then [] else (if s[0] in snapshot then [s[0]] else []) + Kept(s[1..], snapshot)
  }

  function Dropped(s: seq<nat>, snapshot: set<nat>): seq<nat> {
    if s == [] then [] else (if s[0] in snapshot then [] else [s[0]]) + Dropped(s[1..], snapshot)
  }

  function Reverse(s: seq<nat>): seq<nat> {
    if s == [] then [] else Reverse(s[1..]) + [s[0]]
  }

  lemma {:induction false} ReverseKeeps(s: seq<nat>)
    ensures multiset(Reverse(s)) == multiset(s)
  {
    if s != [] {
      ReverseKeeps(s[1..]);
      assert s == [s[0]] + s[1..];
    }
  }

  lemma {:induction false} ReverseAt(s: seq<nat>, k: nat)
    requires k < |s|
    ensures |Reverse(s)| == |s| && Reverse(s)[k] == s[|s| - 1 - k]
  {
    if |s| > 1 { ReverseAt(s[1..], if k < |s| - 1 then k else 0); }
  }

  /** No record is lost or doubled by a walk, and the snapshot decides. */
  lemma {:induction false} WalkConserves(s: seq<nat>, snapshot: set<nat>)
    ensures multiset(s) == multiset(Kept(s, snapshot)) + multiset(Dropped(s, snapshot))
    ensures forall x :: x in Kept(s, snapshot) <==> x in s && x in snapshot
    ensures forall x :: x in Dropped(s, snapshot) <==> x in s && x !in snapshot
  {
    if s != [] {
      WalkConserves(s[1..], snapshot);
      assert s == [s[0]] + s[1..];
    }
  }

  lemma {:induction false} NothingKept(s: seq<nat>)
    ensures Kept(s, {}) == [] && Dropped(s, {}) == s
  {
    if s != [] { NothingKept(s[1..]); }
  }

  lemma WalkOne(s: seq<nat>, snapshot: set<nat>, list: seq<nat>)
    requires s != []
    ensures s[0] in snapshot ==>
              && Reverse(Kept(s, snapshot)) + list == Reverse(Kept(s[1..], snapshot)) + ([s[0]] + list)
              && Dropped(s, snapshot) == Dropped(s[1..], snapshot)
              && |Kept(s, snapshot)| == 1 + |Kept(s[1..], snapshot)|
    ensures s[0] !in snapshot ==>
              && Kept(s, snapshot) == Kept(s[1..], snapshot)
              && Dropped(s, snapshot) == [s[0]] + Dropped(s[1..], snapshot)
  {
    if s[0] in snapshot { assert Kept(s, snapshot)[1..] == Kept(s[1..], snapshot); }
  }

  /** What a walk leaves on a list. */
  function Left(s: seq<nat>, snapshot: set<nat>): seq<nat> { Reverse(Kept(s, snapshot)) }

  /** Exactly the records of the snapshot stay. */
  ghost predicate Protected(was: seq<nat>, now: seq<nat>, snapshot: set<nat>) {
    forall x :: x in now <==> x in was && x in snapshot
  }

  /** A walk leaves the records of the snapshot and drops the others, and together
      they are what was there. */
  lemma LeftConserves(s: seq<nat>, snapshot: set<nat>)
    ensures multiset(s) == multiset(Left(s, snapshot)) + multiset(Dropped(s, snapshot))
    ensures Protected(s, Left(s, snapshot), snapshot)
    ensures forall x :: x in Dropped(s, snapshot) <==> x in s && x !in snapshot
    ensures |Left(s, snapshot)| == |Kept(s, snapshot)|
  {
    var kept := Kept(s, snapshot);
    WalkConserves(s, snapshot);
    ReverseKeeps(kept);
    hide Kept, Dropped, Reverse;
    assert |multiset(Reverse(kept))| == |Reverse(kept)| && |multiset(kept)| == |kept|;
    forall x ensures x in Reverse(kept) <==> x in kept { assert x in multiset(Reverse(kept)) <==> x in multiset(kept); }
  }

  lemma WalkSays(all: seq<nat>, left: seq<nat>, before: seq<nat>, after: seq<nat>, snapshot: set<nat>)
    requires left == Left(all, snapshot) && after == before + Dropped(all, snapshot)
    ensures multiset(all) + multiset(before) == multiset(left) + multiset(after)
    ensures Protected(all, left, snapshot) && |left| == |Kept(all, snapshot)|
    ensures forall x :: x in after <==> x in before || (x in all && x !in snapshot)
  {
    LeftConserves(all, snapshot);
  }

  /** It leaves them in reverse order: of two records it leaves, the one that stands
      first was met last. */
  lemma LeftReverses(s: seq<nat>, snapshot: set<nat>, i: nat, j: nat)
    requires i < j < |Left(s, snapshot)|
    ensures exists a, b :: 0 <= b < a < |s| && s[a] == Left(s, snapshot)[i] && s[b] == Left(s, snapshot)[j]
  {
    var n := |Kept(s, snapshot)|;
    LeftConserves(s, snapshot);
    ReverseAt(Kept(s, snapshot), i);
    ReverseAt(Kept(s, snapshot), j);
    KeptInOrder(s, snapshot, n - 1 - j, n - 1 - i);
  }

  lemma {:induction false} KeptInOrder(s: seq<nat>, snapshot: set<nat>, i: nat, j: nat)
    requires i < j < |Kept(s, snapshot)|
    ensures exists a, b :: 0 <= a < b < |s| && s[a] == Kept(s, snapshot)[i] && s[b] == Kept(s, snapshot)[j]
  {
    var kept, rest := Kept(s, snapshot), Kept(s[1..], snapshot);
    if s[0] !in snapshot {
      assert kept == rest;
      KeptInOrder(s[1..], snapshot, i, j);
      var a, b :| 0 <= a < b < |s[1..]| && s[1..][a] == kept[i] && s[1..][b] == kept[j];
      assert s[a + 1] == kept[i] && s[b + 1] == kept[j];
    } else if i > 0 {
      KeptInOrder(s[1..], snapshot, i - 1, j - 1);
      var a, b :| 0 <= a < b < |s[1..]| && s[1..][a] == rest[i - 1] && s[1..][b] == rest[j - 1];
      assert s[a + 1] == kept[i] && s[b + 1] == kept[j];
    } else {
      WalkConserves(s[1..], snapshot);
      assert kept[j] == rest[j - 1] && rest[j - 1] in rest;
      var b :| 0 <= b < |s[1..]| && s[1..][b] == kept[j];
      assert s[0] == kept[i] && s[b + 1] == kept[j];
    }
  }

  /** The lists of the given threads, one after the other. */
  function Concat(order: seq<Tid>, lists: map<Tid, seq<nat>>): seq<nat>
    requires forall t :: t in order ==> t in lists
  {
    if order == [] then [] else Concat(order[..|order| - 1], lists) + lists[order[|order| - 1]]
  }

  /** The sequence meets each thread of the set once. */
  ghost predicate Visits(order: seq<Tid>, ts: set<Tid>) {
    (forall t :: t in order <==> t in ts) && |order| == |ts|
  }

  lemma ConcatSnoc(order: seq<Tid>, t: Tid, lists: map<Tid, seq<nat>>)
    requires t in lists && forall u :: u in order ==> u in lists
    ensures Concat(order + [t], lists) == Concat(order, lists) + lists[t]
  {
    assert (order + [t])[..|order|] == order;
  }

  lemma {:induction false} SameConcat(order: seq<Tid>, lists: map<Tid, seq<nat>>, lists': map<Tid, seq<nat>>)
    requires forall t :: t in order ==> t in lists && t in lists' && lists'[t] == lists[t]
    ensures Concat(order, lists') == Concat(order, lists)
    decreases |order|
  {
    if order != [] { SameConcat(order[..|order| - 1], lists, lists'); }
  }

  /** What a sweep over all the lists leaves, and what it drops. */
  lemma {:induction false} SweepConserves(order: seq<Tid>, was: map<Tid, seq<nat>>, now: map<Tid, seq<nat>>,
                                          snapshot: set<nat>)
    requires forall t :: t in order ==> t in was && t in now && now[t] == Left(was[t], snapshot)
    ensures multiset(Concat(order, was)) ==
            multiset(Concat(order, now)) + multiset(Dropped(Concat(order, was), snapshot))
    decreases |order|
  {
    hide Left, Dropped;
    if order != [] {
      var init, t := order[..|order| - 1], order[|order| - 1];
      SweepConserves(init, was, now, snapshot);
      LeftConserves(was[t], snapshot);
      DroppedOfBoth(Concat(init, was), was[t], snapshot);
    } else {
      LeftConserves([], snapshot);
    }
  }

  /** The threads in `order` have been swept and those in `todo` have not. */
  ghost predicate Halfway(was: map<Tid, seq<nat>>, now: map<Tid, seq<nat>>, order: seq<Tid>, todo: set<Tid>,
                          snapshot: set<nat>)
  {
    && todo <= was.Keys == now.Keys
    && (forall t :: t in order <==> t in was && t !in todo)
    && |order| + |todo| == |was|
    && (forall t :: t in todo ==> now[t] == was[t])
    && (forall t :: t in was && t !in todo ==> now[t] == Left(was[t], snapshot))
  }

  lemma NoneSwept(was: map<Tid, seq<nat>>, snapshot: set<nat>)
    ensures Halfway(was, was, [], was.Keys, snapshot) && Dropped(Concat([], was), snapshot) == Concat([], was) == []
  {
    hide Left;
  }

  lemma NotYet(was: map<Tid, seq<nat>>, now: map<Tid, seq<nat>>, order: seq<Tid>, todo: set<Tid>, snapshot: set<nat>,
               t: Tid)
    requires Halfway(was, now, order, todo, snapshot) && t in todo
    ensures t in now && (forall u :: u in order ==> u in was && u in now)
  {
  }

  lemma OneSwept(was: map<Tid, seq<nat>>, before: map<Tid, seq<nat>>, now: map<Tid, seq<nat>>, order: seq<Tid>,
                 todo: set<Tid>, snapshot: set<nat>, t: Tid)
    requires Halfway(was, before, order, todo, snapshot) && t in todo
    requires now == before[t := Left(before[t], snapshot)]
    ensures Halfway(was, now, order + [t], todo - {t}, snapshot)
    ensures forall u :: u in order + [t] ==> u in was && u in now
    ensures Concat(order + [t], now) == Concat(order, before) + now[t]
    ensures Dropped(Concat(order + [t], was), snapshot) ==
            Dropped(Concat(order, was), snapshot) + Dropped(before[t], snapshot)
  {
    hide Left, Dropped, Concat;
    forall u ensures u in order + [t] <==> u in was && u !in todo - {t} {}
    SameConcat(order, before, now);
    ConcatSnoc(order, t, now);
    SweepOne(order, t, was, snapshot);
  }

  lemma Swept(was: map<Tid, seq<nat>>, now: map<Tid, seq<nat>>, order: seq<Tid>, snapshot: set<nat>)
    requires Halfway(was, now, order, {}, snapshot)
    ensures now.Keys == was.Keys && Visits(order, was.Keys)
    ensures forall t :: t in now ==> now[t] == Left(was[t], snapshot)
    ensures multiset(Concat(order, was)) ==
            multiset(Concat(order, now)) + multiset(Dropped(Concat(order, was), snapshot))
    ensures forall t :: t in now ==> Protected(was[t], now[t], snapshot)
  {
    hide Left, Dropped, Concat;
    SweepConserves(order, was, now, snapshot);
    forall t | t in now ensures Protected(was[t], now[t], snapshot) { LeftConserves(was[t], snapshot); }
  }

  lemma SplitMultiset(a: seq<nat>, b: seq<nat>)
    ensures multiset(a + b) == multiset(a) + multiset(b)
  {
  }

  lemma SweepOne(order: seq<Tid>, t: Tid, lists: map<Tid, seq<nat>>, snapshot: set<nat>)
    requires t in lists && forall u :: u in order ==> u in lists
    ensures Dropped(Concat(order + [t], lists), snapshot) ==
            Dropped(Concat(order, lists), snapshot) + Dropped(lists[t], snapshot)
  {
    ConcatSnoc(order, t, lists);
    DroppedOfBoth(Concat(order, lists), lists[t], snapshot);
  }

  class HazardManager {
    var protectedPtr: map<Tid, Ptr>
    var retired: map<Tid, seq<nat>>      // retired_ptrs, top first
    var approximateFreeListSize: nat
    var deleted: seq<nat>                // the deleters that ran

    constructor ()
      ensures protectedPtr == map[] && retired == map[] && deleted == [] && approximateFreeListSize == 0
    {
      protectedPtr, retired, approximateFreeListSize, deleted := map[], map[], 0, [];
    }

    method CheckToDelete(t: Tid, snapshot: set<nat>)
      requires t in retired
      modifies this`retired, this`approximateFreeListSize, this`deleted
      ensures retired == old(retired)[t := Left(old(retired)[t], snapshot)]
      ensures deleted == old(deleted) + Dropped(old(retired)[t], snapshot)
      ensures multiset(old(retired)[t]) + multiset(old(deleted)) == multiset(retired[t]) + multiset(deleted)
      ensures Protected(old(retired)[t], retired[t], snapshot)
      ensures forall x :: x in deleted <==> x in old(deleted) || (x in old(retired)[t] && x !in snapshot)
      ensures approximateFreeListSize == old(approximateFreeListSize) + |retired[t]|
    {
      var candidate := retired[t];
      retired := retired[t := []];
      ghost var all := candidate;
      while candidate != []
        invariant t in retired && retired == old(retired)[t := retired[t]]
        invariant Reverse(Kept(all, snapshot)) == Reverse(Kept(candidate, snapshot)) + retired[t]
        invariant old(deleted) + Dropped(all, snapshot) == deleted + Dropped(candidate, snapshot)
        invariant old(approximateFreeListSize) + |Kept(all, snapshot)| ==
                  approximateFreeListSize + |Kept(candidate, snapshot)|
        decreases |candidate|
      {
        hide Kept, Dropped, Reverse;
        WalkOne(candidate, snapshot, retired[t]);
        var next := candidate[1..];
        if candidate[0] in snapshot {
          retired := retired[t := [candidate[0]] + retired[t]];
          approximateFreeListSize := approximateFreeListSize + 1;
        } else {
          assert deleted + ([candidate[0]] + Dropped(next, snapshot)) ==
                 (deleted + [candidate[0]]) + Dropped(next, snapshot);
          deleted := deleted + [candidate[0]];
        }
        candidate := next;
      }
      hide Kept, Dropped, Reverse, Protected;
      WalkSays(all, retired[t], old(deleted), deleted, snapshot);
    }

    /** The first half of a Collect pass: read every hazard slot. */
    method ReadSlots() returns (snapshot: set<nat>)
      ensures forall x :: x in snapshot <==> exists t :: t in protectedPtr && protectedPtr[t] == At(x)
    {
      snapshot := {};
      var todo := protectedPtr.Keys;
      while todo != {}
        invariant todo <= protectedPtr.Keys
        invariant forall x :: x in snapshot <==> exists t :: t in protectedPtr && t !in todo && protectedPtr[t] == At(x)
        decreases |todo|
      {
        var t :| t in todo;
        if protectedPtr[t] != Null { snapshot := snapshot + {protectedPtr[t].n}; }
        todo := todo - {t};
      }
    }

    /** The second half: walk every thread's list. `order` is the order in which
        the walk met the threads. */
    method Sweep(snapshot: set<nat>) returns (ghost order: seq<Tid>)
      modifies this`retired, this`approximateFreeListSize, this`deleted
      ensures retired.Keys == old(retired.Keys)
      ensures forall t :: t in retired ==> retired[t] == Left(old(retired)[t], snapshot)
      ensures Visits(order, old(retired).Keys)
      ensures deleted == old(deleted) + Dropped(Concat(order, old(retired)), snapshot)
      ensures multiset(Concat(order, old(retired))) + multiset(old(deleted)) ==
              multiset(Concat(order, retired)) + multiset(deleted)
      ensures forall t :: t in retired ==> Protected(old(retired)[t], retired[t], snapshot)
      ensures approximateFreeListSize == old(approximateFreeListSize) + |Concat(order, retired)|
    {
      order := [];
      var todo := retired.Keys;
      ghost var was := retired;
      NoneSwept(was, snapshot);
      hide Left, Dropped, Concat, Protected, Halfway;
      while todo != {}
        invariant Halfway(was, retired, order, todo, snapshot)
        invariant forall u :: u in order ==> u in was && u in retired
        invariant deleted == old(deleted) + Dropped(Concat(order, was), snapshot)
        invariant approximateFreeListSize == old(approximateFreeListSize) + |Concat(order, retired)|
        decreases |todo|
      {
        var t :| t in todo;
        NotYet(was, retired, order, todo, snapshot, t);
        ghost var before := retired;
        CheckToDelete(t, snapshot);
        OneSwept(was, before, retired, order, todo, snapshot, t);
        assert deleted == old(deleted) + Dropped(Concat(order + [t], was), snapshot);
        order, todo := order + [t], todo - {t};
      }
      Swept(was, retired, order, snapshot);
      SplitMultiset(old(deleted), Dropped(Concat(order, was), snapshot));
    }

    method CollectOnce() returns (ghost snapshot: set<nat>, ghost order: seq<Tid>)
      modifies this`retired, this`approximateFreeListSize, this`deleted
      ensures retired.Keys == old(retired.Keys)
      ensures forall x :: x in snapshot <==> exists t :: t in protectedPtr && protectedPtr[t] == At(x)
      ensures forall t :: t in retired ==> retired[t] == Left(old(retired)[t], snapshot)
      ensures Visits(order, old(retired).Keys)
      ensures deleted == old(deleted) + Dropped(Concat(order, old(retired)), snapshot)
      ensures multiset(Concat(order, old(retired))) + multiset(old(deleted)) ==
              multiset(Concat(order, retired)) + multiset(deleted)
      ensures forall t :: t in retired ==> Protected(old(retired)[t], retired[t], snapshot)
      ensures approximateFreeListSize == |Concat(order, retired)|
    {
      hide Left, Dropped, Concat, Protected;
      approximateFreeListSize := 0;
      var slots := ReadSlots();
      snapshot := slots;
      order := Sweep(slots);
    }

    /** The destructor, once every slot is null and no thread is left: it frees
        every record once and leaves no list behind. */
    method Destroy() returns (ghost order: seq<Tid>)
      requires forall t :: t in protectedPtr ==> protectedPtr[t] == Null
      modifies this
      ensures retired == map[] && protectedPtr == map[]
      ensures Visits(order, old(retired).Keys)
      ensures deleted == old(deleted) + Concat(order, old(retired))
    {
      order := Sweep({});
      NothingKept(Concat(order, old(retired)));
      assert forall t :: t in retired ==> retired[t] == [] by {
        forall t | t in retired ensures retired[t] == [] { NothingKept(old(retired)[t]); }
      }
      retired, protectedPtr := map[], map[];
    }
  }

  lemma {:induction false} DroppedOfBoth(a: seq<nat>, b: seq<nat>, snapshot: set<nat>)
    ensures Dropped(a + b, snapshot) == Dropped(a, snapshot) + Dropped(b, snapshot)
  {
    if a == [] {
      assert a + b == b;
    } else {
      assert (a + b)[1..] == a[1..] + b;
      DroppedOfBoth(a[1..], b, snapshot);
    }
  }
}
