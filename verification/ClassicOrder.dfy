/** The history of ClassicHistory respects real time: a call that has ended before
    another begins comes first in it, whichever threads make them. */
module ClassicOrder {
  import opened ClassicHistory
  import opened ClassicMsQueue
  import opened LockFree

  /** Where the i-th operation of t is in a history. */
  function Place(h: seq<Entry>, t: Tid, i: nat): (p: nat)
    requires i < |Of(h, t)|
    ensures p < |h| && h[p].who == t && h[p] == Of(h, t)[i] && |Of(h[..p], t)| == i
  {
    var n := |h| - 1;
    if h[n].who == t && i == |Of(h[..n], t)| then n
    else
      var p := Place(h[..n], t, i);
      assert h[..n][..p] == h[..p];
      p
  }

  /** How many calls t has finished, and how many it has begun. */
  function Finished(s: State, t: Tid): nat { if t in s.threads then |s.threads[t].answers| else 0 }

  function Begun(s: State, t: Tid): nat { Finished(s, t) + if t in s.threads && !s.threads[t].pc.Idle? then 1 else 0 }

  // ----- a place that parts the calls before a moment from those after it -----

  /** Of the history g, what lies before c contains every call finished at the
      moment m and no call begun later. */
  ghost predicate Parted(g: seq<Stamped>, c: nat, m: State) {
    && c <= |g|
    && (forall i :: 0 <= i < c ==> g[i].key <= 2 * |m.sh.log|)
    && (forall t :: Finished(m, t) <= |Of(Entries(g[..c]), t)| <= Begun(m, t))
  }

  /** A call that begins after the moment m finds the log at least as long as then. */
  ghost predicate Since(s: State, m: State) {
    && |m.sh.log| <= |s.sh.log|
    && (forall t :: t in s.threads && !s.threads[t].pc.Idle? && Begun(m, t) < Begun(s, t) ==>
          |m.sh.log| <= s.threads[t].began)
  }

  lemma WhatsAsMany(answers: seq<Answer>)
    ensures |Whats(answers)| == |answers|
  {
    if answers != [] { WhatsAsMany(answers[..|answers| - 1]); }
  }

  /** How many operations of t the history has. */
  lemma AsMany(g: seq<Stamped>, s: State, t: Tid)
    requires HistoryInv(g, s)
    ensures |Of(Entries(g), t)| == Finished(s, t) + if t in s.threads then |Pending(t, s.threads[t].pc)| else 0
    ensures Finished(s, t) <= |Of(Entries(g), t)| <= Begun(s, t)
  {
    hide Entries, Of, Whats, Replay, Effective, Agrees;
    if t in s.threads {
      assert Complete(g, t, s.threads[t]);
      WhatsAsMany(s.threads[t].answers);
    }
  }

  /** At the moment itself the end of the history parts it. */
  lemma PartedNow(g: seq<Stamped>, m: State)
    requires HistoryInv(g, m)
    ensures Parted(g, |g|, m) && Since(m, m)
  {
    assert Bounded(g, |m.sh.log|) && g[..|g|] == g;
    hide HistoryInv, Of, Entries, Finished;
    forall t ensures Finished(m, t) <= |Of(Entries(g), t)| <= Begun(m, t) { AsMany(g, m, t); }
  }

  lemma AppendParts(g: seq<Stamped>, x: Stamped, c: nat, m: State)
    requires Parted(g, c, m)
    ensures Parted(g + [x], c, m)
  {
    hide Of, Entries, Finished, Begun;
    assert (g + [x])[..c] == g[..c];
  }

  /** One more entry, in the part before c. */
  lemma WithinPart(g: seq<Stamped>, x: Stamped, c: nat, u: Tid)
    requires Cut(g, x.key) <= c <= |g|
    ensures |Of(Entries(Insert(g, x)[..c + 1]), u)| == |Of(Entries(g[..c]), u)| + if u == x.e.who then 1 else 0
  {
    var d := Cut(g, x.key);
    InsertedPrefix(g, x, c);
    hide Of, Entries, Cut, Insert;
    var a, b := g[..d], g[d..c];
    assert g[..c] == a + b;
    EntriesOfBoth(a + [x], b);
    EntriesOfBoth(a, b);
    EntriesSnoc(a, x);
    OfBoth(Entries(a) + [x.e], Entries(b), u);
    OfBoth(Entries(a), Entries(b), u);
    OfSnoc(Entries(a), x.e, u);
  }

  lemma PrefixHasFewer(g: seq<Stamped>, c: nat, t: Tid)
    requires c <= |g|
    ensures |Of(Entries(g[..c]), t)| <= |Of(Entries(g), t)|
  {
    hide Of, Entries;
    assert g == g[..c] + g[c..];
    EntriesOfBoth(g[..c], g[c..]);
    OfBoth(Entries(g[..c]), Entries(g[c..]), t);
  }

  /** An empty answer goes after the part unless it is of a call begun before m. */
  lemma InsertParts(g: seq<Stamped>, c: nat, m: State, s: State, t: Tid, at: nat) returns (c': nat)
    requires Parted(g, c, m) && HistoryInv(g, s) && Since(s, m)
    requires t in s.threads && !s.threads[t].pc.Idle? && Pending(t, s.threads[t].pc) == []
    requires s.threads[t].began <= at
    ensures Parted(Insert(g, Stamped(2 * at, Empty(t))), c', m)
  {
    hide Of, Entries, Cut, Insert, Agrees, Effective, Replay, Finished;
    var x := Stamped(2 * at, Empty(t));
    var d, g' := Cut(g, x.key), Insert(g, x);
    InsertedAt(g, x, 0);
    if d < c {
      c' := c + 1;
      BeforeCut(g, x.key, d);
      assert Begun(s, t) <= Begun(m, t) by { BeforeCut(g, x.key, c - 1); }
      AsMany(g, s, t);
      PrefixHasFewer(g, c, t);
      forall i | 0 <= i < c' ensures g'[i].key <= 2 * |m.sh.log| { InsertedAt(g, x, i); }
      forall u ensures Finished(m, u) <= |Of(Entries(g'[..c']), u)| <= Begun(m, u) {
        WithinPart(g, x, c, u);
        assert Finished(m, u) <= |Of(Entries(g[..c]), u)| <= Begun(m, u);
      }
    } else {
      c' := c;
      InsertedPrefix(g, x, c);
      forall i | 0 <= i < c ensures g'[i] == g[i] { InsertedAt(g, x, i); }
    }
  }

  // ----- every step -----

  /** A step leaves the beginning of the call alone and at most finishes it. */
  lemma ActGoesOn(sh: Shared, t: Tid, l: Local)
    ensures var l' := Act(sh, t, l).1;
      && l'.began == l.began && (l.pc.Idle? ==> l' == l) && (!l'.pc.Idle? ==> l'.answers == l.answers)
  {
  }

  lemma LogLasts(s: State, e: Event)
    requires Inv(s)
    ensures |s.sh.log| <= |Apply(s, e).sh.log|
  {
    hide Inv, Apply;
    ApplyKeeps(s, e);
  }

  lemma StepSince(s: State, m: State, t: Tid)
    requires Inv(s) && Since(s, m) && t in s.threads
    ensures Since(Apply(s, Step(t)), m)
  {
    hide Inv, Act;
    LogLasts(s, Step(t));
    ActGoesOn(s.sh, t, s.threads[t]);
  }

  lemma ApplySince(s: State, m: State, e: Event)
    requires Inv(s) && Since(s, m)
    ensures Since(Apply(s, e), m)
  {
    hide Inv, Act;
    match e
    case Step(t) => if t in s.threads { StepSince(s, m, t); }
    case _ =>
  }

  lemma ApplyParts(g: seq<Stamped>, c: nat, m: State, s: State, e: Event) returns (c': nat)
    requires Inv(s) && HistoryInv(g, s) && Parted(g, c, m) && Since(s, m)
    ensures Parted(Note(g, s, e), c', m)
  {
    hide Inv, HistoryInv, Parted, Since, Act, Apply, Insert, GoesOn, EndsPush, TakesEffect, OnlyOne, Pending, Replay;
    c' := c;
    if e.Step? && e.t in s.threads {
      var t := e.t;
      StepFrame(s, t);
      NoteSays(g, s, t);
      var l, r := s.threads[t], Act(s.sh, t, s.threads[t]);
      hide Note;
      if ClassicHistory.AnswersEmpty(s.sh, r.0, t, l, r.1) {
        c' := InsertParts(g, c, m, s, t, r.1.answers[|l.answers|].at);
      } else if TakesEffect(s.sh, r.0, t, l, r.1) {
        AppendParts(g, Note(g, s, e)[|Note(g, s, e)| - 1], c, m);
      }
    }
  }

  lemma {:induction false} RunParts(g: seq<Stamped>, c: nat, m: State, s: State, es: seq<Event>) returns (c': nat)
    requires Inv(s) && HistoryInv(g, s) && Parted(g, c, m) && Since(s, m)
    ensures Parted(NoteAll(g, s, es), c', m)
    decreases |es|
  {
    hide Inv, HistoryInv, Parted, Since, Apply, Note;
    c' := c;
    if es != [] {
      c' := ApplyParts(g, c, m, s, es[0]);
      ApplyKeeps(s, es[0]);
      ApplyKeepsHistory(g, s, es[0]);
      ApplySince(s, m, es[0]);
      c' := RunParts(Note(g, s, es[0]), c', m, Apply(s, es[0]), es[1..]);
    }
  }

  lemma {:induction false} NotesSplit(g: seq<Stamped>, s: State, es: seq<Event>, fs: seq<Event>)
    ensures NoteAll(g, s, es + fs) == NoteAll(NoteAll(g, s, es), Run(s, es), fs)
    decreases |es|
  {
    hide Apply, Note;
    if es == [] {
      assert es + fs == fs;
    } else {
      assert (es + fs)[1..] == es[1..] + fs;
      NotesSplit(Note(g, s, es[0]), Apply(s, es[0]), es[1..], fs);
    }
  }

  // ----- the result -----

  lemma PlaceParts(h: seq<Entry>, c: nat, t: Tid, i: nat)
    requires c <= |h| && i < |Of(h, t)|
    ensures Place(h, t, i) < c <==> i < |Of(h[..c], t)|
  {
    var p := Place(h, t, i);
    hide Of, Place;
    if p < c {
      assert h[..p + 1] == h[..p] + [h[p]] && h[..c] == h[..p + 1] + h[p + 1..c];
      OfSnoc(h[..p], h[p], t);
      OfBoth(h[..p + 1], h[p + 1..c], t);
    } else {
      assert h[..p] == h[..c] + h[c..p];
      OfBoth(h[..c], h[c..p], t);
    }
  }

  lemma EntriesPrefix(g: seq<Stamped>, c: nat)
    requires c <= |g|
    ensures Entries(g)[..c] == Entries(g[..c])
  {
    hide Entries;
    assert g == g[..c] + g[c..];
    EntriesOfBoth(g[..c], g[c..]);
  }

  /** Of the calls in the history of a run, the i-th of t, which had ended after the
      first part of the run, comes before the j-th of u, which began later. */
  lemma RealTimeOrder(es: seq<Event>, fs: seq<Event>, t: Tid, i: nat, u: Tid, j: nat)
    requires i < Finished(Run(Init(), es), t)
    requires Begun(Run(Init(), es), u) <= j < |Of(History(es + fs), u)|
    ensures var h := History(es + fs);
      i < |Of(h, t)| && Place(h, t, i) < Place(h, u, j)
  {
    hide Of, Place, Inv, HistoryInv, Finished, Begun, Entries;
    var m, g := Run(Init(), es), NoteAll([], Init(), es);
    StartsEmpty();
    Reachable(es);
    RunKeepsHistory([], Init(), es);
    PartedNow(g, m);
    NotesSplit([], Init(), es, fs);
    var c := RunParts(g, |g|, m, m, fs);
    hide Run, NoteAll;
    var whole := NoteAll([], Init(), es + fs);
    var h := History(es + fs);
    EntriesPrefix(whole, c);
    PrefixHasFewer(whole, c, t);
    PlaceParts(h, c, t, i);
    PlaceParts(h, c, u, j);
  }
}
