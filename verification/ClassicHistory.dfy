/** The calls of ClassicMSQueue, empty answers included, in one sequential history.
    An empty answer is given only after a later test of head, so it is put into the
    history where next was read, between pushes and pops that are already there. */
module ClassicHistory {
  import opened ClassicMsQueue
  import opened LockFree

  /** An operation with its place: the k-th push or pop has key 2k + 1, an answer
      that the queue was empty after k of them has key 2k. */
  datatype Stamped = Stamped(key: nat, e: Entry)

  function Entries(h: seq<Stamped>): (r: seq<Entry>)
    ensures |r| == |h|
  {
    if h == [] then [] else Entries(h[..|h| - 1]) + [h[|h| - 1].e]
  }

  /** How many operations come before everything with a key above the given one. */
  function Cut(h: seq<Stamped>, key: nat): (c: nat)
    ensures c <= |h| && (forall i :: c <= i < |h| ==> h[i].key > key) && (c > 0 ==> h[c - 1].key <= key)
  {
    if h == [] then 0 else if h[|h| - 1].key <= key then |h| else Cut(h[..|h| - 1], key)
  }

  function Insert(h: seq<Stamped>, x: Stamped): seq<Stamped> {
    h[..Cut(h, x.key)] + [x] + h[Cut(h, x.key)..]
  }

  /** What a step adds to the history. */
  function Note(h: seq<Stamped>, s: State, e: Event): seq<Stamped> {
    if !e.Step? || e.t !in s.threads then h
    else
      var (sh', l') := Act(s.sh, e.t, s.threads[e.t]);
      if |sh'.log| > |s.sh.log| then h + [Stamped(2 * |s.sh.log| + 1, sh'.log[|s.sh.log|])]
      else if |l'.answers| > |s.threads[e.t].answers| && l'.answers[|l'.answers| - 1].what.Empty? then
        Insert(h, Stamped(2 * l'.answers[|l'.answers| - 1].at, l'.answers[|l'.answers| - 1].what))
      else h
  }

  function NoteAll(h: seq<Stamped>, s: State, es: seq<Event>): seq<Stamped>
    decreases |es|
  {
    if es == [] then h else NoteAll(Note(h, s, es[0]), Apply(s, es[0]), es[1..])
  }

  /** The history of a run. */
  function History(es: seq<Event>): seq<Entry> { Entries(NoteAll([], Init(), es)) }

  /** What a thread's calls answered, in order. */
  function Whats(answers: seq<Answer>): seq<Entry> {
    if answers == [] then [] else Whats(answers[..|answers| - 1]) + [answers[|answers| - 1].what]
  }

  /** The pushes and pops of a log. */
  function Effective(log: seq<Entry>): seq<Entry> {
    if log == [] then []
    else
      var rest := Effective(log[..|log| - 1]);
      if log[|log| - 1].Empty? then rest else rest + [log[|log| - 1]]
  }

  // ----- sequences -----

  lemma EntriesSnoc(h: seq<Stamped>, x: Stamped)
    ensures Entries(h + [x]) == Entries(h) + [x.e]
  {
    assert (h + [x])[..|h|] == h;
  }

  lemma {:induction false} EntriesOfBoth(g: seq<Stamped>, h: seq<Stamped>)
    ensures Entries(g + h) == Entries(g) + Entries(h)
    decreases |h|
  {
    if h == [] {
      assert g + h == g;
    } else {
      var init, x := h[..|h| - 1], h[|h| - 1];
      EntriesOfBoth(g, init);
      assert g + h == g + init + [x] && h == init + [x];
      EntriesSnoc(g + init, x);
      EntriesSnoc(init, x);
    }
  }

  lemma {:induction false} OfBoth(a: seq<Entry>, b: seq<Entry>, t: Tid)
    ensures Of(a + b, t) == Of(a, t) + Of(b, t)
    decreases |b|
  {
    if b == [] {
      assert a + b == a;
    } else {
      var init, x := b[..|b| - 1], b[|b| - 1];
      OfBoth(a, init, t);
      assert a + b == a + init + [x] && b == init + [x];
      OfSnoc(a + init, x, t);
      OfSnoc(init, x, t);
    }
  }

  lemma EffectiveSnoc(a: seq<Entry>, e: Entry)
    ensures Effective(a + [e]) == if e.Empty? then Effective(a) else Effective(a) + [e]
  {
    assert (a + [e])[..|a|] == a;
  }

  lemma {:induction false} EffectiveOfBoth(a: seq<Entry>, b: seq<Entry>)
    ensures Effective(a + b) == Effective(a) + Effective(b)
    decreases |b|
  {
    if b == [] {
      assert a + b == a;
    } else {
      var init, x := b[..|b| - 1], b[|b| - 1];
      EffectiveOfBoth(a, init);
      assert a + b == a + init + [x] && b == init + [x];
      EffectiveSnoc(a + init, x);
      EffectiveSnoc(init, x);
    }
  }

  /** Histories that leave the same queue go on alike. */
  lemma {:induction false} ReplayGoesOn(a: seq<Entry>, b: seq<Entry>, more: seq<Entry>)
    requires Replay(a) == Replay(b)
    ensures Replay(a + more) == Replay(b + more)
    decreases |more|
  {
    if more == [] {
      assert a + more == a && b + more == b;
    } else {
      var init, x := more[..|more| - 1], more[|more| - 1];
      ReplayGoesOn(a, b, init);
      assert (a + more)[..|a + more| - 1] == a + init && (b + more)[..|b + more| - 1] == b + init;
    }
  }

  lemma WhatsSnoc(answers: seq<Answer>, a: Answer)
    ensures Whats(answers + [a]) == Whats(answers) + [a.what]
  {
    assert (answers + [a])[..|answers|] == answers;
  }

  /** Where the cut is in a sorted history. */
  lemma CutIs(h: seq<Stamped>, key: nat, c: nat)
    requires c <= |h| && (forall i :: 0 <= i < c ==> h[i].key <= key) && (forall i :: c <= i < |h| ==> h[i].key > key)
    ensures Cut(h, key) == c
  {
    var d := Cut(h, key);
    var next := if d < |h| then h[d].key else key;
    assert next >= key;
  }

  // ----- what every reachable history satisfies -----

  ghost predicate Sorted(h: seq<Stamped>) { forall i, j :: 0 <= i < j < |h| ==> h[i].key <= h[j].key }

  ghost predicate Bounded(h: seq<Stamped>, n: nat) { forall i :: 0 <= i < |h| ==> h[i].key <= 2 * n }

  /** Up to any place the history leaves the queue that the log leaves there. */
  ghost predicate Agrees(h: seq<Stamped>, log: seq<Entry>) {
    forall k: nat :: k <= |log| ==> Replay(Entries(h[..Cut(h, 2 * k)])) == Replay(log[..k])
  }

  ghost predicate Complete(h: seq<Stamped>, t: Tid, l: Local) {
    Of(Entries(h), t) == Whats(l.answers) + Pending(t, l.pc)
  }

  /** What t did before its present call is placed before anything that this call
      may still answer. */
  ghost predicate Earlier(h: seq<Stamped>, t: Tid, l: Local) {
    !l.pc.Idle? && Pending(t, l.pc) == [] ==> forall i :: 0 <= i < |h| && h[i].e.who == t ==> h[i].key <= 2 * l.began
  }

  ghost predicate HistoryInv(h: seq<Stamped>, s: State) {
    && Sorted(h) && Bounded(h, |s.sh.log|) && Agrees(h, s.sh.log) && Effective(Entries(h)) == s.sh.log
    && (forall t :: t in s.threads ==> Complete(h, t, s.threads[t]) && Earlier(h, t, s.threads[t]))
    && (forall t :: t !in s.threads ==> Of(Entries(h), t) == [])
  }

  // ----- a push or a pop -----

  lemma WholeHistory(h: seq<Stamped>, log: seq<Entry>)
    requires Bounded(h, |log|) && Agrees(h, log)
    ensures Replay(Entries(h)) == Replay(log)
  {
    CutIs(h, 2 * |log|, |h|);
    assert h[..|h|] == h && log[..|log|] == log;
  }

  lemma AppendAgrees(h: seq<Stamped>, log: seq<Entry>, e: Entry)
    requires Sorted(h) && Bounded(h, |log|) && Agrees(h, log)
    ensures var h' := h + [Stamped(2 * |log| + 1, e)];
      Sorted(h') && Bounded(h', |log| + 1) && Agrees(h', log + [e])
  {
    var x := Stamped(2 * |log| + 1, e);
    var h' := h + [x];
    forall k: nat | k <= |log| + 1 ensures Replay(Entries(h'[..Cut(h', 2 * k)])) == Replay((log + [e])[..k]) {
      if k <= |log| {
        assert h'[..|h|] == h && h'[..Cut(h, 2 * k)] == h[..Cut(h, 2 * k)] && (log + [e])[..k] == log[..k];
      } else {
        CutIs(h', 2 * k, |h'|);
        WholeHistory(h, log);
        EntriesSnoc(h, x);
        ReplayGoesOn(Entries(h), log, [e]);
        assert h'[..|h'|] == h' && (log + [e])[..k] == log + [e];
      }
    }
  }

  lemma AppendKeeps(h: seq<Stamped>, s: State, s': State, t: Tid, e: Entry)
    requires HistoryInv(h, s) && t in s.threads && e.who == t && !e.Empty? && s'.sh.log == s.sh.log + [e]
    requires s'.threads.Keys == s.threads.Keys && forall u :: u in s.threads && u != t ==> s'.threads[u] == s.threads[u]
    requires s'.threads[t].pc.Idle? || Pending(t, s'.threads[t].pc) != []
    requires Whats(s'.threads[t].answers) + Pending(t, s'.threads[t].pc) ==
             Whats(s.threads[t].answers) + Pending(t, s.threads[t].pc) + [e]
    ensures HistoryInv(h + [Stamped(2 * |s.sh.log| + 1, e)], s')
  {
    hide Replay, Of, Entries, Whats, Effective, Agrees, Pending, Cut;
    var x := Stamped(2 * |s.sh.log| + 1, e);
    AppendAgrees(h, s.sh.log, e);
    EntriesSnoc(h, x);
    EffectiveSnoc(Entries(h), e);
    forall u ensures Of(Entries(h + [x]), u) == if u == t then Of(Entries(h), u) + [e] else Of(Entries(h), u) {
      OfSnoc(Entries(h), e, u);
    }
  }

  // ----- an empty answer -----

  lemma InsertedAt(h: seq<Stamped>, x: Stamped, i: nat)
    requires i <= |h|
    ensures var c, h' := Cut(h, x.key), Insert(h, x);
      |h'| == |h| + 1 && h'[i] == if i < c then h[i] else if i == c then x else h[i - 1]
  {
  }

  lemma BeforeCut(h: seq<Stamped>, key: nat, i: nat)
    requires Sorted(h) && i < |h|
    ensures i < Cut(h, key) <==> h[i].key <= key
  {
    hide Cut;
    var c := Cut(h, key);
    assert i < c ==> i == c - 1 || h[i].key <= h[c - 1].key;
  }

  lemma InsertSorts(h: seq<Stamped>, x: Stamped, n: nat)
    requires Sorted(h) && Bounded(h, n) && x.key <= 2 * n
    ensures Sorted(Insert(h, x)) && Bounded(Insert(h, x), n)
  {
    hide Cut, Insert;
    var c, h' := Cut(h, x.key), Insert(h, x);
    InsertedAt(h, x, 0);
    forall i, j | 0 <= i < j < |h'| ensures h'[i].key <= h'[j].key {
      InsertedAt(h, x, i);
      InsertedAt(h, x, j);
      if i < |h| { BeforeCut(h, x.key, i); }
      if j > 0 { BeforeCut(h, x.key, j - 1); }
    }
    forall i | 0 <= i < |h'| ensures h'[i].key <= 2 * n { InsertedAt(h, x, i); }
  }

  lemma CutInserted(h: seq<Stamped>, x: Stamped, key: nat)
    requires Sorted(h)
    ensures var c, d := Cut(h, x.key), Cut(h, key);
      if key < x.key then d <= c && Cut(Insert(h, x), key) == d
      else c <= d && Cut(Insert(h, x), key) == d + 1
  {
    hide Cut, Insert;
    var c, d, h' := Cut(h, x.key), Cut(h, key), Insert(h, x);
    InsertedAt(h, x, 0);
    if d < |h| { BeforeCut(h, x.key, d); }
    if c < |h| { BeforeCut(h, key, c); }
    var e := if key < x.key then d else d + 1;
    forall i | 0 <= i < |h'| ensures i < e <==> h'[i].key <= key {
      InsertedAt(h, x, i);
      if i < |h| { BeforeCut(h, key, i); }
      if i > 0 { BeforeCut(h, key, i - 1); }
    }
    CutIs(h', key, e);
  }

  lemma InsertAgreesAt(h: seq<Stamped>, log: seq<Entry>, at: nat, t: Tid, k: nat)
    requires Sorted(h) && Agrees(h, log) && at <= |log| && Replay(log[..at]) == Queue([]) && k <= |log|
    ensures var h' := Insert(h, Stamped(2 * at, Empty(t)));
      Replay(Entries(h'[..Cut(h', 2 * k)])) == Replay(log[..k])
  {
    hide Cut, Insert, Replay, Entries;
    var x := Stamped(2 * at, Empty(t));
    var c, d, h' := Cut(h, 2 * at), Cut(h, 2 * k), Insert(h, x);
    CutInserted(h, x, 2 * k);
    InsertedPrefix(h, x, d);
    if k >= at {
      EmptyChangesNothing(h[..c], x, h[c..d]);
      assert h[..c] + h[c..d] == h[..d];
    }
  }

  lemma InsertAgrees(h: seq<Stamped>, log: seq<Entry>, at: nat, t: Tid)
    requires Sorted(h) && Agrees(h, log) && at <= |log| && Replay(log[..at]) == Queue([])
    ensures Agrees(Insert(h, Stamped(2 * at, Empty(t))), log)
  {
    hide Cut, Insert, Replay, Entries;
    var h' := Insert(h, Stamped(2 * at, Empty(t)));
    forall k: nat | k <= |log| ensures Replay(Entries(h'[..Cut(h', 2 * k)])) == Replay(log[..k]) {
      InsertAgreesAt(h, log, at, t, k);
    }
  }

  lemma InsertedPrefix(h: seq<Stamped>, x: Stamped, d: nat)
    requires d <= |h|
    ensures var c := Cut(h, x.key);
      && (d <= c ==> Insert(h, x)[..d] == h[..d])
      && (c <= d ==> Insert(h, x)[..d + 1] == h[..c] + [x] + h[c..d])
  {
    hide Cut;
    SplicedPrefix(h, Cut(h, x.key), x, d);
  }

  lemma SplicedPrefix<T>(s: seq<T>, c: nat, x: T, d: nat)
    requires c <= |s| && d <= |s|
    ensures d <= c ==> (s[..c] + [x] + s[c..])[..d] == s[..d]
    ensures c <= d ==> (s[..c] + [x] + s[c..])[..d + 1] == s[..c] + [x] + s[c..d]
  {
    if c <= d {
      assert s[c..] == s[c..d] + s[d..];
      assert s[..c] + [x] + s[c..] == s[..c] + [x] + s[c..d] + s[d..];
    } else {
      assert s[..c] == s[..d] + s[d..c];
    }
  }

  lemma EmptyChangesNothing(a: seq<Stamped>, x: Stamped, b: seq<Stamped>)
    requires x.e.Empty? && Replay(Entries(a)) == Queue([])
    ensures Replay(Entries(a + [x] + b)) == Replay(Entries(a + b))
  {
    EntriesOfBoth(a + [x], b);
    EntriesOfBoth(a, b);
    EntriesSnoc(a, x);
    ReplaySnoc(Entries(a), x.e);
    ReplayGoesOn(Entries(a) + [x.e], Entries(a), Entries(b));
  }

  /** Entries with larger keys are not t's. */
  lemma {:induction false} NoneOf(h: seq<Stamped>, t: Tid)
    requires forall i :: 0 <= i < |h| ==> h[i].e.who != t
    ensures Of(Entries(h), t) == []
  {
    if h != [] {
      NoneOf(h[..|h| - 1], t);
      OfSnoc(Entries(h[..|h| - 1]), h[|h| - 1].e, t);
    }
  }

  lemma InsertOf(h: seq<Stamped>, x: Stamped, u: Tid)
    requires x.e.Empty?
    requires u == x.e.who ==> forall i :: 0 <= i < |h| && h[i].e.who == u ==> h[i].key <= x.key
    ensures Of(Entries(Insert(h, x)), u) == Of(Entries(h), u) + if u == x.e.who then [x.e] else []
  {
    hide Of, Entries, Cut;
    var c := Cut(h, x.key);
    var a, b := h[..c], h[c..];
    assert h == a + b;
    EntriesOfBoth(a + [x], b);
    EntriesOfBoth(a, b);
    EntriesSnoc(a, x);
    OfBoth(Entries(a) + [x.e], Entries(b), u);
    OfBoth(Entries(a), Entries(b), u);
    OfSnoc(Entries(a), x.e, u);
    if u == x.e.who {
      forall i | 0 <= i < |b| ensures b[i].e.who != u { assert b[i] == h[c + i]; }
      NoneOf(b, u);
    }
  }

  lemma InsertEffective(h: seq<Stamped>, x: Stamped)
    requires x.e.Empty?
    ensures Effective(Entries(Insert(h, x))) == Effective(Entries(h))
  {
    hide Effective, Entries, Cut;
    var c := Cut(h, x.key);
    var a, b := h[..c], h[c..];
    assert h == a + b;
    EntriesOfBoth(a + [x], b);
    EntriesOfBoth(a, b);
    EntriesSnoc(a, x);
    EffectiveOfBoth(Entries(a) + [x.e], Entries(b));
    EffectiveOfBoth(Entries(a), Entries(b));
    EffectiveSnoc(Entries(a), x.e);
  }

  lemma InsertEarlier(h: seq<Stamped>, x: Stamped, u: Tid, l: Local)
    requires Earlier(h, u, l) && u != x.e.who
    ensures Earlier(Insert(h, x), u, l)
  {
    var c, h' := Cut(h, x.key), Insert(h, x);
    assert forall i :: 0 <= i < |h'| ==> h'[i] == if i < c then h[i] else if i == c then x else h[i - 1];
  }

  lemma InsertKeeps(h: seq<Stamped>, s: State, s': State, t: Tid, at: nat)
    requires HistoryInv(h, s) && t in s.threads && s'.sh.log == s.sh.log
    requires s'.threads.Keys == s.threads.Keys && forall u :: u in s.threads && u != t ==> s'.threads[u] == s.threads[u]
    requires !s.threads[t].pc.Idle? && Pending(t, s.threads[t].pc) == [] && s.threads[t].began <= at <= |s.sh.log|
    requires Replay(s.sh.log[..at]) == Queue([])
    requires s'.threads[t].pc.Idle? && Whats(s'.threads[t].answers) == Whats(s.threads[t].answers) + [Empty(t)]
    ensures HistoryInv(Insert(h, Stamped(2 * at, Empty(t))), s')
  {
    hide Replay, Of, Entries, Whats, Effective, Agrees, Cut, Insert;
    var x := Stamped(2 * at, Empty(t));
    InsertSorts(h, x, |s.sh.log|);
    InsertAgrees(h, s.sh.log, at, t);
    InsertEffective(h, x);
    assert Earlier(h, t, s.threads[t]);
    forall u ensures Of(Entries(Insert(h, x)), u) == Of(Entries(h), u) + if u == t then [Empty(t)] else [] {
      InsertOf(h, x, u);
    }
    forall u | u in s'.threads
      ensures Complete(Insert(h, x), u, s'.threads[u]) && Earlier(Insert(h, x), u, s'.threads[u])
    {
      assert Complete(h, u, s.threads[u]) && Earlier(h, u, s.threads[u]);
      if u != t { InsertEarlier(h, x, u, s.threads[u]); }
    }
  }

  // ----- every step -----

  /** A step that puts nothing into the history. */
  lemma SilentKeeps(h: seq<Stamped>, s: State, s': State, t: Tid)
    requires HistoryInv(h, s) && s'.sh.log == s.sh.log && s'.threads.Keys == s.threads.Keys + {t}
    requires forall u :: u in s.threads && u != t ==> s'.threads[u] == s.threads[u]
    requires var l' := s'.threads[t];
      if t in s.threads then
        var l := s.threads[t];
        && Whats(l'.answers) + Pending(t, l'.pc) == Whats(l.answers) + Pending(t, l.pc)
        && (l'.pc.Idle? || Pending(t, l'.pc) != [] || l'.began == |s.sh.log|
            || (!l.pc.Idle? && Pending(t, l.pc) == [] && l'.began == l.began))
      else l'.answers == [] && l'.pc.Idle?
    ensures HistoryInv(h, s')
  {
    hide Replay, Of, Entries, Effective, Agrees, Cut;
    forall u | u in s'.threads ensures Complete(h, u, s'.threads[u]) && Earlier(h, u, s'.threads[u]) {
      if u in s.threads { assert Complete(h, u, s.threads[u]) && Earlier(h, u, s.threads[u]); }
    }
  }

  /** One more answer. */
  ghost predicate AnswersMore(l: Local, l': Local, what: Entry) {
    |l'.answers| == |l.answers| + 1 && l'.answers[..|l.answers|] == l.answers && l'.answers[|l.answers|].what == what
  }

  /** The four things a step of t can be to the history: nothing, the end of a push
      that is in it already, an empty answer, or a push or pop that takes effect. */
  ghost predicate GoesOn(sh: Shared, sh': Shared, t: Tid, l: Local, l': Local) {
    && sh'.log == sh.log && l'.answers == l.answers && Pending(t, l'.pc) == Pending(t, l.pc)
    && (l' == l || (!l.pc.Idle? && Pending(t, l.pc) == [] && l'.began == l.began))
  }

  ghost predicate EndsPush(sh: Shared, sh': Shared, t: Tid, l: Local, l': Local) {
    && sh'.log == sh.log && l'.pc.Idle? && l.pc.Push? && Pending(t, l.pc) == [Enq(t, l.pc.v)]
    && AnswersMore(l, l', Enq(t, l.pc.v))
  }

  ghost predicate AnswersEmpty(sh: Shared, sh': Shared, t: Tid, l: Local, l': Local) {
    && sh'.log == sh.log && l'.pc.Idle? && !l.pc.Idle? && Pending(t, l.pc) == [] && AnswersMore(l, l', Empty(t))
    && l.began <= l'.answers[|l.answers|].at <= |sh.log|
    && Replay(sh.log[..l'.answers[|l.answers|].at]) == Queue([])
  }

  ghost predicate TakesEffect(sh: Shared, sh': Shared, t: Tid, l: Local, l': Local) {
    && |sh'.log| == |sh.log| + 1 && sh'.log[..|sh.log|] == sh.log && Pending(t, l.pc) == []
    && var e := sh'.log[|sh.log|];
      && e.who == t && !e.Empty?
      && ((l'.answers == l.answers && Pending(t, l'.pc) == [e]) || (l'.pc.Idle? && AnswersMore(l, l', e)))
  }

  lemma ActSays(sh: Shared, t: Tid, l: Local)
    requires LocalInv(sh, t, l)
    ensures var (sh', l') := Act(sh, t, l);
      || GoesOn(sh, sh', t, l, l') || EndsPush(sh, sh', t, l, l')
      || AnswersEmpty(sh, sh', t, l, l') || TakesEffect(sh, sh', t, l, l')
  {
    hide Replay, Of, Effects, SharedInv;
  }

  lemma WhatsGrow(before: seq<Answer>, after: seq<Answer>)
    requires |after| == |before| + 1 && after[..|before|] == before
    ensures Whats(after) == Whats(before) + [after[|before|].what]
  {
    assert after == before + [after[|before|]];
    WhatsSnoc(before, after[|before|]);
  }

  lemma NoteSays(h: seq<Stamped>, s: State, t: Tid)
    requires t in s.threads
    ensures var (sh', l') := Act(s.sh, t, s.threads[t]);
      var l := s.threads[t];
      && (GoesOn(s.sh, sh', t, l, l') || EndsPush(s.sh, sh', t, l, l') ==> Note(h, s, Step(t)) == h)
      && (AnswersEmpty(s.sh, sh', t, l, l') ==>
            Note(h, s, Step(t)) == Insert(h, Stamped(2 * l'.answers[|l.answers|].at, Empty(t))))
      && (TakesEffect(s.sh, sh', t, l, l') ==>
            Note(h, s, Step(t)) == h + [Stamped(2 * |s.sh.log| + 1, sh'.log[|s.sh.log|])])
  {
    hide Act, Insert, Replay;
  }

  /** A step of t changes nobody else. */
  ghost predicate OnlyOne(s: State, s': State, t: Tid) {
    && t in s.threads && s'.threads.Keys == s.threads.Keys
    && forall u :: u in s.threads && u != t ==> s'.threads[u] == s.threads[u]
  }

  lemma StepFrame(s: State, t: Tid)
    requires Inv(s) && t in s.threads
    ensures var s', l, r := Apply(s, Step(t)), s.threads[t], Act(s.sh, t, s.threads[t]);
      && OnlyOne(s, s', t) && s'.sh == r.0 && t in s'.threads && s'.threads[t] == r.1
      && (GoesOn(s.sh, r.0, t, l, r.1) || EndsPush(s.sh, r.0, t, l, r.1)
          || AnswersEmpty(s.sh, r.0, t, l, r.1) || TakesEffect(s.sh, r.0, t, l, r.1))
  {
    assert LocalInv(s.sh, t, s.threads[t]);
    hide Inv, Act, GoesOn, EndsPush, AnswersEmpty, TakesEffect, LocalInv;
    ActSays(s.sh, t, s.threads[t]);
  }

  lemma StepKeepsHistory(h: seq<Stamped>, s: State, t: Tid)
    requires Inv(s) && HistoryInv(h, s) && t in s.threads
    ensures HistoryInv(Note(h, s, Step(t)), Apply(s, Step(t)))
  {
    hide Inv, HistoryInv, Act, Apply, Insert, Note, GoesOn, EndsPush, AnswersEmpty, TakesEffect, OnlyOne;
    StepFrame(s, t);
    var s', l := Apply(s, Step(t)), s.threads[t];
    var l' := s'.threads[t];
    NoteSays(h, s, t);
    if GoesOn(s.sh, s'.sh, t, l, l') {
      GoingOnKeeps(h, s, s', t);
    } else if EndsPush(s.sh, s'.sh, t, l, l') {
      EndingKeeps(h, s, s', t);
    } else if AnswersEmpty(s.sh, s'.sh, t, l, l') {
      EmptyAnswerKeeps(h, s, s', t);
    } else {
      EffectKeeps(h, s, s', t);
    }
  }

  lemma GoingOnKeeps(h: seq<Stamped>, s: State, s': State, t: Tid)
    requires HistoryInv(h, s) && OnlyOne(s, s', t)
    requires GoesOn(s.sh, s'.sh, t, s.threads[t], s'.threads[t])
    ensures HistoryInv(h, s')
  {
    hide HistoryInv, Whats, Pending;
    PendingIdle(t);
    if s'.threads[t] == s.threads[t] { Unchanged(h, s, s'); } else { SilentKeeps(h, s, s', t); }
  }

  lemma Unchanged(h: seq<Stamped>, s: State, s': State)
    requires HistoryInv(h, s) && s'.sh.log == s.sh.log && s'.threads.Keys == s.threads.Keys
    requires forall u :: u in s.threads ==> s'.threads[u] == s.threads[u]
    ensures HistoryInv(h, s')
  {
  }

  lemma EndingKeeps(h: seq<Stamped>, s: State, s': State, t: Tid)
    requires HistoryInv(h, s) && OnlyOne(s, s', t)
    requires EndsPush(s.sh, s'.sh, t, s.threads[t], s'.threads[t])
    ensures HistoryInv(h, s')
  {
    hide HistoryInv, Whats, Pending;
    PendingIdle(t);
    WhatsGrow(s.threads[t].answers, s'.threads[t].answers);
    SilentKeeps(h, s, s', t);
  }

  lemma EmptyAnswerKeeps(h: seq<Stamped>, s: State, s': State, t: Tid)
    requires HistoryInv(h, s) && OnlyOne(s, s', t)
    requires AnswersEmpty(s.sh, s'.sh, t, s.threads[t], s'.threads[t])
    ensures HistoryInv(Insert(h, Stamped(2 * s'.threads[t].answers[|s.threads[t].answers|].at, Empty(t))), s')
  {
    hide HistoryInv, Whats, Pending, Replay, Insert;
    WhatsGrow(s.threads[t].answers, s'.threads[t].answers);
    InsertKeeps(h, s, s', t, s'.threads[t].answers[|s.threads[t].answers|].at);
  }

  lemma EffectKeeps(h: seq<Stamped>, s: State, s': State, t: Tid)
    requires HistoryInv(h, s) && OnlyOne(s, s', t)
    requires TakesEffect(s.sh, s'.sh, t, s.threads[t], s'.threads[t])
    ensures HistoryInv(h + [Stamped(2 * |s.sh.log| + 1, s'.sh.log[|s.sh.log|])], s')
  {
    hide HistoryInv, Whats, Pending;
    var l, l', e := s.threads[t], s'.threads[t], s'.sh.log[|s.sh.log|];
    PendingIdle(t);
    assert s'.sh.log == s.sh.log + [e];
    if l'.answers != l.answers || Pending(t, l'.pc) != [e] { WhatsGrow(l.answers, l'.answers); }
    assert Whats(l.answers) + [] == Whats(l.answers) && Whats(l.answers) + [e] + [] == Whats(l.answers) + [e];
    AppendKeeps(h, s, s', t, e);
  }

  lemma PendingIdle(t: Tid)
    ensures Pending(t, Idle) == []
  {
  }

  lemma ApplyKeepsHistory(h: seq<Stamped>, s: State, e: Event)
    requires Inv(s) && HistoryInv(h, s)
    ensures HistoryInv(Note(h, s, e), Apply(s, e))
  {
    hide Inv, HistoryInv, Replay, Act, Whats;
    match e
    case Step(t) => if t in s.threads { StepKeepsHistory(h, s, t); }
    case _ => if Apply(s, e) != s { SilentKeeps(h, s, Apply(s, e), e.t); }
  }

  lemma {:induction false} RunKeepsHistory(h: seq<Stamped>, s: State, es: seq<Event>)
    requires Inv(s) && HistoryInv(h, s)
    ensures HistoryInv(NoteAll(h, s, es), Run(s, es))
    decreases |es|
  {
    hide Inv, HistoryInv, Apply, Note;
    if es != [] {
      ApplyKeeps(s, es[0]);
      ApplyKeepsHistory(h, s, es[0]);
      RunKeepsHistory(Note(h, s, es[0]), Apply(s, es[0]), es[1..]);
    }
  }

  // ----- the result -----

  /** One sequential history explains the whole run: it is legal and leaves the
      queue that the memory holds, its pushes and pops are in the order in which
      they took effect, and each thread's part of it is exactly what its calls
      answered, in order, and a push that has yet to swing tail. */
  lemma OneHistory(es: seq<Event>, t: Tid)
    ensures var s, h := Run(Init(), es), History(es);
      && Replay(h).Queue? && Replay(h) == Replay(s.sh.log) && Effective(h) == s.sh.log
      && Of(h, t) == if t in s.threads then Whats(s.threads[t].answers) + Pending(t, s.threads[t].pc) else []
  {
    Reachable([]);
    Reachable(es);
    StartsEmpty();
    RunKeepsHistory([], Init(), es);
    var s, g := Run(Init(), es), NoteAll([], Init(), es);
    assert Replay(s.sh.log).Queue?;
    hide Run, NoteAll, Inv, Replay, Agrees, Of;
    WholeHistory(g, s.sh.log);
    if t in s.threads { assert Complete(g, t, s.threads[t]); }
  }

  lemma StartsEmpty()
    ensures Inv(Init()) && HistoryInv([], Init())
  {
    Reachable([]);
  }
}
