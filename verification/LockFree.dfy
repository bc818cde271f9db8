/** Vocabulary shared by the lock-free queue models. */
module LockFree {

  /** What a queue stores. Nothing below depends on what it is. */
  type Value(==, !new)

  /** The name of a thread. */
  type Tid = nat

  /** A pointer to a heap cell. Allocation hands out each number once. */
  datatype Ptr = Null | At(n: nat)

  /** One completed queue operation with its argument or its answer. */
  datatype Entry = Enq(who: Tid, v: Value) | Deq(who: Tid, v: Value) | Empty(who: Tid)

  /** The outcome of replaying operations on a sequential FIFO queue. */
  datatype Replayed = Illegal | Queue(items: seq<Value>)

  function Replay(log: seq<Entry>): Replayed {
    if log == [] then Queue([])
    else
      match Replay(log[..|log| - 1])
      case Illegal => Illegal
      case Queue(q) =>
        match log[|log| - 1]
        case Enq(_, v) => Queue(q + [v])
        case Deq(_, v) => if q != [] && q[0] == v then Queue(q[1..]) else Illegal
        case Empty(_) => if q == [] then Queue(q) else Illegal
  }

  /** The operations of one thread, in order. */
  function Of(log: seq<Entry>, t: Tid): seq<Entry> {
    if log == [] then []
    else
      var rest := Of(log[..|log| - 1], t);
      if log[|log| - 1].who == t then rest + [log[|log| - 1]] else rest
  }

  lemma ReplaySnoc(log: seq<Entry>, e: Entry)
    requires Replay(log).Queue?
    ensures Replay(log + [e]) ==
            var q := Replay(log).items;
            match e
            case Enq(_, v) => Queue(q + [v])
            case Deq(_, v) => if q != [] && q[0] == v then Queue(q[1..]) else Illegal
            case Empty(_) => if q == [] then Queue(q) else Illegal
  {
    assert (log + [e])[..|log|] == log;
  }

  lemma OfSnoc(log: seq<Entry>, e: Entry, t: Tid)
    ensures Of(log + [e], t) == if e.who == t then Of(log, t) + [e] else Of(log, t)
  {
    assert (log + [e])[..|log|] == log;
  }

  /** The values a log put in and the values it took out. */
  function Pushed(log: seq<Entry>): seq<Value> {
    if log == [] then []
    else
      var rest := Pushed(log[..|log| - 1]);
      if log[|log| - 1].Enq? then rest + [log[|log| - 1].v] else rest
  }

  function Popped(log: seq<Entry>): seq<Value> {
    if log == [] then []
    else
      var rest := Popped(log[..|log| - 1]);
      if log[|log| - 1].Deq? then rest + [log[|log| - 1].v] else rest
  }

  /** A legal log takes values out in exactly the order it put them in, and
      whatever it has not taken out is still queued. */
  lemma {:induction false} LegalLogsAreFifo(log: seq<Entry>)
    requires Replay(log).Queue?
    ensures Pushed(log) == Popped(log) + Replay(log).items
  {
    if log != [] {
      LegalLogsAreFifo(log[..|log| - 1]);
    }
  }
}
