/** Code that runs among others: before each of its atomic accesses the others take
    a turn, and nothing that they were to do is dropped. */
module Turns {

  /** What the others do before one access, and whether that access, when it is a
      weak CAS, fails spuriously. */
  datatype Turn<E> = Turn(es: seq<E>, weakFails: bool)

  /** The events in a trace that are not mine. */
  ghost function ByOthers<E>(mine: E -> bool, es: seq<E>): seq<E> {
    if es == [] then []
    else ByOthers(mine, es[..|es| - 1]) + if mine(es[|es| - 1]) then [] else [es[|es| - 1]]
  }

  /** How many are mine. */
  ghost function Mine<E>(mine: E -> bool, es: seq<E>): nat {
    if es == [] then 0 else Mine(mine, es[..|es| - 1]) + if mine(es[|es| - 1]) then 1 else 0
  }

  ghost function AllOf<E>(env: seq<Turn<E>>): seq<E> { if env == [] then [] else env[0].es + AllOf(env[1..]) }

  ghost predicate Foreign<E>(mine: E -> bool, env: seq<Turn<E>>) {
    forall i, j :: 0 <= i < |env| && 0 <= j < |env[i].es| ==> !mine(env[i].es[j])
  }

  /** Between two traces the others did exactly what they were to do, with `rest`
      left over: one turn of theirs before each event of mine until none was left. */
  ghost predicate Spent<E>(mine: E -> bool, before: seq<E>, env: seq<Turn<E>>, after: seq<E>, rest: seq<Turn<E>>) {
    && ByOthers(mine, after) + AllOf(rest) == ByOthers(mine, before) + AllOf(env)
    && |rest| <= |env|
    && (rest != [] ==> Mine(mine, after) + |rest| == Mine(mine, before) + |env|)
  }

  function Later<E>(env: seq<Turn<E>>): seq<Turn<E>> { if env == [] then [] else env[1..] }

  lemma {:induction false} OthersMove<E>(mine: E -> bool, before: seq<E>, es: seq<E>)
    requires forall j :: 0 <= j < |es| ==> !mine(es[j])
    ensures ByOthers(mine, before + es) == ByOthers(mine, before) + es
    ensures Mine(mine, before + es) == Mine(mine, before)
    decreases |es|
  {
    if es == [] {
      assert before + es == before;
    } else {
      var init, last := es[..|es| - 1], es[|es| - 1];
      OthersMove(mine, before, init);
      assert (before + es)[..|before + es| - 1] == before + init && es == init + [last];
    }
  }

  /** The others take the first of their turns. */
  lemma TurnTaken<E>(mine: E -> bool, before: seq<E>, env: seq<Turn<E>>)
    requires env != [] && Foreign(mine, env)
    ensures forall j :: 0 <= j < |env[0].es| ==> !mine(env[0].es[j])
    ensures Foreign(mine, env[1..]) && Mine(mine, before + env[0].es) == Mine(mine, before)
    ensures ByOthers(mine, before + env[0].es) + AllOf(env[1..]) == ByOthers(mine, before) + AllOf(env)
  {
    OthersMove(mine, before, env[0].es);
    hide ByOthers, Mine;
    var others, later := ByOthers(mine, before), AllOf(env[1..]);
    assert others + env[0].es + later == others + (env[0].es + later);
    assert forall i :: 0 <= i < |env[1..]| ==> env[1..][i] == env[i + 1];
  }

  lemma IMove<E>(mine: E -> bool, before: seq<E>, e: E)
    requires mine(e)
    ensures ByOthers(mine, before + [e]) == ByOthers(mine, before) && Mine(mine, before + [e]) == Mine(mine, before) + 1
  {
    assert (before + [e])[..|before|] == before;
  }
}
