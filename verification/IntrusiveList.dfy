/** The intrusive list of list.h. A node carries its own link, Pop leaves it as
    it was, and Push does not clear it, so the link of the last node is stale:
    only size_ says where a list ends. */
module IntrusiveList {
  import opened Sequences

  class Node {
    var next: Node?

    constructor ()
      ensures next == null
    {
      next := null;
    }

    method LinkAfter(prev: Node)
      modifies prev
      ensures prev.next == this
    {
      prev.next := this;
    }
  }

  /** Each node is linked to the one after it. */
  ghost predicate Linked(s: seq<Node>)
    reads s
  {
    forall i :: 0 <= i < |s| - 1 ==> s[i].next == s[i + 1]
  }

  class List {
    var size: nat
    var head: Node?
    var tail: Node?
    ghost var nodes: seq<Node>

    ghost predicate Valid()
      reads this, nodes
    {
      && size == |nodes|
      && NoRepeats(nodes)
      && Linked(nodes)
      && (if nodes == [] then head == null && tail == null
          else head == nodes[0] && tail == nodes[|nodes| - 1])
    }

    constructor ()
      ensures Valid() && nodes == []
    {
      size, head, tail, nodes := 0, null, null, [];
    }

    /** The copy constructor: both lists then own the same nodes. */
    constructor Copy(o: List)
      requires o.Valid()
      ensures Valid() && nodes == o.nodes
    {
      size, head, tail, nodes := o.size, o.head, o.tail, o.nodes;
    }

    method IsEmpty() returns (empty: bool)
      requires Valid()
      ensures empty <==> nodes == []
    {
      empty := size == 0;
    }

    method Clear()
      modifies this
      ensures Valid() && nodes == []
    {
      size, head, tail, nodes := 0, null, null, [];
    }

    method Push(node: Node)
      requires Valid() && node !in nodes
      modifies this, if nodes == [] then {} else {nodes[|nodes| - 1]}
      ensures Valid() && nodes == old(nodes) + [node]
      ensures forall i :: 0 <= i < |nodes| - 1 && i != |nodes| - 2 ==> nodes[i].next == old(nodes[i].next)
      ensures node.next == old(node.next)
    {
      if head != null {
        node.LinkAfter(tail);
      } else {
        head := node;
      }
      tail := node;
      size := size + 1;
      nodes := nodes + [node];
    }

    method Pop() returns (p: Node?)
      requires Valid()
      modifies this
      ensures Valid()
      ensures old(nodes) == [] ==> p == null && nodes == []
      ensures old(nodes) != [] ==> p == old(nodes)[0] && nodes == old(nodes)[1..]
    {
      if size == 0 {
        return null;
      }
      p := head;
      ghost var rest := nodes[1..];
      if size == 1 {
        head, tail := null, null;
      } else {
        head := p.next;
        assert rest[0] == nodes[1];
      }
      size := size - 1;
      nodes := rest;
    }
  }

  /** std::swap on two lists, which goes through a copy: the copy's destructor
      asserts that it is empty, which is why the empty list has to come first. */
  method Swap(a: List, b: List)
    requires a != b && a.Valid() && b.Valid() && a.nodes == []
    modifies a, b
    ensures a.Valid() && b.Valid() && a.nodes == old(b.nodes) && b.nodes == old(a.nodes)
  {
    var tmp := new List.Copy(a);
    a.size, a.head, a.tail, a.nodes := b.size, b.head, b.tail, b.nodes;
    b.size, b.head, b.tail, b.nodes := tmp.size, tmp.head, tmp.tail, tmp.nodes;
    var empty := tmp.IsEmpty();
    assert empty;
  }

  /** The nodes met by following links from p, at most `steps` of them. */
  ghost function Follow(p: Node?, steps: nat): seq<Node>
    reads *
    decreases steps
  {
    if p == null || steps == 0 then [] else [p] + Follow(p.next, steps - 1)
  }

  /** A walk that stops at a null link meets exactly the list's nodes, provided
      the last node's link is not stale; and then it stops by itself. */
  lemma {:induction false} WalkMeetsTheList(s: seq<Node>, steps: nat)
    requires s != [] && Linked(s) && |s| <= steps
    ensures s[|s| - 1].next == null ==> Follow(s[0], steps) == s
    ensures |s| < steps && Follow(s[0], steps) == s ==> s[|s| - 1].next == null
  {
    if |s| > 1 {
      assert s[0].next == s[1];
      assert s[1..][0] == s[1];
      assert forall i :: 0 <= i < |s[1..]| - 1 ==> s[1..][i].next == s[i + 1].next;
      WalkMeetsTheList(s[1..], steps - 1);
      assert Follow(s[0], steps) == [s[0]] + Follow(s[1], steps - 1);
      assert s == [s[0]] + s[1..];
      if Follow(s[0], steps) == s { assert Follow(s[1], steps - 1) == s[1..]; }
    } else {
      assert Follow(s[0], steps) == [s[0]] + Follow(s[0].next, steps - 1);
      if Follow(s[0], steps) == s && 1 < steps { assert Follow(s[0].next, steps - 1) == []; }
    }
  }
}
