/**
 * The intrusive removable list of src/runtime/OFluxLinkedList.h: each node keeps the
 * location of the pointer that points to it, so it can take itself out.  The list
 * refines a sequence of nodes.  The runtime keeps its threads in one, with a counter.
 */
module RemovableList {

  // Where a pointer to a node is kept: nowhere, in the list, or in another node.
  datatype Loc = Nowhere | Head | NextOf(node: Node)

  class Node {
    var next: Node?
    var previous: Loc

    constructor ()
      ensures Loose()
    {
      next, previous := null, Nowhere;
    }

    // In no list.
    predicate Loose()
      reads this
    {
      next == null && previous == Nowhere
    }
  }

  ghost function After(nodes: seq<Node>, i: nat): Node? {
    if i + 1 < |nodes| then nodes[i + 1] else null
  }

  ghost function PointedFrom(nodes: seq<Node>, i: nat): Loc {
    if 0 < i <= |nodes| then NextOf(nodes[i - 1]) else Head
  }

  ghost predicate Distinct(nodes: seq<Node>) {
    forall i, j :: 0 <= i < j < |nodes| ==> nodes[i] != nodes[j]
  }

  // The sequence without one of its members.
  function Without(nodes: seq<Node>, n: Node): (rest: seq<Node>)
    ensures |rest| == if n in nodes then |nodes| - 1 else |nodes|
    ensures forall x :: x in rest ==> x in nodes
  {
    if nodes == [] then []
    else if nodes[0] == n then nodes[1..]
    else [nodes[0]] + Without(nodes[1..], n)
  }

  lemma {:induction false} WithoutAt(nodes: seq<Node>, i: nat)
    requires i < |nodes| && Distinct(nodes)
    ensures Without(nodes, nodes[i]) == nodes[..i] + nodes[i + 1..]
    decreases |nodes|
  {
    if i > 0 {
      WithoutAt(nodes[1..], i - 1);
      assert nodes[1..][..i - 1] == nodes[1..i] && nodes[1..][i..] == nodes[i + 1..];
    }
  }

  class LinkedListRemovable {
    var head: Node?
    var tail: Loc
    ghost var nodes: seq<Node>

    ghost predicate Valid()
      reads this, nodes
    {
      && Chain(nodes)
      && tail == (if nodes == [] then Nowhere else NextOf(nodes[|nodes| - 1]))
    }

    // The links and the locations of these nodes are as they should be.
    ghost predicate Chain(q: seq<Node>)
      reads this, q
    {
      && Distinct(q)
      && head == (if q == [] then null else q[0])
      && (forall i {:trigger q[i].next} :: 0 <= i < |q| ==> q[i].next == After(q, i))
      && (forall i {:trigger q[i].previous} :: 0 <= i < |q| ==> q[i].previous == PointedFrom(q, i))
    }

    constructor ()
      ensures Valid() && nodes == []
    {
      head, tail, nodes := null, Nowhere, [];
    }

    method InsertFront(n: Node)
      requires Valid() && n.Loose()
      modifies this, n, nodes
      ensures Valid() && nodes == [n] + old(nodes)
    {
      ghost var was := nodes;
      if tail == Nowhere {
        tail := NextOf(n);
      }
      n.previous := Head;
      if head != null {
        head.previous := NextOf(n);
      }
      n.next := head;
      head := n;
      nodes := [n] + nodes;
      forall i | 0 <= i < |nodes|
        ensures nodes[i].next == After(nodes, i) && nodes[i].previous == PointedFrom(nodes, i)
      {
        if i > 0 {
          assert nodes[i] == was[i - 1] && After(nodes, i) == After(was, i - 1);
        }
      }
    }

    method InsertBack(n: Node)
      requires Valid() && n.Loose()
      modifies this, n, nodes
      ensures Valid() && nodes == old(nodes) + [n]
    {
      ghost var was := nodes;
      if tail == Nowhere {
        InsertFront(n);
      } else {
        n.previous := tail;
        tail.node.next := n;
        tail := NextOf(n);
        nodes := nodes + [n];
        forall i | 0 <= i < |nodes|
          ensures nodes[i].next == After(nodes, i) && nodes[i].previous == PointedFrom(nodes, i)
        {
          if i < |was| {
            assert nodes[i] == was[i] && was[i].previous == PointedFrom(was, i) == PointedFrom(nodes, i);
            assert i < |was| - 1 ==> was[i].next == After(was, i) == After(nodes, i);
          }
        }
      }
    }

    // Removable::remove, for a member: what points to it points past it.
    method Unlink(n: Node, ghost k: nat)
      requires Chain(nodes) && k < |nodes| && nodes[k] == n
      modifies this`head, nodes
      ensures Chain(nodes[..k] + nodes[k + 1..]) && n.previous == old(n.previous)
    {
      ghost var rest := nodes[..k] + nodes[k + 1..];
      assert n.next == After(nodes, k) && n.previous == PointedFrom(nodes, k);
      if n.previous == Head {
        head := n.next;
      } else {
        n.previous.node.next := n.next;
      }
      if n.next != null {
        n.next.previous := n.previous;
      }
      forall i | 0 <= i < |rest|
        ensures rest[i].next == After(rest, i) && rest[i].previous == PointedFrom(rest, i)
      {
        var j := if i < k then i else i + 1;
        assert rest[i] == nodes[j];
        assert old(nodes[j].next) == After(nodes, j) && old(nodes[j].previous) == PointedFrom(nodes, j);
      }
    }

    // True exactly if the node was in the list.
    method Remove(n: Node) returns (res: bool)
      requires Valid() && (n in nodes || n.Loose())
      modifies this, n, nodes
      ensures Valid() && res == (n in old(nodes)) && n.Loose()
      ensures nodes == Without(old(nodes), n)
    {
      ghost var was, rest := nodes, Without(nodes, n);
      hide Without;
      ghost var k := 0;
      if n in nodes {
        k :| 0 <= k < |nodes| && nodes[k] == n;
        assert n.previous == PointedFrom(nodes, k);
        WithoutAt(nodes, k);
      } else {
        NotIn(nodes, n);
      }
      if tail == NextOf(n) {
        tail := n.previous;
      }
      res := n.previous != Nowhere;
      if res {
        Unlink(n, k);
      }
      assert Chain(rest) && n !in rest;
      nodes := rest;
      n.previous := Nowhere;
      n.next := null;
      assert Chain(rest);
      if tail == Head {
        tail := Nowhere;
        head := null;
      }
    }
  }

  lemma {:induction false} NotIn(nodes: seq<Node>, n: Node)
    requires n !in nodes
    ensures Without(nodes, n) == nodes
    decreases |nodes|
  {
    if nodes != [] {
      NotIn(nodes[1..], n);
    }
  }

  // The runtime's threads and their count.
  class Threads {
    const list: LinkedListRemovable
    var count: int

    ghost predicate Valid()
      reads this, list, list.nodes
    {
      list.Valid() && count == |list.nodes|
    }

    constructor ()
      ensures Valid() && list.nodes == [] && fresh(list)
    {
      list := new LinkedListRemovable();
      count := 0;
    }

    method Add(t: Node)
      requires Valid() && t.Loose()
      modifies this, list, t, list.nodes
      ensures Valid() && list.nodes == [t] + old(list.nodes)
    {
      count := count + 1;
      list.InsertFront(t);
    }

    // A thread may be removed more than once; it is counted once.
    method Remove(t: Node)
      requires Valid() && (t in list.nodes || t.Loose())
      modifies this, list, t, list.nodes
      ensures Valid() && list.nodes == Without(old(list.nodes), t)
    {
      var res := list.Remove(t);
      if res {
        count := count - 1;
      }
    }
  }
}
