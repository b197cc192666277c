/**
 * The queue of the unbounded producer/consumer program: a singly linked list of heap nodes with a pointer
 * to its head and one to its tail. The mutex around each operation is not part of this class.
 */
module LinkedQueue {

  class Node {
    var data: nat
    var next: Node?

    constructor (data: nat)
      ensures this.data == data && next == null
    {
      this.data := data;
      next := null;
    }
  }

  class Queue {
    var head: Node?
    var tail: Node?
    ghost var nodes: seq<Node>  // the nodes from head to tail

    /** Head and tail delimit a chain of distinct nodes that ends in null. */
    ghost predicate Valid()
      reads this, nodes
    {
      && (forall i, j :: 0 <= i < j < |nodes| ==> nodes[i] != nodes[j])
      && (forall i :: 0 <= i < |nodes| - 1 ==> nodes[i].next == nodes[i + 1])
      && if nodes == [] then head == null && tail == null
         else head == nodes[0] && tail == nodes[|nodes| - 1] && nodes[|nodes| - 1].next == null
    }

    /** The abstract value: the data from head to tail. */
    ghost function Contents(): (s: seq<nat>)
      reads this, nodes
    {
      seq(|nodes|, i requires 0 <= i < |nodes| reads this, nodes => nodes[i].data)
    }

    constructor ()
      ensures Valid() && Contents() == []
    {
      head := null;
      tail := null;
      nodes := [];
    }

    method IsEmpty() returns (empty: bool)
      requires Valid()
      ensures empty <==> Contents() == []
    {
      empty := head == null;
    }

    /** Appends at the tail; `allocates` tells whether there is memory for a node. */
    method Enqueue(data: nat, allocates: bool) returns (ok: bool)
      requires Valid()
      modifies this, nodes
      ensures Valid() && ok == allocates
      ensures Contents() == if ok then old(Contents()) + [data] else old(Contents())
      ensures |nodes| == |Contents()| && nodes[..|old(nodes)|] == old(nodes)
      ensures forall i :: |old(nodes)| <= i < |nodes| ==> fresh(nodes[i])
    {
      if allocates {
        var node := new Node(data);
        if tail != null {
          tail.next := node;
          tail := node;
        } else {
          head := node;
          tail := node;
        }
        nodes := nodes + [node];
        ok := true;
      } else {
        ok := false;
      }
    }

    /** Takes the first value; the caller may not want it, and then 0 is a filler. */
    method Dequeue(wanted: bool) returns (ok: bool, data: nat)
      requires Valid()
      modifies this
      ensures Valid()
      ensures ok <==> old(Contents()) != []
      ensures ok ==> Contents() == old(Contents())[1..] && nodes == old(nodes)[1..]
      ensures !ok ==> Contents() == [] && nodes == []
      ensures data == if ok && wanted then old(Contents())[0] else 0
    {
      data := 0;
      ok := head != null;
      if ok {
        if wanted {
          data := head.data;
        }
        RemoveFirstUnsafe();
      }
    }

    method RemoveFirstUnsafe()
      requires Valid() && Contents() != []
      modifies this
      ensures Valid()
      ensures Contents() == old(Contents())[1..] && nodes == old(nodes)[1..]
    {
      head := head.next;
      nodes := nodes[1..];
      if head == null {
        tail := null;
      }
    }

    /** Removes node after node, from the head on. */
    method Clear()
      requires Valid()
      modifies this
      ensures Valid() && Contents() == [] && head == null && tail == null
    {
      ghost var i := 0;
      while head != null
        invariant Valid() && i <= |old(nodes)| && nodes == old(nodes)[i..]
        decreases |nodes|
      {
        assert |Contents()| > 0;
        RemoveFirstUnsafe();
        i := i + 1;
      }
    }
  }
}
