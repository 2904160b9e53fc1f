/** The sentinel-headed doubly linked list behind the cache policy. */
module LinkedLists {

  class ListNode {
    var value: nat
    var prev: ListNode?
    var next: ListNode?

    constructor (value: nat)
      ensures this.value == value && prev == null && next == null
    {
      this.value, prev, next := value, null, null;
    }
  }

  /** ns is the list's nodes from the sentinel to the tail, linked both ways. */
  ghost predicate Linked(ns: seq<ListNode>)
    reads ns
  {
    && |ns| >= 1
    && (forall i, j :: 0 <= i < j < |ns| ==> ns[i] != ns[j])
    && forall i: nat {:trigger LinkedAt(ns, i)} :: i < |ns| ==> LinkedAt(ns, i)
  }

  ghost predicate LinkedAt(ns: seq<ListNode>, i: nat)
    reads ns
  {
    && i < |ns|
    && ns[i].prev == (if i == 0 then null else ns[i - 1])
    && ns[i].next == (if i + 1 < |ns| then ns[i + 1] else null)
  }

  lemma {:induction false} InsertedAt<T>(s: seq<T>, i: nat, x: T, j: nat)
    requires i < |s| && j <= |s|
    ensures (s[..i + 1] + [x] + s[i + 1..])[j] == if j <= i then s[j] else if j == i + 1 then x else s[j - 1]
  {
  }

  class PoolingList {
    const head: ListNode
    var tail: ListNode
    var size: nat
    ghost var nodes: seq<ListNode>
    ghost var values: seq<nat>

    /** The fields describe the chain of nodes, sentinel first, and the values they carry. */
    ghost predicate Valid()
      reads this, nodes
    {
      && Linked(nodes) && nodes[0] == head && nodes[|nodes| - 1] == tail && size == |nodes| - 1
      && |values| == |nodes| && forall i {:trigger values[i]} :: 0 <= i < |nodes| ==> values[i] == nodes[i].value
    }

    constructor ()
      ensures Valid() && fresh(nodes) && nodes == [head] && values == [0]
    {
      var sentinel := new ListNode(0);
      head, tail, size, nodes, values := sentinel, sentinel, 0, [sentinel], [0];
    }

    method First() returns (node: ListNode)
      requires Valid() && size != 0
      ensures |nodes| >= 2 && node == nodes[1] && node.value == values[1]
    {
      assert LinkedAt(nodes, 0);
      node := head.next;
    }

    /** A new node behind node i. */
    method EmplaceBackTo(dest: ListNode, value: nat, ghost i: nat) returns (node: ListNode)
      requires Valid() && i < |nodes| && nodes[i] == dest
      modifies this, nodes
      ensures Valid() && fresh(node) && nodes == old(nodes)[..i + 1] + [node] + old(nodes)[i + 1..]
      ensures values == old(values)[..i + 1] + [value] + old(values)[i + 1..]
    {
      var next := dest.next;
      assert LinkedAt(nodes, i);
      node := new ListNode(value);
      node.prev, node.next := dest, next;
      dest.next := node;
      ghost var ns := nodes[..i + 1] + [node] + nodes[i + 1..];
      if next != null {
        next.prev := node;
      } else {
        tail := node;
      }
      size := size + 1;
      nodes, values := ns, values[..i + 1] + [value] + values[i + 1..];
      forall j: nat | j < |ns|
        ensures LinkedAt(ns, j)
      {
        if j <= i {
          assert old(LinkedAt(nodes, j));
        } else if j > i + 1 {
          assert old(LinkedAt(nodes, j - 1));
        }
      }
      forall j: nat {:trigger values[j]} | j < |ns|
        ensures values[j] == ns[j].value
      {
        InsertedAt(old(nodes), i, node, j);
        InsertedAt(old(values), i, value, j);
      }
    }

    method EmplaceBack(value: nat) returns (node: ListNode)
      requires Valid()
      modifies this, nodes
      ensures Valid() && fresh(node) && nodes == old(nodes) + [node] && values == old(values) + [value]
    {
      node := EmplaceBackTo(tail, value, |nodes| - 1);
    }

    method EmplaceFront(value: nat) returns (node: ListNode)
      requires Valid()
      modifies this, nodes
      ensures Valid() && fresh(node) && nodes == [old(nodes)[0], node] + old(nodes)[1..]
      ensures values == [old(values)[0], value] + old(values)[1..]
    {
      node := EmplaceBackTo(head, value, 0);
    }

    /** Unlinks node i. */
    method RemoveNode(dest: ListNode, ghost i: nat)
      requires Valid() && 1 <= i < |nodes| && nodes[i] == dest
      modifies this, nodes
      ensures Valid() && nodes == old(nodes)[..i] + old(nodes)[i + 1..]
      ensures values == old(values)[..i] + old(values)[i + 1..]
    {
      assert LinkedAt(nodes, i);
      var prev, next := dest.prev, dest.next;
      ghost var ns := nodes[..i] + nodes[i + 1..];
      prev.next := next;
      if next != null {
        next.prev := prev;
      } else {
        tail := prev;
      }
      size := size - 1;
      nodes, values := ns, values[..i] + values[i + 1..];
      forall j: nat | j < |ns|
        ensures LinkedAt(ns, j)
      {
        if j < i {
          assert old(LinkedAt(nodes, j));
        } else {
          assert old(LinkedAt(nodes, j + 1));
        }
      }
    }
  }
}
