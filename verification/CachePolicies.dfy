/** The cache policy object: two lists over one node pool, and an index from keys to nodes. */
module CachePolicies {
  import opened LinkedLists
  import opened LruPolicies

  class LruPolicy {
    const freeList: PoolingList
    const lockList: PoolingList
    var ptrMap: Index

    ghost predicate Valid()
      reads this, freeList, lockList, freeList.nodes, lockList.nodes
    {
      && freeList != lockList && freeList.Valid() && lockList.Valid()
      && (forall i, j :: 0 <= i < |freeList.nodes| && 0 <= j < |lockList.nodes| ==>
           freeList.nodes[i] != lockList.nodes[j])
      && Indexed(ptrMap, freeList.nodes, freeList.values, lockList.nodes, lockList.values)
    }

    ghost function Abstract(): Lru
      reads this, freeList, freeList.nodes
    {
      AbstractOf(ptrMap, freeList.values)
    }

    /** Reachable policies tell free keys from locked ones. */
    lemma {:induction false} AbstractOk()
      requires Valid()
      ensures Abstract().Ok()
      ensures forall k: nat {:trigger k in ptrMap} :: k in ptrMap <==> Abstract().Has(k)
    {
      IndexedOk(ptrMap, freeList.nodes, freeList.values, lockList.nodes, lockList.values);
    }

    constructor ()
      ensures Valid() && Abstract() == Lru([], map[]) && ptrMap.Keys == {}
      ensures fresh(freeList) && fresh(lockList) && fresh(freeList.nodes) && fresh(lockList.nodes)
    {
      freeList := new PoolingList();
      lockList := new PoolingList();
      ptrMap := map[];
      new;
      IndexEmpty(ptrMap, freeList.nodes, freeList.values, lockList.nodes, lockList.values);
    }

    predicate Test(k: nat)
      reads this
    {
      k in ptrMap
    }

    predicate IsLocked(k: nat)
      requires Test(k)
      reads this
    {
      ptrMap[k].isLocked
    }

    /** A key not cached yet becomes the last victim. */
    method Add(k: nat)
      requires Valid() && !Test(k)
      modifies this, freeList, freeList.nodes
      ensures Valid() && Abstract() == Added(old(Abstract()), k) && ptrMap.Keys == old(ptrMap.Keys) + {k}
      ensures fresh(set n | n in freeList.nodes && n !in old(freeList.nodes))
    {
      ghost var fn, fv, ln, lv := freeList.nodes, freeList.values, lockList.nodes, lockList.values;
      ghost var m := ptrMap;
      var node := freeList.EmplaceBack(k);
      ptrMap := ptrMap[k := InvertedPointer(node, false, 0)];
      IndexAdd(m, fn, fv, ln, lv, k, node);
    }

    /** Drops the next victim. */
    method Evict() returns (k: nat)
      requires Valid() && freeList.size != 0
      modifies this, freeList, freeList.nodes
      ensures Valid() && old(Abstract()).free != [] && k == old(Abstract()).free[0]
      ensures Abstract() == Lru(old(Abstract()).free[1..], old(Abstract()).locks)
      ensures k in old(ptrMap.Keys) && ptrMap.Keys == old(ptrMap.Keys) - {k}
      ensures fresh(set n | n in freeList.nodes && n !in old(freeList.nodes))
    {
      AbstractOk();
      IndexEvict(ptrMap, freeList.nodes, freeList.values, lockList.nodes, lockList.values);
      var node := freeList.First();
      k := node.value;
      freeList.RemoveNode(node, 1);
      ptrMap := ptrMap - {k};
    }

    /** Locks a cached key once more and returns its reference count. */
    method Lock(k: nat) returns (count: nat)
      requires Valid() && Test(k)
      modifies this, freeList, lockList, freeList.nodes, lockList.nodes
      ensures Valid() && Abstract() == LockedOnce(old(Abstract()), k)
      ensures k in Abstract().locks && count == Abstract().locks[k] && ptrMap.Keys == old(ptrMap.Keys)
    {
      LockStates(k);
      var p := ptrMap[k];
      if p.isLocked {
        count := p.refCount + 1;
        Recount(k, count);
      } else {
        DropFree(k, p.node);
        AddLocked(k);
        count := 1;
      }
    }

    /** A cached key is locked exactly when it has a reference count. */
    lemma {:induction false} LockStates(k: nat)
      requires Valid() && Test(k)
      ensures IsLocked(k) <==> k in Abstract().locks
      ensures IsLocked(k) ==> ptrMap[k].refCount == Abstract().locks[k] > 0
    {
      if IsLocked(k) {
        var i := FindLocked(ptrMap, freeList.nodes, freeList.values, lockList.nodes, lockList.values, k);
      }
    }

    /** Another reference count for a locked key. */
    method Recount(k: nat, count: nat)
      requires Valid() && Test(k) && IsLocked(k) && count > 0
      modifies this
      ensures Valid() && Abstract() == Lru(old(Abstract()).free, old(Abstract()).locks[k := count])
              && ptrMap.Keys == old(ptrMap.Keys)
    {
      IndexRecount(ptrMap, freeList.nodes, freeList.values, lockList.nodes, lockList.values, k, count);
      ptrMap := ptrMap[k := ptrMap[k].(refCount := count)];
    }

    /** Puts a key without an entry on the lock list. */
    method AddLocked(k: nat)
      requires Valid() && !Test(k)
      modifies this, lockList, lockList.nodes
      ensures Valid() && Abstract() == Lru(old(Abstract()).free, old(Abstract()).locks[k := 1])
      ensures ptrMap.Keys == old(ptrMap.Keys) + {k}
    {
      ghost var ln, lv := lockList.nodes, lockList.values;
      var node := lockList.EmplaceFront(k);
      IndexAddLocked(ptrMap, freeList.nodes, freeList.values, ln, lv, k, node);
      ptrMap := ptrMap[k := InvertedPointer(node, true, 1)];
    }

    /** Where an unlocked key's node is, and that the index survives its loss. */
    lemma {:induction false} FreeIndex(k: nat) returns (i: nat)
      requires Valid() && Test(k) && !IsLocked(k)
      ensures 1 <= i < |freeList.nodes| == |freeList.values| && freeList.nodes[i] == ptrMap[k].node
      ensures
        var ns, vs := freeList.nodes[..i] + freeList.nodes[i + 1..], freeList.values[..i] + freeList.values[i + 1..];
        && Indexed(ptrMap - {k}, ns, vs, lockList.nodes, lockList.values)
        && AbstractOf(ptrMap - {k}, vs) == Lru(Without(Abstract().free, k), Abstract().locks)
    {
      AbstractOk();
      i := FindFree(ptrMap, freeList.nodes, freeList.values, lockList.nodes, lockList.values, k);
      IndexDropFree(ptrMap, freeList.nodes, freeList.values, lockList.nodes, lockList.values, k, i);
    }

    /** Takes an unlocked key's node off the free list. The entry goes too; every caller writes a new one at once. */
    method DropFree(k: nat, node: ListNode)
      requires Valid() && Test(k) && !IsLocked(k) && node == ptrMap[k].node
      modifies this, freeList, freeList.nodes
      ensures Valid() && ptrMap == old(ptrMap) - {k}
      ensures Abstract() == Lru(Without(old(Abstract()).free, k), old(Abstract()).locks)
      ensures fresh(set n | n in freeList.nodes && n !in old(freeList.nodes))
    {
      ghost var i := FreeIndex(k);
      freeList.RemoveNode(node, i);
      ptrMap := ptrMap - {k};
    }

    method DropLocked(k: nat, node: ListNode)
      requires Valid() && Test(k) && IsLocked(k) && node == ptrMap[k].node
      modifies this, lockList, lockList.nodes
      ensures Valid() && ptrMap == old(ptrMap) - {k}
      ensures Abstract() == Lru(old(Abstract()).free, old(Abstract()).locks - {k})
    {
      ghost var i := FindLocked(ptrMap, freeList.nodes, freeList.values, lockList.nodes, lockList.values, k);
      IndexDropLocked(ptrMap, freeList.nodes, freeList.values, lockList.nodes, lockList.values, k, i);
      lockList.RemoveNode(node, i);
      ptrMap := ptrMap - {k};
    }

    /** Gives up one use of a locked key and returns the uses left. */
    method Unlock(k: nat) returns (count: nat)
      requires Valid() && Test(k) && IsLocked(k)
      modifies this, freeList, lockList, freeList.nodes, lockList.nodes
      ensures Valid() && k in old(Abstract()).locks && old(Abstract()).locks[k] > 0
      ensures Abstract() == UnlockedOnce(old(Abstract()), k)
      ensures count == old(Abstract()).locks[k] - 1 && ptrMap.Keys == old(ptrMap.Keys)
    {
      LockStates(k);
      var p := ptrMap[k];
      count := p.refCount - 1;
      if count == 0 {
        DropLocked(k, p.node);
        Add(k);
      } else {
        Recount(k, count);
      }
    }

    /**
     * A use of an unlocked key makes it the last victim. The key must be cached: for any other the program would look
     * up an entry without a node.
     */
    method MoveBack(k: nat)
      requires Valid() && Test(k) && !IsLocked(k)
      modifies this, freeList, freeList.nodes
      ensures Valid() && Abstract() == MovedBack(old(Abstract()), k) && ptrMap.Keys == old(ptrMap.Keys)
    {
      DropFree(k, ptrMap[k].node);
      Add(k);
    }

    /**
     * The same code on a locked key: it unlinks a node of the lock list as if it were the free list's, whose size loses
     * one and regains it. Afterwards no sequence of nodes fits the lock list's head, tail and size any more.
     */
    method MoveBackLocked(k: nat)
      requires Valid() && Test(k) && IsLocked(k)
      modifies this, freeList, lockList, freeList.nodes, lockList.nodes
      ensures forall ns: seq<ListNode> :: !Describes(lockList, ns)
      ensures fresh(freeList.tail) && freeList.tail.value == k && freeList.tail.next == null
      ensures k in old(ptrMap) && ptrMap == old(ptrMap)[k := old(ptrMap)[k].(node := freeList.tail)]
      ensures lockList.tail == old(lockList.tail)
      ensures lockList.size == old(lockList.size) && freeList.size == old(freeList.size)
      ensures
        var node := old(ptrMap)[k].node;
        var prev, next := old(node.prev), old(node.next);
        && prev != null && prev.next == (if next != null then next else freeList.tail)
        && (next != null ==>
              next.prev == prev && freeList.tail.prev == old(freeList.tail) && old(freeList.tail).next == freeList.tail)
        && (next == null ==> freeList.tail.prev == prev)
    {
      ghost var i := FindLocked(ptrMap, freeList.nodes, freeList.values, lockList.nodes, lockList.values, k);
      ghost var ln := lockList.nodes;
      assert LinkedAt(ln, i) && LinkedAt(freeList.nodes, |freeList.nodes| - 1);
      var node := ptrMap[k].node;
      var prev, next := node.prev, node.next;
      prev.next := next;
      if next != null {
        next.prev := prev;
      } else {
        freeList.tail := prev;
      }
      var node' := new ListNode(k);
      node'.prev := freeList.tail;
      freeList.tail.next := node';
      freeList.tail := node';
      ptrMap := ptrMap[k := ptrMap[k].(node := node')];
      ghost var chain := if i + 1 < |ln| then ln[..i] + ln[i + 1..] else ln[..i] + [node'];
      forall j: nat | j < |chain|
        ensures NextAt(chain, j)
      {
        if j < i {
          assert old(LinkedAt(ln, j));
        } else if i + 1 < |ln| {
          assert old(LinkedAt(ln, j + 1));
        }
      }
      forall ns: seq<ListNode>
        ensures !Describes(lockList, ns)
      {
        if Describes(lockList, ns) {
          SameChain(chain, ns);
        }
      }
    }
  }

  /** ns are the nodes the list's fields talk about. */
  ghost predicate Describes(list: PoolingList, ns: seq<ListNode>)
    reads list, ns
  {
    Linked(ns) && ns[0] == list.head && ns[|ns| - 1] == list.tail && list.size == |ns| - 1
  }

  ghost predicate NextAt(ns: seq<ListNode>, i: nat)
    reads ns
  {
    i < |ns| && ns[i].next == if i + 1 < |ns| then ns[i + 1] else null
  }

  /** Following next from one node leads through one chain only. */
  lemma {:induction false} SameChain(chain: seq<ListNode>, ns: seq<ListNode>)
    requires chain != [] && (forall j: nat {:trigger NextAt(chain, j)} :: j < |chain| ==> NextAt(chain, j))
    requires Linked(ns) && ns[0] == chain[0]
    ensures ns == chain
  {
    forall j: nat | j < |chain| && j < |ns|
      ensures ns[j] == chain[j]
    {
      SameAt(chain, ns, j);
    }
    var m := (if |ns| < |chain| then |ns| else |chain|) - 1;
    assert LinkedAt(ns, m) && NextAt(chain, m);
  }

  lemma {:induction false} SameAt(chain: seq<ListNode>, ns: seq<ListNode>, j: nat)
    requires forall i: nat {:trigger NextAt(chain, i)} :: i < |chain| ==> NextAt(chain, i)
    requires Linked(ns) && j < |chain| && j < |ns| && ns[0] == chain[0]
    ensures ns[j] == chain[j]
    decreases j
  {
    if j > 0 {
      SameAt(chain, ns, j - 1);
      assert LinkedAt(ns, j - 1) && NextAt(chain, j - 1);
    }
  }
}
