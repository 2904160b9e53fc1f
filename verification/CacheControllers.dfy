/**
 * The shard cache: validity bits beside the replacement policy, and the loop that evicts until an allocation succeeds.
 */
module CacheControllers {
  import opened QueryGraphs
  import opened LinkedLists
  import opened LruPolicies
  import opened CachePolicies

  datatype ShardDescriptor = ShardDescriptor(addr: nat, size: nat)
  datatype Entity = Entity(value: ShardDescriptor, valid: bool)

  /** freed holds the addresses of the buffers that were cached under the given keys. */
  ghost predicate FreedOf(was: seq<Entity>, keys: seq<nat>, freed: seq<nat>) {
    |freed| == |keys| && forall i {:trigger keys[i]} {:trigger freed[i]} :: 0 <= i < |keys| ==>
      keys[i] < |was| && freed[i] == was[keys[i]].value.addr
  }

  /** The entries of the given keys have become invalid; every other entry is as before. */
  ghost predicate Dropped(was: seq<Entity>, keys: seq<nat>, now: seq<Entity>) {
    |now| == |was| && forall k {:trigger now[k]} :: 0 <= k < |was| ==>
      now[k] == if k in keys then Entity(was[k].value, false) else was[k]
  }

  lemma {:induction false} OneMoreFreed(was: seq<Entity>, now: seq<Entity>, now': seq<Entity>, free: seq<nat>,
                                        freed: seq<nat>)
    requires |freed| < |free| && free[|freed|] < |now|
    requires FreedOf(was, free[..|freed|], freed) && Dropped(was, free[..|freed|], now)
    requires now' == now[free[|freed|] := Entity(now[free[|freed|]].value, false)]
    ensures FreedOf(was, free[..|freed| + 1], freed + [now[free[|freed|]].value.addr])
    ensures Dropped(was, free[..|freed| + 1], now')
  {
    var n := |freed|;
    assert free[..n + 1] == free[..n] + [free[n]];
    forall k {:trigger now'[k]} | 0 <= k < |was|
      ensures now'[k] == if k in free[..n + 1] then Entity(was[k].value, false) else was[k]
    {
      assert now[k].value == was[k].value;
    }
  }

  class CacheController {
    const container: array<Entity>
    const lru: LruPolicy

    /** The policy knows exactly the keys whose entity is valid. */
    ghost predicate Valid()
      reads this, container, lru, lru.freeList, lru.lockList, lru.freeList.nodes, lru.lockList.nodes
    {
      && lru.Valid()
      && (forall k: nat {:trigger k in lru.ptrMap.Keys} :: k in lru.ptrMap.Keys ==> k < container.Length)
      && forall k: nat {:trigger container[k]} :: k < container.Length ==>
           (container[k].valid <==> k in lru.ptrMap.Keys)
    }

    ghost function Policy(): Lru
      reads this, lru, lru.freeList, lru.freeList.nodes
    {
      lru.Abstract()
    }

    constructor (numEntities: nat)
      requires numEntities != 0
      ensures Valid() && Policy() == Lru([], map[]) && container.Length == numEntities
      ensures fresh(container) && fresh(lru) && fresh(lru.freeList) && fresh(lru.lockList)
      ensures fresh(lru.freeList.nodes) && fresh(lru.lockList.nodes)
    {
      container := new Entity[numEntities](_ => Entity(ShardDescriptor(0, 0), false));
      lru := new LruPolicy();
    }

    predicate Test(k: nat)
      requires k < container.Length
      reads this, container
    {
      container[k].valid
    }

    function Get(k: nat): Option<ShardDescriptor>
      requires k < container.Length
      reads this, container
    {
      if container[k].valid then Some(container[k].value) else None
    }

    method Add(k: nat, value: ShardDescriptor)
      requires Valid() && k < container.Length && !Test(k)
      modifies container, lru, lru.freeList, lru.freeList.nodes
      ensures Valid() && Policy() == Added(old(Policy()), k)
      ensures container[..] == old(container[..])[k := Entity(value, true)]
    {
      container[k] := Entity(value, true);
      lru.Add(k);
    }

    /** Drops the next victim, or reports that every cached shard is locked. */
    method Evict() returns (r: Option<(nat, ShardDescriptor)>)
      requires Valid()
      modifies container, lru, lru.freeList, lru.freeList.nodes
      ensures Valid() && fresh(set n | n in lru.freeList.nodes && n !in old(lru.freeList.nodes))
      ensures r.None? <==> old(Policy()).free == []
      ensures r.None? ==> Policy() == old(Policy()) && container[..] == old(container[..])
      ensures r.Some? ==>
                && r.value.0 == old(Policy()).free[0] < container.Length
                && r.value.1 == old(container[..])[r.value.0].value
                && Policy() == Lru(old(Policy()).free[1..], old(Policy()).locks)
                && container[..] == old(container[..])[r.value.0 := Entity(r.value.1, false)]
    {
      if lru.freeList.size == 0 {
        return None;
      }
      lru.AbstractOk();
      var k := lru.Evict();
      assert k < container.Length && container[k] == old(container[..])[k];
      r := Some((k, container[k].value));
      container[k] := container[k].(valid := false);
    }

    method Lock(k: nat) returns (count: nat)
      requires Valid() && k < container.Length && Test(k)
      modifies lru, lru.freeList, lru.lockList, lru.freeList.nodes, lru.lockList.nodes
      ensures Valid() && Policy() == LockedOnce(old(Policy()), k)
      ensures k in Policy().locks && count == Policy().locks[k]
    {
      count := lru.Lock(k);
    }

    method Unlock(k: nat) returns (count: nat)
      requires Valid() && k < container.Length && Test(k) && lru.IsLocked(k)
      modifies lru, lru.freeList, lru.lockList, lru.freeList.nodes, lru.lockList.nodes
      ensures Valid() && k in old(Policy()).locks && old(Policy()).locks[k] > 0
      ensures Policy() == UnlockedOnce(old(Policy()), k) && count == old(Policy()).locks[k] - 1
    {
      count := lru.Unlock(k);
    }

    /** Looking up a shard in use counts as a use of it. */
    method Touch(k: nat) returns (r: Option<ShardDescriptor>)
      requires Valid() && k < container.Length && Test(k) && !lru.IsLocked(k)
      modifies lru, lru.freeList, lru.freeList.nodes
      ensures Valid() && Policy() == MovedBack(old(Policy()), k) && r == Some(container[k].value)
    {
      lru.MoveBack(k);
      r := Get(k);
    }

    /**
     * Evicts until the allocator finds room. The allocator is a parameter: its answer after n evictions. Shards go in
     * the policy's order, no more of them than needed, and it gives up only when every cached shard is locked.
     */
    method AllocateWithEvict(malloc: nat -> Option<nat>) returns (p: Option<nat>, freed: seq<nat>)
      requires Valid()
      modifies container, lru, lru.freeList, lru.freeList.nodes
      ensures Valid() && |freed| <= |old(Policy()).free|
      ensures p == malloc(|freed|) && forall n: nat :: n < |freed| ==> malloc(n).None?
      ensures p.None? ==> |freed| == |old(Policy()).free|
      ensures Policy() == Lru(old(Policy()).free[|freed|..], old(Policy()).locks)
      ensures FreedOf(old(container[..]), old(Policy()).free[..|freed|], freed)
      ensures Dropped(old(container[..]), old(Policy()).free[..|freed|], container[..])
    {
      freed := [];
      ghost var free, was := Policy().free, container[..];
      p := malloc(0);
      while p.None?
        invariant Valid() && |freed| <= |free|
        invariant fresh(set n | n in lru.freeList.nodes && n !in old(lru.freeList.nodes))
        invariant Policy() == Lru(free[|freed|..], old(Policy()).locks)
        invariant p == malloc(|freed|) && forall n: nat :: n < |freed| ==> malloc(n).None?
        invariant FreedOf(was, free[..|freed|], freed) && Dropped(was, free[..|freed|], container[..])
        decreases |free| - |freed|
      {
        ghost var now := container[..];
        var r := Evict();
        if r.None? {
          break;
        }
        OneMoreFreed(was, now, container[..], free, freed);
        freed := freed + [r.value.1.addr];
        p := malloc(|freed|);
      }
    }
  }
}
