/** The replacement policy: unlocked keys in the order of their last use, locked keys set aside. */
module LruPolicies {
  import opened Sequences
  import opened LinkedLists

  // ----- the policy as a value -----

  /** free: the unlocked keys, the next victim first; locks: the locked keys with their reference counts. */
  datatype Lru = Lru(free: seq<nat>, locks: map<nat, nat>) {
    ghost predicate Ok() {
      NoDup(free) && forall k {:trigger k in locks} :: k in locks ==> k !in free && locks[k] > 0
    }

    ghost predicate Has(k: nat) {
      k in free || k in locks
    }
  }

  /** free without k. */
  ghost function Without(free: seq<nat>, k: nat): seq<nat> {
    if free == [] then []
    else if free[0] == k then free[1..]
    else [free[0]] + Without(free[1..], k)
  }

  lemma {:induction false} WithoutIs(free: seq<nat>, k: nat)
    requires NoDup(free)
    ensures NoDup(Without(free, k))
    ensures forall x :: x in Without(free, k) <==> x in free && x != k
    decreases |free|
  {
    if free != [] && free[0] != k {
      WithoutIs(free[1..], k);
      assert free[0] !in free[1..];
    }
  }

  lemma {:induction false} WithoutFirst(a: seq<nat>, k: nat, b: seq<nat>)
    requires k !in a
    ensures Without(a + [k] + b, k) == a + b
    decreases |a|
  {
    var all := a + [k] + b;
    if a == [] {
      assert all[1..] == b;
    } else {
      WithoutFirst(a[1..], k, b);
      assert all[1..] == a[1..] + [k] + b && all[0] == a[0];
      assert a + b == [a[0]] + (a[1..] + b);
    }
  }

  function Added(p: Lru, k: nat): Lru {
    Lru(p.free + [k], p.locks)
  }

  /** Locking sets an unlocked key aside, or counts one more user of a locked one. */
  ghost function LockedOnce(p: Lru, k: nat): Lru {
    if k in p.locks then Lru(p.free, p.locks[k := p.locks[k] + 1])
    else Lru(Without(p.free, k), p.locks[k := 1])
  }

  /** The last user's unlock makes the key the last victim. */
  function UnlockedOnce(p: Lru, k: nat): Lru
    requires k in p.locks && p.locks[k] > 0
  {
    if p.locks[k] > 1 then Lru(p.free, p.locks[k := p.locks[k] - 1])
    else Lru(p.free + [k], p.locks - {k})
  }

  ghost function MovedBack(p: Lru, k: nat): Lru {
    Lru(Without(p.free, k) + [k], p.locks)
  }

  // ----- the index over the two lists -----

  /** Where a key's node is. */
  datatype InvertedPointer = InvertedPointer(node: ListNode, isLocked: bool, refCount: nat)

  type Index = map<nat, InvertedPointer>

  /** The values of a list's nodes, without the sentinel's. */
  function Keys(vs: seq<nat>): seq<nat> {
    if vs == [] then [] else vs[1..]
  }

  ghost predicate FreeAt(m: Index, ns: seq<ListNode>, vs: seq<nat>, i: nat) {
    1 <= i < |ns| == |vs| ==> vs[i] in m && m[vs[i]] == InvertedPointer(ns[i], false, 0)
  }

  ghost predicate LockedAt(m: Index, ns: seq<ListNode>, vs: seq<nat>, i: nat) {
    1 <= i < |ns| == |vs| ==> vs[i] in m && m[vs[i]].node == ns[i] && m[vs[i]].isLocked && m[vs[i]].refCount > 0
  }

  /** Every key's entry names its node, in the list its lock state asks for, and every node is some key's. */
  ghost predicate Indexed(m: Index, fn: seq<ListNode>, fv: seq<nat>, ln: seq<ListNode>, lv: seq<nat>) {
    && |fn| == |fv| >= 1 && |ln| == |lv| >= 1
    && (forall i: nat {:trigger FreeAt(m, fn, fv, i)} :: FreeAt(m, fn, fv, i))
    && (forall i: nat {:trigger LockedAt(m, ln, lv, i)} :: LockedAt(m, ln, lv, i))
    && (forall k: nat {:trigger EntryAt(m, fv, lv, k)} :: EntryAt(m, fv, lv, k))
  }

  ghost predicate EntryAt(m: Index, fv: seq<nat>, lv: seq<nat>, k: nat) {
    k in m ==> k in if m[k].isLocked then Keys(lv) else Keys(fv)
  }

  ghost function Locks(m: Index): map<nat, nat> {
    map k | k in m && m[k].isLocked :: m[k].refCount
  }

  ghost function AbstractOf(m: Index, fv: seq<nat>): Lru {
    Lru(Keys(fv), Locks(m))
  }

  /** Distinct nodes make distinct keys. */
  lemma {:induction false} IndexedOk(m: Index, fn: seq<ListNode>, fv: seq<nat>, ln: seq<ListNode>, lv: seq<nat>)
    requires Indexed(m, fn, fv, ln, lv)
    requires forall i, j :: 0 <= i < j < |fn| ==> fn[i] != fn[j]
    ensures AbstractOf(m, fv).Ok()
    ensures forall k: nat {:trigger k in m} :: k in m <==> AbstractOf(m, fv).Has(k)
  {
    forall i, j | 0 <= i < j < |Keys(fv)|
      ensures Keys(fv)[i] != Keys(fv)[j]
    {
      assert FreeAt(m, fn, fv, i + 1) && FreeAt(m, fn, fv, j + 1);
    }
    forall k: nat | k in Keys(fv)
      ensures k in m && !m[k].isLocked
    {
      var i: nat :| i < |Keys(fv)| && Keys(fv)[i] == k;
      assert FreeAt(m, fn, fv, i + 1);
    }
    forall k: nat | k in m
      ensures m[k].isLocked ==> m[k].refCount > 0
      ensures !m[k].isLocked ==> k in Keys(fv)
    {
      assert EntryAt(m, fv, lv, k);
      if m[k].isLocked {
        var j := FindLocked(m, fn, fv, ln, lv, k);
      }
    }
  }

  lemma {:induction false} FindFree(m: Index, fn: seq<ListNode>, fv: seq<nat>, ln: seq<ListNode>, lv: seq<nat>, k: nat)
    returns (i: nat)
    requires Indexed(m, fn, fv, ln, lv) && k in m && !m[k].isLocked
    ensures 1 <= i < |fn| && fv[i] == k && fn[i] == m[k].node && m[k].refCount == 0
  {
    assert EntryAt(m, fv, lv, k);
    var j: nat :| j < |Keys(fv)| && Keys(fv)[j] == k;
    i := j + 1;
    assert FreeAt(m, fn, fv, i);
  }

  lemma {:induction false} FindLocked(m: Index, fn: seq<ListNode>, fv: seq<nat>, ln: seq<ListNode>, lv: seq<nat>,
                                      k: nat)
    returns (i: nat)
    requires Indexed(m, fn, fv, ln, lv) && k in m && m[k].isLocked
    ensures 1 <= i < |ln| && lv[i] == k && ln[i] == m[k].node && m[k].refCount > 0
  {
    assert EntryAt(m, fv, lv, k);
    var j: nat :| j < |Keys(lv)| && Keys(lv)[j] == k;
    i := j + 1;
    assert LockedAt(m, ln, lv, i);
  }

  // ----- what the operations do to the index -----

  function Cut<T>(s: seq<T>, i: nat): (r: seq<T>)
    requires i < |s|
    ensures |r| == |s| - 1 && forall j :: 0 <= j < |r| ==> r[j] == if j < i then s[j] else s[j + 1]
  {
    s[..i] + s[i + 1..]
  }

  lemma {:induction false} CutKeys(fv: seq<nat>, i: nat)
    requires 1 <= i < |fv| && NoDup(Keys(fv))
    ensures Keys(Cut(fv, i)) == Without(Keys(fv), fv[i])
    ensures forall x :: x in Keys(fv) && x != fv[i] ==> x in Keys(Cut(fv, i))
  {
    var a, b := fv[1..i], fv[i + 1..];
    assert Keys(fv) == a + [fv[i]] + b;
    assert Keys(Cut(fv, i)) == a + b;
    assert fv[i] !in a by {
      forall j | 0 <= j < |a|
        ensures a[j] != fv[i]
      {
        assert Keys(fv)[j] == a[j] && Keys(fv)[i - 1] == fv[i];
      }
    }
    WithoutFirst(a, fv[i], b);
    WithoutIs(Keys(fv), fv[i]);
  }

  /** The entries of the other keys are kept. */
  lemma {:induction false} EntriesStay(m: Index, m': Index, fv: seq<nat>, lv: seq<nat>, fv': seq<nat>, lv': seq<nat>,
                                       k: nat)
    requires forall x: nat {:trigger EntryAt(m, fv, lv, x)} :: EntryAt(m, fv, lv, x)
    requires forall x: nat {:trigger x in m'} :: x != k && x in m' ==> x in m && m'[x] == m[x]
    requires forall x {:trigger x in Keys(fv')} :: x in Keys(fv) && x != k ==> x in Keys(fv')
    requires forall x {:trigger x in Keys(lv')} :: x in Keys(lv) && x != k ==> x in Keys(lv')
    requires EntryAt(m', fv', lv', k)
    ensures forall x: nat {:trigger EntryAt(m', fv', lv', x)} :: EntryAt(m', fv', lv', x)
  {
    forall x: nat
      ensures EntryAt(m', fv', lv', x)
    {
      assert EntryAt(m, fv, lv, x);
    }
  }

  /** A key without an entry joins the free list. */
  lemma {:induction false} IndexAdd(m: Index, fn: seq<ListNode>, fv: seq<nat>, ln: seq<ListNode>, lv: seq<nat>, k: nat,
                                    node: ListNode)
    requires Indexed(m, fn, fv, ln, lv) && k !in m
    ensures
      var m' := m[k := InvertedPointer(node, false, 0)];
      Indexed(m', fn + [node], fv + [k], ln, lv) && AbstractOf(m', fv + [k]) == Added(AbstractOf(m, fv), k)
  {
    var m' := m[k := InvertedPointer(node, false, 0)];
    assert Keys(fv + [k]) == Keys(fv) + [k];
    EntriesStay(m, m', fv, lv, fv + [k], lv, k);
    forall i: nat
      ensures FreeAt(m', fn + [node], fv + [k], i)
    {
      assert FreeAt(m, fn, fv, i);
    }
    forall i: nat
      ensures LockedAt(m', ln, lv, i)
    {
      assert LockedAt(m, ln, lv, i);
    }
  }

  /** The entry and node of an unlocked key are dropped. */
  lemma {:induction false} IndexDropFree(m: Index, fn: seq<ListNode>, fv: seq<nat>, ln: seq<ListNode>, lv: seq<nat>,
                                         k: nat, i: nat)
    requires Indexed(m, fn, fv, ln, lv) && AbstractOf(m, fv).Ok() && 1 <= i < |fv| && fv[i] == k
    ensures
      var m' := m - {k};
      && Indexed(m', fn[..i] + fn[i + 1..], fv[..i] + fv[i + 1..], ln, lv)
      && AbstractOf(m', fv[..i] + fv[i + 1..]) == Lru(Without(Keys(fv), k), AbstractOf(m, fv).locks)
  {
    var m' := m - {k};
    CutKeys(fv, i);
    assert Cut(fn, i) == fn[..i] + fn[i + 1..] && Cut(fv, i) == fv[..i] + fv[i + 1..];
    assert FreeAt(m, fn, fv, i);
    forall j: nat
      ensures FreeAt(m', Cut(fn, i), Cut(fv, i), j)
    {
      assert FreeAt(m, fn, fv, j) && FreeAt(m, fn, fv, j + 1);
      if 1 <= j < |fv| - 1 {
        assert Keys(fv)[i - 1] == k;
        assert Keys(fv)[j - 1] == fv[j] && Keys(fv)[j] == fv[j + 1];
      }
    }
    forall j: nat
      ensures LockedAt(m', ln, lv, j)
    {
      assert LockedAt(m, ln, lv, j);
    }
    EntriesStay(m, m', fv, lv, Cut(fv, i), lv, k);
    assert Locks(m') == Locks(m);
  }

  /** The first unlocked key goes. */
  lemma {:induction false} IndexEvict(m: Index, fn: seq<ListNode>, fv: seq<nat>, ln: seq<ListNode>, lv: seq<nat>)
    requires Indexed(m, fn, fv, ln, lv) && AbstractOf(m, fv).Ok() && |fv| > 1
    ensures
      var m' := m - {fv[1]};
      && Indexed(m', fn[..1] + fn[2..], fv[..1] + fv[2..], ln, lv)
      && Keys(fv) != [] && fv[1] == Keys(fv)[0]
      && AbstractOf(m', fv[..1] + fv[2..]) == Lru(Keys(fv)[1..], AbstractOf(m, fv).locks)
  {
    IndexDropFree(m, fn, fv, ln, lv, fv[1], 1);
  }

  lemma {:induction false} IndexEmpty(m: Index, fn: seq<ListNode>, fv: seq<nat>, ln: seq<ListNode>, lv: seq<nat>)
    requires m == map[] && |fn| == |fv| == |ln| == |lv| == 1
    ensures Indexed(m, fn, fv, ln, lv) && AbstractOf(m, fv) == Lru([], map[])
  {
    assert Locks(m) == map[];
    forall k: nat
      ensures EntryAt(m, fv, lv, k)
    {
    }
  }

  /** The entry and node of a locked key are dropped. */
  lemma {:induction false} IndexDropLocked(m: Index, fn: seq<ListNode>, fv: seq<nat>, ln: seq<ListNode>, lv: seq<nat>,
                                           k: nat, i: nat)
    requires Indexed(m, fn, fv, ln, lv) && 1 <= i < |lv| && lv[i] == k
    requires forall a, b :: 0 <= a < b < |ln| ==> ln[a] != ln[b]
    ensures
      var m' := m - {k};
      && Indexed(m', fn, fv, ln[..i] + ln[i + 1..], lv[..i] + lv[i + 1..])
      && AbstractOf(m', fv) == Lru(Keys(fv), AbstractOf(m, fv).locks - {k})
  {
    var m' := m - {k};
    assert Cut(ln, i) == ln[..i] + ln[i + 1..] && Cut(lv, i) == lv[..i] + lv[i + 1..];
    assert LockedAt(m, ln, lv, i);
    forall j: nat
      ensures FreeAt(m', fn, fv, j)
    {
      assert FreeAt(m, fn, fv, j);
    }
    forall j: nat
      ensures LockedAt(m', Cut(ln, i), Cut(lv, i), j)
    {
      assert LockedAt(m, ln, lv, j) && LockedAt(m, ln, lv, j + 1);
    }
    forall x | x in Keys(lv) && x != k
      ensures x in Keys(Cut(lv, i))
    {
      var j: nat :| j < |Keys(lv)| && Keys(lv)[j] == x;
      assert Keys(Cut(lv, i))[if j + 1 < i then j else j - 1] == x;
    }
    EntriesStay(m, m', fv, lv, fv, Cut(lv, i), k);
    assert Locks(m') == Locks(m) - {k};
  }

  /** A key without an entry is set aside at the front of the lock list. */
  lemma {:induction false} IndexAddLocked(m: Index, fn: seq<ListNode>, fv: seq<nat>, ln: seq<ListNode>, lv: seq<nat>,
                                          k: nat, node: ListNode)
    requires Indexed(m, fn, fv, ln, lv) && k !in m
    ensures
      var m' := m[k := InvertedPointer(node, true, 1)];
      && Indexed(m', fn, fv, [ln[0], node] + ln[1..], [lv[0], k] + lv[1..])
      && AbstractOf(m', fv) == Lru(Keys(fv), AbstractOf(m, fv).locks[k := 1])
  {
    var m' := m[k := InvertedPointer(node, true, 1)];
    var ln', lv' := [ln[0], node] + ln[1..], [lv[0], k] + lv[1..];
    assert Keys(lv') == [k] + Keys(lv);
    forall j: nat
      ensures FreeAt(m', fn, fv, j)
    {
      assert FreeAt(m, fn, fv, j);
    }
    forall j: nat
      ensures LockedAt(m', ln', lv', j)
    {
      if j >= 2 {
        assert LockedAt(m, ln, lv, j - 1);
      }
    }
    EntriesStay(m, m', fv, lv, fv, lv', k);
    assert Locks(m') == Locks(m)[k := 1];
  }

  /** A locked key's reference count changes, but not to zero. */
  lemma {:induction false} IndexRecount(m: Index, fn: seq<ListNode>, fv: seq<nat>, ln: seq<ListNode>, lv: seq<nat>,
                                        k: nat, count: nat)
    requires Indexed(m, fn, fv, ln, lv) && k in m && m[k].isLocked && count > 0
    ensures
      var m' := m[k := m[k].(refCount := count)];
      && Indexed(m', fn, fv, ln, lv)
      && AbstractOf(m', fv) == Lru(Keys(fv), AbstractOf(m, fv).locks[k := count])
  {
    var m' := m[k := m[k].(refCount := count)];
    forall j: nat
      ensures FreeAt(m', fn, fv, j) && LockedAt(m', ln, lv, j)
    {
      assert FreeAt(m, fn, fv, j) && LockedAt(m, ln, lv, j);
    }
    assert EntryAt(m, fv, lv, k);
    EntriesStay(m, m', fv, lv, fv, lv, k);
    assert Locks(m') == Locks(m)[k := count];
  }
}
