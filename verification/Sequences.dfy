/** Sorted, duplicate-free and filtered sequences of vertex ids. */
module Sequences {

  ghost predicate StrictlySorted(s: seq<nat>) {
    forall i, j :: 0 <= i < j < |s| ==> s[i] < s[j]
  }

  ghost predicate NoDup<T(!new)>(s: seq<T>) {
    forall i, j :: 0 <= i < j < |s| ==> s[i] != s[j]
  }

  ghost predicate SameElements<T(!new)>(s: seq<T>, t: seq<T>) {
    forall v :: v in s <==> v in t
  }

  lemma {:induction false} SortedInWindow(arr: seq<nat>, start: nat, end: nat)
    requires start <= end <= |arr|
    requires StrictlySorted(arr[start..end])
    ensures forall i, j :: start <= i < j < end ==> arr[i] < arr[j]
  {
    forall i, j | start <= i < j < end
      ensures arr[i] < arr[j]
    {
      assert arr[i] == arr[start..end][i - start] && arr[j] == arr[start..end][j - start];
    }
  }

  lemma {:induction false} EmptySame<T(!new)>(vs: seq<T>, ws: seq<T>)
    requires SameElements(vs, ws)
    ensures vs == [] ==> ws == []
  {
    if ws != [] {
      assert ws[0] in vs;
    }
  }

  lemma {:induction false} WithoutOne<T(!new)>(vs: seq<T>, ws: seq<T>, i: nat)
    requires NoDup(vs) && NoDup(ws) && SameElements(vs, ws)
    requires vs != [] && i < |ws| && ws[i] == vs[|vs| - 1]
    ensures NoDup(vs[..|vs| - 1]) && NoDup(ws[..i] + ws[i + 1..])
    ensures SameElements(vs[..|vs| - 1], ws[..i] + ws[i + 1..])
  {
    var vs', ws' := vs[..|vs| - 1], ws[..i] + ws[i + 1..];
    forall v
      ensures v in vs' <==> v in ws'
    {
      if v in vs' {
        var p :| 0 <= p < |vs'| && vs'[p] == v;
        assert vs[p] in ws;
        var q :| 0 <= q < |ws| && ws[q] == v;
        assert q != i;
        assert ws'[if q < i then q else q - 1] == v;
      }
      if v in ws' {
        var q :| 0 <= q < |ws'| && ws'[q] == v;
        assert ws[if q < i then q else q + 1] == v;
        assert v in vs && v != vs[|vs| - 1];
      }
    }
  }

  lemma {:induction false} SameLength<T(!new)>(vs: seq<T>, ws: seq<T>)
    requires NoDup(vs) && NoDup(ws) && SameElements(vs, ws)
    ensures |vs| == |ws|
    decreases |vs|
  {
    if vs == [] {
      EmptySame(vs, ws);
    } else {
      var v := vs[|vs| - 1];
      assert v in vs;
      var i :| 0 <= i < |ws| && ws[i] == v;
      WithoutOne(vs, ws, i);
      SameLength(vs[..|vs| - 1], ws[..i] + ws[i + 1..]);
    }
  }

  lemma {:induction false} NoDupConcat<T(!new)>(s: seq<T>, t: seq<T>)
    requires NoDup(s) && NoDup(t)
    requires forall x :: !(x in s && x in t)
    ensures NoDup(s + t)
  {
    forall i, j | 0 <= i < j < |s + t|
      ensures (s + t)[i] != (s + t)[j]
    {
      if i < |s| <= j {
        assert s[i] in s && t[j - |s|] in t;
      }
    }
  }

  lemma {:induction false} InConcat<T(!new)>(s: seq<T>, t: seq<T>)
    ensures forall x {:trigger x in s + t} :: x in s + t <==> x in s || x in t
  {
  }

  lemma {:induction false} NoDupSnoc<T(!new)>(s: seq<T>, x: T)
    requires NoDup(s) && x !in s
    ensures NoDup(s + [x])
  {
  }

  lemma {:induction false} WriteAt<T>(s: seq<T>, i: nat, x: T)
    requires i < |s|
    ensures s[i := x][..i + 1] == s[..i] + [x]
  {
  }

  /** The members of `good` among vs, in the order of vs. */
  ghost function FilterIn(good: iset<nat>, vs: seq<nat>): seq<nat> {
    if vs == [] then []
    else (if vs[0] in good then [vs[0]] else []) + FilterIn(good, vs[1..])
  }

  lemma {:induction false} FilterAppend(good: iset<nat>, vs: seq<nat>, ws: seq<nat>)
    ensures FilterIn(good, vs + ws) == FilterIn(good, vs) + FilterIn(good, ws)
    decreases |vs|
  {
    if vs == [] {
      assert vs + ws == ws;
    } else {
      assert (vs + ws)[1..] == vs[1..] + ws;
      FilterAppend(good, vs[1..], ws);
      Associative(if vs[0] in good then [vs[0]] else [], FilterIn(good, vs[1..]), FilterIn(good, ws));
    }
  }

  lemma {:induction false} Associative<T>(a: seq<T>, b: seq<T>, c: seq<T>)
    ensures a + (b + c) == (a + b) + c
  {
  }

  lemma {:induction false} FilterElements(good: iset<nat>, vs: seq<nat>)
    requires StrictlySorted(vs)
    ensures forall v :: v in FilterIn(good, vs) <==> v in vs && v in good
    ensures NoDup(FilterIn(good, vs))
    decreases |vs|
  {
    if vs != [] {
      FilterElements(good, vs[1..]);
      assert vs == [vs[0]] + vs[1..];
      assert forall i :: 0 <= i < |vs[1..]| ==> vs[0] < vs[1..][i];
    }
  }

  lemma {:induction false} FilterAll(good: iset<nat>, vs: seq<nat>)
    requires forall i :: 0 <= i < |vs| ==> vs[i] in good
    ensures FilterIn(good, vs) == vs
    decreases |vs|
  {
    if vs != [] {
      FilterAll(good, vs[1..]);
    }
  }

  /** Two sorted lists that hold all of `good` below a bound filter to the same elements. */
  lemma {:induction false} FilterSame(good: iset<nat>, vs: seq<nat>, ws: seq<nat>)
    requires StrictlySorted(vs) && StrictlySorted(ws)
    requires forall v :: v in good ==> (v in vs <==> v in ws)
    ensures SameElements(FilterIn(good, vs), FilterIn(good, ws))
    ensures NoDup(FilterIn(good, vs)) && NoDup(FilterIn(good, ws))
  {
    FilterElements(good, vs);
    FilterElements(good, ws);
  }

  // ----- numberings -----

  /** 0, 1, ..., n-1. */
  function Iota(n: nat): (s: seq<nat>)
    ensures |s| == n && forall i :: 0 <= i < n ==> s[i] == i
  {
    seq(n, i requires 0 <= i < n => i)
  }

  /** s lists 0 to n-1, each once. */
  ghost predicate IsPermutation(s: seq<nat>, n: nat) {
    |s| == n && NoDup(s) && forall i :: 0 <= i < n ==> s[i] < n
  }

  ghost function Members(s: seq<nat>): set<nat> {
    set x | x in s
  }

  lemma {:induction false} NoDupCard(s: seq<nat>)
    requires NoDup(s)
    ensures |Members(s)| == |s|
  {
    if s != [] {
      var last := |s| - 1;
      var init := s[..last];
      NoDupCard(init);
      assert forall x :: x in s <==> x in init || x == s[last];
      assert Members(s) == Members(init) + {s[last]};
      assert s[last] !in Members(init);
    }
  }

  lemma {:induction false} SubsetFull(a: set<nat>, b: set<nat>)
    requires a <= b && |a| == |b|
    ensures a == b
  {
    assert |b - a| == |b| - |a|;
    assert b == a + (b - a);
  }

  /** A permutation of 0..n-1 reaches every number below n. */
  lemma {:induction false} PermutationReaches(s: seq<nat>, n: nat)
    requires IsPermutation(s, n)
    ensures forall x: nat :: x < n ==> x in s
  {
    var have, want := Members(s), Members(Iota(n));
    forall x | x in have
      ensures x in want
    {
      var i :| 0 <= i < |s| && s[i] == x;
      assert Iota(n)[x] == x;
    }
    NoDupCard(s);
    NoDupCard(Iota(n));
    SubsetFull(have, want);
    forall x: nat | x < n
      ensures x in s
    {
      assert Iota(n)[x] == x;
      assert x in want;
    }
  }

  lemma {:induction false} FilterNoDup(good: iset<nat>, vs: seq<nat>)
    requires NoDup(vs)
    ensures forall v :: v in FilterIn(good, vs) <==> v in vs && v in good
    ensures NoDup(FilterIn(good, vs))
    decreases |vs|
  {
    if vs != [] {
      FilterNoDup(good, vs[1..]);
      assert vs == [vs[0]] + vs[1..];
      assert forall i :: 0 <= i < |vs[1..]| ==> vs[0] != vs[1..][i];
    }
  }

  /** How many members of `good` a duplicate-free list holds does not depend on its order. */
  lemma {:induction false} FilterCount(good: iset<nat>, vs: seq<nat>, ws: seq<nat>)
    requires NoDup(vs) && NoDup(ws) && SameElements(vs, ws)
    ensures |FilterIn(good, vs)| == |FilterIn(good, ws)|
  {
    FilterNoDup(good, vs);
    FilterNoDup(good, ws);
    SameLength(FilterIn(good, vs), FilterIn(good, ws));
  }

  lemma {:induction false} FilterSnoc(good: iset<nat>, vs: seq<nat>, i: nat)
    requires i < |vs|
    ensures FilterIn(good, vs[..i + 1]) == FilterIn(good, vs[..i]) + (if vs[i] in good then [vs[i]] else [])
  {
    assert vs[..i + 1] == vs[..i] + [vs[i]];
    FilterAppend(good, vs[..i], [vs[i]]);
  }

  lemma {:induction false} FilterSplit(good: iset<nat>, bad: iset<nat>, all: iset<nat>, vs: seq<nat>)
    requires forall v :: v in all <==> v in good || v in bad
    requires forall v :: !(v in good && v in bad)
    ensures |FilterIn(all, vs)| == |FilterIn(good, vs)| + |FilterIn(bad, vs)|
    decreases |vs|
  {
    if vs != [] {
      FilterSplit(good, bad, all, vs[1..]);
    }
  }
}
