/**
 * Backtracking search over a scheduling tree, away from shards and slots: which values extend a prefix in a subtask is
 * a parameter. Defines what a tree node stands for and what a search beneath it still has to count.
 */
module SearchTrees {
  import opened Machine
  import opened Sequences

  /** The four CSR arrays of the scheduling tree; node 0 is the root. */
  datatype Tree = Tree(ptr: seq<nat>, nxt: seq<nat>, prv: seq<nat>, st: seq<nat>) {

    ghost predicate ShapeOk() {
      && |ptr| >= 2
      && ptr[0] == 0
      && (forall n {:trigger IsNode(n)} :: IsNode(n) ==> ptr[n] <= ptr[n + 1] <= ptr[|ptr| - 1])
      && ptr[|ptr| - 1] == |nxt| == |prv| == |st| == |ptr| - 2
      && (forall i :: 0 <= i < |nxt| ==> 1 <= nxt[i] < |ptr| - 1)
    }

    ghost predicate IsNode(n: int) {
      0 <= n < |ptr| - 1
    }

    function NumChildren(n: nat): nat
      requires ShapeOk() && IsNode(n)
    {
      ptr[n + 1] - ptr[n]
    }

    function Child(n: nat, j: nat): (c: nat)
      requires ShapeOk() && IsNode(n) && j < NumChildren(n)
      ensures 1 <= c && IsNode(c)
    {
      ChildInBounds(n, j);
      nxt[ptr[n] + j]
    }

    /** The subtask stored with child j: the first one beneath it. */
    function ChildSt(n: nat, j: nat): nat
      requires ShapeOk() && IsNode(n) && j < NumChildren(n)
    {
      ChildInBounds(n, j);
      st[ptr[n] + j]
    }

    lemma {:induction false} ChildInBounds(n: nat, j: nat)
      requires ShapeOk() && IsNode(n) && j < NumChildren(n)
      ensures ptr[n] + j < |nxt|
    {
    }

    /** End of the subtask range beneath child j of a node whose own range ends at hi. */
    function ChildEnd(n: nat, j: nat, hi: nat): nat
      requires ShapeOk() && IsNode(n) && j < NumChildren(n)
    {
      if j + 1 < NumChildren(n) then ChildSt(n, j + 1) else hi
    }
  }

  /** `cand(k, a)`: the values that extend the prefix a in subtask k, each once. */
  datatype Search = Search(depth: nat, numSubtasks: nat, tree: Tree, cand: (nat, seq<nat>) -> seq<nat>) {

    /** Subtasks k and k' have the same candidates at every depth below d. */
    ghost predicate SameBelow(k: nat, k': nat, d: nat) {
      forall a: seq<nat> :: |a| < d ==> cand(k, a) == cand(k', a)
    }

    /** Node n at tree depth d stands for exactly the subtasks lo..hi, which share everything below depth d. */
    ghost predicate Covers(n: nat, d: nat, lo: nat, hi: nat)
      requires tree.ShapeOk()
      decreases depth - d
    {
      && tree.IsNode(n) && d <= depth
      && lo < hi <= numSubtasks
      && (forall k :: lo <= k < hi ==> SameBelow(lo, k, d))
      && if d == depth then hi == lo + 1
         else
           && tree.NumChildren(n) > 0
           && tree.ChildSt(n, 0) == lo
           && forall j :: 0 <= j < tree.NumChildren(n) ==>
                && tree.prv[tree.Child(n, j) - 1] == n
                && Covers(tree.Child(n, j), d + 1, tree.ChildSt(n, j), tree.ChildEnd(n, j, hi))
    }

    ghost predicate Valid() {
      && depth >= 2
      && tree.ShapeOk()
      && Covers(0, 0, 0, numSubtasks)
    }

    // ----- what remains to be counted -----

    // With work == false the sums count matches; with work == true they bound the iterations of the kernel loop.

    /** Node n at depth |a|, entered with the matched prefix a; k is the first subtask beneath n. */
    ghost function Weight(work: bool, n: nat, k: nat, a: seq<nat>): nat
      requires tree.ShapeOk() && tree.IsNode(n) && |a| < depth
      decreases depth - |a|, 2, 0
    {
      if |a| == depth - 1 then
        if work then 1 else |cand(k, a)|
      else
        (if work then (VERTICES_PER_GRID + 1) * tree.NumChildren(n) else 0)
        + ChildrenSum(work, n, a, cand(k, a), 0)
    }

    /** The values vs, each descended into children j, j+1, ... of n. */
    ghost function ChildrenSum(work: bool, n: nat, a: seq<nat>, vs: seq<nat>, j: nat): nat
      requires tree.ShapeOk() && tree.IsNode(n) && |a| + 1 < depth
      decreases depth - |a|, 1, tree.NumChildren(n) - j
    {
      if j >= tree.NumChildren(n) then 0
      else ValuesSum(work, n, a, vs, j) + ChildrenSum(work, n, a, vs, j + 1)
    }

    /** The values vs, each descended into child j of n. */
    ghost function ValuesSum(work: bool, n: nat, a: seq<nat>, vs: seq<nat>, j: nat): nat
      requires tree.ShapeOk() && tree.IsNode(n) && |a| + 1 < depth
      requires j < tree.NumChildren(n)
      decreases depth - |a|, 0, |vs|
    {
      if vs == [] then 0
      else
        var last := |vs| - 1;
        ValuesSum(work, n, a, vs[..last], j) + Descent(work, n, a, vs[last], j)
    }

    /** One value descended into one child. */
    ghost function Descent(work: bool, n: nat, a: seq<nat>, v: nat, j: nat): nat
      requires tree.ShapeOk() && tree.IsNode(n) && |a| + 1 < depth
      requires j < tree.NumChildren(n)
      decreases depth - |a|, 0, 0
    {
      (if work then 1 else 0) + Weight(work, tree.Child(n, j), tree.ChildSt(n, j), a + [v])
    }

    // ----- splitting and reordering the sums -----

    lemma {:induction false} ValuesSumAppend(work: bool, n: nat, a: seq<nat>, vs: seq<nat>, ws: seq<nat>, j: nat)
      requires tree.ShapeOk() && tree.IsNode(n) && |a| + 1 < depth
      requires j < tree.NumChildren(n)
      ensures ValuesSum(work, n, a, vs + ws, j) == ValuesSum(work, n, a, vs, j) + ValuesSum(work, n, a, ws, j)
      decreases |ws|
    {
      if ws == [] {
        assert vs + ws == vs;
      } else {
        assert (vs + ws)[..|vs + ws| - 1] == vs + ws[..|ws| - 1];
        ValuesSumAppend(work, n, a, vs, ws[..|ws| - 1], j);
      }
    }

    lemma {:induction false} ChildrenSumAppend(work: bool, n: nat, a: seq<nat>, vs: seq<nat>, ws: seq<nat>, j: nat)
      requires tree.ShapeOk() && tree.IsNode(n) && |a| + 1 < depth
      ensures ChildrenSum(work, n, a, vs + ws, j)
           == ChildrenSum(work, n, a, vs, j) + ChildrenSum(work, n, a, ws, j)
      decreases tree.NumChildren(n) - j
    {
      if j < tree.NumChildren(n) {
        ValuesSumAppend(work, n, a, vs, ws, j);
        ChildrenSumAppend(work, n, a, vs, ws, j + 1);
      }
    }

    lemma {:induction false} ValuesSumTakeOut(work: bool, n: nat, a: seq<nat>, ws: seq<nat>, i: nat, j: nat)
      requires tree.ShapeOk() && tree.IsNode(n) && |a| + 1 < depth
      requires j < tree.NumChildren(n) && i < |ws|
      ensures ValuesSum(work, n, a, ws, j)
           == ValuesSum(work, n, a, ws[..i] + ws[i + 1..], j) + Descent(work, n, a, ws[i], j)
    {
      assert ws == ws[..i + 1] + ws[i + 1..];
      assert ws[..i + 1][..i] == ws[..i];
      ValuesSumAppend(work, n, a, ws[..i + 1], ws[i + 1..], j);
      ValuesSumAppend(work, n, a, ws[..i], ws[i + 1..], j);
    }

    lemma {:induction false} ValuesSumSame(work: bool, n: nat, a: seq<nat>, vs: seq<nat>, ws: seq<nat>, j: nat)
      requires tree.ShapeOk() && tree.IsNode(n) && |a| + 1 < depth
      requires j < tree.NumChildren(n)
      requires NoDup(vs) && NoDup(ws) && SameElements(vs, ws)
      ensures ValuesSum(work, n, a, vs, j) == ValuesSum(work, n, a, ws, j)
      decreases |vs|
    {
      if vs == [] {
        EmptySame(vs, ws);
      } else {
        var v := vs[|vs| - 1];
        assert v in vs;
        var i :| 0 <= i < |ws| && ws[i] == v;
        WithoutOne(vs, ws, i);
        ValuesSumSame(work, n, a, vs[..|vs| - 1], ws[..i] + ws[i + 1..], j);
        ValuesSumTakeOut(work, n, a, ws, i, j);
      }
    }

    lemma {:induction false} ChildrenSumSame(work: bool, n: nat, a: seq<nat>, vs: seq<nat>, ws: seq<nat>, j: nat)
      requires tree.ShapeOk() && tree.IsNode(n) && |a| + 1 < depth
      requires NoDup(vs) && NoDup(ws) && SameElements(vs, ws)
      ensures ChildrenSum(work, n, a, vs, j) == ChildrenSum(work, n, a, ws, j)
      decreases tree.NumChildren(n) - j
    {
      if j < tree.NumChildren(n) {
        ValuesSumSame(work, n, a, vs, ws, j);
        ChildrenSumSame(work, n, a, vs, ws, j + 1);
      }
    }

    // ----- the matches themselves -----

    /** Every full assignment of subtask k that extends a. */
    ghost function Matches(k: nat, a: seq<nat>): seq<seq<nat>>
      requires |a| <= depth
      decreases depth - |a|, 1, 0
    {
      if |a| == depth then [a] else MatchesFrom(k, a, cand(k, a))
    }

    ghost function MatchesFrom(k: nat, a: seq<nat>, vs: seq<nat>): seq<seq<nat>>
      requires |a| < depth
      decreases depth - |a|, 0, |vs|
    {
      if vs == [] then []
      else MatchesFrom(k, a, vs[..|vs| - 1]) + Matches(k, a + [vs[|vs| - 1]])
    }

    /** b is a full assignment that starts with a and picks a candidate at every later depth. */
    ghost predicate IsMatchFrom(k: nat, a: seq<nat>, b: seq<nat>) {
      && |b| == depth && a <= b
      && forall i :: |a| <= i < |b| ==> b[i] in cand(k, b[..i])
    }

    ghost predicate NoDupCandidates(k: nat) {
      forall a: seq<nat> :: NoDup(cand(k, a))
    }

    /** The list of matches holds each match exactly once. */
    lemma {:induction false} MatchesAre(k: nat, a: seq<nat>)
      requires |a| <= depth && NoDupCandidates(k)
      ensures forall b :: b in Matches(k, a) <==> IsMatchFrom(k, a, b)
      ensures NoDup(Matches(k, a))
      decreases depth - |a|, 1, 0
    {
      if |a| < depth {
        MatchesFromAre(k, a, cand(k, a));
        forall b
          ensures b in Matches(k, a) <==> IsMatchFrom(k, a, b)
        {
          if |b| == depth && a <= b {
            assert b[..|a|] == a;
          }
        }
      } else {
        assert forall b :: |b| == |a| && a <= b ==> b == a;
      }
    }

    lemma {:induction false} MatchesFromAre(k: nat, a: seq<nat>, vs: seq<nat>)
      requires |a| < depth && NoDupCandidates(k) && NoDup(vs)
      ensures forall b :: b in MatchesFrom(k, a, vs) <==>
                |b| == depth && a <= b && b[|a|] in vs && IsMatchFrom(k, b[..|a| + 1], b)
      ensures NoDup(MatchesFrom(k, a, vs))
      decreases depth - |a|, 0, |vs|
    {
      if vs != [] {
        var last := |vs| - 1;
        var a' := a + [vs[last]];
        MatchesFromAre(k, a, vs[..last]);
        MatchesAre(k, a');
        assert forall v :: v in vs <==> v in vs[..last] || v == vs[last];
        forall b
          ensures b in MatchesFrom(k, a, vs) <==>
                |b| == depth && a <= b && b[|a|] in vs && IsMatchFrom(k, b[..|a| + 1], b)
        {
          if |b| == depth && a <= b && b[|a|] == vs[last] {
            assert b[..|a| + 1] == a';
          }
        }
        NoDupConcat(MatchesFrom(k, a, vs[..last]), Matches(k, a'));
      }
    }

    // ----- tree sums are numbers of matches -----

    /** Number of matches extending a, over the subtasks lo..hi. */
    ghost function RangeCount(lo: nat, hi: nat, a: seq<nat>): nat
      requires |a| <= depth
      decreases hi - lo
    {
      if lo >= hi then 0 else RangeCount(lo, hi - 1, a) + |Matches(hi - 1, a)|
    }

    ghost function RangeCountFrom(lo: nat, hi: nat, a: seq<nat>, vs: seq<nat>): nat
      requires |a| < depth
      decreases hi - lo
    {
      if lo >= hi then 0 else RangeCountFrom(lo, hi - 1, a, vs) + |MatchesFrom(hi - 1, a, vs)|
    }

    lemma {:induction false} RangeCountSnoc(lo: nat, hi: nat, a: seq<nat>, vs: seq<nat>)
      requires |a| < depth && vs != []
      ensures RangeCountFrom(lo, hi, a, vs)
           == RangeCountFrom(lo, hi, a, vs[..|vs| - 1]) + RangeCount(lo, hi, a + [vs[|vs| - 1]])
      decreases hi - lo
    {
      if lo < hi {
        RangeCountSnoc(lo, hi - 1, a, vs);
      }
    }

    lemma {:induction false} RangeCountEmpty(lo: nat, hi: nat, a: seq<nat>)
      requires |a| < depth
      ensures RangeCountFrom(lo, hi, a, []) == 0
      decreases hi - lo
    {
      if lo < hi {
        RangeCountEmpty(lo, hi - 1, a);
      }
    }

    lemma {:induction false} RangeCountJoin(lo: nat, mid: nat, hi: nat, a: seq<nat>, vs: seq<nat>)
      requires lo <= mid <= hi && |a| < depth
      ensures RangeCountFrom(lo, hi, a, vs) == RangeCountFrom(lo, mid, a, vs) + RangeCountFrom(mid, hi, a, vs)
      decreases hi - mid
    {
      if mid < hi {
        RangeCountJoin(lo, mid, hi - 1, a, vs);
      }
    }

    /** Subtasks that share everything up to depth |a| share the candidates there. */
    lemma {:induction false} RangeCountShared(k: nat, lo: nat, hi: nat, a: seq<nat>, d: nat)
      requires |a| < depth && d == |a| + 1
      requires forall k' :: lo <= k' < hi ==> SameBelow(k, k', d)
      ensures RangeCountFrom(lo, hi, a, cand(k, a)) == RangeCount(lo, hi, a)
      decreases hi - lo
    {
      if lo < hi {
        RangeCountShared(k, lo, hi - 1, a, d);
        assert SameBelow(k, hi - 1, d);
      }
    }

    /** The count of a tree node is the number of matches of the subtasks it covers. */
    lemma {:induction false} NodeCount(n: nat, lo: nat, hi: nat, a: seq<nat>)
      requires tree.ShapeOk() && |a| < depth
      requires Covers(n, |a| + 1, lo, hi)
      ensures Weight(false, n, lo, a) == RangeCount(lo, hi, a)
      decreases depth - |a|, 2, 0
    {
      var vs := cand(lo, a);
      RangeCountShared(lo, lo, hi, a, |a| + 1);
      if |a| == depth - 1 {
        LeafLength(lo, a, vs);
        assert RangeCountFrom(lo, lo, a, vs) == 0;
        assert RangeCountFrom(lo, lo + 1, a, vs) == |MatchesFrom(lo, a, vs)|;
      } else {
        ChildrenCount(n, lo, hi, a, vs, 0);
      }
    }

    lemma {:induction false} LeafLength(k: nat, a: seq<nat>, vs: seq<nat>)
      requires |a| == depth - 1
      ensures |MatchesFrom(k, a, vs)| == |vs|
      decreases |vs|
    {
      if vs != [] {
        LeafLength(k, a, vs[..|vs| - 1]);
      }
    }

    lemma {:induction false} ChildrenCount(n: nat, lo: nat, hi: nat, a: seq<nat>, vs: seq<nat>, j: nat)
      requires tree.ShapeOk() && |a| + 1 < depth
      requires Covers(n, |a| + 1, lo, hi) && j < tree.NumChildren(n)
      ensures tree.ChildSt(n, j) < hi
      ensures ChildrenSum(false, n, a, vs, j) == RangeCountFrom(tree.ChildSt(n, j), hi, a, vs)
      decreases depth - |a|, 1, tree.NumChildren(n) - j
    {
      assert Covers(tree.Child(n, j), |a| + 2, tree.ChildSt(n, j), tree.ChildEnd(n, j, hi));
      ChildCount(n, lo, hi, a, vs, j);
      if j + 1 < tree.NumChildren(n) {
        ChildrenCount(n, lo, hi, a, vs, j + 1);
        RangeCountJoin(tree.ChildSt(n, j), tree.ChildSt(n, j + 1), hi, a, vs);
      } else {
        assert ChildrenSum(false, n, a, vs, j + 1) == 0;
      }
    }

    lemma {:induction false} ChildCount(n: nat, lo: nat, hi: nat, a: seq<nat>, vs: seq<nat>, j: nat)
      requires tree.ShapeOk() && |a| + 1 < depth
      requires Covers(n, |a| + 1, lo, hi) && j < tree.NumChildren(n)
      ensures ValuesSum(false, n, a, vs, j) == RangeCountFrom(tree.ChildSt(n, j), tree.ChildEnd(n, j, hi), a, vs)
      decreases depth - |a|, 0, |vs|
    {
      var clo, chi := tree.ChildSt(n, j), tree.ChildEnd(n, j, hi);
      if vs == [] {
        RangeCountEmpty(clo, chi, a);
      } else {
        var last := |vs| - 1;
        ChildCount(n, lo, hi, a, vs[..last], j);
        NodeCount(tree.Child(n, j), clo, chi, a + [vs[last]]);
        RangeCountSnoc(clo, chi, a, vs);
      }
    }
  }
}
