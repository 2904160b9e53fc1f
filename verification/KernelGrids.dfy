/** All the blocks of one launch, and what their counters add up to. */
module KernelGrids {
  import opened Machine
  import opened Sequences
  import opened Shards
  import opened Intersections
  import opened SearchTrees
  import opened Backtracking
  import opened Launches
  import opened Registers
  import opened KernelLoads
  import opened ThreadBlocks

  // ----- sums over blocks and root nodes -----

  ghost function Total(xs: seq<nat>): nat {
    if xs == [] then 0 else Total(xs[..|xs| - 1]) + xs[|xs| - 1]
  }

  lemma {:induction false} TotalSnoc(xs: seq<nat>, i: nat)
    requires i < |xs|
    ensures Total(xs[..i + 1]) == Total(xs[..i]) + xs[i]
  {
    assert xs[..i + 1][..i] == xs[..i];
  }

  lemma {:induction false} TotalAdd(xs: seq<nat>, ys: seq<nat>, zs: seq<nat>)
    requires |xs| == |ys| == |zs| && forall i :: 0 <= i < |xs| ==> zs[i] == xs[i] + ys[i]
    ensures Total(zs) == Total(xs) + Total(ys)
    decreases |xs|
  {
    if xs != [] {
      var last := |xs| - 1;
      TotalAdd(xs[..last], ys[..last], zs[..last]);
    }
  }

  lemma {:induction false} TotalZero(xs: seq<nat>)
    requires forall i :: 0 <= i < |xs| ==> xs[i] == 0
    ensures Total(xs) == 0
    decreases |xs|
  {
    if xs != [] {
      TotalZero(xs[..|xs| - 1]);
    }
  }

  // ----- the shares of the blocks -----

  ghost function Flat(parts: seq<seq<nat>>): seq<nat> {
    if parts == [] then [] else Flat(parts[..|parts| - 1]) + parts[|parts| - 1]
  }

  /** What the root candidates in the parts of a pivot list lead to, part by part. */
  ghost function PartsSum(S: Search, node: nat, good: iset<nat>, parts: seq<seq<nat>>): nat
    requires S.tree.ShapeOk() && S.tree.IsNode(node) && S.depth >= 2
  {
    if parts == [] then 0
    else
      var last := |parts| - 1;
      PartsSum(S, node, good, parts[..last]) + S.ChildrenSum(false, node, [], FilterIn(good, parts[last]), 0)
  }

  lemma {:induction false} PartsJoin(S: Search, node: nat, good: iset<nat>, parts: seq<seq<nat>>)
    requires S.tree.ShapeOk() && S.tree.IsNode(node) && S.depth >= 2
    ensures PartsSum(S, node, good, parts) == S.ChildrenSum(false, node, [], FilterIn(good, Flat(parts)), 0)
    decreases |parts|
  {
    if parts == [] {
      EmptySum(S, false, node, [], 0);
    } else {
      var last := |parts| - 1;
      PartsJoin(S, node, good, parts[..last]);
      FilterAppend(good, Flat(parts[..last]), parts[last]);
      S.ChildrenSumAppend(false, node, [], FilterIn(good, Flat(parts[..last])), FilterIn(good, parts[last]), 0);
    }
  }

  /** The shares of blocks 0 to n-1. */
  ghost function SharesOf(list: seq<nat>, n: nat): (parts: seq<seq<nat>>)
    ensures |parts| == n && forall b :: 0 <= b < n ==> parts[b] == BlockShare(0, b, list)
  {
    seq(n, b requires 0 <= b < n => BlockShare(0, b, list))
  }

  /** The part of a list before the slice of block n. */
  ghost function UpTo(list: seq<nat>, n: nat): seq<nat> {
    list[..Min(Gap(|list|) * n, |list|)]
  }

  lemma {:induction false} SliceSnoc(list: seq<nat>, lo: nat, hi: nat)
    requires lo <= hi
    ensures list[..Min(hi, |list|)] == list[..Min(lo, |list|)] + Slice(list, lo, hi)
  {
  }

  lemma {:induction false} UpToStep(list: seq<nat>, n: nat)
    ensures UpTo(list, n + 1) == UpTo(list, n) + BlockShare(0, n, list)
  {
    Expand(Gap(|list|), n);
    SliceSnoc(list, Gap(|list|) * n, Gap(|list|) * n + Gap(|list|));
  }

  lemma {:induction false} SharesFlat(list: seq<nat>, n: nat)
    ensures Flat(SharesOf(list, n)) == UpTo(list, n)
  {
    if n > 0 {
      SharesFlat(list, n - 1);
      UpToStep(list, n - 1);
      assert SharesOf(list, n)[..n - 1] == SharesOf(list, n - 1);
    }
  }

  /** MAX_BLOCKS or more blocks enumerate the whole pivot list, each position once. */
  lemma {:induction false} SharesCover(list: seq<nat>, n: nat)
    requires n >= MAX_BLOCKS
    ensures Flat(SharesOf(list, n)) == list
  {
    SharesFlat(list, n);
    assert Gap(|list|) * MAX_BLOCKS >= |list|;
    MulLe(Gap(|list|), MAX_BLOCKS, Gap(|list|), n);
  }

  /** The shares are even: none is longer than an equal split into MAX_BLOCKS parts, rounded up. */
  lemma {:induction false} SharesEven(list: seq<nat>, b: nat)
    ensures (|BlockShare(0, b, list)| - 1) * 3840 < |list| || list == []
  {
    assert |BlockShare(0, b, list)| <= Gap(|list|);
    assert (Gap(|list|) - 1) * MAX_BLOCKS < |list| || list == [];
  }

  // ----- the roots -----

  /** A root node with the subtasks it covers, the pivot list of its first depth and the values that may stand there. */
  datatype Root = Root(span: Span, list: seq<nat>, good: iset<nat>)

  /** Root i ends where the next one begins. */
  ghost predicate Adjoin(roots: seq<Root>, i: nat)
    requires i + 1 < |roots|
  {
    roots[i].span.hi == roots[i + 1].span.lo
  }

  /** The spans start at subtask 0, and each begins where the one before it ends. */
  ghost predicate Linked(roots: seq<Root>) {
    && (roots != [] ==> roots[0].span.lo == 0)
    && (forall i {:trigger roots[i].span.lo} :: 0 <= i < |roots| ==> roots[i].span.lo <= roots[i].span.hi)
    && (forall i {:trigger Adjoin(roots, i)} :: 0 <= i < |roots| - 1 ==> Adjoin(roots, i))
  }

  /** The roots cover the subtasks from 0 to n without gap or overlap. */
  ghost predicate Tiles(S: Search, roots: seq<Root>, n: nat)
    requires S.tree.ShapeOk()
  {
    && S.depth >= 2
    && roots != [] && Linked(roots) && roots[|roots| - 1].span.hi == n
    && (forall i {:trigger roots[i].span.lo} :: 0 <= i < |roots| ==>
          SpanOk(S, roots[i].span, 0) && roots[i].span.lo < roots[i].span.hi <= S.numSubtasks)
  }

  /** What block b counts beneath a root. */
  ghost function RootCount(S: Search, root: Root, b: nat): nat {
    if S.tree.ShapeOk() && S.depth >= 2 && S.tree.IsNode(root.span.node) then
      S.ChildrenSum(false, root.span.node, [], FilterIn(root.good, BlockShare(0, b, root.list)), 0)
    else 0
  }

  /** What the first n blocks count beneath a root. */
  ghost function RootSum(S: Search, root: Root, n: nat): nat {
    if n == 0 then 0 else RootSum(S, root, n - 1) + RootCount(S, root, n - 1)
  }

  ghost function BlockCounts(S: Search, roots: seq<Root>, b: nat): (xs: seq<nat>)
    ensures |xs| == |roots| && forall i :: 0 <= i < |xs| ==> xs[i] == RootCount(S, roots[i], b)
  {
    seq(|roots|, i requires 0 <= i < |roots| => RootCount(S, roots[i], b))
  }

  ghost function GridCounts(S: Search, roots: seq<Root>, n: nat): (xs: seq<nat>)
    ensures |xs| == |roots| && forall i :: 0 <= i < |xs| ==> xs[i] == RootSum(S, roots[i], n)
  {
    seq(|roots|, i requires 0 <= i < |roots| => RootSum(S, roots[i], n))
  }

  lemma {:induction false} OneMoreBlock(S: Search, roots: seq<Root>, n: nat)
    ensures Total(GridCounts(S, roots, n + 1)) == Total(GridCounts(S, roots, n)) + Total(BlockCounts(S, roots, n))
  {
    TotalAdd(GridCounts(S, roots, n), BlockCounts(S, roots, n), GridCounts(S, roots, n + 1));
  }

  lemma {:induction false} NoBlocks(S: Search, roots: seq<Root>)
    ensures Total(GridCounts(S, roots, 0)) == 0
  {
    TotalZero(GridCounts(S, roots, 0));
  }

  lemma {:induction false} RangeJoin(S: Search, lo: nat, mid: nat, hi: nat)
    requires lo <= mid <= hi
    ensures S.RangeCount(lo, hi, []) == S.RangeCount(lo, mid, []) + S.RangeCount(mid, hi, [])
    decreases hi - mid
  {
    if mid < hi {
      RangeJoin(S, lo, mid, hi - 1);
    }
  }

  /** If every root counts the matches of its own subtasks, the roots together count all of them. */
  lemma {:induction false} TotalOfTiles(S: Search, roots: seq<Root>, xs: seq<nat>, m: nat)
    requires Linked(roots) && 1 <= m <= |roots| == |xs|
    requires forall i :: 0 <= i < |roots| ==> xs[i] == S.RangeCount(roots[i].span.lo, roots[i].span.hi, [])
    ensures Total(xs[..m]) == S.RangeCount(0, roots[m - 1].span.hi, [])
  {
    TotalSnoc(xs, m - 1);
    if m == 1 {
      assert Total(xs[..0]) == 0;
    } else {
      TotalOfTiles(S, roots, xs, m - 1);
      OneMoreRoot(S, roots, m - 1);
    }
  }

  lemma {:induction false} OneMoreRoot(S: Search, roots: seq<Root>, i: nat)
    requires Linked(roots) && 1 <= i < |roots|
    ensures S.RangeCount(0, roots[i].span.hi, [])
         == S.RangeCount(0, roots[i - 1].span.hi, []) + S.RangeCount(roots[i].span.lo, roots[i].span.hi, [])
  {
    assert Adjoin(roots, i - 1);
    RangeJoin(S, 0, roots[i].span.lo, roots[i].span.hi);
  }

  /** The blocks together count, beneath a root, the matches of its subtasks. */
  ghost predicate CountsItsMatches(S: Search, root: Root, blocks: nat) {
    RootSum(S, root, blocks) == S.RangeCount(root.span.lo, root.span.hi, [])
  }

  lemma {:induction false} GridTotal(S: Search, roots: seq<Root>, n: nat, blocks: nat)
    requires S.tree.ShapeOk() && Tiles(S, roots, n)
    requires forall i {:trigger roots[i]} :: 0 <= i < |roots| ==> CountsItsMatches(S, roots[i], blocks)
    ensures Total(GridCounts(S, roots, blocks)) == S.RangeCount(0, n, [])
  {
    var xs := GridCounts(S, roots, blocks);
    forall i | 0 <= i < |roots|
      ensures xs[i] == S.RangeCount(roots[i].span.lo, roots[i].span.hi, [])
    {
      assert CountsItsMatches(S, roots[i], blocks);
    }
    TotalOfTiles(S, roots, xs, |roots|);
    assert xs[..|roots|] == xs;
  }

  // ----- a launch -----

  ghost function RootOf(L: Launch, span: Span): Root {
    Root(span, L.RootList(span.lo), L.RootGood(span.lo))
  }

  ghost function RootsOf(L: Launch): (roots: seq<Root>)
    requires L.tree.ShapeOk()
    ensures |roots| == L.tree.NumChildren(0)
    ensures forall i :: 0 <= i < |roots| ==>
              roots[i] == RootOf(L, ChildSpan(L.TheSearch(), Span(0, 0, |L.subtasks|), i))
  {
    seq(L.tree.NumChildren(0), i requires 0 <= i < L.tree.NumChildren(0) =>
        RootOf(L, ChildSpan(L.TheSearch(), Span(0, 0, |L.subtasks|), i)))
  }

  lemma {:induction false} RootsTile(L: Launch)
    requires L.tree.ShapeOk() && L.numVertices >= 2 && L.TheSearch().Covers(0, 0, 0, |L.subtasks|)
    ensures Tiles(L.TheSearch(), RootsOf(L), |L.subtasks|)
  {
    var S, n := L.TheSearch(), |L.subtasks|;
    forall i | 0 <= i < S.tree.NumChildren(0)
      ensures S.Covers(S.tree.Child(0, i), 1, S.tree.ChildSt(0, i), S.tree.ChildEnd(0, i, n))
    {
    }
  }

  /** The whole pivot list filters to the candidates at the root, up to order. */
  lemma {:induction false} RootListIsCandidates(L: Launch, k: nat)
    requires L.Ready() && k < |L.subtasks|
    ensures SameElements(FilterIn(L.RootGood(k), L.RootList(k)), L.Candidates(k, []))
    ensures NoDup(FilterIn(L.RootGood(k), L.RootList(k))) && NoDup(L.Candidates(k, []))
  {
    assert L.SlotsOkAt(0);
    L.ListsAreOk(k, []);
    assert ListOk(L.RootList(k));
    L.FilterIsCandidates(k, [], L.RootList(k));
  }

  lemma {:induction false} RootWeight(S: Search, span: Span, vs: seq<nat>)
    requires S.tree.ShapeOk() && S.depth >= 2 && SpanOk(S, span, 0)
    requires SameElements(vs, S.cand(span.lo, [])) && NoDup(vs) && NoDup(S.cand(span.lo, []))
    ensures S.ChildrenSum(false, span.node, [], vs, 0) == S.RangeCount(span.lo, span.hi, [])
  {
    S.ChildrenSumSame(false, span.node, [], vs, S.cand(span.lo, []), 0);
    S.NodeCount(span.node, span.lo, span.hi, []);
  }

  lemma {:induction false} WholeSum(S: Search, root: Root, blocks: nat)
    requires S.tree.ShapeOk() && S.depth >= 2 && SpanOk(S, root.span, 0) && blocks >= MAX_BLOCKS
    requires SameElements(FilterIn(root.good, root.list), S.cand(root.span.lo, []))
    requires NoDup(FilterIn(root.good, root.list)) && NoDup(S.cand(root.span.lo, []))
    ensures CountsItsMatches(S, root, blocks)
  {
    RootWeight(S, root.span, FilterIn(root.good, root.list));
    RootSumIs(S, root, blocks);
    PartsJoin(S, root.span.node, root.good, SharesOf(root.list, blocks));
    SharesCover(root.list, blocks);
  }

  lemma {:induction false} RootSumIs(S: Search, root: Root, n: nat)
    requires S.tree.ShapeOk() && S.depth >= 2 && S.tree.IsNode(root.span.node)
    ensures RootSum(S, root, n) == PartsSum(S, root.span.node, root.good, SharesOf(root.list, n))
  {
    if n > 0 {
      RootSumIs(S, root, n - 1);
      assert SharesOf(root.list, n)[..n - 1] == SharesOf(root.list, n - 1);
    }
  }

  /** The counters of all blocks add up to the number of matches of all subtasks of the launch. */
  lemma {:induction false} LaunchCounts(L: Launch, blocks: nat)
    requires L.Valid() && blocks >= MAX_BLOCKS
    ensures Total(GridCounts(L.TheSearch(), RootsOf(L), blocks)) == L.TheSearch().RangeCount(0, |L.subtasks|, [])
  {
    RootsTile(L);
    var S, roots := L.TheSearch(), RootsOf(L);
    forall i {:trigger roots[i]} | 0 <= i < |roots|
      ensures CountsItsMatches(S, roots[i], blocks)
    {
      RootListIsCandidates(L, roots[i].span.lo);
      WholeSum(S, roots[i], blocks);
    }
    GridTotal(S, roots, |L.subtasks|, blocks);
  }

  // ----- running it -----

  function IdleLevel(numEdges: nat): Level {
    Level(0, true, INITIAL, 0, 0, 0, 0, SHARED_MEMBUF, seq(SM_THRESHOLD, i => 0), 0,
          seq(2 * numEdges, i => 0), seq(2 * numEdges, i => 0))
  }

  /** Root i of the launch's tables is root number i. */
  ghost predicate RootTableOk(L: Launch, root: Root, i: nat) {
    && i < |L.rootIds| && i < |L.tree.st|
    && L.rootIds[i] == root.span.node && L.tree.st[i] == root.span.lo < |L.subtasks|
    && root == RootOf(L, root.span)
  }

  lemma {:induction false} RootTables(L: Launch)
    requires L.tree.ShapeOk() && L.numVertices >= 2 && L.TheSearch().Covers(0, 0, 0, |L.subtasks|) && L.RootIdsOk()
    ensures |RootsOf(L)| == |L.rootIds|
    ensures forall i {:trigger RootReady(L, L.TheSearch(), RootsOf(L), i)} :: 0 <= i < |RootsOf(L)| ==>
              RootReady(L, L.TheSearch(), RootsOf(L), i)
  {
    forall i {:trigger RootReady(L, L.TheSearch(), RootsOf(L), i)} | 0 <= i < |RootsOf(L)|
      ensures RootReady(L, L.TheSearch(), RootsOf(L), i)
    {
      RootTable(L, i);
    }
  }

  lemma {:induction false} RootTable(L: Launch, i: nat)
    requires L.tree.ShapeOk() && L.numVertices >= 2 && L.TheSearch().Covers(0, 0, 0, |L.subtasks|) && L.RootIdsOk()
    requires i < |RootsOf(L)|
    ensures RootReady(L, L.TheSearch(), RootsOf(L), i)
  {
    RootsTile(L);
    L.tree.ChildInBounds(0, i);
    assert RootsOf(L)[i].span.lo < RootsOf(L)[i].span.hi;
  }

  lemma {:induction false} RootTopCount(L: Launch, b: nat, P: Plan, root: Root, i: nat)
    requires P == PlanOf(L, b) && P.Ok() && SpanOk(P.search, root.span, 0) && RootTableOk(L, root, i)
    ensures TopRem(P.search, false, RootTop(P, root.span), []) == RootCount(P.search, root, b)
  {
  }

  ghost predicate RootReady(L: Launch, S: Search, roots: seq<Root>, i: nat) {
    S.tree.ShapeOk() && i < |roots| && SpanOk(S, roots[i].span, 0) && RootTableOk(L, roots[i], i)
  }

  /** One iteration of the loop over root nodes. */
  method RunOneRoot(L: Launch, b: nat, ghost P: Plan, ghost roots: seq<Root>, i: nat, levels: seq<Level>,
                    arrs: seq<seq<nat>>, counter: nat)
    returns (levels': seq<Level>, arrs': seq<seq<nat>>, counter': nat)
    requires P == PlanOf(L, b) && P.ready && P.Ok() && b < 0x1_0000
    requires RootReady(L, P.search, roots, i) && Resting(P, levels, arrs)
    ensures Resting(P, levels', arrs') && counter' == counter + RootCount(P.search, roots[i], b)
  {
    RootTopCount(L, b, P, roots[i], i);
    var subtask := L.tree.st[i];
    var at := Place(0, L.rootIds[i], subtask, L.subtasks[subtask]);
    levels', arrs', counter' := RunRoot(L, b, P, roots[i].span, at, levels, arrs, counter);
  }

  /** The registers a block starts with. */
  method FreshRegisters(ghost P: Plan, numVertices: nat, numEdges: nat)
    returns (levels: seq<Level>, arrs: seq<seq<nat>>)
    requires P.search.depth == numVertices && P.numEdges == numEdges
    ensures Resting(P, levels, arrs)
  {
    levels, arrs := seq(numVertices, d => IdleLevel(numEdges)), seq(2 * numEdges, e => []);
  }

  /** One thread block: the root nodes one after another. */
  method RunBlock(L: Launch, b: nat, ghost P: Plan, ghost roots: seq<Root>) returns (counter: nat)
    requires P == PlanOf(L, b) && P.ready && P.Ok() && b < 0x1_0000
    requires |roots| == |L.rootIds|
    requires forall i {:trigger RootReady(L, P.search, roots, i)} :: 0 <= i < |roots| ==>
               RootReady(L, P.search, roots, i)
    ensures counter == Total(BlockCounts(P.search, roots, b))
  {
    var levels, arrs := FreshRegisters(P, L.numVertices, L.numEdges);
    ghost var counts := BlockCounts(P.search, roots, b);
    counter := 0;
    var i := 0;
    while i < |L.rootIds|
      invariant 0 <= i <= |L.rootIds|
      invariant Resting(P, levels, arrs)
      invariant counter == Total(counts[..i])
    {
      assert RootReady(L, P.search, roots, i);
      TotalSnoc(counts, i);
      levels, arrs, counter := RunOneRoot(L, b, P, roots, i, levels, arrs, counter);
      i := i + 1;
    }
    assert counts[..i] == counts;
  }

  ghost predicate PlanReady(L: Launch, S: Search, b: nat) {
    PlanOf(L, b).ready && PlanOf(L, b).Ok() && PlanOf(L, b).search == S
  }

  lemma {:induction false} PlansReady(L: Launch)
    requires L.Valid()
    ensures forall b: nat {:trigger PlanReady(L, L.TheSearch(), b)} :: PlanReady(L, L.TheSearch(), b)
  {
  }

  /** The blocks one after another, each adding its counter to the launch's. */
  method RunBlocks(L: Launch, blocks: nat, ghost S: Search, ghost roots: seq<Root>) returns (counter: nat)
    requires S.tree.ShapeOk() && forall b: nat {:trigger PlanReady(L, S, b)} :: PlanReady(L, S, b)
    requires |roots| == |L.rootIds| && blocks <= 0x1_0000
    requires forall i {:trigger RootReady(L, S, roots, i)} :: 0 <= i < |roots| ==> RootReady(L, S, roots, i)
    ensures counter == Total(GridCounts(S, roots, blocks))
  {
    NoBlocks(S, roots);
    counter := 0;
    var b := 0;
    while b < blocks
      invariant 0 <= b <= blocks
      invariant counter == Total(GridCounts(S, roots, b))
    {
      assert PlanReady(L, S, b);
      var found := RunBlock(L, b, PlanOf(L, b), roots);
      OneMoreBlock(S, roots, b);
      counter := counter + found;
      b := b + 1;
    }
  }

  /** A whole launch counts the matches of all its subtasks. */
  method RunGrid(L: Launch, blocks: nat) returns (counter: nat)
    requires L.Valid() && MAX_BLOCKS <= blocks <= 0x1_0000
    ensures counter == L.TheSearch().RangeCount(0, |L.subtasks|, [])
  {
    RootTables(L);
    PlansReady(L);
    LaunchCounts(L, blocks);
    counter := RunBlocks(L, blocks, L.TheSearch(), RootsOf(L));
  }
}
