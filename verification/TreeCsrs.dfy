/** The rebuilt tree as the four arrays the kernel reads. */
module TreeCsrs {
  import opened Sequences
  import opened SearchTrees
  import opened TaskPackers
  import opened TaskTrees

  // ----- lengths -----

  lemma {:induction false} TotalLenSnoc(tree: Lists, i: nat)
    requires i < |tree|
    ensures TotalLen(tree[..i + 1]) == TotalLen(tree[..i]) + |tree[i]|
  {
    assert tree[..i + 1][..i] == tree[..i];
  }

  lemma {:induction false} TotalLenMono(tree: Lists, i: nat, j: nat)
    requires i <= j <= |tree|
    ensures TotalLen(tree[..i]) <= TotalLen(tree[..j])
    decreases j - i
  {
    if i < j {
      TotalLenMono(tree, i, j - 1);
      TotalLenSnoc(tree, j - 1);
    }
  }

  lemma {:induction false} TotalLenPrefix(tree: Lists, nid: nat)
    requires nid <= |tree| && forall x: nat {:trigger tree[x]} :: nid <= x < |tree| ==> tree[x] == []
    ensures TotalLen(tree[..nid]) == TotalLen(tree)
    decreases |tree|
  {
    if nid < |tree| {
      var last := |tree| - 1;
      TotalLenPrefix(tree[..last], nid);
      assert tree[..last][..nid] == tree[..nid];
    } else {
      assert tree[..nid] == tree;
    }
  }

  // ----- the arrays -----

  /** The children of node i stand in the arrays from ptr[i] on. */
  ghost predicate NodeWritten(tree: Lists, i: nat, from: nat, n: nat, nxt: seq<nat>, prv: seq<nat>, st: seq<nat>) {
    && i < |tree| && n <= |tree[i]| && from + n <= |nxt| == |st| == |prv|
    && forall j: nat {:trigger tree[i][j]} :: j < n ==>
         && nxt[from + j] == tree[i][j].node && st[from + j] == tree[i][j].st
         && 1 <= tree[i][j].node <= |prv| && prv[tree[i][j].node - 1] == i
  }

  ghost predicate Written(tree: Lists, k: nat, ptr: seq<nat>, nxt: seq<nat>, prv: seq<nat>, st: seq<nat>) {
    && k <= |tree| && k <= |ptr|
    && (forall i {:trigger ptr[i]} :: 0 <= i < k ==> ptr[i] == TotalLen(tree[..i]))
    && forall i: nat {:trigger NodeWritten(tree, i, TotalLen(tree[..i]), |tree[i]|, nxt, prv, st)} :: i < k ==>
         NodeWritten(tree, i, TotalLen(tree[..i]), |tree[i]|, nxt, prv, st)
  }

  /** One more entry leaves the written ones alone: every node has one parent. */
  lemma {:induction false} EntryKept(tree: Lists, parent: seq<nat>, i: nat, from: nat, n: nat, nxt: seq<nat>,
                                     prv: seq<nat>, st: seq<nat>,
                                     dst: nat, e: Entry, k: nat)
    requires Parents(tree, parent) && NodeWritten(tree, i, from, n, nxt, prv, st) && from + n <= dst < |nxt|
    requires k < |tree| && e in tree[k] && 1 <= e.node <= |prv|
    ensures NodeWritten(tree, i, from, n, nxt[dst := e.node], prv[e.node - 1 := k], st[dst := e.st])
  {
    var x :| 0 <= x < |tree[k]| && tree[k][x] == e;
    forall j: nat {:trigger tree[i][j]} | j < n
      ensures prv[e.node - 1 := k][tree[i][j].node - 1] == i
    {
      assert parent[tree[i][j].node] == i && parent[tree[k][x].node] == k;
    }
  }

  /** Writes the children of node k. */
  method WriteNode(tree: Lists, ghost parent: seq<nat>, k: nat, dst0: nat, ghost ptr: seq<nat>, nxt0: seq<nat>,
                   prv0: seq<nat>, st0: seq<nat>)
    returns (nxt: seq<nat>, prv: seq<nat>, st: seq<nat>)
    requires Parents(tree, parent) && k < |tree| && k < |ptr| && Written(tree, k, ptr, nxt0, prv0, st0)
    requires dst0 == TotalLen(tree[..k]) && dst0 + |tree[k]| <= |nxt0| && |nxt0| == |prv0| == |st0|
             && |parent| == |nxt0| + 1
    ensures |nxt| == |prv| == |st| == |nxt0|
    ensures Written(tree, k, ptr, nxt, prv, st) && NodeWritten(tree, k, dst0, |tree[k]|, nxt, prv, st)
  {
    nxt, prv, st := nxt0, prv0, st0;
    var j := 0;
    while j < |tree[k]|
      invariant 0 <= j <= |tree[k]| && |nxt| == |prv| == |st| == |nxt0|
      invariant Written(tree, k, ptr, nxt, prv, st)
      invariant NodeWritten(tree, k, dst0, j, nxt, prv, st)
    {
      var e := tree[k][j];
      EntryInRange(tree, parent, k, j);
      AllKept(tree, parent, k, ptr, nxt, prv, st, dst0 + j, e);
      EntryKept(tree, parent, k, dst0, j, nxt, prv, st, dst0 + j, e, k);
      nxt, prv, st := nxt[dst0 + j := e.node], prv[e.node - 1 := k], st[dst0 + j := e.st];
      j := j + 1;
    }
  }

  lemma {:induction false} EntryInRange(tree: Lists, parent: seq<nat>, k: nat, j: nat)
    requires Parents(tree, parent) && k < |tree| && j < |tree[k]|
    ensures 1 <= tree[k][j].node < |parent|
  {
  }

  lemma {:induction false} AllKept(tree: Lists, parent: seq<nat>, k: nat, ptr: seq<nat>, nxt: seq<nat>, prv: seq<nat>,
                                   st: seq<nat>,
                                   dst: nat, e: Entry)
    requires Parents(tree, parent) && Written(tree, k, ptr, nxt, prv, st)
    requires |nxt| == |prv| == |st| && TotalLen(tree[..k]) <= dst < |nxt|
    requires k < |tree| && e in tree[k] && 1 <= e.node <= |prv|
    ensures Written(tree, k, ptr, nxt[dst := e.node], prv[e.node - 1 := k], st[dst := e.st])
  {
    var nxt', prv', st' := nxt[dst := e.node], prv[e.node - 1 := k], st[dst := e.st];
    forall i: nat {:trigger NodeWritten(tree, i, TotalLen(tree[..i]), |tree[i]|, nxt', prv', st')} | i < k
      ensures NodeWritten(tree, i, TotalLen(tree[..i]), |tree[i]|, nxt', prv', st')
    {
      assert NodeWritten(tree, i, TotalLen(tree[..i]), |tree[i]|, nxt, prv, st);
      TotalLenSnoc(tree, i);
      TotalLenMono(tree, i + 1, k);
      EntryKept(tree, parent, i, TotalLen(tree[..i]), |tree[i]|, nxt, prv, st, dst, e, k);
    }
  }

  /** T holds exactly the lists of the first nid nodes. */
  ghost predicate Compressed(tree: Lists, nid: nat, T: Tree) {
    && 1 <= nid <= |tree| && |T.ptr| == nid + 1 && |T.nxt| == |T.prv| == |T.st| == nid - 1
    && Written(tree, nid, T.ptr, T.nxt, T.prv, T.st)
    && T.ptr[nid] == TotalLen(tree[..nid]) == nid - 1
  }

  /** Writes the lists into the arrays, node by node. */
  method Compress(tree: Lists, nid: nat, ghost roots: seq<nat>, ghost parent: seq<nat>) returns (T: Tree)
    requires NodesOk(tree, nid, roots, parent) && nid <= |tree|
    ensures Compressed(tree, nid, T)
  {
    TotalLenPrefix(tree, nid);
    var ptr: seq<nat> := [];
    var nxt, prv, st := seq(nid - 1, i => 0), seq(nid - 1, i => 0), seq(nid - 1, i => 0);
    var sum, k := 0, 0;
    assert tree[..0] == [];
    while k < nid
      invariant 0 <= k <= nid && |ptr| == k && sum == TotalLen(tree[..k])
      invariant |nxt| == |prv| == |st| == nid - 1
      invariant Written(tree, k, ptr, nxt, prv, st)
    {
      TotalLenSnoc(tree, k);
      TotalLenMono(tree, k + 1, nid);
      ptr := ptr + [sum];
      nxt, prv, st := WriteNode(tree, parent, k, sum, ptr, nxt, prv, st);
      sum := sum + |tree[k]|;
      k := k + 1;
    }
    ptr := ptr + [sum];
    T := Tree(ptr, nxt, prv, st);
  }

  // ----- what the arrays say -----

  lemma {:induction false} NodeOf(tree: Lists, nid: nat, T: Tree, i: nat)
    requires Compressed(tree, nid, T) && i < nid
    ensures T.ptr[i] <= T.ptr[i + 1] <= nid - 1 && T.ptr[i + 1] - T.ptr[i] == |tree[i]|
    ensures NodeWritten(tree, i, T.ptr[i], |tree[i]|, T.nxt, T.prv, T.st)
  {
    assert NodeWritten(tree, i, TotalLen(tree[..i]), |tree[i]|, T.nxt, T.prv, T.st);
    assert T.ptr[i] == TotalLen(tree[..i]);
    TotalLenSnoc(tree, i);
    TotalLenMono(tree, i + 1, nid);
    if i + 1 < nid {
      assert T.ptr[i + 1] == TotalLen(tree[..i + 1]);
    }
  }

  /** The entries of the arrays are the entries of the lists. */
  lemma {:induction false} PositionOf(tree: Lists, nid: nat, T: Tree, p: nat, k: nat) returns (i: nat, j: nat)
    requires Compressed(tree, nid, T) && k <= nid && p < TotalLen(tree[..k])
    ensures i < k && j < |tree[i]| && p == T.ptr[i] + j
    decreases k
  {
    assert tree[..0] == [];
    assert k != 0;
    TotalLenSnoc(tree, k - 1);
    assert T.ptr[k - 1] == TotalLen(tree[..k - 1]);
    if p >= TotalLen(tree[..k - 1]) {
      i, j := k - 1, p - TotalLen(tree[..k - 1]);
    } else {
      i, j := PositionOf(tree, nid, T, p, k - 1);
    }
  }

  lemma {:induction false} ShapeFits(tree: Lists, nid: nat, T: Tree)
    requires Compressed(tree, nid, T)
    ensures T.ShapeOk()
  {
    forall n {:trigger T.IsNode(n)} | T.IsNode(n)
      ensures T.ptr[n] <= T.ptr[n + 1] <= T.ptr[|T.ptr| - 1]
    {
      NodeOf(tree, nid, T, n);
    }
    assert tree[..0] == [] && T.ptr[0] == TotalLen(tree[..0]);
    forall p | 0 <= p < |T.nxt|
      ensures 1 <= T.nxt[p] < |T.ptr| - 1
    {
      var i, j := PositionOf(tree, nid, T, p, nid);
      NodeOf(tree, nid, T, i);
      assert T.nxt[T.ptr[i] + j] == tree[i][j].node;
    }
  }

  /** Child j of node i in the arrays is entry j of its list. */
  lemma {:induction false} ChildOf(tree: Lists, nid: nat, T: Tree, i: nat, j: nat)
    requires Compressed(tree, nid, T) && T.ShapeOk() && i < nid && j < |tree[i]|
    ensures T.IsNode(i) && T.NumChildren(i) == |tree[i]|
    ensures T.Child(i, j) == tree[i][j].node && T.ChildSt(i, j) == tree[i][j].st && T.prv[T.Child(i, j) - 1] == i
  {
    NodeOf(tree, nid, T, i);
    assert T.nxt[T.ptr[i] + j] == tree[i][j].node;
  }

  /** prv and nxt are inverse: every node but the root is a child of the node its parent entry names. */
  lemma {:induction false} ParentAndBack(tree: Lists, nid: nat, roots: seq<nat>, parent: seq<nat>, T: Tree, c: nat)
    returns (j: nat)
    requires NodesOk(tree, nid, roots, parent) && Compressed(tree, nid, T) && T.ShapeOk() && 1 <= c < nid
    ensures T.IsNode(T.prv[c - 1]) && j < T.NumChildren(T.prv[c - 1]) && T.Child(T.prv[c - 1], j) == c
  {
    var n := parent[c];
    assert HasEntry(tree[n], c);
    j :| 0 <= j < |tree[n]| && tree[n][j].node == c;
    assert n < nid;
    ChildOf(tree, nid, T, n, j);
  }

  /** Every node but the root stands in nxt exactly once. */
  lemma {:induction false} EveryNodeOnce(tree: Lists, nid: nat, roots: seq<nat>, parent: seq<nat>, T: Tree)
    requires NodesOk(tree, nid, roots, parent) && Compressed(tree, nid, T)
    ensures NoDup(T.nxt) && forall c: nat {:trigger c in T.nxt} :: c in T.nxt <==> 1 <= c < nid
  {
    ShapeFits(tree, nid, T);
    forall c: nat | 1 <= c < nid
      ensures c in T.nxt
    {
      var j := ParentAndBack(tree, nid, roots, parent, T, c);
      T.ChildInBounds(T.prv[c - 1], j);
      assert T.nxt[T.ptr[T.prv[c - 1]] + j] == c;
    }
    var want := seq(nid - 1, i requires 0 <= i => i + 1);
    CoversOnce(T.nxt, want);
  }

  lemma {:induction false} CoversOnce(s: seq<nat>, want: seq<nat>)
    requires NoDup(want) && |s| == |want| && forall i {:trigger want[i]} :: 0 <= i < |want| ==> want[i] in s
    ensures NoDup(s)
  {
    NoDupCard(want);
    forall x | x in Members(want)
      ensures x in Members(s)
    {
    }
    CardBound(s);
    SubsetCard(Members(want), Members(s));
    CardNoDup(s);
  }

  lemma {:induction false} SubsetCard(a: set<nat>, b: set<nat>)
    requires a <= b
    ensures |a| <= |b|
  {
    assert |b - a| == |b| - |a|;
  }

  lemma {:induction false} CardBound(s: seq<nat>)
    ensures |Members(s)| <= |s|
    decreases |s|
  {
    if s != [] {
      var last := |s| - 1;
      CardBound(s[..last]);
      assert s == s[..last] + [s[last]];
      assert Members(s) == Members(s[..last]) + {s[last]};
    }
  }

  lemma {:induction false} CardNoDup(s: seq<nat>)
    requires |Members(s)| == |s|
    ensures NoDup(s)
    decreases |s|
  {
    if s != [] {
      var last := |s| - 1;
      var init := s[..last];
      assert s == init + [s[last]];
      assert Members(s) == Members(init) + {s[last]};
      CardBound(init);
      CardNoDup(init);
      assert s[last] !in Members(init);
    }
  }

  // ----- covering -----

  /** Subtasks whose paths agree have the same candidates. */
  ghost predicate AgreeMeansSame(S: Shape, search: Search) {
    forall k: nat, m: nat, d: nat {:trigger S.Agree(k, m, d)} :: d <= S.numVertices && S.Agree(k, m, d) ==>
          search.SameBelow(k, m, d)
  }

  /** A block of the lists is a node of the search tree that covers the same subtasks. */
  lemma {:induction false} BlockCovers(S: Shape, tree: Lists, nid: nat, T: Tree, search: Search, n: nat, end: nat,
                                       d: nat, lo: nat, hi: nat)
    requires Compressed(tree, nid, T) && T.ShapeOk() && search.tree == T
    requires search.depth == S.numVertices && search.numSubtasks == |S.subtasks| && AgreeMeansSame(S, search)
    requires S.Block(tree, n, end, d, lo, hi) && end <= nid
    ensures search.Covers(n, d, lo, hi)
    decreases S.numVertices - d, 1
  {
    NodeOf(tree, nid, T, n);
    forall k | lo <= k < hi
      ensures search.SameBelow(lo, k, d)
    {
      assert S.Agree(lo, k, d);
    }
    if d < S.numVertices {
      ChildOf(tree, nid, T, n, 0);
      forall j: nat | j < T.NumChildren(n)
        ensures T.prv[T.Child(n, j) - 1] == n
        ensures search.Covers(T.Child(n, j), d + 1, T.ChildSt(n, j), T.ChildEnd(n, j, hi))
      {
        ChildOf(tree, nid, T, n, j);
        ChildCovers(S, tree, nid, T, search, n, end, d, lo, hi, j);
      }
    }
  }

  lemma {:induction false} ChildCovers(S: Shape, tree: Lists, nid: nat, T: Tree, search: Search, n: nat, end: nat,
                                       d: nat, lo: nat, hi: nat, j: nat)
    requires Compressed(tree, nid, T) && T.ShapeOk() && search.tree == T
    requires search.depth == S.numVertices && search.numSubtasks == |S.subtasks| && AgreeMeansSame(S, search)
    requires S.Block(tree, n, end, d, lo, hi) && end <= nid && d < S.numVertices && T.IsNode(n)
             && j < T.NumChildren(n) == |tree[n]|
    ensures search.Covers(T.Child(n, j), d + 1, T.ChildSt(n, j), T.ChildEnd(n, j, hi))
    decreases S.numVertices - d, 0
  {
    ChildOf(tree, nid, T, n, j);
    if j + 1 < T.NumChildren(n) {
      ChildOf(tree, nid, T, n, j + 1);
    }
    S.ChildIs(tree, n, end, d, lo, hi, j);
    S.ChildInside(tree, n, end, d, lo, hi, j);
    BlockCovers(S, tree, nid, T, search, tree[n][j].node, NodeEnd(tree, n, j, end), d + 1, tree[n][j].st,
          StEnd(tree, n, j, hi));
  }
}
