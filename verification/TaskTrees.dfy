/** Rebuilding a task's scheduling tree over query vertices from the groups it packs. */
module TaskTrees {
  import opened Grids
  import opened TaskPackers

  /** A child entry: the node and the first subtask beneath it. */
  datatype Entry = Entry(node: nat, st: nat)

  datatype StackElem = StackElem(node: nat, dep: nat)

  type Lists = seq<seq<Entry>>

  /**
   * The tree to build: numVertices levels, of which the first maxRegular come from groups; ends[d] is how many turns
   * the first d vertices own; subtasks are the complete paths.
   */
  datatype Shape = Shape(numVertices: nat, maxRegular: nat, ends: seq<nat>, subtasks: seq<seq<Leaf>>) {

    ghost predicate Ok() {
      && 1 <= maxRegular < numVertices
      && |ends| == maxRegular + 1 && ends[0] == 0
      && (forall d, e :: 0 <= d <= e <= maxRegular ==> ends[d] <= ends[e])
      && (forall k {:trigger subtasks[k]} :: 0 <= k < |subtasks| ==> |subtasks[k]| == ends[maxRegular])
    }

    function End(d: nat): nat {
      if |ends| == 0 then 0 else if d < |ends| then ends[d] else ends[|ends| - 1]
    }

    /** Subtasks k and m use the same shards for the edges of the first d vertices. */
    ghost predicate Agree(k: nat, m: nat, d: nat) {
      && k < |subtasks| && m < |subtasks|
      && End(d) <= |subtasks[k]| && End(d) <= |subtasks[m]|
      && subtasks[k][..End(d)] == subtasks[m][..End(d)]
    }

    /**
     * Node n at depth d, with all nodes from n to end beneath it, covers the subtasks from lo to hi, which agree below
     * depth d. Children split both the node ids and the subtasks, in order.
     */
    ghost predicate Block(tree: Lists, n: nat, end: nat, d: nat, lo: nat, hi: nat)
      decreases numVertices - d, 1
    {
      && d <= numVertices && n < end <= |tree| && lo < hi <= |subtasks|
      && (forall k {:trigger Agree(lo, k, d)} :: lo <= k < hi ==> Agree(lo, k, d))
      && if d == numVertices then tree[n] == [] && end == n + 1 && hi == lo + 1
         else
           && tree[n] != [] && tree[n][0] == Entry(n + 1, lo)
           && forall j: nat {:trigger ChildBlock(tree, n, end, d, hi, j)} :: j < |tree[n]| ==>
                ChildBlock(tree, n, end, d, hi, j)
    }

    /** Child j of node n is a block of its own. */
    ghost predicate ChildBlock(tree: Lists, n: nat, end: nat, d: nat, hi: nat, j: nat)
      decreases numVertices - d, 0
    {
      && n < |tree| && j < |tree[n]| && d < numVertices
      && Block(tree, tree[n][j].node, NodeEnd(tree, n, j, end), d + 1, tree[n][j].st, StEnd(tree, n, j, hi))
    }

    lemma {:induction false} ChildIs(tree: Lists, n: nat, end: nat, d: nat, lo: nat, hi: nat, j: nat)
      requires Block(tree, n, end, d, lo, hi) && d < numVertices && j < |tree[n]|
      ensures Block(tree, tree[n][j].node, NodeEnd(tree, n, j, end), d + 1, tree[n][j].st, StEnd(tree, n, j, hi))
      ensures tree[n][j].node < NodeEnd(tree, n, j, end) && tree[n][j].st < StEnd(tree, n, j, hi)
    {
      assert ChildBlock(tree, n, end, d, hi, j);
      assert Block(tree, tree[n][j].node, NodeEnd(tree, n, j, end), d + 1, tree[n][j].st, StEnd(tree, n, j, hi));
    }

    /** Nodes outside a block do not matter to it. */
    lemma {:induction false} BlockFrame(tree: Lists, tree': Lists, n: nat, end: nat, d: nat, lo: nat, hi: nat)
      requires Block(tree, n, end, d, lo, hi) && |tree'| == |tree|
      requires forall i {:trigger tree'[i]} :: n <= i < end ==> tree'[i] == tree[i]
      ensures Block(tree', n, end, d, lo, hi)
      decreases numVertices - d
    {
      if d < numVertices {
        forall j: nat {:trigger ChildBlock(tree', n, end, d, hi, j)} | j < |tree'[n]|
          ensures ChildBlock(tree', n, end, d, hi, j)
        {
          ChildIs(tree, n, end, d, lo, hi, j);
          ChildInside(tree, n, end, d, lo, hi, j);
          BlockFrame(tree, tree', tree[n][j].node, NodeEnd(tree, n, j, end), d + 1, tree[n][j].st,
                StEnd(tree, n, j, hi));
        }
      }
    }

    /** The blocks of the children lie one after another inside their parent's. */
    lemma {:induction false} ChildInside(tree: Lists, n: nat, end: nat, d: nat, lo: nat, hi: nat, j: nat)
      requires Block(tree, n, end, d, lo, hi) && d < numVertices && j < |tree[n]|
      ensures n < tree[n][j].node && NodeEnd(tree, n, j, end) <= end
      ensures lo <= tree[n][j].st && StEnd(tree, n, j, hi) <= hi
    {
      NodesAfter(tree, n, end, d, lo, hi, j);
      NodesBefore(tree, n, end, d, lo, hi, j);
    }

    lemma {:induction false} NodesAfter(tree: Lists, n: nat, end: nat, d: nat, lo: nat, hi: nat, j: nat)
      requires Block(tree, n, end, d, lo, hi) && d < numVertices && j < |tree[n]|
      ensures n < tree[n][j].node && lo <= tree[n][j].st
      decreases j
    {
      if j > 0 {
        NodesAfter(tree, n, end, d, lo, hi, j - 1);
        ChildIs(tree, n, end, d, lo, hi, j - 1);
      }
    }

    lemma {:induction false} NodesBefore(tree: Lists, n: nat, end: nat, d: nat, lo: nat, hi: nat, j: nat)
      requires Block(tree, n, end, d, lo, hi) && d < numVertices && j < |tree[n]|
      ensures NodeEnd(tree, n, j, end) <= end && StEnd(tree, n, j, hi) <= hi
      decreases |tree[n]| - j
    {
      if j + 1 < |tree[n]| {
        NodesBefore(tree, n, end, d, lo, hi, j + 1);
        ChildIs(tree, n, end, d, lo, hi, j + 1);
      }
    }
  }

  /** Where the nodes beneath child j of n end. */
  function NodeEnd(tree: Lists, n: nat, j: nat, end: nat): nat {
    if n < |tree| && j + 1 < |tree[n]| then tree[n][j + 1].node else end
  }

  /** Where the subtasks beneath child j of n end. */
  function StEnd(tree: Lists, n: nat, j: nat, hi: nat): nat {
    if n < |tree| && j + 1 < |tree[n]| then tree[n][j + 1].st else hi
  }

  // ----- the tree under construction -----

  /** Node n at depth d is open: its last child c is still growing, the earlier ones are finished blocks. */
  ghost predicate PartNode(S: Shape, tree: Lists, n: nat, d: nat, lo: nat, c: nat, clo: nat) {
    && n < |tree| && d < S.numVertices && n < c
    && tree[n] != [] && tree[n][0] == Entry(n + 1, lo) && tree[n][|tree[n]| - 1] == Entry(c, clo)
    && forall j: nat {:trigger DoneChild(S, tree, n, d, c, j)} :: j + 1 < |tree[n]| ==> DoneChild(S, tree, n, d, c, j)
  }

  ghost predicate DoneChild(S: Shape, tree: Lists, n: nat, d: nat, c: nat, j: nat) {
    && n < |tree| && j + 1 < |tree[n]|
    && n < tree[n][j].node < tree[n][j + 1].node <= c
    && S.Block(tree, tree[n][j].node, tree[n][j + 1].node, d + 1, tree[n][j].st, tree[n][j + 1].st)
  }

  /** Every node on the stack but the top is open, and the one above it is its last child. */
  ghost predicate OpenChain(S: Shape, tree: Lists, stk: seq<StackElem>, los: seq<nat>) {
    && |stk| == |los| >= 1
    && forall i: nat {:trigger PartAt(S, tree, stk, los, i)} :: i + 1 < |stk| ==> PartAt(S, tree, stk, los, i)
  }

  ghost predicate PartAt(S: Shape, tree: Lists, stk: seq<StackElem>, los: seq<nat>, i: nat) {
    i + 1 < |stk| == |los| && los[i] <= los[i + 1]
        && PartNode(S, tree, stk[i].node, i, los[i], stk[i + 1].node, los[i + 1])
  }

  /** The top has no children yet. */
  ghost predicate Fresh(tree: Lists, n: nat, nid: nat) {
    n < |tree| && tree[n] == [] && nid == n + 1
  }

  /** The finished subtasks below an open node at depth d all start like cur. */
  ghost predicate Held(S: Shape, cur: seq<Leaf>, d: nat, lo: nat, cnt: nat) {
    && lo <= cnt <= |S.subtasks|
    && forall k {:trigger S.subtasks[k]} :: lo <= k < cnt ==>
         S.End(d) <= |S.subtasks[k]| && S.End(d) <= |cur| && S.subtasks[k][..S.End(d)] == cur[..S.End(d)]
  }

  lemma {:induction false} HeldAgree(S: Shape, cur: seq<Leaf>, d: nat, lo: nat, cnt: nat)
    requires Held(S, cur, d, lo, cnt)
    ensures forall k {:trigger S.Agree(lo, k, d)} :: lo <= k < cnt ==> S.Agree(lo, k, d)
  {
  }

  /** With its last child finished, an open node is a block. */
  lemma {:induction false} CloseNode(S: Shape, tree: Lists, n: nat, d: nat, lo: nat, c: nat, clo: nat, nid: nat,
                                     cnt: nat, cur: seq<Leaf>)
    requires PartNode(S, tree, n, d, lo, c, clo) && S.Block(tree, c, nid, d + 1, clo, cnt)
    requires lo <= clo && Held(S, cur, d, lo, cnt)
    ensures S.Block(tree, n, nid, d, lo, cnt)
  {
    HeldAgree(S, cur, d, lo, cnt);
    forall j: nat {:trigger S.ChildBlock(tree, n, nid, d, cnt, j)} | j < |tree[n]|
      ensures S.ChildBlock(tree, n, nid, d, cnt, j)
    {
      if j + 1 < |tree[n]| {
        assert DoneChild(S, tree, n, d, c, j);
      }
    }
  }

  /** Adding a child to a finished node reopens it; nothing below changes. */
  lemma {:induction false} GrowBlock(S: Shape, tree: Lists, n: nat, nid: nat, d: nat, lo: nat, cnt: nat, tree': Lists)
    requires S.Block(tree, n, nid, d, lo, cnt) && d < S.numVertices && nid < |tree|
    requires tree' == tree[n := tree[n] + [Entry(nid, cnt)]]
    ensures PartNode(S, tree', n, d, lo, nid, cnt)
  {
    forall j: nat {:trigger DoneChild(S, tree', n, d, nid, j)} | j + 1 < |tree'[n]|
      ensures DoneChild(S, tree', n, d, nid, j)
    {
      S.ChildIs(tree, n, nid, d, lo, cnt, j);
      S.ChildInside(tree, n, nid, d, lo, cnt, j);
      S.BlockFrame(tree, tree', tree[n][j].node, NodeEnd(tree, n, j, nid), d + 1, tree[n][j].st,
            StEnd(tree, n, j, cnt));
    }
  }

  lemma {:induction false} GrowFresh(S: Shape, tree: Lists, n: nat, nid: nat, d: nat, lo: nat, tree': Lists)
    requires Fresh(tree, n, nid) && d < S.numVertices && nid < |tree|
    requires tree' == tree[n := tree[n] + [Entry(nid, lo)]]
    ensures PartNode(S, tree', n, d, lo, nid, lo)
  {
  }

  /** Open nodes below the top keep their finished children. */
  lemma {:induction false} PartFrame(S: Shape, tree: Lists, n: nat, d: nat, lo: nat, c: nat, clo: nat, top: nat,
                                     tree': Lists)
    requires PartNode(S, tree, n, d, lo, c, clo) && c <= top < |tree| == |tree'|
    requires forall i {:trigger tree'[i]} :: 0 <= i < top ==> tree'[i] == tree[i]
    ensures PartNode(S, tree', n, d, lo, c, clo)
  {
    forall j: nat {:trigger DoneChild(S, tree', n, d, c, j)} | j + 1 < |tree'[n]|
      ensures DoneChild(S, tree', n, d, c, j)
    {
      assert DoneChild(S, tree, n, d, c, j);
      S.BlockFrame(tree, tree', tree[n][j].node, tree[n][j + 1].node, d + 1, tree[n][j].st, tree[n][j + 1].st);
    }
  }

  ghost predicate HeldAll(S: Shape, cur: seq<Leaf>, los: seq<nat>, cnt: nat) {
    forall i: nat {:trigger Held(S, cur, i, los[i], cnt)} :: i < |los| ==> Held(S, cur, i, los[i], cnt)
  }

  ghost predicate DepsAre(S: Shape, stk: seq<StackElem>) {
    forall i {:trigger stk[i]} :: 0 <= i < |stk| ==> stk[i].dep == if i < S.maxRegular then i else S.maxRegular
  }

  /** Either all children of the top are finished, or it has none yet. */
  ghost predicate TopReady(S: Shape, tree: Lists, n: nat, d: nat, lo: nat, nid: nat, cnt: nat) {
    S.Block(tree, n, nid, d, lo, cnt) || (Fresh(tree, n, nid) && lo == cnt && d < S.numVertices)
  }

  /** The stack leads from node 0 to the top. */
  ghost predicate StackFits(S: Shape, tree: Lists, stk: seq<StackElem>, los: seq<nat>, cur: seq<Leaf>, cnt: nat) {
    && OpenChain(S, tree, stk, los) && DepsAre(S, stk) && HeldAll(S, cur, los, cnt)
    && stk[0].node == 0 && los[0] == 0 && |stk| <= S.numVertices + 1
  }

  lemma {:induction false} StackPrefix(S: Shape, tree: Lists, stk: seq<StackElem>, los: seq<nat>, cur: seq<Leaf>,
                                       cnt: nat, m: nat)
    requires StackFits(S, tree, stk, los, cur, cnt) && 1 <= m <= |stk|
    ensures StackFits(S, tree, stk[..m], los[..m], cur, cnt)
  {
    forall i: nat {:trigger PartAt(S, tree, stk[..m], los[..m], i)} | i + 1 < m
      ensures PartAt(S, tree, stk[..m], los[..m], i)
    {
      assert PartAt(S, tree, stk, los, i);
    }
    forall i: nat {:trigger Held(S, cur, i, los[..m][i], cnt)} | i < m
      ensures Held(S, cur, i, los[..m][i], cnt)
    {
      assert Held(S, cur, i, los[i], cnt);
    }
  }

  lemma {:induction false} ClosedTop(S: Shape, tree: Lists, stk: seq<StackElem>, los: seq<nat>, nid: nat,
                                     cur: seq<Leaf>, cnt: nat)
    requires StackFits(S, tree, stk, los, cur, cnt) && |stk| >= 2
    requires S.Block(tree, stk[|stk| - 1].node, nid, |stk| - 1, los[|stk| - 1], cnt)
    ensures S.Block(tree, stk[|stk| - 2].node, nid, |stk| - 2, los[|stk| - 2], cnt)
  {
    var i := |stk| - 2;
    assert PartAt(S, tree, stk, los, i);
    assert Held(S, cur, i, los[i], cnt);
    CloseNode(S, tree, stk[i].node, i, los[i], stk[i + 1].node, los[i + 1], nid, cnt, cur);
  }

  /** Leaves the nodes that are finished, down to depth dep - 1. */
  method PopTo(S: Shape, ghost tree: Lists, stk: seq<StackElem>, ghost los: seq<nat>, ghost nid: nat,
               ghost cur: seq<Leaf>,
               ghost cnt: nat, dep: nat)
    returns (stk': seq<StackElem>, ghost los': seq<nat>)
    requires S.Ok() && StackFits(S, tree, stk, los, cur, cnt) && 1 <= dep <= S.maxRegular && dep <= |stk|
    requires TopReady(S, tree, stk[|stk| - 1].node, |stk| - 1, los[|stk| - 1], nid, cnt)
    requires S.Block(tree, stk[|stk| - 1].node, nid, |stk| - 1, los[|stk| - 1], cnt) || |stk| == dep
    ensures |stk'| == dep && stk' == stk[..dep] && los' == los[..dep]
    ensures StackFits(S, tree, stk', los', cur, cnt)
    ensures TopReady(S, tree, stk'[dep - 1].node, dep - 1, los'[dep - 1], nid, cnt)
  {
    stk', los' := stk, los;
    while stk'[|stk'| - 1].dep >= dep
      invariant dep <= |stk'| <= |stk| && stk' == stk[..|stk'|] && los' == los[..|stk'|]
      invariant StackFits(S, tree, stk', los', cur, cnt)
      invariant TopReady(S, tree, stk'[|stk'| - 1].node, |stk'| - 1, los'[|stk'| - 1], nid, cnt)
      invariant S.Block(tree, stk'[|stk'| - 1].node, nid, |stk'| - 1, los'[|stk'| - 1], cnt) || |stk'| == dep
      decreases |stk'|
    {
      ClosedTop(S, tree, stk', los', nid, cur, cnt);
      StackPrefix(S, tree, stk', los', cur, cnt, |stk'| - 1);
      stk', los' := stk'[..|stk'| - 1], los'[..|los'| - 1];
    }
  }

  lemma {:induction false} StackAscends(S: Shape, tree: Lists, stk: seq<StackElem>, los: seq<nat>, i: nat)
    requires OpenChain(S, tree, stk, los) && i < |stk|
    ensures stk[i].node <= stk[|stk| - 1].node
    decreases |stk| - i
  {
    if i + 1 < |stk| {
      assert PartAt(S, tree, stk, los, i);
      StackAscends(S, tree, stk, los, i + 1);
    }
  }

  /** A new child of the top becomes the top. */
  method PushNode(S: Shape, tree: Lists, stk: seq<StackElem>, ghost los: seq<nat>, nid: nat, ghost cur: seq<Leaf>,
                  cnt: nat, dep: nat)
    returns (tree': Lists, stk': seq<StackElem>, ghost los': seq<nat>)
    requires S.Ok() && StackFits(S, tree, stk, los, cur, cnt) && |stk| <= S.numVertices
    requires TopReady(S, tree, stk[|stk| - 1].node, |stk| - 1, los[|stk| - 1], nid, cnt)
    requires nid < |tree| && tree[nid] == [] && los[|stk| - 1] <= cnt <= |S.subtasks|
    requires dep == if |stk| < S.maxRegular then |stk| else S.maxRegular
    ensures stk[|stk| - 1].node < nid
            && tree' == tree[stk[|stk| - 1].node := tree[stk[|stk| - 1].node] + [Entry(nid, cnt)]]
    ensures stk' == stk + [StackElem(nid, dep)] && los' == los + [cnt]
    ensures StackFits(S, tree', stk', los', cur, cnt) && Fresh(tree', nid, nid + 1)
  {
    var last := |stk| - 1;
    var top := stk[last].node;
    tree' := tree[top := tree[top] + [Entry(nid, cnt)]];
    stk', los' := stk + [StackElem(nid, dep)], los + [cnt];
    if S.Block(tree, top, nid, last, los[last], cnt) {
      GrowBlock(S, tree, top, nid, last, los[last], cnt, tree');
    } else {
      GrowFresh(S, tree, top, nid, last, cnt, tree');
    }
    forall i: nat {:trigger PartAt(S, tree', stk', los', i)} | i + 1 < |stk'|
      ensures PartAt(S, tree', stk', los', i)
    {
      if i < last {
        assert PartAt(S, tree, stk, los, i);
        StackAscends(S, tree, stk, los, i + 1);
        PartFrame(S, tree, stk[i].node, i, los[i], stk[i + 1].node, los[i + 1], top, tree');
      }
    }
    forall i: nat {:trigger Held(S, cur, i, los'[i], cnt)} | i < |los'|
      ensures Held(S, cur, i, los'[i], cnt)
    {
      if i < |los| {
        assert Held(S, cur, i, los[i], cnt);
      }
    }
  }

  /** The path may change beyond what the open nodes have in common. */
  lemma {:induction false} SwitchPath(S: Shape, tree: Lists, stk: seq<StackElem>, los: seq<nat>, cur: seq<Leaf>,
                                      cur': seq<Leaf>, cnt: nat)
    requires S.Ok() && StackFits(S, tree, stk, los, cur, cnt) && |stk| <= S.maxRegular
    requires S.End(|stk| - 1) <= |cur| && S.End(|stk| - 1) <= |cur'|
             && cur[..S.End(|stk| - 1)] == cur'[..S.End(|stk| - 1)]
    ensures StackFits(S, tree, stk, los, cur', cnt)
  {
    forall i: nat {:trigger Held(S, cur', i, los[i], cnt)} | i < |los|
      ensures Held(S, cur', i, los[i], cnt)
    {
      assert Held(S, cur, i, los[i], cnt);
      assert S.End(i) <= S.End(|stk| - 1);
      assert cur[..S.End(|stk| - 1)][..S.End(i)] == cur[..S.End(i)];
      assert cur'[..S.End(|stk| - 1)][..S.End(i)] == cur'[..S.End(i)];
    }
  }

  /** The path's subtask is complete: it is one more below every open node. */
  lemma {:induction false} FinishSubtask(S: Shape, tree: Lists, stk: seq<StackElem>, los: seq<nat>, cur: seq<Leaf>,
                                         nid: nat, cnt: nat)
    requires S.Ok() && StackFits(S, tree, stk, los, cur, cnt) && |stk| == S.numVertices + 1
    requires Fresh(tree, stk[|stk| - 1].node, nid) && los[|stk| - 1] == cnt < |S.subtasks| && S.subtasks[cnt] == cur
    requires nid <= |tree|
    ensures StackFits(S, tree, stk, los, cur, cnt + 1)
    ensures S.Block(tree, stk[|stk| - 1].node, nid, S.numVertices, cnt, cnt + 1)
  {
    forall i: nat {:trigger Held(S, cur, i, los[i], cnt + 1)} | i < |los|
      ensures Held(S, cur, i, los[i], cnt + 1)
    {
      assert Held(S, cur, i, los[i], cnt);
      assert S.End(i) <= |S.subtasks[cnt]|;
    }
  }

  // ----- every node has one parent -----

  ghost predicate HasEntry(list: seq<Entry>, c: nat) {
    exists j: nat {:trigger list[j]} :: j < |list| && list[j].node == c
  }

  /** parent names, for each node but 0, the one list it is in. */
  ghost predicate Parents(tree: Lists, parent: seq<nat>) {
    && |parent| >= 1
    && (forall n: nat, j: nat {:trigger tree[n][j]} :: n < |tree| && j < |tree[n]| ==>
          1 <= tree[n][j].node < |parent| && parent[tree[n][j].node] == n)
    && (forall c: nat {:trigger parent[c]} :: 1 <= c < |parent| ==> parent[c] < |tree| && HasEntry(tree[parent[c]], c))
  }

  ghost function TotalLen(tree: Lists): nat {
    if tree == [] then 0 else TotalLen(tree[..|tree| - 1]) + |tree[|tree| - 1]|
  }

  lemma {:induction false} TotalLenGrows(tree: Lists, n: nat, e: Entry)
    requires n < |tree|
    ensures TotalLen(tree[n := tree[n] + [e]]) == TotalLen(tree) + 1
    decreases |tree|
  {
    var last := |tree| - 1;
    var tree' := tree[n := tree[n] + [e]];
    if n == last {
      assert tree'[..last] == tree[..last];
    } else {
      TotalLenGrows(tree[..last], n, e);
      assert tree'[..last] == tree[..last][n := tree[n] + [e]];
    }
  }

  lemma {:induction false} ParentsGrow(tree: Lists, parent: seq<nat>, n: nat, e: Entry)
    requires Parents(tree, parent) && n < |tree| && e.node == |parent|
    ensures Parents(tree[n := tree[n] + [e]], parent + [n])
  {
    var tree', parent' := tree[n := tree[n] + [e]], parent + [n];
    forall c: nat {:trigger parent'[c]} | 1 <= c < |parent'|
      ensures parent'[c] < |tree'| && HasEntry(tree'[parent'[c]], c)
    {
      if c < |parent| {
        assert parent'[c] == parent[c] && HasEntry(tree[parent[c]], c);
        var j: nat :| j < |tree[parent[c]]| && tree[parent[c]][j].node == c;
        assert tree'[parent[c]][j] == tree[parent[c]][j];
      } else {
        assert tree'[n][|tree[n]|] == e;
      }
    }
  }

  ghost predicate RootsAre(tree: Lists, roots: seq<nat>) {
    && tree != [] && |roots| == |tree[0]|
    && forall j {:trigger roots[j]} :: 0 <= j < |roots| ==> roots[j] == tree[0][j].node
  }

  /** The nodes made so far: numbered below nid, each in one list, the roots those of node 0. */
  ghost predicate NodesOk(tree: Lists, nid: nat, roots: seq<nat>, parent: seq<nat>) {
    && Parents(tree, parent) && |parent| == nid && TotalLen(tree) == nid - 1 && RootsAre(tree, roots)
    && (forall x: nat {:trigger tree[x]} :: nid <= x < |tree| ==> tree[x] == [])
  }

  lemma {:induction false} NodesGrow(tree: Lists, nid: nat, roots: seq<nat>, parent: seq<nat>, n: nat, st: nat,
                                     roots': seq<nat>)
    requires NodesOk(tree, nid, roots, parent) && n < nid < |tree|
    requires roots' == if n == 0 then roots + [nid] else roots
    ensures NodesOk(tree[n := tree[n] + [Entry(nid, st)]], nid + 1, roots', parent + [n])
  {
    ParentsGrow(tree, parent, n, Entry(nid, st));
    TotalLenGrows(tree, n, Entry(nid, st));
  }

  // ----- one group, then all of them -----

  /** Room for the nodes still to be made: numVertices per finished subtask, and one per level of the open path. */
  ghost predicate RoomOk(S: Shape, tree: Lists, nid: nat, cnt: nat, depth: nat) {
    && |tree| == S.numVertices * |S.subtasks| + 1
    && nid <= S.numVertices * cnt + depth + 1
  }

  lemma {:induction false} RoomLeft(S: Shape, tree: Lists, nid: nat, cnt: nat, depth: nat)
    requires RoomOk(S, tree, nid, cnt, depth) && cnt < |S.subtasks| && depth < S.numVertices
    ensures nid < |tree|
  {
    MulMono(S.numVertices, cnt + 1, |S.subtasks|);
    assert S.numVertices * (cnt + 1) == S.numVertices * cnt + S.numVertices;
  }

  lemma {:induction false} RoomNext(S: Shape, tree: Lists, nid: nat, cnt: nat)
    requires RoomOk(S, tree, nid, cnt, S.numVertices) && cnt < |S.subtasks|
    ensures RoomOk(S, tree, nid, cnt + 1, 0) && nid <= |tree|
  {
    MulMono(S.numVertices, cnt + 1, |S.subtasks|);
    assert S.numVertices * (cnt + 1) == S.numVertices * cnt + S.numVertices;
  }

  lemma {:induction false} MulMono(v: nat, x: nat, y: nat)
    requires x <= y
    ensures v * x <= v * y
  {
  }

  /** Everything the construction keeps between two nodes of one path. */
  ghost predicate Growing(S: Shape, tree: Lists, stk: seq<StackElem>, los: seq<nat>, nid: nat, cur: seq<Leaf>, cnt: nat,
                          roots: seq<nat>, parent: seq<nat>) {
    && StackFits(S, tree, stk, los, cur, cnt) && NodesOk(tree, nid, roots, parent)
    && RoomOk(S, tree, nid, cnt, |stk| - 1) && los[|los| - 1] <= cnt < |S.subtasks|
  }

  /** One more node on the open path. */
  method GrowPath(S: Shape, tree: Lists, stk: seq<StackElem>, ghost los: seq<nat>, nid: nat, ghost cur: seq<Leaf>,
                  cnt: nat, dep: nat, roots: seq<nat>, ghost parent: seq<nat>)
    returns (tree': Lists, stk': seq<StackElem>, ghost los': seq<nat>, roots': seq<nat>, ghost parent': seq<nat>)
    requires S.Ok() && Growing(S, tree, stk, los, nid, cur, cnt, roots, parent) && |stk| <= S.numVertices
    requires TopReady(S, tree, stk[|stk| - 1].node, |stk| - 1, los[|stk| - 1], nid, cnt)
    requires dep == if |stk| < S.maxRegular then |stk| else S.maxRegular
    ensures Growing(S, tree', stk', los', nid + 1, cur, cnt, roots', parent')
    ensures |stk'| == |stk| + 1 && los' == los + [cnt] && Fresh(tree', stk'[|stk|].node, nid + 1)
  {
    RoomLeft(S, tree, nid, cnt, |stk| - 1);
    var top := stk[|stk| - 1].node;
    tree', stk', los' := PushNode(S, tree, stk, los, nid, cur, cnt, dep);
    roots' := if |stk| == 1 then roots + [nid] else roots;
    if |stk| > 1 {
      assert PartAt(S, tree, stk, los, |stk| - 2);
    }
    parent' := parent + [top];
    NodesGrow(tree, nid, roots, parent, top, cnt, roots');
  }

  /** Between groups: the top is finished, or it waits for the next vertex of the same path. */
  ghost predicate Settled(S: Shape, tree: Lists, stk: seq<StackElem>, los: seq<nat>, nid: nat, cur: seq<Leaf>, cnt: nat,
                          roots: seq<nat>, parent: seq<nat>) {
    && StackFits(S, tree, stk, los, cur, cnt) && NodesOk(tree, nid, roots, parent)
    && if |stk| == S.numVertices + 1 then
         S.Block(tree, stk[|stk| - 1].node, nid, |stk| - 1, los[|stk| - 1], cnt) && RoomOk(S, tree, nid, cnt, 0)
       else
         && |stk| <= S.maxRegular && Fresh(tree, stk[|stk| - 1].node, nid) && los[|stk| - 1] == cnt
         && RoomOk(S, tree, nid, cnt, |stk| - 1)
  }

  /** The path of the next group agrees with the last one on the vertices before its own. */
  ghost predicate Continues(S: Shape, cur: seq<Leaf>, cur': seq<Leaf>, dep: nat) {
    && 1 <= dep && S.End(dep - 1) <= |cur| && S.End(dep - 1) <= |cur'|
    && cur[..S.End(dep - 1)] == cur'[..S.End(dep - 1)]
  }

  lemma {:induction false} LowestHeld(S: Shape, cur: seq<Leaf>, los: seq<nat>, cnt: nat, i: nat)
    requires HeldAll(S, cur, los, cnt) && i < |los|
    ensures los[i] <= cnt <= |S.subtasks|
  {
    assert Held(S, cur, i, los[i], cnt);
  }

  /** The nodes of the postfix vertices complete the path's subtask. */
  method GrowPostfix(S: Shape, tree: Lists, stk: seq<StackElem>, ghost los: seq<nat>, nid: nat, ghost cur: seq<Leaf>,
                     cnt: nat,
                     roots: seq<nat>, ghost parent: seq<nat>)
    returns (tree': Lists, stk': seq<StackElem>, ghost los': seq<nat>, nid': nat, roots': seq<nat>,
             ghost parent': seq<nat>)
    requires S.Ok() && Growing(S, tree, stk, los, nid, cur, cnt, roots, parent) && los[|los| - 1] == cnt
    requires |stk| == S.maxRegular + 1 && Fresh(tree, stk[|stk| - 1].node, nid) && cur == S.subtasks[cnt]
    ensures Settled(S, tree', stk', los', nid', cur, cnt + 1, roots', parent') && |stk'| == S.numVertices + 1
  {
    tree', stk', los', nid', roots', parent' := tree, stk, los, nid, roots, parent;
    while |stk'| < S.numVertices + 1
      invariant Growing(S, tree', stk', los', nid', cur, cnt, roots', parent')
      invariant S.maxRegular + 1 <= |stk'| <= S.numVertices + 1 && los'[|stk'| - 1] == cnt
      invariant Fresh(tree', stk'[|stk'| - 1].node, nid')
      decreases S.numVertices + 1 - |stk'|
    {
      tree', stk', los', roots',
            parent' := GrowPath(S, tree', stk', los', nid', cur, cnt, S.maxRegular, roots', parent');
      nid' := nid' + 1;
    }
    PathComplete(S, tree', stk', los', nid', cur, cnt, roots', parent');
  }

  lemma {:induction false} PathComplete(S: Shape, tree: Lists, stk: seq<StackElem>, los: seq<nat>, nid: nat,
                                        cur: seq<Leaf>,
                                        cnt: nat, roots: seq<nat>, parent: seq<nat>)
    requires S.Ok() && Growing(S, tree, stk, los, nid, cur, cnt, roots, parent) && los[|los| - 1] == cnt
    requires |stk| == S.numVertices + 1 && Fresh(tree, stk[|stk| - 1].node, nid) && cur == S.subtasks[cnt]
    ensures Settled(S, tree, stk, los, nid, cur, cnt + 1, roots, parent)
  {
    RoomNext(S, tree, nid, cnt);
    FinishSubtask(S, tree, stk, los, cur, nid, cnt);
  }

  lemma {:induction false} ReadyToGrow(S: Shape, tree: Lists, stk: seq<StackElem>, los: seq<nat>, nid: nat,
                                       cur: seq<Leaf>,
                                       cur': seq<Leaf>, cnt: nat, roots: seq<nat>, parent: seq<nat>, room: nat)
    requires S.Ok() && StackFits(S, tree, stk, los, cur, cnt) && NodesOk(tree, nid, roots, parent)
    requires cnt < |S.subtasks| && 1 <= |stk| <= S.maxRegular && Continues(S, cur, cur', |stk|)
    requires RoomOk(S, tree, nid, cnt, room) && room <= |stk| - 1
    ensures Growing(S, tree, stk, los, nid, cur', cnt, roots, parent)
  {
    SwitchPath(S, tree, stk, los, cur, cur', cnt);
    LowestHeld(S, cur', los, cnt, |stk| - 1);
  }

  /** The node of one group, and below the last regular vertex the nodes of the postfix vertices. */
  method AddGroupNode(S: Shape, tree: Lists, stk: seq<StackElem>, ghost los: seq<nat>, nid: nat, ghost cur: seq<Leaf>,
                      cnt: nat,
                      dep: nat, ghost cur': seq<Leaf>, roots: seq<nat>, ghost parent: seq<nat>)
    returns (tree': Lists, stk': seq<StackElem>, ghost los': seq<nat>, nid': nat, cnt': nat, roots': seq<nat>,
             ghost parent': seq<nat>)
    requires S.Ok() && Settled(S, tree, stk, los, nid, cur, cnt, roots, parent) && cnt < |S.subtasks|
    requires 1 <= dep <= S.maxRegular && (|stk| == dep || |stk| == S.numVertices + 1)
    requires Continues(S, cur, cur', dep) && (dep == S.maxRegular ==> cur' == S.subtasks[cnt])
    ensures Settled(S, tree', stk', los', nid', cur', cnt', roots', parent')
    ensures cnt' == cnt + (if dep == S.maxRegular then 1 else 0)
    ensures |stk'| == if dep == S.maxRegular then S.numVertices + 1 else dep + 1
  {
    ghost var room := if |stk| == S.numVertices + 1 then 0 else dep - 1;
    stk', los' := PopTo(S, tree, stk, los, nid, cur, cnt, dep);
    ReadyToGrow(S, tree, stk', los', nid, cur, cur', cnt, roots, parent, room);
    tree', stk', los', roots', parent' := GrowPath(S, tree, stk', los', nid, cur', cnt, dep, roots, parent);
    nid', cnt' := nid + 1, cnt;
    if dep == S.maxRegular {
      tree', stk', los', nid', roots', parent' := GrowPostfix(S, tree', stk', los', nid', cur', cnt, roots', parent');
      cnt' := cnt + 1;
    }
  }

  // ----- the groups of a task -----

  ghost predicate InfoFits(S: Shape, info: TreeInfo, mark: seq<Leaf>) {
    && 1 <= info.vlevel <= S.maxRegular && |mark| == S.End(info.vlevel)
    && info.subtask < |S.subtasks| && (info.vlevel == S.maxRegular ==> mark == S.subtasks[info.subtask])
  }

  ghost predicate InfoFollows(S: Shape, info: TreeInfo, mark: seq<Leaf>, next: TreeInfo, nextMark: seq<Leaf>) {
    && next.vlevel <= info.vlevel + 1 && (info.vlevel < S.maxRegular ==> next.vlevel == info.vlevel + 1)
    && Continues(S, mark, nextMark, next.vlevel)
  }

  /**
   * infos describes the groups of a task: marks are their paths, each complete path counts one subtask, and groups that
   * no subtask follows stand at the end.
   */
  ghost predicate InfosFit(S: Shape, infos: seq<TreeInfo>, marks: seq<seq<Leaf>>) {
    && |marks| == |infos| >= 1 && |S.subtasks| >= 1
    && infos[0].vlevel == 1 && infos[0].subtask == 0
    && (forall j {:trigger infos[j]} :: 0 <= j < |infos| && infos[j].subtask < |S.subtasks| ==>
         InfoFits(S, infos[j], marks[j]))
    && (forall j: nat {:trigger InfoStep(S, infos, marks, j)} :: j < |infos| ==> InfoStep(S, infos, marks, j))
  }

  ghost predicate InfoStep(S: Shape, infos: seq<TreeInfo>, marks: seq<seq<Leaf>>, j: nat) {
    j < |infos| == |marks| && infos[j].subtask < |S.subtasks| ==>
      var done := infos[j].subtask + (if infos[j].vlevel == S.maxRegular then 1 else 0);
      if j + 1 < |infos| then
        && infos[j + 1].subtask == done
        && (done < |S.subtasks| ==> InfoFollows(S, infos[j], marks[j], infos[j + 1], marks[j + 1]))
      else done == |S.subtasks|
  }

  lemma {:induction false} CloseAll(S: Shape, tree: Lists, stk: seq<StackElem>, los: seq<nat>, nid: nat, cur: seq<Leaf>,
                                    cnt: nat)
    requires StackFits(S, tree, stk, los, cur, cnt)
    requires S.Block(tree, stk[|stk| - 1].node, nid, |stk| - 1, los[|stk| - 1], cnt)
    ensures S.Block(tree, 0, nid, 0, 0, cnt)
    decreases |stk|
  {
    if |stk| > 1 {
      ClosedTop(S, tree, stk, los, nid, cur, cnt);
      StackPrefix(S, tree, stk, los, cur, cnt, |stk| - 1);
      CloseAll(S, tree, stk[..|stk| - 1], los[..|los| - 1], nid, cur, cnt);
    }
  }

  /** Where the construction stands after the first i groups. */
  ghost predicate After(S: Shape, infos: seq<TreeInfo>, marks: seq<seq<Leaf>>, i: nat, height: nat, cnt: nat,
                        cur: seq<Leaf>) {
    && i <= |infos| == |marks|
    && if i == 0 then height == 1 && cnt == 0 && cur == []
       else
         && infos[i - 1].subtask < |S.subtasks| && cur == marks[i - 1]
         && cnt == infos[i - 1].subtask + (if infos[i - 1].vlevel == S.maxRegular then 1 else 0)
         && height == if infos[i - 1].vlevel == S.maxRegular then S.numVertices + 1 else infos[i - 1].vlevel + 1
  }

  lemma {:induction false} NextFits(S: Shape, infos: seq<TreeInfo>, marks: seq<seq<Leaf>>, i: nat, height: nat,
                                    cnt: nat, cur: seq<Leaf>)
    requires S.Ok() && InfosFit(S, infos, marks) && After(S, infos, marks, i, height, cnt, cur)
    ensures i < |infos| && infos[i].subtask < |S.subtasks| ==>
              && cnt == infos[i].subtask && 1 <= infos[i].vlevel <= S.maxRegular
              && (height == infos[i].vlevel || height == S.numVertices + 1)
              && Continues(S, cur, marks[i], infos[i].vlevel)
              && (infos[i].vlevel == S.maxRegular ==> marks[i] == S.subtasks[cnt])
    ensures !(i < |infos| && infos[i].subtask < |S.subtasks|) ==> cnt == |S.subtasks|
    ensures !(i < |infos| && infos[i].subtask < |S.subtasks|) ==> height == S.numVertices + 1
  {
    if i > 0 {
      assert InfoStep(S, infos, marks, i - 1);
    }
    assert i < |infos| && infos[i].subtask < |S.subtasks| ==> InfoFits(S, infos[i], marks[i]);
  }

  /** Before the first group there is only the root. */
  lemma {:induction false} NothingBuilt(S: Shape, infos: seq<TreeInfo>, marks: seq<seq<Leaf>>, tree: Lists)
    requires S.Ok() && InfosFit(S, infos, marks) && |tree| == S.numVertices * |S.subtasks| + 1
    requires forall n {:trigger tree[n]} :: 0 <= n < |tree| ==> tree[n] == []
    ensures Settled(S, tree, [StackElem(0, 0)], [0], 1, [], 0, [], [0])
    ensures After(S, infos, marks, 0, 1, 0, [])
  {
    EmptyLists(tree);
  }

  /** The child lists of the task's tree. */
  method BuildLists(S: Shape, infos: seq<TreeInfo>, ghost marks: seq<seq<Leaf>>)
    returns (tree: Lists, nid: nat, roots: seq<nat>, ghost parent: seq<nat>)
    requires S.Ok() && InfosFit(S, infos, marks)
    ensures S.Block(tree, 0, nid, 0, 0, |S.subtasks|) && NodesOk(tree, nid, roots, parent)
    ensures nid <= S.numVertices * |S.subtasks| + 1 == |tree|
  {
    tree := seq(S.numVertices * |S.subtasks| + 1, n => []);
    var stk := [StackElem(0, 0)];
    ghost var los: seq<nat>, cur: seq<Leaf> := [0], [];
    var cnt, i := 0, 0;
    nid, roots, parent := 1, [], [0];
    NothingBuilt(S, infos, marks, tree);
    while i < |infos| && infos[i].subtask < |S.subtasks|
      invariant 0 <= i <= |infos|
      invariant Settled(S, tree, stk, los, nid, cur, cnt, roots, parent)
      invariant After(S, infos, marks, i, |stk|, cnt, cur)
    {
      NextFits(S, infos, marks, i, |stk|, cnt, cur);
      tree, stk, los, nid, cnt, roots, parent :=
        AddGroupNode(S, tree, stk, los, nid, cur, cnt, infos[i].vlevel, marks[i], roots, parent);
      cur := marks[i];
      i := i + 1;
    }
    NextFits(S, infos, marks, i, |stk|, cnt, cur);
    CloseAll(S, tree, stk, los, nid, cur, cnt);
  }

  lemma {:induction false} EmptyLists(tree: Lists)
    requires forall n {:trigger tree[n]} :: 0 <= n < |tree| ==> tree[n] == []
    ensures TotalLen(tree) == 0
    decreases |tree|
  {
    if tree != [] {
      EmptyLists(tree[..|tree| - 1]);
    }
  }
}
