/** The launch made for a packed task meets everything the kernel relies on. */
module TaskLaunches {
  import opened Shards
  import opened Intersections
  import opened QueryGraphs
  import opened Schedules
  import opened SlotTables
  import opened SlotLayouts
  import opened SearchTrees
  import opened Launches
  import opened LaunchTables
  import opened LaunchMatches
  import opened Grids
  import opened PlanWalks
  import opened PlanLevels
  import opened TaskPackers
  import opened TaskTrees
  import opened TreeCsrs
  import opened Headers

  ghost predicate Compiles(variant: Variant, Q: QueryGraph, s: Schedule, T: Tables) {
    RegularSchedule(Q, s) && Tabled(Q, s, T) && VariantFits(variant, Q)
  }

  ghost function CompiledOf(variant: Variant, Q: QueryGraph, s: Schedule, T: Tables): Compiled {
    Compiled(variant, Q, s, T, Compiles(variant, Q, s, T))
  }

  /** A query reordered and tabled for one of the three kernels; ok says that its parts belong together. */
  datatype Compiled = Compiled(variant: Variant, Q: QueryGraph, s: Schedule, T: Tables, ok: bool) {
    ghost predicate Ok() {
      ok && this == CompiledOf(variant, Q, s, T)
    }
  }

  /** The task's shards are well formed, each is stored once, and every subtask has one per edge. */
  ghost predicate TaskShards(C: Compiled, task: Task) {
    && |task.subtasks| > 0 && DistinctUids(task.total) && TaskOk(task, |C.Q.edges|)
    && forall i {:trigger task.total[i]} :: 0 <= i < |task.total| ==> task.total[i].shard.Valid()
  }

  /** L is the header of the task. */
  ghost predicate Uploaded(C: Compiled, task: Task, L: Launch) {
    && FromTables(L, C.Q, C.s, C.T) && L.variant == C.variant
    && L.shards == ShardsOf(task.total) && |L.subtasks| == |task.subtasks|
    && forall k: nat {:trigger IdxsAt(C, task, L, k)} :: k < |L.subtasks| ==> IdxsAt(C, task, L, k)
  }

  ghost predicate IdxsAt(C: Compiled, task: Task, L: Launch, k: nat) {
    && k < |L.subtasks| == |task.subtasks|
    && |L.subtasks[k]| == 2 * |C.Q.edges| && IdxsOk(C.T, task.total, task.subtasks[k], L.subtasks[k], |C.Q.edges|)
  }

  /** The tables and shard indexes of the header are well formed. */
  lemma {:induction false} LaunchReady(C: Compiled, task: Task, L: Launch)
    requires C.Ok() && TaskShards(C, task) && Uploaded(C, task, L)
    ensures L.Ready()
  {
    TablesFit(L, C.Q, C.s, C.T);
    forall d | 0 <= d < L.numVertices
      ensures L.SlotsOkAt(d)
    {
      SlotsFit(L, C.Q, C.s, C.T, d);
    }
    forall i | 0 <= i < |L.shards|
      ensures L.shards[i].Valid()
    {
      assert task.total[i].shard.Valid();
    }
    forall k | 0 <= k < |L.subtasks|
      ensures L.ShardIdxsOk(L.subtasks[k])
    {
      assert IdxsAt(C, task, L, k);
    }
  }

  /** Both slots of an edge read one shard. */
  lemma {:induction false} ReadsPairs(C: Compiled, task: Task, L: Launch, k: nat)
    requires C.Ok() && Uploaded(C, task, L) && k < |L.subtasks| && L.Ready()
    ensures Paired(L, C.T, k)
  {
    assert IdxsAt(C, task, L, k);
    SlotsInRange(C);
  }

  /** It is the shard the subtask chose for the edge's turn. */
  lemma {:induction false} ReadsChosen(C: Compiled, task: Task, L: Launch, k: nat, i: nat)
    requires Uploaded(C, task, L) && k < |L.subtasks| && Paired(L, C.T, k) && i < L.numEdges
    ensures i < |task.subtasks[k]| && ShardOf(L, C.T, k, i) == task.subtasks[k][i].shard
  {
    assert IdxsAt(C, task, L, k);
    assert C.T.v1ListIdxs[i] < 2 * L.numEdges;
  }

  lemma {:induction false} SlotsInRange(C: Compiled)
    requires C.Ok()
    ensures |C.T.v1ListIdxs| == |C.T.v2ListIdxs| == |C.Q.edges|
    ensures forall i {:trigger C.T.v1ListIdxs[i]} :: 0 <= i < |C.Q.edges| ==>
              C.T.v1ListIdxs[i] < 2 * |C.Q.edges| && C.T.v2ListIdxs[i] < 2 * |C.Q.edges|
  {
    SlotsArePermutation(C.Q, C.s, C.T);
    SlotFacts(C.Q, C.s, C.T, 0, true);
    var n := |C.Q.edges|;
    var all := C.T.v1ListIdxs + C.T.v2ListIdxs;
    forall i {:trigger C.T.v1ListIdxs[i]} | 0 <= i < n
      ensures C.T.v1ListIdxs[i] < 2 * n && C.T.v2ListIdxs[i] < 2 * n
    {
      assert all[i] == C.T.v1ListIdxs[i] && all[n + i] == C.T.v2ListIdxs[i];
    }
  }

  // ----- the rebuilt tree -----

  /** The tree to rebuild for a task. */
  function ShapeOfTask(C: Compiled, task: Task): Shape {
    Shape(|C.Q.vertices|, NumOwners(C.s), VertexEnds(C.s.elevelToVlevel, NumOwners(C.s)), task.subtasks)
  }

  /** A turn owned before depth d is among the first End(d) turns. */
  lemma {:induction false} TurnBeforeEnd(C: Compiled, task: Task, t: nat, d: nat)
    requires C.Ok() && t < |C.s.turns| && C.s.turns[t].order < d
    ensures t < ShapeOfTask(C, task).End(d)
  {
    var s, m := C.s, NumOwners(C.s);
    var levels := LevelsFor(s);
    LevelsOk(C.Q, s);
    LevelsGapless(C.Q, s);
    VertexEndsAre(levels, m);
    var ends := VertexEnds(levels.vlevel, m);
    assert levels.vlevel[t] == s.turns[t].order;
    if d <= m {
      assert t < ends[d] <==> levels.vlevel[t] < d;
    }
  }

  /** A slot before depth d belongs to a turn among the first End(d). */
  lemma {:induction false} SlotTurn(C: Compiled, task: Task, L: Launch, i: nat, j: nat, d: nat)
    returns (t: nat, first: bool)
    requires C.Ok() && Uploaded(C, task, L) && L.TablesOk() && i < L.numVertices && j < L.Degree(i) && i < d
    ensures t < L.numEdges == |C.T.v1ListIdxs| == |C.T.v2ListIdxs| && SlotAt(C.T, t, first) == L.Slot(i, j)
    ensures t < ShapeOfTask(C, task).End(d)
  {
    t, first := SlotEnd(L, C.Q, C.s, C.T, i, j);
    var e := C.s.turns[t].edge;
    RankAt(C.s.order, C.s.rank, i);
    EarlierIsEarlier(C.Q, C.s, e);
    assert C.s.turns[t].order == C.s.rank[EarlierEnd(C.Q, C.s.rank, e)];
    TurnBeforeEnd(C, task, t, d);
  }

  lemma {:induction false} SameIndex(C: Compiled, task: Task, L: Launch, k: nat, m: nat, t: nat, first: bool)
    requires Uploaded(C, task, L) && DistinctUids(task.total) && k < |L.subtasks| && m < |L.subtasks|
    requires t < |C.Q.edges| && t < |task.subtasks[k]| && t < |task.subtasks[m]|
             && task.subtasks[k][t] == task.subtasks[m][t]
    requires |C.T.v1ListIdxs| == |C.T.v2ListIdxs| == |C.Q.edges| && SlotAt(C.T, t, first) < 2 * |C.Q.edges|
    ensures |L.subtasks[k]| == |L.subtasks[m]| == 2 * |C.Q.edges|
    ensures L.subtasks[k][SlotAt(C.T, t, first)] == L.subtasks[m][SlotAt(C.T, t, first)]
  {
    assert IdxsAt(C, task, L, k) && IdxsAt(C, task, L, m);
    var slot := C.T.v1ListIdxs[t];
    var x, y := L.subtasks[k][slot], L.subtasks[m][slot];
    assert task.total[x] == task.subtasks[k][t] == task.total[y];
    assert task.total[x].uid == task.total[y].uid;
  }

  lemma {:induction false} AgreedSlot(C: Compiled, task: Task, L: Launch, k: nat, m: nat, d: nat, i: nat, j: nat)
    requires C.Ok() && TaskShards(C, task) && Uploaded(C, task, L) && L.TablesOk()
    requires ShapeOfTask(C, task).Agree(k, m, d) && i < d && i < L.numVertices && j < L.Degree(i)
    ensures |L.subtasks[k]| == |L.subtasks[m]| == 2 * L.numEdges
            && L.subtasks[k][L.Slot(i, j)] == L.subtasks[m][L.Slot(i, j)]
  {
    var t, first := SlotTurn(C, task, L, i, j, d);
    var n := ShapeOfTask(C, task).End(d);
    assert task.subtasks[k][t] == task.subtasks[k][..n][t] == task.subtasks[m][..n][t] == task.subtasks[m][t];
    SameIndex(C, task, L, k, m, t, first);
  }

  /** Subtasks that agree on the shards of the first vertices have the same candidates there. */
  lemma {:induction false} AgreedIsSame(C: Compiled, task: Task, L: Launch)
    requires C.Ok() && TaskShards(C, task) && Uploaded(C, task, L) && L.Ready()
    ensures AgreeMeansSame(ShapeOfTask(C, task), L.TheSearch())
  {
    var S := ShapeOfTask(C, task);
    forall k: nat, m: nat, d: nat {:trigger S.Agree(k, m, d)} | d <= S.numVertices && S.Agree(k, m, d)
      ensures L.TheSearch().SameBelow(k, m, d)
    {
      forall i, j | 0 <= i < d && i < L.numVertices && 0 <= j < L.Degree(i)
        ensures L.subtasks[k][L.Slot(i, j)] == L.subtasks[m][L.Slot(i, j)]
      {
        AgreedSlot(C, task, L, k, m, d, i, j);
      }
      L.SameShardsSameBelow(k, m, d);
    }
  }

  /** The arrays of the header are those of the rebuilt tree. */
  ghost predicate TreeFor(C: Compiled, task: Task, L: Launch, tree: Lists, nid: nat, parent: seq<nat>) {
    && NodesOk(tree, nid, L.rootIds, parent) && Compressed(tree, nid, L.tree)
    && ShapeOfTask(C, task).Block(tree, 0, nid, 0, 0, |task.subtasks|)
  }

  /** A task's launch is one the kernel can run. */
  lemma {:induction false} LaunchIsValid(C: Compiled, task: Task, L: Launch, tree: Lists, nid: nat, parent: seq<nat>)
    requires C.Ok() && TaskShards(C, task) && Uploaded(C, task, L) && TreeFor(C, task, L, tree, nid, parent)
    ensures L.Valid()
  {
    LaunchReady(C, task, L);
    ShapeFits(tree, nid, L.tree);
    AgreedIsSame(C, task, L);
    BlockCovers(ShapeOfTask(C, task), tree, nid, L.tree, L.TheSearch(), 0, nid, 0, 0, |task.subtasks|);
    RootsFit(L, tree, nid, parent);
  }

  lemma {:induction false} RootsFit(L: Launch, tree: Lists, nid: nat, parent: seq<nat>)
    requires NodesOk(tree, nid, L.rootIds, parent) && Compressed(tree, nid, L.tree) && L.tree.ShapeOk()
    ensures L.RootIdsOk()
  {
    ChildCount(tree, nid, L.tree);
    forall i {:trigger L.rootIds[i]} | 0 <= i < |L.rootIds|
      ensures L.rootIds[i] == L.tree.Child(0, i)
    {
      ChildOf(tree, nid, L.tree, 0, i);
    }
  }

  lemma {:induction false} ChildCount(tree: Lists, nid: nat, T: Tree)
    requires Compressed(tree, nid, T) && T.ShapeOk()
    ensures T.IsNode(0) && T.NumChildren(0) == |tree[0]|
  {
    NodeOf(tree, nid, T, 0);
  }
}
