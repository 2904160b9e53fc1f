/** Building the header buffer of one launch from the query's tables and a packed task. */
module Headers {
  import opened Sequences
  import opened Shards
  import opened QueryGraphs
  import opened Schedules
  import opened SlotTables
  import opened SlotLayouts
  import opened Grids
  import opened SearchTrees
  import opened Launches
  import opened LaunchTables
  import opened TaskPackers

  /** A shard id stands for one shard. */
  ghost predicate Identified(total: seq<Leaf>, subtasks: seq<seq<Leaf>>) {
    forall i: nat, k: nat, j: nat {:trigger total[i], subtasks[k][j]} ::
      i < |total| && k < |subtasks| && j < |subtasks[k]| && total[i].uid == subtasks[k][j].uid ==>
            total[i] == subtasks[k][j]
  }

  /** mapper gives the index of every shard id of the first n shards. */
  ghost predicate Maps(mapper: map<nat, nat>, total: seq<Leaf>, n: nat)
    requires n <= |total|
  {
    && (forall i: nat {:trigger total[i]} :: i < n ==> total[i].uid in mapper)
    && (forall u {:trigger u in mapper} :: u in mapper ==> mapper[u] < n && total[mapper[u]].uid == u)
  }

  method MapShards(total: seq<Leaf>) returns (mapper: map<nat, nat>)
    ensures Maps(mapper, total, |total|)
  {
    mapper := map[];
    var i := 0;
    while i < |total|
      invariant 0 <= i <= |total| && Maps(mapper, total, i)
    {
      mapper := mapper[total[i].uid := i];
      i := i + 1;
    }
  }

  /** Both slots of each of the first n edges name the edge's shard. */
  ghost predicate IdxsOk(T: Tables, total: seq<Leaf>, leaves: seq<Leaf>, idxs: seq<nat>, n: nat) {
    && n <= |leaves| && n <= |T.v1ListIdxs| && n <= |T.v2ListIdxs|
    && (forall s {:trigger idxs[s]} :: 0 <= s < |idxs| ==> idxs[s] < |total|)
    && forall j: nat {:trigger T.v1ListIdxs[j]} :: j < n ==>
         && T.v1ListIdxs[j] < |idxs| && T.v2ListIdxs[j] < |idxs|
         && idxs[T.v1ListIdxs[j]] == idxs[T.v2ListIdxs[j]] && total[idxs[T.v1ListIdxs[j]]] == leaves[j]
  }

  lemma {:induction false} IdxsSnoc(T: Tables, total: seq<Leaf>, leaves: seq<Leaf>, idxs: seq<nat>, n: nat, x: nat)
    requires IdxsOk(T, total, leaves, idxs, n) && n < |leaves| && x < |total| && total[x] == leaves[n]
    requires IsPermutation(T.v1ListIdxs + T.v2ListIdxs, |idxs|) && |T.v1ListIdxs| == |T.v2ListIdxs| > n
    ensures T.v1ListIdxs[n] < |idxs| && T.v2ListIdxs[n] < |idxs|
    ensures IdxsOk(T, total, leaves, idxs[T.v1ListIdxs[n] := x][T.v2ListIdxs[n] := x], n + 1)
  {
    var all, e := T.v1ListIdxs + T.v2ListIdxs, |T.v1ListIdxs|;
    assert all[n] == T.v1ListIdxs[n] && all[e + n] == T.v2ListIdxs[n];
    forall j: nat | j < n
      ensures T.v1ListIdxs[j] !in {T.v1ListIdxs[n], T.v2ListIdxs[n]}
              && T.v2ListIdxs[j] !in {T.v1ListIdxs[n], T.v2ListIdxs[n]}
    {
      assert all[j] == T.v1ListIdxs[j] && all[e + j] == T.v2ListIdxs[j];
    }
  }

  /** The shard index list of one subtask. */
  method SubtaskIdxs(T: Tables, total: seq<Leaf>, mapper: map<nat, nat>, numEdges: nat, leaves: seq<Leaf>)
    returns (idxs: seq<nat>)
    requires Maps(mapper, total, |total|) && total != [] && |leaves| == numEdges
    requires |T.v1ListIdxs| == |T.v2ListIdxs| == numEdges && IsPermutation(T.v1ListIdxs + T.v2ListIdxs, 2 * numEdges)
    requires forall j: nat {:trigger leaves[j]} :: j < |leaves| ==>
               leaves[j].uid in mapper && total[mapper[leaves[j].uid]] == leaves[j]
    ensures |idxs| == 2 * numEdges && IdxsOk(T, total, leaves, idxs, numEdges)
  {
    idxs := seq(2 * numEdges, s => 0);
    var j := 0;
    while j < numEdges
      invariant 0 <= j <= numEdges && |idxs| == 2 * numEdges && IdxsOk(T, total, leaves, idxs, j)
    {
      var x := mapper[leaves[j].uid];
      IdxsSnoc(T, total, leaves, idxs, j, x);
      idxs := idxs[T.v1ListIdxs[j] := x];
      idxs := idxs[T.v2ListIdxs[j] := x];
      j := j + 1;
    }
  }

  function ShardsOf(total: seq<Leaf>): (shards: seq<Shard>)
    ensures |shards| == |total| && forall i :: 0 <= i < |total| ==> shards[i] == total[i].shard
  {
    seq(|total|, i requires 0 <= i < |total| => total[i].shard)
  }

  /** The task's shards all come with its subtasks, each subtask has one per edge, and ids identify shards. */
  ghost predicate TaskOk(task: Task, numEdges: nat) {
    && task.total != [] && Identified(task.total, task.subtasks)
    && forall k: nat {:trigger task.subtasks[k]} :: k < |task.subtasks| ==>
         |task.subtasks[k]| == numEdges && Covers(Uids(task.total), task.subtasks[k])
  }

  lemma {:induction false} LeavesMapped(task: Task, numEdges: nat, mapper: map<nat, nat>, k: nat)
    requires TaskOk(task, numEdges) && Maps(mapper, task.total, |task.total|) && k < |task.subtasks|
    ensures forall j: nat {:trigger task.subtasks[k][j]} :: j < |task.subtasks[k]| ==>
              task.subtasks[k][j].uid in mapper && task.total[mapper[task.subtasks[k][j].uid]] == task.subtasks[k][j]
  {
    var leaves := task.subtasks[k];
    forall j: nat | j < |leaves|
      ensures leaves[j].uid in mapper && task.total[mapper[leaves[j].uid]] == leaves[j]
    {
      assert leaves[j].uid in Uids(task.total);
      var i: nat :| i < |task.total| && task.total[i].uid == leaves[j].uid;
      assert task.total[mapper[leaves[j].uid]].uid == task.subtasks[k][j].uid;
    }
  }

  /** The shard index lists of the first subtasks. */
  ghost predicate ListsAre(T: Tables, task: Task, subtasks: seq<seq<nat>>, numEdges: nat)
    requires |T.v1ListIdxs| == |T.v2ListIdxs| == numEdges
  {
    && |subtasks| <= |task.subtasks|
    && forall k: nat {:trigger subtasks[k]} :: k < |subtasks| ==>
         |subtasks[k]| == 2 * numEdges && IdxsOk(T, task.total, task.subtasks[k], subtasks[k], numEdges)
  }

  lemma {:induction false} ListsSnoc(T: Tables, task: Task, subtasks: seq<seq<nat>>, numEdges: nat, idxs: seq<nat>)
    requires |T.v1ListIdxs| == |T.v2ListIdxs| == numEdges && ListsAre(T, task, subtasks, numEdges)
    requires |subtasks| < |task.subtasks| && |idxs| == 2 * numEdges
    requires IdxsOk(T, task.total, task.subtasks[|subtasks|], idxs, numEdges)
    ensures ListsAre(T, task, subtasks + [idxs], numEdges)
  {
  }

  /** The shard index lists of a task's subtasks. */
  method TaskIdxs(T: Tables, task: Task, mapper: map<nat, nat>, numEdges: nat) returns (subtasks: seq<seq<nat>>)
    requires TaskOk(task, numEdges) && Maps(mapper, task.total, |task.total|)
    requires |T.v1ListIdxs| == |T.v2ListIdxs| == numEdges && IsPermutation(T.v1ListIdxs + T.v2ListIdxs, 2 * numEdges)
    ensures |subtasks| == |task.subtasks| && ListsAre(T, task, subtasks, numEdges)
  {
    subtasks := [];
    while |subtasks| < |task.subtasks|
      invariant |subtasks| <= |task.subtasks| && ListsAre(T, task, subtasks, numEdges)
    {
      LeavesMapped(task, numEdges, mapper, |subtasks|);
      var idxs := SubtaskIdxs(T, task.total, mapper, numEdges, task.subtasks[|subtasks|]);
      ListsSnoc(T, task, subtasks, numEdges, idxs);
      subtasks := subtasks + [idxs];
    }
  }

  /** The header of one launch. */
  method MakeHeader(variant: Variant, Q: QueryGraph, ghost s: Schedule, T: Tables, task: Task, tree: Tree,
                    roots: seq<nat>)
    returns (L: Launch)
    requires Tabled(Q, s, T) && TaskOk(task, |Q.edges|)
    ensures FromTables(L, Q, s, T) && L.variant == variant && L.tree == tree && L.rootIds == roots
    ensures L.shards == ShardsOf(task.total) && |L.subtasks| == |task.subtasks|
    ensures forall k: nat {:trigger L.subtasks[k]} :: k < |L.subtasks| ==>
              |L.subtasks[k]| == 2 * |Q.edges| && IdxsOk(T, task.total, task.subtasks[k], L.subtasks[k], |Q.edges|)
  {
    var mapper := MapShards(task.total);
    SlotsArePermutation(Q, s, T);
    SlotFacts(Q, s, T, 0, true);
    var subtasks := TaskIdxs(T, task, mapper, |Q.edges|);
    L := Launch(variant, |Q.vertices|, |Q.edges|, T.globalOrder, T.prefixSumDegree, T.eidList, T.edgeTypeList, T.lv0Dep,
                T.numNegativePerVertex, T.negativeDegree, T.constraintPtr, T.constraints, tree, roots,
                ShardsOf(task.total), subtasks);
  }
}
