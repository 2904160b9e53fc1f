/** What stays fixed during a run: the kernel variant, the plan, and the query's tables. */
module Engines {
  import opened Sequences
  import opened Shards
  import opened QueryGraphs
  import opened Schedules
  import opened SlotTables
  import opened SlotLayouts
  import opened Launches
  import opened LaunchTables
  import opened Grids
  import opened PlanTrees
  import opened PlanCoverage
  import opened PlanLevels
  import opened TaskPackers
  import opened Headers

  ghost predicate Fitted(variant: Variant, P: Planning, T: Tables) {
    && !variant.Negative? && VariantFits(variant, P.Q)
    && P.ok && P == PlanningOf(P.Q, P.s, P.G)
    && P.G.Partitioned() && P.G.UniqueIds()
    && RegularSchedule(P.Q, P.s) && Tabled(P.Q, P.s, T)
  }

  ghost function EngineOf(variant: Variant, P: Planning, T: Tables): Engine {
    Engine(variant, P, T, Fitted(variant, P, T))
  }

  /** A query prepared for the basic or the constraint kernel; ok says that its parts belong together. */
  datatype Engine = Engine(variant: Variant, P: Planning, T: Tables, ok: bool) {
    ghost predicate Ok() {
      ok && this == EngineOf(variant, P, T)
    }
  }

  /** A reordered regular query fits every grid file that has rows for its labels. */
  lemma {:induction false} RegularFits(Q: QueryGraph, s: Schedule, G: GridFile)
    requires RegularSchedule(Q, s) && |G.minRow| == |G.maxRow|
    requires forall v {:trigger Q.vertices[v]} :: 0 <= v < |Q.vertices| ==> Q.vertices[v].labelId < |G.minRow|
    ensures PlanningOf(Q, s, G).Ok()
  {
    forall i {:trigger s.turns[i]} | 0 <= i < |s.turns|
      ensures s.turns[i].edge < |Q.edges| && s.turns[i].order < |s.order|
      ensures Q.edges[s.turns[i].edge].Touches(s.order[s.turns[i].order])
    {
      assert TurnEdges(s.turns)[i] < |Q.edges|;
      assert s.order[s.rank[EarlierEnd(Q, s.rank, s.turns[i].edge)]] == EarlierEnd(Q, s.rank, s.turns[i].edge);
    }
  }

  /** The owner of a turn is the earlier end of its edge. */
  lemma {:induction false} OwnerIsEarlier(E: Engine, n: nat)
    requires E.Ok() && n < E.P.NumTurns()
    ensures E.P.Ok() && E.P.NumTurns() == |E.P.Q.edges| && Ids(E.P.s)[n] == E.P.s.turns[n].edge < |E.P.Q.edges|
    ensures |E.P.s.rank| == |E.P.Q.vertices|
    ensures E.P.TurnOwner(n) == EarlierEnd(E.P.Q, E.P.s.rank, E.P.s.turns[n].edge)
  {
    assert E.P.s.turns[n].order == E.P.s.rank[EarlierEnd(E.P.Q, E.P.s.rank, E.P.s.turns[n].edge)];
  }

  /** Every vertex has an edge, and every edge its turn. */
  lemma {:induction false} AllTouched(E: Engine)
    requires E.Ok()
    ensures E.P.Ok() && EveryVertexTouched(E.P)
  {
    var P := E.P;
    forall v: nat | v < |P.Q.vertices|
      ensures TouchedAt(P, v)
    {
      assert P.Q.vertices[v].degree == Degree(P.Q.edges, v);
      var e := EdgeAt(P.Q.edges, v);
      PermutationReaches(TurnEdges(P.s.turns), |P.Q.edges|);
      assert e in TurnEdges(P.s.turns);
      var n: nat :| n < |TurnEdges(P.s.turns)| && TurnEdges(P.s.turns)[n] == e;
      assert P.s.turns[n].edge == e && P.Edge(n).Touches(v);
    }
  }

  lemma {:induction false} EdgeAt(edges: seq<QEdge>, v: nat) returns (e: nat)
    requires Degree(edges, v) >= 1
    ensures e < |edges| && edges[e].Touches(v)
  {
    FilterNoDup(Incident(edges, v), Iota(|edges|));
    e := FilterIn(Incident(edges, v), Iota(|edges|))[0];
    assert e in FilterIn(Incident(edges, v), Iota(|edges|));
  }

  // ----- tasks -----

  /** The task's subtasks are the shards of the given runs, each shard is stored once, and each is used. */
  ghost predicate TaskRuns(E: Engine, task: Task, runs: seq<seq<Choice>>)
    requires E.P.Ok()
  {
    && |runs| == |task.subtasks| > 0
    && DistinctUids(task.total) && AllUsed(task.total, task.subtasks)
    && forall k: nat {:trigger RunAt(E, task, runs, k)} :: k < |runs| ==> RunAt(E, task, runs, k)
  }

  ghost predicate RunAt(E: Engine, task: Task, runs: seq<seq<Choice>>, k: nat)
    requires E.P.Ok()
  {
    && k < |runs| == |task.subtasks|
    && E.P.Consistent(runs[k]) && |runs[k]| == E.P.NumTurns()
    && task.subtasks[k] == E.P.RunLeaves(runs[k], 0)
    && Covers(Uids(task.total), task.subtasks[k])
  }

  /** The shard a run uses in turn n is one of the grid file's. */
  lemma {:induction false} LeafOfRun(E: Engine, run: seq<Choice>, n: nat)
    requires E.Ok() && E.P.Ok() && E.P.Consistent(run) && n < |run|
    ensures
      var pair := E.P.Chosen(n, run[n]);
      && E.P.IsOption(n, run[n]) && pair.Ok()
      && E.P.G.IsLeaf(E.P.LeafFor(n, pair)) && E.P.LeafFor(n, pair).shard.Valid()
  {
    var P := E.P;
    P.ConsistentPrefix(run, n);
    var c := run[n];
    assert P.Fits(run[..n], c) && |run[..n]| == n;
    var cell := Cell(c.row, c.col, P.Edge(n).labelId);
    assert P.G.Pairs(cell)[c.index].Ok();
    assert P.Chosen(n, c) == P.G.Pairs(cell)[c.index];
  }

  lemma {:induction false} SubtaskLeaf(E: Engine, task: Task, runs: seq<seq<Choice>>, k: nat, j: nat)
    requires E.Ok() && E.P.Ok() && TaskRuns(E, task, runs) && k < |runs|
    ensures |task.subtasks[k]| == |runs[k]| == E.P.NumTurns() == |E.P.Q.edges| && E.P.Consistent(runs[k])
    ensures j < E.P.NumTurns() ==>
              && task.subtasks[k][j] == E.P.LeafFor(j, E.P.Chosen(j, runs[k][j]))
              && E.P.G.IsLeaf(task.subtasks[k][j]) && task.subtasks[k][j].shard.Valid()
  {
    assert RunAt(E, task, runs, k);
    if j < E.P.NumTurns() {
      LeafOfRun(E, runs[k], j);
    }
  }

  /** Every shard of the task comes with one of its subtasks. */
  lemma {:induction false} TotalLeaf(E: Engine, task: Task, runs: seq<seq<Choice>>, i: nat)
    requires E.Ok() && E.P.Ok() && TaskRuns(E, task, runs) && i < |task.total|
    ensures E.P.G.IsLeaf(task.total[i]) && task.total[i].shard.Valid()
  {
    var leaf := task.total[i];
    assert InSome(leaf, task.subtasks);
    var k: nat :| k < |task.subtasks| && leaf in task.subtasks[k];
    var j: nat :| j < |task.subtasks[k]| && task.subtasks[k][j] == leaf;
    SubtaskLeaf(E, task, runs, k, j);
  }

  /** The header builder's demands on a task. */
  lemma {:induction false} TaskIsOk(E: Engine, task: Task, runs: seq<seq<Choice>>)
    requires E.Ok() && E.P.Ok() && TaskRuns(E, task, runs)
    ensures TaskOk(task, |E.P.Q.edges|)
  {
    forall i: nat, k: nat, j: nat {:trigger task.total[i], task.subtasks[k][j]}
      | i < |task.total| && k < |task.subtasks| && j < |task.subtasks[k]|
          && task.total[i].uid == task.subtasks[k][j].uid
      ensures task.total[i] == task.subtasks[k][j]
    {
      TotalLeaf(E, task, runs, i);
      SubtaskLeaf(E, task, runs, k, j);
    }
    forall k: nat {:trigger task.subtasks[k]} | k < |task.subtasks|
      ensures |task.subtasks[k]| == |E.P.Q.edges| && Covers(Uids(task.total), task.subtasks[k])
    {
      SubtaskLeaf(E, task, runs, k, 0);
      assert RunAt(E, task, runs, k);
    }
    SubtaskLeaf(E, task, runs, 0, 0);
    assert RunAt(E, task, runs, 0);
    assert task.subtasks[0][0].uid in Uids(task.total);
  }
}
