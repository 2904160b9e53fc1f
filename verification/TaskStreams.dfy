/** The packer's stream of tasks, matched with the runs of the plan. */
module TaskStreams {
  import opened Grids
  import opened PlanTrees
  import opened PlanWalks
  import opened PlanLevels
  import opened TaskPackers
  import opened PlanStreams
  import opened WalkOrders
  import opened TaskTrees
  import opened TaskShapes
  import opened Engines

  /** The levels of an engine's plan tree and where its vertices end. */
  ghost function EngineLevels(E: Engine): Levels
    requires E.Ok() && E.P.Ok()
  {
    LevelsFor(E.P.s)
  }

  ghost function EngineEnds(E: Engine): seq<nat> {
    VertexEnds(E.P.s.elevelToVlevel, NumOwners(E.P.s))
  }

  lemma {:induction false} EngineIsLevelled(E: Engine)
    requires E.Ok() && E.P.Ok()
    ensures
      var levels, m := EngineLevels(E), NumOwners(E.P.s);
      && levels.Ok() && levels.maxLevel == E.P.NumTurns() && Gapless(levels, m) && EndsAre(levels, m, EngineEnds(E))
      && 1 <= m < |E.P.Q.vertices|
  {
    LevelsOk(E.P.Q, E.P.s);
    LevelsGapless(E.P.Q, E.P.s);
    SomePostfix(E.P.Q, E.P.s);
    VertexEndsAre(EngineLevels(E), NumOwners(E.P.s));
  }

  /** The groups a task packed, in the order of the plan tree. */
  ghost function PartOf(E: Engine, part: seq<Position>, takenOver: bool): Packed
    requires E.Ok() && E.P.Ok()
  {
    PackedOf(EngineLevels(E), |E.P.Q.vertices|, NumOwners(E.P.s), EngineEnds(E), part, takenOver)
  }

  /** The popped task packs the part and its subtasks are the given runs. */
  ghost predicate TaskFits(E: Engine, t: Popped, part: seq<Position>, takenOver: bool, mine: seq<seq<Choice>>)
    requires E.Ok() && E.P.Ok()
  {
    && PartOf(E, part, takenOver).Ok()
    && (!takenOver ==> VertexLevel(EngineLevels(E), |part[0]|) == 1)
    && t.task.subtasks == Fulls(EngineLevels(E), part) && t.infos == Infos(EngineLevels(E), part, takenOver)
    && TaskRuns(E, t.task, mine)
  }

  // ----- the tasks of a whole run -----

  /** Where part i lies among the joined ones. */
  lemma {:induction false} JoinedPart(parts: seq<seq<Position>>, i: nat)
    requires i < |parts|
    ensures |AllParts(parts[..i])| + |parts[i]| <= |AllParts(parts)|
    ensures AllParts(parts)[|AllParts(parts[..i])|..|AllParts(parts[..i])| + |parts[i]|] == parts[i]
    decreases |parts|
  {
    var last := |parts| - 1;
    if i == last {
      assert parts[..i] == parts[..last];
    } else {
      JoinedPart(parts[..last], i);
      assert parts[..last][..i] == parts[..i];
    }
  }

  lemma {:induction false} SubtasksPart(ts: seq<Popped>, i: nat)
    requires i < |ts|
    ensures AllSubtasks(ts[..i + 1]) == AllSubtasks(ts[..i]) + ts[i].task.subtasks
    ensures |AllSubtasks(ts[..i + 1])| <= |AllSubtasks(ts)|
    ensures AllSubtasks(ts)[|AllSubtasks(ts[..i])|..|AllSubtasks(ts[..i + 1])|] == ts[i].task.subtasks
    decreases |ts|
  {
    var last := |ts| - 1;
    assert ts[..i + 1][..i] == ts[..i];
    if i == last {
      assert ts[..i + 1] == ts;
    } else {
      SubtasksPart(ts[..last], i);
      assert ts[..last][..i] == ts[..i] && ts[..last][..i + 1] == ts[..i + 1];
    }
  }

  /** All groups of the plan, in the order they are handed out. */
  ghost function AllGroups(E: Engine): seq<Position>
    requires E.Ok() && E.P.Ok() && EngineLevels(E).Ok()
  {
    Ends(EngineLevels(E), Walk([], E.P.Plan([])))
  }

  /** The plan tree has the engine's levels. */
  lemma {:induction false} LevelledIsShaped(E: Engine, nodes: seq<Node>, n: nat)
    requires E.Ok() && E.P.Ok() && EngineLevels(E).Ok() && n < E.P.NumTurns() && Levelled(E.P, nodes, n) && nodes != []
    ensures n <= EngineLevels(E).maxLevel && Shaped(EngineLevels(E), nodes, n)
    decreases E.P.NumTurns() - n
  {
    forall i {:trigger nodes[i]} | 0 <= i < |nodes|
      ensures nodes[i].level == n + 1 && nodes[i].vertex == EngineLevels(E).vertexAt[n]
      ensures Shaped(EngineLevels(E), nodes[i].children, n + 1)
    {
      if n + 1 < E.P.NumTurns() {
        LevelledIsShaped(E, nodes[i].children, n + 1);
      }
    }
  }

  lemma {:induction false} PlanIsShaped(E: Engine)
    requires E.Ok() && E.P.Ok() && EngineLevels(E).Ok() && E.P.Plan([]) != []
    ensures Shaped(EngineLevels(E), E.P.Plan([]), 0)
  {
    PlanIsLevelled(E.P, []);
    LevelledIsShaped(E, E.P.Plan([]), 0);
  }

  /** The groups of a walk over a levelled tree come in the tree's order, and the first one is at its top. */
  lemma {:induction false} WalkEnds(levels: Levels, m: nat, ends: seq<nat>, kids: seq<Node>)
    requires levels.Ok() && levels.maxLevel > 0 && Gapless(levels, m) && EndsAre(levels, m, ends)
    requires kids != [] && Shaped(levels, kids, 0)
    ensures EndsOrdered(levels, m, ends, Ends(levels, Walk([], kids))) && Ends(levels, Walk([], kids)) != []
    ensures VertexLevel(levels, |Ends(levels, Walk([], kids))[0]|) == 1
  {
    WalkOrdered(levels, [], kids);
    WalkLast(levels, [], kids);
    EndsInOrder(levels, m, ends, Walk([], kids));
    FirstEnd(levels, Walk([], kids));
  }

  lemma {:induction false} GroupsOrdered(E: Engine)
    requires E.Ok() && E.P.Ok() && EngineLevels(E).Ok() && E.P.Plan([]) != []
    ensures EndsOrdered(EngineLevels(E), NumOwners(E.P.s), EngineEnds(E), AllGroups(E)) && AllGroups(E) != []
    ensures VertexLevel(EngineLevels(E), |AllGroups(E)[0]|) == 1
  {
    EngineIsLevelled(E);
    PlanIsShaped(E);
    WalkEnds(EngineLevels(E), NumOwners(E.P.s), EngineEnds(E), E.P.Plan([]));
  }

  /** The tasks of a run of the packer, with the parts of the walk they pack. */
  ghost predicate Stream(E: Engine, ts: seq<Popped>, parts: seq<seq<Position>>, capacity: nat)
    requires E.Ok() && E.P.Ok()
  {
    && EngineLevels(E).Ok() && E.P.Plan([]) != []
    && TasksAre(EngineLevels(E), parts, ts, capacity) && AllParts(parts) == AllGroups(E)
    && E.P.AllPaths(E.P.Runs([]), 0) && AllSubtasks(ts) == E.P.AllRunLeaves(E.P.Runs([]), 0)
  }

  /** Every part inherits the order of the whole, and the first one its start. */
  lemma {:induction false} PartOrdered(levels: Levels, m: nat, ends: seq<nat>, parts: seq<seq<Position>>, i: nat)
    requires levels.Ok() && EndsOrdered(levels, m, ends, AllParts(parts)) && i < |parts|
    ensures EndsOrdered(levels, m, ends, parts[i])
    ensures i == 0 && parts[0] != [] ==> AllParts(parts) != [] && parts[0][0] == AllParts(parts)[0]
  {
    JoinedPart(parts, i);
    EndsOrderedPart(levels, m, ends, AllParts(parts), |AllParts(parts[..i])|, parts[i]);
    if i == 0 {
      assert parts[..0] == [];
    }
  }

  lemma {:induction false} PartFits(E: Engine, ts: seq<Popped>, parts: seq<seq<Position>>, capacity: nat, i: nat)
    requires E.Ok() && E.P.Ok() && Stream(E, ts, parts, capacity) && i < |ts| == |parts| && parts[i] != []
    ensures PartOf(E, parts[i], i > 0).Ok()
    ensures i == 0 ==> VertexLevel(EngineLevels(E), |parts[i][0]|) == 1
  {
    EngineIsLevelled(E);
    GroupsOrdered(E);
    PartOrdered(EngineLevels(E), NumOwners(E.P.s), EngineEnds(E), parts, i);
  }

  /** What packing says about the task's shards. */
  lemma {:induction false} PackedShards(levels: Levels, part: seq<Position>, takenOver: bool, t: Popped, capacity: nat,
                                        k: nat)
    requires IsTaskOf(levels, part, takenOver, t, capacity) && t.used != 0
    ensures part != [] && t.task.subtasks == Fulls(levels, part) != [] && t.infos == Infos(levels, part, takenOver)
    ensures DistinctUids(t.task.total) && AllUsed(t.task.total, t.task.subtasks)
    ensures k < |t.task.subtasks| ==> Covers(Uids(t.task.total), t.task.subtasks[k])
  {
    var cache :| Packs(levels, part, takenOver, t.task, cache, t.infos, t.used, capacity);
    assert AllCovered(cache, t.task.subtasks);
  }

  /** The runs of task i: those after the ones of the tasks before it. */
  ghost function RunsOfTask(E: Engine, ts: seq<Popped>, i: nat): seq<seq<Choice>>
    requires E.Ok() && E.P.Ok() && i < |ts| && |AllSubtasks(ts[..i])| <= |AllSubtasks(ts[..i + 1])| <= |E.P.Runs([])|
  {
    E.P.Runs([])[|AllSubtasks(ts[..i])|..|AllSubtasks(ts[..i + 1])|]
  }

  /** run is a complete run of the plan, and leaves are its shards. */
  ghost predicate RunsOn(P: Planning, run: seq<Choice>, leaves: seq<Leaf>)
    requires P.Ok()
  {
    run in P.Runs([]) && P.Consistent(run) && |run| == P.NumTurns() && leaves == P.RunLeaves(run, 0)
  }

  lemma {:induction false} NthRun(P: Planning, i: nat, run: seq<Choice>, leaves: seq<Leaf>)
    requires P.Ok() && i < |P.Runs([])| && run == P.Runs([])[i]
    requires P.AllPaths(P.Runs([]), 0) && leaves == P.AllRunLeaves(P.Runs([]), 0)[i]
    ensures RunsOn(P, run, leaves)
  {
    P.RunsAre([], run);
  }

  lemma {:induction false} TaskRange(E: Engine, ts: seq<Popped>, i: nat)
    requires E.Ok() && E.P.Ok() && E.P.AllPaths(E.P.Runs([]), 0) && AllSubtasks(ts) == E.P.AllRunLeaves(E.P.Runs([]), 0)
             && i < |ts|
    ensures |AllSubtasks(ts[..i + 1])| == |AllSubtasks(ts[..i])| + |ts[i].task.subtasks| <= |E.P.Runs([])|
  {
    SubtasksPart(ts, i);
  }

  lemma {:induction false} NthOfSlice<T>(s: seq<T>, part: seq<T>, lo: nat, hi: nat, k: nat)
    requires lo <= hi <= |s| && part == s[lo..hi] && lo + k < hi
    ensures k < |part| == hi - lo && part[k] == s[lo + k]
  {
  }

  /** A share of the runs goes with the same share of their shards. */
  lemma {:induction false} ShareOfRuns(P: Planning, leaves: seq<seq<Leaf>>, lo: nat, hi: nat, mine: seq<seq<Choice>>,
                                       subtasks: seq<seq<Leaf>>)
    requires P.Ok() && P.AllPaths(P.Runs([]), 0) && leaves == P.AllRunLeaves(P.Runs([]), 0)
    requires lo <= hi <= |leaves| && mine == P.Runs([])[lo..hi] && subtasks == leaves[lo..hi]
    ensures |mine| == |subtasks|
    ensures forall k: nat {:trigger mine[k]} :: k < |mine| ==> RunsOn(P, mine[k], subtasks[k])
  {
    forall k: nat {:trigger mine[k]} | k < |mine|
      ensures RunsOn(P, mine[k], subtasks[k])
    {
      NthOfSlice(P.Runs([]), mine, lo, hi, k);
      NthOfSlice(leaves, subtasks, lo, hi, k);
      NthRun(P, lo + k, mine[k], subtasks[k]);
    }
  }

  lemma {:induction false} PackedRuns(E: Engine, levels: Levels, part: seq<Position>, takenOver: bool, t: Popped,
                                      capacity: nat, mine: seq<seq<Choice>>)
    requires E.Ok() && E.P.Ok() && IsTaskOf(levels, part, takenOver, t, capacity) && t.used != 0
             && |mine| == |t.task.subtasks|
    requires forall k: nat {:trigger mine[k]} :: k < |mine| ==> RunsOn(E.P, mine[k], t.task.subtasks[k])
    ensures TaskRuns(E, t.task, mine)
  {
    PackedShards(levels, part, takenOver, t, capacity, 0);
    forall k: nat {:trigger RunAt(E, t.task, mine, k)} | k < |mine|
      ensures RunAt(E, t.task, mine, k)
    {
      assert RunsOn(E.P, mine[k], t.task.subtasks[k]);
      PackedShards(levels, part, takenOver, t, capacity, k);
    }
  }

  /** The task is one that RunTask can carry out, for its share of the runs. */
  lemma {:induction false} TaskOfStream(E: Engine, ts: seq<Popped>, parts: seq<seq<Position>>, capacity: nat, i: nat)
    requires E.Ok() && E.P.Ok() && Stream(E, ts, parts, capacity) && i < |ts|
    ensures |parts| == |ts| && |AllSubtasks(ts[..i])| <= |AllSubtasks(ts[..i + 1])| <= |E.P.Runs([])|
    ensures TaskFits(E, ts[i], parts[i], i > 0, RunsOfTask(E, ts, i))
  {
    assert TaskAt(EngineLevels(E), parts, ts, capacity, i);
    PackedShards(EngineLevels(E), parts[i], i > 0, ts[i], capacity, 0);
    PartFits(E, ts, parts, capacity, i);
    TaskRange(E, ts, i);
    SubtasksPart(ts, i);
    var lo, hi, mine := |AllSubtasks(ts[..i])|, |AllSubtasks(ts[..i + 1])|, RunsOfTask(E, ts, i);
    ShareOfRuns(E.P, AllSubtasks(ts), lo, hi, mine, ts[i].task.subtasks);
    PackedRuns(E, EngineLevels(E), parts[i], i > 0, ts[i], capacity, mine);
  }
}
