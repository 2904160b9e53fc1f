/** From a query to its count: planning, packing, launching and adding up. */
module EndToEnd {
  import opened Machine
  import opened Sequences
  import opened QueryGraphs
  import opened Schedules
  import opened SlotTables
  import opened SearchTrees
  import opened Launches
  import opened LaunchTables
  import opened Grids
  import opened PlanTrees
  import opened Planners
  import opened PlanCoverage
  import opened PlanWalks
  import opened PlanLevels
  import opened TaskPackers
  import opened PlanStreams
  import opened TaskTrees
  import opened TaskShapes
  import opened KernelGrids
  import opened DoubleBuffers
  import opened Engines
  import opened GraphMatches
  import opened TaskStreams
  import opened TaskCounts
  import opened RunMatches
  import opened RunLists

  // ----- one task -----

  /** Carries out one task of the plan: its counter is the number of matches of its runs. */
  method RunTask(variant: Variant, Q: QueryGraph, s: Schedule, T: Tables, t: Popped, blocks: nat,
                 ghost E: Engine, ghost part: seq<Position>, ghost takenOver: bool, ghost mine: seq<seq<Choice>>)
    returns (counter: nat, ghost hs: seq<Assignment>)
    requires E.Ok() && E.P.Ok() && E.P.Q == Q && E.P.s == s && E.T == T && E.variant == variant
    requires TaskFits(E, t, part, takenOver, mine) && NoDup(mine) && MAX_BLOCKS <= blocks <= 0x1_0000
    ensures counter == |hs| && RunsListed(E, mine, 0, |mine|, hs)
  {
    ghost var marks := MarksOf(EngineLevels(E), EngineEnds(E), part, takenOver);
    PackedFits(PartOf(E, part, takenOver));
    TaskHasShards(E, t.task, mine);
    ghost var L;
    counter, L := LaunchTask(variant, Q, s, T, t.task, t.infos, blocks, KitOf(E), marks);
    hs := LaunchLists(E, t.task, mine, L, |mine|);
  }

  lemma {:induction false} SliceNoDup(runs: seq<seq<Choice>>, lo: nat, hi: nat)
    requires NoDup(runs) && lo <= hi <= |runs|
    ensures NoDup(runs[lo..hi])
  {
  }

  lemma {:induction false} TaskRunsOnce(E: Engine, ts: seq<Popped>, i: nat)
    requires E.Ok() && E.P.Ok() && i < |ts| && |AllSubtasks(ts[..i])| <= |AllSubtasks(ts[..i + 1])| <= |E.P.Runs([])|
    ensures NoDup(RunsOfTask(E, ts, i))
  {
    E.P.RunsOnce([]);
    SliceNoDup(E.P.Runs([]), |AllSubtasks(ts[..i])|, |AllSubtasks(ts[..i + 1])|);
  }

  /** hs lists the assignments of the runs of the first i tasks. */
  ghost predicate Counted(E: Engine, ts: seq<Popped>, i: nat, hs: seq<Assignment>)
    requires E.Ok() && E.P.Ok() && i <= |ts|
  {
    RunsListed(E, E.P.Runs([]), 0, |AllSubtasks(ts[..i])|, hs)
  }

  /** One more task: the launches' lists are joined. */
  lemma {:induction false} OneMoreTask(E: Engine, ts: seq<Popped>, i: nat, hs: seq<Assignment>, more: seq<Assignment>)
    requires E.Ok() && E.P.Ok() && i < |ts| && |AllSubtasks(ts[..i])| <= |AllSubtasks(ts[..i + 1])| <= |E.P.Runs([])|
    requires Counted(E, ts, i, hs) && RunsListed(E, RunsOfTask(E, ts, i), 0, |RunsOfTask(E, ts, i)|, more)
    ensures Counted(E, ts, i + 1, hs + more)
  {
    E.P.RunsOnce([]);
    var lo, hi := |AllSubtasks(ts[..i])|, |AllSubtasks(ts[..i + 1])|;
    ListsShift(E, E.P.Runs([]), lo, RunsOfTask(E, ts, i), more);
    ListsJoin(E, E.P.Runs([]), 0, lo, hi, hs, more);
  }

  /** After all tasks, the list holds the query's homomorphisms. */
  lemma {:induction false} AllCounted(E: Engine, ts: seq<Popped>, parts: seq<seq<Position>>, capacity: nat,
                                      hs: seq<Assignment>)
    requires E.Ok() && E.P.Ok() && Stream(E, ts, parts, capacity) && Counted(E, ts, |ts|, hs)
    ensures HomomorphismsAre(E, hs)
  {
    assert ts[..|ts|] == ts;
    assert |AllSubtasks(ts)| == |E.P.Runs([])|;
    forall h {:trigger h in hs}
      ensures h in hs <==> IsHomomorphism(E.P, h) && Wanted(E, h)
    {
      AllRunsList(E, hs, h);
    }
  }

  /** hs lists the homomorphisms of the query into the graph that pass the constraints, each once. */
  ghost predicate HomomorphismsAre(E: Engine, hs: seq<Assignment>)
    requires E.Ok() && E.P.Ok()
  {
    NoDup(hs) && forall h {:trigger h in hs} :: h in hs <==> IsHomomorphism(E.P, h) && Wanted(E, h)
  }

  lemma {:induction false} SumMore(counters: seq<nat>, counter: nat)
    ensures Total(counters + [counter]) == Total(counters) + counter
  {
    assert (counters + [counter])[..|counters|] == counters;
  }

  /** Runs all tasks, one launch each; their counters add up to the number of homomorphisms. */
  method RunTasks(variant: Variant, Q: QueryGraph, s: Schedule, T: Tables, ts: seq<Popped>, blocks: nat,
                  ghost E: Engine, ghost parts: seq<seq<Position>>, ghost capacity: nat)
    returns (counters: seq<nat>, ghost hs: seq<Assignment>)
    requires E.Ok() && E.P.Ok() && E.P.Q == Q && E.P.s == s && E.T == T && E.variant == variant
    requires Stream(E, ts, parts, capacity) && MAX_BLOCKS <= blocks <= 0x1_0000
    ensures Total(counters) == |hs| && HomomorphismsAre(E, hs)
  {
    counters, hs := [], [];
    ListsNone(E, E.P.Runs([]), 0);
    var i := 0;
    while i < |ts|
      invariant 0 <= i <= |ts| && Total(counters) == |hs| && Counted(E, ts, i, hs)
    {
      TaskOfStream(E, ts, parts, capacity, i);
      TaskRunsOnce(E, ts, i);
      var counter;
      ghost var more;
      counter, more := RunTask(variant, Q, s, T, ts[i], blocks, E, parts[i], i > 0, RunsOfTask(E, ts, i));
      OneMoreTask(E, ts, i, hs, more);
      SumMore(counters, counter);
      counters, hs := counters + [counter], hs + more;
      i := i + 1;
    }
    AllCounted(E, ts, parts, capacity, hs);
  }

  // ----- the whole run -----

  /** Whichever schedule the reordering arrives at, the shards of each run fit the buffer. */
  ghost predicate AlwaysFits(Q: QueryGraph, order: seq<nat>, G: GridFile, capacity: nat)
    requires Q.Valid() && |order| == |Q.vertices|
  {
    forall s: Schedule, rank: seq<nat> {:trigger Reordered(Q, order, rank, s)} ::
      RanksAre(order, rank) && Reordered(Q, order, rank, s) && PlanningOf(Q, s, G).Ok() ==>
        RunsFit(PlanningOf(Q, s, G), capacity)
  }

  ghost predicate RunsFit(P: Planning, capacity: nat)
    requires P.Ok()
  {
    forall run {:trigger run in P.Runs([])} :: run in P.Runs([]) && |run| <= P.NumTurns() ==>
          PathFits(P.RunLeaves(run, 0), capacity)
  }

  /** Turn by turn or edge by edge: the same assignments. */
  lemma {:induction false} HomomorphismIsMatch(E: Engine, h: Assignment)
    requires E.Ok() && E.P.Ok() && GraphFits(E.P.Q, E.P.G)
    ensures IsHomomorphism(E.P, h) <==> IsMatch(E.P.Q, E.P.G, h)
  {
    var P := E.P;
    if Typed(P, h) {
      if IsHomomorphism(P, h) {
        forall e: nat | e < |P.Q.edges|
          ensures EdgeFound(P.Q, P.G, e, h)
        {
          PermutationReaches(TurnEdges(P.s.turns), |P.Q.edges|);
          assert e in TurnEdges(P.s.turns);
          var n: nat :| n < |P.s.turns| && TurnEdges(P.s.turns)[n] == e;
          assert EdgeMapped(P, n, h);
        }
      }
      if IsMatch(P.Q, P.G, h) {
        forall n: nat | n < P.NumTurns()
          ensures EdgeMapped(P, n, h)
        {
          assert EdgeFound(P.Q, P.G, P.s.turns[n].edge, h);
        }
      }
    }
  }

  /** The complete paths of the walk are the runs' shards, so they fit the buffer. */
  lemma {:induction false} GroupsFit(E: Engine, capacity: nat)
    requires E.Ok() && E.P.Ok() && EngineLevels(E).Ok() && E.P.Plan([]) != [] && RunsFit(E.P, capacity)
    ensures E.P.AllPaths(E.P.Runs([]), 0)
    ensures Fulls(EngineLevels(E), AllGroups(E)) == E.P.AllRunLeaves(E.P.Runs([]), 0)
    ensures FitsBuffer(EngineLevels(E), AllGroups(E), capacity) && EndsFull(EngineLevels(E), AllGroups(E))
  {
    var levels, items := EngineLevels(E), AllGroups(E);
    PlanIsShaped(E);
    var none := E.P.NoPair().outEdges;
    RunIsLeafPaths(levels, Node(none, 0, 0, 0, E.P.Plan([])), Fulls(levels, items));
    PlanPaths(E.P, []);
    forall i {:trigger items[i]} | 0 <= i < |items| && |items[i]| == levels.maxLevel
      ensures PathFits(LeavesOf(items[i]), capacity)
    {
      SubtaskIs(levels, items, i);
      var k := |Fulls(levels, items[..i])|;
      NthRun(E.P, k, E.P.Runs([])[k], LeavesOf(items[i]));
    }
  }

  /** Reorders the query and fills the kernel tables. */
  method Prepare(variant: Variant, Q: QueryGraph, order: seq<nat>, G: GridFile)
    returns (s: Schedule, T: Tables, P: Planning, ghost E: Engine, ghost rank: seq<nat>)
    requires Q.Valid() && IsPermutation(order, |Q.vertices|) && !variant.Negative? && VariantFits(variant, Q)
             && GraphFits(Q, G)
    ensures E.Ok() && E == EngineOf(variant, P, T) && P.Ok() && P == PlanningOf(Q, s, G)
    ensures RanksAre(order, rank) && Reordered(Q, order, rank, s)
  {
    s, rank := Reorder(Q, order);
    ReorderedIsRegular(Q, rank, order, s);
    T := InitKernelInfo(Q, s);
    RegularFits(Q, s, G);
    P := Planning(Q, s, G, true);
    E := EngineOf(variant, P, T);
  }

  /**
   * The whole engine. The counters of the tasks, each the total of one launch over its blocks, add up to the number of
   * matches of the query in the data graph; None, where the scheduler's assertion fires, means that there is no match.
   */
  method CountMatches(variant: Variant, Q: QueryGraph, order: seq<nat>, G: GridFile, capacity: nat, blocks: nat)
    returns (r: Option<seq<nat>>)
    requires Q.Valid() && AllDirected(Q) && IsPermutation(order, |Q.vertices|) && !variant.Negative?
             && VariantFits(variant, Q)
    requires GraphFits(Q, G) && AlwaysFits(Q, order, G, capacity) && capacity > 0 && MAX_BLOCKS <= blocks <= 0x1_0000
    ensures exists matches {:trigger MatchesAre(variant, Q, G, matches)} ::
              MatchesAre(variant, Q, G, matches) && (if r.Some? then Total(r.value) == |matches| else matches == [])
  {
    ghost var matches;
    var s, T, P;
    ghost var E, rank;
    s, T, P, E, rank := Prepare(variant, Q, order, G);
    var planner := new Planner(P);
    var kids, valid := planner.Iterate(0, []);
    EngineIsLevelled(E);
    if !valid {
      r, matches := None, [];
      NothingPlanned(E);
    } else {
      var levels := LevelsFor(s);
      GroupsFit(E, capacity);
      PlanIsShaped(E);
      var tree := new SchedPlanTree(levels, Node(P.NoPair().outEdges, 0, 0, 0, kids), |Q.vertices|);
      var ts;
      ghost var parts;
      ts, parts := tree.PopAll(capacity);
      var counters;
      counters, matches := RunTasks(variant, Q, s, T, ts, blocks, E, parts, capacity);
      r := Some(counters);
    }
    forall h {:trigger h in matches}
      ensures h in matches <==> IsCounted(variant, Q, G, h)
    {
      HomomorphismIsMatch(E, h);
    }
    assert MatchesAre(variant, Q, G, matches);
  }

  lemma {:induction false} NothingPlanned(E: Engine)
    requires E.Ok() && E.P.Ok() && E.P.Plan([]) == []
    ensures HomomorphismsAre(E, [])
  {
    PlanPaths(E.P, []);
    assert |E.P.AllRunLeaves(E.P.Runs([]), 0)| == 0;
    ListsNone(E, E.P.Runs([]), 0);
    forall h: Assignment
      ensures !(IsHomomorphism(E.P, h) && Wanted(E, h))
    {
      AllRunsList(E, [], h);
    }
  }

  // ----- in any order -----

  lemma {:induction false} SumIsTotal(counters: seq<nat>, n: nat, result: (nat, nat) -> nat)
    requires n <= |counters| && forall t: nat :: t < |counters| ==> result(t, t) == counters[t]
    ensures SumOf(Iota(n), result) == Total(counters[..n])
    decreases n
  {
    if n > 0 {
      SumIsTotal(counters, n - 1, result);
      assert Iota(n)[..n - 1] == Iota(n - 1);
      assert counters[..n][..n - 1] == counters[..n - 1];
    }
  }

  /** Whichever workers take the tasks, and however their copies and kernels interleave, the total is the same. */
  lemma {:induction false} AnyDispatch(run: seq<System>, counters: seq<nat>, result: (nat, nat) -> nat, n: nat)
    requires IsRun(run, Iota(|counters|), result) && n < |run| && run[n].workers != [] && AllDone(run[n])
    requires forall t: nat :: t < |counters| ==> result(t, t) == counters[t]
    ensures run[n].total == Total(counters)
  {
    DispatchedOnce(run, Iota(|counters|), result, n);
    SumIsTotal(counters, |counters|, result);
    assert counters[..|counters|] == counters;
  }
}
