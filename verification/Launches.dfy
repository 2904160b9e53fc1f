/** One kernel launch: the header buffer the host uploads, and what its tables mean. */
module Launches {
  import opened Machine
  import opened Sequences
  import opened Shards
  import opened Intersections
  import opened SearchTrees
  import opened QueryGraphs

  /** Which of the three device kernels the invoker picks. */
  datatype Variant = Basic | Constraint | Negative

  datatype Launch = Launch(
    variant: Variant,
    numVertices: nat,
    numEdges: nat,
    globalOrder: seq<nat>,
    prefixSumDegree: seq<nat>,
    eidList: seq<nat>,
    edgeTypeList: seq<EdgeKind>,
    lv0Dep: seq<nat>,
    numNegativePerVertex: seq<nat>,
    negativeDegree: seq<nat>,
    constraintPtr: seq<nat>,
    constraints: seq<nat>,
    tree: Tree,
    rootIds: seq<nat>,
    shards: seq<Shard>,
    subtasks: seq<seq<nat>>
  ) {

    // ----- slots -----

    ghost predicate TablesOk() {
      && numVertices >= 2
      && |globalOrder| == numVertices
      && (forall d :: 0 <= d < numVertices ==> globalOrder[d] < numVertices)
      && NoDup(globalOrder)
      && |prefixSumDegree| == numVertices + 1
      && (forall v, w :: 0 <= v <= w <= numVertices ==> prefixSumDegree[v] <= prefixSumDegree[w])
      && prefixSumDegree[numVertices] == 2 * numEdges
      && |eidList| == |edgeTypeList| == 2 * numEdges
      && NoDup(eidList)
      && (forall s :: 0 <= s < 2 * numEdges ==> eidList[s] < 2 * numEdges)
      && |lv0Dep| == numEdges
      && |numNegativePerVertex| == |negativeDegree| == numVertices
      && |constraintPtr| == numVertices + 1
      && (forall v, w :: 0 <= v <= w <= numVertices ==> constraintPtr[v] <= constraintPtr[w])
      && constraintPtr[numVertices] <= |constraints|
    }

    function Degree(d: nat): nat
      requires TablesOk() && d < numVertices
    {
      prefixSumDegree[globalOrder[d] + 1] - prefixSumDegree[globalOrder[d]]
    }

    /** The j-th slot of the vertex matched at depth d. */
    function Slot(d: nat, j: nat): (s: nat)
      requires TablesOk() && d < numVertices && j < Degree(d)
      ensures s < 2 * numEdges
    {
      assert prefixSumDegree[globalOrder[d] + 1] <= prefixSumDegree[numVertices];
      prefixSumDegree[globalOrder[d]] + j
    }

    /** Slots taking part in the intersection at depth d: the negative kernel drops the owned negative edges. */
    function NumJoin(d: nat): int
      requires TablesOk() && d < numVertices
    {
      Degree(d) - if variant.Negative? then numNegativePerVertex[globalOrder[d]] else 0
    }

    /** Slots a pivot may come from: the negative kernel keeps away from incoming negative edges. */
    function NumPivots(d: nat): int
      requires TablesOk() && d < numVertices
    {
      NumJoin(d) - if variant.Negative? then negativeDegree[d] else 0
    }

    /** The list ids of the joined slots at depth d. */
    function JoinEids(d: nat): (es: seq<nat>)
      requires TablesOk() && d < numVertices && 0 <= NumJoin(d) <= Degree(d)
      ensures |es| == NumJoin(d)
      ensures forall j :: 0 <= j < NumJoin(d) ==> es[j] == eidList[Slot(d, j)]
    {
      seq(NumJoin(d), j requires 0 <= j < NumJoin(d) => eidList[Slot(d, j)])
    }

    function JoinNegative(d: nat): (negative: seq<bool>)
      requires TablesOk() && d < numVertices && 0 <= NumJoin(d) <= Degree(d)
      ensures |negative| == NumJoin(d)
      ensures forall j :: 0 <= j < NumJoin(d) ==>
                (negative[j] <==> variant.Negative? && edgeTypeList[Slot(d, j)].NEGATIVE?)
    {
      seq(NumJoin(d), j requires 0 <= j < NumJoin(d) => variant.Negative? && edgeTypeList[Slot(d, j)].NEGATIVE?)
    }

    function NumConstraints(d: nat): nat
      requires TablesOk() && d < numVertices
    {
      if variant.Constraint? then constraintPtr[globalOrder[d] + 1] - constraintPtr[globalOrder[d]] else 0
    }

    /** The depth whose value the i-th NOT_EQUAL constraint of depth d compares with. */
    function ConstraintRank(d: nat, i: nat): nat
      requires TablesOk() && d < numVertices && i < NumConstraints(d)
    {
      assert constraintPtr[globalOrder[d] + 1] <= constraintPtr[numVertices];
      constraints[constraintPtr[globalOrder[d]] + i]
    }

    /**
     * At depth d: some slot can be the pivot, regular slots come first, and every joined slot and constraint looks at
     * values matched earlier.
     */
    ghost predicate SlotsOkAt(d: nat)
      requires TablesOk() && d < numVertices
    {
      && 1 <= NumPivots(d) <= NumJoin(d) <= Degree(d)
      && SlotsLookBack(JoinEids(d), numEdges, lv0Dep, d)
      && (forall j :: 0 <= j < NumJoin(d) ==> (JoinNegative(d)[j] <==> j >= NumPivots(d)))
      && (forall i :: 0 <= i < NumConstraints(d) ==> ConstraintRank(d, i) < d)
    }

    ghost predicate SubtasksOk() {
      && AllValid(shards)
      && forall k :: 0 <= k < |subtasks| ==> ShardIdxsOk(subtasks[k])
    }

    ghost predicate Ready() {
      && TablesOk()
      && (forall d :: 0 <= d < numVertices ==> SlotsOkAt(d))
      && SubtasksOk()
    }

    // ----- candidates -----

    ghost predicate ShardIdxsOk(shardIdxs: seq<nat>) {
      |shardIdxs| == 2 * numEdges && forall s :: 0 <= s < |shardIdxs| ==> shardIdxs[s] < |shards|
    }

    /** The shards behind the joined slots of depth d in a subtask with the given shard indexes. */
    function Joined(shardIdxs: seq<nat>, d: nat): (joined: seq<Shard>)
      requires TablesOk() && ShardIdxsOk(shardIdxs) && AllValid(shards)
      requires d < numVertices && 0 <= NumJoin(d) <= Degree(d)
      ensures |joined| == NumJoin(d)
      ensures forall j :: 0 <= j < NumJoin(d) ==> joined[j] == shards[shardIdxs[Slot(d, j)]]
      ensures AllValid(joined)
    {
      seq(NumJoin(d), j requires 0 <= j < NumJoin(d) => shards[shardIdxs[Slot(d, j)]])
    }

    ghost function Lists(k: nat, a: seq<nat>): (lists: seq<seq<nat>>)
      requires TablesOk() && SubtasksOk() && k < |subtasks| && |a| < numVertices && SlotsOkAt(|a|)
      ensures |lists| == NumJoin(|a|)
    {
      SlotLists(JoinEids(|a|), Joined(subtasks[k], |a|), numEdges, lv0Dep, a)
    }

    /** The values NOT_EQUAL constraints forbid at depth |a|. */
    function CompareValues(a: seq<nat>): (values: seq<nat>)
      requires TablesOk() && |a| < numVertices && SlotsOkAt(|a|)
      ensures |values| == NumConstraints(|a|)
      ensures forall i :: 0 <= i < NumConstraints(|a|) ==> values[i] == a[ConstraintRank(|a|, i)]
    {
      seq(NumConstraints(|a|), i requires 0 <= i < NumConstraints(|a|) => a[ConstraintRank(|a|, i)])
    }

    /** The slots joined after matching a. */
    function JoinAfter(a: seq<nat>): (join: Join)
      requires TablesOk() && |a| < numVertices && SlotsOkAt(|a|)
      ensures join.Ok() && |join.es| == NumJoin(|a|)
    {
      Join(JoinEids(|a|), JoinNegative(|a|), NumPivots(|a|), CompareValues(a))
    }

    /** The values that extend the matched prefix a in subtask k. */
    ghost function Extensions(k: nat, a: seq<nat>): iset<nat>
      requires TablesOk() && SubtasksOk() && k < |subtasks| && |a| < numVertices && SlotsOkAt(|a|)
    {
      JoinAfter(a).Passing(Lists(k, a))
    }

    ghost function Candidates(k: nat, a: seq<nat>): seq<nat> {
      if Ready() && k < |subtasks| && |a| < numVertices then
        assert SlotsOkAt(|a|);
        FilterIn(Extensions(k, a), seq(VERTICES_PER_GRID, i => i))
      else []
    }

    /** The search this launch performs. */
    ghost function TheSearch(): (s: Search)
      ensures s.depth == numVertices && s.numSubtasks == |subtasks| && s.tree == tree
      ensures forall k, a :: s.cand(k, a) == Candidates(k, a)
    {
      Search(numVertices, |subtasks|, tree, (k, a) => Candidates(k, a))
    }

    ghost predicate Valid() {
      && Ready()
      && TheSearch().Valid()
      && RootIdsOk()
    }

    /** The root ids are the children of node 0, in order. */
    ghost predicate RootIdsOk()
      requires tree.ShapeOk()
    {
      && |rootIds| == tree.NumChildren(0)
      && forall i {:trigger rootIds[i]} :: 0 <= i < |rootIds| ==> rootIds[i] == tree.Child(0, i)
    }

    /** The depth that loads list e, or numVertices when none does. */
    ghost function EidDepth(e: nat): nat {
      if exists d: nat :: LoadsAt(d, e) then var d: nat :| LoadsAt(d, e); d else numVertices
    }

    ghost predicate LoadsAt(d: nat, e: nat) {
      TablesOk() && d < numVertices && 0 <= NumJoin(d) <= Degree(d) && e in JoinEids(d)
    }

    // ----- what one block does at the root -----

    /** The list that drives the intersection after a in subtask k: the first shortest of the regular ones. */
    ghost function PivotList(k: nat, a: seq<nat>): seq<nat>
      requires TablesOk() && SubtasksOk() && k < |subtasks| && |a| < numVertices && SlotsOkAt(|a|)
    {
      Lists(k, a)[FirstShortest(Lists(k, a), NumPivots(|a|))]
    }

    /** The pivot list at the root of subtask k. */
    ghost function RootList(k: nat): seq<nat> {
      if Ready() && k < |subtasks| then
        assert SlotsOkAt(0);
        PivotList(k, [])
      else []
    }

    /** The values that may stand at the root of subtask k. */
    ghost function RootGood(k: nat): iset<nat> {
      if Ready() && k < |subtasks| then
        assert SlotsOkAt(0);
        Extensions(k, [])
      else iset{}
    }

    /** The root candidates that block b enumerates. */
    ghost function RootTodo(k: nat, b: nat): seq<nat> {
      FilterIn(RootGood(k), BlockShare(0, b, RootList(k)))
    }

    // ----- consequences -----

    /** List ids of different depths differ, so loading one depth leaves the others' arrays alone. */
    lemma {:induction false} JoinEidsDisjoint(d: nat, d': nat)
      requires TablesOk() && d < numVertices && d' < numVertices && d != d'
      requires 0 <= NumJoin(d) <= Degree(d) && 0 <= NumJoin(d') <= Degree(d')
      ensures forall j :: 0 <= j < NumJoin(d) ==> JoinEids(d)[j] !in JoinEids(d')
    {
      var v, w := globalOrder[d], globalOrder[d'];
      assert v != w;
      assert v < w ==> prefixSumDegree[v + 1] <= prefixSumDegree[w];
      assert w < v ==> prefixSumDegree[w + 1] <= prefixSumDegree[v];
      forall j, j' | 0 <= j < NumJoin(d) && 0 <= j' < NumJoin(d')
        ensures JoinEids(d)[j] != JoinEids(d')[j']
      {
        assert Slot(d, j) != Slot(d', j');
      }
    }

    lemma {:induction false} EidDepthIs(d: nat, e: nat)
      requires LoadsAt(d, e)
      ensures EidDepth(e) == d
    {
      var d' := EidDepth(e);
      if d' != d {
        JoinEidsDisjoint(d, d');
        assert false;
      }
    }

    /** Filtering any sorted list of ids that holds all passing values gives the candidates, up to order. */
    lemma {:induction false} FilterIsCandidates(k: nat, a: seq<nat>, vs: seq<nat>)
      requires Ready() && k < |subtasks| && |a| < numVertices && SlotsOkAt(|a|)
      requires StrictlySorted(vs)
      requires forall i :: 0 <= i < |vs| ==> vs[i] < VERTICES_PER_GRID
      requires forall v :: v in Extensions(k, a) ==> v in vs
      ensures SameElements(FilterIn(Extensions(k, a), vs), Candidates(k, a))
      ensures NoDup(FilterIn(Extensions(k, a), vs)) && NoDup(Candidates(k, a))
    {
      var all: seq<nat> := seq(VERTICES_PER_GRID, i => i);
      forall v | v in vs
        ensures v in all
      {
        assert all[v] == v;
      }
      FilterSame(Extensions(k, a), vs, all);
    }

    lemma {:induction false} ListsAreOk(k: nat, a: seq<nat>)
      requires TablesOk() && SubtasksOk() && k < |subtasks| && |a| < numVertices && SlotsOkAt(|a|)
      ensures ListsOk(Lists(k, a))
      ensures forall j :: 0 <= j < NumJoin(|a|) && JoinEids(|a|)[j] < numEdges ==> Lists(k, a)[j] != []
    {
      SlotListsOk(JoinEids(|a|), Joined(subtasks[k], |a|), numEdges, lv0Dep, a);
    }

    lemma {:induction false} CandidatesAre(k: nat, a: seq<nat>)
      requires Ready() && k < |subtasks| && |a| < numVertices && SlotsOkAt(|a|)
      ensures forall v: nat :: v in Candidates(k, a) <==> v in Extensions(k, a)
      ensures NoDup(Candidates(k, a))
    {
      ListsAreOk(k, a);
      assert ListOk(Lists(k, a)[0]);
      FilterIsCandidates(k, a, Lists(k, a)[0]);
      FilterElements(Extensions(k, a), Lists(k, a)[0]);
    }

    /** Subtasks with the same shards at depths below d have the same candidates there. */
    lemma {:induction false} SameShardsSameBelow(k: nat, k': nat, d: nat)
      requires TablesOk() && SubtasksOk() && k < |subtasks| && k' < |subtasks|
      requires forall i, j :: 0 <= i < d && i < numVertices && 0 <= j < Degree(i) ==>
                 subtasks[k][Slot(i, j)] == subtasks[k'][Slot(i, j)]
      ensures TheSearch().SameBelow(k, k', d)
    {
      forall a: seq<nat> | |a| < d
        ensures Candidates(k, a) == Candidates(k', a)
      {
        if Ready() && |a| < numVertices {
          assert SlotsOkAt(|a|);
          assert Joined(subtasks[k], |a|) == Joined(subtasks[k'], |a|);
        }
      }
    }
  }
}
