/** A launch filled from the scheduler's tables, and what its matches are in terms of the query's edges. */
module LaunchTables {
  import opened Sequences
  import opened Shards
  import opened SearchTrees
  import opened Launches
  import opened QueryGraphs
  import opened Schedules
  import opened SlotTables
  import opened SlotLayouts

  /** The header's query tables are those of the scheduler. */
  ghost predicate FromTables(L: Launch, Q: QueryGraph, s: Schedule, T: Tables) {
    && L.numVertices == |Q.vertices| && L.numEdges == |Q.edges|
    && L.globalOrder == T.globalOrder && L.prefixSumDegree == T.prefixSumDegree
    && L.eidList == T.eidList && L.edgeTypeList == T.edgeTypeList && L.lv0Dep == T.lv0Dep
    && L.numNegativePerVertex == T.numNegativePerVertex && L.negativeDegree == T.negativeDegree
    && L.constraintPtr == T.constraintPtr && L.constraints == T.constraints
  }

  ghost predicate AllRegular(Q: QueryGraph) {
    forall e {:trigger Q.edges[e]} :: 0 <= e < |Q.edges| ==> Q.edges[e].kind.REGULAR?
  }

  ghost predicate RegularAtEveryVertex(Q: QueryGraph) {
    forall v {:trigger Q.vertices[v]} :: 0 <= v < |Q.vertices| ==> HasRegular(Q, v)
  }

  ghost predicate HasRegular(Q: QueryGraph, v: nat) {
    exists e: nat {:trigger Q.edges[e]} :: e < |Q.edges| && Q.edges[e].kind.REGULAR? && Q.edges[e].Touches(v)
  }

  /** The queries each device kernel is made for. */
  ghost predicate VariantFits(variant: Variant, Q: QueryGraph) {
    match variant
    case Basic => AllRegular(Q)
    case Constraint => AllRegular(Q) && DistinctConstraints(Q)
    case Negative => NoOptionalEdges(Q) && RegularAtEveryVertex(Q)
  }

  lemma {:induction false} TablesFit(L: Launch, Q: QueryGraph, s: Schedule, T: Tables)
    requires Tabled(Q, s, T) && FromTables(L, Q, s, T)
    ensures L.TablesOk()
  {
    EidsArePermutation(Q, s, T);
    Handshake(Q.edges, |Q.vertices|);
    forall v, w | 0 <= v <= w <= |Q.vertices|
      ensures T.prefixSumDegree[v] <= T.prefixSumDegree[w]
    {
      DegreeSumMono(Q.edges, v, w);
      assert T.prefixSumDegree[v] == DegreeSum(Q.edges, v) && T.prefixSumDegree[w] == DegreeSum(Q.edges, w);
    }
    assert Q.edges[0].v1 < |Q.vertices| && Q.edges[0].v2 < |Q.vertices|;
  }

  /** The edge end behind slot j of depth d. */
  lemma {:induction false} SlotEnd(L: Launch, Q: QueryGraph, s: Schedule, T: Tables, d: nat, j: nat)
    returns (i: nat, first: bool)
    requires Tabled(Q, s, T) && FromTables(L, Q, s, T) && L.TablesOk() && d < L.numVertices && j < L.Degree(d)
    ensures i < |Q.edges| == |T.v1ListIdxs| == |T.v2ListIdxs| && Ids(s)[i] < |Q.edges|
    ensures SlotAt(T, i, first) == L.Slot(d, j) && EndOf(Q, Ids(s), i, first) == s.order[d]
    ensures L.eidList[L.Slot(d, j)] == EidAt(Q, s.rank, Ids(s)[i], s.order[d])
    ensures L.edgeTypeList[L.Slot(d, j)] == Q.edges[Ids(s)[i]].kind
  {
    i, first := SlotIsSomeones(Q, s, T, L.Slot(d, j));
    SlotOwner(Q, s, T, s.order[d], i, first);
    SlotFacts(Q, s, T, i, first);
  }

  /** How the three parts of a vertex's segment relate to what the kernel joins. */
  lemma {:induction false} JoinSizes(L: Launch, Q: QueryGraph, s: Schedule, T: Tables, d: nat)
    requires Tabled(Q, s, T) && FromTables(L, Q, s, T) && L.TablesOk() && d < L.numVertices && VariantFits(L.variant, Q)
    ensures L.NumPivots(d) == Count(Q, s.order[d], true, Ids(s))
    ensures L.NumPivots(d) <= L.NumJoin(d) <= L.Degree(d)
  {
    var v := s.order[d];
    if L.variant.Negative? {
      SegmentSizes(Q, s, T, v);
      RankAt(s.order, s.rank, d);
    } else {
      CountsAreDegree(Q, v, Ids(s));
      NoneThere(Slotted(Q, v, false), Ids(s));
      assert T.prefixSumDegree[v] == DegreeSum(Q.edges, v) && T.prefixSumDegree[v + 1] == DegreeSum(Q.edges, v + 1);
    }
  }

  /** What slot j of depth d is: its kind by its place in the segment, and whether its list id looks back. */
  lemma {:induction false} SlotKind(L: Launch, Q: QueryGraph, s: Schedule, T: Tables, d: nat, j: nat)
    returns (i: nat, first: bool)
    requires Tabled(Q, s, T) && TurnsByEarlierEnd(Q, s) && FromTables(L, Q, s, T) && L.TablesOk()
             && VariantFits(L.variant, Q)
    requires d < L.numVertices && j < L.Degree(d)
    ensures i < |Q.edges| == |T.v1ListIdxs| == |T.v2ListIdxs| && Ids(s)[i] < |Q.edges|
    ensures SlotAt(T, i, first) == L.Slot(d, j) && EndOf(Q, Ids(s), i, first) == s.order[d]
    ensures L.eidList[L.Slot(d, j)] == EidAt(Q, s.rank, Ids(s)[i], s.order[d])
    ensures L.edgeTypeList[L.Slot(d, j)] == Q.edges[Ids(s)[i]].kind
    ensures j < L.NumPivots(d) <==> Q.edges[Ids(s)[i]].kind.REGULAR?
    ensures j < L.NumJoin(d) ==> Q.edges[Ids(s)[i]].kind.REGULAR? || LaterEnd(Q, s.rank, Ids(s)[i]) == s.order[d]
    ensures j >= L.NumJoin(d) ==> Q.edges[Ids(s)[i]].kind.NEGATIVE? && EarlierEnd(Q, s.rank, Ids(s)[i]) == s.order[d]
  {
    i, first := SlotEnd(L, Q, s, T, d, j);
    JoinSizes(L, Q, s, T, d);
    RegularSlotsFirst(Q, s, T, s.order[d], i, first);
    if L.variant.Negative? && Q.edges[Ids(s)[i]].kind.NEGATIVE? {
      IncomingNegativesFirst(Q, s, T, s.order[d], i, first);
    } else {
      assert Q.edges[Ids(s)[i]].kind.REGULAR?;
    }
  }

  lemma {:induction false} SomePivot(L: Launch, Q: QueryGraph, s: Schedule, d: nat)
    requires Q.Valid() && |s.order| == |Q.vertices| && RanksAre(s.order, s.rank) && IsPermutation(Ids(s), |Q.edges|)
    requires VariantFits(L.variant, Q) && d < |s.order|
    ensures Count(Q, s.order[d], true, Ids(s)) >= 1
  {
    var v := s.order[d];
    CountsAreDegree(Q, v, Ids(s));
    assert Q.vertices[v].degree >= 1;
    if L.variant.Negative? {
      assert HasRegular(Q, v);
      var e: nat :| e < |Q.edges| && Q.edges[e].kind.REGULAR? && Q.edges[e].Touches(v);
      PermutationReaches(Ids(s), |Q.edges|);
      FilterNoDup(Slotted(Q, v, true), Ids(s));
      assert e in FilterIn(Slotted(Q, v, true), Ids(s));
    } else {
      NoneThere(Slotted(Q, v, false), Ids(s));
    }
  }

  lemma {:induction false} LooksBackAt(L: Launch, Q: QueryGraph, s: Schedule, T: Tables, d: nat, j: nat)
    requires Tabled(Q, s, T) && TurnsByEarlierEnd(Q, s) && FromTables(L, Q, s, T) && L.TablesOk()
             && VariantFits(L.variant, Q)
    requires d < L.numVertices && j < L.Degree(d)
    ensures
      var e := L.eidList[L.Slot(d, j)];
      && e < 2 * L.numEdges
      && (e >= L.numEdges ==> L.lv0Dep[e - L.numEdges] < d)
  {
    var i, first := SlotKind(L, Q, s, T, d, j);
    EidLooksBack(Q, s, T, i, s.order[d]);
    RankAt(s.order, s.rank, d);
  }

  lemma {:induction false} EidLooksBack(Q: QueryGraph, s: Schedule, T: Tables, i: nat, v: nat)
    requires Tabled(Q, s, T) && i < |Q.edges| && Ids(s)[i] < |Q.edges| && Q.edges[Ids(s)[i]].Touches(v)
    ensures
      var e, eid := Ids(s)[i], EidAt(Q, s.rank, Ids(s)[i], v);
      && |T.lv0Dep| == |Q.edges|
      && T.lv0Dep[e] == s.rank[EarlierEnd(Q, s.rank, e)]
      && eid == (if v == EarlierEnd(Q, s.rank, e) then e else e + |Q.edges|)
      && (v != EarlierEnd(Q, s.rank, e) ==> T.lv0Dep[e] < s.rank[v])
  {
    EarlierIsEarlier(Q, s, Ids(s)[i]);
    assert T.lv0Dep[Ids(s)[i]] == s.rank[EarlierEnd(Q, s.rank, Ids(s)[i])];
  }

  /** The slice of constraints the kernel reads at depth d. */
  lemma {:induction false} ConstraintSlice(L: Launch, Q: QueryGraph, s: Schedule, T: Tables, d: nat)
    requires Tabled(Q, s, T) && FromTables(L, Q, s, T) && L.TablesOk() && d < L.numVertices && L.variant.Constraint?
    ensures L.NumConstraints(d) == |ComparedWith(Q, s.rank, s.order[d], |Q.constraints|)|
    ensures forall i :: 0 <= i < L.NumConstraints(d) ==>
              L.ConstraintRank(d, i) == ComparedWith(Q, s.rank, s.order[d], |Q.constraints|)[i]
  {
    var v := s.order[d];
    assert SliceAt(Q, s.rank, T, v);
  }

  /** A joined slot looks at a value already bound, and is negated exactly when it is no pivot. */
  lemma {:induction false} SlotFits(L: Launch, Q: QueryGraph, s: Schedule, T: Tables, d: nat, j: nat)
    requires Tabled(Q, s, T) && TurnsByEarlierEnd(Q, s) && FromTables(L, Q, s, T) && L.TablesOk()
             && VariantFits(L.variant, Q)
    requires d < L.numVertices && 0 <= L.NumJoin(d) <= L.Degree(d) && j < L.NumJoin(d)
    ensures L.JoinEids(d)[j] < 2 * L.numEdges
    ensures L.JoinEids(d)[j] >= L.numEdges ==> L.lv0Dep[L.JoinEids(d)[j] - L.numEdges] < d
    ensures L.JoinNegative(d)[j] <==> j >= L.NumPivots(d)
  {
    LooksBackAt(L, Q, s, T, d, j);
    NegatedAt(L, Q, s, T, d, j);
    assert L.JoinEids(d)[j] == L.eidList[L.Slot(d, j)];
  }

  lemma {:induction false} NegatedAt(L: Launch, Q: QueryGraph, s: Schedule, T: Tables, d: nat, j: nat)
    requires Tabled(Q, s, T) && TurnsByEarlierEnd(Q, s) && FromTables(L, Q, s, T) && L.TablesOk()
             && VariantFits(L.variant, Q)
    requires d < L.numVertices && 0 <= L.NumJoin(d) <= L.Degree(d) && j < L.NumJoin(d)
    ensures L.JoinNegative(d)[j] <==> j >= L.NumPivots(d)
  {
    var i, first := SlotKind(L, Q, s, T, d, j);
    assert L.JoinNegative(d)[j] <==> L.variant.Negative? && Q.edges[Ids(s)[i]].kind.NEGATIVE?;
  }

  /** The constraints read at depth d compare with values already bound. */
  lemma {:induction false} ConstraintsLookBack(L: Launch, Q: QueryGraph, s: Schedule, T: Tables, d: nat)
    requires Tabled(Q, s, T) && FromTables(L, Q, s, T) && L.TablesOk() && VariantFits(L.variant, Q) && d < L.numVertices
    ensures forall i :: 0 <= i < L.NumConstraints(d) ==> L.ConstraintRank(d, i) < d
  {
    if L.variant.Constraint? {
      ConstraintSlice(L, Q, s, T, d);
      ComparesBackward(Q, s.order, s.rank);
      RankAt(s.order, s.rank, d);
    }
  }

  /** At every depth the kernel finds a regular pivot and only looks at values already bound. */
  lemma {:induction false} SlotsFit(L: Launch, Q: QueryGraph, s: Schedule, T: Tables, d: nat)
    requires Tabled(Q, s, T) && TurnsByEarlierEnd(Q, s) && FromTables(L, Q, s, T) && L.TablesOk()
             && VariantFits(L.variant, Q)
    requires d < L.numVertices
    ensures L.SlotsOkAt(d)
  {
    JoinSizes(L, Q, s, T, d);
    SomePivot(L, Q, s, d);
    ConstraintsLookBack(L, Q, s, T, d);
    forall j: nat | j < L.NumJoin(d)
      ensures L.JoinEids(d)[j] < 2 * L.numEdges
      ensures L.JoinEids(d)[j] >= L.numEdges ==> L.lv0Dep[L.JoinEids(d)[j] - L.numEdges] < d
      ensures L.JoinNegative(d)[j] <==> j >= L.NumPivots(d)
    {
      SlotFits(L, Q, s, T, d, j);
    }
  }
}
