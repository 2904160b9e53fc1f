/** What the slot tables guarantee: a bijection between slots and edge ends, and the order of slots within a vertex. */
module SlotLayouts {
  import opened Sequences
  import opened QueryGraphs
  import opened Schedules
  import opened SlotTables

  /** A query with its tables. */
  ghost predicate Tabled(Q: QueryGraph, s: Schedule, T: Tables) {
    && Q.Valid() && |s.order| == |Q.vertices| && RanksAre(s.order, s.rank)
    && IsPermutation(TurnEdges(s.turns), |Q.edges|)
    && TablesAre(Q, s, T)
  }

  /** The slot of one end of the edge whose turn is i. */
  function SlotAt(T: Tables, i: nat, first: bool): nat
    requires i < |T.v1ListIdxs| && i < |T.v2ListIdxs|
  {
    if first then T.v1ListIdxs[i] else T.v2ListIdxs[i]
  }

  ghost function Ids(s: Schedule): seq<nat> {
    TurnEdges(s.turns)
  }

  lemma {:induction false} SlotFacts(Q: QueryGraph, s: Schedule, T: Tables, i: nat, first: bool)
    requires Tabled(Q, s, T) && i < |Q.edges|
    ensures |T.v1ListIdxs| == |T.v2ListIdxs| == |Q.edges| && Ids(s)[i] < |Q.edges|
    ensures SlotAt(T, i, first) == SlotOf(Q, Ids(s), i, EndOf(Q, Ids(s), i, first)) < 2 * |Q.edges|
    ensures SlotHolds(Q, s.rank, T.eidList, T.edgeTypeList, SlotAt(T, i, first), Ids(s)[i], EndOf(Q, Ids(s), i, first))
  {
    SlotBelow(Q, Ids(s), i, EndOf(Q, Ids(s), i, first));
    if first {
      assert T.v1ListIdxs[i] == SlotOf(Q, Ids(s), i, EndOf(Q, Ids(s), i, first));
    } else {
      assert T.v2ListIdxs[i] == SlotOf(Q, Ids(s), i, EndOf(Q, Ids(s), i, first));
    }
  }

  lemma {:induction false} SlotsAtDiffer(Q: QueryGraph, s: Schedule, T: Tables, i: nat, first: bool, j: nat,
                                         second: bool)
    requires Tabled(Q, s, T) && i < |Q.edges| && j < |Q.edges| && (i != j || first != second)
    ensures |T.v1ListIdxs| == |T.v2ListIdxs| == |Q.edges| && SlotAt(T, i, first) != SlotAt(T, j, second)
  {
    SlotFacts(Q, s, T, i, first);
    SlotFacts(Q, s, T, j, second);
    SlotsDiffer(Q, Ids(s), i, EndOf(Q, Ids(s), i, first), j, EndOf(Q, Ids(s), j, second));
  }

  lemma {:induction false} TwoHalves(a: seq<nat>, b: seq<nat>, n: nat)
    requires |a| == |b| == n && NoDup(a) && NoDup(b)
    requires forall i :: 0 <= i < n ==> a[i] < 2 * n && b[i] < 2 * n
    requires forall i, j :: 0 <= i < n && 0 <= j < n ==> a[i] != b[j]
    ensures IsPermutation(a + b, 2 * n)
  {
    NoDupConcat(a, b);
  }

  /** The slots of the two ends together are exactly 0 to 2E-1. */
  lemma {:induction false} SlotsArePermutation(Q: QueryGraph, s: Schedule, T: Tables)
    requires Tabled(Q, s, T)
    ensures IsPermutation(T.v1ListIdxs + T.v2ListIdxs, 2 * |Q.edges|)
  {
    var n := |Q.edges|;
    SlotFacts(Q, s, T, 0, true);
    forall i | 0 <= i < n
      ensures T.v1ListIdxs[i] < 2 * n && T.v2ListIdxs[i] < 2 * n
    {
      SlotFacts(Q, s, T, i, true);
      SlotFacts(Q, s, T, i, false);
    }
    forall i, j | 0 <= i < n && 0 <= j < n
      ensures T.v1ListIdxs[i] != T.v2ListIdxs[j]
      ensures i != j ==> T.v1ListIdxs[i] != T.v1ListIdxs[j] && T.v2ListIdxs[i] != T.v2ListIdxs[j]
    {
      SlotsAtDiffer(Q, s, T, i, true, j, false);
      if i != j {
        SlotsAtDiffer(Q, s, T, i, true, j, true);
        SlotsAtDiffer(Q, s, T, i, false, j, false);
      }
    }
    TwoHalves(T.v1ListIdxs, T.v2ListIdxs, n);
  }

  lemma {:induction false} InEither(a: seq<nat>, b: seq<nat>, n: nat, x: nat) returns (i: nat, first: bool)
    requires |a| == |b| == n && IsPermutation(a + b, 2 * n) && x < 2 * n
    ensures i < n && x == if first then a[i] else b[i]
  {
    PermutationReaches(a + b, 2 * n);
    assert x in a + b;
    var k :| 0 <= k < |a + b| && (a + b)[k] == x;
    i, first := if k < n then k else k - n, k < n;
  }

  /** Every slot belongs to one end of one edge. */
  lemma {:induction false} SlotIsSomeones(Q: QueryGraph, s: Schedule, T: Tables, slot: nat)
    returns (i: nat, first: bool)
    requires Tabled(Q, s, T) && slot < 2 * |Q.edges|
    ensures i < |Q.edges| == |T.v1ListIdxs| == |T.v2ListIdxs| && SlotAt(T, i, first) == slot
  {
    SlotsArePermutation(Q, s, T);
    SlotFacts(Q, s, T, 0, true);
    i, first := InEither(T.v1ListIdxs, T.v2ListIdxs, |Q.edges|, slot);
  }

  /** Every list id is used by exactly one slot. */
  lemma {:induction false} EidsArePermutation(Q: QueryGraph, s: Schedule, T: Tables)
    requires Tabled(Q, s, T)
    ensures IsPermutation(T.eidList, 2 * |Q.edges|)
  {
    var n := 2 * |Q.edges|;
    forall x | 0 <= x < n
      ensures T.eidList[x] < n
    {
      var i, first := SlotIsSomeones(Q, s, T, x);
      SlotFacts(Q, s, T, i, first);
    }
    forall x, y | 0 <= x < y < n
      ensures T.eidList[x] != T.eidList[y]
    {
      EidsDiffer(Q, s, T, x, y);
    }
  }

  lemma {:induction false} EidsDiffer(Q: QueryGraph, s: Schedule, T: Tables, x: nat, y: nat)
    requires Tabled(Q, s, T) && x < y < 2 * |Q.edges|
    ensures T.eidList[x] != T.eidList[y]
  {
    var i, first := SlotIsSomeones(Q, s, T, x);
    var j, second := SlotIsSomeones(Q, s, T, y);
    SlotFacts(Q, s, T, i, first);
    SlotFacts(Q, s, T, j, second);
    var e := Q.edges[Ids(s)[i]];
    RanksDiffer(s.order, s.rank, e.v1, e.v2);
    if i != j {
      assert Ids(s)[i] != Ids(s)[j];
    }
  }

  // ----- segments -----

  lemma {:induction false} SegmentIff(Q: QueryGraph, ids: seq<nat>, i: nat, w: nat, v: nat)
    requires IsPermutation(ids, |Q.edges|) && i < |ids| && Q.edges[ids[i]].Touches(w)
    ensures DegreeSum(Q.edges, v) <= SlotOf(Q, ids, i, w) < DegreeSum(Q.edges, v + 1) <==> w == v
  {
    SlotInSegment(Q, ids, i, w);
    if v < w {
      DegreeSumMono(Q.edges, v + 1, w);
    } else if w < v {
      DegreeSumMono(Q.edges, w + 1, v);
    }
  }

  /** The slots of vertex v are those between its prefix sum and the next. */
  lemma {:induction false} SlotOwner(Q: QueryGraph, s: Schedule, T: Tables, v: nat, i: nat, first: bool)
    requires Tabled(Q, s, T) && v < |Q.vertices| && i < |Q.edges|
    ensures |T.v1ListIdxs| == |T.v2ListIdxs| == |Q.edges| && Ids(s)[i] < |Q.edges|
    ensures T.prefixSumDegree[v] <= SlotAt(T, i, first) < T.prefixSumDegree[v + 1] <==> EndOf(Q, Ids(s), i, first) == v
  {
    SlotFacts(Q, s, T, i, first);
    SegmentIff(Q, Ids(s), i, EndOf(Q, Ids(s), i, first), v);
    assert T.prefixSumDegree[v] == DegreeSum(Q.edges, v) && T.prefixSumDegree[v + 1] == DegreeSum(Q.edges, v + 1);
  }

  /** Regular slots come first in a vertex's segment. */
  lemma {:induction false} RegularSlotsFirst(Q: QueryGraph, s: Schedule, T: Tables, v: nat, i: nat, first: bool)
    requires Tabled(Q, s, T) && v < |Q.vertices| && i < |Q.edges| == |T.v1ListIdxs| == |T.v2ListIdxs|
    requires Ids(s)[i] < |Q.edges| && EndOf(Q, Ids(s), i, first) == v
    ensures Q.edges[Ids(s)[i]].kind.REGULAR? <==> SlotAt(T, i, first) < T.prefixSumDegree[v] + Count(Q, v, true, Ids(s))
  {
    SlotFacts(Q, s, T, i, first);
    SlotInSegment(Q, Ids(s), i, v);
    assert T.prefixSumDegree[v] == DegreeSum(Q.edges, v);
  }

  // ----- negative edges -----

  ghost predicate NoOptionalEdges(Q: QueryGraph) {
    forall e {:trigger Q.edges[e]} :: 0 <= e < |Q.edges| ==> !Q.edges[e].kind.OPTIONAL?
  }

  /** Turns are taken in the order of the earlier endpoints. */
  ghost predicate TurnsByEarlierEnd(Q: QueryGraph, s: Schedule)
    requires Q.Valid() && |s.rank| == |Q.vertices|
  {
    && |s.turns| == |Q.edges|
    && (forall i {:trigger s.turns[i]} :: 0 <= i < |s.turns| ==>
          s.turns[i].edge < |Q.edges| && s.turns[i].order == s.rank[EarlierEnd(Q, s.rank, s.turns[i].edge)])
    && (forall i, j :: 0 <= i < j < |s.turns| ==> s.turns[i].order <= s.turns[j].order)
  }

  lemma {:induction false} ReorderedTurns(Q: QueryGraph, rank: seq<nat>, order: seq<nat>, s: Schedule)
    requires Q.Valid() && |order| == |Q.vertices| && RanksAre(order, rank) && Reordered(Q, order, rank, s)
    requires NoOptionalEdges(Q)
    ensures TurnsByEarlierEnd(Q, s)
  {
    TurnsArePermutation(Q, rank, order, s);
    forall i {:trigger s.turns[i]} | 0 <= i < |s.turns|
      ensures s.turns[i].edge < |Q.edges| && s.turns[i].order == s.rank[EarlierEnd(Q, s.rank, s.turns[i].edge)]
    {
      var e := s.turns[i].edge;
      OwnerPrecedes(Q, rank, order, s, e);
      assert Owner(Q, rank, e) == s.order[s.turns[i].order];
      RankAt(s.order, s.rank, s.turns[i].order);
    }
  }

  lemma {:induction false} NoneThere(good: iset<nat>, vs: seq<nat>)
    requires forall i {:trigger vs[i]} :: 0 <= i < |vs| ==> vs[i] !in good
    ensures FilterIn(good, vs) == []
    decreases |vs|
  {
    if vs != [] {
      NoneThere(good, vs[1..]);
    }
  }

  lemma {:induction false} EndCountSplit(Q: QueryGraph, s: Schedule, v: nat, ids: seq<nat>)
    requires Q.Valid() && |s.order| == |Q.vertices| && RanksAre(s.order, s.rank) && NoOptionalEdges(Q)
    ensures Count(Q, v, false, ids) == EndCount(Q, s.rank, NEGATIVE, false, v, ids)
            + EndCount(Q, s.rank, NEGATIVE, true, v, ids)
  {
    FilterSplit(EndingAt(Q, s.rank, NEGATIVE, false, v), EndingAt(Q, s.rank, NEGATIVE, true, v), Slotted(Q, v, false),
          ids);
  }

  lemma {:induction false} EarlierIsEarlier(Q: QueryGraph, s: Schedule, e: nat)
    requires Q.Valid() && |s.order| == |Q.vertices| && RanksAre(s.order, s.rank) && e < |Q.edges|
    ensures s.rank[EarlierEnd(Q, s.rank, e)] < s.rank[LaterEnd(Q, s.rank, e)]
  {
    RanksDiffer(s.order, s.rank, Q.edges[e].v1, Q.edges[e].v2);
  }

  /** Before an incoming edge of v takes its turn, v has owned nothing yet. */
  lemma {:induction false} NoneOwnedBefore(Q: QueryGraph, s: Schedule, v: nat, i: nat)
    requires Q.Valid() && |s.order| == |Q.vertices| && RanksAre(s.order, s.rank) && TurnsByEarlierEnd(Q, s)
    requires i < |Q.edges| && LaterEnd(Q, s.rank, s.turns[i].edge) == v
    ensures EndCount(Q, s.rank, NEGATIVE, true, v, Ids(s)[..i]) == 0
  {
    forall j {:trigger Ids(s)[..i][j]} | 0 <= j < i
      ensures Ids(s)[..i][j] !in EndingAt(Q, s.rank, NEGATIVE, true, v)
    {
      assert s.turns[j].order == s.rank[EarlierEnd(Q, s.rank, s.turns[j].edge)];
      assert s.turns[i].order == s.rank[EarlierEnd(Q, s.rank, s.turns[i].edge)];
      EarlierIsEarlier(Q, s, s.turns[i].edge);
    }
    NoneThere(EndingAt(Q, s.rank, NEGATIVE, true, v), Ids(s)[..i]);
  }

  /** Once v owns an edge, all its incoming edges have had their turn. */
  lemma {:induction false} AllIncomingBefore(Q: QueryGraph, s: Schedule, v: nat, i: nat)
    requires Q.Valid() && |s.order| == |Q.vertices| && RanksAre(s.order, s.rank) && TurnsByEarlierEnd(Q, s)
    requires i < |Q.edges| && EarlierEnd(Q, s.rank, s.turns[i].edge) == v
    ensures EndCount(Q, s.rank, NEGATIVE, false, v, Ids(s)[..i]) == EndCount(Q, s.rank, NEGATIVE, false, v, Ids(s))
  {
    var ids := Ids(s);
    forall j {:trigger ids[i..][j]} | 0 <= j < |ids[i..]|
      ensures ids[i..][j] !in EndingAt(Q, s.rank, NEGATIVE, false, v)
    {
      var e := s.turns[i + j].edge;
      assert ids[i..][j] == e;
      assert s.turns[i + j].order == s.rank[EarlierEnd(Q, s.rank, e)];
      assert s.turns[i].order == s.rank[EarlierEnd(Q, s.rank, s.turns[i].edge)];
      EarlierIsEarlier(Q, s, e);
    }
    NoneThere(EndingAt(Q, s.rank, NEGATIVE, false, v), ids[i..]);
    assert ids == ids[..i] + ids[i..];
    FilterAppend(EndingAt(Q, s.rank, NEGATIVE, false, v), ids[..i], ids[i..]);
  }

  lemma {:induction false} EndCountGrows(Q: QueryGraph, s: Schedule, v: nat, i: nat)
    requires Q.Valid() && |s.rank| == |Q.vertices| && i < |Ids(s)| && Ids(s)[i] < |Q.edges|
    requires Q.edges[Ids(s)[i]].kind.NEGATIVE? && LaterEnd(Q, s.rank, Ids(s)[i]) == v
    ensures EndCount(Q, s.rank, NEGATIVE, false, v, Ids(s)[..i]) < EndCount(Q, s.rank, NEGATIVE, false, v, Ids(s))
  {
    var ids, good := Ids(s), EndingAt(Q, s.rank, NEGATIVE, false, v);
    FilterSnoc(good, ids, i);
    assert ids == ids[..i + 1] + ids[i + 1..];
    FilterAppend(good, ids[..i + 1], ids[i + 1..]);
  }

  /** The numbers the kernel subtracts split v's segment into regular, incoming negative and owned negative slots. */
  lemma {:induction false} SegmentSizes(Q: QueryGraph, s: Schedule, T: Tables, v: nat)
    requires Tabled(Q, s, T) && NoOptionalEdges(Q) && v < |Q.vertices|
    ensures T.numNegativePerVertex[v] == EndCount(Q, s.rank, NEGATIVE, true, v, Ids(s))
    ensures T.negativeDegree[s.rank[v]] == EndCount(Q, s.rank, NEGATIVE, false, v, Ids(s))
    ensures T.prefixSumDegree[v] + Count(Q, v, true, Ids(s)) + T.negativeDegree[s.rank[v]] + T.numNegativePerVertex[v]
         == T.prefixSumDegree[v + 1]
  {
    assert Ids(s)[..|Q.edges|] == Ids(s);
    assert T.numNegativePerVertex[v] == EndCount(Q, s.rank, NEGATIVE, true, Iota(|Q.vertices|)[v], Ids(s));
    assert T.negativeDegree[s.rank[v]] == EndCount(Q, s.rank, NEGATIVE, false, s.order[s.rank[v]], Ids(s));
    EndCountSplit(Q, s, v, Ids(s));
    CountsAreDegree(Q, v, Ids(s));
    assert T.prefixSumDegree[v] == DegreeSum(Q.edges, v) && T.prefixSumDegree[v + 1] == DegreeSum(Q.edges, v + 1);
  }

  /** Among the negative slots of v, those where v is the later endpoint come first. */
  lemma {:induction false} IncomingNegativesFirst(Q: QueryGraph, s: Schedule, T: Tables, v: nat, i: nat, first: bool)
    requires Tabled(Q, s, T) && NoOptionalEdges(Q) && TurnsByEarlierEnd(Q, s) && v < |Q.vertices| && i < |Q.edges|
    requires Ids(s)[i] < |Q.edges| && Q.edges[Ids(s)[i]].kind.NEGATIVE? && EndOf(Q, Ids(s), i, first) == v
    ensures |T.v1ListIdxs| == |T.v2ListIdxs| == |Q.edges|
    ensures SlotAt(T, i, first) + T.numNegativePerVertex[v] < T.prefixSumDegree[v + 1] <==>
              LaterEnd(Q, s.rank, Ids(s)[i]) == v
  {
    SlotFacts(Q, s, T, i, first);
    SegmentSizes(Q, s, T, v);
    EndCountSplit(Q, s, v, Ids(s)[..i]);
    assert T.prefixSumDegree[v] == DegreeSum(Q.edges, v);
    assert s.turns[i].edge == Ids(s)[i];
    if LaterEnd(Q, s.rank, Ids(s)[i]) == v {
      NoneOwnedBefore(Q, s, v, i);
      EndCountGrows(Q, s, v, i);
    } else {
      AllIncomingBefore(Q, s, v, i);
    }
  }
}
