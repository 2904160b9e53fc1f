/** The global kernel tables: two slots per edge in one CSR array over the query vertices, and the constraint slices. */
module SlotTables {
  import opened Machine
  import opened Sequences
  import opened QueryGraphs
  import opened Schedules

  datatype Tables = Tables(
    globalOrder: seq<nat>,
    prefixSumDegree: seq<nat>,
    eidList: seq<nat>,
    edgeTypeList: seq<EdgeKind>,
    lv0Dep: seq<nat>,
    v1ListIdxs: seq<nat>,
    v2ListIdxs: seq<nat>,
    numOptionalPerVertex: seq<nat>,
    numNegativePerVertex: seq<nat>,
    negativeDegree: seq<nat>,
    constraintPtr: seq<nat>,
    constraints: seq<nat>
  )

  // ----- prefix sums of degrees -----

  /** Sum of the degrees of the vertices before n. */
  ghost function DegreeSum(edges: seq<QEdge>, n: nat): nat {
    if n == 0 then 0 else DegreeSum(edges, n - 1) + Degree(edges, n - 1)
  }

  lemma {:induction false} DegreeSumSnoc(edges: seq<QEdge>, e: QEdge, n: nat)
    requires e.v1 != e.v2
    ensures DegreeSum(edges + [e], n) == DegreeSum(edges, n) + (if e.v1 < n then 1 else 0) + (if e.v2 < n then 1 else 0)
  {
    if n > 0 {
      DegreeSumSnoc(edges, e, n - 1);
      DegreeSnoc(edges, e, n - 1);
    }
  }

  lemma {:induction false} NoEdgesNoDegree(n: nat)
    ensures DegreeSum([], n) == 0
  {
    if n > 0 {
      NoEdgesNoDegree(n - 1);
      assert Iota(0) == [];
    }
  }

  /** The degrees add up to twice the number of edges. */
  lemma {:induction false} Handshake(edges: seq<QEdge>, n: nat)
    requires forall e {:trigger edges[e]} :: 0 <= e < |edges| ==>
               edges[e].v1 < n && edges[e].v2 < n && edges[e].v1 != edges[e].v2
    ensures DegreeSum(edges, n) == 2 * |edges|
    decreases |edges|
  {
    if edges == [] {
      NoEdgesNoDegree(n);
    } else {
      var last := |edges| - 1;
      Handshake(edges[..last], n);
      assert edges == edges[..last] + [edges[last]];
      DegreeSumSnoc(edges[..last], edges[last], n);
    }
  }

  ghost predicate SumsAre(edges: seq<QEdge>, prefix: seq<nat>) {
    forall v {:trigger prefix[v]} :: 0 <= v < |prefix| ==> prefix[v] == DegreeSum(edges, v)
  }

  ghost predicate PrefixOk(Q: QueryGraph, prefix: seq<nat>) {
    |prefix| == |Q.vertices| + 1 && SumsAre(Q.edges, prefix)
  }

  lemma {:induction false} SumsSnoc(edges: seq<QEdge>, prefix: seq<nat>, sum: nat)
    requires SumsAre(edges, prefix) && sum == DegreeSum(edges, |prefix|)
    ensures SumsAre(edges, prefix + [sum])
  {
  }

  lemma {:induction false} DegreeSumNext(Q: QueryGraph, v: nat)
    requires Q.Valid() && v < |Q.vertices|
    ensures DegreeSum(Q.edges, v + 1) == DegreeSum(Q.edges, v) + Q.vertices[v].degree
  {
    assert Q.vertices[v].degree == Degree(Q.edges, v);
  }

  method PrefixSums(Q: QueryGraph) returns (prefix: seq<nat>)
    requires Q.Valid()
    ensures PrefixOk(Q, prefix)
  {
    prefix := [];
    var sum, v := 0, 0;
    while v < |Q.vertices|
      invariant 0 <= v <= |Q.vertices| && |prefix| == v
      invariant sum == DegreeSum(Q.edges, v) && SumsAre(Q.edges, prefix)
    {
      SumsSnoc(Q.edges, prefix, sum);
      DegreeSumNext(Q, v);
      prefix := prefix + [sum];
      sum := sum + Q.vertices[v].degree;
      v := v + 1;
    }
    SumsSnoc(Q.edges, prefix, sum);
    prefix := prefix + [sum];
  }

  lemma {:induction false} DegreeSumMono(edges: seq<QEdge>, m: nat, n: nat)
    requires m <= n
    ensures DegreeSum(edges, m) <= DegreeSum(edges, n)
    decreases n - m
  {
    if m < n {
      DegreeSumMono(edges, m, n - 1);
    }
  }

  // ----- where an edge's slots lie -----

  /** The edges at v that are regular, and those that are not. */
  ghost function Slotted(Q: QueryGraph, v: nat, regular: bool): iset<nat> {
    iset e: nat | e < |Q.edges| && Q.edges[e].Touches(v) && Q.edges[e].kind.REGULAR? == regular
  }

  /** How many of the given edges are slotted at v. */
  ghost function Count(Q: QueryGraph, v: nat, regular: bool, ids: seq<nat>): nat {
    |FilterIn(Slotted(Q, v, regular), ids)|
  }

  /** The slot at vertex v of the edge whose turn is i: regular edges first, then the others, each in turn order. */
  ghost function SlotOf(Q: QueryGraph, ids: seq<nat>, i: nat, v: nat): nat
    requires i < |ids| && ids[i] < |Q.edges|
  {
    var regular := Q.edges[ids[i]].kind.REGULAR?;
    DegreeSum(Q.edges, v) + (if regular then 0 else Count(Q, v, true, ids)) + Count(Q, v, regular, ids[..i])
  }

  lemma {:induction false} CountSnoc(Q: QueryGraph, v: nat, regular: bool, ids: seq<nat>, i: nat)
    requires i < |ids| && ids[i] < |Q.edges|
    ensures Count(Q, v, regular, ids[..i + 1]) == Count(Q, v, regular, ids[..i])
            + if Q.edges[ids[i]].Touches(v) && Q.edges[ids[i]].kind.REGULAR? == regular then 1 else 0
  {
    FilterSnoc(Slotted(Q, v, regular), ids, i);
  }

  lemma {:induction false} CountMono(Q: QueryGraph, v: nat, regular: bool, ids: seq<nat>, i: nat, j: nat)
    requires i <= j <= |ids|
    ensures Count(Q, v, regular, ids[..i]) <= Count(Q, v, regular, ids[..j])
  {
    assert ids[..j] == ids[..i] + ids[i..j];
    FilterAppend(Slotted(Q, v, regular), ids[..i], ids[i..j]);
  }

  /** All slots of v: its regular and its other edges together make up its degree. */
  lemma {:induction false} CountsAreDegree(Q: QueryGraph, v: nat, ids: seq<nat>)
    requires IsPermutation(ids, |Q.edges|)
    ensures Count(Q, v, true, ids) + Count(Q, v, false, ids) == Degree(Q.edges, v)
  {
    FilterSplit(Slotted(Q, v, true), Slotted(Q, v, false), Incident(Q.edges, v), ids);
    PermutationReaches(ids, |Q.edges|);
    forall e
      ensures e in ids <==> e in Iota(|Q.edges|)
    {
      if e in Iota(|Q.edges|) {
        assert e < |Q.edges|;
      }
      if e in ids {
        assert Iota(|Q.edges|)[e] == e;
      }
    }
    FilterCount(Incident(Q.edges, v), ids, Iota(|Q.edges|));
  }

  /** A slot lies in its vertex's segment, on the regular or the other side of the segment. */
  lemma {:induction false} SlotInSegment(Q: QueryGraph, ids: seq<nat>, i: nat, v: nat)
    requires IsPermutation(ids, |Q.edges|) && i < |ids| && Q.edges[ids[i]].Touches(v)
    ensures DegreeSum(Q.edges, v) <= SlotOf(Q, ids, i, v) < DegreeSum(Q.edges, v + 1)
    ensures Q.edges[ids[i]].kind.REGULAR? <==> SlotOf(Q, ids, i, v) < DegreeSum(Q.edges, v) + Count(Q, v, true, ids)
  {
    var regular := Q.edges[ids[i]].kind.REGULAR?;
    CountsAreDegree(Q, v, ids);
    CountSnoc(Q, v, regular, ids, i);
    CountMono(Q, v, regular, ids, i + 1, |ids|);
    assert ids[..|ids|] == ids;
  }

  /** Different edges, or the two ends of one edge, have different slots. */
  lemma {:induction false} SlotsDiffer(Q: QueryGraph, ids: seq<nat>, i: nat, v: nat, j: nat, w: nat)
    requires IsPermutation(ids, |Q.edges|) && i < |ids| && j < |ids|
    requires Q.edges[ids[i]].Touches(v) && Q.edges[ids[j]].Touches(w) && (i != j || v != w)
    ensures SlotOf(Q, ids, i, v) != SlotOf(Q, ids, j, w)
  {
    if v < w {
      SegmentsApart(Q, ids, i, v, j, w);
    } else if w < v {
      SegmentsApart(Q, ids, j, w, i, v);
    } else if Q.edges[ids[i]].kind.REGULAR? == Q.edges[ids[j]].kind.REGULAR? {
      if i < j {
        SlotsInTurnOrder(Q, ids, i, j, v);
      } else {
        SlotsInTurnOrder(Q, ids, j, i, v);
      }
    } else {
      SlotInSegment(Q, ids, i, v);
      SlotInSegment(Q, ids, j, v);
    }
  }

  /** The segments of two vertices do not overlap. */
  lemma {:induction false} SegmentsApart(Q: QueryGraph, ids: seq<nat>, i: nat, v: nat, j: nat, w: nat)
    requires IsPermutation(ids, |Q.edges|) && i < |ids| && j < |ids| && v < w
    requires Q.edges[ids[i]].Touches(v) && Q.edges[ids[j]].Touches(w)
    ensures SlotOf(Q, ids, i, v) < SlotOf(Q, ids, j, w)
  {
    SlotInSegment(Q, ids, i, v);
    SlotInSegment(Q, ids, j, w);
    InEarlierSegment(Q.edges, v, w, SlotOf(Q, ids, i, v), SlotOf(Q, ids, j, w));
  }

  lemma {:induction false} InEarlierSegment(edges: seq<QEdge>, v: nat, w: nat, a: nat, b: nat)
    requires v < w && a < DegreeSum(edges, v + 1) && DegreeSum(edges, w) <= b
    ensures a < b
  {
    DegreeSumMono(edges, v + 1, w);
  }

  /** Within a segment and a side, slots come in turn order. */
  lemma {:induction false} SlotsInTurnOrder(Q: QueryGraph, ids: seq<nat>, i: nat, j: nat, v: nat)
    requires IsPermutation(ids, |Q.edges|) && i < j < |ids|
    requires Q.edges[ids[i]].Touches(v) && Q.edges[ids[j]].Touches(v)
    requires Q.edges[ids[i]].kind.REGULAR? == Q.edges[ids[j]].kind.REGULAR?
    ensures SlotOf(Q, ids, i, v) < SlotOf(Q, ids, j, v)
  {
    CountSnoc(Q, v, Q.edges[ids[i]].kind.REGULAR?, ids, i);
    CountMono(Q, v, Q.edges[ids[i]].kind.REGULAR?, ids, i + 1, j);
  }

  // ----- filling the tables -----

  /** Edge ids below numEdges mark the slot at the earlier endpoint, the others the slot at the later one. */
  function EidAt(Q: QueryGraph, rank: seq<nat>, e: nat, v: nat): nat
    requires Q.Valid() && |rank| == |Q.vertices| && e < |Q.edges| && Q.edges[e].Touches(v)
  {
    if rank[v] < rank[Q.edges[e].Other(v)] then e else e + |Q.edges|
  }

  ghost predicate CountersAre(Q: QueryGraph, ids: seq<nat>, degrees: seq<nat>, regular: bool) {
    && |degrees| == |Q.vertices|
    && forall v {:trigger degrees[v]} :: 0 <= v < |degrees| ==> degrees[v] == Count(Q, v, regular, ids)
  }

  method BumpCounters(Q: QueryGraph, ghost ids: seq<nat>, e: nat, regular: bool, counters: seq<nat>)
    returns (counters': seq<nat>)
    requires Q.Valid() && e < |Q.edges| && Q.edges[e].kind.REGULAR? == regular && CountersAre(Q, ids, counters, regular)
    ensures CountersAre(Q, ids + [e], counters', regular)
  {
    var edge := Q.edges[e];
    counters' := counters[edge.v1 := counters[edge.v1] + 1];
    counters' := counters'[edge.v2 := counters'[edge.v2] + 1];
    forall v {:trigger counters'[v]} | 0 <= v < |counters'|
      ensures counters'[v] == Count(Q, v, regular, ids + [e])
    {
      assert counters[v] == Count(Q, v, regular, ids);
      CountAppend(Q, v, regular, ids, e);
    }
  }

  lemma {:induction false} CountAppend(Q: QueryGraph, v: nat, regular: bool, ids: seq<nat>, e: nat)
    requires e < |Q.edges|
    ensures Count(Q, v, regular, ids + [e]) == Count(Q, v, regular, ids)
            + if Q.edges[e].Touches(v) && Q.edges[e].kind.REGULAR? == regular then 1 else 0
  {
    FilterAppend(Slotted(Q, v, regular), ids, [e]);
  }

  lemma {:induction false} OtherCounters(Q: QueryGraph, ids: seq<nat>, e: nat, regular: bool, counters: seq<nat>)
    requires Q.Valid() && e < |Q.edges| && Q.edges[e].kind.REGULAR? != regular && CountersAre(Q, ids, counters, regular)
    ensures CountersAre(Q, ids + [e], counters, regular)
  {
    forall v {:trigger counters[v]} | 0 <= v < |counters|
      ensures counters[v] == Count(Q, v, regular, ids + [e])
    {
      CountAppend(Q, v, regular, ids, e);
    }
  }

  /** Where the non-regular slots of each vertex start. */
  ghost predicate ComplexStarts(Q: QueryGraph, starts: seq<nat>, n: nat)
    requires n <= |Q.edges|
  {
    && |starts| == |Q.vertices|
    && forall v {:trigger starts[v]} :: 0 <= v < |starts| ==>
         starts[v] == DegreeSum(Q.edges, v) + Count(Q, v, true, Iota(n))
  }

  method ComplexPrefix(Q: QueryGraph, prefix: seq<nat>) returns (starts: seq<nat>)
    requires Q.Valid() && PrefixOk(Q, prefix)
    ensures ComplexStarts(Q, starts, |Q.edges|)
  {
    starts := prefix[..|Q.vertices|];
    var i := 0;
    while i < |Q.edges|
      invariant 0 <= i <= |Q.edges| && ComplexStarts(Q, starts, i)
    {
      var edge := Q.edges[i];
      ghost var before := starts;
      assert Iota(i + 1) == Iota(i) + [i];
      if edge.kind.REGULAR? {
        starts := starts[edge.v1 := starts[edge.v1] + 1];
        starts := starts[edge.v2 := starts[edge.v2] + 1];
      }
      forall v {:trigger starts[v]} | 0 <= v < |starts|
        ensures starts[v] == DegreeSum(Q.edges, v) + Count(Q, v, true, Iota(i + 1))
      {
        assert before[v] == DegreeSum(Q.edges, v) + Count(Q, v, true, Iota(i));
        CountAppend(Q, v, true, Iota(i), i);
      }
      i := i + 1;
    }
  }

  lemma {:induction false} CountPermuted(Q: QueryGraph, v: nat, regular: bool, ids: seq<nat>)
    requires IsPermutation(ids, |Q.edges|)
    ensures Count(Q, v, regular, ids) == Count(Q, v, regular, Iota(|Q.edges|))
  {
    PermutationReaches(ids, |Q.edges|);
    forall e
      ensures e in ids <==> e in Iota(|Q.edges|)
    {
      if e in Iota(|Q.edges|) {
        assert e < |Q.edges|;
      }
      if e in ids {
        assert Iota(|Q.edges|)[e] == e;
      }
    }
    FilterCount(Slotted(Q, v, regular), ids, Iota(|Q.edges|));
  }

  /** The two slots of the edge whose turn is i, and the counters moved on. */
  method SlotPair(Q: QueryGraph, ghost ids: seq<nat>, ghost i: nat, e: nat, prefix: seq<nat>, starts: seq<nat>,
                  degrees: seq<nat>, complex: seq<nat>)
    returns (s1: nat, s2: nat, degrees': seq<nat>, complex': seq<nat>)
    requires Q.Valid() && IsPermutation(ids, |Q.edges|) && i < |ids| && e == ids[i]
    requires PrefixOk(Q, prefix) && ComplexStarts(Q, starts, |Q.edges|)
    requires CountersAre(Q, ids[..i], degrees, true) && CountersAre(Q, ids[..i], complex, false)
    ensures CountersAre(Q, ids[..i + 1], degrees', true) && CountersAre(Q, ids[..i + 1], complex', false)
    ensures s1 == SlotOf(Q, ids, i, Q.edges[e].v1) && s2 == SlotOf(Q, ids, i, Q.edges[e].v2)
  {
    var edge := Q.edges[e];
    assert ids[..i + 1] == ids[..i] + [e];
    CountPermuted(Q, edge.v1, true, ids);
    CountPermuted(Q, edge.v2, true, ids);
    if edge.kind.REGULAR? {
      s1, s2 := prefix[edge.v1] + degrees[edge.v1], prefix[edge.v2] + degrees[edge.v2];
      degrees' := BumpCounters(Q, ids[..i], e, true, degrees);
      complex' := complex;
      OtherCounters(Q, ids[..i], e, false, complex);
    } else {
      s1, s2 := starts[edge.v1] + complex[edge.v1], starts[edge.v2] + complex[edge.v2];
      complex' := BumpCounters(Q, ids[..i], e, false, complex);
      degrees' := degrees;
      OtherCounters(Q, ids[..i], e, true, degrees);
    }
  }

  /** One end of the edge whose turn is i. */
  function EndOf(Q: QueryGraph, ids: seq<nat>, i: nat, first: bool): (v: nat)
    requires Q.Valid() && i < |ids| && ids[i] < |Q.edges|
    ensures Q.edges[ids[i]].Touches(v) && v < |Q.vertices|
  {
    if first then Q.edges[ids[i]].v1 else Q.edges[ids[i]].v2
  }

  /** The first n turns have their slots at one end, and those slots say which edge, which end and which kind. */
  ghost predicate SlotsFilled(Q: QueryGraph, rank: seq<nat>, ids: seq<nat>, n: nat, eids: seq<nat>,
                              kinds: seq<EdgeKind>,
                              slots: seq<nat>, first: bool)
    requires Q.Valid() && |rank| == |Q.vertices| && IsPermutation(ids, |Q.edges|) && n <= |ids|
  {
    && |slots| == n
    && forall i {:trigger slots[i]} :: 0 <= i < n ==>
         && slots[i] == SlotOf(Q, ids, i, EndOf(Q, ids, i, first))
         && SlotHolds(Q, rank, eids, kinds, slots[i], ids[i], EndOf(Q, ids, i, first))
  }

  ghost predicate SlotHolds(Q: QueryGraph, rank: seq<nat>, eids: seq<nat>, kinds: seq<EdgeKind>, slot: nat, e: nat,
                            v: nat)
    requires Q.Valid() && |rank| == |Q.vertices| && e < |Q.edges| && Q.edges[e].Touches(v)
  {
    slot < |eids| && slot < |kinds| && eids[slot] == EidAt(Q, rank, e, v) && kinds[slot] == Q.edges[e].kind
  }

  lemma {:induction false} SlotBelow(Q: QueryGraph, ids: seq<nat>, i: nat, v: nat)
    requires Q.Valid() && IsPermutation(ids, |Q.edges|) && i < |ids| && Q.edges[ids[i]].Touches(v)
    ensures SlotOf(Q, ids, i, v) < 2 * |Q.edges|
  {
    SlotInSegment(Q, ids, i, v);
    SegmentBelow(Q.edges, |Q.vertices|, v);
  }

  /** The segment of a vertex ends within the table. */
  lemma {:induction false} SegmentBelow(edges: seq<QEdge>, n: nat, v: nat)
    requires v < n
    requires forall e {:trigger edges[e]} :: 0 <= e < |edges| ==>
               edges[e].v1 < n && edges[e].v2 < n && edges[e].v1 != edges[e].v2
    ensures DegreeSum(edges, v + 1) <= 2 * |edges|
  {
    DegreeSumMono(edges, v + 1, n);
    Handshake(edges, n);
  }

  /** Writing a slot of a later turn leaves the filled slots alone. */
  lemma {:induction false} SlotsKept(Q: QueryGraph, rank: seq<nat>, ids: seq<nat>, n: nat, eids: seq<nat>,
                                     kinds: seq<EdgeKind>,
                                     slots: seq<nat>, first: bool, s: nat, w: nat, eid: nat, kind: EdgeKind)
    requires Q.Valid() && |rank| == |Q.vertices| && IsPermutation(ids, |Q.edges|) && n < |ids|
    requires SlotsFilled(Q, rank, ids, n, eids, kinds, slots, first)
    requires Q.edges[ids[n]].Touches(w) && s == SlotOf(Q, ids, n, w) && s < |eids| == |kinds|
    ensures SlotsFilled(Q, rank, ids, n, eids[s := eid], kinds[s := kind], slots, first)
  {
    forall i {:trigger slots[i]} | 0 <= i < n
      ensures SlotHolds(Q, rank, eids[s := eid], kinds[s := kind], slots[i], ids[i], EndOf(Q, ids, i, first))
    {
      SlotsDiffer(Q, ids, i, EndOf(Q, ids, i, first), n, w);
    }
  }

  lemma {:induction false} SlotAdded(Q: QueryGraph, rank: seq<nat>, ids: seq<nat>, n: nat, eids: seq<nat>,
                                     kinds: seq<EdgeKind>,
                                     slots: seq<nat>, first: bool, s: nat)
    requires Q.Valid() && |rank| == |Q.vertices| && IsPermutation(ids, |Q.edges|) && n < |ids|
    requires SlotsFilled(Q, rank, ids, n, eids, kinds, slots, first)
    requires s == SlotOf(Q, ids, n, EndOf(Q, ids, n, first))
    requires SlotHolds(Q, rank, eids, kinds, s, ids[n], EndOf(Q, ids, n, first))
    ensures SlotsFilled(Q, rank, ids, n + 1, eids, kinds, slots + [s], first)
  {
    var slots' := slots + [s];
    forall i {:trigger slots'[i]} | 0 <= i < n + 1
      ensures slots'[i] == SlotOf(Q, ids, i, EndOf(Q, ids, i, first))
      ensures SlotHolds(Q, rank, eids, kinds, slots'[i], ids[i], EndOf(Q, ids, i, first))
    {
      assert i < n ==> slots'[i] == slots[i];
    }
  }

  /** Marks the two slots of the edge whose turn is n. */
  method MarkSlots(Q: QueryGraph, rank: seq<nat>, ghost ids: seq<nat>, ghost n: nat, e: nat, s1: nat, s2: nat,
                   eids: seq<nat>, kinds: seq<EdgeKind>, ghost slot1: seq<nat>, ghost slot2: seq<nat>)
    returns (eids': seq<nat>, kinds': seq<EdgeKind>)
    requires Q.Valid() && |rank| == |Q.vertices| && IsPermutation(ids, |Q.edges|) && n < |ids| && e == ids[n]
    requires |eids| == |kinds| == 2 * |Q.edges|
    requires SlotsFilled(Q, rank, ids, n, eids, kinds, slot1, true)
             && SlotsFilled(Q, rank, ids, n, eids, kinds, slot2, false)
    requires s1 == SlotOf(Q, ids, n, Q.edges[e].v1) && s2 == SlotOf(Q, ids, n, Q.edges[e].v2)
    ensures |eids'| == |kinds'| == 2 * |Q.edges|
    ensures SlotsFilled(Q, rank, ids, n + 1, eids', kinds', slot1 + [s1], true)
    ensures SlotsFilled(Q, rank, ids, n + 1, eids', kinds', slot2 + [s2], false)
  {
    var edge := Q.edges[e];
    SlotBelow(Q, ids, n, edge.v1);
    SlotBelow(Q, ids, n, edge.v2);
    SlotsDiffer(Q, ids, n, edge.v1, n, edge.v2);
    var eid1 := if rank[edge.v1] < rank[edge.v2] then e else e + |Q.edges|;
    var eid2 := if rank[edge.v2] < rank[edge.v1] then e else e + |Q.edges|;
    eids', kinds' := eids[s1 := eid1], kinds[s1 := edge.kind];
    SlotsKept(Q, rank, ids, n, eids, kinds, slot1, true, s1, edge.v1, eid1, edge.kind);
    SlotsKept(Q, rank, ids, n, eids, kinds, slot2, false, s1, edge.v1, eid1, edge.kind);
    SlotsKept(Q, rank, ids, n, eids', kinds', slot1, true, s2, edge.v2, eid2, edge.kind);
    SlotsKept(Q, rank, ids, n, eids', kinds', slot2, false, s2, edge.v2, eid2, edge.kind);
    eids', kinds' := eids'[s2 := eid2], kinds'[s2 := edge.kind];
    SlotAdded(Q, rank, ids, n, eids', kinds', slot1, true, s1);
    SlotAdded(Q, rank, ids, n, eids', kinds', slot2, false, s2);
  }

  // ----- counting edges by kind and end -----

  function EarlierEnd(Q: QueryGraph, rank: seq<nat>, e: nat): (v: nat)
    requires Q.Valid() && |rank| == |Q.vertices| && e < |Q.edges|
    ensures Q.edges[e].Touches(v) && v < |Q.vertices|
  {
    if rank[Q.edges[e].v1] < rank[Q.edges[e].v2] then Q.edges[e].v1 else Q.edges[e].v2
  }

  function LaterEnd(Q: QueryGraph, rank: seq<nat>, e: nat): (v: nat)
    requires Q.Valid() && |rank| == |Q.vertices| && e < |Q.edges|
    ensures Q.edges[e].Touches(v) && v < |Q.vertices|
  {
    Q.edges[e].Other(EarlierEnd(Q, rank, e))
  }

  /** The edges of a kind whose earlier (or later) endpoint is v. */
  ghost function EndingAt(Q: QueryGraph, rank: seq<nat>, kind: EdgeKind, early: bool, v: nat): iset<nat>
    requires Q.Valid() && |rank| == |Q.vertices|
  {
    iset e: nat | e < |Q.edges| && Q.edges[e].kind == kind
                  && v == if early then EarlierEnd(Q, rank, e) else LaterEnd(Q, rank, e)
  }

  ghost function EndCount(Q: QueryGraph, rank: seq<nat>, kind: EdgeKind, early: bool, v: nat, ids: seq<nat>): nat
    requires Q.Valid() && |rank| == |Q.vertices|
  {
    |FilterIn(EndingAt(Q, rank, kind, early, v), ids)|
  }

  lemma {:induction false} EndCountAppend(Q: QueryGraph, rank: seq<nat>, kind: EdgeKind, early: bool, v: nat,
                                          ids: seq<nat>, e: nat)
    requires Q.Valid() && |rank| == |Q.vertices| && e < |Q.edges|
    ensures EndCount(Q, rank, kind, early, v, ids + [e]) == EndCount(Q, rank, kind, early, v, ids)
            + if Q.edges[e].kind == kind
                && v == (if early then EarlierEnd(Q, rank, e) else LaterEnd(Q, rank, e)) then 1 else 0
  {
    FilterAppend(EndingAt(Q, rank, kind, early, v), ids, [e]);
  }

  /** counts[i] is the number of edges of the kind whose given end is the vertex at index i of vs. */
  ghost predicate EndCounts(Q: QueryGraph, rank: seq<nat>, kind: EdgeKind, early: bool, vs: seq<nat>, counts: seq<nat>,
                            ids: seq<nat>)
    requires Q.Valid() && |rank| == |Q.vertices|
  {
    && |counts| == |vs| == |Q.vertices|
    && forall i {:trigger counts[i]} :: 0 <= i < |counts| ==> counts[i] == EndCount(Q, rank, kind, early, vs[i], ids)
  }

  /** Accounts for one more edge; at is the index of its end among vs. */
  method BumpEnd(Q: QueryGraph, ghost rank: seq<nat>, kind: EdgeKind, ghost early: bool, ghost vs: seq<nat>,
                 counts: seq<nat>,
                 ghost ids: seq<nat>, e: nat, at: nat)
    returns (counts': seq<nat>)
    requires Q.Valid() && |rank| == |Q.vertices| && e < |Q.edges| && NoDup(vs) && at < |vs|
    requires vs[at] == if early then EarlierEnd(Q, rank, e) else LaterEnd(Q, rank, e)
    requires EndCounts(Q, rank, kind, early, vs, counts, ids)
    ensures EndCounts(Q, rank, kind, early, vs, counts', ids + [e])
  {
    counts' := if Q.edges[e].kind == kind then counts[at := counts[at] + 1] else counts;
    forall i {:trigger counts'[i]} | 0 <= i < |counts'|
      ensures counts'[i] == EndCount(Q, rank, kind, early, vs[i], ids + [e])
    {
      assert counts[i] == EndCount(Q, rank, kind, early, vs[i], ids);
      EndCountAppend(Q, rank, kind, early, vs[i], ids, e);
    }
  }

  // ----- NOT_EQUAL constraints -----

  /**
   * The ranks the first n constraints compare v with: v is the endpoint that comes later (v1 where both ranks agree).
   */
  ghost function ComparedWith(Q: QueryGraph, rank: seq<nat>, v: nat, n: nat): seq<nat>
    requires Q.Valid() && |rank| == |Q.vertices| && n <= |Q.constraints|
  {
    if n == 0 then []
    else
      var c := Q.constraints[n - 1];
      ComparedWith(Q, rank, v, n - 1)
      + (if !c.notEqual then []
         else if rank[c.v1] < rank[c.v2] then if v == c.v2 then [rank[c.v1]] else []
         else if v == c.v1 then [rank[c.v2]] else [])
  }

  method ConstraintLists(Q: QueryGraph, rank: seq<nat>) returns (lists: seq<seq<nat>>)
    requires Q.Valid() && |rank| == |Q.vertices|
    ensures |lists| == |Q.vertices|
    ensures forall v {:trigger lists[v]} :: 0 <= v < |lists| ==> lists[v] == ComparedWith(Q, rank, v, |Q.constraints|)
  {
    lists := seq(|Q.vertices|, v => []);
    var i := 0;
    while i < |Q.constraints|
      invariant 0 <= i <= |Q.constraints| && |lists| == |Q.vertices|
      invariant forall v {:trigger lists[v]} :: 0 <= v < |lists| ==> lists[v] == ComparedWith(Q, rank, v, i)
    {
      var c := Q.constraints[i];
      if c.notEqual {
        if rank[c.v1] < rank[c.v2] {
          lists := lists[c.v2 := lists[c.v2] + [rank[c.v1]]];
        } else {
          lists := lists[c.v1 := lists[c.v1] + [rank[c.v2]]];
        }
      }
      i := i + 1;
    }
  }

  /** ptr cuts flat into the lists, in order. */
  ghost predicate Flattened(lists: seq<seq<nat>>, n: nat, ptr: seq<nat>, flat: seq<nat>)
    requires n <= |lists|
  {
    && |ptr| == n + 1 && ptr[0] == 0 && ptr[n] == |flat|
    && (forall v, w :: 0 <= v <= w <= n ==> ptr[v] <= ptr[w])
    && forall v {:trigger lists[v]} :: 0 <= v < n ==>
         ptr[v] <= ptr[v + 1] <= |flat| && flat[ptr[v]..ptr[v + 1]] == lists[v]
  }

  method Flatten(lists: seq<seq<nat>>) returns (ptr: seq<nat>, flat: seq<nat>)
    ensures Flattened(lists, |lists|, ptr, flat)
  {
    ptr, flat := [0], [];
    var v := 0;
    while v < |lists|
      invariant 0 <= v <= |lists| && Flattened(lists, v, ptr, flat)
    {
      ghost var ptr0, flat0 := ptr, flat;
      flat := flat + lists[v];
      ptr := ptr + [|flat|];
      forall w {:trigger lists[w]} | 0 <= w < v + 1
        ensures ptr[w] <= ptr[w + 1] <= |flat| && flat[ptr[w]..ptr[w + 1]] == lists[w]
      {
        if w < v {
          assert flat0[ptr0[w]..ptr0[w + 1]] == lists[w];
        }
      }
      v := v + 1;
    }
  }

  ghost predicate LooksBack(Q: QueryGraph, rank: seq<nat>)
    requires Q.Valid() && |rank| == |Q.vertices|
  {
    forall v, i :: 0 <= v < |Q.vertices| && 0 <= i < |ComparedWith(Q, rank, v, |Q.constraints|)| ==>
      ComparedWith(Q, rank, v, |Q.constraints|)[i] < rank[v]
  }

  /** No NOT_EQUAL constraint names one vertex twice. */
  ghost predicate DistinctConstraints(Q: QueryGraph) {
    forall c {:trigger Q.constraints[c]} :: 0 <= c < |Q.constraints| && Q.constraints[c].notEqual ==>
      Q.constraints[c].v1 != Q.constraints[c].v2
  }

  /**
   * Every rank in a vertex's slice comes before the vertex, exactly when no NOT_EQUAL constraint names one vertex
   * twice; such a constraint would compare the vertex with itself.
   */
  lemma {:induction false} ComparesBackward(Q: QueryGraph, order: seq<nat>, rank: seq<nat>)
    requires Q.Valid() && |order| == |Q.vertices| && RanksAre(order, rank)
    ensures LooksBack(Q, rank) <==> DistinctConstraints(Q)
  {
    if c: nat :| c < |Q.constraints| && Q.constraints[c].notEqual && Q.constraints[c].v1 == Q.constraints[c].v2 {
      ComparedHas(Q, rank, Q.constraints[c].v1, |Q.constraints|, c);
    } else {
      forall v | 0 <= v < |Q.vertices|
        ensures forall i :: 0 <= i < |ComparedWith(Q, rank, v, |Q.constraints|)| ==>
                  ComparedWith(Q, rank, v, |Q.constraints|)[i] < rank[v]
      {
        ComparedBelow(Q, order, rank, v, |Q.constraints|);
      }
    }
  }

  lemma {:induction false} ComparedHas(Q: QueryGraph, rank: seq<nat>, v: nat, n: nat, c: nat)
    requires Q.Valid() && |rank| == |Q.vertices| && c < n <= |Q.constraints| && v < |Q.vertices|
    requires Q.constraints[c].notEqual && Q.constraints[c].v1 == Q.constraints[c].v2 == v
    ensures exists i {:trigger ComparedWith(Q, rank, v, n)[i]} ::
              0 <= i < |ComparedWith(Q, rank, v, n)| && ComparedWith(Q, rank, v, n)[i] == rank[v]
  {
    var list := ComparedWith(Q, rank, v, n);
    if c == n - 1 {
      assert list[|list| - 1] == rank[v];
    } else {
      ComparedHas(Q, rank, v, n - 1, c);
      var before := ComparedWith(Q, rank, v, n - 1);
      var i :| 0 <= i < |before| && before[i] == rank[v];
      assert list[i] == rank[v];
    }
  }

  lemma {:induction false} ComparedBelow(Q: QueryGraph, order: seq<nat>, rank: seq<nat>, v: nat, n: nat)
    requires Q.Valid() && |order| == |Q.vertices| && RanksAre(order, rank) && n <= |Q.constraints| && v < |Q.vertices|
    requires DistinctConstraints(Q)
    ensures forall i :: 0 <= i < |ComparedWith(Q, rank, v, n)| ==> ComparedWith(Q, rank, v, n)[i] < rank[v]
  {
    if n > 0 {
      ComparedBelow(Q, order, rank, v, n - 1);
      var c := Q.constraints[n - 1];
      if c.notEqual {
        RanksDiffer(order, rank, c.v1, c.v2);
      }
    }
  }

  // ----- the whole table -----

  /** What the tables say about the first n turns. */
  ghost predicate TurnsTabled(Q: QueryGraph, s: Schedule, ids: seq<nat>, n: nat, T: Tables)
    requires Q.Valid() && |s.rank| == |Q.vertices| && IsPermutation(ids, |Q.edges|) && n <= |ids|
  {
    && |T.eidList| == |T.edgeTypeList| == 2 * |Q.edges|
    && SlotsFilled(Q, s.rank, ids, n, T.eidList, T.edgeTypeList, T.v1ListIdxs, true)
    && SlotsFilled(Q, s.rank, ids, n, T.eidList, T.edgeTypeList, T.v2ListIdxs, false)
    && |T.lv0Dep| == |Q.edges|
    && (forall i {:trigger ids[i]} :: 0 <= i < n ==> T.lv0Dep[ids[i]] == s.rank[EarlierEnd(Q, s.rank, ids[i])])
    && EndCounts(Q, s.rank, OPTIONAL, true, Iota(|Q.vertices|), T.numOptionalPerVertex, ids[..n])
    && EndCounts(Q, s.rank, NEGATIVE, true, Iota(|Q.vertices|), T.numNegativePerVertex, ids[..n])
    && EndCounts(Q, s.rank, NEGATIVE, false, s.order, T.negativeDegree, ids[..n])
  }

  ghost predicate TablesAre(Q: QueryGraph, s: Schedule, T: Tables)
    requires Q.Valid() && |s.rank| == |Q.vertices| && IsPermutation(TurnEdges(s.turns), |Q.edges|)
  {
    && T.globalOrder == s.order
    && PrefixOk(Q, T.prefixSumDegree)
    && TurnsTabled(Q, s, TurnEdges(s.turns), |Q.edges|, T)
    && |T.constraintPtr| == |Q.vertices| + 1
    && (forall v, w :: 0 <= v <= w <= |Q.vertices| ==> T.constraintPtr[v] <= T.constraintPtr[w])
    && T.constraintPtr[|Q.vertices|] == |T.constraints|
    && (forall v: nat {:trigger SliceAt(Q, s.rank, T, v)} :: v < |Q.vertices| ==> SliceAt(Q, s.rank, T, v))
  }

  /** The constraint slice of vertex v lists the ranks it is compared with. */
  ghost predicate SliceAt(Q: QueryGraph, rank: seq<nat>, T: Tables, v: nat)
    requires Q.Valid() && |rank| == |Q.vertices|
  {
    && v + 1 < |T.constraintPtr|
    && T.constraintPtr[v] <= T.constraintPtr[v + 1] <= |T.constraints|
    && T.constraints[T.constraintPtr[v]..T.constraintPtr[v + 1]] == ComparedWith(Q, rank, v, |Q.constraints|)
  }

  /** The turn-by-turn part of the tables. */
  method TableOneTurn(Q: QueryGraph, s: Schedule, ghost ids: seq<nat>, i: nat, e: nat, prefix: seq<nat>,
                      starts: seq<nat>,
                      degrees: seq<nat>, complex: seq<nat>, T: Tables)
    returns (degrees': seq<nat>, complex': seq<nat>, T': Tables)
    requires Q.Valid() && |s.order| == |Q.vertices| && RanksAre(s.order, s.rank) && IsPermutation(ids, |Q.edges|)
    requires i < |ids| && e == ids[i] && TurnsTabled(Q, s, ids, i, T)
    requires PrefixOk(Q, prefix) && ComplexStarts(Q, starts, |Q.edges|)
    requires CountersAre(Q, ids[..i], degrees, true) && CountersAre(Q, ids[..i], complex, false)
    ensures CountersAre(Q, ids[..i + 1], degrees', true) && CountersAre(Q, ids[..i + 1], complex', false)
    ensures TurnsTabled(Q, s, ids, i + 1, T') && T'.globalOrder == T.globalOrder
            && T'.prefixSumDegree == T.prefixSumDegree
  {
    var edge, rank := Q.edges[e], s.rank;
    var s1, s2, eids, kinds;
    s1, s2, degrees', complex' := SlotPair(Q, ids, i, e, prefix, starts, degrees, complex);
    eids, kinds := MarkSlots(Q, rank, ids, i, e, s1, s2, T.eidList, T.edgeTypeList, T.v1ListIdxs, T.v2ListIdxs);
    RanksDiffer(s.order, rank, edge.v1, edge.v2);
    var early, late := edge.v2, edge.v1;
    if rank[edge.v1] < rank[edge.v2] {
      early, late := edge.v1, edge.v2;
    }
    assert ids[..i + 1] == ids[..i] + [e];
    var numOptional := BumpEnd(Q, rank, OPTIONAL, true, Iota(|Q.vertices|), T.numOptionalPerVertex, ids[..i], e, early);
    var numNegative := BumpEnd(Q, rank, NEGATIVE, true, Iota(|Q.vertices|), T.numNegativePerVertex, ids[..i], e, early);
    var negativeDegree := BumpEnd(Q, rank, NEGATIVE, false, s.order, T.negativeDegree, ids[..i], e, rank[late]);
    T' := T.(eidList := eids, edgeTypeList := kinds, v1ListIdxs := T.v1ListIdxs + [s1],
          v2ListIdxs := T.v2ListIdxs + [s2],
             lv0Dep := T.lv0Dep[e := Min(rank[edge.v1], rank[edge.v2])],
             numOptionalPerVertex := numOptional, numNegativePerVertex := numNegative,
                   negativeDegree := negativeDegree);
  }

  method InitKernelInfo(Q: QueryGraph, s: Schedule) returns (T: Tables)
    requires Q.Valid() && |s.order| == |Q.vertices| && RanksAre(s.order, s.rank)
             && IsPermutation(TurnEdges(s.turns), |Q.edges|)
    ensures TablesAre(Q, s, T)
  {
    var zeros := seq(|Q.vertices|, v => 0);
    var prefix := PrefixSums(Q);
    var starts := ComplexPrefix(Q, prefix);
    ghost var ids := TurnEdges(s.turns);
    T := Tables(s.order, prefix, seq(2 * |Q.edges|, x => 0), seq(2 * |Q.edges|, x => REGULAR), seq(|Q.edges|, x => 0),
          [], [], zeros, zeros, zeros, [], []);
    var degrees, complex := zeros, zeros;
    var i := 0;
    while i < |s.turns|
      invariant 0 <= i <= |s.turns|
      invariant TurnsTabled(Q, s, ids, i, T) && T.globalOrder == s.order && T.prefixSumDegree == prefix
      invariant CountersAre(Q, ids[..i], degrees, true) && CountersAre(Q, ids[..i], complex, false)
    {
      degrees, complex, T := TableOneTurn(Q, s, ids, i, s.turns[i].edge, prefix, starts, degrees, complex, T);
      i := i + 1;
    }
    var lists := ConstraintLists(Q, s.rank);
    var ptr, flat := Flatten(lists);
    T := T.(constraintPtr := ptr, constraints := flat);
    forall v: nat | v < |Q.vertices|
      ensures SliceAt(Q, s.rank, T, v)
    {
      assert lists[v] == ComparedWith(Q, s.rank, v, |Q.constraints|);
    }
  }
}
