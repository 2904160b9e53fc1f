/** What the matches a launch counts are, edge by edge. */
module LaunchMatches {
  import opened Sequences
  import opened Shards
  import opened Intersections
  import opened SearchTrees
  import opened Launches
  import opened QueryGraphs
  import opened Schedules
  import opened SlotTables
  import opened SlotLayouts
  import opened LaunchTables

  /** Subtask k reads both slots of every edge from one shard. */
  ghost predicate Paired(L: Launch, T: Tables, k: nat) {
    && k < |L.subtasks| && L.ShardIdxsOk(L.subtasks[k])
    && |T.v1ListIdxs| == |T.v2ListIdxs| == L.numEdges
    && forall i {:trigger T.v1ListIdxs[i]} :: 0 <= i < L.numEdges ==>
         && T.v1ListIdxs[i] < 2 * L.numEdges && T.v2ListIdxs[i] < 2 * L.numEdges
         && L.subtasks[k][T.v1ListIdxs[i]] == L.subtasks[k][T.v2ListIdxs[i]]
  }

  /** The shard subtask k uses for the edge whose turn is i. */
  ghost function ShardOf(L: Launch, T: Tables, k: nat, i: nat): Shard
    requires Paired(L, T, k) && i < L.numEdges
  {
    assert T.v1ListIdxs[i] < 2 * L.numEdges;
    L.shards[L.subtasks[k][T.v1ListIdxs[i]]]
  }

  /** The assignment b (by depth) satisfies edge e, looked up in the given shard. */
  ghost predicate EdgeFits(Q: QueryGraph, rank: seq<nat>, shard: Shard, e: nat, b: seq<nat>)
    requires Q.Valid() && |rank| == |Q.vertices| == |b| && e < |Q.edges|
    requires forall v {:trigger rank[v]} :: 0 <= v < |rank| ==> rank[v] < |b|
  {
    var u, w := b[rank[EarlierEnd(Q, rank, e)]], b[rank[LaterEnd(Q, rank, e)]];
    match Q.edges[e].kind
    case REGULAR => shard.HasEdge(u, w)
    case NEGATIVE => !shard.HasEdge(u, w)
    case OPTIONAL => true
  }

  ghost predicate ConstraintsFit(Q: QueryGraph, rank: seq<nat>, b: seq<nat>)
    requires Q.Valid() && |rank| == |Q.vertices| == |b|
    requires forall v {:trigger rank[v]} :: 0 <= v < |rank| ==> rank[v] < |b|
  {
    forall c {:trigger Q.constraints[c]} :: 0 <= c < |Q.constraints| && Q.constraints[c].notEqual ==>
      b[rank[Q.constraints[c].v1]] != b[rank[Q.constraints[c].v2]]
  }

  /** A launch with the query, schedule and tables it was filled from; ok says that they belong together. */
  datatype Setting = Setting(L: Launch, Q: QueryGraph, s: Schedule, T: Tables, ok: bool)

  ghost function SettingOf(L: Launch, Q: QueryGraph, s: Schedule, T: Tables): Setting {
    Setting(L, Q, s, T, Belong(L, Q, s, T))
  }

  ghost predicate Belong(L: Launch, Q: QueryGraph, s: Schedule, T: Tables) {
    && Tabled(Q, s, T) && TurnsByEarlierEnd(Q, s) && FromTables(L, Q, s, T) && L.TablesOk() && VariantFits(L.variant, Q)
    && L.SubtasksOk()
    && forall d :: 0 <= d < L.numVertices ==> L.SlotsOkAt(d)
  }

  ghost predicate Good(S: Setting) {
    S.ok && S == SettingOf(S.L, S.Q, S.s, S.T)
  }

  // ----- slots and lists -----

  /** End `first` of the edge whose turn is i is slot j of depth d. */
  ghost predicate EndAt(S: Setting, i: nat, first: bool, d: nat, j: nat)
    requires Good(S)
  {
    && i < |S.Q.edges| && d < S.L.numVertices && j < S.L.Degree(d)
    && Ids(S.s)[i] < |S.Q.edges| && |S.T.v1ListIdxs| == |S.T.v2ListIdxs| == |S.Q.edges|
    && S.L.Slot(d, j) == SlotAt(S.T, i, first) && EndOf(S.Q, Ids(S.s), i, first) == S.s.order[d]
    && S.L.eidList[S.L.Slot(d, j)] == EidAt(S.Q, S.s.rank, Ids(S.s)[i], S.s.order[d])
    && (j < S.L.NumPivots(d) <==> S.Q.edges[Ids(S.s)[i]].kind.REGULAR?)
    && (j < S.L.NumJoin(d) <==>
          S.Q.edges[Ids(S.s)[i]].kind.REGULAR? || S.s.order[d] == LaterEnd(S.Q, S.s.rank, Ids(S.s)[i]))
  }

  /** Every slot of a depth is the end of some edge. */
  lemma {:induction false} EndOfPlace(S: Setting, d: nat, j: nat) returns (i: nat, first: bool)
    requires Good(S) && d < S.L.numVertices && j < S.L.Degree(d)
    ensures EndAt(S, i, first, d, j)
  {
    i, first := SlotKind(S.L, S.Q, S.s, S.T, d, j);
    JoinSizes(S.L, S.Q, S.s, S.T, d);
    EarlierIsEarlier(S.Q, S.s, Ids(S.s)[i]);
  }

  /** Every edge end has its place among the slots of its depth. */
  lemma {:induction false} PlaceOfEnd(S: Setting, i: nat, first: bool) returns (d: nat, j: nat)
    requires Good(S) && i < |S.Q.edges|
    ensures EndAt(S, i, first, d, j) && d == S.s.rank[EndOf(S.Q, Ids(S.s), i, first)]
  {
    SlotFacts(S.Q, S.s, S.T, i, first);
    var v := EndOf(S.Q, Ids(S.s), i, first);
    d := S.s.rank[v];
    SlotOwner(S.Q, S.s, S.T, v, i, first);
    j := SlotAt(S.T, i, first) - S.T.prefixSumDegree[v];
    var i', first' := EndOfPlace(S, d, j);
    if i' != i || first' != first {
      SlotsAtDiffer(S.Q, S.s, S.T, i, first, i', first');
    }
  }

  lemma {:induction false} ShardOfSlot(L: Launch, T: Tables, k: nat, i: nat, first: bool)
    requires Paired(L, T, k) && i < L.numEdges
    ensures SlotAt(T, i, first) < |L.subtasks[k]| && L.subtasks[k][SlotAt(T, i, first)] < |L.shards|
    ensures L.shards[L.subtasks[k][SlotAt(T, i, first)]] == ShardOf(L, T, k, i)
  {
    assert T.v1ListIdxs[i] < 2 * L.numEdges;
  }

  /** A list id below the edges stands for the rows of the slot's shard. */
  lemma {:induction false} RowsList(L: Launch, T: Tables, k: nat, a: seq<nat>, j: nat, i: nat, first: bool)
    requires L.TablesOk() && L.SubtasksOk() && Paired(L, T, k) && |a| < L.numVertices && L.SlotsOkAt(|a|)
    requires j < L.NumJoin(|a|) && i < L.numEdges && SlotAt(T, i, first) == L.Slot(|a|, j)
    requires L.eidList[L.Slot(|a|, j)] < L.numEdges
    ensures L.Lists(k, a)[j] == ShardOf(L, T, k, i).rows
  {
    ShardOfSlot(L, T, k, i, first);
    ListAt(L, k, a, j);
  }

  /** A list id past the edges stands for the neighbours of the value bound at the edge's earlier vertex. */
  lemma {:induction false} AdjList(L: Launch, T: Tables, k: nat, a: seq<nat>, j: nat, i: nat, first: bool, e: nat,
                                   r: nat)
    requires L.TablesOk() && L.SubtasksOk() && Paired(L, T, k) && |a| < L.numVertices && L.SlotsOkAt(|a|)
    requires j < L.NumJoin(|a|) && i < L.numEdges && SlotAt(T, i, first) == L.Slot(|a|, j)
    requires L.eidList[L.Slot(|a|, j)] == e + L.numEdges && e < |L.lv0Dep| && L.lv0Dep[e] == r
    ensures r < |a| && L.Lists(k, a)[j] == ShardOf(L, T, k, i).Adj(a[r])
  {
    ShardOfSlot(L, T, k, i, first);
    ListAt(L, k, a, j);
    assert L.eidList[L.Slot(|a|, j)] - L.numEdges == e;
  }

  /** The list id of an edge end: the edge itself at its earlier vertex, and past the edges at its later one. */
  lemma {:induction false} EidOfEnd(S: Setting, d: nat, j: nat, i: nat, first: bool)
    requires Good(S) && EndAt(S, i, first, d, j)
    ensures
      var e, eid, earlier := Ids(S.s)[i], S.L.eidList[S.L.Slot(d, j)], EarlierEnd(S.Q, S.s.rank, Ids(S.s)[i]);
      if S.s.order[d] == earlier then eid < S.L.numEdges
      else (eid == e + S.L.numEdges && S.L.lv0Dep[e] == S.s.rank[earlier])
  {
    EidLooksBack(S.Q, S.s, S.T, i, S.s.order[d]);
  }

  /** The list a joined slot contributes, in terms of its edge. */
  lemma {:induction false} ListOfEnd(S: Setting, k: nat, a: seq<nat>, j: nat, i: nat, first: bool)
    requires Good(S) && Paired(S.L, S.T, k) && |a| < S.L.numVertices && j < S.L.NumJoin(|a|)
             && EndAt(S, i, first, |a|, j)
    ensures S.L.SlotsOkAt(|a|)
    ensures
      var e, v, lists := Ids(S.s)[i], S.s.order[|a|], S.L.Lists(k, a);
      if v == EarlierEnd(S.Q, S.s.rank, e) then lists[j] == ShardOf(S.L, S.T, k, i).rows
      else
        && S.s.rank[EarlierEnd(S.Q, S.s.rank, e)] < |a|
        && lists[j] == ShardOf(S.L, S.T, k, i).Adj(a[S.s.rank[EarlierEnd(S.Q, S.s.rank, e)]])
  {
    var e := Ids(S.s)[i];
    EidOfEnd(S, |a|, j, i, first);
    if S.s.order[|a|] == EarlierEnd(S.Q, S.s.rank, e) {
      RowsList(S.L, S.T, k, a, j, i, first);
    } else {
      AdjList(S.L, S.T, k, a, j, i, first, e, S.s.rank[EarlierEnd(S.Q, S.s.rank, e)]);
    }
  }

  /** List j of a depth: the rows of its slot's shard, or the neighbours of an earlier value there. */
  lemma {:induction false} ListAt(L: Launch, k: nat, a: seq<nat>, j: nat)
    requires L.TablesOk() && L.SubtasksOk() && k < |L.subtasks| && |a| < L.numVertices && L.SlotsOkAt(|a|)
             && j < L.NumJoin(|a|)
    ensures |L.subtasks[k]| == 2 * L.numEdges && L.subtasks[k][L.Slot(|a|, j)] < |L.shards|
    ensures
      var e, shard := L.eidList[L.Slot(|a|, j)], L.shards[L.subtasks[k][L.Slot(|a|, j)]];
      if e < L.numEdges then L.Lists(k, a)[j] == shard.rows
      else (
        && e < 2 * L.numEdges && L.lv0Dep[e - L.numEdges] < |a|
        && L.Lists(k, a)[j] == shard.Adj(a[L.lv0Dep[e - L.numEdges]]))
  {
    assert L.ShardIdxsOk(L.subtasks[k]);
    assert L.JoinEids(|a|)[j] == L.eidList[L.Slot(|a|, j)];
    assert L.Joined(L.subtasks[k], |a|)[j] == L.shards[L.subtasks[k][L.Slot(|a|, j)]];
  }

  // ----- edges -----

  /** Every depth of b extends the depths before it, in subtask k. */
  ghost predicate Extends(S: Setting, k: nat, b: seq<nat>)
    requires Good(S) && k < |S.L.subtasks| && |b| == S.L.numVertices
  {
    forall d {:trigger ExtendsAt(S, k, b, d)} :: 0 <= d < |b| ==> ExtendsAt(S, k, b, d)
  }

  ghost predicate ExtendsAt(S: Setting, k: nat, b: seq<nat>, d: nat)
    requires Good(S) && k < |S.L.subtasks| && |b| == S.L.numVertices && d < |b|
  {
    S.L.SlotsOkAt(d) && b[d] in S.L.Extensions(k, b[..d])
  }

  lemma {:induction false} RanksInRange(S: Setting, b: seq<nat>)
    requires Good(S) && |b| == S.L.numVertices
    ensures |S.s.rank| == |S.Q.vertices| == |b|
    ensures forall v {:trigger S.s.rank[v]} :: 0 <= v < |S.s.rank| ==> S.s.rank[v] < |b|
  {
  }

  ghost predicate Satisfies(S: Setting, k: nat, b: seq<nat>, i: nat)
    requires Good(S) && Paired(S.L, S.T, k) && |b| == S.L.numVertices && i < |S.Q.edges|
  {
    RanksInRange(S, b);
    SlotFacts(S.Q, S.s, S.T, i, true);
    EdgeFits(S.Q, S.s.rank, ShardOf(S.L, S.T, k, i), Ids(S.s)[i], b)
  }

  lemma {:induction false} LaterList(S: Setting, k: nat, b: seq<nat>, i: nat) returns (d: nat, j: nat)
    requires Good(S) && Paired(S.L, S.T, k) && |b| == S.L.numVertices && i < |S.Q.edges|
    requires Ids(S.s)[i] < |S.Q.edges| && !S.Q.edges[Ids(S.s)[i]].kind.OPTIONAL?
    ensures
      var e := Ids(S.s)[i];
      var r := S.s.rank[EarlierEnd(S.Q, S.s.rank, e)];
      && d == S.s.rank[LaterEnd(S.Q, S.s.rank, e)] < |b| && r < d && S.L.SlotsOkAt(d)
      && j < S.L.NumJoin(d) && (j < S.L.NumPivots(d) <==> S.Q.edges[e].kind.REGULAR?)
      && S.L.Lists(k, b[..d])[j] == ShardOf(S.L, S.T, k, i).Adj(b[r])
  {
    var e := Ids(S.s)[i];
    d, j := PlaceOfEnd(S, i, S.Q.edges[e].v1 == LaterEnd(S.Q, S.s.rank, e));
    EarlierIsEarlier(S.Q, S.s, e);
    ListOfEnd(S, k, b[..d], j, i, S.Q.edges[e].v1 == LaterEnd(S.Q, S.s.rank, e));
  }

  /** An edge is tested at its later endpoint, against the value bound at the earlier one. */
  lemma {:induction false} EdgeTested(S: Setting, k: nat, b: seq<nat>, i: nat)
    requires Good(S) && Paired(S.L, S.T, k) && |b| == S.L.numVertices && i < |S.Q.edges|
    requires Extends(S, k, b)
    ensures Satisfies(S, k, b, i)
  {
    SlotFacts(S.Q, S.s, S.T, i, true);
    if !S.Q.edges[Ids(S.s)[i]].kind.OPTIONAL? {
      var d, j := LaterList(S, k, b, i);
      assert ExtendsAt(S, k, b, d);
      PassesAt(S, k, b[..d], b[d], j);
    }
  }

  lemma {:induction false} PassesAt(S: Setting, k: nat, a: seq<nat>, v: nat, j: nat)
    requires Good(S) && k < |S.L.subtasks| && |a| < S.L.numVertices && S.L.SlotsOkAt(|a|) && j < S.L.NumJoin(|a|)
    requires v in S.L.Extensions(k, a)
    ensures v in S.L.Lists(k, a)[j] <==> j < S.L.NumPivots(|a|)
  {
  }

  lemma {:induction false} SlotSatisfied(S: Setting, k: nat, b: seq<nat>, d: nat, j: nat)
    requires Good(S) && Paired(S.L, S.T, k) && |b| == S.L.numVertices && d < |b| && S.L.SlotsOkAt(d)
             && j < S.L.NumJoin(d)
    requires forall i {:trigger Satisfies(S, k, b, i)} :: 0 <= i < |S.Q.edges| ==> Satisfies(S, k, b, i)
    ensures b[d] in S.L.Lists(k, b[..d])[j] <==> j < S.L.NumPivots(d)
  {
    var i, first := EndOfPlace(S, d, j);
    var a, e := b[..d], Ids(S.s)[i];
    ListOfEnd(S, k, a, j, i, first);
    assert Satisfies(S, k, b, i);
    RankAt(S.s.order, S.s.rank, d);
    if S.s.order[d] == EarlierEnd(S.Q, S.s.rank, e) {
      EarlierIsEarlier(S.Q, S.s, e);
      InRows(S.L, S.T, k, i, b[d], b[S.s.rank[LaterEnd(S.Q, S.s.rank, e)]]);
    }
  }

  /** A vertex with an out-edge in the shard is among its rows. */
  lemma {:induction false} InRows(L: Launch, T: Tables, k: nat, i: nat, u: nat, w: nat)
    requires Paired(L, T, k) && i < L.numEdges && AllValid(L.shards) && ShardOf(L, T, k, i).HasEdge(u, w)
    ensures u in ShardOf(L, T, k, i).rows
  {
    ShardOfSlot(L, T, k, i, true);
    assert L.shards[L.subtasks[k][SlotAt(T, i, true)]].Valid();
  }

  // ----- constraints -----

  ghost predicate Compares(Q: QueryGraph, rank: seq<nat>, c: nat, v: nat, x: nat)
    requires Q.Valid() && |rank| == |Q.vertices| && c < |Q.constraints|
  {
    var con := Q.constraints[c];
    && con.notEqual
    && if rank[con.v1] < rank[con.v2] then v == con.v2 && x == rank[con.v1] else v == con.v1 && x == rank[con.v2]
  }

  lemma {:induction false} ComparedMembers(Q: QueryGraph, rank: seq<nat>, v: nat, n: nat, x: nat)
    requires Q.Valid() && |rank| == |Q.vertices| && n <= |Q.constraints|
    ensures x in ComparedWith(Q, rank, v, n) <==>
              exists c {:trigger Compares(Q, rank, c, v, x)} :: 0 <= c < n && Compares(Q, rank, c, v, x)
  {
    if n > 0 {
      ComparedMembers(Q, rank, v, n - 1, x);
      assert x in ComparedWith(Q, rank, v, n) <==>
            x in ComparedWith(Q, rank, v, n - 1) || Compares(Q, rank, n - 1, v, x);
    }
  }

  /** At depth d nothing is bound to a value the constraints exclude there. */
  ghost predicate NotExcluded(Q: QueryGraph, s: Schedule, b: seq<nat>, d: nat)
    requires Q.Valid() && |s.rank| == |Q.vertices| == |s.order| == |b| && d < |b|
  {
    forall x: nat {:trigger x in ComparedWith(Q, s.rank, s.order[d], |Q.constraints|)} ::
      x in ComparedWith(Q, s.rank, s.order[d], |Q.constraints|) && x < |b| ==> b[d] != b[x]
  }

  lemma {:induction false} ConstraintsByDepth(Q: QueryGraph, s: Schedule, b: seq<nat>)
    requires Q.Valid() && |s.order| == |Q.vertices| == |b| && RanksAre(s.order, s.rank)
    ensures ConstraintsFit(Q, s.rank, b) <==> forall d {:trigger NotExcluded(Q, s, b, d)} :: 0 <= d < |b| ==>
              NotExcluded(Q, s, b, d)
  {
    if ConstraintsFit(Q, s.rank, b) {
      forall d, x: nat | 0 <= d < |b| && x in ComparedWith(Q, s.rank, s.order[d], |Q.constraints|) && x < |b|
        ensures b[d] != b[x]
      {
        ComparedMembers(Q, s.rank, s.order[d], |Q.constraints|, x);
        RankAt(s.order, s.rank, d);
      }
    }
    if forall d {:trigger NotExcluded(Q, s, b, d)} :: 0 <= d < |b| ==> NotExcluded(Q, s, b, d) {
      forall c | 0 <= c < |Q.constraints| && Q.constraints[c].notEqual
        ensures b[s.rank[Q.constraints[c].v1]] != b[s.rank[Q.constraints[c].v2]]
      {
        ConstraintHolds(Q, s, b, c);
      }
    }
  }

  lemma {:induction false} ConstraintHolds(Q: QueryGraph, s: Schedule, b: seq<nat>, c: nat)
    requires Q.Valid() && |s.order| == |Q.vertices| == |b| && RanksAre(s.order, s.rank)
    requires forall d {:trigger NotExcluded(Q, s, b, d)} :: 0 <= d < |b| ==> NotExcluded(Q, s, b, d)
    requires c < |Q.constraints| && Q.constraints[c].notEqual
    ensures b[s.rank[Q.constraints[c].v1]] != b[s.rank[Q.constraints[c].v2]]
  {
    var con := Q.constraints[c];
    var r1, r2 := s.rank[con.v1], s.rank[con.v2];
    var d, x, v := if r1 < r2 then r2 else r1, if r1 < r2 then r1 else r2, if r1 < r2 then con.v2 else con.v1;
    assert Compares(Q, s.rank, c, v, x);
    ComparedMembers(Q, s.rank, v, |Q.constraints|, x);
    assert s.order[d] == v && NotExcluded(Q, s, b, d);
  }

  // ----- the meaning of a match -----

  /** In the constraint kernel, the values excluded at a depth are those of the compared depths. */
  lemma {:induction false} ExcludedAre(S: Setting, b: seq<nat>, d: nat)
    requires Good(S) && |b| == S.L.numVertices && d < |b| && S.L.SlotsOkAt(d)
    ensures b[d] !in S.L.CompareValues(b[..d]) <==> S.L.variant.Constraint? ==> NotExcluded(S.Q, S.s, b, d)
  {
    var values := S.L.CompareValues(b[..d]);
    if S.L.variant.Constraint? {
      var ranks := ComparedWith(S.Q, S.s.rank, S.s.order[d], |S.Q.constraints|);
      ConstraintSlice(S.L, S.Q, S.s, S.T, d);
      assert |values| == |ranks| && forall i :: 0 <= i < |ranks| ==> ranks[i] < d && values[i] == b[ranks[i]];
      ValuesOf(b, ranks, values, b[d]);
    } else {
      assert values == [];
    }
  }

  lemma {:induction false} ValuesOf(b: seq<nat>, ranks: seq<nat>, values: seq<nat>, v: nat)
    requires |values| == |ranks| && forall i :: 0 <= i < |ranks| ==> ranks[i] < |b| && values[i] == b[ranks[i]]
    ensures v !in values <==> forall x: nat {:trigger x in ranks} :: x in ranks && x < |b| ==> v != b[x]
  {
    if v in values {
      var i :| 0 <= i < |values| && values[i] == v;
      assert ranks[i] in ranks;
    }
    forall x: nat | x in ranks && x < |b| && v == b[x]
      ensures v in values
    {
      var i :| 0 <= i < |ranks| && ranks[i] == x;
      assert values[i] == v;
    }
  }

  /** b satisfies every edge of the query in subtask k's shards, and, in the constraint kernel, every NOT_EQUAL. */
  ghost predicate IsEmbedding(S: Setting, k: nat, b: seq<nat>)
    requires Good(S) && Paired(S.L, S.T, k)
  {
    && |b| == S.L.numVertices
    && EdgesHold(S, k, b)
    && (S.L.variant.Constraint? ==> ConstraintsHold(S, b))
  }

  ghost predicate EdgesHold(S: Setting, k: nat, b: seq<nat>)
    requires Good(S) && Paired(S.L, S.T, k) && |b| == S.L.numVertices
  {
    forall i {:trigger Satisfies(S, k, b, i)} :: 0 <= i < |S.Q.edges| ==> Satisfies(S, k, b, i)
  }

  ghost predicate ConstraintsHold(S: Setting, b: seq<nat>)
    requires Good(S) && |b| == S.L.numVertices
  {
    RanksInRange(S, b);
    ConstraintsFit(S.Q, S.s.rank, b)
  }

  lemma {:induction false} EmbeddingExtends(S: Setting, k: nat, b: seq<nat>, d: nat)
    requires Good(S) && Paired(S.L, S.T, k) && IsEmbedding(S, k, b) && d < |b|
    ensures ExtendsAt(S, k, b, d)
  {
    assert S.L.SlotsOkAt(d);
    var lists := S.L.Lists(k, b[..d]);
    forall j | 0 <= j < |lists|
      ensures b[d] in lists[j] <==> j < S.L.NumPivots(d)
    {
      SlotSatisfied(S, k, b, d, j);
    }
    ExcludedAre(S, b, d);
    if S.L.variant.Constraint? {
      RanksInRange(S, b);
      ConstraintsByDepth(S.Q, S.s, b);
      assert NotExcluded(S.Q, S.s, b, d);
    }
  }

  lemma {:induction false} ExtendsIsEmbedding(S: Setting, k: nat, b: seq<nat>)
    requires Good(S) && Paired(S.L, S.T, k) && |b| == S.L.numVertices && Extends(S, k, b)
    ensures IsEmbedding(S, k, b)
  {
    forall i {:trigger Satisfies(S, k, b, i)} | 0 <= i < |S.Q.edges|
      ensures Satisfies(S, k, b, i)
    {
      EdgeTested(S, k, b, i);
    }
    if S.L.variant.Constraint? {
      RanksInRange(S, b);
      forall d {:trigger NotExcluded(S.Q, S.s, b, d)} | 0 <= d < |b|
        ensures NotExcluded(S.Q, S.s, b, d)
      {
        assert ExtendsAt(S, k, b, d);
        ExcludedAre(S, b, d);
      }
      ConstraintsByDepth(S.Q, S.s, b);
    }
  }

  lemma {:induction false} MatchExtends(S: Setting, k: nat, b: seq<nat>)
    requires Good(S) && Paired(S.L, S.T, k) && |b| == S.L.numVertices
    ensures S.L.TheSearch().IsMatchFrom(k, [], b) <==> Extends(S, k, b)
  {
    assert S.L.Ready();
    forall d | 0 <= d < |b|
      ensures b[d] in S.L.Candidates(k, b[..d]) <==> ExtendsAt(S, k, b, d)
    {
      S.L.CandidatesAre(k, b[..d]);
    }
  }

  /**
   * The matches of a subtask are exactly the assignments for which every regular edge is in the subtask's shard, no
   * negative edge is, and (in the constraint kernel) no NOT_EQUAL constraint is violated.
   */
  lemma {:induction false} MatchMeaning(S: Setting, k: nat, b: seq<nat>)
    requires Good(S) && Paired(S.L, S.T, k)
    ensures S.L.TheSearch().IsMatchFrom(k, [], b) <==> IsEmbedding(S, k, b)
  {
    if |b| == S.L.numVertices {
      MatchExtends(S, k, b);
      if IsEmbedding(S, k, b) {
        forall d {:trigger ExtendsAt(S, k, b, d)} | 0 <= d < |b|
          ensures ExtendsAt(S, k, b, d)
        {
          EmbeddingExtends(S, k, b, d);
        }
      }
      if Extends(S, k, b) {
        ExtendsIsEmbedding(S, k, b);
      }
    }
  }

  /** The list of a subtask's matches holds every embedding exactly once. */
  lemma {:induction false} MatchesAreEmbeddings(S: Setting, k: nat)
    requires Good(S) && Paired(S.L, S.T, k)
    ensures NoDup(S.L.TheSearch().Matches(k, []))
    ensures forall b :: b in S.L.TheSearch().Matches(k, []) <==> IsEmbedding(S, k, b)
  {
    var search := S.L.TheSearch();
    forall a: seq<nat>
      ensures NoDup(search.cand(k, a))
    {
      NoDupCandidatesAt(S.L, k, a);
    }
    search.MatchesAre(k, []);
    forall b
      ensures b in search.Matches(k, []) <==> IsEmbedding(S, k, b)
    {
      MatchMeaning(S, k, b);
    }
  }

  lemma {:induction false} NoDupCandidatesAt(L: Launch, k: nat, a: seq<nat>)
    ensures NoDup(L.Candidates(k, a))
  {
    if L.Ready() && k < |L.subtasks| && |a| < L.numVertices {
      assert L.SlotsOkAt(|a|);
      L.CandidatesAre(k, a);
    }
  }
}
