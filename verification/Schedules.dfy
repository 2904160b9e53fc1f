/** Reordering the query: who owns which edge, the final vertex order, and the order in which edges take their turn. */
module Schedules {
  import opened Sequences
  import opened QueryGraphs

  datatype AdjEntry = AdjEntry(edge: nat, opposite: nat)

  /** An edge and the rank of the vertex that owns it. */
  datatype Turn = Turn(edge: nat, order: nat)

  datatype Schedule = Schedule(order: seq<nat>, rank: seq<nat>, turns: seq<Turn>, elevelToVlevel: seq<nat>,
                               postfix: seq<nat>, optionalPostfix: seq<nat>)

  /** rank is the inverse of the vertex order. */
  ghost predicate RanksAre(order: seq<nat>, rank: seq<nat>) {
    && |rank| == |order| && IsPermutation(order, |order|)
    && (forall v {:trigger rank[v]} :: 0 <= v < |rank| ==> rank[v] < |order| && order[rank[v]] == v)
  }

  lemma {:induction false} RankAt(order: seq<nat>, rank: seq<nat>, i: nat)
    requires RanksAre(order, rank) && i < |order|
    ensures order[i] < |rank| && rank[order[i]] == i
  {
    assert order[rank[order[i]]] == order[i];
  }

  method RanksOf(order: seq<nat>) returns (rank: seq<nat>)
    requires IsPermutation(order, |order|)
    ensures RanksAre(order, rank)
  {
    rank := seq(|order|, v => 0);
    var i := 0;
    while i < |order|
      invariant 0 <= i <= |order| && |rank| == |order|
      invariant forall j {:trigger order[j]} :: 0 <= j < i ==> rank[order[j]] == j
    {
      rank := rank[order[i] := i];
      i := i + 1;
    }
    PermutationReaches(order, |order|);
    forall v {:trigger rank[v]} | 0 <= v < |rank|
      ensures rank[v] < |order| && order[rank[v]] == v
    {
      assert v in order;
      var j :| 0 <= j < |order| && order[j] == v;
    }
  }

  // ----- edge ownership -----

  /** The endpoint whose adjacency list takes edge e. */
  function Owner(Q: QueryGraph, rank: seq<nat>, e: nat): (v: nat)
    requires Q.Valid() && |rank| == |Q.vertices| && e < |Q.edges|
    ensures v < |Q.vertices| && Q.edges[e].Touches(v)
  {
    var edge := Q.edges[e];
    if Q.OptionalWithRegular(e) then
      if !Q.vertices[edge.v1].isOptional then edge.v2 else edge.v1
    else if rank[edge.v1] < rank[edge.v2] then edge.v1
    else edge.v2
  }

  function EdgeIds(adj: seq<AdjEntry>): (ids: seq<nat>)
    ensures |ids| == |adj| && forall j :: 0 <= j < |adj| ==> ids[j] == adj[j].edge
  {
    seq(|adj|, j requires 0 <= j < |adj| => adj[j].edge)
  }

  /** adj[v] lists the edges below n that v owns, each once. */
  ghost predicate AdjOk(Q: QueryGraph, rank: seq<nat>, adj: seq<seq<AdjEntry>>, n: nat)
    requires Q.Valid() && |rank| == |Q.vertices| && n <= |Q.edges|
  {
    && |adj| == |Q.vertices|
    && forall v {:trigger adj[v]} :: 0 <= v < |adj| ==> ListsOwned(Q, rank, adj[v], v, n)
  }

  ghost predicate ListsOwned(Q: QueryGraph, rank: seq<nat>, list: seq<AdjEntry>, v: nat, n: nat)
    requires Q.Valid() && |rank| == |Q.vertices| && n <= |Q.edges|
  {
    && NoDup(EdgeIds(list))
    && forall e: nat :: e in EdgeIds(list) <==> e < n && Owner(Q, rank, e) == v
  }

  lemma {:induction false} OwnedSnoc(Q: QueryGraph, rank: seq<nat>, adj: seq<seq<AdjEntry>>, e: nat, entry: AdjEntry)
    requires Q.Valid() && |rank| == |Q.vertices| && e < |Q.edges| && AdjOk(Q, rank, adj, e) && entry.edge == e
    ensures AdjOk(Q, rank, adj[Owner(Q, rank, e) := adj[Owner(Q, rank, e)] + [entry]], e + 1)
  {
    var v := Owner(Q, rank, e);
    var adj' := adj[v := adj[v] + [entry]];
    assert EdgeIds(adj[v] + [entry]) == EdgeIds(adj[v]) + [e];
    assert ListsOwned(Q, rank, adj[v], v, e);
    forall w {:trigger adj'[w]} | 0 <= w < |adj'|
      ensures ListsOwned(Q, rank, adj'[w], w, e + 1)
    {
      assert ListsOwned(Q, rank, adj[w], w, e);
    }
  }

  /** By what an owner sorts its edges: the given order's entry for the other endpoint. */
  ghost function KeysOf(Q: QueryGraph, order: seq<nat>, rank: seq<nat>): (keys: seq<nat>)
    requires Q.Valid() && |order| == |rank| == |Q.vertices|
    ensures |keys| == |Q.edges|
    ensures forall e {:trigger keys[e]} :: 0 <= e < |keys| ==> keys[e] == order[Q.edges[e].Other(Owner(Q, rank, e))]
  {
    seq(|Q.edges|, e requires 0 <= e < |Q.edges| => order[Q.edges[e].Other(Owner(Q, rank, e))])
  }

  /** Every entry carries the key of its edge. */
  ghost predicate Keyed(keys: seq<nat>, list: seq<AdjEntry>) {
    forall j {:trigger list[j]} :: 0 <= j < |list| ==> list[j].edge < |keys| && list[j].opposite == keys[list[j].edge]
  }

  ghost predicate AllKeyed(keys: seq<nat>, adj: seq<seq<AdjEntry>>) {
    forall v {:trigger adj[v]} :: 0 <= v < |adj| ==> Keyed(keys, adj[v])
  }

  lemma {:induction false} KeyedSnoc(keys: seq<nat>, adj: seq<seq<AdjEntry>>, v: nat, entry: AdjEntry)
    requires AllKeyed(keys, adj) && v < |adj| && entry.edge < |keys| && entry.opposite == keys[entry.edge]
    ensures AllKeyed(keys, adj[v := adj[v] + [entry]])
  {
    assert Keyed(keys, adj[v]);
    assert Keyed(keys, adj[v] + [entry]);
  }

  lemma {:induction false} KeyedSame(keys: seq<nat>, list: seq<AdjEntry>, list': seq<AdjEntry>)
    requires Keyed(keys, list) && SameElements(list, list')
    ensures Keyed(keys, list')
  {
    forall j {:trigger list'[j]} | 0 <= j < |list'|
      ensures list'[j].edge < |keys| && list'[j].opposite == keys[list'[j].edge]
    {
      assert list'[j] in list;
    }
  }

  /** Hands every edge to its owner, with the key to sort it by. */
  method Distribute(Q: QueryGraph, order: seq<nat>, rank: seq<nat>) returns (adj: seq<seq<AdjEntry>>)
    requires Q.Valid() && |order| == |Q.vertices| && RanksAre(order, rank)
    ensures AdjOk(Q, rank, adj, |Q.edges|) && AllKeyed(KeysOf(Q, order, rank), adj)
  {
    ghost var keys := KeysOf(Q, order, rank);
    adj := seq(|Q.vertices|, v => []);
    var i := 0;
    while i < |Q.edges|
      invariant 0 <= i <= |Q.edges| && AdjOk(Q, rank, adj, i) && AllKeyed(keys, adj)
    {
      var e := Q.edges[i];
      var v, entry;
      if Q.OptionalWithRegular(i) {
        if !Q.vertices[e.v1].isOptional {
          v, entry := e.v2, AdjEntry(i, order[e.v1]);
        } else {
          v, entry := e.v1, AdjEntry(i, order[e.v2]);
        }
      } else if rank[e.v1] < rank[e.v2] {
        v, entry := e.v1, AdjEntry(i, order[e.v2]);
      } else {
        v, entry := e.v2, AdjEntry(i, order[e.v1]);
      }
      OwnedSnoc(Q, rank, adj, i, entry);
      KeyedSnoc(keys, adj, v, entry);
      adj := adj[v := adj[v] + [entry]];
      i := i + 1;
    }
  }

  // ----- sorting an adjacency list -----

  ghost predicate SortedByOpposite(list: seq<AdjEntry>) {
    forall i, j :: 0 <= i < j < |list| ==> list[i].opposite <= list[j].opposite
  }

  /** No two entries are for the same edge. */
  ghost predicate DistinctEdges(list: seq<AdjEntry>) {
    forall i, j :: 0 <= i < j < |list| ==> list[i].edge != list[j].edge
  }

  method Insert(entry: AdjEntry, list: seq<AdjEntry>) returns (list': seq<AdjEntry>)
    requires SortedByOpposite(list) && DistinctEdges(list)
    requires forall j :: 0 <= j < |list| ==> list[j].edge != entry.edge
    ensures SortedByOpposite(list') && DistinctEdges(list')
    ensures forall x :: x in list' <==> x == entry || x in list
  {
    var i := |list|;
    while i > 0 && list[i - 1].opposite > entry.opposite
      invariant 0 <= i <= |list|
      invariant forall j :: i <= j < |list| ==> list[j].opposite > entry.opposite
    {
      i := i - 1;
    }
    list' := list[..i] + [entry] + list[i..];
    InsertedElements(entry, list, i, list');
  }

  lemma {:induction false} InsertedElements(entry: AdjEntry, list: seq<AdjEntry>, i: nat, list': seq<AdjEntry>)
    requires i <= |list| && list' == list[..i] + [entry] + list[i..]
    ensures forall x :: x in list' <==> x == entry || x in list
  {
    assert list == list[..i] + list[i..];
  }

  /** One sorted arrangement; callers only learn that it is sorted and a rearrangement, as with an unstable sort. */
  method SortByOpposite(list: seq<AdjEntry>) returns (list': seq<AdjEntry>)
    requires DistinctEdges(list)
    ensures SortedByOpposite(list') && DistinctEdges(list') && SameElements(list, list')
  {
    list' := [];
    var i := 0;
    while i < |list|
      invariant 0 <= i <= |list|
      invariant SortedByOpposite(list') && DistinctEdges(list') && SameElements(list[..i], list')
    {
      assert list[..i + 1] == list[..i] + [list[i]];
      forall j | 0 <= j < |list'|
        ensures list'[j].edge != list[i].edge
      {
        assert list'[j] in list[..i];
      }
      list' := Insert(list[i], list');
      i := i + 1;
    }
    assert list[..i] == list;
  }

  lemma {:induction false} SortedOwned(Q: QueryGraph, rank: seq<nat>, list: seq<AdjEntry>, list': seq<AdjEntry>, v: nat)
    requires Q.Valid() && |rank| == |Q.vertices|
    requires ListsOwned(Q, rank, list, v, |Q.edges|) && DistinctEdges(list') && SameElements(list, list')
    ensures ListsOwned(Q, rank, list', v, |Q.edges|)
  {
    forall e: nat
      ensures e in EdgeIds(list') <==> e in EdgeIds(list)
    {
      if e in EdgeIds(list) {
        var j :| 0 <= j < |list| && EdgeIds(list)[j] == e;
        assert list[j] in list';
        var j' :| 0 <= j' < |list'| && list'[j'] == list[j];
        assert EdgeIds(list')[j'] == e;
      }
      if e in EdgeIds(list') {
        var j :| 0 <= j < |list'| && EdgeIds(list')[j] == e;
        assert list'[j] in list;
        var j' :| 0 <= j' < |list| && list[j'] == list'[j];
        assert EdgeIds(list)[j'] == e;
      }
    }
  }

  method SortAll(ghost Q: QueryGraph, ghost rank: seq<nat>, ghost keys: seq<nat>, adj: seq<seq<AdjEntry>>)
    returns (adj': seq<seq<AdjEntry>>)
    requires Q.Valid() && |rank| == |Q.vertices| && AdjOk(Q, rank, adj, |Q.edges|) && AllKeyed(keys, adj)
    ensures AdjOk(Q, rank, adj', |Q.edges|) && AllKeyed(keys, adj')
    ensures forall v {:trigger adj'[v]} :: 0 <= v < |adj'| ==> SortedByOpposite(adj'[v])
  {
    adj' := adj;
    var v := 0;
    while v < |adj|
      invariant 0 <= v <= |adj| == |adj'|
      invariant AdjOk(Q, rank, adj', |Q.edges|) && AllKeyed(keys, adj')
      invariant forall w {:trigger adj'[w]} :: 0 <= w < v ==> SortedByOpposite(adj'[w])
    {
      assert ListsOwned(Q, rank, adj'[v], v, |Q.edges|);
      assert DistinctEdges(adj'[v]) by {
        assert NoDup(EdgeIds(adj'[v]));
      }
      var sorted := SortByOpposite(adj'[v]);
      SortedOwned(Q, rank, adj'[v], sorted, v);
      KeyedSame(keys, adj'[v], sorted);
      adj' := adj'[v := sorted];
      v := v + 1;
    }
  }

  // ----- the turns -----

  function TurnEdges(turns: seq<Turn>): (ids: seq<nat>)
    ensures |ids| == |turns| && forall t :: 0 <= t < |turns| ==> ids[t] == turns[t].edge
  {
    seq(|turns|, t requires 0 <= t < |turns| => turns[t].edge)
  }

  /** The turns of the placed vertices: every edge they own, vertex by vertex. */
  ghost predicate TurnsOk(Q: QueryGraph, rank: seq<nat>, placed: seq<nat>, turns: seq<Turn>, levels: seq<nat>)
    requires Q.Valid() && |rank| == |Q.vertices|
  {
    && |levels| == |turns|
    && (forall t {:trigger turns[t]} :: 0 <= t < |turns| ==>
          && levels[t] == turns[t].order < |placed| && turns[t].edge < |Q.edges|
          && Owner(Q, rank, turns[t].edge) == placed[turns[t].order])
    && (forall s, t :: 0 <= s < t < |turns| ==> turns[s].order <= turns[t].order)
    && NoDup(TurnEdges(turns))
    && (forall e: nat :: e in TurnEdges(turns) <==> e < |Q.edges| && Owner(Q, rank, e) in placed)
  }

  /** The turns of one vertex go by the keys of their edges. */
  ghost predicate TurnsSorted(keys: seq<nat>, turns: seq<Turn>) {
    && (forall t {:trigger turns[t]} :: 0 <= t < |turns| ==> turns[t].edge < |keys|)
    && forall s, t {:trigger turns[s], turns[t]} :: 0 <= s < t < |turns| && turns[s].order == turns[t].order ==>
         keys[turns[s].edge] <= keys[turns[t].edge]
  }

  lemma {:induction false} PlacedSorted(keys: seq<nat>, list: seq<AdjEntry>, order: nat, turns: seq<Turn>,
                                        own: seq<Turn>, ownLevels: seq<nat>, turns': seq<Turn>)
    requires TurnsSorted(keys, turns) && Keyed(keys, list) && SortedByOpposite(list)
    requires forall i {:trigger turns[i]} :: 0 <= i < |turns| ==> turns[i].order < order
    requires OwnTurns(list, order, own, ownLevels) && turns' == turns + own
    ensures TurnsSorted(keys, turns')
  {
    var n := |turns|;
    forall t {:trigger turns'[t]} | 0 <= t < |turns'|
      ensures turns'[t].edge < |keys|
    {
      assert t >= n ==> turns'[t] == own[t - n];
    }
    forall s, t {:trigger turns'[s], turns'[t]} | 0 <= s < t < |turns'| && turns'[s].order == turns'[t].order
      ensures keys[turns'[s].edge] <= keys[turns'[t].edge]
    {
      assert turns'[s] == if s < n then turns[s] else own[s - n];
      assert turns'[t] == if t < n then turns[t] else own[t - n];
      if n <= s {
        assert list[s - n].opposite <= list[t - n].opposite;
      }
    }
  }

  /** Places vertex v next and gives the edges it owns their turns. */
  method PlaceVertex(Q: QueryGraph, ghost rank: seq<nat>, ghost keys: seq<nat>, list: seq<AdjEntry>, v: nat,
                     placed: seq<nat>, turns: seq<Turn>, levels: seq<nat>)
    returns (placed': seq<nat>, turns': seq<Turn>, levels': seq<nat>)
    requires Q.Valid() && |rank| == |Q.vertices| && ListsOwned(Q, rank, list, v, |Q.edges|)
    requires TurnsOk(Q, rank, placed, turns, levels) && v !in placed
    requires TurnsSorted(keys, turns) && Keyed(keys, list) && SortedByOpposite(list)
    ensures placed' == placed + [v] && TurnsOk(Q, rank, placed', turns', levels') && TurnsSorted(keys, turns')
  {
    placed', turns', levels' := placed + [v], turns, levels;
    ghost var own: seq<Turn>, ownLevels: seq<nat> := [], [];
    var j := 0;
    while j < |list|
      invariant 0 <= j <= |list| && |own| == j && OwnTurns(list, |placed|, own, ownLevels)
      invariant turns' == turns + own && levels' == levels + ownLevels
    {
      OwnSnoc(list, |placed|, own, ownLevels);
      var turn := Turn(list[j].edge, |placed|);
      AppendSnoc(turns, own, turn);
      AppendSnoc(levels, ownLevels, |placed|);
      turns' := turns' + [turn];
      levels' := levels' + [|placed|];
      own, ownLevels := own + [turn], ownLevels + [|placed|];
      j := j + 1;
    }
    PlacedTurns(Q, rank, list, v, placed, turns, levels, own, ownLevels, turns');
    PlacedSorted(keys, list, |placed|, turns, own, ownLevels, turns');
  }

  lemma {:induction false} AppendSnoc<T>(a: seq<T>, b: seq<T>, x: T)
    ensures a + b + [x] == a + (b + [x])
  {
  }

  /** The first turns of a vertex's list, all in the place of that vertex. */
  ghost predicate OwnTurns(list: seq<AdjEntry>, order: nat, own: seq<Turn>, ownLevels: seq<nat>) {
    && |own| == |ownLevels| <= |list|
    && forall t {:trigger own[t]} :: 0 <= t < |own| ==>
         own[t] == Turn(list[t].edge, order) && ownLevels[t] == order
  }

  lemma {:induction false} OwnSnoc(list: seq<AdjEntry>, order: nat, own: seq<Turn>, ownLevels: seq<nat>)
    requires OwnTurns(list, order, own, ownLevels) && |own| < |list|
    ensures OwnTurns(list, order, own + [Turn(list[|own|].edge, order)], ownLevels + [order])
  {
  }

  lemma {:induction false} PlacedOwners(Q: QueryGraph, rank: seq<nat>, list: seq<AdjEntry>, v: nat, placed: seq<nat>,
                                        turns: seq<Turn>, levels: seq<nat>, own: seq<Turn>, ownLevels: seq<nat>,
                                        t: nat)
    requires Q.Valid() && |rank| == |Q.vertices| && ListsOwned(Q, rank, list, v, |Q.edges|)
    requires TurnsOk(Q, rank, placed, turns, levels) && OwnTurns(list, |placed|, own, ownLevels)
    requires t < |turns| + |own|
    ensures
      var turn := (turns + own)[t];
      && (levels + ownLevels)[t] == turn.order < |placed| + 1 && turn.edge < |Q.edges|
      && Owner(Q, rank, turn.edge) == (placed + [v])[turn.order]
  {
    if t < |turns| {
      assert (turns + own)[t] == turns[t];
    } else {
      assert (turns + own)[t] == own[t - |turns|] && EdgeIds(list)[t - |turns|] in EdgeIds(list);
    }
  }

  lemma {:induction false} PlacedEdges(Q: QueryGraph, rank: seq<nat>, list: seq<AdjEntry>, v: nat, placed: seq<nat>,
                                       turns: seq<Turn>, levels: seq<nat>, own: seq<Turn>, ownLevels: seq<nat>)
    requires Q.Valid() && |rank| == |Q.vertices| && ListsOwned(Q, rank, list, v, |Q.edges|)
    requires TurnsOk(Q, rank, placed, turns, levels) && v !in placed && OwnTurns(list, |placed|, own, ownLevels)
             && |own| == |list|
    ensures NoDup(TurnEdges(turns + own))
    ensures forall e: nat :: e in TurnEdges(turns + own) <==> e < |Q.edges| && Owner(Q, rank, e) in placed + [v]
  {
    assert TurnEdges(turns + own) == TurnEdges(turns) + EdgeIds(list);
    NoDupConcat(TurnEdges(turns), EdgeIds(list));
    forall e: nat
      ensures e in TurnEdges(turns + own) <==> e < |Q.edges| && Owner(Q, rank, e) in placed + [v]
    {
      assert e in TurnEdges(turns + own) <==> e in TurnEdges(turns) || e in EdgeIds(list);
    }
  }

  lemma {:induction false} PlacedInOrder(list: seq<AdjEntry>, turns: seq<Turn>, own: seq<Turn>, ownLevels: seq<nat>,
                                         order: nat, s: nat, t: nat)
    requires forall i, j :: 0 <= i < j < |turns| ==> turns[i].order <= turns[j].order
    requires forall i {:trigger turns[i]} :: 0 <= i < |turns| ==> turns[i].order < order
    requires OwnTurns(list, order, own, ownLevels) && s < t < |turns| + |own|
    ensures (turns + own)[s].order <= (turns + own)[t].order
  {
    var n := |turns|;
    if t < n {
      assert (turns + own)[s] == turns[s] && (turns + own)[t] == turns[t];
    } else if s < n {
      assert (turns + own)[s] == turns[s] && (turns + own)[t] == own[t - n];
    } else {
      assert (turns + own)[s] == own[s - n] && (turns + own)[t] == own[t - n];
    }
  }

  lemma {:induction false} PlacedTurns(Q: QueryGraph, rank: seq<nat>, list: seq<AdjEntry>, v: nat, placed: seq<nat>,
                                       turns: seq<Turn>, levels: seq<nat>, own: seq<Turn>, ownLevels: seq<nat>,
                                       turns': seq<Turn>)
    requires Q.Valid() && |rank| == |Q.vertices| && ListsOwned(Q, rank, list, v, |Q.edges|)
    requires TurnsOk(Q, rank, placed, turns, levels) && v !in placed && OwnTurns(list, |placed|, own, ownLevels)
             && |own| == |list|
    requires turns' == turns + own
    ensures TurnsOk(Q, rank, placed + [v], turns', levels + ownLevels)
  {
    forall t {:trigger turns'[t]} | 0 <= t < |turns'|
      ensures (levels + ownLevels)[t] == turns'[t].order < |placed| + 1 && turns'[t].edge < |Q.edges|
      ensures Owner(Q, rank, turns'[t].edge) == (placed + [v])[turns'[t].order]
    {
      PlacedOwners(Q, rank, list, v, placed, turns, levels, own, ownLevels, t);
    }
    PlacedEdges(Q, rank, list, v, placed, turns, levels, own, ownLevels);
    forall s, t | 0 <= s < t < |turns'|
      ensures turns'[s].order <= turns'[t].order
    {
      PlacedInOrder(list, turns, own, ownLevels, |placed|, s, t);
    }
  }

  // ----- the new order -----

  /** Where a vertex goes: with or without edges of its own, regular or optional. */
  datatype Class = Joined | Postfix | LateJoined | LatePostfix

  ghost predicate Owns(Q: QueryGraph, rank: seq<nat>, v: nat)
    requires Q.Valid() && |rank| == |Q.vertices|
  {
    exists e: nat {:trigger Owner(Q, rank, e)} :: e < |Q.edges| && Owner(Q, rank, e) == v
  }

  ghost function ClassOf(Q: QueryGraph, rank: seq<nat>, v: nat): Class
    requires Q.Valid() && |rank| == |Q.vertices| && v < |Q.vertices|
  {
    if Q.vertices[v].isOptional then if Owns(Q, rank, v) then LateJoined else LatePostfix
    else if Owns(Q, rank, v) then Joined else Postfix
  }

  ghost function ClassSet(Q: QueryGraph, rank: seq<nat>, c: Class): iset<nat>
    requires Q.Valid() && |rank| == |Q.vertices|
  {
    iset v: nat | v < |Q.vertices| && ClassOf(Q, rank, v) == c
  }

  /** The vertices of one class, in the order they were given. */
  ghost function Part(Q: QueryGraph, rank: seq<nat>, order: seq<nat>, c: Class): seq<nat>
    requires Q.Valid() && |rank| == |Q.vertices|
  {
    FilterIn(ClassSet(Q, rank, c), order)
  }

  lemma {:induction false} EmptyListOwnsNothing(Q: QueryGraph, rank: seq<nat>, list: seq<AdjEntry>, v: nat)
    requires Q.Valid() && |rank| == |Q.vertices| && ListsOwned(Q, rank, list, v, |Q.edges|)
    ensures list == [] <==> !Owns(Q, rank, v)
  {
    if list != [] {
      assert EdgeIds(list)[0] in EdgeIds(list);
    }
    if Owns(Q, rank, v) {
      var e: nat :| e < |Q.edges| && Owner(Q, rank, e) == v;
      assert e in EdgeIds(list);
    }
  }

  lemma {:induction false} PartSnoc(Q: QueryGraph, rank: seq<nat>, order: seq<nat>, c: Class, i: nat)
    requires Q.Valid() && |rank| == |Q.vertices| && i < |order| && order[i] < |Q.vertices|
    ensures Part(Q, rank, order[..i + 1], c)
         == Part(Q, rank, order[..i], c) + if ClassOf(Q, rank, order[i]) == c then [order[i]] else []
  {
    FilterSnoc(ClassSet(Q, rank, c), order, i);
  }

  ghost predicate SortedLists(keys: seq<nat>, adj: seq<seq<AdjEntry>>) {
    forall v {:trigger adj[v]} :: 0 <= v < |adj| ==> Keyed(keys, adj[v]) && SortedByOpposite(adj[v])
  }

  /** Vertices without edges of their own are placed without a turn. */
  lemma {:induction false} PlaceIdle(Q: QueryGraph, rank: seq<nat>, vs: seq<nat>, placed: seq<nat>, turns: seq<Turn>,
                                     levels: seq<nat>)
    requires Q.Valid() && |rank| == |Q.vertices| && TurnsOk(Q, rank, placed, turns, levels)
    requires forall i {:trigger vs[i]} :: 0 <= i < |vs| ==> !Owns(Q, rank, vs[i])
    ensures TurnsOk(Q, rank, placed + vs, turns, levels)
  {
    forall e: nat | e < |Q.edges|
      ensures Owner(Q, rank, e) in placed + vs <==> Owner(Q, rank, e) in placed
    {
      assert Owns(Q, rank, Owner(Q, rank, e));
    }
  }

  lemma {:induction false} PartMembers(Q: QueryGraph, rank: seq<nat>, order: seq<nat>, c: Class)
    requires Q.Valid() && |rank| == |Q.vertices| && NoDup(order)
    ensures NoDup(Part(Q, rank, order, c))
    ensures forall v :: v in Part(Q, rank, order, c) <==> v in order && v in ClassSet(Q, rank, c)
  {
    FilterNoDup(ClassSet(Q, rank, c), order);
  }

  lemma {:induction false} NextVertex(Q: QueryGraph, order: seq<nat>, rank: seq<nat>, adj: seq<seq<AdjEntry>>, i: nat)
    requires Q.Valid() && |order| == |Q.vertices| && RanksAre(order, rank) && AdjOk(Q, rank, adj, |Q.edges|)
             && i < |order|
    ensures order[i] < |adj| && ListsOwned(Q, rank, adj[order[i]], order[i], |Q.edges|)
    ensures ClassOf(Q, rank, order[i]) == if adj[order[i]] == [] then
              if Q.vertices[order[i]].isOptional then LatePostfix else Postfix
            else if Q.vertices[order[i]].isOptional then LateJoined else Joined
    ensures order[i] !in Part(Q, rank, order[..i], Joined)
    ensures forall c: Class {:trigger Part(Q, rank, order[..i + 1], c)} ::
              Part(Q, rank, order[..i + 1], c)
              == if ClassOf(Q, rank, order[i]) == c then Part(Q, rank, order[..i], c) + [order[i]]
                 else Part(Q, rank, order[..i], c)
  {
    var v := order[i];
    assert ListsOwned(Q, rank, adj[v], v, |Q.edges|);
    EmptyListOwnsNothing(Q, rank, adj[v], v);
    PartMembers(Q, rank, order[..i], Joined);
    forall c: Class
      ensures Part(Q, rank, order[..i + 1], c) == if ClassOf(Q, rank, v) == c then Part(Q, rank, order[..i], c) + [v]
                                                  else Part(Q, rank, order[..i], c)
    {
      PartSnoc(Q, rank, order, c, i);
    }
  }

  /** The first pass: joined vertices get their turns, the others are set aside. */
  method SplitOrder(Q: QueryGraph, order: seq<nat>, ghost rank: seq<nat>, ghost keys: seq<nat>,
                    adj: seq<seq<AdjEntry>>)
    returns (joined: seq<nat>, turns: seq<Turn>, levels: seq<nat>, postfix: seq<nat>, late: seq<nat>,
             latePostfix: seq<nat>)
    requires Q.Valid() && |order| == |Q.vertices| && RanksAre(order, rank) && AdjOk(Q, rank, adj, |Q.edges|)
    requires SortedLists(keys, adj)
    ensures joined == Part(Q, rank, order, Joined) && postfix == Part(Q, rank, order, Postfix)
    ensures late == Part(Q, rank, order, LateJoined) && latePostfix == Part(Q, rank, order, LatePostfix)
    ensures TurnsOk(Q, rank, joined, turns, levels) && TurnsSorted(keys, turns)
  {
    joined, turns, levels, postfix, late, latePostfix := [], [], [], [], [], [];
    var i := 0;
    while i < |order|
      invariant 0 <= i <= |order|
      invariant joined == Part(Q, rank, order[..i], Joined) && postfix == Part(Q, rank, order[..i], Postfix)
      invariant late == Part(Q, rank, order[..i], LateJoined) && latePostfix == Part(Q, rank, order[..i], LatePostfix)
      invariant TurnsOk(Q, rank, joined, turns, levels) && TurnsSorted(keys, turns)
    {
      var v := order[i];
      NextVertex(Q, order, rank, adj, i);
      if adj[v] == [] {
        if !Q.vertices[v].isOptional {
          postfix := postfix + [v];
        } else {
          latePostfix := latePostfix + [v];
        }
      } else if !Q.vertices[v].isOptional {
        joined, turns, levels := PlaceVertex(Q, rank, keys, adj[v], v, joined, turns, levels);
      } else {
        late := late + [v];
      }
      i := i + 1;
    }
    assert order[..i] == order;
  }

  /** The new order: a stable partition of the given one. */
  ghost predicate OrderOk(Q: QueryGraph, order: seq<nat>, rank: seq<nat>, s: Schedule)
    requires Q.Valid() && |rank| == |Q.vertices|
  {
    && s.order == Part(Q, rank, order, Joined) + Part(Q, rank, order, Postfix)
                  + Part(Q, rank, order, LateJoined) + Part(Q, rank, order, LatePostfix)
    && s.postfix == Part(Q, rank, order, Postfix) && s.optionalPostfix == Part(Q, rank, order, LatePostfix)
    && |s.order| == |Q.vertices| && RanksAre(s.order, s.rank)
  }

  /** What the reordering delivers, in terms of the ranks it started from. */
  ghost predicate Reordered(Q: QueryGraph, order: seq<nat>, rank: seq<nat>, s: Schedule)
    requires Q.Valid() && |rank| == |Q.vertices|
  {
    && OrderOk(Q, order, rank, s) && TurnsOk(Q, rank, s.order, s.turns, s.elevelToVlevel)
    && |order| == |Q.vertices| && TurnsSorted(KeysOf(Q, order, rank), s.turns)
  }

  lemma {:induction false} OrderIsPermutation(Q: QueryGraph, rank: seq<nat>, order: seq<nat>, order': seq<nat>)
    requires Q.Valid() && |order| == |Q.vertices| && RanksAre(order, rank)
    requires order' == Part(Q, rank, order, Joined) + Part(Q, rank, order, Postfix)
                       + Part(Q, rank, order, LateJoined) + Part(Q, rank, order, LatePostfix)
    ensures IsPermutation(order', |Q.vertices|)
  {
    var a, b := Part(Q, rank, order, Joined), Part(Q, rank, order, Postfix);
    var c, d := Part(Q, rank, order, LateJoined), Part(Q, rank, order, LatePostfix);
    PartMembers(Q, rank, order, Joined);
    PartMembers(Q, rank, order, Postfix);
    PartMembers(Q, rank, order, LateJoined);
    PartMembers(Q, rank, order, LatePostfix);
    NoDupConcat(a, b);
    NoDupConcat(a + b, c);
    NoDupConcat(a + b + c, d);
    forall v
      ensures v in order' <==> v in order
    {
      if v in order {
        assert v < |Q.vertices|;
      }
    }
    SameLength(order', order);
    forall i | 0 <= i < |order'|
      ensures order'[i] < |Q.vertices|
    {
      assert order'[i] in order;
    }
  }

  lemma {:induction false} PartsIdle(Q: QueryGraph, rank: seq<nat>, order: seq<nat>, c: Class)
    requires Q.Valid() && |rank| == |Q.vertices| && NoDup(order) && (c.Postfix? || c.LatePostfix?)
    ensures forall i {:trigger Part(Q, rank, order, c)[i]} :: 0 <= i < |Part(Q, rank, order, c)| ==>
              !Owns(Q, rank, Part(Q, rank, order, c)[i])
  {
    PartMembers(Q, rank, order, c);
    var vs := Part(Q, rank, order, c);
    forall i {:trigger vs[i]} | 0 <= i < |vs|
      ensures !Owns(Q, rank, vs[i])
    {
      assert vs[i] in vs;
    }
  }

  /** The last vertices with edges of their own: the optional ones. */
  method PlaceLate(Q: QueryGraph, ghost rank: seq<nat>, ghost keys: seq<nat>, adj: seq<seq<AdjEntry>>,
                   late: seq<nat>, placed: seq<nat>, turns: seq<Turn>, levels: seq<nat>)
    returns (placed': seq<nat>, turns': seq<Turn>, levels': seq<nat>)
    requires Q.Valid() && |rank| == |Q.vertices| && AdjOk(Q, rank, adj, |Q.edges|)
    requires TurnsOk(Q, rank, placed, turns, levels) && NoDup(placed + late)
    requires forall i {:trigger late[i]} :: 0 <= i < |late| ==> late[i] < |Q.vertices|
    requires SortedLists(keys, adj) && TurnsSorted(keys, turns)
    ensures placed' == placed + late && TurnsOk(Q, rank, placed', turns', levels') && TurnsSorted(keys, turns')
  {
    placed', turns', levels' := placed, turns, levels;
    var i := 0;
    while i < |late|
      invariant 0 <= i <= |late|
      invariant placed' == placed + late[..i] && TurnsOk(Q, rank, placed', turns', levels')
      invariant TurnsSorted(keys, turns')
    {
      var v := late[i];
      assert ListsOwned(Q, rank, adj[v], v, |Q.edges|);
      NotYetPlaced(placed, late, i);
      assert late[..i + 1] == late[..i] + [v];
      placed', turns', levels' := PlaceVertex(Q, rank, keys, adj[v], v, placed', turns', levels');
      i := i + 1;
    }
    assert late[..i] == late;
  }

  lemma {:induction false} NotYetPlaced(placed: seq<nat>, late: seq<nat>, i: nat)
    requires NoDup(placed + late) && i < |late|
    ensures late[i] !in placed + late[..i]
  {
    var all := placed + late;
    assert all[|placed| + i] == late[i];
    forall j | 0 <= j < |placed + late[..i]|
      ensures (placed + late[..i])[j] != late[i]
    {
      assert (placed + late[..i])[j] == all[j];
    }
  }

  lemma {:induction false} NoDupPrefixOf(s: seq<nat>, t: seq<nat>)
    requires NoDup(s + t)
    ensures NoDup(s)
  {
    forall i, j | 0 <= i < j < |s|
      ensures s[i] != s[j]
    {
      assert (s + t)[i] == s[i] && (s + t)[j] == s[j];
    }
  }

  /** The whole reordering. */
  method Reorder(Q: QueryGraph, order: seq<nat>) returns (s: Schedule, ghost rank0: seq<nat>)
    requires Q.Valid() && IsPermutation(order, |Q.vertices|)
    ensures RanksAre(order, rank0) && Reordered(Q, order, rank0, s)
  {
    var rank := RanksOf(order);
    rank0 := rank;
    var adj := Distribute(Q, order, rank);
    ghost var keys := KeysOf(Q, order, rank);
    adj := SortAll(Q, rank, keys, adj);
    var placed, turns, levels, postfix, late, latePostfix := SplitOrder(Q, order, rank, keys, adj);
    OrderIsPermutation(Q, rank, order, placed + postfix + late + latePostfix);
    NoDupPrefixOf(placed + postfix + late, latePostfix);
    PartsIdle(Q, rank, order, Postfix);
    PlaceIdle(Q, rank, postfix, placed, turns, levels);
    placed := placed + postfix;
    PartMembers(Q, rank, order, LateJoined);
    assert forall i {:trigger late[i]} :: 0 <= i < |late| ==> late[i] in late;
    placed, turns, levels := PlaceLate(Q, rank, keys, adj, late, placed, turns, levels);
    PartsIdle(Q, rank, order, LatePostfix);
    PlaceIdle(Q, rank, latePostfix, placed, turns, levels);
    placed := placed + latePostfix;
    var rank' := RanksOf(placed);
    s := Schedule(placed, rank', turns, levels, postfix, latePostfix);
  }

  // ----- consequences -----

  /** Filtering keeps the order. */
  lemma {:induction false} FilterKeepsOrder(good: iset<nat>, order: seq<nat>, part: seq<nat>, i: nat, j: nat)
    returns (i': nat, j': nat)
    requires part == FilterIn(good, order) && i < j < |part|
    ensures i' < j' < |order| && order[i'] == part[i] && order[j'] == part[j]
    decreases |order|
  {
    if order[0] !in good {
      i', j' := FilterKeepsOrder(good, order[1..], part, i, j);
      i', j' := i' + 1, j' + 1;
    } else if i > 0 {
      i', j' := FilterKeepsOrder(good, order[1..], part[1..], i - 1, j - 1);
      i', j' := i' + 1, j' + 1;
    } else {
      i' := 0;
      FilterFrom(good, order[1..]);
      assert part[j] == part[1..][j - 1] && part[1..][j - 1] in part[1..];
      var k :| 0 <= k < |order[1..]| && order[1..][k] == part[j];
      j' := k + 1;
    }
  }

  lemma {:induction false} FilterFrom(good: iset<nat>, vs: seq<nat>)
    ensures forall v :: v in FilterIn(good, vs) ==> v in vs
    decreases |vs|
  {
    if vs != [] {
      FilterFrom(good, vs[1..]);
    }
  }

  /** Where the vertices of a class start in the new order. */
  ghost function Offset(Q: QueryGraph, rank: seq<nat>, order: seq<nat>, c: Class): nat
    requires Q.Valid() && |rank| == |Q.vertices|
  {
    (if c.Joined? then 0 else |Part(Q, rank, order, Joined)|)
    + (if c.Joined? || c.Postfix? then 0 else |Part(Q, rank, order, Postfix)|)
    + (if c.LatePostfix? then |Part(Q, rank, order, LateJoined)| else 0)
  }

  /** all holds part from position at on. */
  ghost predicate SitsAt(all: seq<nat>, part: seq<nat>, at: nat) {
    at + |part| <= |all| && forall j: nat {:trigger Sits(all, part, at, j)} :: j < |part| ==> Sits(all, part, at, j)
  }

  ghost predicate Sits(all: seq<nat>, part: seq<nat>, at: nat, j: nat) {
    j < |part| && at + j < |all| && all[at + j] == part[j]
  }

  lemma {:induction false} FourParts(a: seq<nat>, b: seq<nat>, c: seq<nat>, d: seq<nat>, all: seq<nat>)
    requires all == a + b + c + d
    ensures SitsAt(all, a, 0) && SitsAt(all, b, |a|) && SitsAt(all, c, |a| + |b|) && SitsAt(all, d, |a| + |b| + |c|)
  {
  }

  lemma {:induction false} PartSits(Q: QueryGraph, rank: seq<nat>, order: seq<nat>, s: Schedule, c: Class)
    requires Q.Valid() && |rank| == |Q.vertices| && OrderOk(Q, order, rank, s)
    ensures SitsAt(s.order, Part(Q, rank, order, c), Offset(Q, rank, order, c))
  {
    FourParts(Part(Q, rank, order, Joined), Part(Q, rank, order, Postfix), Part(Q, rank, order, LateJoined),
              Part(Q, rank, order, LatePostfix), s.order);
  }

  lemma {:induction false} RankOfPart(all: seq<nat>, rank: seq<nat>, part: seq<nat>, at: nat, v: nat)
    requires RanksAre(all, rank) && SitsAt(all, part, at) && v in part
    ensures v < |rank| && at <= rank[v] < at + |part| && part[rank[v] - at] == v
  {
    var j: nat :| j < |part| && part[j] == v;
    assert Sits(all, part, at, j);
    RankAt(all, rank, at + j);
  }

  lemma {:induction false} InItsPart(Q: QueryGraph, rank: seq<nat>, order: seq<nat>, v: nat)
    requires Q.Valid() && |order| == |Q.vertices| && RanksAre(order, rank) && v < |Q.vertices|
    ensures v in Part(Q, rank, order, ClassOf(Q, rank, v))
  {
    PartMembers(Q, rank, order, ClassOf(Q, rank, v));
    PermutationReaches(order, |order|);
  }

  /** Where a vertex ends up. */
  lemma {:induction false} Segment(Q: QueryGraph, rank: seq<nat>, order: seq<nat>, s: Schedule, v: nat, c: Class,
                                   part: seq<nat>, at: nat)
    requires Q.Valid() && |order| == |Q.vertices| && RanksAre(order, rank) && v < |Q.vertices|
    requires c == ClassOf(Q, rank, v) && part == Part(Q, rank, order, c)
    requires RanksAre(s.order, s.rank) && SitsAt(s.order, part, at)
    ensures v < |s.rank| && at <= s.rank[v] < at + |part| && part[s.rank[v] - at] == v
  {
    InItsPart(Q, rank, order, v);
    RankOfPart(s.order, s.rank, part, at, v);
  }

  lemma {:induction false} SegmentOf(Q: QueryGraph, rank: seq<nat>, order: seq<nat>, s: Schedule, v: nat)
    requires Q.Valid() && |order| == |Q.vertices| && RanksAre(order, rank) && OrderOk(Q, order, rank, s)
             && v < |Q.vertices|
    ensures Offset(Q, rank, order, ClassOf(Q, rank, v)) <= s.rank[v]
    ensures s.rank[v] < Offset(Q, rank, order, ClassOf(Q, rank, v)) + |Part(Q, rank, order, ClassOf(Q, rank, v))|
  {
    var c := ClassOf(Q, rank, v);
    PartSits(Q, rank, order, s, c);
    Segment(Q, rank, order, s, v, c, Part(Q, rank, order, c), Offset(Q, rank, order, c));
  }

  /** Regular vertices come before optional ones. */
  lemma {:induction false} RegularFirst(Q: QueryGraph, rank: seq<nat>, order: seq<nat>, s: Schedule, i: nat, j: nat)
    requires Q.Valid() && |order| == |Q.vertices| && RanksAre(order, rank) && Reordered(Q, order, rank, s)
    requires i < j < |s.order| && Q.vertices[s.order[i]].isOptional
    ensures Q.vertices[s.order[j]].isOptional
  {
    SegmentOf(Q, rank, order, s, s.order[i]);
    SegmentOf(Q, rank, order, s, s.order[j]);
  }

  /** Two vertices of one class keep the order they were given in. */
  lemma {:induction false} ClassKeepsOrder(Q: QueryGraph, rank: seq<nat>, order: seq<nat>, s: Schedule, v: nat, w: nat)
    requires Q.Valid() && |order| == |Q.vertices| && RanksAre(order, rank) && OrderOk(Q, order, rank, s)
    requires v < |Q.vertices| && w < |Q.vertices| && ClassOf(Q, rank, v) == ClassOf(Q, rank, w)
    ensures rank[v] < rank[w] <==> s.rank[v] < s.rank[w]
  {
    var c := ClassOf(Q, rank, v);
    var at := Offset(Q, rank, order, c);
    var i := PlaceInPart(Q, rank, order, s, v, c, at);
    var j := PlaceInPart(Q, rank, order, s, w, c, at);
    PartRanks(ClassSet(Q, rank, c), order, rank, Part(Q, rank, order, c), i, j);
  }

  lemma {:induction false} PlaceInPart(Q: QueryGraph, rank: seq<nat>, order: seq<nat>, s: Schedule, v: nat, c: Class,
                                       at: nat)
    returns (i: nat)
    requires Q.Valid() && |order| == |Q.vertices| && RanksAre(order, rank) && OrderOk(Q, order, rank, s)
             && v < |Q.vertices|
    requires c == ClassOf(Q, rank, v) && at == Offset(Q, rank, order, c)
    ensures i < |Part(Q, rank, order, c)| && Part(Q, rank, order, c)[i] == v && s.rank[v] == at + i
  {
    PartSits(Q, rank, order, s, c);
    Segment(Q, rank, order, s, v, c, Part(Q, rank, order, c), at);
    i := s.rank[v] - at;
  }

  lemma {:induction false} PartRanks(good: iset<nat>, order: seq<nat>, rank: seq<nat>, part: seq<nat>, i: nat, j: nat)
    requires RanksAre(order, rank) && part == FilterIn(good, order) && i < |part| && j < |part|
    ensures part[i] < |rank| && part[j] < |rank| && (rank[part[i]] < rank[part[j]] <==> i < j)
  {
    if i < j {
      var i', j' := FilterKeepsOrder(good, order, part, i, j);
      RankAt(order, rank, i');
      RankAt(order, rank, j');
    } else if j < i {
      var j', i' := FilterKeepsOrder(good, order, part, j, i);
      RankAt(order, rank, i');
      RankAt(order, rank, j');
    } else {
      FilterFrom(good, order);
      assert part[i] in part;
    }
  }

  /**
   * In the new order the owner of an edge still comes before its other endpoint, except that an optional edge hanging
   * off the regular part is owned by its optional endpoint, which comes after.
   */
  lemma {:induction false} OwnerPrecedes(Q: QueryGraph, rank: seq<nat>, order: seq<nat>, s: Schedule, e: nat)
    requires Q.Valid() && |order| == |Q.vertices| && RanksAre(order, rank) && Reordered(Q, order, rank, s)
             && e < |Q.edges|
    ensures
      var o := Owner(Q, rank, e);
      var w := Q.edges[e].Other(o);
      if Q.OptionalWithRegular(e) then s.rank[w] < s.rank[o] else s.rank[o] < s.rank[w]
  {
    var o := Owner(Q, rank, e);
    var w := Q.edges[e].Other(o);
    SegmentOf(Q, rank, order, s, o);
    SegmentOf(Q, rank, order, s, w);
    assert Owns(Q, rank, o);
    if !Q.OptionalWithRegular(e) {
      if !Q.edges[e].kind.OPTIONAL? {
        Q.AnchoredEnds(e);
      }
      RanksDiffer(order, rank, o, w);
      if ClassOf(Q, rank, o) == ClassOf(Q, rank, w) {
        ClassKeepsOrder(Q, rank, order, s, o, w);
      }
    }
  }

  lemma {:induction false} RanksDiffer(order: seq<nat>, rank: seq<nat>, v: nat, w: nat)
    requires RanksAre(order, rank) && v < |rank| && w < |rank| && v != w
    ensures rank[v] != rank[w]
  {
    assert order[rank[v]] == v && order[rank[w]] == w;
  }

  /** Every edge takes exactly one turn. */
  lemma {:induction false} TurnsArePermutation(Q: QueryGraph, rank: seq<nat>, order: seq<nat>, s: Schedule)
    requires Q.Valid() && |order| == |Q.vertices| && RanksAre(order, rank) && Reordered(Q, order, rank, s)
    ensures |s.turns| == |s.elevelToVlevel| == |Q.edges|
    ensures IsPermutation(TurnEdges(s.turns), |Q.edges|)
  {
    var ids, all := TurnEdges(s.turns), Iota(|Q.edges|);
    PermutationReaches(s.order, |s.order|);
    forall e
      ensures e in ids <==> e in all
    {
      if e in all {
        assert Owner(Q, rank, e) in s.order;
      }
      if e in ids {
        assert all[e] == e;
      }
    }
    SameLength(ids, all);
  }

  /** Without optional vertices, exactly the depths before the postfix vertices have turns. */
  lemma {:induction false} LevelsWithTurns(Q: QueryGraph, rank: seq<nat>, order: seq<nat>, s: Schedule, d: nat)
    requires Q.Valid() && |order| == |Q.vertices| && RanksAre(order, rank) && Reordered(Q, order, rank, s)
    requires forall v {:trigger Q.vertices[v]} :: 0 <= v < |Q.vertices| ==> !Q.vertices[v].isOptional
    requires d < |s.order|
    ensures d + |s.postfix| < |s.order| <==>
              exists t {:trigger s.turns[t]} :: 0 <= t < |s.turns| && s.turns[t].order == d
  {
    var v := s.order[d];
    SegmentOf(Q, rank, order, s, v);
    NoLateVertices(Q, rank, order);
    assert d + |s.postfix| < |s.order| <==> Owns(Q, rank, v);
    if Owns(Q, rank, v) {
      var e: nat :| e < |Q.edges| && Owner(Q, rank, e) == v;
      assert e in TurnEdges(s.turns);
      var t :| 0 <= t < |s.turns| && TurnEdges(s.turns)[t] == e;
      assert s.order[s.turns[t].order] == v;
    }
    if t: nat :| t < |s.turns| && s.turns[t].order == d {
      assert Owner(Q, rank, s.turns[t].edge) == v;
    }
  }

  lemma {:induction false} NoLateVertices(Q: QueryGraph, rank: seq<nat>, order: seq<nat>)
    requires Q.Valid() && |order| == |Q.vertices| && RanksAre(order, rank)
    requires forall v {:trigger Q.vertices[v]} :: 0 <= v < |Q.vertices| ==> !Q.vertices[v].isOptional
    ensures Part(Q, rank, order, LateJoined) == [] && Part(Q, rank, order, LatePostfix) == []
  {
    PartMembers(Q, rank, order, LateJoined);
    PartMembers(Q, rank, order, LatePostfix);
    NoMembers(Part(Q, rank, order, LateJoined));
    NoMembers(Part(Q, rank, order, LatePostfix));
  }

  lemma {:induction false} NoMembers(s: seq<nat>)
    requires forall v :: v !in s
    ensures s == []
  {
    if s != [] {
      var v := SomeMember(s);
    }
  }

  lemma {:induction false} SomeMember(s: seq<nat>) returns (v: nat)
    requires s != []
    ensures v in s
  {
    v := s[0];
  }
}
