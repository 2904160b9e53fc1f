/** A query and a graph on which the constraint kernel misses a match. */
module ConstraintScopes {
  import opened Machine
  import opened Sequences
  import opened Shards
  import opened QueryGraphs
  import opened SlotTables
  import opened Launches
  import opened LaunchTables
  import opened Grids
  import opened PlanCoverage
  import opened GraphMatches

  /** One vertex with edges to two others, which must differ. */
  function ForkQuery(): QueryGraph {
    QueryGraph([QVertex(0, 2, false), QVertex(0, 1, false), QVertex(0, 1, false)],
               [QEdge(0, 0, 1, REGULAR, DIRECTED), QEdge(0, 0, 2, REGULAR, DIRECTED)],
               [QConstraint(1, 2, true)])
  }

  /** A shard with the single edge from u to w. */
  function OneEdge(u: nat, w: nat): Shard {
    Shard([u], u, u, [0, 1], [w])
  }

  /** The edge from 0 to 1, under ids of its own. */
  function EdgePair(uid: nat): ShardPair {
    ShardPair(Leaf(uid, 1, OneEdge(0, 1)), Leaf(uid + 1, 1, OneEdge(1, 0)), Interval(0, 0), Interval(1, 1))
  }

  /** One label with two grid rows: vertex 0 of row 0 has an edge to vertex 1 of row 0 and one to vertex 1 of row 1. */
  function ForkGraph(): GridFile {
    GridFile([0], [2], map[Cell(0, 0, 0) := [EdgePair(0)], Cell(0, 1, 0) := [EdgePair(2)]])
  }

  function ForkMatch(): Assignment {
    Assignment([0, 0, 1], [0, 1, 1])
  }

  lemma {:induction false} OneEdgeIs(u: nat, w: nat, x: nat, y: nat)
    requires u < VERTICES_PER_GRID && w < VERTICES_PER_GRID
    ensures OneEdge(u, w).Valid()
    ensures OneEdge(u, w).HasEdge(x, y) <==> x == u && y == w
  {
    var s := OneEdge(u, w);
    assert s.Adj(u) == [w];
    assert forall v :: v != u ==> s.Adj(v) == [];
  }

  lemma {:induction false} EdgePairOk(uid: nat)
    ensures EdgePair(uid).Ok()
    ensures EdgePair(uid).outEdges.shard.HasEdge(0, 1)
  {
    var pair := EdgePair(uid);
    forall u, w {:trigger pair.inEdges.shard.HasEdge(w, u)} {:trigger pair.outEdges.shard.HasEdge(u, w)}
      ensures pair.inEdges.shard.HasEdge(w, u) <==> pair.outEdges.shard.HasEdge(u, w)
      ensures pair.outEdges.shard.HasEdge(u, w) ==> Within(u, pair.src) && Within(w, pair.dst)
    {
      OneEdgeIs(0, 1, u, w);
      OneEdgeIs(1, 0, w, u);
    }
    OneEdgeIs(0, 1, 0, 1);
    OneEdgeIs(1, 0, 0, 0);
  }

  lemma {:induction false} ForkPairs(cell: Cell, j: nat)
    requires j < |ForkGraph().Pairs(cell)|
    ensures j == 0 && (cell == Cell(0, 0, 0) || cell == Cell(0, 1, 0))
    ensures ForkGraph().Pairs(cell)[j] == EdgePair(2 * cell.col)
  {
  }

  lemma {:induction false} ForkPartitioned()
    ensures ForkGraph().Partitioned()
  {
    var G := ForkGraph();
    forall cell: Cell, j: nat {:trigger G.Pairs(cell)[j]} | j < |G.Pairs(cell)|
      ensures j == 0 && G.Pairs(cell)[j].Ok()
    {
      ForkPairs(cell, j);
      EdgePairOk(2 * cell.col);
    }
  }

  lemma {:induction false} ForkLeaves(leaf: Leaf)
    requires ForkGraph().IsLeaf(leaf)
    ensures leaf.uid <= 3
    ensures leaf == if leaf.uid % 2 == 0 then EdgePair(leaf.uid).outEdges else EdgePair(leaf.uid - 1).inEdges
  {
    var G := ForkGraph();
    var cell: Cell, j: nat :|
      j < |G.Pairs(cell)| && (leaf == G.Pairs(cell)[j].outEdges || leaf == G.Pairs(cell)[j].inEdges);
    ForkPairs(cell, j);
  }

  lemma {:induction false} ForkIds()
    ensures ForkGraph().UniqueIds()
  {
    var G := ForkGraph();
    forall a: Leaf, b: Leaf {:trigger G.IsLeaf(a), G.IsLeaf(b)} | G.IsLeaf(a) && G.IsLeaf(b) && a.uid == b.uid
      ensures a == b
    {
      ForkLeaves(a);
      ForkLeaves(b);
    }
  }

  lemma {:induction false} ForkGraphFits()
    ensures GraphFits(ForkQuery(), ForkGraph())
  {
    ForkPartitioned();
    ForkIds();
  }

  lemma {:induction false} ForkQueryValid()
    ensures ForkQuery().Valid() && DistinctConstraints(ForkQuery())
    ensures VariantFits(Constraint, ForkQuery()) && AllDirected(ForkQuery())
  {
    var edges := ForkQuery().edges;
    DegreeBy(edges, 0);
    DegreeBy(edges, 1);
    DegreeBy(edges, 2);
  }

  lemma {:induction false} DegreeBy(edges: seq<QEdge>, v: nat)
    requires |edges| == 2
    ensures Degree(edges, v) == (if edges[0].Touches(v) then 1 else 0) + if edges[1].Touches(v) then 1 else 0
  {
    assert edges == [] + [edges[0]] + [edges[1]];
    DegreeSnoc([edges[0]], edges[1], v);
    DegreeSnoc([], edges[0], v);
    assert [] + [edges[0]] == [edges[0]] && [edges[0]] + [edges[1]] == edges;
    assert Iota(0) == [];
  }

  lemma {:induction false} ForkEdgeFound(e: nat)
    requires ForkQuery().Valid() && e < |ForkQuery().edges|
    ensures EdgeFound(ForkQuery(), ForkGraph(), e, ForkMatch())
  {
    var G := ForkGraph();
    EdgePairOk(2 * e);
    assert G.Pairs(Cell(0, e, 0)) == [EdgePair(2 * e)];
    assert G.Pairs(Cell(0, e, 0))[0] == EdgePair(2 * e);
    assert G.HasEdge(Cell(0, e, 0), 0, 1);
  }

  /**
   * The assignment is a match whose constrained vertices differ, and it is not counted: their local ids are the same.
   */
  lemma {:induction false} MatchMissed()
    ensures ForkQuery().Valid() && VariantFits(Constraint, ForkQuery()) && GraphFits(ForkQuery(), ForkGraph())
    ensures IsMatch(ForkQuery(), ForkGraph(), ForkMatch()) && VerticesDiffer(ForkQuery(), ForkMatch())
    ensures !IsCounted(Constraint, ForkQuery(), ForkGraph(), ForkMatch())
  {
    ForkQueryValid();
    ForkGraphFits();
    forall e: nat | e < |ForkQuery().edges|
      ensures EdgeFound(ForkQuery(), ForkGraph(), e, ForkMatch())
    {
      ForkEdgeFound(e);
    }
    assert ForkQuery().constraints[0].notEqual && ForkMatch().locals[1] == ForkMatch().locals[2];
  }
}
