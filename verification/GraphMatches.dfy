/** What a match of a query in the partitioned data graph is, away from plans and launches. */
module GraphMatches {
  import opened Machine
  import opened Sequences
  import opened QueryGraphs
  import opened SlotTables
  import opened Launches
  import opened Grids
  import opened PlanCoverage

  ghost predicate AllDirected(Q: QueryGraph) {
    forall e {:trigger Q.edges[e]} :: 0 <= e < |Q.edges| ==> Q.edges[e].dir.DIRECTED?
  }

  /** The graph's cells are partitioned into shards with ids of their own, and every label of the query has its rows. */
  ghost predicate GraphFits(Q: QueryGraph, G: GridFile) {
    && G.Partitioned() && G.UniqueIds()
    && forall v {:trigger Q.vertices[v]} :: 0 <= v < |Q.vertices| ==> Q.vertices[v].labelId < |G.minRow|
  }

  /** The data graph has the edge that e asks for between the assigned vertices. */
  ghost predicate EdgeFound(Q: QueryGraph, G: GridFile, e: nat, h: Assignment)
    requires Q.Valid() && |h.grids| == |h.locals| == |Q.vertices| && e < |Q.edges|
  {
    var edge := Q.edges[e];
    G.HasEdge(Cell(h.grids[edge.v1], h.grids[edge.v2], edge.labelId), h.locals[edge.v1], h.locals[edge.v2])
  }

  /** Every vertex goes to a grid row of its label and a local id. */
  ghost predicate Placed(Q: QueryGraph, G: GridFile, h: Assignment)
    requires Q.Valid() && GraphFits(Q, G)
  {
    && |h.grids| == |h.locals| == |Q.vertices|
    && forall v {:trigger h.grids[v]} {:trigger h.locals[v]} :: 0 <= v < |Q.vertices| ==>
         && G.minRow[Q.vertices[v].labelId] <= h.grids[v] < G.maxRow[Q.vertices[v].labelId]
         && h.locals[v] < VERTICES_PER_GRID
  }

  /** h maps the query into the data graph: every vertex to one with its label, every edge to one with its label. */
  ghost predicate IsMatch(Q: QueryGraph, G: GridFile, h: Assignment)
    requires Q.Valid() && GraphFits(Q, G)
  {
    && Placed(Q, G, h)
    && forall e: nat {:trigger EdgeFound(Q, G, e, h)} :: e < |Q.edges| ==> EdgeFound(Q, G, e, h)
  }

  /** The matches that are counted: in the constraint kernel those that also tell constrained vertices apart. */
  ghost predicate IsCounted(variant: Variant, Q: QueryGraph, G: GridFile, h: Assignment)
    requires Q.Valid() && GraphFits(Q, G)
  {
    IsMatch(Q, G, h) && (variant.Constraint? ==> LocalsDiffer(Q, h))
  }

  /** matches lists every counted match, and each once. */
  ghost predicate MatchesAre(variant: Variant, Q: QueryGraph, G: GridFile, matches: seq<Assignment>)
    requires Q.Valid() && GraphFits(Q, G)
  {
    NoDup(matches) && forall h {:trigger h in matches} :: h in matches <==> IsCounted(variant, Q, G, h)
  }

  /** Their number does not depend on how they are listed. */
  lemma {:induction false} OneNumber(variant: Variant, Q: QueryGraph, G: GridFile, matches: seq<Assignment>,
                                     matches': seq<Assignment>)
    requires Q.Valid() && GraphFits(Q, G) && MatchesAre(variant, Q, G, matches) && MatchesAre(variant, Q, G, matches')
    ensures |matches| == |matches'|
  {
    forall h
      ensures h in matches <==> h in matches'
    {
      assert h in matches <==> IsCounted(variant, Q, G, h);
    }
    SameLength(matches, matches');
  }

  /** No NOT_EQUAL constraint finds the same local id at both of its vertices. */
  ghost predicate LocalsDiffer(Q: QueryGraph, h: Assignment)
    requires Q.Valid() && |h.locals| == |Q.vertices|
  {
    forall c {:trigger Q.constraints[c]} :: 0 <= c < |Q.constraints| && Q.constraints[c].notEqual ==>
      h.locals[Q.constraints[c].v1] != h.locals[Q.constraints[c].v2]
  }

  // ----- local ids and vertices -----

  /** Every NOT_EQUAL constraint sees two different vertices of the data graph. */
  ghost predicate VerticesDiffer(Q: QueryGraph, h: Assignment)
    requires Q.Valid() && |h.grids| == |h.locals| == |Q.vertices|
  {
    forall c {:trigger Q.constraints[c]} :: 0 <= c < |Q.constraints| && Q.constraints[c].notEqual ==>
      var v, w := Q.constraints[c].v1, Q.constraints[c].v2;
      h.grids[v] != h.grids[w] || h.locals[v] != h.locals[w]
  }

  /** The label of vertex v has a single grid row, row r. */
  predicate OnlyRow(Q: QueryGraph, G: GridFile, v: nat, r: nat)
    requires v < |Q.vertices| && Q.vertices[v].labelId < |G.minRow| == |G.maxRow|
  {
    G.minRow[Q.vertices[v].labelId] == r && G.maxRow[Q.vertices[v].labelId] == r + 1
  }

  /** Constrained vertices have no room to differ in their grid. */
  ghost predicate OneRowEach(Q: QueryGraph, G: GridFile)
    requires Q.Valid() && GraphFits(Q, G)
  {
    forall c {:trigger Q.constraints[c]} :: 0 <= c < |Q.constraints| && Q.constraints[c].notEqual ==>
      var v, w := Q.constraints[c].v1, Q.constraints[c].v2;
      OnlyRow(Q, G, v, G.minRow[Q.vertices[v].labelId]) && OnlyRow(Q, G, w, G.minRow[Q.vertices[v].labelId])
  }

  ghost predicate RowsExist(Q: QueryGraph, G: GridFile)
    requires Q.Valid() && GraphFits(Q, G)
  {
    forall v {:trigger Q.vertices[v]} :: 0 <= v < |Q.vertices| ==>
      G.minRow[Q.vertices[v].labelId] < G.maxRow[Q.vertices[v].labelId]
  }

  ghost predicate LocalTestExact(Q: QueryGraph, G: GridFile, h: Assignment)
    requires Q.Valid() && GraphFits(Q, G) && Placed(Q, G, h)
  {
    LocalsDiffer(Q, h) <==> VerticesDiffer(Q, h)
  }

  /** Two vertices get different rows and the same local id; all others have local ids of their own. */
  ghost function Clash(Q: QueryGraph, G: GridFile, v: nat, w: nat, r: nat, r': nat): (h: Assignment)
    requires Q.Valid() && GraphFits(Q, G)
    ensures |h.grids| == |h.locals| == |Q.vertices|
    ensures forall x :: 0 <= x < |Q.vertices| ==>
              && h.grids[x] == (if x == v then r else if x == w then r' else G.minRow[Q.vertices[x].labelId])
              && h.locals[x] == if x == w then v else x
  {
    Assignment(seq(|Q.vertices|, x requires 0 <= x < |Q.vertices| =>
                   if x == v then r else if x == w then r' else G.minRow[Q.vertices[x].labelId]),
               seq(|Q.vertices|, x requires 0 <= x < |Q.vertices| => if x == w then v else x))
  }

  lemma {:induction false} ClashFools(Q: QueryGraph, G: GridFile, c: nat, r: nat, r': nat)
    requires Q.Valid() && GraphFits(Q, G) && RowsExist(Q, G) && DistinctConstraints(Q)
             && |Q.vertices| <= VERTICES_PER_GRID
    requires c < |Q.constraints| && Q.constraints[c].notEqual && r != r'
    requires
      var v, w := Q.constraints[c].v1, Q.constraints[c].v2;
      && G.minRow[Q.vertices[v].labelId] <= r < G.maxRow[Q.vertices[v].labelId]
      && G.minRow[Q.vertices[w].labelId] <= r' < G.maxRow[Q.vertices[w].labelId]
    ensures
      var h := Clash(Q, G, Q.constraints[c].v1, Q.constraints[c].v2, r, r');
      Placed(Q, G, h) && !LocalsDiffer(Q, h) && VerticesDiffer(Q, h)
  {
  }

  /**
   * The device compares local ids only. That tells data vertices apart for every placed assignment exactly when no
   * constrained vertex has a choice of grid rows; otherwise two different vertices with one local id are mistaken for
   * each other.
   */
  lemma {:induction false} LocalTestIsExact(Q: QueryGraph, G: GridFile)
    requires Q.Valid() && GraphFits(Q, G) && RowsExist(Q, G) && DistinctConstraints(Q)
             && |Q.vertices| <= VERTICES_PER_GRID
    ensures (forall h {:trigger Placed(Q, G, h)} :: Placed(Q, G, h) ==> LocalTestExact(Q, G, h)) <==> OneRowEach(Q, G)
  {
    if !OneRowEach(Q, G) {
      var c, r, r' := RoomToDiffer(Q, G);
      ClashFools(Q, G, c, r, r');
      var h := Clash(Q, G, Q.constraints[c].v1, Q.constraints[c].v2, r, r');
      assert Placed(Q, G, h) && !LocalTestExact(Q, G, h);
    } else {
      forall h {:trigger Placed(Q, G, h)} | Placed(Q, G, h)
        ensures LocalTestExact(Q, G, h)
      {
        SameRows(Q, G, h);
      }
    }
  }

  lemma {:induction false} SameRows(Q: QueryGraph, G: GridFile, h: Assignment)
    requires Q.Valid() && GraphFits(Q, G) && OneRowEach(Q, G) && Placed(Q, G, h)
    ensures LocalTestExact(Q, G, h)
  {
  }

  lemma {:induction false} RoomToDiffer(Q: QueryGraph, G: GridFile) returns (c: nat, r: nat, r': nat)
    requires Q.Valid() && GraphFits(Q, G) && RowsExist(Q, G) && !OneRowEach(Q, G)
    ensures c < |Q.constraints| && Q.constraints[c].notEqual && r != r'
    ensures
      var v, w := Q.constraints[c].v1, Q.constraints[c].v2;
      && G.minRow[Q.vertices[v].labelId] <= r < G.maxRow[Q.vertices[v].labelId]
      && G.minRow[Q.vertices[w].labelId] <= r' < G.maxRow[Q.vertices[w].labelId]
  {
    c :| 0 <= c < |Q.constraints| && Q.constraints[c].notEqual
         && var v, w := Q.constraints[c].v1, Q.constraints[c].v2;
            !(OnlyRow(Q, G, v, G.minRow[Q.vertices[v].labelId]) && OnlyRow(Q, G, w, G.minRow[Q.vertices[v].labelId]));
    var v, w := Q.constraints[c].v1, Q.constraints[c].v2;
    var a, b := Q.vertices[v].labelId, Q.vertices[w].labelId;
    assert G.minRow[a] < G.maxRow[a] && G.minRow[b] < G.maxRow[b];
    r, r' := G.minRow[a], G.minRow[b];
    if r == r' {
      if G.maxRow[a] > r + 1 {
        r := r + 1;
      } else {
        r' := r' + 1;
      }
    }
  }
}
