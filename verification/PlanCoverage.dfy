/**
 * The plan is sound and complete: its paths are the shard combinations that agree, and each match lies in exactly one.
 */
module PlanCoverage {
  import opened Machine
  import opened Shards
  import opened QueryGraphs
  import opened Grids
  import opened PlanTrees

  /** A vertex assignment, split into grid and local id. */
  datatype Assignment = Assignment(grids: seq<nat>, locals: seq<nat>)

  /** Choice c of turn n agrees with the assignment: its cell is the endpoints' and its ranges hold their local ids. */
  ghost predicate Agrees(P: Planning, n: nat, c: Choice, h: Assignment)
    requires P.Ok() && n < P.NumTurns() && |h.grids| == |h.locals| == |P.Q.vertices|
  {
    var e, pair := P.Edge(n), P.Chosen(n, c);
    && P.IsOption(n, c)
    && c.row == h.grids[e.v1] && c.col == h.grids[e.v2]
    && Within(h.locals[e.v1], pair.src) && Within(h.locals[e.v2], pair.dst)
  }

  ghost predicate Admits(P: Planning, path: seq<Choice>, h: Assignment)
    requires P.Ok() && |path| <= P.NumTurns()
  {
    && |h.grids| == |h.locals| == |P.Q.vertices|
    && (forall v {:trigger h.locals[v]} :: 0 <= v < |h.locals| ==> Within(h.locals[v], FullRange()))
    && (forall n {:trigger path[n]} :: 0 <= n < |path| ==> Agrees(P, n, path[n], h))
  }

  lemma {:induction false} AdmitsPrefix(P: Planning, path: seq<Choice>, h: Assignment, n: nat)
    requires P.Ok() && |path| <= P.NumTurns() && Admits(P, path, h) && n <= |path|
    ensures |path[..n]| <= P.NumTurns() && Admits(P, path[..n], h)
  {
    forall m {:trigger path[..n][m]} | 0 <= m < n
      ensures Agrees(P, m, path[..n][m], h)
    {
      assert path[..n][m] == path[m];
    }
  }

  /** What a path says about a vertex holds of every assignment it admits. */
  lemma {:induction false} AdmittedVertex(P: Planning, path: seq<Choice>, h: Assignment, v: nat)
    requires P.Ok() && |path| <= P.NumTurns() && Admits(P, path, h) && v < |P.Q.vertices|
    ensures P.Touching(path, v) > 0 ==> P.GridOf(path, v) == h.grids[v]
    ensures Within(h.locals[v], P.RangeOf(path, v))
    decreases |path|
  {
    if path != [] {
      var n := |path| - 1;
      AdmitsPrefix(P, path, h, n);
      AdmittedVertex(P, path[..n], h, v);
      assert Agrees(P, n, path[n], h);
    }
  }

  lemma {:induction false} AdmittedFits(P: Planning, path: seq<Choice>, h: Assignment, n: nat)
    requires P.Ok() && |path| <= P.NumTurns() && Admits(P, path, h) && n < |path|
    ensures |path[..n]| <= P.NumTurns() && P.Fits(path[..n], path[n])
  {
    AdmitsPrefix(P, path, h, n);
    var e := P.Edge(n);
    AdmittedVertex(P, path[..n], h, e.v1);
    AdmittedVertex(P, path[..n], h, e.v2);
    assert Agrees(P, n, path[n], h);
  }

  /** One more fitting choice keeps the grid of a bound vertex and narrows its range. */
  lemma {:induction false} StepKeeps(P: Planning, path: seq<Choice>, pre: seq<Choice>, c: Choice, v: nat)
    requires P.Ok() && |path| <= P.NumTurns() && |pre| <= P.NumTurns() && |path| == |pre| + 1 && path[..|pre|] == pre
             && path[|pre|] == c
    requires P.Fits(pre, c)
    ensures P.Touching(pre, v) > 0 ==> P.Touching(path, v) > 0 && P.GridOf(path, v) == P.GridOf(pre, v)
    ensures forall x :: Within(x, P.RangeOf(path, v)) ==> Within(x, P.RangeOf(pre, v))
  {
  }

  lemma {:induction false} StepNonempty(P: Planning, path: seq<Choice>, pre: seq<Choice>, c: Choice, v: nat)
    requires P.Ok() && |path| <= P.NumTurns() && |path| == |pre| + 1 && path[..|pre|] == pre && path[|pre|] == c
    requires P.Fits(pre, c) && P.RangeOf(pre, v).lo <= P.RangeOf(pre, v).hi < VERTICES_PER_GRID
    ensures P.RangeOf(path, v).lo <= P.RangeOf(path, v).hi < VERTICES_PER_GRID
  {
  }

  /** The narrowed ranges of a consistent path are not empty. */
  lemma {:induction false} RangesNonempty(P: Planning, path: seq<Choice>, v: nat)
    requires P.Ok() && P.Consistent(path) && v < |P.Q.vertices|
    ensures P.RangeOf(path, v).lo <= P.RangeOf(path, v).hi < VERTICES_PER_GRID
    decreases |path|
  {
    if path != [] {
      var last := |path| - 1;
      var pre := path[..last];
      P.ConsistentPrefix(path, last);
      RangesNonempty(P, pre, v);
      StepNonempty(P, path, pre, path[last], v);
    }
  }

  /** x lies in the recorded range of the chosen pair's end at v, if v is an end of the turn's edge. */
  ghost predicate InPair(P: Planning, n: nat, c: Choice, v: nat, x: nat)
    requires P.Ok() && n < P.NumTurns()
  {
    && (P.Edge(n).v1 == v ==> Within(x, P.Chosen(n, c).src))
    && (P.Edge(n).v2 == v ==> Within(x, P.Chosen(n, c).dst))
  }

  lemma {:induction false} StepWithin(P: Planning, path: seq<Choice>, pre: seq<Choice>, c: Choice, v: nat, x: nat)
    requires P.Ok() && |path| <= P.NumTurns() && |path| == |pre| + 1 && path[..|pre|] == pre && path[|pre|] == c
    requires v < |P.Q.vertices| && Within(x, P.RangeOf(path, v))
    ensures InPair(P, |pre|, c, v, x)
  {
  }

  /** Whatever is left of a vertex's range lies in the ranges of all its turns. */
  lemma {:induction false} RangeShrinks(P: Planning, path: seq<Choice>, n: nat, v: nat, x: nat)
    requires P.Ok() && P.Consistent(path) && n < |path| && v < |P.Q.vertices| && Within(x, P.RangeOf(path, v))
    ensures InPair(P, n, path[n], v, x)
    decreases |path|
  {
    var last := |path| - 1;
    var pre := path[..last];
    if n < last {
      P.ConsistentPrefix(path, last);
      StepKeeps(P, path, pre, path[last], v);
      RangeShrinks(P, pre, n, v, x);
      assert pre[n] == path[n];
    } else {
      StepWithin(P, path, pre, path[last], v, x);
    }
  }

  /** All turns of a consistent path at a vertex are in one grid. */
  lemma {:induction false} GridsAgree(P: Planning, path: seq<Choice>, n: nat, v: nat)
    requires P.Ok() && P.Consistent(path) && n < |path| && v < |P.Q.vertices| && P.Edge(n).Touches(v)
    ensures P.Touching(path, v) > 0
    ensures P.GridOf(path, v) == if P.Edge(n).v1 == v then path[n].row else path[n].col
    decreases |path|
  {
    var last := |path| - 1;
    if n < last {
      var pre := path[..last];
      P.ConsistentPrefix(path, last);
      GridsAgree(P, pre, n, v);
      StepKeeps(P, path, pre, path[last], v);
      assert pre[n] == path[n];
    }
  }

  ghost function Witness(P: Planning, path: seq<Choice>): (h: Assignment)
    requires P.Ok() && |path| <= P.NumTurns()
    ensures |h.grids| == |h.locals| == |P.Q.vertices|
    ensures forall v :: 0 <= v < |P.Q.vertices| ==>
              h.grids[v] == P.GridOf(path, v) && h.locals[v] == P.RangeOf(path, v).lo
  {
    Assignment(seq(|P.Q.vertices|, v requires 0 <= v => P.GridOf(path, v)),
          seq(|P.Q.vertices|, v requires 0 <= v => P.RangeOf(path, v).lo))
  }

  lemma {:induction false} WitnessAdmitted(P: Planning, path: seq<Choice>)
    requires P.Ok() && P.Consistent(path)
    ensures Admits(P, path, Witness(P, path))
  {
    var h := Witness(P, path);
    forall v {:trigger h.locals[v]} | 0 <= v < |h.locals|
      ensures Within(h.locals[v], FullRange())
    {
      RangesNonempty(P, path, v);
    }
    forall n {:trigger path[n]} | 0 <= n < |path|
      ensures Agrees(P, n, path[n], h)
    {
      var e := P.Edge(n);
      P.ConsistentPrefix(path, n);
      RangesNonempty(P, path, e.v1);
      RangesNonempty(P, path, e.v2);
      RangeShrinks(P, path, n, e.v1, h.locals[e.v1]);
      RangeShrinks(P, path, n, e.v2, h.locals[e.v2]);
      GridsAgree(P, path, n, e.v1);
      GridsAgree(P, path, n, e.v2);
    }
  }

  lemma {:induction false} AdmittedIsConsistent(P: Planning, path: seq<Choice>, h: Assignment)
    requires P.Ok() && |path| <= P.NumTurns() && Admits(P, path, h)
    ensures P.Consistent(path)
    decreases |path|
  {
    if path != [] {
      var last := |path| - 1;
      AdmitsPrefix(P, path, h, last);
      AdmittedIsConsistent(P, path[..last], h);
      AdmittedFits(P, path, h, last);
      P.ConsistentLast(path, path[..last]);
    }
  }

  /** The planner follows a path exactly when some grid and local id per vertex agree with every choice on it. */
  lemma {:induction false} ConsistentIff(P: Planning, path: seq<Choice>)
    requires P.Ok() && |path| <= P.NumTurns()
    ensures P.Consistent(path) <==> exists h :: Admits(P, path, h)
  {
    if P.Consistent(path) {
      WitnessAdmitted(P, path);
    }
    if h :| Admits(P, path, h) {
      AdmittedIsConsistent(P, path, h);
    }
  }

  // ----- homomorphisms -----

  ghost predicate Typed(P: Planning, h: Assignment)
    requires P.Ok()
  {
    && |h.grids| == |h.locals| == |P.Q.vertices|
    && forall v {:trigger h.locals[v]} {:trigger h.grids[v]} :: 0 <= v < |P.Q.vertices| ==>
         P.RowsFrom(v) <= h.grids[v] < P.RowsTo(v) && h.locals[v] < VERTICES_PER_GRID
  }

  /** The data graph has the edge of turn n between the assigned vertices. */
  ghost predicate EdgeMapped(P: Planning, n: nat, h: Assignment)
    requires P.Ok() && n < P.NumTurns() && |h.grids| == |h.locals| == |P.Q.vertices|
  {
    var e := P.Edge(n);
    P.G.HasEdge(Cell(h.grids[e.v1], h.grids[e.v2], e.labelId), h.locals[e.v1], h.locals[e.v2])
  }

  /** A homomorphism of the query into the data graph: every vertex has its label, every edge its image. */
  ghost predicate IsHomomorphism(P: Planning, h: Assignment)
    requires P.Ok()
  {
    Typed(P, h) && forall n {:trigger EdgeMapped(P, n, h)} :: 0 <= n < P.NumTurns() ==> EdgeMapped(P, n, h)
  }

  /** The out-shard chosen for turn n holds the image of its edge. */
  ghost predicate Holds(P: Planning, n: nat, c: Choice, h: Assignment)
    requires P.Ok() && n < P.NumTurns() && |h.grids| == |h.locals| == |P.Q.vertices|
  {
    var e := P.Edge(n);
    && P.IsOption(n, c)
    && c.row == h.grids[e.v1] && c.col == h.grids[e.v2]
    && P.Chosen(n, c).outEdges.shard.HasEdge(h.locals[e.v1], h.locals[e.v2])
  }

  ghost predicate Realizes(P: Planning, path: seq<Choice>, h: Assignment)
    requires P.Ok() && |path| <= P.NumTurns()
  {
    && |path| == P.NumTurns() && |h.grids| == |h.locals| == |P.Q.vertices|
    && forall n {:trigger path[n]} :: 0 <= n < |path| ==> Holds(P, n, path[n], h)
  }

  ghost predicate EveryVertexTouched(P: Planning)
    requires P.Ok()
  {
    forall v: nat {:trigger TouchedAt(P, v)} :: v < |P.Q.vertices| ==> TouchedAt(P, v)
  }

  ghost predicate TouchedAt(P: Planning, v: nat)
    requires P.Ok()
  {
    exists n: nat {:trigger P.s.turns[n]} :: n < P.NumTurns() && P.Edge(n).Touches(v)
  }

  lemma {:induction false} FindPair(G: GridFile, cell: Cell, u: nat, w: nat) returns (j: nat)
    requires G.Partitioned() && G.HasEdge(cell, u, w)
    ensures j < |G.Pairs(cell)| && G.Pairs(cell)[j].outEdges.shard.HasEdge(u, w)
    ensures Within(u, G.Pairs(cell)[j].src) && Within(w, G.Pairs(cell)[j].dst)
  {
    j :| j < |G.Pairs(cell)| && G.Pairs(cell)[j].outEdges.shard.HasEdge(u, w);
    assert G.Pairs(cell)[j].Ok();
  }

  lemma {:induction false} TypedAt(P: Planning, h: Assignment, v: nat)
    requires P.Ok() && Typed(P, h) && v < |P.Q.vertices|
    ensures P.RowsFrom(v) <= h.grids[v] < P.RowsTo(v) && h.locals[v] < VERTICES_PER_GRID
  {
    assert h.locals[v] == h.locals[v];
  }

  /** The choice an assignment asks for at turn n. */
  lemma {:induction false} ChoiceFor(P: Planning, n: nat, h: Assignment) returns (c: Choice)
    requires P.Ok() && P.G.Partitioned() && Typed(P, h) && n < P.NumTurns() && EdgeMapped(P, n, h)
    ensures Holds(P, n, c, h) && Agrees(P, n, c, h)
  {
    var e := P.Edge(n);
    TypedAt(P, h, e.v1);
    TypedAt(P, h, e.v2);
    var j := FindPair(P.G, Cell(h.grids[e.v1], h.grids[e.v2], e.labelId), h.locals[e.v1], h.locals[e.v2]);
    c := Choice(h.grids[e.v1], h.grids[e.v2], j);
  }

  lemma {:induction false} PathFor(P: Planning, h: Assignment, n: nat) returns (path: seq<Choice>)
    requires P.Ok() && P.G.Partitioned() && IsHomomorphism(P, h) && n <= P.NumTurns()
    ensures |path| == n && |path| <= P.NumTurns() && Admits(P, path, h)
    ensures forall m {:trigger path[m]} :: 0 <= m < n ==> Holds(P, m, path[m], h)
  {
    if n == 0 {
      path := [];
    } else {
      var before := PathFor(P, h, n - 1);
      assert EdgeMapped(P, n - 1, h);
      var c := ChoiceFor(P, n - 1, h);
      path := before + [c];
      forall m {:trigger path[m]} | 0 <= m < n
        ensures Agrees(P, m, path[m], h) && Holds(P, m, path[m], h)
      {
        assert m < n - 1 ==> path[m] == before[m];
      }
    }
  }

  /** Completeness: every homomorphism lies in a path of the plan. */
  lemma {:induction false} HomomorphismHasPath(P: Planning, h: Assignment) returns (path: seq<Choice>)
    requires P.Ok() && P.G.Partitioned() && IsHomomorphism(P, h)
    ensures P.Consistent(path) && Realizes(P, path, h) && path in P.Runs([])
  {
    path := PathFor(P, h, P.NumTurns());
    ConsistentIff(P, path);
    P.RunsAre([], path);
  }

  /** Uniqueness: no homomorphism lies in two paths. */
  lemma {:induction false} OnePathOnly(P: Planning, path: seq<Choice>, path': seq<Choice>, h: Assignment)
    requires P.Ok() && P.G.Partitioned() && |path| <= P.NumTurns() && |path'| <= P.NumTurns() && Realizes(P, path, h)
             && Realizes(P, path', h)
    ensures path == path'
  {
    forall n | 0 <= n < |path|
      ensures path[n] == path'[n]
    {
      assert Holds(P, n, path[n], h) && Holds(P, n, path'[n], h);
      var e := P.Edge(n);
      var cell := Cell(h.grids[e.v1], h.grids[e.v2], e.labelId);
      assert P.G.Pairs(cell)[path[n].index].outEdges.shard.HasEdge(h.locals[e.v1], h.locals[e.v2]);
      assert P.G.Pairs(cell)[path'[n].index].outEdges.shard.HasEdge(h.locals[e.v1], h.locals[e.v2]);
    }
  }

  /** Soundness: whatever a path realizes is a homomorphism. */
  lemma {:induction false} RealizedIsHomomorphism(P: Planning, path: seq<Choice>, h: Assignment)
    requires P.Ok() && P.G.Partitioned() && EveryVertexTouched(P) && |path| <= P.NumTurns() && Realizes(P, path, h)
    ensures IsHomomorphism(P, h)
  {
    forall n {:trigger EdgeMapped(P, n, h)} | 0 <= n < P.NumTurns()
      ensures EdgeMapped(P, n, h)
    {
      assert Holds(P, n, path[n], h);
      var e := P.Edge(n);
      assert P.G.Pairs(Cell(h.grids[e.v1], h.grids[e.v2],
            e.labelId))[path[n].index].outEdges.shard.HasEdge(h.locals[e.v1], h.locals[e.v2]);
    }
    forall v {:trigger h.locals[v]} {:trigger h.grids[v]} | 0 <= v < |P.Q.vertices|
      ensures P.RowsFrom(v) <= h.grids[v] < P.RowsTo(v) && h.locals[v] < VERTICES_PER_GRID
    {
      assert TouchedAt(P, v);
      var n: nat :| n < P.NumTurns() && P.Edge(n).Touches(v);
      HeldEndpoints(P, n, path[n], h);
    }
  }

  lemma {:induction false} HeldEndpoints(P: Planning, n: nat, c: Choice, h: Assignment)
    requires P.Ok() && P.G.Partitioned() && n < P.NumTurns()
    requires |h.grids| == |h.locals| == |P.Q.vertices| && Holds(P, n, c, h)
    ensures
      var e := P.Edge(n);
      && P.RowsFrom(e.v1) <= h.grids[e.v1] < P.RowsTo(e.v1) && h.locals[e.v1] < VERTICES_PER_GRID
      && P.RowsFrom(e.v2) <= h.grids[e.v2] < P.RowsTo(e.v2) && h.locals[e.v2] < VERTICES_PER_GRID
  {
    var e := P.Edge(n);
    assert P.G.Pairs(Cell(c.row, c.col, e.labelId))[c.index].Ok();
    EdgeBounds(P.Chosen(n, c).outEdges.shard, h.locals[e.v1], h.locals[e.v2]);
  }

  lemma {:induction false} EdgeBounds(shard: Shard, u: nat, w: nat)
    requires shard.Valid() && shard.HasEdge(u, w)
    ensures u < VERTICES_PER_GRID && w < VERTICES_PER_GRID
  {
    var i :| 0 <= i < |shard.Adj(u)| && shard.Adj(u)[i] == w;
  }
}
