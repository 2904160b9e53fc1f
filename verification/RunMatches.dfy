/** What the kernel's matches of one subtask are: the homomorphisms that use the shards of the subtask's run. */
module RunMatches {
  import opened Sequences
  import opened Shards
  import opened QueryGraphs
  import opened Schedules
  import opened SearchTrees
  import opened Launches
  import opened LaunchMatches
  import opened Grids
  import opened PlanTrees
  import opened PlanCoverage
  import opened GraphMatches
  import opened TaskPackers
  import opened Engines
  import opened TaskLaunches

  /** The assignment passes what the engine's kernel checks besides edges. */
  ghost predicate Wanted(E: Engine, h: Assignment)
    requires E.Ok() && |h.locals| == |E.P.Q.vertices|
  {
    E.variant.Constraint? ==> LocalsDiffer(E.P.Q, h)
  }

  /** The assignment's edges all lie in the shards of the run. */
  ghost predicate InRun(E: Engine, run: seq<Choice>, h: Assignment)
    requires E.Ok() && E.P.Ok()
  {
    |run| <= E.P.NumTurns() && Realizes(E.P, run, h) && Wanted(E, h)
  }

  // ----- between matches and assignments -----

  function ByVertex(rank: seq<nat>, b: seq<nat>): (locals: seq<nat>)
    ensures |locals| == |rank| && forall v :: 0 <= v < |rank| && rank[v] < |b| ==> locals[v] == b[rank[v]]
  {
    seq(|rank|, v requires 0 <= v < |rank| => if rank[v] < |b| then b[rank[v]] else 0)
  }

  /** The assignment a match of a run's subtask stands for. */
  ghost function AssignmentOf(P: Planning, run: seq<Choice>, b: seq<nat>): Assignment
    requires P.Ok() && |run| <= P.NumTurns()
  {
    Assignment(seq(|P.Q.vertices|, v requires 0 <= v => P.GridOf(run, v)), ByVertex(P.s.rank, b))
  }

  function ByDepth(order: seq<nat>, locals: seq<nat>): (b: seq<nat>)
    ensures |b| == |order| && forall d :: 0 <= d < |order| && order[d] < |locals| ==> b[d] == locals[order[d]]
  {
    seq(|order|, d requires 0 <= d < |order| => if order[d] < |locals| then locals[order[d]] else 0)
  }

  lemma {:induction false} ThereAndBack(order: seq<nat>, rank: seq<nat>, locals: seq<nat>)
    requires RanksAre(order, rank) && |locals| == |rank|
    ensures ByVertex(rank, ByDepth(order, locals)) == locals
  {
    forall v | 0 <= v < |rank|
      ensures ByVertex(rank, ByDepth(order, locals))[v] == locals[v]
    {
      assert order[rank[v]] == v;
    }
  }

  lemma {:induction false} BackAndThere(order: seq<nat>, rank: seq<nat>, b: seq<nat>)
    requires RanksAre(order, rank) && |b| == |order|
    ensures ByDepth(order, ByVertex(rank, b)) == b
  {
    forall d | 0 <= d < |order|
      ensures ByDepth(order, ByVertex(rank, b))[d] == b[d]
    {
      RankAt(order, rank, d);
    }
  }

  lemma {:induction false} GridOfRun(P: Planning, run: seq<Choice>, h: Assignment, v: nat)
    requires P.Ok() && P.Consistent(run) && Realizes(P, run, h) && v < |P.Q.vertices| && TouchedAt(P, v)
    ensures h.grids[v] == P.GridOf(run, v)
  {
    var n: nat :| n < P.NumTurns() && P.Edge(n).Touches(v);
    assert Holds(P, n, run[n], h);
    GridsAgree(P, run, n, v);
  }

  /** The grids of an assignment that lies in a run are those the run binds. */
  lemma {:induction false} GridsOfRun(P: Planning, run: seq<Choice>, h: Assignment)
    requires P.Ok() && P.Consistent(run) && Realizes(P, run, h) && EveryVertexTouched(P)
    requires |P.s.order| == |P.Q.vertices| && RanksAre(P.s.order, P.s.rank)
    ensures h == AssignmentOf(P, run, ByDepth(P.s.order, h.locals))
  {
    ThereAndBack(P.s.order, P.s.rank, h.locals);
    forall v: nat | v < |P.Q.vertices|
      ensures h.grids[v] == P.GridOf(run, v)
    {
      assert TouchedAt(P, v);
      GridOfRun(P, run, h, v);
    }
  }

  lemma {:induction false} CellOfTurn(E: Engine, run: seq<Choice>, b: seq<nat>, n: nat)
    requires E.Ok() && E.P.Ok() && E.P.Consistent(run) && n < |run|
    ensures
      var h, e := AssignmentOf(E.P, run, b), E.P.Edge(n);
      |h.grids| == |E.P.Q.vertices| && run[n].row == h.grids[e.v1] && run[n].col == h.grids[e.v2]
  {
    var e := E.P.Edge(n);
    GridsAgree(E.P, run, n, e.v1);
    GridsAgree(E.P, run, n, e.v2);
  }

  // ----- edges -----

  ghost function KitOf(E: Engine): Compiled {
    CompiledOf(E.variant, E.P.Q, E.P.s, E.T)
  }

  /** A task of the plan is one a header can be made for. */
  lemma {:induction false} TaskHasShards(E: Engine, task: Task, runs: seq<seq<Choice>>)
    requires E.Ok() && E.P.Ok() && TaskRuns(E, task, runs)
    ensures KitOf(E).Ok() && TaskShards(KitOf(E), task)
  {
    TaskIsOk(E, task, runs);
    forall i {:trigger task.total[i]} | 0 <= i < |task.total|
      ensures task.total[i].shard.Valid()
    {
      TotalLeaf(E, task, runs, i);
    }
  }

  /** A task's launch with what it was made from. */
  ghost predicate LaunchOf(E: Engine, task: Task, runs: seq<seq<Choice>>, L: Launch) {
    && E.Ok() && E.P.Ok() && TaskRuns(E, task, runs)
    && KitOf(E).Ok() && Uploaded(KitOf(E), task, L) && L.Ready()
  }

  ghost function SettingFor(E: Engine, L: Launch): Setting {
    SettingOf(L, E.P.Q, E.P.s, E.T)
  }

  lemma {:induction false} SettingIsGood(E: Engine, task: Task, L: Launch)
    requires KitOf(E).Ok() && Uploaded(KitOf(E), task, L) && L.Ready()
    ensures Good(SettingFor(E, L))
  {
  }

  /** Looking an edge up in its turn's shard, from its earlier end, finds it exactly when the out-shard has it. */
  lemma {:induction false} EitherShard(E: Engine, run: seq<Choice>, n: nat, b: seq<nat>)
    requires E.Ok() && E.P.Ok() && E.P.Consistent(run) && n < |run| && |b| == |E.P.s.rank| == |E.P.Q.vertices|
    requires forall v {:trigger E.P.s.rank[v]} :: 0 <= v < |E.P.s.rank| ==> E.P.s.rank[v] < |b|
    ensures E.P.s.turns[n].edge < |E.P.Q.edges|
    ensures EdgeFits(E.P.Q, E.P.s.rank, E.P.LeafFor(n, E.P.Chosen(n, run[n])).shard, E.P.s.turns[n].edge, b)
       <==> E.P.Chosen(n, run[n]).outEdges.shard.HasEdge(b[E.P.s.rank[E.P.Edge(n).v1]], b[E.P.s.rank[E.P.Edge(n).v2]])
  {
    LeafOfRun(E, run, n);
    OwnerIsEarlier(E, n);
    var pair, e := E.P.Chosen(n, run[n]), E.P.Edge(n);
    var u, w := b[E.P.s.rank[e.v1]], b[E.P.s.rank[e.v2]];
    assert pair.Ok();
    assert pair.inEdges.shard.HasEdge(w, u) <==> pair.outEdges.shard.HasEdge(u, w);
    assert e == E.P.Q.edges[E.P.s.turns[n].edge] && e.kind.REGULAR?;
  }

  lemma {:induction false} EdgeInRun(E: Engine, run: seq<Choice>, n: nat, b: seq<nat>)
    requires E.Ok() && E.P.Ok() && E.P.Consistent(run) && n < |run| && |b| == |E.P.s.rank| == |E.P.Q.vertices|
    requires forall v {:trigger E.P.s.rank[v]} :: 0 <= v < |E.P.s.rank| ==> E.P.s.rank[v] < |b|
    ensures E.P.s.turns[n].edge < |E.P.Q.edges|
    ensures EdgeFits(E.P.Q, E.P.s.rank, E.P.LeafFor(n, E.P.Chosen(n, run[n])).shard, E.P.s.turns[n].edge, b)
       <==> Holds(E.P, n, run[n], AssignmentOf(E.P, run, b))
  {
    EitherShard(E, run, n, b);
    CellOfTurn(E, run, b, n);
    LeafOfRun(E, run, n);
    var e := E.P.Edge(n);
    assert E.P.s.rank[e.v1] < |b| && E.P.s.rank[e.v2] < |b|;
  }

  /** An edge of the query is satisfied in subtask k exactly when its turn's choice holds. */
  lemma {:induction false} SatisfiesIff(E: Engine, task: Task, runs: seq<seq<Choice>>, L: Launch, k: nat, b: seq<nat>,
                                        i: nat)
    requires LaunchOf(E, task, runs, L) && k < |runs| && |b| == |E.P.Q.vertices| && i < |E.P.Q.edges|
    ensures Good(SettingFor(E, L)) && Paired(L, E.T, k) && |runs[k]| == |E.P.Q.edges| == E.P.NumTurns()
    ensures Satisfies(SettingFor(E, L), k, b, i) <==> Holds(E.P, i, runs[k][i], AssignmentOf(E.P, runs[k], b))
  {
    SettingIsGood(E, task, L);
    ReadsPairs(KitOf(E), task, L, k);
    ReadsChosen(KitOf(E), task, L, k, i);
    SubtaskLeaf(E, task, runs, k, i);
    RanksInRange(SettingFor(E, L), b);
    EdgeInRun(E, runs[k], i, b);
    OwnerIsEarlier(E, i);
  }

  lemma {:induction false} ConstraintsIff(E: Engine, run: seq<Choice>, b: seq<nat>)
    requires E.Ok() && E.P.Ok() && |run| <= E.P.NumTurns() && |b| == |E.P.Q.vertices|
    ensures |E.P.s.rank| == |b| && forall v {:trigger E.P.s.rank[v]} :: 0 <= v < |E.P.s.rank| ==> E.P.s.rank[v] < |b|
    ensures ConstraintsFit(E.P.Q, E.P.s.rank, b) <==> LocalsDiffer(E.P.Q, AssignmentOf(E.P, run, b))
  {
    var Q, rank, h := E.P.Q, E.P.s.rank, AssignmentOf(E.P, run, b);
    forall c {:trigger Q.constraints[c]} | 0 <= c < |Q.constraints|
      ensures h.locals[Q.constraints[c].v1] == b[rank[Q.constraints[c].v1]]
      ensures h.locals[Q.constraints[c].v2] == b[rank[Q.constraints[c].v2]]
    {
      var con := Q.constraints[c];
      assert rank[con.v1] < |b| && rank[con.v2] < |b|;
    }
  }

  ghost predicate SameEdge(E: Engine, S: Setting, k: nat, b: seq<nat>, run: seq<Choice>, h: Assignment, i: nat)
    requires E.Ok() && E.P.Ok() && Good(S) && Paired(S.L, S.T, k) && |b| == S.L.numVertices
             && |h.grids| == |h.locals| == |E.P.Q.vertices|
  {
    i < |run| && i < |S.Q.edges| && i < E.P.NumTurns() && (Satisfies(S, k, b, i) <==> Holds(E.P, i, run[i], h))
  }

  lemma {:induction false} SameEdges(E: Engine, S: Setting, k: nat, b: seq<nat>, run: seq<Choice>, h: Assignment)
    requires E.Ok() && E.P.Ok() && Good(S) && S.Q == E.P.Q && Paired(S.L, S.T, k) && |b| == S.L.numVertices
    requires |run| == |E.P.Q.edges| == E.P.NumTurns() && |h.grids| == |h.locals| == |E.P.Q.vertices|
    requires forall i: nat {:trigger SameEdge(E, S, k, b, run, h, i)} :: i < |run| ==> SameEdge(E, S, k, b, run, h, i)
    ensures EdgesHold(S, k, b) <==> Realizes(E.P, run, h)
  {
    if EdgesHold(S, k, b) {
      forall i {:trigger run[i]} | 0 <= i < |run|
        ensures Holds(E.P, i, run[i], h)
      {
        assert SameEdge(E, S, k, b, run, h, i) && Satisfies(S, k, b, i);
      }
    }
    if Realizes(E.P, run, h) {
      forall i {:trigger Satisfies(S, k, b, i)} | 0 <= i < |S.Q.edges|
        ensures Satisfies(S, k, b, i)
      {
        assert SameEdge(E, S, k, b, run, h, i) && Holds(E.P, i, run[i], h);
      }
    }
  }

  /** All edges are satisfied in subtask k exactly when run k holds them all. */
  lemma {:induction false} EdgesTogether(E: Engine, task: Task, runs: seq<seq<Choice>>, L: Launch, k: nat, b: seq<nat>)
    requires LaunchOf(E, task, runs, L) && k < |runs| && |b| == |E.P.Q.vertices| == L.numVertices
    ensures Good(SettingFor(E, L)) && Paired(L, E.T, k) && |runs[k]| == E.P.NumTurns()
    ensures EdgesHold(SettingFor(E, L), k, b) <==> Realizes(E.P, runs[k], AssignmentOf(E.P, runs[k], b))
  {
    SatisfiesIff(E, task, runs, L, k, b, 0);
    var S, run, h := SettingFor(E, L), runs[k], AssignmentOf(E.P, runs[k], b);
    forall i: nat {:trigger SameEdge(E, S, k, b, run, h, i)} | i < |run|
      ensures SameEdge(E, S, k, b, run, h, i)
    {
      SatisfiesIff(E, task, runs, L, k, b, i);
    }
    SameEdges(E, S, k, b, run, h);
  }

  /** A match of subtask k is an assignment that lies in run k. */
  lemma {:induction false} EmbeddingIff(E: Engine, task: Task, runs: seq<seq<Choice>>, L: Launch, k: nat, b: seq<nat>)
    requires LaunchOf(E, task, runs, L) && k < |runs|
    ensures Good(SettingFor(E, L)) && Paired(L, E.T, k) && E.P.Consistent(runs[k])
    ensures IsEmbedding(SettingFor(E, L), k, b) <==>
              |b| == |E.P.Q.vertices| && InRun(E, runs[k], AssignmentOf(E.P, runs[k], b))
  {
    SettingIsGood(E, task, L);
    ReadsPairs(KitOf(E), task, L, k);
    SubtaskLeaf(E, task, runs, k, 0);
    if |b| == |E.P.Q.vertices| {
      ConstraintsIff(E, runs[k], b);
      EdgesTogether(E, task, runs, L, k, b);
    }
  }

  // ----- all matches of a subtask -----

  ghost function AssignmentsOf(P: Planning, run: seq<Choice>, bs: seq<seq<nat>>): (hs: seq<Assignment>)
    requires P.Ok() && |run| <= P.NumTurns()
    ensures |hs| == |bs| && forall i :: 0 <= i < |bs| ==> hs[i] == AssignmentOf(P, run, bs[i])
  {
    seq(|bs|, i requires 0 <= i < |bs| => AssignmentOf(P, run, bs[i]))
  }

  lemma {:induction false} SameBindings(E: Engine, run: seq<Choice>, b: seq<nat>, b': seq<nat>)
    requires E.Ok() && E.P.Ok() && |run| <= E.P.NumTurns() && |b| == |b'| == |E.P.s.order|
    requires AssignmentOf(E.P, run, b) == AssignmentOf(E.P, run, b')
    ensures b == b'
  {
    BackAndThere(E.P.s.order, E.P.s.rank, b);
    BackAndThere(E.P.s.order, E.P.s.rank, b');
  }

  /** bs lists the bindings of the assignments that lie in the run, each once. */
  ghost predicate BindingsOf(E: Engine, run: seq<Choice>, bs: seq<seq<nat>>)
    requires E.Ok() && E.P.Ok() && |run| <= E.P.NumTurns()
  {
    NoDup(bs) && forall b {:trigger b in bs} :: b in bs <==> IsBindingOf(E, run, b)
  }

  ghost predicate IsBindingOf(E: Engine, run: seq<Choice>, b: seq<nat>)
    requires E.Ok() && E.P.Ok() && |run| <= E.P.NumTurns()
  {
    |b| == |E.P.Q.vertices| && InRun(E, run, AssignmentOf(E.P, run, b))
  }

  lemma {:induction false} MatchesListed(S: Setting, k: nat, b: seq<nat>)
    requires Good(S) && Paired(S.L, S.T, k)
    ensures NoDup(S.L.TheSearch().Matches(k, []))
    ensures b in S.L.TheSearch().Matches(k, []) <==> IsEmbedding(S, k, b)
  {
    MatchesAreEmbeddings(S, k);
  }

  lemma {:induction false} KernelBinding(E: Engine, task: Task, runs: seq<seq<Choice>>, L: Launch, k: nat, b: seq<nat>)
    requires LaunchOf(E, task, runs, L) && k < |runs|
    ensures E.P.Consistent(runs[k]) && NoDup(L.TheSearch().Matches(k, []))
    ensures b in L.TheSearch().Matches(k, []) <==> IsBindingOf(E, runs[k], b)
  {
    EmbeddingIff(E, task, runs, L, k, b);
    MatchesListed(SettingFor(E, L), k, b);
  }

  lemma {:induction false} KernelBindings(E: Engine, task: Task, runs: seq<seq<Choice>>, L: Launch, k: nat)
    requires LaunchOf(E, task, runs, L) && k < |runs|
    ensures E.P.Consistent(runs[k]) && BindingsOf(E, runs[k], L.TheSearch().Matches(k, []))
  {
    KernelBinding(E, task, runs, L, k, []);
    forall b {:trigger b in L.TheSearch().Matches(k, [])}
      ensures b in L.TheSearch().Matches(k, []) <==> IsBindingOf(E, runs[k], b)
    {
      KernelBinding(E, task, runs, L, k, b);
    }
  }

  lemma {:induction false} ListedLies(E: Engine, run: seq<Choice>, bs: seq<seq<nat>>, h: Assignment)
    requires E.Ok() && E.P.Ok() && |run| <= E.P.NumTurns() && h in AssignmentsOf(E.P, run, bs)
    requires forall b {:trigger b in bs} :: b in bs ==> IsBindingOf(E, run, b)
    ensures InRun(E, run, h)
  {
    var i :| 0 <= i < |bs| && AssignmentsOf(E.P, run, bs)[i] == h;
    assert bs[i] in bs;
  }

  lemma {:induction false} LyingListed(E: Engine, run: seq<Choice>, bs: seq<seq<nat>>, h: Assignment, b: seq<nat>)
    requires E.Ok() && E.P.Ok() && |run| <= E.P.NumTurns() && b in bs && h == AssignmentOf(E.P, run, b)
    ensures h in AssignmentsOf(E.P, run, bs)
  {
    var i :| 0 <= i < |bs| && bs[i] == b;
    assert AssignmentsOf(E.P, run, bs)[i] == h;
  }

  lemma {:induction false} BindingOf(E: Engine, run: seq<Choice>, h: Assignment)
    requires E.Ok() && E.P.Ok() && E.P.Consistent(run) && InRun(E, run, h)
    ensures IsBindingOf(E, run, ByDepth(E.P.s.order, h.locals))
            && h == AssignmentOf(E.P, run, ByDepth(E.P.s.order, h.locals))
  {
    AllTouched(E);
    GridsOfRun(E.P, run, h);
  }

  lemma {:induction false} AssignmentsOnce(E: Engine, run: seq<Choice>, bs: seq<seq<nat>>)
    requires E.Ok() && E.P.Ok() && |run| <= E.P.NumTurns() && BindingsOf(E, run, bs)
    ensures NoDup(AssignmentsOf(E.P, run, bs))
  {
    var hs := AssignmentsOf(E.P, run, bs);
    forall i, j | 0 <= i < j < |hs|
      ensures hs[i] != hs[j]
    {
      assert bs[i] in bs && bs[j] in bs;
      assert IsBindingOf(E, run, bs[i]) && IsBindingOf(E, run, bs[j]);
      if hs[i] == hs[j] {
        SameBindings(E, run, bs[i], bs[j]);
      }
    }
  }

  /** The kernel's matches of subtask k, as assignments: exactly those of run k, each once. */
  lemma {:induction false} SubtaskMatches(E: Engine, task: Task, runs: seq<seq<Choice>>, L: Launch, k: nat)
    returns (hs: seq<Assignment>)
    requires LaunchOf(E, task, runs, L) && k < |runs|
    ensures E.P.Consistent(runs[k]) && |hs| == |L.TheSearch().Matches(k, [])|
    ensures NoDup(hs) && forall h {:trigger h in hs} :: h in hs <==> InRun(E, runs[k], h)
  {
    var bs := L.TheSearch().Matches(k, []);
    KernelBindings(E, task, runs, L, k);
    hs := AssignmentsOf(E.P, runs[k], bs);
    AssignmentsOnce(E, runs[k], bs);
    forall h {:trigger h in hs}
      ensures h in hs <==> InRun(E, runs[k], h)
    {
      if h in hs {
        ListedLies(E, runs[k], bs, h);
      }
      if InRun(E, runs[k], h) {
        BindingOf(E, runs[k], h);
        LyingListed(E, runs[k], bs, h, ByDepth(E.P.s.order, h.locals));
      }
    }
  }
}
