/** The search for shard combinations: which there are, and the tree the planner builds from them. */
module PlanTrees {
  import opened Sequences
  import opened Shards
  import opened QueryGraphs
  import opened Schedules
  import opened Grids

  /** A shard pair chosen for one turn: its cell's row and column, and its position in the cell's traversal. */
  datatype Choice = Choice(row: nat, col: nat, index: nat)

  datatype Binding = Binding(count: nat, grid: nat, range: Interval)

  datatype Node = Node(leaf: Leaf, vertex: nat, edge: nat, level: nat, children: seq<Node>)

  /** Each choice of the path is allowed after the ones before it. */
  ghost predicate Chain(allowed: iset<(seq<Choice>, Choice)>, path: seq<Choice>)
    decreases |path|
  {
    path != [] ==>
      var last := |path| - 1;
      Chain(allowed, path[..last]) && (path[..last], path[last]) in allowed
  }

  lemma {:induction false} ChainTake(allowed: iset<(seq<Choice>, Choice)>, path: seq<Choice>, n: nat)
    requires Chain(allowed, path) && n <= |path|
    ensures Chain(allowed, path[..n])
    ensures n < |path| ==> (path[..n], path[n]) in allowed
    decreases |path|
  {
    if n == |path| {
      assert path[..n] == path;
    } else if n < |path| - 1 {
      var pre := path[..|path| - 1];
      ChainTake(allowed, pre, n);
      assert pre[..n] == path[..n] && pre[n] == path[n];
    }
  }

  /** Every turn is for an edge of the query and its owner one of the edge's ends; every label has its rows. */
  ghost predicate Fit(Q: QueryGraph, s: Schedule, G: GridFile) {
    && Q.Valid() && |s.turns| == |Q.edges|
    && (forall i {:trigger s.turns[i]} :: 0 <= i < |s.turns| ==>
          && s.turns[i].edge < |Q.edges| && s.turns[i].order < |s.order|
          && Q.edges[s.turns[i].edge].Touches(s.order[s.turns[i].order]))
    && |G.minRow| == |G.maxRow|
    && (forall v {:trigger Q.vertices[v]} :: 0 <= v < |Q.vertices| ==> Q.vertices[v].labelId < |G.minRow|)
  }

  ghost function PlanningOf(Q: QueryGraph, s: Schedule, G: GridFile): Planning {
    Planning(Q, s, G, Fit(Q, s, G))
  }

  /** A reordered query and the graph it is planned on; ok says that they fit together. */
  datatype Planning = Planning(Q: QueryGraph, s: Schedule, G: GridFile, ok: bool) {

    ghost predicate Ok() {
      ok && this == PlanningOf(Q, s, G)
    }

    function NumTurns(): nat {
      |s.turns|
    }

    function Edge(n: nat): (e: QEdge)
      requires Ok() && n < NumTurns()
      ensures e.v1 < |Q.vertices| && e.v2 < |Q.vertices| && e.v1 != e.v2
    {
      Q.edges[s.turns[n].edge]
    }

    /** The vertex that owns the edge of turn n. */
    function TurnOwner(n: nat): nat
      requires Ok() && n < NumTurns()
    {
      s.order[s.turns[n].order]
    }

    function RowsFrom(v: nat): nat
      requires Ok() && v < |Q.vertices|
    {
      G.minRow[Q.vertices[v].labelId]
    }

    function RowsTo(v: nat): nat
      requires Ok() && v < |Q.vertices|
    {
      G.maxRow[Q.vertices[v].labelId]
    }

    function PairsOf(n: nat, row: nat, col: nat): seq<ShardPair>
      requires Ok() && n < NumTurns()
    {
      G.Pairs(Cell(row, col, Edge(n).labelId))
    }

    // ----- choices and what they bind -----

    /** Stands in for the pair of a choice that is no option. */
    function NoPair(): ShardPair {
      var none := Leaf(0, 0, Shard([], 0, 0, [], []));
      ShardPair(none, none, Interval(0, 0), Interval(0, 0))
    }

    /** c names a shard pair of a cell the planner visits at turn n. */
    ghost predicate IsOption(n: nat, c: Choice)
      requires Ok() && n < NumTurns()
    {
      && RowsFrom(Edge(n).v1) <= c.row < RowsTo(Edge(n).v1)
      && RowsFrom(Edge(n).v2) <= c.col < RowsTo(Edge(n).v2)
      && c.index < |PairsOf(n, c.row, c.col)|
    }

    function Chosen(n: nat, c: Choice): ShardPair
      requires Ok() && n < NumTurns()
    {
      var pairs := PairsOf(n, c.row, c.col);
      if c.index < |pairs| then pairs[c.index] else NoPair()
    }

    /**
     * What a path says about vertex v: how often it is touched, the grid its last turn binds it to, and its remaining
     * range.
     */
    ghost function BindingOf(path: seq<Choice>, v: nat): Binding
      requires Ok() && |path| <= NumTurns()
    {
      if path == [] then Binding(0, 0, FullRange())
      else
        var n := |path| - 1;
        var b := BindingOf(path[..n], v);
        if Edge(n).v1 == v then Binding(b.count + 1, path[n].row, Meet(b.range, Chosen(n, path[n]).src))
        else if Edge(n).v2 == v then Binding(b.count + 1, path[n].col, Meet(b.range, Chosen(n, path[n]).dst))
        else b
    }

    ghost function Touching(path: seq<Choice>, v: nat): nat
      requires Ok() && |path| <= NumTurns()
    {
      BindingOf(path, v).count
    }

    ghost function GridOf(path: seq<Choice>, v: nat): nat
      requires Ok() && |path| <= NumTurns()
    {
      BindingOf(path, v).grid
    }

    /** The local ids of v that all chosen ranges allow. */
    ghost function RangeOf(path: seq<Choice>, v: nat): Interval
      requires Ok() && |path| <= NumTurns()
    {
      BindingOf(path, v).range
    }

    ghost predicate GridFits(path: seq<Choice>, row: nat, col: nat)
      requires Ok() && |path| < NumTurns()
    {
      && (Touching(path, Edge(|path|).v1) > 0 ==> GridOf(path, Edge(|path|).v1) == row)
      && (Touching(path, Edge(|path|).v2) > 0 ==> GridOf(path, Edge(|path|).v2) == col)
    }

    ghost predicate RangesFit(path: seq<Choice>, c: Choice)
      requires Ok() && |path| < NumTurns()
    {
      && Overlap(RangeOf(path, Edge(|path|).v1), Chosen(|path|, c).src)
      && Overlap(RangeOf(path, Edge(|path|).v2), Chosen(|path|, c).dst)
    }

    /** The planner goes on with choice c after the path. */
    ghost predicate Fits(path: seq<Choice>, c: Choice)
      requires Ok() && |path| < NumTurns()
    {
      IsOption(|path|, c) && GridFits(path, c.row, c.col) && RangesFit(path, c)
    }

    ghost function FitSet(): iset<(seq<Choice>, Choice)>
      requires Ok()
    {
      iset p: (seq<Choice>, Choice) | |p.0| < NumTurns() && Fits(p.0, p.1)
    }

    /** Every choice of the path was a fitting one when it was made. */
    ghost predicate Consistent(path: seq<Choice>)
      requires Ok()
    {
      |path| <= NumTurns() && Chain(FitSet(), path)
    }

    // ----- the options in the order the planner visits them -----

    function CellOptions(row: nat, col: nat, n: nat): (opts: seq<Choice>)
      ensures |opts| == n && forall j :: 0 <= j < n ==> opts[j] == Choice(row, col, j)
    {
      seq(n, j requires 0 <= j < n => Choice(row, col, j))
    }

    ghost function RowOptions(n: nat, row: nat, col: nat): seq<Choice>
      requires Ok() && n < NumTurns()
      decreases col
    {
      if col <= RowsFrom(Edge(n).v2) then []
      else RowOptions(n, row, col - 1) + CellOptions(row, col - 1, |PairsOf(n, row, col - 1)|)
    }

    ghost function OptionsBelow(n: nat, row: nat): seq<Choice>
      requires Ok() && n < NumTurns()
      decreases row
    {
      if row <= RowsFrom(Edge(n).v1) then []
      else OptionsBelow(n, row - 1) + RowOptions(n, row - 1, RowsTo(Edge(n).v2))
    }

    ghost function Options(n: nat): seq<Choice>
      requires Ok() && n < NumTurns()
    {
      OptionsBelow(n, RowsTo(Edge(n).v1))
    }

    lemma {:induction false} CellOptionsAre(row: nat, col: nat, n: nat)
      ensures NoDup(CellOptions(row, col, n))
      ensures forall c :: c in CellOptions(row, col, n) <==> c.row == row && c.col == col && c.index < n
    {
      forall c: Choice | c.row == row && c.col == col && c.index < n
        ensures c in CellOptions(row, col, n)
      {
        assert CellOptions(row, col, n)[c.index] == c;
      }
    }

    lemma {:induction false} RowOptionsAre(n: nat, row: nat, col: nat)
      requires Ok() && n < NumTurns()
      ensures NoDup(RowOptions(n, row, col))
      ensures forall c :: c in RowOptions(n, row, col) <==>
                c.row == row && RowsFrom(Edge(n).v2) <= c.col < col && c.index < |PairsOf(n, row, c.col)|
      decreases col
    {
      if col > RowsFrom(Edge(n).v2) {
        RowOptionsAre(n, row, col - 1);
        CellOptionsAre(row, col - 1, |PairsOf(n, row, col - 1)|);
        var before, own := RowOptions(n, row, col - 1), CellOptions(row, col - 1, |PairsOf(n, row, col - 1)|);
        NoDupConcat(before, own);
        InConcat(before, own);
      }
    }

    lemma {:induction false} OptionsBelowAre(n: nat, row: nat)
      requires Ok() && n < NumTurns()
      ensures NoDup(OptionsBelow(n, row))
      ensures forall c :: c in OptionsBelow(n, row) <==>
                && RowsFrom(Edge(n).v1) <= c.row < row && RowsFrom(Edge(n).v2) <= c.col < RowsTo(Edge(n).v2)
                && c.index < |PairsOf(n, c.row, c.col)|
      decreases row
    {
      if row > RowsFrom(Edge(n).v1) {
        OptionsBelowAre(n, row - 1);
        RowOptionsAre(n, row - 1, RowsTo(Edge(n).v2));
        var before, own := OptionsBelow(n, row - 1), RowOptions(n, row - 1, RowsTo(Edge(n).v2));
        NoDupConcat(before, own);
        InConcat(before, own);
      }
    }

    /** The planner visits every option of a turn exactly once. */
    lemma {:induction false} OptionsAre(n: nat)
      requires Ok() && n < NumTurns()
      ensures NoDup(Options(n))
      ensures forall c :: c in Options(n) <==> IsOption(n, c)
    {
      OptionsBelowAre(n, RowsTo(Edge(n).v1));
    }

    // ----- complete runs and the plan tree -----

    /** The complete consistent paths that continue a path, in the planner's order. */
    ghost function Runs(path: seq<Choice>): seq<seq<Choice>>
      requires Ok() && |path| <= NumTurns()
      decreases NumTurns() - |path|, 1, 0
    {
      if |path| == NumTurns() then [path] else RunsOver(path, Options(|path|))
    }

    ghost function RunsOver(path: seq<Choice>, opts: seq<Choice>): seq<seq<Choice>>
      requires Ok() && |path| < NumTurns()
      decreases NumTurns() - |path|, 0, |opts|
    {
      if opts == [] then []
      else RunsOver(path, opts[..|opts| - 1]) + Branch(path, opts[|opts| - 1])
    }

    /** The subtrees under a node that took the path. */
    ghost function Plan(path: seq<Choice>): seq<Node>
      requires Ok() && |path| <= NumTurns()
      decreases NumTurns() - |path|, 1, 0
    {
      if |path| == NumTurns() then [] else PlanOver(path, Options(|path|))
    }

    ghost function PlanOver(path: seq<Choice>, opts: seq<Choice>): seq<Node>
      requires Ok() && |path| < NumTurns()
      decreases NumTurns() - |path|, 0, |opts|
    {
      if opts == [] then []
      else
        var last := |opts| - 1;
        PlanOver(path, opts[..last])
        + if Fits(path, opts[last]) then
            Kept(path, opts[last], Plan(path + [opts[last]]))
          else []
    }

    /** The out-shard when the owner is the edge's source, else the in-shard. */
    function LeafFor(n: nat, pair: ShardPair): Leaf
      requires Ok() && n < NumTurns()
    {
      if TurnOwner(n) == Edge(n).v1 then pair.outEdges else pair.inEdges
    }

    /** A node is kept when it is complete or has children. */
    ghost function Kept(path: seq<Choice>, c: Choice, kids: seq<Node>): seq<Node>
      requires Ok() && |path| < NumTurns()
    {
      if |path| + 1 == NumTurns() || kids != [] then
        [Node(LeafFor(|path|, Chosen(|path|, c)), TurnOwner(|path|) + 1, s.turns[|path|].edge, |path| + 1, kids)]
      else []
    }

    // ----- runs are the consistent paths -----

    /** The prefixes of a consistent path are consistent, and each choice fitted the prefix before it. */
    lemma {:induction false} ConsistentPrefix(path: seq<Choice>, n: nat)
      requires Ok() && Consistent(path) && n <= |path|
      ensures Consistent(path[..n])
      ensures n < |path| ==> Fits(path[..n], path[n])
    {
      ChainTake(FitSet(), path, n);
    }

    lemma {:induction false} ConsistentLast(path: seq<Choice>, before: seq<Choice>)
      requires Ok() && 0 < |path| <= NumTurns() && before == path[..|path| - 1]
      requires Consistent(before) && Fits(before, path[|path| - 1])
      ensures Consistent(path)
    {
    }

    lemma {:induction false} ConsistentSnoc(path: seq<Choice>, c: Choice)
      requires Ok() && Consistent(path) && |path| < NumTurns() && Fits(path, c)
      ensures Consistent(path + [c])
    {
      assert (path + [c])[..|path|] == path;
    }

    /** run is a complete consistent path that starts with path. */
    ghost predicate IsRun(run: seq<Choice>, path: seq<Choice>)
      requires Ok()
    {
      |path| <= |run| == NumTurns() && run[..|path|] == path && Consistent(run)
    }

    lemma {:induction false} StartsWith(path: seq<Choice>, c: Choice, run: seq<Choice>)
      ensures |path| + 1 <= |run| && run[..|path| + 1] == path + [c]
         <==> |path| < |run| && run[..|path|] == path && run[|path|] == c
    {
      if |path| + 1 <= |run| && run[..|path| + 1] == path + [c] {
        assert run[..|path|] == run[..|path| + 1][..|path|] && run[|path|] == run[..|path| + 1][|path|];
      }
    }

    /** The runs below a path are the complete consistent paths that start with it. */
    lemma {:induction false} RunsAre(path: seq<Choice>, run: seq<Choice>)
      requires Ok() && Consistent(path)
      ensures run in Runs(path) <==> IsRun(run, path)
      decreases NumTurns() - |path|, 1, 0
    {
      if |path| < NumTurns() {
        OptionsAre(|path|);
        RunsOverAre(path, Options(|path|), run);
        if IsRun(run, path) {
          ConsistentPrefix(run, |path|);
        }
      } else if |run| == |path| {
        assert run[..|path|] == run;
      }
    }

    lemma {:induction false} RunsOverAre(path: seq<Choice>, opts: seq<Choice>, run: seq<Choice>)
      requires Ok() && Consistent(path) && |path| < NumTurns()
      ensures run in RunsOver(path, opts) <==> IsRun(run, path) && run[|path|] in opts
      decreases NumTurns() - |path|, 0, |opts|
    {
      if opts != [] {
        var last := |opts| - 1;
        RunsOverAre(path, opts[..last], run);
        BranchIs(path, opts[last], run);
        RunsOverSnoc(path, opts, run);
        if IsRun(run, path) {
          InSnoc(opts, run[|path|]);
        }
      }
    }

    lemma {:induction false} RunsOverSnoc(path: seq<Choice>, opts: seq<Choice>, run: seq<Choice>)
      requires Ok() && |path| < NumTurns() && opts != []
      ensures run in RunsOver(path, opts) <==>
                run in RunsOver(path, opts[..|opts| - 1]) || run in Branch(path, opts[|opts| - 1])
    {
    }

    static lemma {:induction false} InSnoc<T>(s: seq<T>, x: T)
      requires s != []
      ensures x in s <==> x in s[..|s| - 1] || x == s[|s| - 1]
    {
    }

    /** The runs that go on with choice c. */
    ghost function Branch(path: seq<Choice>, c: Choice): seq<seq<Choice>>
      requires Ok() && |path| < NumTurns()
      decreases NumTurns() - |path|, 0, 0
    {
      if Fits(path, c) then Runs(path + [c]) else []
    }

    lemma {:induction false} BranchIs(path: seq<Choice>, c: Choice, run: seq<Choice>)
      requires Ok() && Consistent(path) && |path| < NumTurns()
      ensures run in Branch(path, c) <==> IsRun(run, path) && run[|path|] == c
      decreases NumTurns() - |path|, 0, 0
    {
      if Fits(path, c) {
        ConsistentSnoc(path, c);
        RunsAre(path + [c], run);
        StartsWith(path, c, run);
      } else if IsRun(run, path) {
        ConsistentPrefix(run, |path|);
      }
    }

    /** No run is listed twice. */
    lemma {:induction false} RunsOnce(path: seq<Choice>)
      requires Ok() && Consistent(path)
      ensures NoDup(Runs(path))
      decreases NumTurns() - |path|, 1, 0
    {
      if |path| < NumTurns() {
        OptionsAre(|path|);
        RunsOverOnce(path, Options(|path|));
      }
    }

    lemma {:induction false} RunsOverOnce(path: seq<Choice>, opts: seq<Choice>)
      requires Ok() && Consistent(path) && |path| < NumTurns() && NoDup(opts)
      ensures NoDup(RunsOver(path, opts))
      decreases NumTurns() - |path|, 0, |opts|
    {
      if opts != [] {
        var last := |opts| - 1;
        var c := opts[last];
        RunsOverOnce(path, opts[..last]);
        if Fits(path, c) {
          ConsistentSnoc(path, c);
          RunsOnce(path + [c]);
        }
        forall run
          ensures !(run in RunsOver(path, opts[..last]) && run in Branch(path, c))
        {
          RunsOverAre(path, opts[..last], run);
          BranchIs(path, c, run);
        }
        NoDupConcat(RunsOver(path, opts[..last]), Branch(path, c));
      }
    }

    // ----- the tree's leaf paths are the runs -----

    /** The shards of a run from turn n on. */
    ghost function RunLeaves(run: seq<Choice>, n: nat): (leaves: seq<Leaf>)
      requires Ok() && |run| <= NumTurns() && n <= |run|
      ensures |leaves| == |run| - n
      ensures forall i :: 0 <= i < |leaves| ==> leaves[i] == LeafFor(n + i, Chosen(n + i, run[n + i]))
    {
      seq(|run| - n, i requires 0 <= i < |run| - n => LeafFor(n + i, Chosen(n + i, run[n + i])))
    }

    ghost predicate AllPaths(runs: seq<seq<Choice>>, n: nat)
      requires Ok()
    {
      forall i {:trigger runs[i]} :: 0 <= i < |runs| ==> n <= |runs[i]| <= NumTurns()
    }

    ghost function AllRunLeaves(runs: seq<seq<Choice>>, n: nat): (all: seq<seq<Leaf>>)
      requires Ok() && AllPaths(runs, n)
      ensures |all| == |runs| && forall i :: 0 <= i < |all| ==> all[i] == RunLeaves(runs[i], n)
    {
      seq(|runs|, i requires 0 <= i < |runs| => RunLeaves(runs[i], n))
    }

    ghost predicate RunsFrom(runs: seq<seq<Choice>>, path: seq<Choice>)
      requires Ok()
    {
      forall i {:trigger runs[i]} :: 0 <= i < |runs| ==> |path| <= |runs[i]| == NumTurns() && runs[i][..|path|] == path
    }

    lemma {:induction false} RunsStart(path: seq<Choice>)
      requires Ok() && |path| <= NumTurns()
      ensures RunsFrom(Runs(path), path)
      decreases NumTurns() - |path|, 1, 0
    {
      if |path| < NumTurns() {
        RunsOverStart(path, Options(|path|));
      }
    }

    lemma {:induction false} RunsOverStart(path: seq<Choice>, opts: seq<Choice>)
      requires Ok() && |path| < NumTurns()
      ensures RunsFrom(RunsOver(path, opts), path)
      decreases NumTurns() - |path|, 0, |opts|
    {
      if opts != [] {
        var last := |opts| - 1;
        RunsOverStart(path, opts[..last]);
        if Fits(path, opts[last]) {
          RunsStart(path + [opts[last]]);
          forall i | 0 <= i < |Runs(path + [opts[last]])|
            ensures Runs(path + [opts[last]])[i][..|path|] == path
          {
            StartsWith(path, opts[last], Runs(path + [opts[last]])[i]);
          }
        }
      }
    }
  }

  // ----- root-to-leaf paths -----

  ghost function Prepend(x: Leaf, paths: seq<seq<Leaf>>): (all: seq<seq<Leaf>>)
    ensures |all| == |paths| && forall i :: 0 <= i < |all| ==> all[i] == [x] + paths[i]
  {
    seq(|paths|, i requires 0 <= i < |paths| => [x] + paths[i])
  }

  /** The shards along every path from a node down to a leaf, left to right. */
  ghost function LeafPaths(node: Node): seq<seq<Leaf>>
    decreases node, 0
  {
    if node.children == [] then [[node.leaf]] else Prepend(node.leaf, LeafPathsOf(node.children))
  }

  ghost function LeafPathsOf(nodes: seq<Node>): seq<seq<Leaf>>
    decreases nodes, |nodes|
  {
    if nodes == [] then [] else LeafPathsOf(nodes[..|nodes| - 1]) + LeafPaths(nodes[|nodes| - 1])
  }

  lemma {:induction false} AppendAppend<T>(a: seq<T>, b: seq<T>, c: seq<T>)
    ensures (a + b) + c == a + (b + c)
  {
  }

  lemma {:induction false} LeafPathsAppend(a: seq<Node>, b: seq<Node>)
    ensures LeafPathsOf(a + b) == LeafPathsOf(a) + LeafPathsOf(b)
    decreases |b|
  {
    if b == [] {
      assert a + b == a;
    } else {
      var last := |b| - 1;
      assert (a + b)[..|a + b| - 1] == a + b[..last] && (a + b)[|a + b| - 1] == b[last];
      LeafPathsAppend(a, b[..last]);
      AppendAppend(LeafPathsOf(a), LeafPathsOf(b[..last]), LeafPaths(b[last]));
    }
  }

  lemma {:induction false} RunLeavesStep(P: Planning, run: seq<Choice>, n: nat)
    requires P.Ok() && |run| <= P.NumTurns() && n < |run|
    ensures P.RunLeaves(run, n) == [P.LeafFor(n, P.Chosen(n, run[n]))] + P.RunLeaves(run, n + 1)
  {
  }

  /** The leaves of runs that all go on with choice c. */
  lemma {:induction false} CommonStep(P: Planning, path: seq<Choice>, c: Choice, runs: seq<seq<Choice>>)
    requires P.Ok() && |path| < P.NumTurns()
    requires P.RunsFrom(runs, path + [c])
    ensures P.AllPaths(runs, |path|) && P.AllPaths(runs, |path| + 1)
    ensures P.AllRunLeaves(runs, |path|)
            == Prepend(P.LeafFor(|path|, P.Chosen(|path|, c)), P.AllRunLeaves(runs, |path| + 1))
  {
    forall i {:trigger runs[i]} | 0 <= i < |runs|
      ensures |path| < |runs[i]| <= P.NumTurns() && runs[i][|path|] == c
    {
      P.StartsWith(path, c, runs[i]);
    }
    forall i | 0 <= i < |runs|
      ensures P.RunLeaves(runs[i], |path|) == [P.LeafFor(|path|, P.Chosen(|path|, c))]
              + P.RunLeaves(runs[i], |path| + 1)
    {
      RunLeavesStep(P, runs[i], |path|);
    }
  }

  /** Below a path, the tree's root-to-leaf paths are the shards of the runs, in the same order. */
  lemma {:induction false} PlanPaths(P: Planning, path: seq<Choice>)
    requires P.Ok() && |path| < P.NumTurns()
    ensures P.AllPaths(P.Runs(path), |path|)
    ensures LeafPathsOf(P.Plan(path)) == P.AllRunLeaves(P.Runs(path), |path|)
    decreases P.NumTurns() - |path|, 1, 0
  {
    P.RunsStart(path);
    PlanOverPaths(P, path, P.Options(|path|));
  }

  lemma {:induction false} PlanOverPaths(P: Planning, path: seq<Choice>, opts: seq<Choice>)
    requires P.Ok() && |path| < P.NumTurns()
    ensures P.AllPaths(P.RunsOver(path, opts), |path|)
    ensures LeafPathsOf(P.PlanOver(path, opts)) == P.AllRunLeaves(P.RunsOver(path, opts), |path|)
    decreases P.NumTurns() - |path|, 0, |opts|
  {
    P.RunsOverStart(path, opts);
    if opts != [] {
      var last := |opts| - 1;
      var c := opts[last];
      P.RunsOverStart(path, opts[..last]);
      PlanOverPaths(P, path, opts[..last]);
      if P.Fits(path, c) {
        P.RunsStart(path + [c]);
        CommonStep(P, path, c, P.Runs(path + [c]));
        KeptPaths(P, path, c);
        LeafPathsAppend(P.PlanOver(path, opts[..last]), P.Kept(path, c, P.Plan(path + [c])));
        RunLeavesAppend(P, P.RunsOver(path, opts[..last]), P.Runs(path + [c]), |path|);
      } else {
        assert P.PlanOver(path, opts) == P.PlanOver(path, opts[..last]);
        assert P.RunsOver(path, opts) == P.RunsOver(path, opts[..last]);
      }
    }
  }

  lemma {:induction false} RunLeavesAppend(P: Planning, a: seq<seq<Choice>>, b: seq<seq<Choice>>, n: nat)
    requires P.Ok() && P.AllPaths(a, n) && P.AllPaths(b, n)
    ensures P.AllPaths(a + b, n) && P.AllRunLeaves(a + b, n) == P.AllRunLeaves(a, n) + P.AllRunLeaves(b, n)
  {
  }

  lemma {:induction false} KeptPaths(P: Planning, path: seq<Choice>, c: Choice)
    requires P.Ok() && |path| < P.NumTurns() && |path + [c]| <= P.NumTurns()
    ensures P.AllPaths(P.Runs(path + [c]), |path| + 1)
    ensures LeafPathsOf(P.Kept(path, c, P.Plan(path + [c])))
         == Prepend(P.LeafFor(|path|, P.Chosen(|path|, c)), P.AllRunLeaves(P.Runs(path + [c]), |path| + 1))
    decreases P.NumTurns() - |path|, 0, 0
  {
    var next := path + [c];
    P.RunsStart(next);
    var kept := P.Kept(path, c, P.Plan(next));
    assert kept != [] ==> kept[..|kept| - 1] == [] && LeafPathsOf(kept) == [] + LeafPaths(kept[0]);
    if |next| == P.NumTurns() {
      var leaf := P.LeafFor(|path|, P.Chosen(|path|, c));
      assert P.Plan(next) == [] && P.Runs(next) == [next];
      assert P.AllRunLeaves(P.Runs(next), |next|) == [[]] && [leaf] + [] == [leaf];
      assert LeafPaths(kept[0]) == [[leaf]];
    } else {
      PlanPaths(P, next);
    }
  }

  // ----- the shape of the tree -----

  /** Every path reaches the last turn, and every node says which turn it is for. */
  ghost predicate Levelled(P: Planning, nodes: seq<Node>, n: nat)
    requires P.Ok() && n < P.NumTurns()
    decreases P.NumTurns() - n
  {
    forall i {:trigger nodes[i]} :: 0 <= i < |nodes| ==>
      && nodes[i].level == n + 1 && nodes[i].vertex == P.TurnOwner(n) + 1 && nodes[i].edge == P.s.turns[n].edge
      && if n + 1 == P.NumTurns() then nodes[i].children == []
         else (nodes[i].children != [] && Levelled(P, nodes[i].children, n + 1))
  }

  lemma {:induction false} PlanIsLevelled(P: Planning, path: seq<Choice>)
    requires P.Ok() && |path| < P.NumTurns()
    ensures Levelled(P, P.Plan(path), |path|)
    decreases P.NumTurns() - |path|, 1, 0
  {
    PlanOverIsLevelled(P, path, P.Options(|path|));
  }

  lemma {:induction false} LevelledAppend(P: Planning, a: seq<Node>, b: seq<Node>, n: nat)
    requires P.Ok() && n < P.NumTurns() && Levelled(P, a, n) && Levelled(P, b, n)
    ensures Levelled(P, a + b, n)
  {
    var all := a + b;
    forall i {:trigger all[i]} | 0 <= i < |all|
      ensures all[i] in a || all[i] in b
    {
    }
  }

  lemma {:induction false} KeptIsLevelled(P: Planning, path: seq<Choice>, c: Choice, kids: seq<Node>)
    requires P.Ok() && |path| < P.NumTurns()
    requires if |path| + 1 == P.NumTurns() then kids == [] else Levelled(P, kids, |path| + 1)
    ensures Levelled(P, P.Kept(path, c, kids), |path|)
  {
  }

  lemma {:induction false} PlanOverIsLevelled(P: Planning, path: seq<Choice>, opts: seq<Choice>)
    requires P.Ok() && |path| < P.NumTurns()
    ensures Levelled(P, P.PlanOver(path, opts), |path|)
    decreases P.NumTurns() - |path|, 0, |opts|
  {
    if opts != [] {
      var last := |opts| - 1;
      PlanOverIsLevelled(P, path, opts[..last]);
      if P.Fits(path, opts[last]) {
        var next := path + [opts[last]];
        if |next| < P.NumTurns() {
          PlanIsLevelled(P, next);
        }
        KeptIsLevelled(P, path, opts[last], P.Plan(next));
        LevelledAppend(P, P.PlanOver(path, opts[..last]), P.Kept(path, opts[last], P.Plan(next)), |path|);
      }
    }
  }
}
