/** The scheduler's depth-first search over shard pairs, with its stack of ranges per query vertex. */
module Planners {
  import opened QueryGraphs
  import opened Grids
  import opened PlanTrees
  import opened Sequences

  /** The grid a vertex is bound to, and the ranges its bindings left, the last one current. */
  datatype VertexRange = VertexRange(gridId: nat, localRange: seq<Interval>) {
    function Top(): Interval {
      if localRange == [] then FullRange() else localRange[|localRange| - 1]
    }

    predicate Bound() {
      |localRange| != 1
    }
  }

  ghost predicate TracksVertex(P: Planning, r: VertexRange, path: seq<Choice>, v: nat)
    requires P.Ok() && |path| <= P.NumTurns()
  {
    && |r.localRange| == 1 + P.Touching(path, v)
    && r.Top() == P.RangeOf(path, v)
    && (r.Bound() ==> r.gridId == P.GridOf(path, v))
  }

  ghost predicate Tracks(P: Planning, ranges: seq<VertexRange>, path: seq<Choice>)
    requires P.Ok() && |path| <= P.NumTurns()
  {
    && |ranges| == |P.Q.vertices|
    && forall v {:trigger ranges[v]} :: 0 <= v < |ranges| ==> TracksVertex(P, ranges[v], path, v)
  }

  /** Same stacks; the grid id of an unbound vertex may be stale. */
  ghost predicate Restored(before: seq<VertexRange>, after: seq<VertexRange>) {
    && |after| == |before|
    && forall v {:trigger after[v]} :: 0 <= v < |after| ==>
         after[v].localRange == before[v].localRange && (before[v].Bound() ==> after[v].gridId == before[v].gridId)
  }

  lemma {:induction false} RestoredTracks(P: Planning, before: seq<VertexRange>, after: seq<VertexRange>,
                                          path: seq<Choice>)
    requires P.Ok() && |path| <= P.NumTurns() && Tracks(P, before, path) && Restored(before, after)
    ensures Tracks(P, after, path)
  {
    forall v {:trigger after[v]} | 0 <= v < |after|
      ensures TracksVertex(P, after[v], path, v)
    {
      assert TracksVertex(P, before[v], path, v);
    }
  }

  lemma {:induction false} RestoredTwice(a: seq<VertexRange>, b: seq<VertexRange>, c: seq<VertexRange>)
    requires Restored(a, b) && Restored(b, c)
    ensures Restored(a, c)
  {
    forall v {:trigger c[v]} | 0 <= v < |c|
      ensures c[v].localRange == a[v].localRange && (a[v].Bound() ==> c[v].gridId == a[v].gridId)
    {
      assert b[v].localRange == a[v].localRange;
    }
  }

  lemma {:induction false} PushTracks(P: Planning, before: seq<VertexRange>, path: seq<Choice>, c: Choice,
                                      after: seq<VertexRange>, v: nat)
    requires P.Ok() && |path| < P.NumTurns() && P.Fits(path, c) && |path + [c]| <= P.NumTurns()
    requires Tracks(P, before, path) && |after| == |before| && v < |after|
    requires
      var e, pair := P.Edge(|path|), P.Chosen(|path|, c);
      after[v] == if v == e.v1 then VertexRange(if before[v].Bound() then before[v].gridId
          else c.row, before[v].localRange + [Meet(before[v].Top(), pair.src)])
                  else if v == e.v2 then VertexRange(if before[v].Bound() then before[v].gridId
                      else c.col, before[v].localRange + [Meet(before[v].Top(), pair.dst)])
                  else before[v]
    ensures TracksVertex(P, after[v], path + [c], v)
  {
    assert TracksVertex(P, before[v], path, v);
    assert (path + [c])[..|path|] == path;
  }

  /** before with one more range on the stacks of both endpoints. */
  ghost predicate Pushed(before: seq<VertexRange>, after: seq<VertexRange>, e: QEdge) {
    && |after| == |before|
    && forall v {:trigger after[v]} :: 0 <= v < |after| ==>
         && |after[v].localRange| == |before[v].localRange| + (if e.Touches(v) then 1 else 0)
         && |before[v].localRange| >= 1 && before[v].localRange <= after[v].localRange
         && (before[v].Bound() ==> after[v].gridId == before[v].gridId)
  }

  lemma {:induction false} RowsBelow(P: Planning, n: nat, row: nat)
    requires P.Ok() && n < P.NumTurns() && P.RowsFrom(P.Edge(n).v1) <= row
    ensures P.OptionsBelow(n, row + 1) == P.OptionsBelow(n, row) + P.RowOptions(n, row, P.RowsTo(P.Edge(n).v2))
  {
  }

  lemma {:induction false} RowStep(P: Planning, n: nat, row: nat, col: nat)
    requires P.Ok() && n < P.NumTurns() && P.RowsFrom(P.Edge(n).v2) <= col
    ensures P.RowOptions(n, row, col + 1)
         == P.RowOptions(n, row, col) + P.CellOptions(row, col, |P.PairsOf(n, row, col)|)
  {
  }

  /** Before the first row no option has been tried, and after the last one all have. */
  lemma {:induction false} FirstRow(P: Planning, path: seq<Choice>)
    requires P.Ok() && |path| < P.NumTurns()
    ensures P.PlanOver(path, P.OptionsBelow(|path|, P.RowsFrom(P.Edge(|path|).v1))) == []
  {
  }

  lemma {:induction false} LastRow(P: Planning, path: seq<Choice>, row: nat)
    requires P.Ok() && |path| < P.NumTurns()
    requires
      var e := P.Edge(|path|);
      P.RowsTo(e.v1) <= row && (row <= P.RowsTo(e.v1) || row == P.RowsFrom(e.v1))
    ensures P.OptionsBelow(|path|, row) == P.Options(|path|)
  {
  }

  lemma {:induction false} LastColumn(P: Planning, n: nat, row: nat, col: nat)
    requires P.Ok() && n < P.NumTurns()
    requires
      var e := P.Edge(n);
      P.RowsTo(e.v2) <= col && (col <= P.RowsTo(e.v2) || col == P.RowsFrom(e.v2))
    ensures P.RowOptions(n, row, col) == P.RowOptions(n, row, P.RowsTo(P.Edge(n).v2))
  {
  }

  lemma {:induction false} NoChild(P: Planning, path: seq<Choice>, c: Choice, kids: seq<Node>)
    requires P.Ok() && |path| < P.NumTurns() && !P.Fits(path, c)
    ensures kids == kids + ChildOf(P, path, c)
  {
  }

  lemma {:induction false} ChildIs(P: Planning, path: seq<Choice>, c: Choice, grandkids: seq<Node>)
    requires P.Ok() && |path| < P.NumTurns() && P.Fits(path, c) && grandkids == P.Plan(path + [c])
    ensures ChildOf(P, path, c) == P.Kept(path, c, grandkids)
  {
  }

  /** The node for a choice is kept if the path is complete or leads to a complete one. */
  method AddChild(P: Planning, n: nat, c: Choice, pair: ShardPair, ghost path: seq<Choice>, kids: seq<Node>,
                  grandkids: seq<Node>, valid: bool)
    returns (kids': seq<Node>)
    requires P.Ok() && n == |path| < P.NumTurns() && pair == P.Chosen(n, c)
    requires valid <==> n + 1 == P.NumTurns() || grandkids != []
    ensures kids' == kids + P.Kept(path, c, grandkids)
  {
    kids' := kids;
    if valid {
      kids' := kids' + [Node(P.LeafFor(n, pair), P.TurnOwner(n) + 1, P.s.turns[n].edge, n + 1, grandkids)];
    }
  }

  class Planner {
    const P: Planning
    var ranges: seq<VertexRange>

    constructor (P: Planning)
      requires P.Ok()
      ensures this.P == P && Tracks(P, ranges, [])
    {
      this.P := P;
      ranges := seq(|P.Q.vertices|, v => VertexRange(0, [FullRange()]));
    }

    /** Neither endpoint is bound to another grid. */
    predicate CheckGridRange(row: nat, col: nat, src: nat, dst: nat)
      requires src < |ranges| && dst < |ranges|
      reads this
    {
      && (ranges[src].Bound() ==> ranges[src].gridId == row)
      && (ranges[dst].Bound() ==> ranges[dst].gridId == col)
    }

    /** Narrows the ranges of both endpoints, unless one would become empty. */
    method PushRange(n: nat, c: Choice, pair: ShardPair, ghost path: seq<Choice>) returns (ok: bool)
      requires P.Ok() && |path| <= P.NumTurns() && Tracks(P, ranges, path) && n == |path| < P.NumTurns()
      requires P.IsOption(n, c) && P.GridFits(path, c.row, c.col) && pair == P.Chosen(n, c)
      modifies this
      ensures ok <==> P.Fits(path, c)
      ensures !ok ==> ranges == old(ranges)
      ensures ok ==> |path + [c]| <= P.NumTurns() && Tracks(P, ranges, path + [c])
      ensures ok ==> Pushed(old(ranges), ranges, P.Edge(n))
    {
      var e := P.Edge(n);
      assert TracksVertex(P, ranges[e.v1], path, e.v1) && TracksVertex(P, ranges[e.v2], path, e.v2);
      if !Overlap(ranges[e.v1].Top(), pair.src) {
        return false;
      }
      if !Overlap(ranges[e.v2].Top(), pair.dst) {
        return false;
      }
      var a, b := ranges[e.v1], ranges[e.v2];
      var a' := VertexRange(if a.Bound() then a.gridId else c.row, a.localRange + [Meet(a.Top(), pair.src)]);
      var b' := VertexRange(if b.Bound() then b.gridId else c.col, b.localRange + [Meet(b.Top(), pair.dst)]);
      ghost var before := ranges;
      ranges := ranges[e.v1 := a'][e.v2 := b'];
      forall v {:trigger ranges[v]} | 0 <= v < |ranges|
        ensures TracksVertex(P, ranges[v], path + [c], v)
        ensures |ranges[v].localRange| == |before[v].localRange| + (if e.Touches(v) then 1 else 0)
                && |before[v].localRange| >= 1
        ensures before[v].localRange <= ranges[v].localRange
                && (before[v].Bound() ==> ranges[v].gridId == before[v].gridId)
      {
        PushTracks(P, before, path, c, ranges, v);
        assert TracksVertex(P, before[v], path, v);
      }
      ok := true;
    }

    method PopRange(src: nat, dst: nat)
      requires src < |ranges| && dst < |ranges| && src != dst
      requires |ranges[src].localRange| >= 1 && |ranges[dst].localRange| >= 1
      modifies this
      ensures |ranges| == |old(ranges)|
      ensures forall v {:trigger ranges[v]} :: 0 <= v < |ranges| ==>
                var was := old(ranges)[v].localRange;
                ranges[v] == if v == src || v == dst then old(ranges)[v].(localRange := was[..|was| - 1])
                             else old(ranges)[v]
    {
      var a, b := ranges[src].localRange, ranges[dst].localRange;
      ranges := ranges[src := ranges[src].(localRange := a[..|a| - 1])];
      ranges := ranges[dst := ranges[dst].(localRange := b[..|b| - 1])];
    }

    /**
     * Tries one shard pair of a cell: narrows, descends, keeps the node if it leads to a complete path, widens again.
     */
    method VisitPair(n: nat, c: Choice, pair: ShardPair, ghost path: seq<Choice>, kids: seq<Node>)
      returns (kids': seq<Node>)
      requires P.Ok() && |path| <= P.NumTurns() && Tracks(P, ranges, path) && n == |path| < P.NumTurns()
      requires P.IsOption(n, c) && P.GridFits(path, c.row, c.col) && pair == P.Chosen(n, c)
      modifies this
      ensures Restored(old(ranges), ranges)
      ensures kids' == kids + ChildOf(P, path, c)
      decreases P.NumTurns() - n, 0
    {
      kids' := kids;
      var ok := PushRange(n, c, pair, path);
      if !ok {
        NoChild(P, path, c, kids);
        return;
      }
      ghost var pushed := ranges;
      var grandkids, valid := Iterate(n + 1, path + [c]);
      ChildIs(P, path, c, grandkids);
      kids' := AddChild(P, n, c, pair, path, kids, grandkids, valid);
      var e := P.Edge(n);
      StillPushed(old(ranges), pushed, ranges, e);
      ghost var descended := ranges;
      PopRange(e.v1, e.v2);
      PopRestores(old(ranges), descended, ranges, e);
    }

    /** Visits the pairs of one cell, unless an endpoint is bound elsewhere. */
    method VisitCell(n: nat, row: nat, col: nat, ghost path: seq<Choice>, ghost opts: seq<Choice>, kids: seq<Node>)
      returns (kids': seq<Node>)
      requires P.Ok() && |path| <= P.NumTurns() && Tracks(P, ranges, path) && n == |path| < P.NumTurns()
      requires P.RowsFrom(P.Edge(n).v1) <= row < P.RowsTo(P.Edge(n).v1)
               && P.RowsFrom(P.Edge(n).v2) <= col < P.RowsTo(P.Edge(n).v2)
      requires kids == P.PlanOver(path, opts)
      modifies this
      ensures Restored(old(ranges), ranges)
      ensures kids' == P.PlanOver(path, opts + P.CellOptions(row, col, |P.PairsOf(n, row, col)|))
      decreases P.NumTurns() - n, 1
    {
      kids' := kids;
      var e, pairs := P.Edge(n), P.PairsOf(n, row, col);
      CheckMeansFits(P, ranges, path, row, col);
      if !CheckGridRange(row, col, e.v1, e.v2) {
        SkippedCell(P, path, opts, row, col, |pairs|);
        return;
      }
      var j := 0;
      assert opts + P.CellOptions(row, col, 0) == opts;
      while j < |pairs|
        invariant 0 <= j <= |pairs|
        invariant Restored(old(ranges), ranges)
        invariant kids' == P.PlanOver(path, opts + P.CellOptions(row, col, j))
      {
        RestoredTracks(P, old(ranges), ranges, path);
        ghost var before := ranges;
        kids' := VisitPair(n, Choice(row, col, j), pairs[j], path, kids');
        RestoredTwice(old(ranges), before, ranges);
        NextOption(P, path, opts, row, col, j);
        j := j + 1;
      }
    }

    method VisitRow(n: nat, row: nat, ghost path: seq<Choice>, ghost opts: seq<Choice>, kids: seq<Node>)
      returns (kids': seq<Node>)
      requires P.Ok() && |path| <= P.NumTurns() && Tracks(P, ranges, path) && n == |path| < P.NumTurns()
      requires P.RowsFrom(P.Edge(n).v1) <= row < P.RowsTo(P.Edge(n).v1)
      requires kids == P.PlanOver(path, opts)
      modifies this
      ensures Restored(old(ranges), ranges)
      ensures kids' == P.PlanOver(path, opts + P.RowOptions(n, row, P.RowsTo(P.Edge(n).v2)))
      decreases P.NumTurns() - n, 2
    {
      kids' := kids;
      var to := P.RowsTo(P.Edge(n).v2);
      var col := P.RowsFrom(P.Edge(n).v2);
      ghost var tried: seq<Choice> := [];
      assert opts + tried == opts;
      while col < to
        invariant P.RowsFrom(P.Edge(n).v2) <= col && (col <= to || col == P.RowsFrom(P.Edge(n).v2))
        invariant Restored(old(ranges), ranges)
        invariant tried == P.RowOptions(n, row, col) && kids' == P.PlanOver(path, opts + tried)
      {
        RestoredTracks(P, old(ranges), ranges, path);
        ghost var before := ranges;
        kids' := VisitCell(n, row, col, path, opts + tried, kids');
        RestoredTwice(old(ranges), before, ranges);
        Associative(opts, tried, P.CellOptions(row, col, |P.PairsOf(n, row, col)|));
        tried := tried + P.CellOptions(row, col, |P.PairsOf(n, row, col)|);
        RowStep(P, n, row, col);
        col := col + 1;
      }
      LastColumn(P, n, row, col);
    }

    /** All subtrees below a path; valid says whether the path leads to a complete one. */
    method Iterate(n: nat, ghost path: seq<Choice>) returns (kids: seq<Node>, valid: bool)
      requires P.Ok() && |path| <= P.NumTurns() && Tracks(P, ranges, path) && n == |path|
      modifies this
      ensures Restored(old(ranges), ranges)
      ensures kids == P.Plan(path)
      ensures valid <==> n == P.NumTurns() || kids != []
      decreases P.NumTurns() - n, 3
    {
      kids, valid := [], false;
      if n >= P.NumTurns() {
        valid := true;
        return;
      }
      var to := P.RowsTo(P.Edge(n).v1);
      var row := P.RowsFrom(P.Edge(n).v1);
      FirstRow(P, path);
      while row < to
        invariant P.RowsFrom(P.Edge(n).v1) <= row && (row <= to || row == P.RowsFrom(P.Edge(n).v1))
        invariant Restored(old(ranges), ranges)
        invariant kids == P.PlanOver(path, P.OptionsBelow(n, row))
      {
        RestoredTracks(P, old(ranges), ranges, path);
        ghost var before := ranges;
        kids := VisitRow(n, row, path, P.OptionsBelow(n, row), kids);
        RestoredTwice(old(ranges), before, ranges);
        RowsBelow(P, n, row);
        row := row + 1;
      }
      LastRow(P, path, row);
      valid := kids != [];
    }
  }

  /** What one choice adds to the subtrees. */
  ghost function ChildOf(P: Planning, path: seq<Choice>, c: Choice): seq<Node>
    requires P.Ok() && |path| < P.NumTurns()
  {
    if P.Fits(path, c) then
      P.Kept(path, c, P.Plan(path + [c]))
    else []
  }

  lemma {:induction false} PlanOverSnoc(P: Planning, path: seq<Choice>, opts: seq<Choice>, c: Choice)
    requires P.Ok() && |path| < P.NumTurns()
    ensures P.PlanOver(path, opts + [c]) == P.PlanOver(path, opts) + ChildOf(P, path, c)
  {
    assert (opts + [c])[..|opts|] == opts;
  }

  lemma {:induction false} NextOption(P: Planning, path: seq<Choice>, opts: seq<Choice>, row: nat, col: nat, j: nat)
    requires P.Ok() && |path| < P.NumTurns()
    ensures P.PlanOver(path, opts + P.CellOptions(row, col, j + 1))
         == P.PlanOver(path, opts + P.CellOptions(row, col, j)) + ChildOf(P, path, Choice(row, col, j))
  {
    assert opts + P.CellOptions(row, col, j + 1) == opts + P.CellOptions(row, col, j) + [Choice(row, col, j)];
    PlanOverSnoc(P, path, opts + P.CellOptions(row, col, j), Choice(row, col, j));
  }

  /** The grid check on the stacks is the check on the path. */
  lemma {:induction false} CheckMeansFits(P: Planning, ranges: seq<VertexRange>, path: seq<Choice>, row: nat, col: nat)
    requires P.Ok() && |path| < P.NumTurns() && Tracks(P, ranges, path)
    ensures
      var e := P.Edge(|path|);
      P.GridFits(path, row, col) <==>
        (ranges[e.v1].Bound() ==> ranges[e.v1].gridId == row) && (ranges[e.v2].Bound() ==> ranges[e.v2].gridId == col)
  {
    var e := P.Edge(|path|);
    assert TracksVertex(P, ranges[e.v1], path, e.v1) && TracksVertex(P, ranges[e.v2], path, e.v2);
  }

  /** A cell that fails the grid check holds no fitting choice. */
  lemma {:induction false} SkippedCell(P: Planning, path: seq<Choice>, opts: seq<Choice>, row: nat, col: nat, j: nat)
    requires P.Ok() && |path| < P.NumTurns() && !P.GridFits(path, row, col)
    ensures P.PlanOver(path, opts + P.CellOptions(row, col, j)) == P.PlanOver(path, opts)
    decreases j
  {
    if j == 0 {
      assert opts + P.CellOptions(row, col, 0) == opts;
    } else {
      SkippedCell(P, path, opts, row, col, j - 1);
      NextOption(P, path, opts, row, col, j - 1);
    }
  }

  lemma {:induction false} PopRestores(before: seq<VertexRange>, after: seq<VertexRange>, popped: seq<VertexRange>,
                                       e: QEdge)
    requires Pushed(before, after, e) && |popped| == |after|
    requires forall v {:trigger popped[v]} :: 0 <= v < |popped| ==>
               popped[v] == if v == e.v1 || v == e.v2
                            then after[v].(localRange := after[v].localRange[..|after[v].localRange| - 1])
                            else after[v]
    ensures Restored(before, popped)
  {
    forall v {:trigger popped[v]} | 0 <= v < |popped|
      ensures popped[v].localRange == before[v].localRange
              && (before[v].Bound() ==> popped[v].gridId == before[v].gridId)
    {
      assert |after[v].localRange| == |before[v].localRange| + (if e.Touches(v) then 1 else 0);
    }
  }

  /** After the descent, both endpoints still hold the range that was pushed. */
  lemma {:induction false} StillPushed(before: seq<VertexRange>, pushed: seq<VertexRange>, after: seq<VertexRange>,
                                       e: QEdge)
    requires Pushed(before, pushed, e) && Restored(pushed, after) && e.v1 < |before| && e.v2 < |before|
    ensures Pushed(before, after, e)
    ensures |after[e.v1].localRange| >= 1 && |after[e.v2].localRange| >= 1
  {
    forall v {:trigger after[v]} | 0 <= v < |after|
      ensures |after[v].localRange| == |before[v].localRange| + (if e.Touches(v) then 1 else 0)
              && |before[v].localRange| >= 1
      ensures before[v].localRange <= after[v].localRange && (before[v].Bound() ==> after[v].gridId == before[v].gridId)
    {
      assert after[v].localRange == pushed[v].localRange;
    }
  }
}
