/** What pre-order means for the groups of a task: how each vertex end relates to the one before it. */
module WalkOrders {
  import opened Grids
  import opened PlanTrees
  import opened PlanWalks
  import opened PlanStreams

  /** q may come right after p in pre-order. */
  ghost predicate Next(levels: Levels, p: Position, q: Position) {
    && 1 <= |q| <= |p| + 1 && (|p| < levels.maxLevel ==> |q| == |p| + 1)
    && q[..|q| - 1] == p[..|q| - 1]
  }

  ghost predicate Ordered(levels: Levels, items: seq<Position>) {
    && (forall i {:trigger items[i]} :: 0 <= i < |items| ==> 1 <= |items[i]| <= levels.maxLevel)
    && forall i: nat {:trigger NextAt(levels, items, i)} :: i + 1 < |items| ==> NextAt(levels, items, i)
  }

  ghost predicate NextAt(levels: Levels, items: seq<Position>, i: nat) {
    i + 1 < |items| ==> Next(levels, items[i], items[i + 1])
  }

  lemma {:induction false} OrderedAppend(levels: Levels, a: seq<Position>, b: seq<Position>)
    requires Ordered(levels, a) && Ordered(levels, b)
    requires a != [] && b != [] ==> Next(levels, a[|a| - 1], b[0])
    ensures Ordered(levels, a + b)
  {
    forall i: nat {:trigger NextAt(levels, a + b, i)} | i + 1 < |a + b|
      ensures NextAt(levels, a + b, i)
    {
      if i + 1 < |a| {
        assert NextAt(levels, a, i);
      } else if i >= |a| {
        assert NextAt(levels, b, i - |a|);
      }
    }
  }

  ghost predicate AllBelow(path: Position, items: seq<Position>) {
    forall i {:trigger items[i]} :: 0 <= i < |items| ==> |path| < |items[i]| && items[i][..|path|] == path
  }

  lemma {:induction false} BelowBelow(path: Position, k: Node, items: seq<Position>)
    requires AllBelow(path + [k], items)
    ensures AllBelow(path, items)
  {
    forall i {:trigger items[i]} | 0 <= i < |items|
      ensures items[i][..|path|] == path
    {
      assert items[i][..|path| + 1][..|path|] == items[i][..|path|];
    }
  }

  lemma {:induction false} WalkOrdered(levels: Levels, path: Position, kids: seq<Node>)
    requires levels.Ok() && |path| < levels.maxLevel
    requires forall i {:trigger kids[i]} :: 0 <= i < |kids| ==> Shaped(levels, kids[i].children, |path| + 1)
    ensures Ordered(levels, Walk(path, kids)) && AllBelow(path, Walk(path, kids))
    ensures kids != [] ==> Walk(path, kids) != [] && Walk(path, kids)[0] == path + [kids[0]]
    decreases kids, |kids|
  {
    if kids != [] {
      NodeOrdered(levels, path, kids[0]);
      WalkOrdered(levels, path, kids[1..]);
      var a, b := [path + [kids[0]]] + Walk(path + [kids[0]], kids[0].children), Walk(path, kids[1..]);
      if b != [] {
        FullThenSibling(levels, path, a[|a| - 1], b[0]);
      }
      OrderedAppend(levels, a, b);
    }
  }

  lemma {:induction false} FullThenSibling(levels: Levels, path: Position, p: Position, q: Position)
    requires |p| == levels.maxLevel && |q| == |path| + 1 && |path| < |p| && p[..|path|] == path && q[..|path|] == path
    ensures Next(levels, p, q)
  {
  }

  /** A node and everything below it: starts with the node, ends with a complete position. */
  lemma {:induction false} NodeOrdered(levels: Levels, path: Position, k: Node)
    requires levels.Ok() && |path| < levels.maxLevel && Shaped(levels, k.children, |path| + 1)
    ensures
      var a := [path + [k]] + Walk(path + [k], k.children);
      Ordered(levels, a) && AllBelow(path, a) && |a[|a| - 1]| == levels.maxLevel
    decreases k, 0
  {
    var p := path + [k];
    var a, below := [p] + Walk(p, k.children), Walk(p, k.children);
    assert p[..|path|] == path;
    if |p| < levels.maxLevel {
      WalkOrdered(levels, p, k.children);
      WalkLast(levels, p, k.children);
      BelowBelow(path, k, below);
      assert below[0][..|p|] == p;
      OrderedAppend(levels, [p], below);
    } else {
      assert below == [];
    }
  }

  // ----- vertex ends -----

  /** The vertex level (from 1) of a position. */
  ghost function Vl(levels: Levels, p: Position): nat
    requires levels.Ok() && 1 <= |p| <= levels.maxLevel
  {
    levels.vlevel[|p| - 1] + 1
  }

  /** Vertex levels come without gaps, up to m. */
  ghost predicate Gapless(levels: Levels, m: nat)
    requires levels.Ok()
  {
    && levels.vlevel[0] == 0 && levels.vlevel[levels.maxLevel - 1] + 1 == m
    && forall l: nat {:trigger NoGapBefore(levels, l)} :: 1 <= l < levels.maxLevel ==> NoGapBefore(levels, l)
  }

  ghost predicate NoGapBefore(levels: Levels, l: nat) {
    1 <= l < |levels.vlevel| ==> levels.vlevel[l] <= levels.vlevel[l - 1] + 1
  }

  /** ends[d] is the last level of vertex level d. */
  ghost predicate EndsAre(levels: Levels, m: nat, ends: seq<nat>)
    requires levels.Ok()
  {
    && |ends| == m + 1 && ends[0] == 0 && ends[m] == levels.maxLevel
    && (forall d, e :: 0 <= d <= e <= m ==> ends[d] <= ends[e])
    && forall l: nat, d: nat {:trigger levels.vlevel[l], ends[d]} :: l < levels.maxLevel && d <= m ==>
         (l < ends[d] <==> levels.vlevel[l] < d)
  }

  lemma {:induction false} EndLength(levels: Levels, m: nat, ends: seq<nat>, p: Position)
    requires levels.Ok() && Gapless(levels, m) && EndsAre(levels, m, ends) && IsEnd(levels, p)
    ensures Vl(levels, p) <= m && ends[Vl(levels, p)] == |p|
    ensures Vl(levels, p) == m <==> |p| == levels.maxLevel
  {
    var l, d := |p| - 1, Vl(levels, p);
    assert levels.vlevel[l] <= levels.vlevel[levels.maxLevel - 1];
    assert l < ends[d] <==> levels.vlevel[l] < d;
    if |p| < levels.maxLevel {
      assert levels.vlevel[l] < levels.vlevel[l + 1] <= levels.vlevel[levels.maxLevel - 1];
      assert l + 1 < ends[d] <==> levels.vlevel[l + 1] < d;
    }
  }

  /** How the vertex end q relates to the vertex end p before it. */
  ghost predicate EndNext(levels: Levels, m: nat, ends: seq<nat>, p: Position, q: Position)
    requires levels.Ok()
  {
    && 1 <= |p| <= levels.maxLevel && 1 <= |q| <= levels.maxLevel && |ends| == m + 1
    && 1 <= Vl(levels, q) <= m && Vl(levels, q) <= Vl(levels, p) + 1
    && (Vl(levels, p) < m ==> Vl(levels, q) == Vl(levels, p) + 1)
    && ends[Vl(levels, q) - 1] <= |p| && ends[Vl(levels, q) - 1] <= |q|
    && p[..ends[Vl(levels, q) - 1]] == q[..ends[Vl(levels, q) - 1]]
  }

  /** The first vertex end from a position on continues it within its vertex. */
  lemma {:induction false} FirstEnd(levels: Levels, items: seq<Position>)
    requires levels.Ok() && Ordered(levels, items) && items != [] && |items[|items| - 1]| == levels.maxLevel
    ensures Ends(levels, items) != []
    ensures
      var q := Ends(levels, items)[0];
      |items[0]| <= |q| <= levels.maxLevel && q[..|items[0]|] == items[0] && Vl(levels, q) == Vl(levels, items[0])
    decreases |items|
  {
    if !IsEnd(levels, items[0]) {
      assert |items| > 1 && NextAt(levels, items, 0);
      OrderedTail(levels, items);
      FirstEnd(levels, items[1..]);
      var q := Ends(levels, items[1..])[0];
      assert q[..|items[1]|][..|items[0]|] == q[..|items[0]|];
    }
  }

  lemma {:induction false} OrderedTail(levels: Levels, items: seq<Position>)
    requires Ordered(levels, items) && items != []
    ensures Ordered(levels, items[1..])
  {
    forall i: nat {:trigger NextAt(levels, items[1..], i)} | i + 1 < |items[1..]|
      ensures NextAt(levels, items[1..], i)
    {
      assert NextAt(levels, items, i + 1);
    }
  }

  lemma {:induction false} LeavesEnd(levels: Levels, m: nat, ends: seq<nat>, p: Position, r: Position)
    requires levels.Ok() && Gapless(levels, m) && EndsAre(levels, m, ends) && IsEnd(levels, p)
    requires Next(levels, p, r) && 1 <= |r| <= levels.maxLevel
    ensures 1 <= Vl(levels, r) <= m && Vl(levels, r) <= Vl(levels, p) + 1
    ensures Vl(levels, p) < m ==> Vl(levels, r) == Vl(levels, p) + 1
    ensures ends[Vl(levels, r) - 1] <= |r| - 1 <= |p|
  {
    EndLength(levels, m, ends, p);
    assert levels.vlevel[|r| - 1] <= levels.vlevel[levels.maxLevel - 1];
    assert |r| - 1 < ends[Vl(levels, r) - 1] <==> levels.vlevel[|r| - 1] < Vl(levels, r) - 1;
    if |r| == |p| + 1 {
      assert NoGapBefore(levels, |p|);
    } else {
      assert levels.vlevel[|r| - 1] <= levels.vlevel[|p| - 1];
    }
  }

  lemma {:induction false} PrefixChain(p: Position, r: Position, q: Position, n: nat)
    requires 1 <= |r| <= |q| && q[..|r|] == r && |r| - 1 <= |p| && r[..|r| - 1] == p[..|r| - 1] && n <= |r| - 1
    ensures n <= |p| && n <= |q| && p[..n] == q[..n]
  {
    assert q[..n] == q[..|r|][..n];
    assert r[..n] == r[..|r| - 1][..n];
    assert p[..n] == p[..|r| - 1][..n];
  }

  ghost predicate EndsOrdered(levels: Levels, m: nat, ends: seq<nat>, items: seq<Position>)
    requires levels.Ok()
  {
    && (forall i {:trigger items[i]} :: 0 <= i < |items| ==> IsEnd(levels, items[i]))
    && forall i: nat {:trigger EndNextAt(levels, m, ends, items, i)} :: i + 1 < |items| ==>
         EndNextAt(levels, m, ends, items, i)
  }

  ghost predicate EndNextAt(levels: Levels, m: nat, ends: seq<nat>, items: seq<Position>, i: nat)
    requires levels.Ok()
  {
    i + 1 < |items| ==> EndNext(levels, m, ends, items[i], items[i + 1])
  }

  /** The vertex ends of a pre-order walk follow one another like the nodes of a tree over vertices. */
  lemma {:induction false} EndsInOrder(levels: Levels, m: nat, ends: seq<nat>, items: seq<Position>)
    requires levels.Ok() && Gapless(levels, m) && EndsAre(levels, m, ends)
    requires Ordered(levels, items) && items != [] && |items[|items| - 1]| == levels.maxLevel
    ensures EndsOrdered(levels, m, ends, Ends(levels, items))
    decreases |items|
  {
    var p, rest := items[0], items[1..];
    if rest != [] {
      OrderedTail(levels, items);
      EndsInOrder(levels, m, ends, rest);
      if IsEnd(levels, p) {
        FirstEnd(levels, rest);
        var q := Ends(levels, rest)[0];
        assert NextAt(levels, items, 0);
        LeavesEnd(levels, m, ends, p, rest[0]);
        PrefixChain(p, rest[0], q, ends[Vl(levels, rest[0]) - 1]);
        EndsOrderedCons(levels, m, ends, p, Ends(levels, rest));
        assert Ends(levels, items) == [p] + Ends(levels, rest);
      } else {
        assert Ends(levels, items) == Ends(levels, rest);
      }
    } else {
      assert items == [p];
      assert Ends(levels, items[1..]) == [];
    }
  }

  lemma {:induction false} EndsOrderedCons(levels: Levels, m: nat, ends: seq<nat>, p: Position, items: seq<Position>)
    requires levels.Ok() && EndsOrdered(levels, m, ends, items) && IsEnd(levels, p) && items != []
    requires EndNext(levels, m, ends, p, items[0])
    ensures EndsOrdered(levels, m, ends, [p] + items)
  {
    var all := [p] + items;
    forall i: nat {:trigger EndNextAt(levels, m, ends, all, i)} | i + 1 < |all|
      ensures EndNextAt(levels, m, ends, all, i)
    {
      if i > 0 {
        assert EndNextAt(levels, m, ends, items, i - 1);
      }
    }
  }

  lemma {:induction false} EndsOrderedPart(levels: Levels, m: nat, ends: seq<nat>, items: seq<Position>, lo: nat,
                                           part: seq<Position>)
    requires levels.Ok() && EndsOrdered(levels, m, ends, items) && lo + |part| <= |items|
             && part == items[lo..lo + |part|]
    ensures EndsOrdered(levels, m, ends, part)
  {
    forall i {:trigger part[i]} | 0 <= i < |part|
      ensures IsEnd(levels, part[i])
    {
      assert part[i] == items[lo + i];
    }
    forall i: nat {:trigger EndNextAt(levels, m, ends, part, i)} | i + 1 < |part|
      ensures EndNextAt(levels, m, ends, part, i)
    {
      assert EndNextAt(levels, m, ends, items, lo + i);
    }
  }
}
