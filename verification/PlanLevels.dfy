/** The levels of a plan tree, from the reordered query: which vertex each belongs to and where each vertex ends. */
module PlanLevels {
  import opened Sequences
  import opened QueryGraphs
  import opened Schedules
  import opened SlotLayouts
  import opened Grids
  import opened PlanTrees
  import opened PlanWalks
  import opened WalkOrders

  /**
   * A query without optional edges, reordered: every turn's owner is its earlier end, vertices own turns up to the
   * postfix ones.
   */
  ghost predicate RegularSchedule(Q: QueryGraph, s: Schedule) {
    && Q.Valid() && |s.order| == |Q.vertices| && RanksAre(s.order, s.rank)
    && IsPermutation(TurnEdges(s.turns), |Q.edges|) && TurnsByEarlierEnd(Q, s)
    && |s.elevelToVlevel| == |s.turns|
    && (forall i {:trigger s.turns[i]} :: 0 <= i < |s.turns| ==> s.elevelToVlevel[i] == s.turns[i].order < |s.order|)
    && |s.postfix| < |s.order|
    && forall d: nat {:trigger HasTurn(s, d)} :: d < |s.order| ==> (HasTurn(s, d) <==> d + |s.postfix| < |s.order|)
  }

  ghost predicate HasTurn(s: Schedule, d: nat) {
    exists t {:trigger s.turns[t]} :: 0 <= t < |s.turns| && s.turns[t].order == d
  }

  lemma {:induction false} NoOptionalVertices(Q: QueryGraph)
    requires Q.Valid() && NoOptionalEdges(Q)
    ensures forall v {:trigger Q.vertices[v]} :: 0 <= v < |Q.vertices| ==> !Q.vertices[v].isOptional
  {
  }

  lemma {:induction false} ReorderedIsRegular(Q: QueryGraph, rank: seq<nat>, order: seq<nat>, s: Schedule)
    requires Q.Valid() && NoOptionalEdges(Q) && |order| == |Q.vertices| && RanksAre(order, rank)
             && Reordered(Q, order, rank, s)
    ensures RegularSchedule(Q, s)
  {
    NoOptionalVertices(Q);
    TurnsArePermutation(Q, rank, order, s);
    ReorderedTurns(Q, rank, order, s);
    forall d: nat {:trigger HasTurn(s, d)} | d < |s.order|
      ensures HasTurn(s, d) <==> d + |s.postfix| < |s.order|
    {
      LevelsWithTurns(Q, rank, order, s, d);
    }
    assert HasTurn(s, s.turns[0].order);
  }

  /** How many vertices own turns. */
  function NumOwners(s: Schedule): nat {
    if |s.postfix| <= |s.order| then |s.order| - |s.postfix| else 0
  }

  /** The last vertex owns no turn. */
  lemma {:induction false} SomePostfix(Q: QueryGraph, s: Schedule)
    requires RegularSchedule(Q, s)
    ensures 1 <= NumOwners(s) < |s.order|
  {
    forall t {:trigger s.turns[t]} | 0 <= t < |s.turns|
      ensures s.turns[t].order + 1 < |s.order|
    {
      TurnNotLast(Q, s, t);
    }
    TurnNotLast(Q, s, 0);
    assert !HasTurn(s, |s.order| - 1);
  }

  lemma {:induction false} TurnNotLast(Q: QueryGraph, s: Schedule, t: nat)
    requires RegularSchedule(Q, s) && t < |s.turns|
    ensures s.turns[t].order + 1 < |s.order|
  {
    EarlierIsEarlier(Q, s, s.turns[t].edge);
  }

  function LevelsFor(s: Schedule): Levels
    requires forall i {:trigger s.turns[i]} :: 0 <= i < |s.turns| ==> s.turns[i].order < |s.order|
  {
    Levels(|s.turns|, seq(|s.turns|, i requires 0 <= i < |s.turns| => s.order[s.turns[i].order] + 1), s.elevelToVlevel,
          true)
  }

  lemma {:induction false} LevelsOk(Q: QueryGraph, s: Schedule)
    requires RegularSchedule(Q, s)
    ensures LevelsFor(s).Ok()
  {
    var levels := LevelsFor(s);
    forall l, m | 0 <= l < m < levels.maxLevel
      ensures levels.vertexAt[l] == levels.vertexAt[m] <==> levels.vlevel[l] == levels.vlevel[m]
    {
      assert s.turns[l].order < |s.order| && s.turns[m].order < |s.order|;
    }
    forall l, m | 0 <= l <= m < levels.maxLevel
      ensures levels.vlevel[l] <= levels.vlevel[m]
    {
      assert s.elevelToVlevel[l] == s.turns[l].order && s.elevelToVlevel[m] == s.turns[m].order;
    }
    assert LevelsFit(levels.maxLevel, levels.vertexAt, levels.vlevel);
  }

  /** No vertex level is skipped: a gap would be a vertex before the postfix without a turn. */
  lemma {:induction false} NoGap(Q: QueryGraph, s: Schedule, l: nat)
    requires RegularSchedule(Q, s) && 1 <= l < |s.turns|
    ensures s.turns[l].order <= s.turns[l - 1].order + 1
  {
    var d := s.turns[l - 1].order + 1;
    assert HasTurn(s, s.turns[l].order);
    if s.turns[l].order > d {
      assert d < |s.order| && HasTurn(s, d);
      var t :| 0 <= t < |s.turns| && s.turns[t].order == d;
      NoneBetween(Q, s, l, t);
    }
  }

  lemma {:induction false} NoneBetween(Q: QueryGraph, s: Schedule, l: nat, t: nat)
    requires RegularSchedule(Q, s) && 1 <= l < |s.turns| && t < |s.turns|
    ensures s.turns[t].order <= s.turns[l - 1].order || s.turns[l].order <= s.turns[t].order
  {
  }

  lemma {:induction false} LevelsGapless(Q: QueryGraph, s: Schedule)
    requires RegularSchedule(Q, s) && LevelsFor(s).Ok()
    ensures Gapless(LevelsFor(s), NumOwners(s))
  {
    var levels, n := LevelsFor(s), |s.turns|;
    SomePostfix(Q, s);
    assert HasTurn(s, 0);
    var t :| 0 <= t < n && s.turns[t].order == 0;
    assert s.turns[0].order <= s.turns[t].order;
    var top := NumOwners(s) - 1;
    assert HasTurn(s, top);
    var u :| 0 <= u < n && s.turns[u].order == top;
    assert s.turns[u].order <= s.turns[n - 1].order;
    assert HasTurn(s, s.turns[n - 1].order);
    forall l: nat {:trigger NoGapBefore(levels, l)} | 1 <= l < levels.maxLevel
      ensures NoGapBefore(levels, l)
    {
      NoGap(Q, s, l);
      assert s.elevelToVlevel[l] == s.turns[l].order && s.elevelToVlevel[l - 1] == s.turns[l - 1].order;
    }
    assert s.elevelToVlevel[0] == s.turns[0].order && s.elevelToVlevel[n - 1] == s.turns[n - 1].order;
  }

  // ----- where each vertex ends -----

  function CountBelow(vlevel: seq<nat>, d: nat): (n: nat)
    ensures n <= |vlevel|
  {
    if vlevel == [] then 0 else CountBelow(vlevel[..|vlevel| - 1], d) + if vlevel[|vlevel| - 1] < d then 1 else 0
  }

  function VertexEnds(vlevel: seq<nat>, m: nat): (ends: seq<nat>)
    ensures |ends| == m + 1 && forall d :: 0 <= d <= m ==> ends[d] == CountBelow(vlevel, d)
  {
    seq(m + 1, d requires 0 <= d => CountBelow(vlevel, d))
  }

  lemma {:induction false} CountIsThreshold(vlevel: seq<nat>, d: nat, l: nat)
    requires forall i, j :: 0 <= i <= j < |vlevel| ==> vlevel[i] <= vlevel[j]
    requires l < |vlevel|
    ensures l < CountBelow(vlevel, d) <==> vlevel[l] < d
    decreases |vlevel|
  {
    var last := |vlevel| - 1;
    var init := vlevel[..last];
    if vlevel[last] < d {
      AllBelow(vlevel, d);
    } else if l < last {
      CountIsThreshold(init, d, l);
    }
  }

  lemma {:induction false} AllBelow(vlevel: seq<nat>, d: nat)
    requires forall i, j :: 0 <= i <= j < |vlevel| ==> vlevel[i] <= vlevel[j]
    requires vlevel != [] && vlevel[|vlevel| - 1] < d
    ensures CountBelow(vlevel, d) == |vlevel|
    decreases |vlevel|
  {
    if |vlevel| > 1 {
      AllBelow(vlevel[..|vlevel| - 1], d);
    }
  }

  lemma {:induction false} CountMonotone(vlevel: seq<nat>, d: nat, e: nat)
    requires d <= e
    ensures CountBelow(vlevel, d) <= CountBelow(vlevel, e)
    decreases |vlevel|
  {
    if vlevel != [] {
      CountMonotone(vlevel[..|vlevel| - 1], d, e);
    }
  }

  lemma {:induction false} CountNone(vlevel: seq<nat>)
    ensures CountBelow(vlevel, 0) == 0
    decreases |vlevel|
  {
    if vlevel != [] {
      CountNone(vlevel[..|vlevel| - 1]);
    }
  }

  lemma {:induction false} VertexEndsAre(levels: Levels, m: nat)
    requires levels.Ok() && Gapless(levels, m)
    ensures EndsAre(levels, m, VertexEnds(levels.vlevel, m))
  {
    var ends := VertexEnds(levels.vlevel, m);
    CountNone(levels.vlevel);
    AllBelow(levels.vlevel, m);
    forall d, e | 0 <= d <= e <= m
      ensures ends[d] <= ends[e]
    {
      CountMonotone(levels.vlevel, d, e);
    }
    forall l: nat, d: nat | l < levels.maxLevel && d <= m
      ensures l < ends[d] <==> levels.vlevel[l] < d
    {
      CountIsThreshold(levels.vlevel, d, l);
    }
  }
}
