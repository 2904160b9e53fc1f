/** The groups a task packs are the groups of a tree over query vertices. */
module TaskShapes {
  import opened Grids
  import opened PlanTrees
  import opened PlanWalks
  import opened TaskPackers
  import opened PlanStreams
  import opened WalkOrders
  import opened TaskTrees

  /** How many ancestors a task that takes over a pending group adds before it. */
  ghost function Before(levels: Levels, items: seq<Position>, takenOver: bool): nat {
    if takenOver && items != [] && VertexLevel(levels, |items[0]|) > 0 then VertexLevel(levels, |items[0]|) - 1 else 0
  }

  lemma {:induction false} InfosLength(levels: Levels, items: seq<Position>, takenOver: bool)
    requires levels.Ok() && items != [] && 1 <= |items[0]| <= levels.maxLevel
    ensures |Infos(levels, items, takenOver)| == Before(levels, items, takenOver) + |items|
    decreases |items|
  {
    if |items| > 1 {
      assert items[..|items| - 1][0] == items[0];
      InfosLength(levels, items[..|items| - 1], takenOver);
    } else {
      assert !takenOver ==> Infos(levels, items[..0], takenOver) == [];
    }
  }

  lemma {:induction false} InfosAt(levels: Levels, items: seq<Position>, takenOver: bool, j: nat)
    requires levels.Ok() && items != [] && 1 <= |items[0]| <= levels.maxLevel
    requires j < Before(levels, items, takenOver) + |items|
    ensures |Infos(levels, items, takenOver)| == Before(levels, items, takenOver) + |items|
    ensures
      var a := Before(levels, items, takenOver);
      Infos(levels, items, takenOver)[j]
      == if j < a then TreeInfo(j + 1, 0)
          else TreeInfo(VertexLevel(levels, |items[j - a]|), |Fulls(levels, items[..j - a])|)
    decreases |items|
  {
    InfosLength(levels, items, takenOver);
    var last, a := |items| - 1, Before(levels, items, takenOver);
    if last > 0 {
      var init := items[..last];
      assert init[0] == items[0];
      InfosLength(levels, init, takenOver);
      if j < a + last {
        InfosAt(levels, init, takenOver, j);
        assert j >= a ==> init[..j - a] == items[..j - a];
      }
    } else {
      assert items[..0] == [] && Fulls(levels, items[..0]) == [];
    }
  }

  // ----- marks -----

  ghost function MarkAt(levels: Levels, ends: seq<nat>, items: seq<Position>, takenOver: bool, j: nat): seq<Leaf> {
    var a := Before(levels, items, takenOver);
    if items == [] then []
    else if j < a then
      if j + 1 < |ends| && ends[j + 1] <= |items[0]| then LeavesOf(items[0])[..ends[j + 1]] else []
    else if j - a < |items| then LeavesOf(items[j - a]) else []
  }

  ghost function MarksOf(levels: Levels, ends: seq<nat>, items: seq<Position>, takenOver: bool): (marks: seq<seq<Leaf>>)
    ensures |marks| == |Infos(levels, items, takenOver)|
    ensures forall j :: 0 <= j < |marks| ==> marks[j] == MarkAt(levels, ends, items, takenOver, j)
  {
    seq(|Infos(levels, items, takenOver)|, j requires 0 <= j => MarkAt(levels, ends, items, takenOver, j))
  }

  lemma {:induction false} FullsPrefix(levels: Levels, items: seq<Position>, k: nat)
    requires k < |items|
    ensures Fulls(levels, items[..k + 1]) == Fulls(levels, items[..k]) + if |items[k]| == levels.maxLevel
            then [LeavesOf(items[k])] else []
    ensures |Fulls(levels, items[..k + 1])| <= |Fulls(levels, items)|
    ensures Fulls(levels, items)[..|Fulls(levels, items[..k + 1])|] == Fulls(levels, items[..k + 1])
    decreases |items| - k
  {
    assert items[..k + 1][..k] == items[..k];
    if k + 1 == |items| {
      assert items[..k + 1] == items;
    } else {
      FullsPrefix(levels, items, k + 1);
      var f := Fulls(levels, items[..k + 1]);
      assert Fulls(levels, items)[..|f|] == Fulls(levels, items)[..|Fulls(levels, items[..k + 2])|][..|f|];
    }
  }

  lemma {:induction false} FullsAreFull(levels: Levels, items: seq<Position>)
    ensures forall k {:trigger Fulls(levels, items)[k]} :: 0 <= k < |Fulls(levels, items)| ==>
              |Fulls(levels, items)[k]| == levels.maxLevel
    decreases |items|
  {
    if items != [] {
      FullsAreFull(levels, items[..|items| - 1]);
    }
  }

  ghost predicate Fitting(levels: Levels, numVertices: nat, m: nat, ends: seq<nat>, items: seq<Position>) {
    && levels.Ok() && Gapless(levels, m) && EndsAre(levels, m, ends) && 1 <= m < numVertices
    && EndsOrdered(levels, m, ends, items) && items != []
  }

  /** The groups of one task; ok says that levels, vertex ends and groups fit together. */
  datatype Packed = Packed(levels: Levels, numVertices: nat, m: nat, ends: seq<nat>, items: seq<Position>,
                           takenOver: bool, ok: bool) {

    ghost predicate Ok() {
      ok && this == PackedOf(levels, numVertices, m, ends, items, takenOver)
    }

    ghost function TheShape(): Shape {
      Shape(numVertices, m, ends, Fulls(levels, items))
    }

    ghost function TheInfos(): seq<TreeInfo> {
      Infos(levels, items, takenOver)
    }

    ghost function A(): nat {
      Before(levels, items, takenOver)
    }

    ghost function Mark(j: nat): seq<Leaf> {
      MarkAt(levels, ends, items, takenOver, j)
    }
  }

  ghost function PackedOf(levels: Levels, numVertices: nat, m: nat, ends: seq<nat>, items: seq<Position>,
                          takenOver: bool): Packed {
    Packed(levels, numVertices, m, ends, items, takenOver, Fitting(levels, numVertices, m, ends, items))
  }

  lemma {:induction false} ShapeIsOk(P: Packed)
    requires P.Ok()
    ensures P.TheShape().Ok()
  {
    FullsAreFull(P.levels, P.items);
  }

  lemma {:induction false} ItemFits(P: Packed, k: nat)
    requires P.Ok() && k < |P.items|
    ensures P.levels.Ok() && 1 <= |P.items[k]| <= P.levels.maxLevel
    ensures 1 <= VertexLevel(P.levels, |P.items[k]|) == Vl(P.levels, P.items[k]) <= P.m && |P.ends| == P.m + 1
    ensures P.ends[Vl(P.levels, P.items[k])] == |P.items[k]|
            && (Vl(P.levels, P.items[k]) == P.m <==> |P.items[k]| == P.levels.maxLevel)
  {
    assert IsEnd(P.levels, P.items[k]);
    EndLength(P.levels, P.m, P.ends, P.items[k]);
  }

  lemma {:induction false} SubtaskIs(levels: Levels, items: seq<Position>, k: nat)
    requires k < |items| && |items[k]| == levels.maxLevel
    ensures |Fulls(levels, items[..k])| < |Fulls(levels, items)|
    ensures Fulls(levels, items)[|Fulls(levels, items[..k])|] == LeavesOf(items[k])
  {
    FullsPrefix(levels, items, k);
    var f := Fulls(levels, items[..k + 1]);
    assert Fulls(levels, items)[..|f|][|f| - 1] == f[|f| - 1];
  }

  /** Info j, spelled out. */
  lemma {:induction false} InfoIs(P: Packed, j: nat)
    requires P.Ok() && j < P.A() + |P.items|
    ensures |P.TheInfos()| == P.A() + |P.items| && |P.items| > 0 && P.A() < P.m
    ensures j < P.A() ==> P.TheInfos()[j] == TreeInfo(j + 1, 0)
    ensures j >= P.A() ==>
              P.TheInfos()[j] == TreeInfo(VertexLevel(P.levels, |P.items[j - P.A()]|),
                    |Fulls(P.levels, P.items[..j - P.A()])|)
    ensures P.A() > 0 ==> VertexLevel(P.levels, |P.items[0]|) == P.A() + 1
  {
    assert |P.items| > 0;
    ItemFits(P, 0);
    InfosAt(P.levels, P.items, P.takenOver, j);
  }

  /** The info of group k, behind those of the ancestors. */
  lemma {:induction false} ItemInfo(P: Packed, k: nat)
    requires P.Ok() && k < |P.items|
    ensures P.A() + k < |P.TheInfos()| == P.A() + |P.items| && P.levels.Ok()
    ensures P.TheInfos()[P.A() + k] == TreeInfo(VertexLevel(P.levels, |P.items[k]|), |Fulls(P.levels, P.items[..k])|)
    ensures P.Mark(P.A() + k) == LeavesOf(P.items[k])
  {
    InfoIs(P, P.A() + k);
    assert P.A() + k - P.A() == k;
  }

  lemma {:induction false} AncestorMark(P: Packed, j: nat)
    requires P.Ok() && j < P.A()
    ensures j + 1 < |P.ends| && P.ends[j + 1] <= |P.items[0]| && P.Mark(j) == LeavesOf(P.items[0])[..P.ends[j + 1]]
  {
    InfoIs(P, 0);
    ItemFits(P, 0);
    assert P.ends[j + 1] <= P.ends[P.A() + 1];
  }

  /** The shape's ends and subtasks, spelled out. */
  lemma {:induction false} ShapeIs(P: Packed, d: nat)
    requires P.Ok() && d <= P.m
    ensures P.TheShape().maxRegular == P.m && |P.ends| == P.m + 1 && P.TheShape().End(d) == P.ends[d]
  {
  }

  lemma {:induction false} AncestorFits(P: Packed, j: nat)
    requires P.Ok() && j < P.A() && P.TheShape().subtasks != []
    ensures InfoFits(P.TheShape(), TreeInfo(j + 1, 0), P.Mark(j))
  {
    InfoIs(P, j);
    AncestorMark(P, j);
    ShapeIs(P, j + 1);
  }

  lemma {:induction false} ItemInfoFits(P: Packed, k: nat, st: nat)
    requires P.Ok() && k < |P.items| && st == |Fulls(P.levels, P.items[..k])| < |P.TheShape().subtasks|
    ensures InfoFits(P.TheShape(), TreeInfo(VertexLevel(P.levels, |P.items[k]|), st), LeavesOf(P.items[k]))
  {
    ItemFits(P, k);
    ShapeIs(P, Vl(P.levels, P.items[k]));
    if |P.items[k]| == P.levels.maxLevel {
      SubtaskIs(P.levels, P.items, k);
    }
  }

  lemma {:induction false} ItemMark(P: Packed, j: nat)
    requires P.A() <= j < P.A() + |P.items|
    ensures P.Mark(j) == LeavesOf(P.items[j - P.A()])
  {
  }

  lemma {:induction false} ItemFitsAt(P: Packed, j: nat)
    requires P.Ok() && P.A() <= j < P.A() + |P.items| && P.TheShape().subtasks != []
    ensures j < |P.TheInfos()|
    ensures P.TheInfos()[j].subtask < |P.TheShape().subtasks| ==> InfoFits(P.TheShape(), P.TheInfos()[j], P.Mark(j))
  {
    InfoIs(P, j);
    ItemMark(P, j);
    if P.TheInfos()[j].subtask < |P.TheShape().subtasks| {
      ItemInfoFits(P, j - P.A(), P.TheInfos()[j].subtask);
    }
  }

  lemma {:induction false} InfoFitsAt(P: Packed, j: nat)
    requires P.Ok() && j < P.A() + |P.items| && P.TheShape().subtasks != []
    ensures j < |P.TheInfos()|
    ensures P.TheInfos()[j].subtask < |P.TheShape().subtasks| ==> InfoFits(P.TheShape(), P.TheInfos()[j], P.Mark(j))
  {
    if j < P.A() {
      InfoIs(P, j);
      AncestorFits(P, j);
    } else {
      ItemFitsAt(P, j);
    }
  }

  lemma {:induction false} ItemFollows(P: Packed, k: nat)
    requires P.Ok() && k + 1 < |P.items|
    ensures P.levels.Ok() && EndNext(P.levels, P.m, P.ends, P.items[k], P.items[k + 1])
  {
    assert EndNextAt(P.levels, P.m, P.ends, P.items, k);
  }

  lemma {:induction false} LeavesAgree(p: Position, q: Position, n: nat)
    requires n <= |p| && n <= |q| && p[..n] == q[..n]
    ensures LeavesOf(p)[..n] == LeavesOf(q)[..n]
  {
    forall i | 0 <= i < n
      ensures p[i] == q[i]
    {
      assert p[..n][i] == q[..n][i];
    }
  }

  lemma {:induction false} AncestorContinues(P: Packed, j: nat)
    requires P.Ok() && j < P.A()
    ensures Continues(P.TheShape(), P.Mark(j), P.Mark(j + 1), j + 2)
  {
    InfoIs(P, j);
    AncestorMark(P, j);
    ShapeIs(P, j + 1);
    ItemFits(P, 0);
    var leaves := LeavesOf(P.items[0]);
    if j + 1 < P.A() {
      AncestorMark(P, j + 1);
      assert P.ends[j + 1] <= P.ends[j + 2];
      assert leaves[..P.ends[j + 2]][..P.ends[j + 1]] == leaves[..P.ends[j + 1]];
    } else {
      assert P.Mark(j + 1) == leaves;
    }
  }

  lemma {:induction false} ItemContinues(P: Packed, k: nat)
    requires P.Ok() && k + 1 < |P.items|
    ensures P.levels.Ok() && 1 <= |P.items[k + 1]| <= P.levels.maxLevel
    ensures Continues(P.TheShape(), LeavesOf(P.items[k]), LeavesOf(P.items[k + 1]), Vl(P.levels, P.items[k + 1]))
  {
    ItemFits(P, k + 1);
    ItemFollows(P, k);
    ShapeIs(P, Vl(P.levels, P.items[k + 1]) - 1);
    LeavesAgree(P.items[k], P.items[k + 1], P.ends[Vl(P.levels, P.items[k + 1]) - 1]);
  }

  lemma {:induction false} ItemInfoFollows(P: Packed, j: nat)
    requires P.Ok() && P.A() <= j && j + 1 < P.A() + |P.items|
    ensures |P.TheInfos()| == P.A() + |P.items|
    ensures InfoFollows(P.TheShape(), P.TheInfos()[j], P.Mark(j), P.TheInfos()[j + 1], P.Mark(j + 1))
  {
    ItemInfo(P, j - P.A());
    ItemInfo(P, j + 1 - P.A());
    LevelStep(P, j - P.A());
  }

  /** From one group to the next: at most one vertex level down, along a common path. */
  lemma {:induction false} LevelStep(P: Packed, k: nat)
    requires P.Ok() && k + 1 < |P.items|
    ensures
      var a, b := VertexLevel(P.levels, |P.items[k]|), VertexLevel(P.levels, |P.items[k + 1]|);
      && P.TheShape().maxRegular == P.m && b <= a + 1 && (a < P.m ==> b == a + 1)
      && Continues(P.TheShape(), LeavesOf(P.items[k]), LeavesOf(P.items[k + 1]), b)
  {
    ItemFits(P, k);
    ItemFits(P, k + 1);
    ItemFollows(P, k);
    ItemContinues(P, k);
  }

  lemma {:induction false} AncestorNext(P: Packed, j: nat)
    requires P.Ok() && j < P.A()
    ensures j + 1 < |P.TheInfos()| == P.A() + |P.items| && j + 1 < P.m
    ensures P.TheInfos()[j].vlevel == j + 1 && P.TheInfos()[j + 1].vlevel == j + 2
  {
    InfoIs(P, j);
    InfoIs(P, j + 1);
    if j + 1 == P.A() {
      assert P.items[j + 1 - P.A()] == P.items[0];
    }
  }

  lemma {:induction false} AncestorInfoFollows(P: Packed, j: nat)
    requires P.Ok() && j < P.A() && j + 1 < |P.TheInfos()|
    ensures InfoFollows(P.TheShape(), P.TheInfos()[j], P.Mark(j), P.TheInfos()[j + 1], P.Mark(j + 1))
  {
    AncestorNext(P, j);
    AncestorContinues(P, j);
    ShapeIs(P, 0);
  }

  /** Between two groups of the task, or an ancestor and the next. */
  lemma {:induction false} InfoFollowsAt(P: Packed, j: nat)
    requires P.Ok() && j + 1 < P.A() + |P.items|
    ensures |P.TheInfos()| == P.A() + |P.items|
    ensures InfoFollows(P.TheShape(), P.TheInfos()[j], P.Mark(j), P.TheInfos()[j + 1], P.Mark(j + 1))
  {
    InfoIs(P, j);
    if j < P.A() {
      AncestorInfoFollows(P, j);
    } else {
      ItemInfoFollows(P, j);
    }
  }

  /** How many subtasks are complete after info j, of m vertex levels: as many as the next info says, or all. */
  ghost predicate DoneAfter(infos: seq<TreeInfo>, j: nat, m: nat, total: nat)
    requires j < |infos|
  {
    var done := infos[j].subtask + (if infos[j].vlevel == m then 1 else 0);
    if j + 1 < |infos| then infos[j + 1].subtask == done else done == total
  }

  lemma {:induction false} DoneFrom(infos: seq<TreeInfo>, j: nat, m: nat, total: nat, info: TreeInfo, next: nat)
    requires j < |infos| && infos[j] == info
    requires info.subtask + (if info.vlevel == m then 1 else 0) == if j + 1 < |infos| then next else total
    requires j + 1 < |infos| ==> infos[j + 1].subtask == next
    ensures DoneAfter(infos, j, m, total)
  {
  }

  lemma {:induction false} AncestorDone(P: Packed, j: nat)
    requires P.Ok() && j < P.A()
    ensures |P.TheInfos()| == P.A() + |P.items| && DoneAfter(P.TheInfos(), j, P.m, |P.TheShape().subtasks|)
  {
    InfoIs(P, j);
    InfoIs(P, j + 1);
    assert P.items[..0] == [];
  }

  lemma {:induction false} ItemDone(P: Packed, j: nat)
    requires P.Ok() && P.A() <= j < P.A() + |P.items|
    ensures |P.TheInfos()| == P.A() + |P.items| && DoneAfter(P.TheInfos(), j, P.m, |P.TheShape().subtasks|)
  {
    var k := j - P.A();
    var info := TreeInfo(VertexLevel(P.levels, |P.items[k]|), |Fulls(P.levels, P.items[..k])|);
    DoneItems(P, k);
    ItemInfo(P, k);
    var next := 0;
    if k + 1 < |P.items| {
      ItemInfo(P, k + 1);
      next := |Fulls(P.levels, P.items[..k + 1])|;
    }
    DoneFrom(P.TheInfos(), j, P.m, |P.TheShape().subtasks|, info, next);
  }

  /** The subtasks complete after group k: those before it, and its own if it is a complete path. */
  lemma {:induction false} DoneItems(P: Packed, k: nat)
    requires P.Ok() && k < |P.items|
    ensures |Fulls(P.levels, P.items[..k])| + (if VertexLevel(P.levels, |P.items[k]|) == P.m then 1 else 0)
         == if k + 1 < |P.items| then |Fulls(P.levels, P.items[..k + 1])| else |P.TheShape().subtasks|
  {
    ItemFits(P, k);
    FullsPrefix(P.levels, P.items, k);
    assert k + 1 == |P.items| ==> P.items[..k + 1] == P.items;
  }

  lemma {:induction false} SubtasksDone(P: Packed, j: nat)
    requires P.Ok() && j < P.A() + |P.items|
    ensures |P.TheInfos()| == P.A() + |P.items| && DoneAfter(P.TheInfos(), j, P.m, |P.TheShape().subtasks|)
  {
    if j < P.A() {
      AncestorDone(P, j);
    } else {
      ItemDone(P, j);
    }
  }

  lemma {:induction false} InfoStepAt(P: Packed, j: nat)
    requires P.Ok() && j < P.A() + |P.items| && P.TheShape().subtasks != []
    ensures |P.TheInfos()| == P.A() + |P.items|
    ensures InfoStep(P.TheShape(), P.TheInfos(), MarksOf(P.levels, P.ends, P.items, P.takenOver), j)
  {
    SubtasksDone(P, j);
    if j + 1 < P.A() + |P.items| {
      InfoFollowsAt(P, j);
    }
  }

  /** The infos start at the top of the tree, with the first subtask. */
  lemma {:induction false} FirstInfo(P: Packed)
    requires P.Ok() && (!P.takenOver ==> |P.items| > 0 && VertexLevel(P.levels, |P.items[0]|) == 1)
    ensures |P.TheInfos()| == P.A() + |P.items| >= 1
    ensures P.TheInfos()[0].vlevel == 1 && P.TheInfos()[0].subtask == 0
  {
    assert |P.items| > 0 && P.items[..0] == [];
    InfoIs(P, 0);
    ItemFits(P, 0);
  }

  lemma {:induction false} AllInfosFit(P: Packed, S: Shape, infos: seq<TreeInfo>, marks: seq<seq<Leaf>>)
    requires P.Ok() && S == P.TheShape() && S.subtasks != [] && infos == P.TheInfos()
    requires |infos| == P.A() + |P.items| && marks == MarksOf(P.levels, P.ends, P.items, P.takenOver)
    ensures forall j {:trigger infos[j]} :: 0 <= j < |infos| && infos[j].subtask < |S.subtasks| ==>
              InfoFits(S, infos[j], marks[j])
  {
    forall j: nat {:trigger infos[j]} | j < |infos| && infos[j].subtask < |S.subtasks|
      ensures InfoFits(S, infos[j], marks[j])
    {
      InfoFitsAt(P, j);
    }
  }

  lemma {:induction false} AllInfoSteps(P: Packed, S: Shape, infos: seq<TreeInfo>, marks: seq<seq<Leaf>>)
    requires P.Ok() && S == P.TheShape() && S.subtasks != [] && infos == P.TheInfos()
    requires |infos| == P.A() + |P.items| && marks == MarksOf(P.levels, P.ends, P.items, P.takenOver)
    ensures forall j: nat {:trigger InfoStep(S, infos, marks, j)} :: j < |infos| ==> InfoStep(S, infos, marks, j)
  {
    forall j: nat {:trigger InfoStep(S, infos, marks, j)} | j < |infos|
      ensures InfoStep(S, infos, marks, j)
    {
      InfoStepAt(P, j);
    }
  }

  /** The infos of a packed task are those of a tree over its subtasks. */
  lemma {:induction false} PackedFits(P: Packed)
    requires P.Ok() && P.TheShape().subtasks != []
    requires !P.takenOver ==> VertexLevel(P.levels, |P.items[0]|) == 1
    ensures P.TheShape().Ok()
    ensures InfosFit(P.TheShape(), P.TheInfos(), MarksOf(P.levels, P.ends, P.items, P.takenOver))
  {
    var marks := MarksOf(P.levels, P.ends, P.items, P.takenOver);
    ShapeIsOk(P);
    FirstInfo(P);
    AllInfosFit(P, P.TheShape(), P.TheInfos(), marks);
    AllInfoSteps(P, P.TheShape(), P.TheInfos(), marks);
  }
}
