/** One thread block of the leap-frog join kernel, run sequentially. */
module ThreadBlocks {
  import opened Machine
  import opened Intersections
  import opened SearchTrees
  import opened Backtracking
  import opened Launches
  import opened Registers
  import opened KernelSteps
  import opened KernelLoads

  // ----- the body of the loop, branch by branch -----

  /** A depth with values left binds one and enters the current child. */
  method EnterChild(tree: Tree, ghost P: Plan, at: Place, levels: seq<Level>, arrs: seq<seq<nat>>, ghost counter: nat,
                    ghost trail: seq<Frame>, ghost top: Top)
    returns (at': Place, levels': seq<Level>, ghost trail': seq<Frame>, ghost top': Top)
    requires Consistent(P, at, levels, arrs, trail, top) && P.search.tree == tree
    requires top.Open? && !levels[at.dep].isFinish && levels[at.dep].imSize > 0
    ensures Consistent(P, at', levels', arrs, trail', top')
    ensures Progress(P.search, counter, trail, top, counter, trail', top')
  {
    EnterStep(P, at, levels, arrs, trail, top, counter);
    levels' := levels[at.dep := HandOut(levels[at.dep], arrs)];
    at' := at.(dep := at.dep + 1, node := tree.nxt[tree.ptr[at.node] + levels[at.dep].child]);
    trail', top' := trail + [Taken(top.frame)], Entered(P.search, trail, top.frame);
  }

  /** The next child of the current depth and the subtask that goes with it; child 0 comes round after the last. */
  method NextSubtask(tree: Tree, subtasks: seq<seq<nat>>, ghost P: Plan, at: Place, levels: seq<Level>,
                     ghost arrs: seq<seq<nat>>,
                     ghost trail: seq<Frame>, ghost top: Top)
    returns (lv: Level, place: Place)
    requires CanAdvance(P, at, levels, arrs, trail, top) && P.search.tree == tree && P.subtasks == subtasks
    ensures at.dep < |levels| && tree.ShapeOk() && tree.IsNode(at.node)
    ensures
      var c := tree.NumChildren(at.node);
      var j := if levels[at.dep].child + 1 < c then levels[at.dep].child + 1 else 0;
      && levels[at.dep].child < c
      && tree.ChildSt(at.node, j) < |subtasks|
      && place == WithSubtask(P, at, tree.ChildSt(at.node, j))
      && lv == levels[at.dep].(child := j, imSize := lv.imSize)
      && (j != 0 ==> lv.imSize == levels[at.dep].tmpImSize)
    ensures at.dep > 0 ==> 1 <= at.node && at.node - 1 < |tree.prv|
  {
    AdvanceFacts(P, at, levels, arrs, trail, top);
    lv, place := levels[at.dep], at;
    var childNum := tree.ptr[at.node + 1] - tree.ptr[at.node];
    if 1 < childNum {
      NextIndex(lv.child, childNum);
      lv := lv.(child := (lv.child + 1) % childNum, imSize := lv.tmpImSize);
      var subtask := tree.st[tree.ptr[at.node] + lv.child];
      place := place.(subtask := subtask, shardIdxs := subtasks[subtask]);
    }
  }

  lemma {:induction false} NextIndex(i: nat, n: nat)
    requires i < n
    ensures (i + 1) % n == if i + 1 < n then i + 1 else 0
  {
  }

  /**
   * The chunk is handed out: on to the next child, to the next chunk, or back to the depth below. At the root the block
   * is then done with this root node.
   */
  method Advance(tree: Tree, subtasks: seq<seq<nat>>, ghost P: Plan, at: Place, levels: seq<Level>,
                 ghost arrs: seq<seq<nat>>,
                 ghost counter: nat, ghost trail: seq<Frame>, ghost top: Top)
    returns (done: bool, at': Place, levels': seq<Level>, ghost trail': seq<Frame>, ghost top': Top)
    requires CanAdvance(P, at, levels, arrs, trail, top) && P.search.tree == tree && P.subtasks == subtasks
    ensures !done ==>
              && Consistent(P, at', levels', arrs, trail', top')
              && Progress(P.search, counter, trail, top, counter, trail', top')
    ensures done ==>
              && Rem(P.search, false, trail, top) == 0
              && at'.dep == 0 && |levels'| == P.search.depth && AllIdle(levels') && ShapesOk(levels', P.numEdges)
  {
    var lv, place := NextSubtask(tree, subtasks, P, at, levels, arrs, trail, top);
    done, trail', top' := false, trail, top;
    if lv.child == 0 {
      lv := lv.(isFinish := true);
      if lv.state.INITIAL? && at.dep == 0 {
        done := true;
        DoneStep(P, at, levels, arrs, trail, top, lv.imSize);
      } else if lv.state.INITIAL? {
        place := place.(dep := at.dep - 1, node := tree.prv[at.node - 1]);
        AdvanceBack(P, at, levels, arrs, trail, top, counter, lv, place);
        trail', top' := trail[..at.dep - 1], Open(trail[at.dep - 1]);
      } else {
        AdvanceToPause(P, at, levels, arrs, trail, top, counter, lv, place);
        top' := Open(Exhausted(P.search, top.frame));
      }
    } else {
      AdvanceToChild(P, at, levels, arrs, trail, top, counter, lv, place);
      top' := Open(NextChild(top.frame));
    }
    at', levels' := place, levels[at.dep := lv];
  }

  /** The values bound at the depths below d. */
  method RsltPrefix(ghost P: Plan, d: nat, levels: seq<Level>, ghost arrs: seq<seq<nat>>, ghost trail: seq<Frame>)
    returns (values: seq<nat>)
    requires d == |trail| && LowerOk(P, levels, arrs, trail)
    ensures values == Prefix(trail)
  {
    RsltIs(P, levels, arrs, trail);
    values := seq(d, i requires 0 <= i < d => levels[i].rslt);
  }

  lemma {:induction false} RsltIs(P: Plan, levels: seq<Level>, arrs: seq<seq<nat>>, trail: seq<Frame>)
    requires LowerOk(P, levels, arrs, trail)
    ensures |trail| <= |levels| && forall i :: 0 <= i < |trail| ==> levels[i].rslt == trail[i].v
    decreases |trail|
  {
    if trail != [] {
      RsltIs(P, levels, arrs, trail[..|trail| - 1]);
      forall i | 0 <= i < |trail|
        ensures levels[i].rslt == trail[i].v
      {
        assert i < |trail| - 1 ==> trail[..|trail| - 1][i] == trail[i];
      }
    }
  }

  /** The first intersection at depth |a| of subtask k, on the tables of a launch. */
  method FirstIntersection(L: Launch, b: nat, k: nat, shardIdxs: seq<nat>, a: seq<nat>,
                           arrs: seq<seq<nat>>, mn: seq<nat>, mx: seq<nat>, buffer: seq<nat>)
    returns (arrs': seq<seq<nat>>, mn': seq<nat>, mx': seq<nat>, size: nat, data: seq<nat>, isType: IntersectionType,
             p: nat, eid: nat)
    requires L.Ready() && b < 0x1_0000 && k < |L.subtasks| && shardIdxs == L.subtasks[k] && |a| < L.numVertices
    requires |arrs| == |mn| == |mx| == 2 * L.numEdges && |buffer| == SM_THRESHOLD
    ensures LoadOutcome(L, b, k, a, arrs', mn', mx', size, data, isType, p)
    ensures AgreesOff(L, arrs, arrs', |a|)
    ensures p < |L.JoinEids(|a|)| && eid == L.JoinEids(|a|)[p] < 2 * L.numEdges
  {
    assert L.SlotsOkAt(|a|);
    var join, joined := L.JoinAfter(a), L.Joined(shardIdxs, |a|);
    arrs', mn', mx', size, data, isType, p :=
      SetIntersectionInitial(|a|, L.numVertices, b, join, joined, L.numEdges, L.lv0Dep, a, arrs, mn, mx, buffer);
    OutcomeEid(L, b, k, a, arrs', mn', mx', size, data, isType, p);
    eid := join.es[p];
  }

  /** The last depth counts its candidates and goes back. */
  method CountLeaf(L: Launch, b: nat, ghost P: Plan, at: Place, levels: seq<Level>, arrs: seq<seq<nat>>, counter: nat,
                   ghost trail: seq<Frame>, ghost top: Top)
    returns (at': Place, levels': seq<Level>, arrs': seq<seq<nat>>, counter': nat, ghost trail': seq<Frame>,
             ghost top': Top)
    requires P == PlanOf(L, b) && Consistent(P, at, levels, arrs, trail, top) && at.dep + 1 == L.numVertices
    requires P.ready && b < 0x1_0000
    ensures Consistent(P, at', levels', arrs', trail', top')
    ensures Progress(P.search, counter, trail, top, counter', trail', top')
  {
    LoadFacts(P, at, levels, arrs, trail, top);
    trail', top' := trail[..at.dep - 1], Open(trail[at.dep - 1]);
    at' := at.(dep := at.dep - 1, node := L.tree.prv[at.node - 1]);
    var lv := levels[at.dep];
    var values := RsltPrefix(P, at.dep, levels, arrs, trail);
    var mn, mx, size, data, isType, p, eid;
    arrs', mn, mx, size, data, isType, p, eid :=
      FirstIntersection(L, b, at.subtask, at.shardIdxs, values, arrs, lv.minIter, lv.maxIter, lv.imData);
    lv := lv.(minIter := mn, maxIter := mx, imSize := size, imData := data, isType := isType);
    levels' := levels[at.dep := lv];
    LeafStep(L, b, P, at, levels, arrs, trail, top, counter, arrs', mn, mx, size, data, isType, p, lv, at', levels',
          trail', top');
    counter' := counter + size;
  }

  /** A depth entered for the first time runs its first intersection. */
  method LoadInitial(L: Launch, b: nat, ghost P: Plan, at: Place, levels: seq<Level>, arrs: seq<seq<nat>>,
                     ghost trail: seq<Frame>, ghost top: Top)
    returns (levels': seq<Level>, arrs': seq<seq<nat>>, ghost top': Top)
    requires P == PlanOf(L, b) && Consistent(P, at, levels, arrs, trail, top) && at.dep + 1 < L.numVertices
    requires P.ready && b < 0x1_0000 && levels[at.dep].isFinish && levels[at.dep].state.INITIAL?
    ensures top'.Open? && Consistent(P, at, levels', arrs', trail, top') && !levels'[at.dep].isFinish
    ensures Loads(P.search, trail, top, top')
  {
    LoadFacts(P, at, levels, arrs, trail, top);
    var lv := levels[at.dep];
    var values := RsltPrefix(P, at.dep, levels, arrs, trail);
    var mn, mx, size, data, isType, p, eid;
    arrs', mn, mx, size, data, isType, p, eid :=
      FirstIntersection(L, b, at.subtask, at.shardIdxs, values, arrs, lv.minIter, lv.maxIter, lv.imData);
    lv := lv.(pivot := p, pivotEid := eid, isFinish := false, imSize := size, imData := data, isType := isType,
              minIter := mn, maxIter := mx);
    lv := lv.(state := if isType != SHARED_MEMBUF
        || mn[eid] > mx[eid] then INITIAL else RESUME, tmpImSize := lv.imSize);
    levels' := levels[at.dep := lv];
    top' := LoadStep(L, b, P, at, levels, arrs, trail, top, arrs', mn, mx, size, data, isType, p, lv, levels');
  }

  /** A depth whose pivot window is in mid-scan computes its next chunk. */
  method LoadResume(L: Launch, b: nat, ghost P: Plan, at: Place, levels: seq<Level>, arrs: seq<seq<nat>>,
                    ghost trail: seq<Frame>, ghost top: Top)
    returns (levels': seq<Level>, ghost top': Top)
    requires P == PlanOf(L, b) && Consistent(P, at, levels, arrs, trail, top)
    requires levels[at.dep].isFinish && !levels[at.dep].state.INITIAL?
    ensures top'.Open? && Consistent(P, at, levels', arrs, trail, top') && !levels'[at.dep].isFinish
    ensures Loads(P.search, trail, top, top')
  {
    LoadFacts(P, at, levels, arrs, trail, top);
    var lv := levels[at.dep];
    var values := RsltPrefix(P, at.dep, levels, arrs, trail);
    PausedFacts(L, b, P, at, levels, arrs, trail, top);
    var size, data, mn := NextChunk(L, PauseAt(lv, arrs, top.frame, values), values, arrs, lv.minIter, lv.maxIter,
          lv.pivot, lv.imData);
    var eid := lv.pivotEid;
    lv := lv.(isFinish := false, imSize := size, imData := data, minIter := mn);
    lv := lv.(state := if mn[eid] > lv.maxIter[eid] then INITIAL else lv.state, tmpImSize := lv.imSize);
    levels' := levels[at.dep := lv];
    top' := ResumeStep(L, b, P, at, levels, arrs, trail, top, mn, size, data, lv, levels');
  }

  /** The next chunk of a paused pivot window. */
  method NextChunk(L: Launch, ghost w: Pause, a: seq<nat>, arrs: seq<seq<nat>>, mn: seq<nat>, mx: seq<nat>, pivot: nat,
                   buffer: seq<nat>)
    returns (size: nat, data: seq<nat>, mn': seq<nat>)
    requires PauseOk(L, w) && w.a == a && w.arrs == arrs && w.minIter == mn && w.maxIter == mx && w.pivot == pivot
    requires |buffer| == SM_THRESHOLD
    ensures ChunkOutcome(L, w, size, data, mn')
  {
    L.ListsAreOk(w.lo, a);
    size, data, mn' := ScanChunk(L.JoinAfter(a), L.Lists(w.lo, a), arrs, mn, mx, pivot, buffer, w.share);
  }

  // ----- one iteration, one root node, one block -----

  lemma {:induction false} OpenWhenActive(P: Plan, at: Place, levels: seq<Level>, arrs: seq<seq<nat>>,
                                          trail: seq<Frame>, top: Top)
    requires Consistent(P, at, levels, arrs, trail, top)
    ensures at.dep < |levels| == P.search.depth && |trail| == at.dep
    ensures !levels[at.dep].isFinish ==> top.Open?
  {
  }

  /** A depth below the last has a chunk in hand. */
  method EnsureLoaded(L: Launch, b: nat, ghost P: Plan, at: Place, levels: seq<Level>, arrs: seq<seq<nat>>,
                      ghost trail: seq<Frame>, ghost top: Top)
    returns (levels': seq<Level>, arrs': seq<seq<nat>>, ghost top': Top)
    requires P == PlanOf(L, b) && Consistent(P, at, levels, arrs, trail, top) && at.dep + 1 < L.numVertices
    requires P.ready && b < 0x1_0000
    ensures top'.Open? && Consistent(P, at, levels', arrs', trail, top') && !levels'[at.dep].isFinish
    ensures Loads(P.search, trail, top, top')
  {
    OpenWhenActive(P, at, levels, arrs, trail, top);
    levels', arrs', top' := levels, arrs, top;
    if levels[at.dep].isFinish {
      if levels[at.dep].state.INITIAL? {
        levels', arrs', top' := LoadInitial(L, b, P, at, levels, arrs, trail, top);
      } else {
        levels', top' := LoadResume(L, b, P, at, levels, arrs, trail, top);
      }
    }
  }

  /** One iteration of the kernel loop. */
  method Iterate(L: Launch, b: nat, ghost P: Plan, at: Place, levels: seq<Level>, arrs: seq<seq<nat>>, counter: nat,
                 ghost trail: seq<Frame>, ghost top: Top)
    returns (done: bool, at': Place, levels': seq<Level>, arrs': seq<seq<nat>>, counter': nat, ghost trail': seq<Frame>,
             ghost top': Top)
    requires P == PlanOf(L, b) && Consistent(P, at, levels, arrs, trail, top)
    requires P.ready && b < 0x1_0000
    ensures !done ==>
              && Consistent(P, at', levels', arrs', trail', top')
              && Progress(P.search, counter, trail, top, counter', trail', top')
    ensures done ==>
              && Rem(P.search, false, trail, top) == 0 && counter' == counter
              && at'.dep == 0 && |levels'| == P.search.depth && |arrs'| == 2 * P.numEdges
              && AllIdle(levels') && ShapesOk(levels', P.numEdges)
  {
    done := false;
    if at.dep == L.numVertices - 1 {
      at', levels', arrs', counter', trail', top' := CountLeaf(L, b, P, at, levels, arrs, counter, trail, top);
    } else {
      OpenWhenActive(P, at, levels, arrs, trail, top);
      ghost var loaded;
      levels', arrs', loaded := EnsureLoaded(L, b, P, at, levels, arrs, trail, top);
      counter' := counter;
      done, at', levels', trail', top' := HandOutOne(L, P, at, levels', arrs', counter, trail, loaded);
    }
  }

  /** The second half of an iteration: an exhausted chunk moves on, otherwise a value is bound. */
  method HandOutOne(L: Launch, ghost P: Plan, at: Place, levels: seq<Level>, arrs: seq<seq<nat>>, ghost counter: nat,
                    ghost trail: seq<Frame>, ghost top: Top)
    returns (done: bool, at': Place, levels': seq<Level>, ghost trail': seq<Frame>, ghost top': Top)
    requires Consistent(P, at, levels, arrs, trail, top) && P.search.tree == L.tree && P.subtasks == L.subtasks
    requires top.Open? && !levels[at.dep].isFinish
    ensures !done ==>
              && Consistent(P, at', levels', arrs, trail', top')
              && Progress(P.search, counter, trail, top, counter, trail', top')
    ensures done ==>
              && Rem(P.search, false, trail, top) == 0
              && at'.dep == 0 && |levels'| == P.search.depth && |arrs| == 2 * P.numEdges
              && AllIdle(levels') && ShapesOk(levels', P.numEdges)
  {
    OpenWhenActive(P, at, levels, arrs, trail, top);
    if levels[at.dep].imSize == 0 {
      done, at', levels', trail', top' := Advance(L.tree, L.subtasks, P, at, levels, arrs, counter, trail, top);
    } else {
      done := false;
      at', levels', trail', top' := EnterChild(L.tree, P, at, levels, arrs, counter, trail, top);
    }
  }

  /** Between root nodes no depth is under enumeration. */
  ghost predicate Resting(P: Plan, levels: seq<Level>, arrs: seq<seq<nat>>) {
    |levels| == P.search.depth && |arrs| == 2 * P.numEdges && AllIdle(levels) && ShapesOk(levels, P.numEdges)
  }

  ghost function RootTop(P: Plan, span: Span): Top
    requires P.Ok() && span.lo < |P.rootTodo|
  {
    Fresh(span, P.rootTodo[span.lo])
  }

  lemma {:induction false} RootConsistent(P: Plan, span: Span, levels: seq<Level>, arrs: seq<seq<nat>>)
    requires P.Ok() && SpanOk(P.search, span, 0) && Resting(P, levels, arrs)
    ensures span.lo < |P.subtasks|
    ensures Consistent(P, Place(0, span.node, span.lo, P.subtasks[span.lo]), levels, arrs, [], RootTop(P, span))
    ensures forall work :: Rem(P.search, work, [], RootTop(P, span)) == TopRem(P.search, work, RootTop(P, span), [])
  {
    FirstChild(P, span, 0);
    assert levels[0].Idle();
    assert Prefix([]) == [];
  }

  /** Everything beneath one root node: the loop ends, and the counter grows by what the block's root share leads to. */
  method RunRoot(L: Launch, b: nat, ghost P: Plan, ghost span: Span, at0: Place, levels0: seq<Level>,
                 arrs0: seq<seq<nat>>, counter0: nat)
    returns (levels: seq<Level>, arrs: seq<seq<nat>>, counter: nat)
    requires P == PlanOf(L, b) && P.ready && P.Ok() && b < 0x1_0000
    requires SpanOk(P.search, span, 0) && span.lo < |P.subtasks| && Resting(P, levels0, arrs0)
    requires at0 == Place(0, span.node, span.lo, P.subtasks[span.lo])
    ensures Resting(P, levels, arrs)
    ensures counter == counter0 + TopRem(P.search, false, RootTop(P, span), [])
  {
    var at := at0;
    levels, arrs, counter := levels0, arrs0, counter0;
    ghost var trail: seq<Frame>, top := [], RootTop(P, span);
    RootConsistent(P, span, levels, arrs);
    while true
      invariant Consistent(P, at, levels, arrs, trail, top)
      invariant counter + Rem(P.search, false, trail, top) == counter0 + TopRem(P.search, false, RootTop(P, span), [])
      decreases Rem(P.search, true, trail, top)
    {
      var done;
      done, at, levels, arrs, counter, trail, top := Iterate(L, b, P, at, levels, arrs, counter, trail, top);
      if done {
        break;
      }
    }
  }
}
