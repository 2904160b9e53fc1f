/** The moves of the kernel loop: each keeps registers and search stack in step and makes progress. */
module KernelSteps {
  import opened Intersections
  import opened SearchTrees
  import opened Backtracking
  import opened Registers

  // ----- moves between depths -----

  /** span is the current child of frame f, and its parent link leads back there. */
  ghost predicate Parented(P: Plan, f: Frame, span: Span)
    requires P.Ok()
  {
    && P.search.tree.IsNode(f.at.node) && f.child < P.search.tree.NumChildren(f.at.node)
    && span.node == P.search.tree.Child(f.at.node, f.child)
    && span.lo == P.search.tree.ChildSt(f.at.node, f.child)
    && P.search.tree.prv[span.node - 1] == f.at.node
  }

  lemma {:induction false} ParentOf(P: Plan, trail: seq<Frame>, top: Top)
    requires P.Ok() && StateOk(P.search, trail, top) && trail != []
    ensures Parented(P, trail[|trail| - 1], top.At())
  {
    var f := trail[|trail| - 1];
    CoversSubtask(P, f.at, |trail| - 1, f.child);
  }

  /** Back to the depth below, whose registers are untouched. */
  lemma {:induction false} LeaveOk(P: Plan, at: Place, levels: seq<Level>, arrs: seq<seq<nat>>, trail: seq<Frame>,
                                   span: Span, at': Place)
    requires P.Ok() && |levels| == P.search.depth && |arrs| == 2 * P.numEdges && |trail| == at.dep > 0
    requires at.dep < |levels| && ShapesOk(levels, P.numEdges)
    requires LowerOk(P, levels, arrs, trail) && HigherIdle(levels, at.dep) && levels[at.dep].Idle()
    requires Parented(P, trail[at.dep - 1], span)
    requires at.node == span.node && at.subtask == span.lo
    requires at.subtask < |P.subtasks| && at.shardIdxs == P.subtasks[at.subtask]
    requires at' == at.(dep := at.dep - 1, node := trail[at.dep - 1].at.node)
    ensures RegsOk(P, at', levels, arrs, trail[..at.dep - 1], Open(trail[at.dep - 1]))
  {
    var d := at.dep - 1;
    assert Active(P, levels[d], arrs, trail[d], Prefix(trail[..d]));
    assert LowerOk(P, levels, arrs, trail[..d]);
  }

  predicate CanHandOut(lv: Level, arrs: seq<seq<nat>>) {
    && lv.imSize > 0
    && (lv.isType.SHARED_MEMBUF? ==> lv.imSize <= |lv.imData|)
    && (!lv.isType.SHARED_MEMBUF? ==>
          && lv.pivotEid < |arrs| && lv.pivotEid < |lv.minIter|
          && lv.minIter[lv.pivotEid] + lv.imSize <= |arrs[lv.pivotEid]|)
  }

  /** The value the current depth hands out next. */
  function NextValue(lv: Level, arrs: seq<seq<nat>>): nat
    requires CanHandOut(lv, arrs)
  {
    if lv.isType.SHARED_MEMBUF? then lv.imData[lv.imSize - 1]
    else arrs[lv.pivotEid][lv.minIter[lv.pivotEid] + lv.imSize - 1]
  }

  function HandOut(lv: Level, arrs: seq<seq<nat>>): Level
    requires CanHandOut(lv, arrs)
  {
    lv.(rslt := NextValue(lv, arrs), imSize := lv.imSize - 1)
  }

  lemma {:induction false} NextValueOk(P: Plan, lv: Level, arrs: seq<seq<nat>>, f: Frame, a: seq<nat>)
    requires Active(P, lv, arrs, f, a) && 0 < f.k <= |f.vals|
    ensures CanHandOut(lv, arrs) && NextValue(lv, arrs) == f.vals[f.k - 1]
    ensures Active(P, HandOut(lv, arrs), arrs, Taken(f), a)
  {
  }

  /** One more value bound: on to the current child. */
  lemma {:induction false} EnterOk(P: Plan, at: Place, levels: seq<Level>, arrs: seq<seq<nat>>, trail: seq<Frame>,
                                   g: Frame, lv: Level,
                top: Top, at': Place)
    requires P.Ok() && |levels| == P.search.depth && |arrs| == 2 * P.numEdges && |trail| == at.dep
    requires at.dep + 1 < |levels| && ShapesOk(levels, P.numEdges)
    requires LowerOk(P, levels, arrs, trail) && HigherIdle(levels, at.dep)
    requires lv.rslt == g.v && lv.ShapeOk(P.numEdges) && Active(P, lv, arrs, g, Prefix(trail))
    requires top.Fresh? && TodoOk(P, top.span.lo, Prefix(trail) + [g.v], top.todo)
    requires at' == at.(dep := at.dep + 1, node := top.span.node)
    requires P.search.tree.IsNode(top.span.node) && at.subtask == top.span.lo
    requires at.subtask < |P.subtasks| && at.shardIdxs == P.subtasks[at.subtask]
    requires at'.dep + 1 < P.search.depth ==>
               P.search.tree.NumChildren(top.span.node) > 0 && P.search.tree.ChildSt(top.span.node, 0) == top.span.lo
    ensures RegsOk(P, at', levels[at.dep := lv], arrs, trail + [g], top)
  {
    LowerPush(P, levels, arrs, trail, g, lv);
    PrefixSnoc(trail, g);
    assert levels[at.dep + 1].Idle();
  }

  /** Where the first child of frame f leads. */
  lemma {:induction false} EnterSpan(P: Plan, trail: seq<Frame>, f: Frame)
    requires P.Ok() && FrameOk(P.search, f, |trail|) && f.child < P.search.tree.NumChildren(f.at.node) && 0 < f.k
    ensures
      var top := Entered(P.search, trail, f);
      && P.search.tree.IsNode(top.span.node)
      && top.span.node == P.search.tree.Child(f.at.node, f.child)
      && top.span.lo == P.search.tree.ChildSt(f.at.node, f.child) < |P.subtasks|
      && (|trail| + 2 < P.search.depth ==>
            P.search.tree.NumChildren(top.span.node) > 0 && P.search.tree.ChildSt(top.span.node, 0) == top.span.lo)
      && TodoOk(P, top.span.lo, Prefix(trail) + [Taken(f).v], top.todo)
  {
    var top := Entered(P.search, trail, f);
    CoversSubtask(P, f.at, |trail|, f.child);
    if |trail| + 2 < P.search.depth {
      FirstChild(P, top.span, |trail| + 1);
    }
  }

  lemma {:induction false} Enters(P: Plan, at: Place, levels: seq<Level>, arrs: seq<seq<nat>>, trail: seq<Frame>,
                                  top: Top, f: Frame, v: nat, at': Place)
    requires P.Ok() && TopOk(P.search, top, |trail|) && RegsOk(P, at, levels, arrs, trail, top) && top == Open(f)
    requires Active(P, levels[at.dep], arrs, f, Prefix(trail)) && f.k > 0 && v == f.vals[f.k - 1]
    requires at' == at.(dep := at.dep + 1, node := P.search.tree.Child(at.node, f.child))
    requires f.child < P.search.tree.NumChildren(f.at.node)
    ensures RegsOk(P, at', levels[at.dep := levels[at.dep].(rslt := v, imSize := levels[at.dep].imSize - 1)], arrs,
                   trail + [Taken(f)], Entered(P.search, trail, f))
  {
    var lv := levels[at.dep];
    assert lv.ShapeOk(P.numEdges);
    NextValueOk(P, lv, arrs, f, Prefix(trail));
    EnterSpan(P, trail, f);
    EnterOk(P, at, levels, arrs, trail, Taken(f), lv.(rslt := v, imSize := lv.imSize - 1), Entered(P.search, trail, f),
          at');
  }

  /** Nothing was lost or counted twice between two states, and there is less left to do. */
  ghost predicate Progress(S: Search, counter: nat, trail: seq<Frame>, top: Top, counter': nat, trail': seq<Frame>,
                           top': Top)
    requires S.tree.ShapeOk() && StateOk(S, trail, top) && StateOk(S, trail', top')
  {
    && counter' + Rem(S, false, trail', top') == counter + Rem(S, false, trail, top)
    && Rem(S, true, trail', top') < Rem(S, true, trail, top)
  }

  ghost predicate Consistent(P: Plan, at: Place, levels: seq<Level>, arrs: seq<seq<nat>>, trail: seq<Frame>, top: Top) {
    P.Ok() && StateOk(P.search, trail, top) && RegsOk(P, at, levels, arrs, trail, top)
  }

  /** A depth with values left hands one out. */
  lemma {:induction false} EnterStep(P: Plan, at: Place, levels: seq<Level>, arrs: seq<seq<nat>>, trail: seq<Frame>,
                                     top: Top, n: nat)
    requires Consistent(P, at, levels, arrs, trail, top)
    requires top.Open? && !levels[at.dep].isFinish && levels[at.dep].imSize > 0
    ensures CanHandOut(levels[at.dep], arrs)
    ensures levels[at.dep].child < P.search.tree.NumChildren(at.node)
    ensures top.frame.child < P.search.tree.NumChildren(top.frame.at.node) && 0 < top.frame.k <= |top.frame.vals|
    ensures Consistent(P, at.(dep := at.dep + 1, node := P.search.tree.Child(at.node, levels[at.dep].child)),
                       levels[at.dep := HandOut(levels[at.dep], arrs)], arrs,
                       trail + [Taken(top.frame)], Entered(P.search, trail, top.frame))
    ensures Progress(P.search, n, trail, top, n, trail + [Taken(top.frame)], Entered(P.search, trail, top.frame))
  {
    var f := top.frame;
    var lv := levels[at.dep];
    NextValueOk(P, lv, arrs, f, Prefix(trail));
    Descend(P.search, trail, top, f);
    Enters(P, at, levels, arrs, trail, top, f, NextValue(lv, arrs),
           at.(dep := at.dep + 1, node := P.search.tree.Child(at.node, lv.child)));
    DescendRem(P.search, false, trail, top, f);
    DescendRem(P.search, true, trail, top, f);
  }

  // ----- a chunk handed out completely -----

  /** The place after subtask k becomes current. */
  function WithSubtask(P: Plan, at: Place, k: nat): Place
    requires k < |P.subtasks|
  {
    at.(subtask := k, shardIdxs := P.subtasks[k])
  }

  lemma {:induction false} ChildInRange(P: Plan, at: Place, levels: seq<Level>, arrs: seq<seq<nat>>, trail: seq<Frame>,
                                        top: Top, j: nat)
    requires Consistent(P, at, levels, arrs, trail, top) && at.dep + 1 < P.search.depth
             && j < P.search.tree.NumChildren(at.node)
    ensures P.search.tree.ChildSt(at.node, j) < |P.subtasks|
    ensures j == 0 ==> P.search.tree.ChildSt(at.node, j) == top.At().lo
  {
    CoversSubtask(P, top.At(), at.dep, j);
    FirstChild(P, top.At(), at.dep);
  }

  /** On to the next child with the same chunk. */
  lemma {:induction false} NextChildStep(P: Plan, at: Place, levels: seq<Level>, arrs: seq<seq<nat>>, trail: seq<Frame>,
                                         top: Top, n: nat)
    requires Consistent(P, at, levels, arrs, trail, top)
    requires top.Open? && !levels[at.dep].isFinish && levels[at.dep].imSize == 0
    requires levels[at.dep].child + 1 < P.search.tree.NumChildren(at.node)
    ensures P.search.tree.ChildSt(at.node, levels[at.dep].child + 1) < |P.subtasks|
    ensures Consistent(P, WithSubtask(P, at, P.search.tree.ChildSt(at.node, levels[at.dep].child + 1)),
                       levels[at.dep := levels[at.dep].(child := levels[at.dep].child + 1,
                             imSize := levels[at.dep].tmpImSize)],
                       arrs, trail, Open(NextChild(top.frame)))
    ensures Progress(P.search, n, trail, top, n, trail, Open(NextChild(top.frame)))
  {
    ChildInRange(P, at, levels, arrs, trail, top, levels[at.dep].child + 1);
    Advance(P.search, trail, top, top.frame);
    NextChildRegs(P, at, levels, arrs, trail, top);
  }

  lemma {:induction false} NextChildRegs(P: Plan, at: Place, levels: seq<Level>, arrs: seq<seq<nat>>, trail: seq<Frame>,
                                         top: Top)
    requires P.Ok() && RegsOk(P, at, levels, arrs, trail, top) && at.dep + 1 < P.search.depth
    requires top.Open? && !levels[at.dep].isFinish
    requires levels[at.dep].child + 1 < P.search.tree.NumChildren(at.node)
    requires P.search.tree.ChildSt(at.node, levels[at.dep].child + 1) < |P.subtasks|
    ensures RegsOk(P, WithSubtask(P, at, P.search.tree.ChildSt(at.node, levels[at.dep].child + 1)),
                   levels[at.dep := levels[at.dep].(child := levels[at.dep].child + 1,
                         imSize := levels[at.dep].tmpImSize)],
                   arrs, trail, Open(NextChild(top.frame)))
  {
    var lv := levels[at.dep];
    assert lv.ShapeOk(P.numEdges);
    LowerSet(P, levels, arrs, trail, at.dep, lv.(child := lv.child + 1, imSize := lv.tmpImSize));
  }

  /** The registers of a depth whose chunk went through every child. */
  function Finished(lv: Level, imSize: nat): Level {
    lv.(child := 0, imSize := imSize, isFinish := true)
  }

  /** Waiting for the next chunk of the same pivot window. */
  lemma {:induction false} PauseStep(P: Plan, at: Place, levels: seq<Level>, arrs: seq<seq<nat>>, trail: seq<Frame>,
                                     top: Top, n: nat, imSize: nat)
    requires Consistent(P, at, levels, arrs, trail, top)
    requires top.Open? && !levels[at.dep].isFinish && levels[at.dep].imSize == 0 && levels[at.dep].state.RESUME?
    requires levels[at.dep].child + 1 == P.search.tree.NumChildren(at.node)
    ensures P.search.tree.ChildSt(at.node, 0) < |P.subtasks|
    ensures Consistent(P, WithSubtask(P, at, P.search.tree.ChildSt(at.node, 0)),
                       levels[at.dep := Finished(levels[at.dep], imSize)], arrs, trail,
                             Open(Exhausted(P.search, top.frame)))
    ensures Progress(P.search, n, trail, top, n, trail, Open(Exhausted(P.search, top.frame)))
  {
    var lv := levels[at.dep];
    ChildInRange(P, at, levels, arrs, trail, top, 0);
    Exhaust(P.search, trail, top, top.frame);
    assert lv.ShapeOk(P.numEdges);
    LowerSet(P, levels, arrs, trail, at.dep, Finished(lv, imSize));
  }

  lemma {:induction false} HigherSet(levels: seq<Level>, d: nat, lv: Level)
    requires HigherIdle(levels, d) && d < |levels|
    ensures HigherIdle(levels[d := lv], d)
  {
  }

  /** Nothing left at this depth: back to the one below. */
  lemma {:induction false} LeaveStep(P: Plan, at: Place, levels: seq<Level>, arrs: seq<seq<nat>>, trail: seq<Frame>,
                                     top: Top, n: nat, imSize: nat)
    requires Consistent(P, at, levels, arrs, trail, top) && at.dep > 0
    requires top.Open? && !levels[at.dep].isFinish && levels[at.dep].imSize == 0 && levels[at.dep].state.INITIAL?
    requires levels[at.dep].child + 1 == P.search.tree.NumChildren(at.node)
    ensures 1 <= at.node && P.search.tree.ChildSt(at.node, 0) < |P.subtasks|
    ensures Consistent(P, WithSubtask(P, at, P.search.tree.ChildSt(at.node, 0)).(dep := at.dep - 1,
              node := P.search.tree.prv[at.node - 1]),
                       levels[at.dep := Finished(levels[at.dep], imSize)], arrs, trail[..at.dep - 1],
                             Open(trail[at.dep - 1]))
    ensures Progress(P.search, n, trail, top, n, trail[..at.dep - 1], Open(trail[at.dep - 1]))
  {
    var lv := levels[at.dep];
    ParentOf(P, trail, top);
    ChildInRange(P, at, levels, arrs, trail, top, 0);
    LeaveRem(P, trail, top, n);
    assert lv.ShapeOk(P.numEdges);
    LowerSet(P, levels, arrs, trail, at.dep, Finished(lv, imSize));
    var w := WithSubtask(P, at, P.search.tree.ChildSt(at.node, 0));
    LeaveOk(P, w, levels[at.dep := Finished(lv, imSize)], arrs, trail, top.At(),
            w.(dep := at.dep - 1, node := P.search.tree.prv[at.node - 1]));
  }

  lemma {:induction false} LeaveRem(P: Plan, trail: seq<Frame>, top: Top, n: nat)
    requires P.Ok() && StateOk(P.search, trail, top) && trail != [] && top.Open?
    requires top.frame.k == 0 && top.frame.child + 1 == P.search.tree.NumChildren(top.frame.at.node)
    requires top.frame.rest == [] && top.frame.share == []
    ensures StateOk(P.search, trail[..|trail| - 1], Open(trail[|trail| - 1]))
    ensures Progress(P.search, n, trail, top, n, trail[..|trail| - 1], Open(trail[|trail| - 1]))
  {
    Exhaust(P.search, trail, top, top.frame);
    NothingLeft(P.search, Exhausted(P.search, top.frame), Prefix(trail));
    Pop(P.search, false, trail, top);
    Pop(P.search, true, trail, top);
  }

  ghost predicate AllIdle(levels: seq<Level>) {
    forall d {:trigger levels[d].Idle()} :: 0 <= d < |levels| ==> levels[d].Idle()
  }

  /** Nothing left at the root: the block is through with this root node. */
  lemma {:induction false} DoneStep(P: Plan, at: Place, levels: seq<Level>, arrs: seq<seq<nat>>, trail: seq<Frame>,
                                    top: Top, imSize: nat)
    requires Consistent(P, at, levels, arrs, trail, top) && at.dep == 0
    requires top.Open? && !levels[0].isFinish && levels[0].imSize == 0 && levels[0].state.INITIAL?
    requires levels[0].child + 1 == P.search.tree.NumChildren(at.node)
    ensures Rem(P.search, false, trail, top) == 0
    ensures AllIdle(levels[0 := Finished(levels[0], imSize)])
            && ShapesOk(levels[0 := Finished(levels[0], imSize)], P.numEdges)
  {
    Exhaust(P.search, trail, top, top.frame);
    NothingLeft(P.search, Exhausted(P.search, top.frame), Prefix(trail));
    assert levels[0].ShapeOk(P.numEdges);
    HigherSet(levels, 0, Finished(levels[0], imSize));
  }

  // ----- the four outcomes of a handed-out chunk -----

  ghost predicate CanAdvance(P: Plan, at: Place, levels: seq<Level>, arrs: seq<seq<nat>>, trail: seq<Frame>, top: Top) {
    && Consistent(P, at, levels, arrs, trail, top)
    && top.Open? && !levels[at.dep].isFinish && levels[at.dep].imSize == 0
  }

  /** What the table lookups of an advance rely on. */
  lemma {:induction false} AdvanceFacts(P: Plan, at: Place, levels: seq<Level>, arrs: seq<seq<nat>>, trail: seq<Frame>,
                                        top: Top)
    requires CanAdvance(P, at, levels, arrs, trail, top)
    ensures at.dep + 1 < P.search.depth && at.dep < |levels| && P.search.tree.ShapeOk() && P.search.tree.IsNode(at.node)
    ensures levels[at.dep].child < P.search.tree.NumChildren(at.node)
    ensures forall j :: 0 <= j < P.search.tree.NumChildren(at.node) ==>
              P.search.tree.ptr[at.node] + j < |P.search.tree.st| && P.search.tree.ChildSt(at.node, j) < |P.subtasks|
    ensures at.subtask == P.search.tree.ChildSt(at.node, levels[at.dep].child) && at.shardIdxs == P.subtasks[at.subtask]
    ensures at.dep > 0 ==> 1 <= at.node && at.node - 1 < |P.search.tree.prv|
  {
    forall j | 0 <= j < P.search.tree.NumChildren(at.node)
      ensures P.search.tree.ptr[at.node] + j < |P.search.tree.st| && P.search.tree.ChildSt(at.node, j) < |P.subtasks|
    {
      P.search.tree.ChildInBounds(at.node, j);
      ChildInRange(P, at, levels, arrs, trail, top, j);
    }
    if at.dep > 0 {
      ParentOf(P, trail, top);
    }
  }

  lemma {:induction false} AdvanceToChild(P: Plan, at: Place, levels: seq<Level>, arrs: seq<seq<nat>>,
                                          trail: seq<Frame>, top: Top,
                                          n: nat, lv: Level, place: Place)
    requires CanAdvance(P, at, levels, arrs, trail, top)
    requires levels[at.dep].child + 1 < P.search.tree.NumChildren(at.node)
    requires P.search.tree.ChildSt(at.node, levels[at.dep].child + 1) < |P.subtasks|
    requires lv == levels[at.dep].(child := levels[at.dep].child + 1, imSize := levels[at.dep].tmpImSize)
    requires place == WithSubtask(P, at, P.search.tree.ChildSt(at.node, levels[at.dep].child + 1))
    ensures Consistent(P, place, levels[at.dep := lv], arrs, trail, Open(NextChild(top.frame)))
    ensures Progress(P.search, n, trail, top, n, trail, Open(NextChild(top.frame)))
  {
    NextChildStep(P, at, levels, arrs, trail, top, n);
  }

  /** The chunk was the last child's and the pivot window holds more. */
  lemma {:induction false} AdvanceToPause(P: Plan, at: Place, levels: seq<Level>, arrs: seq<seq<nat>>,
                                          trail: seq<Frame>, top: Top,
                                          n: nat, lv: Level, place: Place)
    requires CanAdvance(P, at, levels, arrs, trail, top) && levels[at.dep].state.RESUME?
    requires levels[at.dep].child + 1 == P.search.tree.NumChildren(at.node)
    requires P.search.tree.ChildSt(at.node, 0) < |P.subtasks|
    requires lv == Finished(levels[at.dep], lv.imSize)
    requires place == WithSubtask(P, at, P.search.tree.ChildSt(at.node, 0))
    ensures Consistent(P, place, levels[at.dep := lv], arrs, trail, Open(Exhausted(P.search, top.frame)))
    ensures Progress(P.search, n, trail, top, n, trail, Open(Exhausted(P.search, top.frame)))
  {
    PauseStep(P, at, levels, arrs, trail, top, n, lv.imSize);
  }

  lemma {:induction false} AdvanceBack(P: Plan, at: Place, levels: seq<Level>, arrs: seq<seq<nat>>, trail: seq<Frame>,
                                       top: Top,
                                       n: nat, lv: Level, place: Place)
    requires CanAdvance(P, at, levels, arrs, trail, top) && levels[at.dep].state.INITIAL? && at.dep > 0
    requires levels[at.dep].child + 1 == P.search.tree.NumChildren(at.node)
    requires P.search.tree.ChildSt(at.node, 0) < |P.subtasks| && 1 <= at.node && at.node - 1 < |P.search.tree.prv|
    requires lv == Finished(levels[at.dep], lv.imSize)
    requires place == WithSubtask(P, at, P.search.tree.ChildSt(at.node, 0)).(dep := at.dep - 1,
               node := P.search.tree.prv[at.node - 1])
    ensures Consistent(P, place, levels[at.dep := lv], arrs, trail[..at.dep - 1], Open(trail[at.dep - 1]))
    ensures Progress(P.search, n, trail, top, n, trail[..at.dep - 1], Open(trail[at.dep - 1]))
  {
    LeaveStep(P, at, levels, arrs, trail, top, n, lv.imSize);
  }
}
