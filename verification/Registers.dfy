/** The shared-memory registers of one thread block and what they say about the search stack. */
module Registers {
  import opened Machine
  import opened Intersections
  import opened SearchTrees
  import opened Backtracking

  datatype StateType = INITIAL | RESUME

  /** The shared-memory registers of one depth. */
  datatype Level = Level(
    rslt: nat,
    isFinish: bool,
    state: StateType,
    pivot: nat,
    pivotEid: nat,
    imSize: nat,
    tmpImSize: nat,
    isType: IntersectionType,
    imData: seq<nat>,
    child: nat,
    minIter: seq<nat>,
    maxIter: seq<nat>
  ) {
    ghost predicate ShapeOk(numEdges: nat) {
      |minIter| == |maxIter| == 2 * numEdges && |imData| == SM_THRESHOLD
    }

    /** No enumeration is under way at this depth. */
    predicate Idle() {
      isFinish && state.INITIAL? && child == 0
    }
  }

  /** A pivot window in mid-scan: the registers that resume it, and the share and candidates it still stands for. */
  datatype Pause = Pause(pivot: nat, pivotEid: nat, minIter: seq<nat>, maxIter: seq<nat>, arrs: seq<seq<nat>>,
                         lo: nat, a: seq<nat>, rest: seq<nat>, share: seq<nat>)

  /**
   * What the registers are measured against: the search, the list ids each depth loads, which pauses can be resumed,
   * the block's share of the root candidates, and whether the launch's tables are in order.
   */
  datatype Plan = Plan(search: Search, numEdges: nat, subtasks: seq<seq<nat>>, eidDepth: seq<nat>,
                       resumable: iset<Pause>, rootTodo: seq<seq<nat>>, ready: bool) {
    ghost predicate Ok() {
      && search.depth >= 2 && search.tree.ShapeOk()
      && search.numSubtasks == |subtasks| == |rootTodo|
    }
  }

  // ----- what the registers of a depth say about its frame -----

  ghost predicate ValuesOk(lv: Level, arrs: seq<seq<nat>>, f: Frame) {
    && |f.vals| == lv.tmpImSize
    && lv.pivotEid < |arrs| && lv.pivotEid < |lv.minIter|
    && match lv.isType
       case SHARED_MEMBUF =>
         && lv.tmpImSize <= |lv.imData|
         && forall i {:trigger f.vals[i]} :: 0 <= i < |f.vals| ==> f.vals[i] == lv.imData[i]
       case SINGLE =>
         && lv.state.INITIAL?
         && lv.minIter[lv.pivotEid] + lv.tmpImSize <= |arrs[lv.pivotEid]|
         && forall i {:trigger f.vals[i]} :: 0 <= i < |f.vals| ==>
              f.vals[i] == arrs[lv.pivotEid][lv.minIter[lv.pivotEid] + i]
       case LAST => false
  }

  ghost predicate RestOk(P: Plan, lv: Level, arrs: seq<seq<nat>>, f: Frame, a: seq<nat>) {
    match lv.state
    case INITIAL => f.rest == [] && f.share == []
    case RESUME =>
      && lv.isType.SHARED_MEMBUF?
      && Pause(lv.pivot, lv.pivotEid, lv.minIter, lv.maxIter, arrs, f.at.lo, a, f.rest, f.share) in P.resumable
  }

  ghost predicate LevelOk(P: Plan, lv: Level, arrs: seq<seq<nat>>, f: Frame, a: seq<nat>) {
    && ValuesOk(lv, arrs, f)
    && lv.pivotEid < |P.eidDepth| && P.eidDepth[lv.pivotEid] == |a|
    && RestOk(P, lv, arrs, f, a)
  }

  /** A depth being enumerated. */
  ghost predicate Active(P: Plan, lv: Level, arrs: seq<seq<nat>>, f: Frame, a: seq<nat>) {
    && !lv.isFinish && lv.child == f.child && lv.imSize == f.k
    && LevelOk(P, lv, arrs, f, a)
  }

  /** A depth whose chunk is exhausted and whose pivot window is not. */
  ghost predicate Paused(P: Plan, lv: Level, arrs: seq<seq<nat>>, f: Frame, a: seq<nat>)
    requires P.Ok()
  {
    && lv.isFinish && lv.state.RESUME? && lv.child == 0
    && P.search.tree.IsNode(f.at.node) && f.child == P.search.tree.NumChildren(f.at.node) && f.k == 0
    && LevelOk(P, lv, arrs, f, a)
  }

  /** The todo of a depth just entered. */
  ghost predicate TodoOk(P: Plan, k: nat, a: seq<nat>, todo: seq<nat>) {
    if |a| == 0 then k < |P.rootTodo| && todo == P.rootTodo[k] else todo == P.search.cand(k, a)
  }

  ghost predicate TopMatches(P: Plan, lv: Level, arrs: seq<seq<nat>>, top: Top, a: seq<nat>)
    requires P.Ok()
  {
    match top
    case Fresh(at, todo) => lv.Idle() && TodoOk(P, at.lo, a, todo)
    case Open(f) => if lv.isFinish then Paused(P, lv, arrs, f, a) else Active(P, lv, arrs, f, a)
  }

  /** Every depth below the current one is being enumerated, with the value of its frame bound. */
  ghost predicate LowerOk(P: Plan, levels: seq<Level>, arrs: seq<seq<nat>>, trail: seq<Frame>)
    decreases |trail|
  {
    && |trail| <= |levels|
    && (trail != [] ==>
          var last := |trail| - 1;
          && levels[last].rslt == trail[last].v
          && Active(P, levels[last], arrs, trail[last], Prefix(trail[..last]))
          && LowerOk(P, levels, arrs, trail[..last]))
  }

  ghost predicate HigherIdle(levels: seq<Level>, dep: nat) {
    forall d {:trigger levels[d].Idle()} :: dep < d < |levels| ==> levels[d].Idle()
  }

  ghost predicate ShapesOk(levels: seq<Level>, numEdges: nat) {
    forall d {:trigger levels[d].ShapeOk(numEdges)} :: 0 <= d < |levels| ==> levels[d].ShapeOk(numEdges)
  }

  /** The registers that say where the block stands. */
  datatype Place = Place(dep: nat, node: nat, subtask: nat, shardIdxs: seq<nat>)

  ghost predicate PlaceOk(P: Plan, at: Place, levels: seq<Level>, span: Span)
    requires P.Ok()
  {
    && at.dep < |levels|
    && at.node == span.node && P.search.tree.IsNode(at.node)
    && at.subtask < |P.subtasks| && at.shardIdxs == P.subtasks[at.subtask]
    && (at.dep + 1 < P.search.depth ==>
          levels[at.dep].child < P.search.tree.NumChildren(at.node)
          && at.subtask == P.search.tree.ChildSt(at.node, levels[at.dep].child))
    && (at.dep + 1 >= P.search.depth ==> at.subtask == span.lo)
  }

  /** The registers agree with the trail and the top. */
  ghost predicate RegsOk(P: Plan, at: Place, levels: seq<Level>, arrs: seq<seq<nat>>, trail: seq<Frame>, top: Top)
    requires P.Ok()
  {
    && |levels| == P.search.depth && |arrs| == 2 * P.numEdges && |trail| == at.dep
    && ShapesOk(levels, P.numEdges)
    && LowerOk(P, levels, arrs, trail)
    && HigherIdle(levels, at.dep)
    && PlaceOk(P, at, levels, top.At())
    && TopMatches(P, levels[at.dep], arrs, top, Prefix(trail))
  }

  // ----- small facts -----

  lemma {:induction false} CoversSubtask(P: Plan, at: Span, d: nat, j: nat)
    requires P.Ok() && SpanOk(P.search, at, d) && d + 1 < P.search.depth && j < P.search.tree.NumChildren(at.node)
    ensures SpanOk(P.search, ChildSpan(P.search, at, j), d + 1)
    ensures P.search.tree.ChildSt(at.node, j) < P.search.numSubtasks
    ensures P.search.tree.prv[P.search.tree.Child(at.node, j) - 1] == at.node
  {
    assert P.search.Covers(P.search.tree.Child(at.node, j), d + 2, P.search.tree.ChildSt(at.node, j),
          P.search.tree.ChildEnd(at.node, j, at.hi));
  }

  /** The first subtask of a span is also the first beneath its first child. */
  lemma {:induction false} FirstChild(P: Plan, at: Span, d: nat)
    requires P.Ok() && SpanOk(P.search, at, d) && d + 1 < P.search.depth
    ensures P.search.tree.NumChildren(at.node) > 0 && P.search.tree.ChildSt(at.node, 0) == at.lo
  {
  }

  lemma {:induction false} LowerSet(P: Plan, levels: seq<Level>, arrs: seq<seq<nat>>, trail: seq<Frame>, d: nat,
                                    lv: Level)
    requires LowerOk(P, levels, arrs, trail) && |trail| <= d < |levels|
    ensures LowerOk(P, levels[d := lv], arrs, trail)
    decreases |trail|
  {
    if trail != [] {
      LowerSet(P, levels, arrs, trail[..|trail| - 1], d, lv);
    }
  }

  lemma {:induction false} LowerPush(P: Plan, levels: seq<Level>, arrs: seq<seq<nat>>, trail: seq<Frame>, f: Frame,
                                     lv: Level)
    requires LowerOk(P, levels, arrs, trail) && |trail| < |levels|
    requires lv.rslt == f.v && Active(P, lv, arrs, f, Prefix(trail))
    ensures LowerOk(P, levels[|trail| := lv], arrs, trail + [f])
  {
    LowerSet(P, levels, arrs, trail, |trail|, lv);
    assert (trail + [f])[..|trail|] == trail;
  }
}
