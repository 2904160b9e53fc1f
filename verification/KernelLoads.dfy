/** Loading a depth: what the set intersections leave behind is a frame of the search. */
module KernelLoads {
  import opened Machine
  import opened Sequences
  import opened Intersections
  import opened SearchTrees
  import opened Backtracking
  import opened Launches
  import opened Registers
  import opened KernelSteps

  /** The registers of w resume the scan of a pivot list of L. */
  ghost predicate PauseOk(L: Launch, w: Pause) {
    && L.Ready() && w.lo < |L.subtasks| && |w.a| < L.numVertices && L.SlotsOkAt(|w.a|)
    && |w.minIter| == |w.maxIter| == |w.arrs| == 2 * L.numEdges
    && var join, lists := L.JoinAfter(w.a), L.Lists(w.lo, w.a);
       && w.pivot < join.numPivots && w.pivotEid == join.es[w.pivot]
       && w.share != []
       && Scannable(lists, join.es, w.arrs, w.minIter, w.maxIter, w.pivot, w.share)
       && RegularNonempty(lists, join.numPivots)
       && w.rest == FilterIn(join.Passing(lists), w.share)
  }

  /** The plan that block b of launch L follows. */
  ghost function PlanOf(L: Launch, b: nat): Plan {
    Plan(L.TheSearch(), L.numEdges, L.subtasks, seq(2 * L.numEdges, e requires 0 <= e => L.EidDepth(e)),
         iset w: Pause | PauseOk(L, w), seq(|L.subtasks|, k requires 0 <= k => L.RootTodo(k, b)),
         L.Ready())
  }

  // ----- loading one depth leaves the others alone -----

  ghost predicate AgreesOff(L: Launch, arrs: seq<seq<nat>>, arrs': seq<seq<nat>>, d: nat)
    requires L.TablesOk() && d < L.numVertices && 0 <= L.NumJoin(d) <= L.Degree(d)
  {
    && |arrs| == |arrs'| == 2 * L.numEdges
    && forall e {:trigger arrs'[e]} :: 0 <= e < 2 * L.numEdges && e !in L.JoinEids(d) ==> arrs'[e] == arrs[e]
  }

  lemma {:induction false} PauseFrame(L: Launch, w: Pause, arrs': seq<seq<nat>>, d: nat)
    requires PauseOk(L, w) && |w.a| != d < L.numVertices && L.SlotsOkAt(d)
    requires AgreesOff(L, w.arrs, arrs', d)
    ensures PauseOk(L, w.(arrs := arrs'))
  {
    var join, lists := L.JoinAfter(w.a), L.Lists(w.lo, w.a);
    L.JoinEidsDisjoint(|w.a|, d);
    forall j | 0 <= j < |join.es|
      ensures arrs'[join.es[j]] == w.arrs[join.es[j]]
    {
    }
    SameScan(lists, join.es, w.arrs, arrs', w.minIter, w.maxIter, w.pivot, w.share);
  }

  lemma {:induction false} SameScan(lists: seq<seq<nat>>, es: seq<nat>, arrs: seq<seq<nat>>, arrs': seq<seq<nat>>,
                                    mn: seq<nat>, mx: seq<nat>, p: nat, share: seq<nat>)
    requires Scannable(lists, es, arrs, mn, mx, p, share)
    requires |arrs'| == |arrs| && forall j :: 0 <= j < |es| ==> arrs'[es[j]] == arrs[es[j]]
    ensures Scannable(lists, es, arrs', mn, mx, p, share)
  {
    forall j | 0 <= j < |lists| && j != p
      ensures Loaded(lists[j], arrs'[es[j]], mn[es[j]], mx[es[j]])
    {
      assert Loaded(lists[j], arrs[es[j]], mn[es[j]], mx[es[j]]);
    }
  }

  lemma {:induction false} LevelFrame(L: Launch, b: nat, lv: Level, arrs: seq<seq<nat>>, arrs': seq<seq<nat>>, f: Frame,
                                      a: seq<nat>, d: nat)
    requires L.Ready() && |a| != d < L.numVertices && L.SlotsOkAt(d)
    requires AgreesOff(L, arrs, arrs', d) && LevelOk(PlanOf(L, b), lv, arrs, f, a)
    ensures LevelOk(PlanOf(L, b), lv, arrs', f, a)
  {
    if lv.pivotEid in L.JoinEids(d) {
      L.EidDepthIs(d, lv.pivotEid);
      assert false;
    }
    if lv.state.RESUME? {
      PauseFrame(L, Pause(lv.pivot, lv.pivotEid, lv.minIter, lv.maxIter, arrs, f.at.lo, a, f.rest, f.share), arrs', d);
    }
  }

  lemma {:induction false} LowerFrame(L: Launch, b: nat, levels: seq<Level>, arrs: seq<seq<nat>>, arrs': seq<seq<nat>>,
                                      trail: seq<Frame>, d: nat)
    requires L.Ready() && |trail| <= d < L.numVertices && L.SlotsOkAt(d)
    requires AgreesOff(L, arrs, arrs', d) && LowerOk(PlanOf(L, b), levels, arrs, trail)
    ensures LowerOk(PlanOf(L, b), levels, arrs', trail)
    decreases |trail|
  {
    if trail != [] {
      var last := |trail| - 1;
      LowerFrame(L, b, levels, arrs, arrs', trail[..last], d);
      LevelFrame(L, b, levels[last], arrs, arrs', trail[last], Prefix(trail[..last]), d);
    }
  }

  // ----- chunks -----

  /** The frame after a chunk of `share` went into the buffer. */
  ghost function ChunkFrame(L: Launch, at: Span, a: seq<nat>, vals: seq<nat>, share: seq<nat>): Frame
    requires L.Ready() && at.lo < |L.subtasks| && |a| < L.numVertices && L.SlotsOkAt(|a|)
  {
    Frame(at, vals, |vals|, 0, FilterIn(L.Extensions(at.lo, a), LaterShare(share)), LaterShare(share), 0)
  }

  /** The chunk's candidates and the later ones make up the share's. */
  lemma {:induction false} ChunkFills(L: Launch, at: Span, a: seq<nat>, vals: seq<nat>, share: seq<nat>, todo: seq<nat>)
    requires L.Ready() && at.lo < |L.subtasks| && |a| < L.numVertices && L.SlotsOkAt(|a|)
    requires StrictlySorted(share) && NoDup(todo) && SameElements(todo, FilterIn(L.Extensions(at.lo, a), share))
    requires NoDup(vals) && SameElements(vals, FilterIn(L.Extensions(at.lo, a), ChunkOf(share)))
    ensures Fills(todo, FilterIn(L.Extensions(at.lo, a), ChunkOf(share)), ChunkFrame(L, at, a, vals, share))
  {
    var good := L.Extensions(at.lo, a);
    assert share == ChunkOf(share) + LaterShare(share);
    FilterAppend(good, ChunkOf(share), LaterShare(share));
    FilterElements(good, share);
  }

  lemma {:induction false} ShareElements(good: iset<nat>, dep: nat, b: nat, list: seq<nat>)
    requires StrictlySorted(list)
    ensures StrictlySorted(BlockShare(dep, b, list)) && NoDup(FilterIn(good, BlockShare(dep, b, list)))
  {
    ShareInList(dep, b, list);
    PartOk(BlockShare(dep, b, list), list);
    FilterElements(good, BlockShare(dep, b, list));
  }

  /** The candidates a fresh depth has to process are those of its block share. */
  lemma {:induction false} TodoIsShare(L: Launch, b: nat, k: nat, a: seq<nat>, p: nat, todo: seq<nat>)
    requires L.Ready() && k < |L.subtasks| && |a| < L.numVertices && L.SlotsOkAt(|a|)
    requires p == FirstShortest(L.Lists(k, a), L.NumPivots(|a|))
    requires TodoOk(PlanOf(L, b), k, a, todo)
    ensures ListOk(L.Lists(k, a)[p])
    ensures StrictlySorted(BlockShare(|a|, b, L.Lists(k, a)[p]))
    ensures NoDup(todo)
    ensures SameElements(todo, FilterIn(L.Extensions(k, a), BlockShare(|a|, b, L.Lists(k, a)[p])))
  {
    var list := L.Lists(k, a)[p];
    L.ListsAreOk(k, a);
    assert ListOk(list);
    ShareElements(L.Extensions(k, a), |a|, b, list);
    if |a| == 0 {
      assert a == [];
    } else {
      L.FilterIsCandidates(k, a, list);
    }
  }

  // ----- a loaded depth -----

  /** The registers of a depth after its first intersection. */
  function LoadedLevel(lv: Level, p: nat, eid: nat, mn: seq<nat>, mx: seq<nat>, size: nat, data: seq<nat>,
                       isType: IntersectionType): Level
    requires eid < |mn| && eid < |mx|
  {
    lv.(isFinish := false,
        state := if isType.SHARED_MEMBUF? && mn[eid] <= mx[eid] then RESUME else INITIAL,
        pivot := p, pivotEid := eid, imSize := size, tmpImSize := size, isType := isType, imData := data,
        minIter := mn, maxIter := mx)
  }

  /** The first intersection at a depth of subtask k, as the call left it. */
  ghost predicate LoadOutcome(L: Launch, b: nat, k: nat, a: seq<nat>, arrs: seq<seq<nat>>, mn: seq<nat>, mx: seq<nat>,
                              size: nat, data: seq<nat>, isType: IntersectionType, p: nat)
  {
    && L.Ready() && k < |L.subtasks| && |a| < L.numVertices && L.SlotsOkAt(|a|)
    && |arrs| == |mn| == |mx| == 2 * L.numEdges && |data| == SM_THRESHOLD
    && p == FirstShortest(L.Lists(k, a), L.NumPivots(|a|))
    && match isType
       case SINGLE => |a| != 0 && SingleDone(L.JoinAfter(a), L.Lists(k, a), arrs, mn, p, size)
       case LAST => |a| == L.numVertices - 1 && LastDone(L.JoinAfter(a), L.Lists(k, a), p, size)
       case SHARED_MEMBUF =>
         && |a| < L.numVertices - 1
         && ChunkDone(L.JoinAfter(a), L.Lists(k, a), arrs, mn, mx, p, size, data, BlockShare(|a|, b, L.Lists(k, a)[p]))
  }

  lemma {:induction false} OutcomeEid(L: Launch, b: nat, k: nat, a: seq<nat>, arrs: seq<seq<nat>>, mn: seq<nat>,
                                      mx: seq<nat>,
                                      size: nat, data: seq<nat>, isType: IntersectionType, p: nat)
    requires LoadOutcome(L, b, k, a, arrs, mn, mx, size, data, isType, p)
    ensures p < |L.JoinEids(|a|)| && L.JoinEids(|a|)[p] < 2 * L.numEdges
    ensures L.EidDepth(L.JoinEids(|a|)[p]) == |a|
  {
    assert L.LoadsAt(|a|, L.JoinEids(|a|)[p]);
    L.EidDepthIs(|a|, L.JoinEids(|a|)[p]);
  }

  lemma {:induction false} LoadChunk(L: Launch, b: nat, at: Span, a: seq<nat>, arrs: seq<seq<nat>>, mn: seq<nat>,
                                     mx: seq<nat>,
                                     size: nat, data: seq<nat>, p: nat, lv: Level, todo: seq<nat>) returns (f: Frame,
                                     chunk: seq<nat>)
    requires LoadOutcome(L, b, at.lo, a, arrs, mn, mx, size, data, SHARED_MEMBUF, p)
    requires TodoOk(PlanOf(L, b), at.lo, a, todo)
    requires p < |L.JoinEids(|a|)| && L.JoinEids(|a|)[p] < 2 * L.numEdges
    requires lv == LoadedLevel(lv, p, L.JoinEids(|a|)[p], mn, mx, size, data, SHARED_MEMBUF) && lv.child == 0
    ensures f.at == at && f.v == 0 && |f.share| <= VERTICES_PER_GRID
    ensures Fills(todo, chunk, f)
    ensures Active(PlanOf(L, b), lv, arrs, f, a)
  {
    var list := L.Lists(at.lo, a)[p];
    var share := BlockShare(|a|, b, list);
    chunk := FilterIn(L.Extensions(at.lo, a), ChunkOf(share));
    f := ChunkFrame(L, at, a, data[..size], share);
    ChunkBasics(L, b, at, a, arrs, mn, mx, size, data, p, todo);
    if LaterShare(share) == [] {
      assert f.rest == [];
    } else {
      ChunkPause(L, b, at, a, arrs, mn, mx, size, data, p);
    }
    SharedActive(PlanOf(L, b), lv, arrs, f, a);
  }

  lemma {:induction false} ChunkBasics(L: Launch, b: nat, at: Span, a: seq<nat>, arrs: seq<seq<nat>>, mn: seq<nat>,
                                       mx: seq<nat>,
                                       size: nat, data: seq<nat>, p: nat, todo: seq<nat>)
    requires LoadOutcome(L, b, at.lo, a, arrs, mn, mx, size, data, SHARED_MEMBUF, p)
    requires TodoOk(PlanOf(L, b), at.lo, a, todo)
    ensures
      var share := BlockShare(|a|, b, L.Lists(at.lo, a)[p]);
      && |share| <= VERTICES_PER_GRID
      && Fills(todo, FilterIn(L.Extensions(at.lo, a), ChunkOf(share)), ChunkFrame(L, at, a, data[..size], share))
      && p < |L.JoinEids(|a|)| && L.JoinEids(|a|)[p] < 2 * L.numEdges
      && L.EidDepth(L.JoinEids(|a|)[p]) == |a|
  {
    var list := L.Lists(at.lo, a)[p];
    TodoIsShare(L, b, at.lo, a, p, todo);
    ShareLength(|a|, b, list);
    ChunkFills(L, at, a, data[..size], BlockShare(|a|, b, list), todo);
    OutcomeEid(L, b, at.lo, a, arrs, mn, mx, size, data, SHARED_MEMBUF, p);
  }

  lemma {:induction false} ChunkPause(L: Launch, b: nat, at: Span, a: seq<nat>, arrs: seq<seq<nat>>, mn: seq<nat>,
                                      mx: seq<nat>,
                                      size: nat, data: seq<nat>, p: nat)
    requires LoadOutcome(L, b, at.lo, a, arrs, mn, mx, size, data, SHARED_MEMBUF, p)
    requires LaterShare(BlockShare(|a|, b, L.Lists(at.lo, a)[p])) != []
    ensures
      var later := LaterShare(BlockShare(|a|, b, L.Lists(at.lo, a)[p]));
      PauseOk(L, Pause(p, L.JoinEids(|a|)[p], mn, mx, arrs, at.lo, a, FilterIn(L.Extensions(at.lo, a), later), later))
  {
  }

  lemma {:induction false} ShareLength(dep: nat, b: nat, list: seq<nat>)
    requires ListOk(list)
    ensures |BlockShare(dep, b, list)| <= VERTICES_PER_GRID
  {
    SortedBounded(list);
  }

  lemma {:induction false} LoadSingle(L: Launch, b: nat, at: Span, a: seq<nat>, arrs: seq<seq<nat>>, mn: seq<nat>,
                                      mx: seq<nat>,
                                      size: nat, data: seq<nat>, p: nat, lv: Level, todo: seq<nat>) returns (f: Frame,
                                      chunk: seq<nat>)
    requires LoadOutcome(L, b, at.lo, a, arrs, mn, mx, size, data, SINGLE, p)
    requires TodoOk(PlanOf(L, b), at.lo, a, todo)
    requires p < |L.JoinEids(|a|)| && L.JoinEids(|a|)[p] < 2 * L.numEdges
    requires lv == LoadedLevel(lv, p, L.JoinEids(|a|)[p], mn, mx, size, data, SINGLE) && lv.child == 0
    ensures f.at == at && f.v == 0 && |f.share| <= VERTICES_PER_GRID
    ensures Fills(todo, chunk, f)
    ensures Active(PlanOf(L, b), lv, arrs, f, a)
  {
    chunk := L.Lists(at.lo, a)[p];
    f := Frame(at, chunk, size, 0, [], [], 0);
    SingleBasics(L, b, at.lo, a, arrs, mn, mx, size, data, p, todo);
    SingleFills(chunk, todo, f);
    SingleLoaded(PlanOf(L, b), L.JoinAfter(a), L.Lists(at.lo, a), at, a, arrs, mn, mx, size, data, p, lv);
  }

  lemma {:induction false} SingleLoaded(P: Plan, join: Join, lists: seq<seq<nat>>, at: Span, a: seq<nat>,
                                        arrs: seq<seq<nat>>,
                                        mn: seq<nat>, mx: seq<nat>, size: nat, data: seq<nat>, p: nat, lv: Level)
    requires p < |lists| <= |join.es| && SingleDone(join, lists, arrs, mn, p, size) && |mx| == |mn|
    requires join.es[p] < |P.eidDepth| && P.eidDepth[join.es[p]] == |a|
    requires lv == LoadedLevel(lv, p, join.es[p], mn, mx, size, data, SINGLE) && lv.child == 0
    ensures Active(P, lv, arrs, Frame(at, lists[p], size, 0, [], [], 0), a)
  {
    SingleActive(P, lv, arrs, Frame(at, lists[p], size, 0, [], [], 0), a);
  }

  lemma {:induction false} SingleBasics(L: Launch, b: nat, k: nat, a: seq<nat>, arrs: seq<seq<nat>>, mn: seq<nat>,
                                        mx: seq<nat>,
                                        size: nat, data: seq<nat>, p: nat, todo: seq<nat>)
    requires LoadOutcome(L, b, k, a, arrs, mn, mx, size, data, SINGLE, p)
    requires TodoOk(PlanOf(L, b), k, a, todo)
    ensures StrictlySorted(L.Lists(k, a)[p]) && NoDup(todo) && SameElements(todo, L.Lists(k, a)[p])
    ensures p < |L.JoinEids(|a|)| && L.JoinEids(|a|)[p] < 2 * L.numEdges
    ensures L.EidDepth(L.JoinEids(|a|)[p]) == |a|
  {
    TodoIsShare(L, b, k, a, p, todo);
    AllPass(L, k, a, arrs, mn, p, size);
    OutcomeEid(L, b, k, a, arrs, mn, mx, size, data, SINGLE, p);
  }

  lemma {:induction false} SingleActive(P: Plan, lv: Level, arrs: seq<seq<nat>>, f: Frame, a: seq<nat>)
    requires lv.pivotEid < |arrs| && lv.pivotEid < |lv.minIter| && lv.isType.SINGLE?
    requires lv.pivotEid < |P.eidDepth| && P.eidDepth[lv.pivotEid] == |a|
    requires !lv.isFinish && lv.state.INITIAL? && lv.child == f.child && lv.imSize == lv.tmpImSize == f.k
    requires lv.minIter[lv.pivotEid] + lv.imSize <= |arrs[lv.pivotEid]|
    requires f.vals == arrs[lv.pivotEid][lv.minIter[lv.pivotEid]..lv.minIter[lv.pivotEid] + lv.imSize]
    requires f.rest == [] && f.share == []
    ensures Active(P, lv, arrs, f, a)
  {
  }

  lemma {:induction false} SharedActive(P: Plan, lv: Level, arrs: seq<seq<nat>>, f: Frame, a: seq<nat>)
    requires lv.pivotEid < |arrs| && lv.pivotEid < |lv.minIter| && lv.isType.SHARED_MEMBUF?
    requires lv.pivotEid < |P.eidDepth| && P.eidDepth[lv.pivotEid] == |a|
    requires !lv.isFinish && lv.child == f.child && lv.imSize == lv.tmpImSize == f.k <= |lv.imData|
    requires f.vals == lv.imData[..lv.imSize]
    requires lv.state.INITIAL? ==> f.rest == [] && f.share == []
    requires lv.state.RESUME? ==>
               Pause(lv.pivot, lv.pivotEid, lv.minIter, lv.maxIter, arrs, f.at.lo, a, f.rest, f.share) in P.resumable
    ensures Active(P, lv, arrs, f, a)
  {
  }

  /** A lone unconstrained list passes as a whole. */
  lemma {:induction false} AllPass(L: Launch, k: nat, a: seq<nat>, arrs: seq<seq<nat>>, mn: seq<nat>, p: nat, size: nat)
    requires L.Ready() && k < |L.subtasks| && |a| < L.numVertices && L.SlotsOkAt(|a|) && p < |L.Lists(k, a)|
    requires SingleDone(L.JoinAfter(a), L.Lists(k, a), arrs, mn, p, size)
    ensures FilterIn(L.Extensions(k, a), L.Lists(k, a)[p]) == L.Lists(k, a)[p]
  {
    var list := L.Lists(k, a)[p];
    forall i | 0 <= i < |list|
      ensures list[i] in L.Extensions(k, a)
    {
      assert L.JoinAfter(a).Passes(L.Lists(k, a), list[i]);
    }
    FilterAll(L.Extensions(k, a), list);
  }

  lemma {:induction false} SingleFills(chunk: seq<nat>, todo: seq<nat>, f: Frame)
    requires StrictlySorted(chunk) && NoDup(todo) && SameElements(todo, chunk)
    requires f.vals == chunk && f.k == |chunk| && f.child == 0 && f.rest == []
    ensures Fills(todo, chunk, f)
  {
    assert chunk + f.rest == chunk;
  }

  /** A later chunk of pause w, as the scan left it. */
  ghost predicate ChunkOutcome(L: Launch, w: Pause, size: nat, data: seq<nat>, mn: seq<nat>) {
    && PauseOk(L, w)
    && |data| == SM_THRESHOLD && size <= SM_THRESHOLD && NoDup(data[..size])
    && SameElements(data[..size], FilterIn(L.Extensions(w.lo, w.a), ChunkOf(w.share)))
    && w.pivotEid < |mn| == 2 * L.numEdges
    && (mn[w.pivotEid] <= w.maxIter[w.pivotEid] <==> LaterShare(w.share) != [])
    && |LaterShare(w.share)| < |w.share|
    && (LaterShare(w.share) != [] ==>
          Scannable(L.Lists(w.lo, w.a), L.JoinEids(|w.a|), w.arrs, mn, w.maxIter, w.pivot, LaterShare(w.share)))
  }

  /** The next chunk of a paused depth. */
  lemma {:induction false} ResumeChunk(L: Launch, b: nat, w: Pause, f: Frame, lv: Level, mn: seq<nat>, size: nat,
                                       data: seq<nat>, a: seq<nat>)
    returns (g: Frame, chunk: seq<nat>)
    requires ChunkOutcome(L, w, size, data, mn)
    requires w.lo == f.at.lo && w.a == a && w.rest == f.rest && w.share == f.share
    requires L.EidDepth(w.pivotEid) == |a| && w.pivotEid < 2 * L.numEdges
    requires lv == LoadedLevel(lv, w.pivot, w.pivotEid, mn, w.maxIter, size, data, SHARED_MEMBUF) && lv.child == 0
    ensures g.at == f.at && |g.share| < |f.share|
    ensures Fills(f.rest, chunk, g)
    ensures Active(PlanOf(L, b), lv, w.arrs, g, a)
  {
    var lists := L.Lists(w.lo, a);
    L.ListsAreOk(w.lo, a);
    assert ListOk(lists[w.pivot]);
    PartOk(w.share, lists[w.pivot]);
    FilterElements(L.Extensions(w.lo, a), w.share);
    ChunkFills(L, f.at, a, data[..size], w.share, f.rest);
    chunk := FilterIn(L.Extensions(w.lo, a), ChunkOf(w.share));
    g := ChunkFrame(L, f.at, a, data[..size], w.share);
    SharedActive(PlanOf(L, b), lv, w.arrs, g, a);
  }

  // ----- whole steps -----

  /** A loaded frame replaces the fresh or paused top; nothing is counted yet and no work is added. */
  ghost predicate Loads(S: Search, trail: seq<Frame>, top: Top, top': Top)
    requires S.tree.ShapeOk() && StateOk(S, trail, top) && StateOk(S, trail, top')
  {
    && Rem(S, false, trail, top') == Rem(S, false, trail, top)
    && Rem(S, true, trail, top') <= Rem(S, true, trail, top)
  }

  lemma {:induction false} LoadRegs(P: Plan, at: Place, levels: seq<Level>, arrs: seq<seq<nat>>, arrs': seq<seq<nat>>,
                                    trail: seq<Frame>, top: Top, f: Frame, lv: Level)
    requires P.Ok() && RegsOk(P, at, levels, arrs, trail, top) && levels[at.dep].child == 0
    requires at.dep + 1 < P.search.depth && f.at == top.At()
    requires LowerOk(P, levels, arrs', trail) && |arrs'| == 2 * P.numEdges
    requires lv.ShapeOk(P.numEdges) && lv.child == 0 && Active(P, lv, arrs', f, Prefix(trail))
    ensures RegsOk(P, at, levels[at.dep := lv], arrs', trail, Open(f))
  {
    LowerSet(P, levels, arrs', trail, at.dep, lv);
  }

  /** The first intersection at a depth below the last. */
  lemma {:induction false} LoadStep(L: Launch, b: nat, P: Plan, at: Place, levels: seq<Level>, arrs: seq<seq<nat>>,
                                    trail: seq<Frame>, top: Top,
                                    arrs': seq<seq<nat>>, mn: seq<nat>, mx: seq<nat>, size: nat, data: seq<nat>,
                                    isType: IntersectionType, p: nat, lv: Level,
                                    levels': seq<Level>) returns (top': Top)
    requires P == PlanOf(L, b) && Consistent(P, at, levels, arrs, trail, top) && at.dep + 1 < L.numVertices
    requires levels[at.dep].isFinish && levels[at.dep].state.INITIAL?
    requires LoadOutcome(L, b, at.subtask, Prefix(trail), arrs', mn, mx, size, data, isType, p)
    requires AgreesOff(L, arrs, arrs', at.dep)
    requires p < |L.JoinEids(at.dep)| && L.JoinEids(at.dep)[p] < 2 * L.numEdges
    requires lv == LoadedLevel(levels[at.dep], p, L.JoinEids(at.dep)[p], mn, mx, size, data, isType)
    requires levels' == levels[at.dep := lv]
    ensures top'.Open? && Consistent(P, at, levels', arrs', trail, top') && !levels'[at.dep].isFinish
    ensures Loads(P.search, trail, top, top')
  {
    var a := Prefix(trail);
    ChildInRange(P, at, levels, arrs, trail, top, 0);
    var f, chunk;
    if isType.SINGLE? {
      f, chunk := LoadSingle(L, b, top.At(), a, arrs', mn, mx, size, data, p, lv, top.todo);
    } else {
      f, chunk := LoadChunk(L, b, top.At(), a, arrs', mn, mx, size, data, p, lv, top.todo);
    }
    top' := Open(f);
    LowerFrame(L, b, levels, arrs, arrs', trail, at.dep);
    LoadRegs(P, at, levels, arrs, arrs', trail, top, f, lv);
    Load(P.search, trail, top, chunk, f);
  }

  /** What a load relies on: register shapes, a valid subtask, and the values of the depths below. */
  lemma {:induction false} LoadFacts(P: Plan, at: Place, levels: seq<Level>, arrs: seq<seq<nat>>, trail: seq<Frame>,
                                     top: Top)
    requires Consistent(P, at, levels, arrs, trail, top)
    ensures |trail| == at.dep < |levels| == P.search.depth && LowerOk(P, levels, arrs, trail)
            && |arrs| == 2 * P.numEdges
    ensures levels[at.dep].ShapeOk(P.numEdges)
    ensures at.subtask < |P.subtasks| && at.shardIdxs == P.subtasks[at.subtask]
    ensures at.dep + 1 == P.search.depth ==>
              levels[at.dep].Idle() && at.dep > 0 && 1 <= at.node && at.node - 1 < |P.search.tree.prv|
  {
    assert levels[at.dep].ShapeOk(P.numEdges);
    if at.dep + 1 == P.search.depth {
      ParentOf(P, trail, top);
    }
  }

  ghost function PauseAt(lv: Level, arrs: seq<seq<nat>>, f: Frame, a: seq<nat>): Pause {
    Pause(lv.pivot, lv.pivotEid, lv.minIter, lv.maxIter, arrs, f.at.lo, a, f.rest, f.share)
  }

  /** A finished depth that is not fresh holds a pause to resume. */
  lemma {:induction false} PausedFacts(L: Launch, b: nat, P: Plan, at: Place, levels: seq<Level>, arrs: seq<seq<nat>>,
                                       trail: seq<Frame>, top: Top)
    requires P == PlanOf(L, b) && Consistent(P, at, levels, arrs, trail, top)
    requires levels[at.dep].isFinish && !levels[at.dep].state.INITIAL?
    ensures top.Open? && PauseOk(L, PauseAt(levels[at.dep], arrs, top.frame, Prefix(trail)))
    ensures levels[at.dep].isType.SHARED_MEMBUF?
    ensures levels[at.dep].pivotEid < 2 * L.numEdges && L.EidDepth(levels[at.dep].pivotEid) == |trail|
    ensures levels[at.dep].child == 0 && top.frame.child == P.search.tree.NumChildren(top.frame.at.node)
    ensures at.dep + 1 < L.numVertices && at.subtask == top.frame.at.lo
  {
    assert TopMatches(P, levels[at.dep], arrs, top, Prefix(trail));
    ChildInRange(P, at, levels, arrs, trail, top, 0);
  }

  /** A later chunk at a depth below the last. */
  lemma {:induction false} ResumeStep(L: Launch, b: nat, P: Plan, at: Place, levels: seq<Level>, arrs: seq<seq<nat>>,
                                      trail: seq<Frame>, top: Top,
                                      mn: seq<nat>, size: nat, data: seq<nat>, lv: Level,
                                      levels': seq<Level>) returns (top': Top)
    requires P == PlanOf(L, b) && Consistent(P, at, levels, arrs, trail, top) && top.Open?
    requires levels[at.dep].isFinish && !levels[at.dep].state.INITIAL?
    requires ChunkOutcome(L, PauseAt(levels[at.dep], arrs, top.frame, Prefix(trail)), size, data, mn)
    requires lv == LoadedLevel(levels[at.dep], levels[at.dep].pivot, levels[at.dep].pivotEid, mn,
               levels[at.dep].maxIter,
                               size, data, SHARED_MEMBUF)
    requires levels' == levels[at.dep := lv]
    ensures top'.Open? && Consistent(P, at, levels', arrs, trail, top') && !levels'[at.dep].isFinish
    ensures Loads(P.search, trail, top, top')
  {
    PausedFacts(L, b, P, at, levels, arrs, trail, top);
    var w := PauseAt(levels[at.dep], arrs, top.frame, Prefix(trail));
    var g, chunk := ResumeChunk(L, b, w, top.frame, lv, mn, size, data, Prefix(trail));
    top' := Open(g);
    LoadRegs(P, at, levels, arrs, arrs, trail, top, g, lv);
    Refill(P.search, trail, top, top.frame, chunk, g);
  }

  /** The last depth counts its candidates and goes back. */
  lemma {:induction false} LeafStep(L: Launch, b: nat, P: Plan, at: Place, levels: seq<Level>, arrs: seq<seq<nat>>,
                                    trail: seq<Frame>, top: Top,
                                    n: nat, arrs': seq<seq<nat>>, mn: seq<nat>, mx: seq<nat>, size: nat, data: seq<nat>,
                                    isType: IntersectionType, p: nat, lv: Level,
                                    at': Place, levels': seq<Level>, trail': seq<Frame>, top': Top)
    requires P == PlanOf(L, b) && Consistent(P, at, levels, arrs, trail, top) && at.dep + 1 == L.numVertices
    requires LoadOutcome(L, b, at.subtask, Prefix(trail), arrs', mn, mx, size, data, isType, p)
    requires AgreesOff(L, arrs, arrs', at.dep)
    requires lv.Idle() && lv.ShapeOk(L.numEdges)
    requires at.dep > 0 && 1 <= at.node && at.node - 1 < |L.tree.prv|
    requires at' == at.(dep := at.dep - 1, node := L.tree.prv[at.node - 1])
    requires levels' == levels[at.dep := lv] && trail' == trail[..at.dep - 1] && top' == Open(trail[at.dep - 1])
    ensures Consistent(P, at', levels', arrs', trail', top')
    ensures Progress(P.search, n, trail, top, n + size, trail', top')
  {
    LeafSize(L, b, at.subtask, Prefix(trail), arrs', mn, mx, size, data, isType, p, top.todo);
    LeafRem(P, trail, top, n);
    LowerFrame(L, b, levels, arrs, arrs', trail, at.dep);
    LeafRegs(P, at, levels, arrs, arrs', trail, top, lv);
  }

  lemma {:induction false} LeafRem(P: Plan, trail: seq<Frame>, top: Top, n: nat)
    requires P.Ok() && StateOk(P.search, trail, top) && |trail| + 1 == P.search.depth && top.Fresh?
    ensures StateOk(P.search, trail[..|trail| - 1], Open(trail[|trail| - 1]))
    ensures Progress(P.search, n, trail, top, n + |top.todo|, trail[..|trail| - 1], Open(trail[|trail| - 1]))
  {
    Pop(P.search, false, trail, top);
    Pop(P.search, true, trail, top);
  }

  lemma {:induction false} LeafRegs(P: Plan, at: Place, levels: seq<Level>, arrs: seq<seq<nat>>, arrs': seq<seq<nat>>,
                                    trail: seq<Frame>, top: Top, lv: Level)
    requires P.Ok() && StateOk(P.search, trail, top) && RegsOk(P, at, levels, arrs, trail, top)
    requires at.dep + 1 == P.search.depth && lv.Idle() && lv.ShapeOk(P.numEdges)
    requires LowerOk(P, levels, arrs', trail) && |arrs'| == 2 * P.numEdges
    ensures 1 <= at.node
    ensures RegsOk(P, at.(dep := at.dep - 1, node := P.search.tree.prv[at.node - 1]), levels[at.dep := lv], arrs',
                   trail[..at.dep - 1], Open(trail[at.dep - 1]))
  {
    ParentOf(P, trail, top);
    LowerSet(P, levels, arrs', trail, at.dep, lv);
    HigherSet(levels, at.dep, lv);
    LeaveOk(P, at, levels[at.dep := lv], arrs', trail, top.At(),
          at.(dep := at.dep - 1, node := P.search.tree.prv[at.node - 1]));
  }

  lemma {:induction false} LeafSize(L: Launch, b: nat, k: nat, a: seq<nat>, arrs: seq<seq<nat>>, mn: seq<nat>,
                                    mx: seq<nat>,
                                    size: nat, data: seq<nat>, isType: IntersectionType, p: nat, todo: seq<nat>)
    requires LoadOutcome(L, b, k, a, arrs, mn, mx, size, data, isType, p) && |a| == L.numVertices - 1
    requires TodoOk(PlanOf(L, b), k, a, todo)
    ensures size == |todo|
  {
    TodoIsShare(L, b, k, a, p, todo);
    FilterElements(L.Extensions(k, a), L.Lists(k, a)[p]);
    SameLength(todo, FilterIn(L.Extensions(k, a), L.Lists(k, a)[p]));
    if isType.SINGLE? {
      AllPass(L, k, a, arrs, mn, p, size);
    }
  }
}
