/** The kernel's search stack as a value, what each of its moves does to the work still outstanding. */
module Backtracking {
  import opened Machine
  import opened Sequences
  import opened SearchTrees

  /** A tree node together with the subtasks it covers. */
  datatype Span = Span(node: nat, lo: nat, hi: nat)

  /**
   * One depth under enumeration. vals is the current chunk of candidates, of which the first k still have to go into
   * child `child` and all of which have to go into the later children; rest are the candidates of the chunks to come,
   * share the part of the pivot list those chunks will scan; v is the value currently matched.
   */
  datatype Frame = Frame(at: Span, vals: seq<nat>, k: nat, child: nat, rest: seq<nat>, share: seq<nat>, v: nat)

  /** The depth the kernel stands at: just entered, with the candidates todo still to be computed, or enumerated. */
  datatype Top = Fresh(span: Span, todo: seq<nat>) | Open(frame: Frame) {
    function At(): Span {
      if Fresh? then span else frame.at
    }
  }

  ghost function Prefix(trail: seq<Frame>): (a: seq<nat>)
    ensures |a| == |trail|
    ensures forall i :: 0 <= i < |trail| ==> a[i] == trail[i].v
  {
    seq(|trail|, i requires 0 <= i < |trail| => trail[i].v)
  }

  lemma {:induction false} PrefixSnoc(trail: seq<Frame>, f: Frame)
    ensures Prefix(trail + [f]) == Prefix(trail) + [f.v]
  {
  }

  ghost predicate SpanOk(S: Search, at: Span, d: nat)
    requires S.tree.ShapeOk()
  {
    S.Covers(at.node, d + 1, at.lo, at.hi)
  }

  function ChildSpan(S: Search, at: Span, j: nat): Span
    requires S.tree.ShapeOk() && S.tree.IsNode(at.node) && j < S.tree.NumChildren(at.node)
  {
    Span(S.tree.Child(at.node, j), S.tree.ChildSt(at.node, j), S.tree.ChildEnd(at.node, j, at.hi))
  }

  /** Frame f at depth d covers its subtasks; child equals the number of children once the chunk is exhausted. */
  ghost predicate FrameOk(S: Search, f: Frame, d: nat)
    requires S.tree.ShapeOk()
  {
    && d + 1 < S.depth
    && SpanOk(S, f.at, d)
    && f.child <= S.tree.NumChildren(f.at.node)
    && f.k <= |f.vals|
  }

  ghost predicate TopOk(S: Search, top: Top, d: nat)
    requires S.tree.ShapeOk()
  {
    match top
    case Fresh(at, todo) => d < S.depth && SpanOk(S, at, d)
    case Open(f) => FrameOk(S, f, d)
  }

  /** The trail leads from the root frame down to `at`, child by child. */
  ghost predicate TrailOk(S: Search, trail: seq<Frame>, at: Span)
    requires S.tree.ShapeOk()
    decreases |trail|
  {
    trail != [] ==>
      var last := |trail| - 1;
      && FrameOk(S, trail[last], last)
      && trail[last].child < S.tree.NumChildren(trail[last].at.node)
      && at == ChildSpan(S, trail[last].at, trail[last].child)
      && TrailOk(S, trail[..last], trail[last].at)
  }

  ghost predicate StateOk(S: Search, trail: seq<Frame>, top: Top)
    requires S.tree.ShapeOk()
  {
    TopOk(S, top, |trail|) && TrailOk(S, trail, top.At())
  }

  // ----- outstanding work -----

  ghost function FrameRem(S: Search, work: bool, f: Frame, a: seq<nat>): nat
    requires S.tree.ShapeOk() && FrameOk(S, f, |a|)
  {
    var c := S.tree.NumChildren(f.at.node);
    (if f.child < c then
       S.ValuesSum(work, f.at.node, a, f.vals[..f.k], f.child) + S.ChildrenSum(work, f.at.node, a, f.vals, f.child + 1)
     else 0)
    + S.ChildrenSum(work, f.at.node, a, f.rest, 0)
    + (if work then c - f.child + |f.share| * c else 0)
  }

  ghost function TopRem(S: Search, work: bool, top: Top, a: seq<nat>): nat
    requires S.tree.ShapeOk() && TopOk(S, top, |a|)
  {
    match top
    case Open(f) => FrameRem(S, work, f, a)
    case Fresh(at, todo) =>
      if |a| == S.depth - 1 then
        if work then 1 else |todo|
      else
        (if work then (VERTICES_PER_GRID + 1) * S.tree.NumChildren(at.node) else 0)
        + S.ChildrenSum(work, at.node, a, todo, 0)
  }

  ghost function StackRem(S: Search, work: bool, trail: seq<Frame>, at: Span): nat
    requires S.tree.ShapeOk() && TrailOk(S, trail, at)
    decreases |trail|
  {
    if trail == [] then 0
    else
      var last := |trail| - 1;
      StackRem(S, work, trail[..last], trail[last].at) + FrameRem(S, work, trail[last], Prefix(trail[..last]))
  }

  /** All that is outstanding at the top and below it. */
  ghost function Rem(S: Search, work: bool, trail: seq<Frame>, top: Top): nat
    requires S.tree.ShapeOk() && StateOk(S, trail, top)
  {
    StackRem(S, work, trail, top.At()) + TopRem(S, work, top, Prefix(trail))
  }

  // ----- the moves -----

  /** Leaving the current depth: the frame below becomes the top. */
  lemma {:induction false} Pop(S: Search, work: bool, trail: seq<Frame>, top: Top)
    requires S.tree.ShapeOk() && StateOk(S, trail, top) && trail != []
    ensures StateOk(S, trail[..|trail| - 1], Open(trail[|trail| - 1]))
    ensures Rem(S, work, trail[..|trail| - 1], Open(trail[|trail| - 1])) == StackRem(S, work, trail, top.At())
  {
  }

  /** Taking the last value of the chunk into the current child. */
  function Taken(f: Frame): Frame
    requires 0 < f.k <= |f.vals|
  {
    f.(k := f.k - 1, v := f.vals[f.k - 1])
  }

  ghost function Entered(S: Search, trail: seq<Frame>, f: Frame): Top
    requires S.tree.ShapeOk() && S.tree.IsNode(f.at.node) && f.child < S.tree.NumChildren(f.at.node)
    requires 0 < f.k <= |f.vals|
  {
    var at := ChildSpan(S, f.at, f.child);
    Fresh(at, S.cand(at.lo, Prefix(trail) + [Taken(f).v]))
  }

  lemma {:induction false} TakeOne(S: Search, work: bool, f: Frame, a: seq<nat>)
    requires S.tree.ShapeOk() && FrameOk(S, f, |a|)
    requires f.child < S.tree.NumChildren(f.at.node) && f.k > 0
    ensures FrameRem(S, work, f, a)
         == FrameRem(S, work, Taken(f), a) + S.Descent(work, f.at.node, a, Taken(f).v, f.child)
  {
    assert f.vals[..f.k][..f.k - 1] == f.vals[..f.k - 1];
  }

  lemma {:induction false} EnteredWeight(S: Search, work: bool, trail: seq<Frame>, f: Frame)
    requires S.tree.ShapeOk() && FrameOk(S, f, |trail|)
    requires f.child < S.tree.NumChildren(f.at.node) && f.k > 0
    ensures TopOk(S, Entered(S, trail, f), |trail| + 1)
    ensures S.Descent(work, f.at.node, Prefix(trail), Taken(f).v, f.child)
         == (if work then 1 else 0) + TopRem(S, work, Entered(S, trail, f), Prefix(trail) + [Taken(f).v])
  {
    assert S.Covers(S.tree.Child(f.at.node, f.child), |trail| + 2, S.tree.ChildSt(f.at.node, f.child),
                    S.tree.ChildEnd(f.at.node, f.child, f.at.hi));
  }

  lemma {:induction false} Descend(S: Search, trail: seq<Frame>, top: Top, f: Frame)
    requires S.tree.ShapeOk() && StateOk(S, trail, top) && top == Open(f)
    requires f.child < S.tree.NumChildren(f.at.node) && f.k > 0
    ensures StateOk(S, trail + [Taken(f)], Entered(S, trail, f))
  {
    assert (trail + [Taken(f)])[..|trail|] == trail;
    EnteredWeight(S, false, trail, f);
  }

  lemma {:induction false} DescendRem(S: Search, work: bool, trail: seq<Frame>, top: Top, f: Frame)
    requires S.tree.ShapeOk() && StateOk(S, trail, top) && top == Open(f)
    requires f.child < S.tree.NumChildren(f.at.node) && f.k > 0
    requires StateOk(S, trail + [Taken(f)], Entered(S, trail, f))
    ensures Rem(S, work, trail + [Taken(f)], Entered(S, trail, f)) + (if work then 1 else 0) == Rem(S, work, trail, top)
  {
    assert (trail + [Taken(f)])[..|trail|] == trail;
    PrefixSnoc(trail, Taken(f));
    TakeOne(S, work, f, Prefix(trail));
    EnteredWeight(S, work, trail, f);
  }

  /** The chunk is through with one child and starts over in the next. */
  function NextChild(f: Frame): Frame {
    f.(child := f.child + 1, k := |f.vals|)
  }

  lemma {:induction false} Advance(S: Search, trail: seq<Frame>, top: Top, f: Frame)
    requires S.tree.ShapeOk() && StateOk(S, trail, top) && top == Open(f)
    requires f.child + 1 < S.tree.NumChildren(f.at.node) && f.k == 0
    ensures StateOk(S, trail, Open(NextChild(f)))
    ensures Rem(S, false, trail, Open(NextChild(f))) == Rem(S, false, trail, top)
    ensures Rem(S, true, trail, Open(NextChild(f))) + 1 == Rem(S, true, trail, top)
  {
    assert f.vals[..|f.vals|] == f.vals;
  }

  /** The chunk is through with every child. */
  ghost function Exhausted(S: Search, f: Frame): Frame
    requires S.tree.ShapeOk() && S.tree.IsNode(f.at.node)
  {
    f.(child := S.tree.NumChildren(f.at.node), k := 0)
  }

  lemma {:induction false} Exhaust(S: Search, trail: seq<Frame>, top: Top, f: Frame)
    requires S.tree.ShapeOk() && StateOk(S, trail, top) && top == Open(f)
    requires f.child + 1 == S.tree.NumChildren(f.at.node) && f.k == 0
    ensures StateOk(S, trail, Open(Exhausted(S, f)))
    ensures Rem(S, false, trail, Open(Exhausted(S, f))) == Rem(S, false, trail, top)
    ensures Rem(S, true, trail, Open(Exhausted(S, f))) + 1 == Rem(S, true, trail, top)
  {
  }

  lemma {:induction false} NothingLeft(S: Search, f: Frame, a: seq<nat>)
    requires S.tree.ShapeOk() && FrameOk(S, f, |a|)
    requires f.child == S.tree.NumChildren(f.at.node) && f.rest == [] && f.share == []
    ensures forall work :: FrameRem(S, work, f, a) == 0
  {
    EmptySum(S, false, f.at.node, a, 0);
    EmptySum(S, true, f.at.node, a, 0);
  }

  lemma {:induction false} EmptySum(S: Search, work: bool, n: nat, a: seq<nat>, j: nat)
    requires S.tree.ShapeOk() && S.tree.IsNode(n) && |a| + 1 < S.depth
    ensures S.ChildrenSum(work, n, a, [], j) == 0
    decreases S.tree.NumChildren(n) - j
  {
    if j < S.tree.NumChildren(n) {
      EmptySum(S, work, n, a, j + 1);
    }
  }

  /** The chunk of `todo` whose candidates are vals, in any order, has been computed; `rest` comes later. */
  ghost predicate Fills(todo: seq<nat>, chunk: seq<nat>, f: Frame) {
    && SameElements(todo, chunk + f.rest) && NoDup(todo) && NoDup(chunk + f.rest)
    && SameElements(f.vals, chunk) && NoDup(f.vals)
    && f.k == |f.vals| && f.child == 0
  }

  lemma {:induction false} FillSums(S: Search, work: bool, a: seq<nat>, todo: seq<nat>, chunk: seq<nat>, f: Frame)
    requires S.tree.ShapeOk() && FrameOk(S, f, |a|)
    requires Fills(todo, chunk, f)
    ensures FrameRem(S, work, f, a)
         == S.ChildrenSum(work, f.at.node, a, todo, 0)
            + if work then (|f.share| + 1) * S.tree.NumChildren(f.at.node) else 0
  {
    var node := f.at.node;
    PartSums(S, work, node, a, todo, chunk, f);
    assert f.vals[..f.k] == f.vals;
    Distribute(|f.share|, S.tree.NumChildren(node));
  }

  lemma {:induction false} PartSums(S: Search, work: bool, node: nat, a: seq<nat>, todo: seq<nat>, chunk: seq<nat>,
                                    f: Frame)
    requires S.tree.ShapeOk() && S.tree.IsNode(node) && |a| + 1 < S.depth
    requires Fills(todo, chunk, f)
    ensures S.ChildrenSum(work, node, a, f.vals, 0) + S.ChildrenSum(work, node, a, f.rest, 0)
         == S.ChildrenSum(work, node, a, todo, 0)
  {
    S.ChildrenSumSame(work, node, a, todo, chunk + f.rest, 0);
    S.ChildrenSumAppend(work, node, a, chunk, f.rest, 0);
    NoDupPrefix(chunk, f.rest);
    S.ChildrenSumSame(work, node, a, f.vals, chunk, 0);
  }

  lemma {:induction false} NoDupPrefix(chunk: seq<nat>, rest: seq<nat>)
    requires NoDup(chunk + rest)
    ensures NoDup(chunk)
  {
    forall i, j | 0 <= i < j < |chunk|
      ensures chunk[i] != chunk[j]
    {
      assert (chunk + rest)[i] == chunk[i] && (chunk + rest)[j] == chunk[j];
    }
  }

  lemma {:induction false} Distribute(x: nat, c: nat)
    ensures (x + 1) * c == c + x * c
  {
  }

  /** First intersection at a depth. */
  lemma {:induction false} Load(S: Search, trail: seq<Frame>, top: Top, chunk: seq<nat>, f: Frame)
    requires S.tree.ShapeOk() && StateOk(S, trail, top) && top.Fresh? && |trail| + 1 < S.depth
    requires f.at == top.At()
    requires Fills(top.todo, chunk, f) && |f.share| <= VERTICES_PER_GRID
    ensures StateOk(S, trail, Open(f))
    ensures Rem(S, false, trail, Open(f)) == Rem(S, false, trail, top)
    ensures Rem(S, true, trail, Open(f)) <= Rem(S, true, trail, top)
  {
    FillSums(S, false, Prefix(trail), top.todo, chunk, f);
    FillSums(S, true, Prefix(trail), top.todo, chunk, f);
    MulMono(|f.share| + 1, VERTICES_PER_GRID + 1, S.tree.NumChildren(f.at.node));
  }

  lemma {:induction false} MulMono(x: nat, y: nat, c: nat)
    requires x <= y
    ensures x * c <= y * c
  {
  }

  /** A later chunk at the same depth. */
  lemma {:induction false} Refill(S: Search, trail: seq<Frame>, top: Top, f: Frame, chunk: seq<nat>, g: Frame)
    requires S.tree.ShapeOk() && StateOk(S, trail, top) && top == Open(f) && f.child == S.tree.NumChildren(f.at.node)
    requires g.at == f.at
    requires Fills(f.rest, chunk, g) && |g.share| < |f.share|
    ensures StateOk(S, trail, Open(g))
    ensures Rem(S, false, trail, Open(g)) == Rem(S, false, trail, top)
    ensures Rem(S, true, trail, Open(g)) <= Rem(S, true, trail, top)
  {
    FillSums(S, false, Prefix(trail), f.rest, chunk, g);
    FillSums(S, true, Prefix(trail), f.rest, chunk, g);
    MulMono(|g.share| + 1, |f.share|, S.tree.NumChildren(f.at.node));
  }
}
