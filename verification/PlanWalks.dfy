/** Walking the plan tree in pre-order, and grouping what the walk meets by query vertex. */
module PlanWalks {
  import opened QueryGraphs
  import opened Grids
  import opened PlanTrees

  ghost predicate LevelsFit(maxLevel: nat, vertexAt: seq<nat>, vlevel: seq<nat>) {
    && 1 <= maxLevel == |vertexAt| == |vlevel|
    && (forall l {:trigger vertexAt[l]} :: 0 <= l < maxLevel ==> vertexAt[l] > 0)
    && (forall l, m :: 0 <= l <= m < maxLevel ==> vlevel[l] <= vlevel[m])
    && (forall l, m :: 0 <= l < m < maxLevel ==> (vertexAt[l] == vertexAt[m] <==> vlevel[l] == vlevel[m]))
  }

  ghost function LevelsOf(maxLevel: nat, vertexAt: seq<nat>, vlevel: seq<nat>): Levels {
    Levels(maxLevel, vertexAt, vlevel, LevelsFit(maxLevel, vertexAt, vlevel))
  }

  /**
   * What each tree level stands for: its vertex mark and the vertex level of its edge; ok says that they fit together.
   */
  datatype Levels = Levels(maxLevel: nat, vertexAt: seq<nat>, vlevel: seq<nat>, ok: bool) {

    ghost predicate Ok() {
      ok && this == LevelsOf(maxLevel, vertexAt, vlevel)
    }

    /** Level l (counted from 1) is the last one of its vertex. */
    predicate EndsVertex(l: nat)
      requires 1 <= l <= maxLevel == |vlevel|
    {
      l == maxLevel || vlevel[l - 1] != vlevel[l]
    }
  }

  /** A position in the tree: the nodes from level 1 down. */
  type Position = seq<Node>

  /** Every path below level n reaches the last level, and nodes carry their level and vertex mark. */
  ghost predicate Shaped(levels: Levels, kids: seq<Node>, n: nat)
    requires levels.Ok() && n <= levels.maxLevel
    decreases levels.maxLevel - n
  {
    if n == levels.maxLevel then kids == []
    else
      && kids != []
      && forall i {:trigger kids[i]} :: 0 <= i < |kids| ==>
           kids[i].level == n + 1 && kids[i].vertex == levels.vertexAt[n] && Shaped(levels, kids[i].children, n + 1)
  }

  /** All positions below `path` through kids, in pre-order. */
  ghost function Walk(path: Position, kids: seq<Node>): seq<Position>
    decreases kids, |kids|
  {
    if kids == [] then []
    else [path + [kids[0]]] + Walk(path + [kids[0]], kids[0].children) + Walk(path, kids[1..])
  }

  /** A node and how many of its children have been visited. */
  datatype Track = Track(node: Node, next: nat)

  ghost predicate StackOk(levels: Levels, root: Node, stk: seq<Track>)
    requires levels.Ok()
    decreases |stk|
  {
    stk != [] ==>
      var last := |stk| - 1;
      && last <= levels.maxLevel
      && stk[last].next <= |stk[last].node.children|
      && Shaped(levels, stk[last].node.children, last)
      && (if last == 0 then stk[0].node == root
          else
            && StackOk(levels, root, stk[..last])
            && 0 < stk[last - 1].next && stk[last].node == stk[last - 1].node.children[stk[last - 1].next - 1]
            && stk[last].node.level == last && stk[last].node.vertex == levels.vertexAt[last - 1])
  }

  ghost function PathOf(stk: seq<Track>): (path: Position)
    ensures |path| == if stk == [] then 0 else |stk| - 1
    ensures forall i :: 0 <= i < |path| ==> path[i] == stk[i + 1].node
  {
    if stk == [] then [] else seq(|stk| - 1, i requires 0 <= i < |stk| - 1 => stk[i + 1].node)
  }

  /** The positions still to be visited. */
  ghost function Rest(stk: seq<Track>): seq<Position>
    decreases |stk|
  {
    if stk == [] then []
    else
      var top := stk[|stk| - 1];
      (if top.next <= |top.node.children| then Walk(PathOf(stk), top.node.children[top.next..]) else [])
      + Rest(stk[..|stk| - 1])
  }

  lemma {:induction false} PopExhausted(levels: Levels, root: Node, stk: seq<Track>, popped: seq<Track>)
    requires levels.Ok() && StackOk(levels, root, stk) && Exhausted(stk) && popped == stk[..|stk| - 1]
    ensures StackOk(levels, root, popped) && Rest(popped) == Rest(stk) && |popped| == |stk| - 1
  {
  }

  /** The stack after visiting the next child of the top. */
  function Advanced(stk: seq<Track>): seq<Track>
    requires stk != [] && stk[|stk| - 1].next < |stk[|stk| - 1].node.children|
  {
    var last := |stk| - 1;
    stk[last := Track(stk[last].node, stk[last].next + 1)] + [Track(stk[last].node.children[stk[last].next], 0)]
  }

  lemma {:induction false} ChildShaped(levels: Levels, kids: seq<Node>, n: nat, i: nat)
    requires levels.Ok() && n <= levels.maxLevel && Shaped(levels, kids, n) && i < |kids|
    ensures n < levels.maxLevel && kids[i].level == n + 1 && kids[i].vertex == levels.vertexAt[n]
    ensures Shaped(levels, kids[i].children, n + 1)
  {
  }

  lemma {:induction false} Bumped(levels: Levels, root: Node, stk: seq<Track>, bumped: seq<Track>)
    requires levels.Ok() && StackOk(levels, root, stk) && stk != []
             && stk[|stk| - 1].next < |stk[|stk| - 1].node.children|
    requires bumped == stk[|stk| - 1 := Track(stk[|stk| - 1].node, stk[|stk| - 1].next + 1)]
    ensures StackOk(levels, root, bumped) && PathOf(bumped) == PathOf(stk)
  {
    assert bumped[..|stk| - 1] == stk[..|stk| - 1];
  }

  lemma {:induction false} AdvanceOk(levels: Levels, root: Node, stk: seq<Track>)
    requires levels.Ok() && StackOk(levels, root, stk) && stk != []
    requires stk[|stk| - 1].next < |stk[|stk| - 1].node.children|
    ensures StackOk(levels, root, Advanced(stk))
  {
    var last := |stk| - 1;
    var top := stk[last];
    var bumped := stk[last := Track(top.node, top.next + 1)];
    Bumped(levels, root, stk, bumped);
    assert Advanced(stk)[..|stk|] == bumped;
    ChildShaped(levels, top.node.children, last, top.next);
  }

  /** What is left: the top's remaining children, then what is left below it on the stack. */
  lemma {:induction false} RestOf(stk: seq<Track>, path: Position, below: seq<Position>)
    requires stk != [] && stk[|stk| - 1].next <= |stk[|stk| - 1].node.children|
    requires path == PathOf(stk) && below == Rest(stk[..|stk| - 1])
    ensures Rest(stk) == Walk(path, stk[|stk| - 1].node.children[stk[|stk| - 1].next..]) + below
  {
  }

  lemma {:induction false} BumpedRest(stk: seq<Track>, bumped: seq<Track>)
    requires stk != [] && stk[|stk| - 1].next < |stk[|stk| - 1].node.children|
    requires bumped == stk[|stk| - 1 := Track(stk[|stk| - 1].node, stk[|stk| - 1].next + 1)]
    ensures PathOf(bumped) == PathOf(stk)
    ensures Rest(bumped) == Walk(PathOf(stk), stk[|stk| - 1].node.children[stk[|stk| - 1].next + 1..])
                            + Rest(stk[..|stk| - 1])
  {
    assert bumped[..|stk| - 1] == stk[..|stk| - 1];
    assert PathOf(bumped) == PathOf(stk);
    RestOf(bumped, PathOf(stk), Rest(stk[..|stk| - 1]));
  }

  lemma {:induction false} PushedRest(stk: seq<Track>, c: Node)
    requires stk != []
    ensures PathOf(stk + [Track(c, 0)]) == PathOf(stk) + [c]
    ensures Rest(stk + [Track(c, 0)]) == Walk(PathOf(stk) + [c], c.children) + Rest(stk)
  {
    var pushed := stk + [Track(c, 0)];
    assert pushed[..|stk|] == stk && c.children[0..] == c.children;
    assert PathOf(pushed) == PathOf(stk) + [c];
    RestOf(pushed, PathOf(stk) + [c], Rest(stk));
  }

  lemma {:induction false} Regrouped<T>(a: seq<T>, b: seq<T>, c: seq<T>, d: seq<T>)
    ensures a + b + c + d == a + (b + (c + d))
  {
  }

  lemma {:induction false} WalkStep(path: Position, kids: seq<Node>, i: nat, below: seq<Position>)
    requires i < |kids|
    ensures Walk(path, kids[i..]) + below
         == [path + [kids[i]]] + (Walk(path + [kids[i]], kids[i].children) + (Walk(path, kids[i + 1..]) + below))
  {
    assert kids[i..][1..] == kids[i + 1..];
    Regrouped([path + [kids[i]]], Walk(path + [kids[i]], kids[i].children), Walk(path, kids[i + 1..]), below);
  }

  lemma {:induction false} AdvanceRest(stk: seq<Track>)
    requires stk != [] && stk[|stk| - 1].next < |stk[|stk| - 1].node.children|
    ensures Rest(stk) == [PathOf(Advanced(stk))] + Rest(Advanced(stk))
  {
    var last := |stk| - 1;
    var top := stk[last];
    var bumped := stk[last := Track(top.node, top.next + 1)];
    RestOf(stk, PathOf(stk), Rest(stk[..last]));
    BumpedRest(stk, bumped);
    PushedRest(bumped, top.node.children[top.next]);
    WalkStep(PathOf(stk), top.node.children, top.next, Rest(stk[..last]));
  }

  predicate Exhausted(stk: seq<Track>) {
    stk != [] && |stk[|stk| - 1].node.children| <= stk[|stk| - 1].next
  }

  method SkipExhausted(ghost levels: Levels, ghost root: Node, stk: seq<Track>) returns (stk': seq<Track>)
    requires levels.Ok() && StackOk(levels, root, stk)
    ensures StackOk(levels, root, stk') && Rest(stk') == Rest(stk) && !Exhausted(stk')
    ensures if Exhausted(stk) then |stk'| < |stk| else stk' == stk
  {
    stk' := stk;
    while Exhausted(stk')
      invariant StackOk(levels, root, stk') && Rest(stk') == Rest(stk)
      invariant if |stk'| < |stk| then Exhausted(stk) else stk' == stk
      decreases |stk'|
    {
      var popped := stk'[..|stk'| - 1];
      PopExhausted(levels, root, stk', popped);
      stk' := popped;
    }
  }

  /** stk' is the stack after one step of the walk. */
  ghost predicate Stepped(stk: seq<Track>, stk': seq<Track>) {
    && (stk' == [] <==> Rest(stk) == [])
    && (stk' != [] ==>
          && |stk'| >= 2 && stk'[|stk'| - 1].next == 0
          && Rest(stk) == [PathOf(stk')] + Rest(stk'))
    && (stk != [] ==>
          if Exhausted(stk) then |stk'| <= |stk|
          else (|stk'| == |stk| + 1 && PathOf(stk')[..|stk| - 1] == PathOf(stk)))
  }

  lemma {:induction false} AdvancedPath(stk: seq<Track>)
    requires stk != [] && stk[|stk| - 1].next < |stk[|stk| - 1].node.children|
    ensures |Advanced(stk)| == |stk| + 1 && Advanced(stk)[|stk|].next == 0
    ensures PathOf(Advanced(stk))[..|stk| - 1] == PathOf(stk)
  {
  }

  lemma {:induction false} StepsTo(stk: seq<Track>, skipped: seq<Track>, rest: seq<Position>)
    requires skipped != [] && !Exhausted(skipped) && rest == Rest(stk)
    requires rest == [PathOf(Advanced(skipped))] + Rest(Advanced(skipped))
    requires if Exhausted(stk) then |skipped| < |stk| else skipped == stk
    ensures Stepped(stk, Advanced(skipped))
  {
    AdvancedPath(skipped);
  }

  /** Steps to the next position in pre-order; the stack is empty once all have been visited. */
  method NextNode(ghost levels: Levels, ghost root: Node, stk: seq<Track>) returns (stk': seq<Track>)
    requires levels.Ok() && StackOk(levels, root, stk)
    ensures StackOk(levels, root, stk') && Stepped(stk, stk')
  {
    var skipped := SkipExhausted(levels, root, stk);
    if skipped == [] {
      return [];
    }
    AdvanceOk(levels, root, skipped);
    AdvanceRest(skipped);
    StepsTo(stk, skipped, Rest(stk));
    stk' := Advanced(skipped);
  }

  // ----- groups -----

  /** What the iterator hands out: the levels a group spans, and the whole path's shards when it is complete. */
  datatype Group = Group(vertex: nat, minLevel: nat, maxLevel: nat, leaves: Option<seq<Leaf>>)

  function LeavesOf(p: Position): (leaves: seq<Leaf>)
    ensures |leaves| == |p| && forall i :: 0 <= i < |p| ==> leaves[i] == p[i].leaf
  {
    seq(|p|, i requires 0 <= i < |p| => p[i].leaf)
  }

  /** p is the last position of a vertex: the deepest level of that vertex. */
  ghost predicate IsEnd(levels: Levels, p: Position)
    requires levels.Ok()
  {
    1 <= |p| <= levels.maxLevel && levels.EndsVertex(|p|)
  }

  ghost function Ends(levels: Levels, items: seq<Position>): seq<Position>
    requires levels.Ok()
  {
    if items == [] then []
    else (if IsEnd(levels, items[0]) then [items[0]] else []) + Ends(levels, items[1..])
  }

  /** g is the group that closes at position p. */
  ghost predicate GroupIs(levels: Levels, g: Group, p: Position)
    requires levels.Ok()
  {
    && 1 <= g.minLevel <= g.maxLevel == |p| <= levels.maxLevel
    && g.vertex == levels.vertexAt[|p| - 1]
    && levels.vlevel[g.minLevel - 1] == levels.vlevel[|p| - 1]
    && g.leaves == if |p| == levels.maxLevel then Some(LeavesOf(p)) else None
  }

  /** tmp describes the group being collected, which so far ends at the stack's position. */
  ghost predicate WalkOk(levels: Levels, root: Node, stk: seq<Track>, tmp: Option<Group>)
    requires levels.Ok()
  {
    && StackOk(levels, root, stk)
    && (stk != [] ==>
          && stk[|stk| - 1].next == 0
          && if tmp.None? then |stk| == 1 else |stk| >= 2 && GroupIs(levels, tmp.value, PathOf(stk)))
  }

  /** The positions whose groups have not been handed out. */
  ghost function Pending(levels: Levels, stk: seq<Track>, tmp: Option<Group>): seq<Position>
    requires levels.Ok()
  {
    if stk == [] then []
    else if tmp.None? then Ends(levels, Rest(stk))
    else Ends(levels, [PathOf(stk)] + Rest(stk))
  }

  lemma {:induction false} EndsCons(levels: Levels, p: Position, items: seq<Position>)
    requires levels.Ok()
    ensures Ends(levels, [p] + items) == (if IsEnd(levels, p) then [p] else []) + Ends(levels, items)
  {
    assert ([p] + items)[1..] == items;
  }

  lemma {:induction false} NoEnd(levels: Levels, p: Position, items: seq<Position>)
    requires levels.Ok() && !IsEnd(levels, p)
    ensures Ends(levels, [p] + items) == Ends(levels, items)
  {
    EndsCons(levels, p, items);
  }

  lemma {:induction false} WalkNonempty(path: Position, kids: seq<Node>)
    requires kids != []
    ensures Walk(path, kids) != []
  {
  }

  /** Only the last level has no children, so a walk that is over stood at the last level. */
  lemma {:induction false} WalkOver(levels: Levels, root: Node, stk: seq<Track>, tmp: Option<Group>)
    requires levels.Ok() && WalkOk(levels, root, stk, tmp) && stk != [] && Rest(stk) == []
    ensures tmp.Some? && IsEnd(levels, PathOf(stk)) && Pending(levels, stk, tmp) == [PathOf(stk)]
  {
    var top := stk[|stk| - 1];
    assert top.node.children[0..] == top.node.children;
    if |stk| - 1 < levels.maxLevel {
      WalkNonempty(PathOf(stk), top.node.children);
      assert false;
    }
    EndsCons(levels, PathOf(stk), Rest(stk));
  }

  // ----- where groups start -----

  /**
   * The first level of each group among items: the level of the position right after the previous group's end. A group
   * that is already open when items begin started at level open; 0 says that none is.
   */
  ghost function Starts(levels: Levels, items: seq<Position>, open: nat): seq<nat>
    requires levels.Ok()
    decreases |items|
  {
    if items == [] then []
    else
      var first := if open > 0 then open else |items[0]|;
      if IsEnd(levels, items[0]) then [first] + Starts(levels, items[1..], 0)
      else Starts(levels, items[1..], first)
  }

  /** The first levels of the groups that have not been handed out. */
  ghost function PendingStarts(levels: Levels, stk: seq<Track>, tmp: Option<Group>): seq<nat>
    requires levels.Ok()
  {
    if stk == [] then []
    else if tmp.None? then Starts(levels, Rest(stk), 0)
    else Starts(levels, [PathOf(stk)] + Rest(stk), tmp.value.minLevel)
  }

  lemma {:induction false} StartsCons(levels: Levels, p: Position, items: seq<Position>, open: nat)
    requires levels.Ok()
    ensures
      var first := if open > 0 then open else |p|;
      Starts(levels, [p] + items, open)
      == if IsEnd(levels, p) then [first] + Starts(levels, items, 0) else Starts(levels, items, first)
  {
    assert ([p] + items)[1..] == items;
  }

  /** A group that is open at its own first position is no different from one yet to be opened. */
  lemma {:induction false} StartsHere(levels: Levels, p: Position, items: seq<Position>)
    requires levels.Ok() && |p| > 0
    ensures Starts(levels, [p] + items, |p|) == Starts(levels, [p] + items, 0)
  {
    StartsCons(levels, p, items, |p|);
    StartsCons(levels, p, items, 0);
  }

  /** g starts where the first pending group starts, and `after` are the starts of the others. */
  ghost predicate StartDelivered(before: seq<nat>, g: Group, after: seq<nat>) {
    before != [] && g.minLevel == before[0] && after == before[1..]
  }

  predicate StartsGroup(tmp: Group, node: Node) {
    node.level == 1 || tmp.vertex != node.vertex || tmp.maxLevel >= node.level
  }

  function NewGroup(node: Node, leaves: Option<seq<Leaf>>): Group {
    Group(node.vertex, node.level, node.level, leaves)
  }

  /** The first position of the walk starts the first group. */
  lemma {:induction false} FirstPosition(levels: Levels, root: Node, stk: seq<Track>, stk': seq<Track>, g: Group)
    requires levels.Ok() && WalkOk(levels, root, stk, None) && stk != []
    requires StackOk(levels, root, stk') && Stepped(stk, stk') && stk' != []
    requires g == NewGroup(stk'[|stk'| - 1].node, if |stk'| - 1 == levels.maxLevel then Some(LeavesOf(PathOf(stk')))
             else None)
    ensures WalkOk(levels, root, stk', Some(g)) && Pending(levels, stk', Some(g)) == Pending(levels, stk, None)
    ensures |Rest(stk')| < |Rest(stk)|
  {
  }

  /** The first group starts at the first position. */
  lemma {:induction false} FirstStart(levels: Levels, stk: seq<Track>, stk': seq<Track>, g: Group)
    requires levels.Ok() && stk != [] && Stepped(stk, stk') && stk' != [] && g.minLevel == |stk'| - 1
    ensures PendingStarts(levels, stk', Some(g)) == PendingStarts(levels, stk, None)
  {
    StartsHere(levels, PathOf(stk'), Rest(stk'));
  }

  /** The group that closes started where it was opened, and the next one starts at the new position. */
  lemma {:induction false} NextStart(levels: Levels, stk: seq<Track>, tmp: Group, stk': seq<Track>, g: Group)
    requires levels.Ok() && stk != [] && Stepped(stk, stk') && stk' != [] && g.minLevel == |stk'| - 1
    requires tmp.minLevel > 0 && IsEnd(levels, PathOf(stk))
    ensures StartDelivered(PendingStarts(levels, stk, Some(tmp)), tmp, PendingStarts(levels, stk', Some(g)))
  {
    StartsCons(levels, PathOf(stk), Rest(stk), tmp.minLevel);
    StartsHere(levels, PathOf(stk'), Rest(stk'));
  }

  lemma {:induction false} SameStart(levels: Levels, stk: seq<Track>, tmp: Group, stk': seq<Track>, g: Group)
    requires levels.Ok() && stk != [] && Stepped(stk, stk') && stk' != [] && g.minLevel == tmp.minLevel > 0
    requires !IsEnd(levels, PathOf(stk))
    ensures PendingStarts(levels, stk', Some(g)) == PendingStarts(levels, stk, Some(tmp))
  {
    StartsCons(levels, PathOf(stk), Rest(stk), tmp.minLevel);
  }

  lemma {:induction false} LastStart(levels: Levels, stk: seq<Track>, tmp: Group)
    requires levels.Ok() && stk != [] && Rest(stk) == [] && tmp.minLevel > 0 && IsEnd(levels, PathOf(stk))
    ensures StartDelivered(PendingStarts(levels, stk, Some(tmp)), tmp, [])
  {
    StartsCons(levels, PathOf(stk), Rest(stk), tmp.minLevel);
  }

  /** A position that starts a new group closes the one before. */
  lemma {:induction false} NextGroup(levels: Levels, root: Node, stk: seq<Track>, tmp: Group, stk': seq<Track>,
                                     g: Group)
    requires levels.Ok() && WalkOk(levels, root, stk, Some(tmp)) && stk != []
    requires StackOk(levels, root, stk') && Stepped(stk, stk') && stk' != []
    requires StartsGroup(tmp, stk'[|stk'| - 1].node)
    requires g == NewGroup(stk'[|stk'| - 1].node, if |stk'| - 1 == levels.maxLevel then Some(LeavesOf(PathOf(stk')))
             else None)
    ensures WalkOk(levels, root, stk', Some(g))
    ensures Delivered(levels, Pending(levels, stk, Some(tmp)), tmp, Pending(levels, stk', Some(g)))
  {
    ClosesHere(levels, root, stk, tmp, stk');
    EndsCons(levels, PathOf(stk), Rest(stk));
  }

  lemma {:induction false} NextGroupStart(levels: Levels, root: Node, stk: seq<Track>, tmp: Group, stk': seq<Track>,
                                          g: Group)
    requires levels.Ok() && WalkOk(levels, root, stk, Some(tmp)) && stk != []
    requires StackOk(levels, root, stk') && Stepped(stk, stk') && stk' != []
    requires StartsGroup(tmp, stk'[|stk'| - 1].node) && g.minLevel == stk'[|stk'| - 1].node.level
    ensures StartDelivered(PendingStarts(levels, stk, Some(tmp)), tmp, PendingStarts(levels, stk', Some(g)))
  {
    ClosesHere(levels, root, stk, tmp, stk');
    TopFacts(levels, root, stk');
    NextStart(levels, stk, tmp, stk', g);
  }

  lemma {:induction false} ClosesHere(levels: Levels, root: Node, stk: seq<Track>, tmp: Group, stk': seq<Track>)
    requires levels.Ok() && WalkOk(levels, root, stk, Some(tmp)) && stk != []
    requires StackOk(levels, root, stk') && Stepped(stk, stk') && stk' != []
    requires StartsGroup(tmp, stk'[|stk'| - 1].node)
    ensures IsEnd(levels, PathOf(stk))
  {
    if |stk| - 1 < levels.maxLevel {
      StillOpen(levels, root, stk);
      TopFacts(levels, root, stk');
      GroupEnds(levels, tmp, PathOf(stk), stk'[|stk'| - 1].node);
    }
  }

  /** A node above the last level that has just been reached has children to visit. */
  lemma {:induction false} StillOpen(levels: Levels, root: Node, stk: seq<Track>)
    requires levels.Ok() && StackOk(levels, root, stk) && stk != [] && stk[|stk| - 1].next == 0
    requires |stk| - 1 < levels.maxLevel
    ensures !Exhausted(stk)
  {
    var d := |stk| - 1;
    assert Shaped(levels, stk[d].node.children, d) && stk[d].node.children != [];
  }

  lemma {:induction false} GroupEnds(levels: Levels, tmp: Group, p: Position, node: Node)
    requires levels.Ok() && GroupIs(levels, tmp, p) && |p| < levels.maxLevel && StartsGroup(tmp, node)
    requires node.level == |p| + 1 && node.vertex == levels.vertexAt[|p|]
    ensures IsEnd(levels, p)
  {
  }

  lemma {:induction false} GroupGoesOn(levels: Levels, tmp: Group, p: Position, node: Node)
    requires levels.Ok() && GroupIs(levels, tmp, p) && |p| < levels.maxLevel && !StartsGroup(tmp, node)
    requires node.level == |p| + 1 && node.vertex == levels.vertexAt[|p|]
    ensures !IsEnd(levels, p) && levels.vertexAt[|p|] == levels.vertexAt[|p| - 1]
  {
    SameVertexGoesOn(levels, |p|);
  }

  lemma {:induction false} TopFacts(levels: Levels, root: Node, stk: seq<Track>)
    requires levels.Ok() && StackOk(levels, root, stk) && |stk| >= 2
    ensures |stk| - 1 <= levels.maxLevel
    ensures stk[|stk| - 1].node.level == |stk| - 1 && stk[|stk| - 1].node.vertex == levels.vertexAt[|stk| - 2]
  {
  }

  lemma {:induction false} SameVertexGoesOn(levels: Levels, d: nat)
    requires levels.Ok() && 1 <= d < levels.maxLevel && levels.vertexAt[d] == levels.vertexAt[d - 1]
    ensures !levels.EndsVertex(d)
  {
  }

  /** A position that starts no group is one level below the last one. */
  lemma {:induction false} GoesDeeper(levels: Levels, tmp: Group, stk: seq<Track>, stk': seq<Track>, node: Node)
    requires levels.Ok() && |stk| >= 2 && GroupIs(levels, tmp, PathOf(stk)) && !StartsGroup(tmp, node)
    requires if Exhausted(stk) then |stk'| <= |stk| else |stk'| == |stk| + 1
    requires |stk'| >= 2 && node.level == |stk'| - 1 <= levels.maxLevel && node.vertex == levels.vertexAt[|stk'| - 2]
    ensures |stk'| == |stk| + 1 && !IsEnd(levels, PathOf(stk))
    ensures levels.vertexAt[|stk| - 1] == levels.vertexAt[|stk| - 2]
  {
    assert |stk'| > |stk|;
    GroupGoesOn(levels, tmp, PathOf(stk), node);
  }

  lemma {:induction false} GroupGrows(levels: Levels, tmp: Group, p: Position, p': Position, g: Group)
    requires levels.Ok() && GroupIs(levels, tmp, p) && |p'| == |p| + 1 <= levels.maxLevel && !IsEnd(levels, p)
    requires levels.vertexAt[|p|] == levels.vertexAt[|p| - 1]
    requires g == tmp.(maxLevel := |p'|,
                       leaves := if |p'| == levels.maxLevel then Some(LeavesOf(p')) else tmp.leaves)
    ensures GroupIs(levels, g, p')
  {
  }

  lemma {:induction false} StaysInGroup(levels: Levels, stk: seq<Track>, tmp: Group, stk': seq<Track>, node: Node,
                                        g: Group)
    requires levels.Ok() && |stk| >= 2 && GroupIs(levels, tmp, PathOf(stk)) && !StartsGroup(tmp, node)
    requires if Exhausted(stk) then |stk'| <= |stk| else |stk'| == |stk| + 1
    requires |stk'| >= 2 && node.level == |stk'| - 1 <= levels.maxLevel && node.vertex == levels.vertexAt[|stk'| - 2]
    requires g == tmp.(maxLevel := node.level,
                       leaves := if |stk'| - 1 == levels.maxLevel then Some(LeavesOf(PathOf(stk'))) else tmp.leaves)
    ensures GroupIs(levels, g, PathOf(stk')) && !IsEnd(levels, PathOf(stk))
  {
    GoesDeeper(levels, tmp, stk, stk', node);
    GroupGrows(levels, tmp, PathOf(stk), PathOf(stk'), g);
  }

  /** Otherwise it is the next level of the same vertex. */
  lemma {:induction false} SameGroup(levels: Levels, root: Node, stk: seq<Track>, tmp: Group, stk': seq<Track>,
                                     g: Group)
    requires levels.Ok() && WalkOk(levels, root, stk, Some(tmp)) && stk != []
    requires StackOk(levels, root, stk') && Stepped(stk, stk') && stk' != []
    requires !StartsGroup(tmp, stk'[|stk'| - 1].node)
    requires g == tmp.(maxLevel := stk'[|stk'| - 1].node.level,
                       leaves := if |stk'| - 1 == levels.maxLevel then Some(LeavesOf(PathOf(stk'))) else tmp.leaves)
    ensures WalkOk(levels, root, stk', Some(g)) && Pending(levels, stk', Some(g)) == Pending(levels, stk, Some(tmp))
    ensures PendingStarts(levels, stk', Some(g)) == PendingStarts(levels, stk, Some(tmp))
    ensures |Rest(stk')| < |Rest(stk)|
  {
    TopFacts(levels, root, stk');
    StaysInGroup(levels, stk, tmp, stk', stk'[|stk'| - 1].node, g);
    NoEnd(levels, PathOf(stk), Rest(stk));
    SameStart(levels, stk, tmp, stk', g);
  }

  /** The shards of a complete path, read off the stack. */
  method MakeSubtaskInfo(stk: seq<Track>) returns (leaves: seq<Leaf>)
    requires stk != []
    ensures leaves == LeavesOf(PathOf(stk))
  {
    leaves := [];
    var i := 1;
    while i < |stk|
      invariant 1 <= i <= |stk| && |leaves| == i - 1
      invariant forall j :: 0 <= j < i - 1 ==> leaves[j] == stk[j + 1].node.leaf
    {
      leaves := leaves + [stk[i].node.leaf];
      i := i + 1;
    }
  }

  /** g is the group of the first pending position, and `after` are the others. */
  ghost predicate Delivered(levels: Levels, before: seq<Position>, g: Group, after: seq<Position>)
    requires levels.Ok()
  {
    && before != [] && GroupIs(levels, g, before[0]) && IsEnd(levels, before[0])
    && after == before[1..]
  }

  /** Takes one position into the group being collected, or finds that it starts the next one. */
  method CollectOne(levels: Levels, ghost root: Node, stk: seq<Track>, tmp: Option<Group>)
    returns (stk': seq<Track>, tmp': Option<Group>, g: Option<Group>)
    requires levels.Ok() && WalkOk(levels, root, stk, tmp) && stk != []
    ensures WalkOk(levels, root, stk', tmp')
    ensures g.None? ==>
              stk' != [] && Pending(levels, stk', tmp') == Pending(levels, stk, tmp) && |Rest(stk')| < |Rest(stk)|
    ensures g.None? ==> PendingStarts(levels, stk', tmp') == PendingStarts(levels, stk, tmp)
    ensures g.Some? ==> Delivered(levels, Pending(levels, stk, tmp), g.value, Pending(levels, stk', tmp'))
    ensures g.Some? ==> StartDelivered(PendingStarts(levels, stk, tmp), g.value, PendingStarts(levels, stk', tmp'))
  {
    var next := NextNode(levels, root, stk);
    g := None;
    if next == [] {
      LastGroup(levels, root, stk, tmp);
      g, stk', tmp' := tmp, next, tmp;
      return;
    }
    var node := next[|next| - 1].node;
    var leaves := None;
    if node.level == levels.maxLevel {
      var all := MakeSubtaskInfo(next);
      leaves := Some(all);
    }
    stk' := next;
    if tmp.None? {
      tmp' := Some(NewGroup(node, leaves));
      FirstPosition(levels, root, stk, next, tmp'.value);
      FirstStart(levels, stk, next, tmp'.value);
    } else if StartsGroup(tmp.value, node) {
      g, tmp' := tmp, Some(NewGroup(node, leaves));
      NextGroup(levels, root, stk, tmp.value, next, tmp'.value);
      NextGroupStart(levels, root, stk, tmp.value, next, tmp'.value);
    } else {
      tmp' := Some(tmp.value.(maxLevel := node.level, leaves := if leaves.Some? then leaves else tmp.value.leaves));
      SameGroup(levels, root, stk, tmp.value, next, tmp'.value);
    }
  }

  /** Hands out the group of the next vertex end, or None when the walk is over. */
  method PopGridGroup(levels: Levels, ghost root: Node, stk0: seq<Track>, tmp0: Option<Group>)
    returns (stk: seq<Track>, tmp: Option<Group>, g: Option<Group>)
    requires levels.Ok() && WalkOk(levels, root, stk0, tmp0)
    ensures WalkOk(levels, root, stk, tmp)
    ensures g.None? ==> Pending(levels, stk0, tmp0) == [] && stk == []
    ensures g.Some? ==> Delivered(levels, Pending(levels, stk0, tmp0), g.value, Pending(levels, stk, tmp))
    ensures g.Some? ==> StartDelivered(PendingStarts(levels, stk0, tmp0), g.value, PendingStarts(levels, stk, tmp))
  {
    stk, tmp, g := stk0, tmp0, None;
    if stk == [] {
      return;
    }
    while g.None?
      invariant WalkOk(levels, root, stk, tmp)
      invariant g.None? ==> stk != [] && Pending(levels, stk, tmp) == Pending(levels, stk0, tmp0)
      invariant g.None? ==> PendingStarts(levels, stk, tmp) == PendingStarts(levels, stk0, tmp0)
      invariant g.Some? ==> Delivered(levels, Pending(levels, stk0, tmp0), g.value, Pending(levels, stk, tmp))
      invariant g.Some? ==> StartDelivered(PendingStarts(levels, stk0, tmp0), g.value, PendingStarts(levels, stk, tmp))
      decreases g.None?, |Rest(stk)|
    {
      stk, tmp, g := CollectOne(levels, root, stk, tmp);
    }
  }

  /** At the end of the walk the group being collected is the last one. */
  lemma {:induction false} LastGroup(levels: Levels, root: Node, stk: seq<Track>, tmp: Option<Group>)
    requires levels.Ok() && WalkOk(levels, root, stk, tmp) && stk != [] && Rest(stk) == []
    ensures tmp.Some? && Delivered(levels, Pending(levels, stk, tmp), tmp.value, [])
    ensures StartDelivered(PendingStarts(levels, stk, tmp), tmp.value, [])
  {
    WalkOver(levels, root, stk, tmp);
    LastStart(levels, stk, tmp.value);
  }
}
