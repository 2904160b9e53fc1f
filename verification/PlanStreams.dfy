/** The plan tree as a stream of kernel tasks: over a whole run, every leaf path exactly once and in pre-order. */
module PlanStreams {
  import opened QueryGraphs
  import opened Grids
  import opened PlanTrees
  import opened PlanWalks
  import opened TaskPackers

  // ----- the walk's complete paths are the tree's leaf paths -----

  lemma {:induction false} EndsAppend(levels: Levels, a: seq<Position>, b: seq<Position>)
    requires levels.Ok()
    ensures Ends(levels, a + b) == Ends(levels, a) + Ends(levels, b)
    decreases |a|
  {
    if a == [] {
      assert a + b == b;
    } else {
      assert (a + b)[1..] == a[1..] + b;
      EndsAppend(levels, a[1..], b);
    }
  }

  lemma {:induction false} FullsAppend(levels: Levels, a: seq<Position>, b: seq<Position>)
    ensures Fulls(levels, a + b) == Fulls(levels, a) + Fulls(levels, b)
    decreases |b|
  {
    if b == [] {
      assert a + b == a;
    } else {
      var last := |b| - 1;
      assert (a + b)[..|a + b| - 1] == a + b[..last];
      FullsAppend(levels, a, b[..last]);
    }
  }

  /** Leaf paths, each continued from a given path. */
  ghost function Continued(from: seq<Leaf>, paths: seq<seq<Leaf>>): (all: seq<seq<Leaf>>)
    ensures |all| == |paths| && forall i :: 0 <= i < |all| ==> all[i] == from + paths[i]
  {
    seq(|paths|, i requires 0 <= i < |paths| => from + paths[i])
  }

  ghost function FullsOf(levels: Levels, items: seq<Position>): seq<seq<Leaf>>
    requires levels.Ok()
  {
    Fulls(levels, Ends(levels, items))
  }

  lemma {:induction false} FullsOfAppend(levels: Levels, a: seq<Position>, b: seq<Position>)
    requires levels.Ok()
    ensures FullsOf(levels, a + b) == FullsOf(levels, a) + FullsOf(levels, b)
  {
    EndsAppend(levels, a, b);
    FullsAppend(levels, Ends(levels, a), Ends(levels, b));
  }

  lemma {:induction false} FullsOfOne(levels: Levels, p: Position)
    requires levels.Ok() && 1 <= |p|
    ensures FullsOf(levels, [p]) == if |p| == levels.maxLevel then [LeavesOf(p)] else []
  {
    EndsCons(levels, p, []);
    assert [p] + [] == [p];
    var ends := Ends(levels, [p]);
    assert ends == [p] || ends == [];
    assert ends != [] ==> ends[..0] == [] && Fulls(levels, ends[..0]) == [];
  }

  lemma {:induction false} LeafPathsCons(k: Node, kids: seq<Node>)
    ensures LeafPathsOf([k] + kids) == LeafPaths(k) + LeafPathsOf(kids)
  {
    LeafPathsAppend([k], kids);
    assert [k][..0] == [];
  }

  /** Below a path, the complete positions of the walk carry the leaf paths of the tree, in the same order. */
  lemma {:induction false} WalkFulls(levels: Levels, path: Position, kids: seq<Node>)
    requires levels.Ok() && |path| < levels.maxLevel
    requires forall i {:trigger kids[i]} :: 0 <= i < |kids| ==> Shaped(levels, kids[i].children, |path| + 1)
    ensures FullsOf(levels, Walk(path, kids)) == Continued(LeavesOf(path), LeafPathsOf(kids))
    decreases kids, |kids|
  {
    if kids != [] {
      var k, rest := kids[0], kids[1..];
      NodeFulls(levels, path, k);
      WalkFulls(levels, path, rest);
      FullsOfAppend(levels, [path + [k]] + Walk(path + [k], k.children), Walk(path, rest));
      assert kids == [k] + rest;
      LeafPathsCons(k, rest);
      ContinuedAppend(LeavesOf(path), LeafPaths(k), LeafPathsOf(rest));
    }
  }

  lemma {:induction false} NodeFulls(levels: Levels, path: Position, k: Node)
    requires levels.Ok() && |path| < levels.maxLevel && Shaped(levels, k.children, |path| + 1)
    ensures FullsOf(levels, [path + [k]] + Walk(path + [k], k.children)) == Continued(LeavesOf(path), LeafPaths(k))
    decreases k, 0
  {
    var p := path + [k];
    FullsOfAppend(levels, [p], Walk(p, k.children));
    FullsOfOne(levels, p);
    assert LeavesOf(p) == LeavesOf(path) + [k.leaf];
    if |p| < levels.maxLevel {
      WalkFulls(levels, p, k.children);
      Relocate(LeavesOf(path), k, k.children);
    } else {
      assert Walk(p, k.children) == [] && LeafPaths(k) == [[k.leaf]];
      assert FullsOf(levels, []) == [];
    }
  }

  lemma {:induction false} ContinuedAppend(from: seq<Leaf>, a: seq<seq<Leaf>>, b: seq<seq<Leaf>>)
    ensures Continued(from, a + b) == Continued(from, a) + Continued(from, b)
  {
  }

  lemma {:induction false} Relocate(from: seq<Leaf>, k: Node, kids: seq<Node>)
    requires k.children == kids != []
    ensures Continued(from + [k.leaf], LeafPathsOf(kids)) == Continued(from, LeafPaths(k))
  {
    forall i | 0 <= i < |LeafPathsOf(kids)|
      ensures (from + [k.leaf]) + LeafPathsOf(kids)[i] == from + LeafPaths(k)[i]
    {
    }
  }

  // ----- the last pending position is complete -----

  ghost predicate EndsFull(levels: Levels, items: seq<Position>) {
    items != [] ==> |items[|items| - 1]| == levels.maxLevel
  }

  lemma {:induction false} EndsLast(levels: Levels, items: seq<Position>)
    requires levels.Ok() && items != [] && |items[|items| - 1]| == levels.maxLevel
    ensures Ends(levels, items) != [] && Ends(levels, items)[|Ends(levels, items)| - 1] == items[|items| - 1]
    decreases |items|
  {
    if |items| > 1 {
      EndsLast(levels, items[1..]);
    }
  }

  lemma {:induction false} WalkLast(levels: Levels, path: Position, kids: seq<Node>)
    requires levels.Ok() && |path| < levels.maxLevel && kids != []
    requires forall i {:trigger kids[i]} :: 0 <= i < |kids| ==> Shaped(levels, kids[i].children, |path| + 1)
    ensures Walk(path, kids) != [] && |Walk(path, kids)[|Walk(path, kids)| - 1]| == levels.maxLevel
    decreases kids, |kids|
  {
    var p := path + [kids[0]];
    assert Shaped(levels, kids[0].children, |p|);
    if |kids| > 1 {
      WalkLast(levels, path, kids[1..]);
    } else if |p| < levels.maxLevel {
      WalkLast(levels, p, kids[0].children);
      assert Walk(path, kids[1..]) == [];
    } else {
      assert Walk(p, kids[0].children) == [] && Walk(path, kids[1..]) == [];
    }
  }

  lemma {:induction false} FullAtEnd(levels: Levels, items: seq<Position>)
    requires items != [] && EndsFull(levels, items)
    ensures Fulls(levels, items) != []
  {
  }

  // ----- where one task ends and the next begins -----

  /** One task takes items: each of its groups had room, and the first group left over, if any, has none. */
  ghost predicate Cut(levels: Levels, left: seq<Position>, items: seq<Position>, rest: seq<Position>, takenOver: bool,
                      capacity: nat, numVertices: nat) {
    && left == items + rest && HadRoom(levels, items, takenOver, capacity, numVertices)
    && (rest != [] ==> Full(levels, items, takenOver, rest[0], capacity, numVertices))
  }

  /** No two cuts of the same groups differ: what a task takes is settled by the groups that are left. */
  lemma {:induction false} CutOnce(levels: Levels, left: seq<Position>, items: seq<Position>, rest: seq<Position>,
                                   items': seq<Position>, rest': seq<Position>, takenOver: bool, capacity: nat,
                                   numVertices: nat)
    requires Cut(levels, left, items, rest, takenOver, capacity, numVertices)
    requires Cut(levels, left, items', rest', takenOver, capacity, numVertices)
    requires takenOver ==> items != [] && items' != []
    ensures items == items' && rest == rest'
  {
    if |items| < |items'| {
      NoLonger(levels, left, items, rest, items', rest', takenOver, capacity, numVertices);
    } else if |items'| < |items| {
      NoLonger(levels, left, items', rest', items, rest, takenOver, capacity, numVertices);
    } else {
      assert items == left[..|items|] == items';
      assert rest == left[|items|..] == rest';
    }
  }

  /** A longer stretch of the same groups would hold one that had no room. */
  lemma {:induction false} NoLonger(levels: Levels, left: seq<Position>, items: seq<Position>, rest: seq<Position>,
                                    items': seq<Position>, rest': seq<Position>, takenOver: bool, capacity: nat,
                                    numVertices: nat)
    requires Cut(levels, left, items, rest, takenOver, capacity, numVertices)
    requires left == items' + rest' && |items| < |items'| && (takenOver ==> items != [])
    ensures !HadRoom(levels, items', takenOver, capacity, numVertices)
  {
    var n := |items|;
    assert items'[n] == left[n] == rest[0];
    assert items'[..n] == left[..n] == items;
  }

  ghost function SizesOf(paths: seq<seq<Leaf>>): nat {
    if paths == [] then 0 else SizesOf(paths[..|paths| - 1]) + SizeSum(paths[|paths| - 1])
  }

  lemma {:induction false} NeedsBelow(levels: Levels, items: seq<Position>, p: Position)
    ensures SizesOf(Fulls(levels, items)) + Needs(levels, items, p) <= SizesOf(Fulls(levels, items + [p]))
  {
    FullsSnoc(levels, items, p);
    var fulls := Fulls(levels, items);
    if |p| == levels.maxLevel {
      RequiredBelow(LeavesOf(p), UidsIn(fulls));
      assert (fulls + [LeavesOf(p)])[..|fulls|] == fulls;
    } else {
      assert fulls + [] == fulls;
    }
  }

  /** No more is reckoned than all complete paths together would take. */
  lemma {:induction false} UsedBelow(levels: Levels, items: seq<Position>, takenOver: bool)
    ensures UsedBy(levels, items, takenOver) <= SizesOf(Fulls(levels, items))
    decreases |items|
  {
    if items != [] {
      var last := |items| - 1;
      assert items == items[..last] + [items[last]];
      if takenOver && last == 0 {
        OneFulls(levels, items[0]);
        NewBelow(LeavesOf(items[0]), {});
        RequiredBelow(LeavesOf(items[0]), {});
        assert |items[0]| == levels.maxLevel ==> SizesOf([LeavesOf(items[0])]) == SizeSum(LeavesOf(items[0]));
      } else {
        UsedBelow(levels, items[..last], takenOver);
        NeedsBelow(levels, items[..last], items[last]);
      }
    }
  }

  lemma {:induction false} PathsAppend(a: seq<seq<Leaf>>, b: seq<seq<Leaf>>)
    ensures SizesOf(a) <= SizesOf(a + b) && UidsIn(a) <= UidsIn(a + b)
    decreases |b|
  {
    if b == [] {
      assert a + b == a;
    } else {
      var last := |b| - 1;
      assert (a + b)[..|a + b| - 1] == a + b[..last];
      PathsAppend(a, b[..last]);
    }
  }

  lemma {:induction false} CardMono(a: set<nat>, b: set<nat>)
    requires a <= b
    ensures |a| <= |b|
  {
    assert b == a + (b - a);
    assert |b| == |a| + |b - a|;
  }

  /** While all groups left stay below the marks, none of them is refused. */
  lemma {:induction false} RoomBelowMarks(levels: Levels, items: seq<Position>, rest: seq<Position>, takenOver: bool,
                                          capacity: nat, numVertices: nat)
    requires rest != [] && capacity > 0
    requires SizesOf(Fulls(levels, items + rest)) <= 9 * (capacity / 10)
    requires |UidsIn(Fulls(levels, items + rest))| <= 270
    requires numVertices * |Fulls(levels, items + rest)| + 1 <= 450
    ensures !Full(levels, items, takenOver, rest[0], capacity, numVertices)
  {
    var before, more := Fulls(levels, items), Fulls(levels, items + [rest[0]]);
    assert items + rest == (items + [rest[0]]) + rest[1..];
    FullsAppend(levels, items, rest);
    FullsAppend(levels, items + [rest[0]], rest[1..]);
    PathsAppend(before, Fulls(levels, rest));
    PathsAppend(more, Fulls(levels, rest[1..]));
    UsedBelow(levels, items, takenOver);
    NeedsBelow(levels, items, rest[0]);
    CardMono(UidsIn(before), UidsIn(before + Fulls(levels, rest)));
    Product(numVertices, |before|, |before + Fulls(levels, rest)|);
  }

  lemma {:induction false} Product(n: nat, a: nat, b: nat)
    requires a <= b
    ensures n * a <= n * b
  {
  }

  /** If all groups left stay below the three marks together, a single task takes them all. */
  lemma {:induction false} OneTaskTakesAll(levels: Levels, left: seq<Position>, items: seq<Position>,
                                           rest: seq<Position>, takenOver: bool, capacity: nat, numVertices: nat)
    requires Cut(levels, left, items, rest, takenOver, capacity, numVertices) && capacity > 0
    requires SizesOf(Fulls(levels, left)) <= 9 * (capacity / 10) && |UidsIn(Fulls(levels, left))| <= 270
    requires numVertices * |Fulls(levels, left)| + 1 <= 450
    ensures rest == [] && items == left
  {
    if rest != [] {
      RoomBelowMarks(levels, items, rest, takenOver, capacity, numVertices);
    }
  }

  // ----- the iterator object -----

  /** What one call hands back. */
  datatype Popped = Popped(task: Task, infos: seq<TreeInfo>, used: nat)

  /** The call packed exactly the given positions. */
  ghost predicate IsTaskOf(levels: Levels, items: seq<Position>, takenOver: bool, t: Popped, capacity: nat) {
    exists cache {:trigger Packs(levels, items, takenOver, t.task, cache, t.infos, t.used, capacity)} ::
      Packs(levels, items, takenOver, t.task, cache, t.infos, t.used, capacity)
  }

  /** Task i packs part i; all but the first take over a pending group. */
  ghost predicate TasksAre(levels: Levels, parts: seq<seq<Position>>, ts: seq<Popped>, capacity: nat) {
    && |ts| == |parts|
    && forall i: nat {:trigger TaskAt(levels, parts, ts, capacity, i)} :: i < |ts| ==>
         TaskAt(levels, parts, ts, capacity, i)
  }

  ghost predicate TaskAt(levels: Levels, parts: seq<seq<Position>>, ts: seq<Popped>, capacity: nat, i: nat) {
    i < |ts| == |parts| && ts[i].used != 0 && IsTaskOf(levels, parts[i], i > 0, ts[i], capacity)
  }

  lemma {:induction false} TasksSnoc(levels: Levels, parts: seq<seq<Position>>, ts: seq<Popped>, capacity: nat,
                                     part: seq<Position>, t: Popped)
    requires TasksAre(levels, parts, ts, capacity) && t.used != 0 && IsTaskOf(levels, part, |ts| > 0, t, capacity)
    ensures TasksAre(levels, parts + [part], ts + [t], capacity)
  {
    forall i: nat {:trigger TaskAt(levels, parts + [part], ts + [t], capacity, i)} | i < |ts + [t]|
      ensures TaskAt(levels, parts + [part], ts + [t], capacity, i)
    {
      if i < |ts| {
        assert TaskAt(levels, parts, ts, capacity, i);
      }
    }
  }

  /** Part i was cut where the next part, or what is left after the last one, begins. */
  ghost predicate CutAt(levels: Levels, parts: seq<seq<Position>>, left: seq<Position>, capacity: nat,
                        numVertices: nat, i: nat) {
    && i < |parts| && HadRoom(levels, parts[i], i > 0, capacity, numVertices)
    && (i + 1 < |parts| ==>
          parts[i + 1] != [] && Full(levels, parts[i], i > 0, parts[i + 1][0], capacity, numVertices))
    && (i + 1 == |parts| && left != [] ==> Full(levels, parts[i], i > 0, left[0], capacity, numVertices))
  }

  /** All tasks of a run so far took as many groups as there was room for. */
  ghost predicate CutsAre(levels: Levels, parts: seq<seq<Position>>, left: seq<Position>, capacity: nat,
                          numVertices: nat) {
    forall i: nat {:trigger CutAt(levels, parts, left, capacity, numVertices, i)} :: i < |parts| ==>
      CutAt(levels, parts, left, capacity, numVertices, i)
  }

  lemma {:induction false} CutsSnoc(levels: Levels, parts: seq<seq<Position>>, left: seq<Position>,
                                    items: seq<Position>, left': seq<Position>, capacity: nat, numVertices: nat)
    requires CutsAre(levels, parts, left, capacity, numVertices) && items != []
    requires Cut(levels, left, items, left', |parts| > 0, capacity, numVertices)
    ensures CutsAre(levels, parts + [items], left', capacity, numVertices)
  {
    forall i: nat {:trigger CutAt(levels, parts + [items], left', capacity, numVertices, i)} | i < |parts + [items]|
      ensures CutAt(levels, parts + [items], left', capacity, numVertices, i)
    {
      if i < |parts| {
        assert CutAt(levels, parts, left, capacity, numVertices, i);
        assert (parts + [items])[i] == parts[i];
        assert items[0] == left[0];
      }
    }
  }

  class SchedPlanTree {
    const levels: Levels
    ghost const root: Node
    const numVertices: nat
    var stk: seq<Track>
    var tmp: Option<Group>
    var group: Option<Group>
    ghost var at: Position

    constructor (levels: Levels, root: Node, numVertices: nat)
      requires levels.Ok() && Shaped(levels, root.children, 0)
      ensures Inv() && group.None? && this.levels == levels && this.numVertices == numVertices
      ensures LeftNow() == Ends(levels, Walk([], root.children))
    {
      this.levels, this.root, this.numVertices := levels, root, numVertices;
      stk, tmp, group, at := [Track(root, 0)], None, None, [];
      new;
      StartRest(root);
    }

    ghost predicate Inv()
      reads this
    {
      levels.Ok() && IteratorOk(levels, root, stk, tmp, group, at)
    }

    /** The positions whose groups are not in any task yet. */
    ghost function LeftNow(): seq<Position>
      requires levels.Ok()
      reads this
    {
      Left(levels, stk, tmp, group, at)
    }

    /**
     * The next task. The groups packed are the first ones left, a group left pending by the call before among them;
     * a call returns 0 exactly when none are left.
     */
    method PopSingleKernelTask(capacity: nat, initial: bool) returns (t: Popped, ghost items: seq<Position>)
      requires Inv() && capacity > 0
      requires FitsBuffer(levels, LeftNow(), capacity) && EndsFull(levels, LeftNow())
      requires initial ==> group.None?
      requires !initial && group.None? ==> LeftNow() == []
      modifies this
      ensures Inv()
      ensures old(LeftNow()) == items + LeftNow()
      ensures group.None? ==> LeftNow() == []
      ensures t.used == 0 <==> old(LeftNow()) == []
      ensures old(LeftNow()) != [] ==> items != [] && IsTaskOf(levels, items, !initial, t, capacity)
      ensures Cut(levels, old(LeftNow()), items, LeftNow(), !initial, capacity, numVertices)
      ensures t.used == UsedBy(levels, items, !initial)
    {
      var task, cache: set<nat>, infos, used := Task([], []), {}, [], 0;
      items := [];
      if !initial {
        if group.None? {
          return Popped(task, infos, used), items;
        }
        BufferParts(levels, LeftNow(), at, Pending(levels, stk, tmp), capacity);
        task, cache, infos, used := TakeOver(levels, group.value, at, capacity);
        items := [at];
      }
      stk, tmp, group, at, items, task, infos, cache, used :=
        PackGroups(levels, root, numVertices, capacity, !initial, stk, tmp, items, task, cache, infos, used);
      t := Popped(task, infos, used);
      Worked(levels, old(LeftNow()), items, LeftNow(), group.None?, !initial, t, cache, capacity);
    }

    /** The whole run: tasks until a call returns 0. */
    method PopAll(capacity: nat) returns (ts: seq<Popped>, ghost parts: seq<seq<Position>>)
      requires Inv() && capacity > 0 && group.None?
      requires FitsBuffer(levels, LeftNow(), capacity) && EndsFull(levels, LeftNow())
      modifies this
      ensures TasksAre(levels, parts, ts, capacity) && AllParts(parts) == old(LeftNow())
      ensures AllSubtasks(ts) == Fulls(levels, old(LeftNow()))
      ensures CutsAre(levels, parts, [], capacity, numVertices)
    {
      ghost var all := LeftNow();
      ts, parts := [], [];
      var initial, more := true, true;
      NothingJoined(all);
      while more
        invariant Inv() && FitsBuffer(levels, LeftNow(), capacity) && EndsFull(levels, LeftNow())
        invariant initial <==> ts == []
        invariant initial ==> group.None?
        invariant !initial && group.None? ==> LeftNow() == []
        invariant !more ==> LeftNow() == []
        invariant TasksAre(levels, parts, ts, capacity) && Split(parts, LeftNow(), all)
        invariant CutsAre(levels, parts, LeftNow(), capacity, numVertices)
        decreases more, |LeftNow()|
      {
        ghost var left := LeftNow();
        ghost var items;
        var t;
        t, items := PopSingleKernelTask(capacity, initial);
        if t.used == 0 {
          more := false;
          SplitDone(parts, left, items, LeftNow(), all);
        } else {
          TasksSnoc(levels, parts, ts, capacity, items, t);
          CutsSnoc(levels, parts, left, items, LeftNow(), capacity, numVertices);
          OneMore(levels, parts, items, LeftNow(), left, all, capacity);
          ts, parts, initial := ts + [t], parts + [items], false;
        }
      }
      SplitAll(parts, LeftNow(), all);
      SubtasksOfParts(levels, ts, parts, capacity);
    }
  }

  ghost predicate Split(parts: seq<seq<Position>>, left: seq<Position>, all: seq<Position>) {
    AllParts(parts) + left == all
  }

  lemma {:induction false} NothingJoined(all: seq<Position>)
    ensures Split([], all, all)
  {
  }

  lemma {:induction false} SplitDone(parts: seq<seq<Position>>, left: seq<Position>, items: seq<Position>,
                                     left': seq<Position>, all: seq<Position>)
    requires Split(parts, left, all) && left == items + left' && left == []
    ensures Split(parts, left', all) && left' == []
  {
  }

  lemma {:induction false} SplitAll(parts: seq<seq<Position>>, left: seq<Position>, all: seq<Position>)
    requires Split(parts, left, all) && left == []
    ensures AllParts(parts) == all
  {
  }

  ghost function AllParts(parts: seq<seq<Position>>): seq<Position> {
    if parts == [] then [] else AllParts(parts[..|parts| - 1]) + parts[|parts| - 1]
  }

  /** The subtasks of all tasks, one after another. */
  ghost function AllSubtasks(ts: seq<Popped>): seq<seq<Leaf>> {
    if ts == [] then [] else AllSubtasks(ts[..|ts| - 1]) + ts[|ts| - 1].task.subtasks
  }

  lemma {:induction false} StartRest(root: Node)
    ensures Rest([Track(root, 0)]) == Walk([], root.children)
  {
    var stk := [Track(root, 0)];
    assert PathOf(stk) == [] && root.children[0..] == root.children && stk[..0] == [];
  }

  lemma {:induction false} Worked(levels: Levels, left0: seq<Position>, items: seq<Position>, left: seq<Position>,
                                  done: bool,
                                  takenOver: bool, t: Popped, cache: set<nat>, capacity: nat)
    requires left0 == items + left && EndsFull(levels, left0) && (done ==> left == []) && (!done ==> t.used != 0)
    requires Packs(levels, items, takenOver, t.task, cache, t.infos, t.used, capacity)
    ensures t.used == 0 <==> left0 == []
    ensures left0 != [] ==> items != [] && IsTaskOf(levels, items, takenOver, t, capacity)
  {
    if done && left0 != [] {
      assert items == left0;
      FullAtEnd(levels, items);
    }
  }

  lemma {:induction false} OneMore(levels: Levels, parts: seq<seq<Position>>, items: seq<Position>, left: seq<Position>,
                                   left0: seq<Position>, all: seq<Position>, capacity: nat)
    requires Split(parts, left0, all) && left0 == items + left && items != []
    requires FitsBuffer(levels, left0, capacity) && EndsFull(levels, left0)
    ensures Split(parts + [items], left, all) && |left| < |left0|
    ensures FitsBuffer(levels, left, capacity) && EndsFull(levels, left)
  {
    assert (parts + [items])[..|parts|] == parts;
    forall i {:trigger left[i]} | 0 <= i < |left| && |left[i]| == levels.maxLevel
      ensures PathFits(LeavesOf(left[i]), capacity)
    {
      assert left[i] == left0[|items| + i];
    }
  }

  lemma {:induction false} SubtasksOfParts(levels: Levels, ts: seq<Popped>, parts: seq<seq<Position>>, capacity: nat)
    requires TasksAre(levels, parts, ts, capacity)
    ensures AllSubtasks(ts) == Fulls(levels, AllParts(parts))
    decreases |ts|
  {
    if ts != [] {
      var last := |ts| - 1;
      forall i: nat {:trigger TaskAt(levels, parts[..last], ts[..last], capacity, i)} | i < last
        ensures TaskAt(levels, parts[..last], ts[..last], capacity, i)
      {
        assert TaskAt(levels, parts, ts, capacity, i);
      }
      SubtasksOfParts(levels, ts[..last], parts[..last], capacity);
      assert TaskAt(levels, parts, ts, capacity, last);
      FullsAppend(levels, AllParts(parts[..last]), parts[last]);
    }
  }

  /** Over a whole run the subtasks are the tree's leaf paths in pre-order, each once. */
  lemma {:induction false} RunIsLeafPaths(levels: Levels, root: Node, all: seq<seq<Leaf>>)
    requires levels.Ok() && Shaped(levels, root.children, 0)
    requires all == Fulls(levels, Ends(levels, Walk([], root.children)))
    ensures all == LeafPathsOf(root.children)
    ensures EndsFull(levels, Ends(levels, Walk([], root.children)))
  {
    WalkFulls(levels, [], root.children);
    assert LeavesOf([]) == [];
    forall i | 0 <= i < |LeafPathsOf(root.children)|
      ensures [] + LeafPathsOf(root.children)[i] == LeafPathsOf(root.children)[i]
    {
    }
    WalkLast(levels, [], root.children);
    EndsLast(levels, Walk([], root.children));
  }
}
