/** Packing the groups of the walk into kernel tasks under a byte capacity, each shard loaded once per task. */
module TaskPackers {
  import opened Machine
  import opened QueryGraphs
  import opened Grids
  import opened PlanTrees
  import opened PlanWalks

  /** A group's vertex level, and how many subtasks were complete before it. */
  datatype TreeInfo = TreeInfo(vlevel: nat, subtask: nat)

  /** total lists the task's distinct shards, subtasks the shards of its complete paths. */
  datatype Task = Task(total: seq<Leaf>, subtasks: seq<seq<Leaf>>)

  // ----- what a stretch of groups amounts to -----

  ghost function Fulls(levels: Levels, items: seq<Position>): seq<seq<Leaf>> {
    if items == [] then []
    else Fulls(levels, items[..|items| - 1])
         + if |items[|items| - 1]| == levels.maxLevel then [LeavesOf(items[|items| - 1])] else []
  }

  function VertexLevel(levels: Levels, l: nat): nat {
    if 1 <= l <= |levels.vlevel| then levels.vlevel[l - 1] + 1 else 0
  }

  /**
   * The infos of a task whose groups are items; a task that takes over a pending group starts with that group's
   * ancestors.
   */
  ghost function Infos(levels: Levels, items: seq<Position>, takenOver: bool): seq<TreeInfo> {
    if items == [] then []
    else
      var last := |items| - 1;
      if takenOver && last == 0 then Ancestors(VertexLevel(levels, |items[0]|))
      else Infos(levels, items[..last], takenOver)
           + [TreeInfo(VertexLevel(levels, |items[last]|), |Fulls(levels, items[..last])|)]
  }

  ghost function Ancestors(l: nat): (infos: seq<TreeInfo>)
    ensures |infos| == l && forall i :: 0 <= i < l ==> infos[i] == TreeInfo(i + 1, 0)
  {
    seq(l, i requires 0 <= i < l => TreeInfo(i + 1, 0))
  }

  // ----- sizes -----

  ghost function SizeSum(leaves: seq<Leaf>): nat {
    if leaves == [] then 0 else SizeSum(leaves[..|leaves| - 1]) + leaves[|leaves| - 1].size
  }

  /** What the shards not yet cached need, counting repeats. */
  ghost function Required(leaves: seq<Leaf>, cache: set<nat>): nat {
    if leaves == [] then 0
    else Required(leaves[..|leaves| - 1], cache) + if leaves[|leaves| - 1].uid in cache then 0
        else leaves[|leaves| - 1].size
  }

  lemma {:induction false} RequiredBelow(leaves: seq<Leaf>, cache: set<nat>)
    ensures Required(leaves, cache) <= SizeSum(leaves)
    decreases |leaves|
  {
    if leaves != [] {
      RequiredBelow(leaves[..|leaves| - 1], cache);
    }
  }

  lemma {:induction false} SumsMono(leaves: seq<Leaf>, cache: set<nat>, n: nat)
    requires n <= |leaves|
    ensures Required(leaves[..n], cache) <= Required(leaves, cache) && SizeSum(leaves[..n]) <= SizeSum(leaves)
    decreases |leaves|
  {
    if n == |leaves| {
      assert leaves[..n] == leaves;
    } else {
      var last := |leaves| - 1;
      SumsMono(leaves[..last], cache, n);
      assert leaves[..last][..n] == leaves[..n];
    }
  }

  /** The 32-bit sum of the uncached shards' sizes. */
  method RequiredSize(leaves: seq<Leaf>, cache: set<nat>) returns (required: nat)
    requires SizeSum(leaves) < TWO_32
    ensures required == Required(leaves, cache)
  {
    required := 0;
    var i := 0;
    while i < |leaves|
      invariant 0 <= i <= |leaves| && required == Required(leaves[..i], cache)
    {
      assert leaves[..i + 1][..i] == leaves[..i];
      RequiredBelow(leaves, cache);
      SumsMono(leaves, cache, i + 1);
      if leaves[i].uid !in cache {
        required := U32(required + leaves[i].size);
      }
      i := i + 1;
    }
    assert leaves[..i] == leaves;
  }

  // ----- the shards of a task -----

  ghost predicate DistinctUids(leaves: seq<Leaf>) {
    forall i, j :: 0 <= i < j < |leaves| ==> leaves[i].uid != leaves[j].uid
  }

  ghost function Uids(leaves: seq<Leaf>): set<nat> {
    set i: nat | i < |leaves| :: leaves[i].uid
  }

  /** total holds each cached shard once. */
  ghost predicate Cached(total: seq<Leaf>, cache: set<nat>) {
    DistinctUids(total) && cache == Uids(total)
  }

  lemma {:induction false} UidsSnoc(total: seq<Leaf>, leaf: Leaf)
    ensures Uids(total + [leaf]) == Uids(total) + {leaf.uid}
  {
    var all := total + [leaf];
    forall u
      ensures u in Uids(all) <==> u in Uids(total) || u == leaf.uid
    {
      if u in Uids(total) {
        var i: nat :| i < |total| && total[i].uid == u;
        assert all[i].uid == u;
      }
      if u == leaf.uid {
        assert all[|total|].uid == u;
      }
    }
  }

  lemma {:induction false} AddOne(total: seq<Leaf>, cache: set<nat>, leaf: Leaf)
    requires Cached(total, cache) && leaf.uid !in cache
    ensures Cached(total + [leaf], cache + {leaf.uid})
    ensures SizeSum(total + [leaf]) == SizeSum(total) + leaf.size
  {
    UidsSnoc(total, leaf);
    assert (total + [leaf])[..|total|] == total;
    forall i | 0 <= i < |total|
      ensures total[i].uid != leaf.uid
    {
      assert total[i].uid in Uids(total);
    }
  }

  /** All shards of the path are cached. */
  ghost predicate Covers(cache: set<nat>, leaves: seq<Leaf>) {
    forall i {:trigger leaves[i]} :: 0 <= i < |leaves| ==> leaves[i].uid in cache
  }

  ghost predicate AllFrom(leaves: seq<Leaf>, total: seq<Leaf>, total': seq<Leaf>) {
    |total| <= |total'| && total'[..|total|] == total
    && forall i {:trigger total'[i]} :: |total| <= i < |total'| ==> total'[i] in leaves
  }

  lemma {:induction false} AddedFrom(leaves: seq<Leaf>, i: nat, total: seq<Leaf>, total': seq<Leaf>)
    requires i < |leaves| && AllFrom(leaves, total, total')
    ensures AllFrom(leaves, total, total' + [leaves[i]])
  {
  }

  /** What the shards not yet cached take when each is loaded once. */
  ghost function NewSize(leaves: seq<Leaf>, cache: set<nat>): nat {
    if leaves == [] then 0
    else
      var init, leaf := leaves[..|leaves| - 1], leaves[|leaves| - 1];
      NewSize(init, cache) + if leaf.uid in cache || leaf.uid in Uids(init) then 0 else leaf.size
  }

  lemma {:induction false} NewNext(leaves: seq<Leaf>, i: nat, cache: set<nat>)
    requires i < |leaves|
    ensures Uids(leaves[..i + 1]) == Uids(leaves[..i]) + {leaves[i].uid}
    ensures NewSize(leaves[..i + 1], cache)
         == NewSize(leaves[..i], cache)
            + if leaves[i].uid in cache || leaves[i].uid in Uids(leaves[..i]) then 0 else leaves[i].size
  {
    assert leaves[..i + 1] == leaves[..i] + [leaves[i]];
    UidsSnoc(leaves[..i], leaves[i]);
  }

  lemma {:induction false} NewBelow(leaves: seq<Leaf>, cache: set<nat>)
    ensures NewSize(leaves, cache) <= Required(leaves, cache)
    decreases |leaves|
  {
    if leaves != [] {
      NewBelow(leaves[..|leaves| - 1], cache);
    }
  }

  lemma {:induction false} UidsCover(leaves: seq<Leaf>, cache: set<nat>)
    requires Uids(leaves) <= cache
    ensures Covers(cache, leaves)
  {
    forall i {:trigger leaves[i]} | 0 <= i < |leaves|
      ensures leaves[i].uid in cache
    {
      assert leaves[i].uid in Uids(leaves);
    }
  }

  /** Loads the path's shards that are not cached yet; added is what they take. */
  method AddShards(leaves: seq<Leaf>, total: seq<Leaf>, cache: set<nat>)
    returns (total': seq<Leaf>, cache': set<nat>, added: nat)
    requires Cached(total, cache)
    ensures Cached(total', cache') && cache <= cache' && Covers(cache', leaves) && AllFrom(leaves, total, total')
    ensures SizeSum(total') == SizeSum(total) + added && added <= Required(leaves, cache)
    ensures cache' == cache + Uids(leaves) && added == NewSize(leaves, cache)
  {
    total', cache', added := total, cache, 0;
    var i := 0;
    while i < |leaves|
      invariant 0 <= i <= |leaves|
      invariant Cached(total', cache') && AllFrom(leaves, total, total') && SizeSum(total') == SizeSum(total) + added
      invariant cache' == cache + Uids(leaves[..i]) && added == NewSize(leaves[..i], cache)
    {
      NewNext(leaves, i, cache);
      if leaves[i].uid !in cache' {
        AddOne(total', cache', leaves[i]);
        AddedFrom(leaves, i, total, total');
        cache' := cache' + {leaves[i].uid};
        added := added + leaves[i].size;
        total' := total' + [leaves[i]];
      }
      i := i + 1;
    }
    assert leaves[..i] == leaves;
    UidsCover(leaves, cache');
    NewBelow(leaves, cache);
  }

  // ----- one task -----

  /** Each complete path fits the buffer, with room in 32 bits, and no shard is empty. */
  ghost predicate FitsBuffer(levels: Levels, items: seq<Position>, capacity: nat) {
    forall i {:trigger items[i]} :: 0 <= i < |items| && |items[i]| == levels.maxLevel ==>
          PathFits(LeavesOf(items[i]), capacity)
  }

  ghost predicate PathFits(leaves: seq<Leaf>, capacity: nat) {
    SizeSum(leaves) < capacity && SizeSum(leaves) < TWO_32
    && forall i {:trigger leaves[i]} :: 0 <= i < |leaves| ==> leaves[i].size > 0
  }

  ghost predicate AllCovered(cache: set<nat>, subtasks: seq<seq<Leaf>>) {
    forall k {:trigger subtasks[k]} :: 0 <= k < |subtasks| ==> Covers(cache, subtasks[k])
  }

  ghost predicate AllUsed(total: seq<Leaf>, subtasks: seq<seq<Leaf>>) {
    forall i {:trigger total[i]} :: 0 <= i < |total| ==> InSome(total[i], subtasks)
  }

  ghost predicate InSome(leaf: Leaf, subtasks: seq<seq<Leaf>>) {
    exists k: nat {:trigger subtasks[k]} :: k < |subtasks| && leaf in subtasks[k]
  }

  /** The task packs exactly the given groups: their complete paths in order, and each of their shards once. */
  ghost predicate Packs(levels: Levels, items: seq<Position>, takenOver: bool, task: Task, cache: set<nat>,
                        infos: seq<TreeInfo>, used: nat, capacity: nat) {
    && task.subtasks == Fulls(levels, items)
    && infos == Infos(levels, items, takenOver)
    && Cached(task.total, cache) && AllCovered(cache, task.subtasks) && AllUsed(task.total, task.subtasks)
    && SizeSum(task.total) <= used < capacity
    && (used == 0 <==> task.subtasks == []) && (used != 0 ==> items != [])
  }

  // ----- when a task is full -----

  /** The shards that the given paths load. */
  ghost function UidsIn(subtasks: seq<seq<Leaf>>): set<nat> {
    if subtasks == [] then {} else UidsIn(subtasks[..|subtasks| - 1]) + Uids(subtasks[|subtasks| - 1])
  }

  /** What the group that closes at p is reckoned to take after items: its path's shards not loaded by theirs. */
  ghost function Needs(levels: Levels, items: seq<Position>, p: Position): nat {
    if |p| == levels.maxLevel then Required(LeavesOf(p), UidsIn(Fulls(levels, items))) else 0
  }

  /** The bytes reckoned for the groups; the distinct shards alone count for a group taken over. */
  ghost function UsedBy(levels: Levels, items: seq<Position>, takenOver: bool): nat {
    if items == [] then 0
    else
      var last := |items| - 1;
      if takenOver && last == 0 then if |items[0]| == levels.maxLevel then NewSize(LeavesOf(items[0]), {}) else 0
      else UsedBy(levels, items[..last], takenOver) + Needs(levels, items[..last], items[last])
  }

  /**
   * After items there is no room for the group that closes at p: its shards would fill the buffer, or a new first
   * vertex would begin with nine tenths of the bytes, of the 300 shards or of the 500 tree nodes already passed.
   */
  ghost predicate Full(levels: Levels, items: seq<Position>, takenOver: bool, p: Position, capacity: nat,
                       numVertices: nat) {
    || UsedBy(levels, items, takenOver) + Needs(levels, items, p) >= capacity
    || (1 <= |p| <= |levels.vlevel| && levels.vlevel[|p| - 1] == 0
        && (UsedBy(levels, items, takenOver) > 9 * (capacity / 10)
            || |UidsIn(Fulls(levels, items))| > 270
            || numVertices * |Fulls(levels, items)| + 1 > 450))
  }

  /** Every group had room when it was packed; a group taken over is packed in any case. */
  ghost predicate HadRoom(levels: Levels, items: seq<Position>, takenOver: bool, capacity: nat, numVertices: nat) {
    forall n: nat {:trigger items[n]} :: n < |items| && (takenOver ==> n > 0) ==>
      !Full(levels, items[..n], takenOver, items[n], capacity, numVertices)
  }

  ghost predicate Accounted(levels: Levels, items: seq<Position>, takenOver: bool, cache: set<nat>, used: nat) {
    cache == UidsIn(Fulls(levels, items)) && used == UsedBy(levels, items, takenOver)
  }

  lemma {:induction false} HadRoomSnoc(levels: Levels, items: seq<Position>, takenOver: bool, p: Position,
                                       capacity: nat, numVertices: nat)
    requires HadRoom(levels, items, takenOver, capacity, numVertices)
    requires !Full(levels, items, takenOver, p, capacity, numVertices)
    ensures HadRoom(levels, items + [p], takenOver, capacity, numVertices)
  {
    var items' := items + [p];
    forall n: nat {:trigger items'[n]} | n < |items'| && (takenOver ==> n > 0)
      ensures !Full(levels, items'[..n], takenOver, items'[n], capacity, numVertices)
    {
      assert items'[..n] == items[..n];
      assert n < |items| ==> items'[n] == items[n];
      assert items[..|items|] == items;
    }
  }

  lemma {:induction false} AccountedSnoc(levels: Levels, items: seq<Position>, takenOver: bool, cache: set<nat>,
                                         used: nat, p: Position, cache': set<nat>)
    requires Accounted(levels, items, takenOver, cache, used) && (takenOver ==> items != [])
    requires cache' == if |p| == levels.maxLevel then cache + Uids(LeavesOf(p)) else cache
    ensures Accounted(levels, items + [p], takenOver, cache', used + Needs(levels, items, p))
  {
    FullsSnoc(levels, items, p);
    assert (items + [p])[..|items|] == items;
    var fulls := Fulls(levels, items);
    assert |p| == levels.maxLevel ==> (fulls + [LeavesOf(p)])[..|fulls|] == fulls;
    assert fulls + [] == fulls;
  }

  lemma {:induction false} AccountedOne(levels: Levels, p: Position, cache: set<nat>, used: nat)
    requires cache == if |p| == levels.maxLevel then Uids(LeavesOf(p)) else {}
    requires used == if |p| == levels.maxLevel then NewSize(LeavesOf(p), {}) else 0
    ensures Accounted(levels, [p], true, cache, used)
  {
    assert [p][..0] == [] && Fulls(levels, []) == [];
    var fulls := Fulls(levels, [p]);
    assert fulls == if |p| == levels.maxLevel then [LeavesOf(p)] else [];
    assert |p| == levels.maxLevel ==> fulls[..0] == [] && UidsIn([]) == {};
  }

  lemma {:induction false} FullsSnoc(levels: Levels, items: seq<Position>, p: Position)
    ensures Fulls(levels, items + [p]) == Fulls(levels, items) + if |p| == levels.maxLevel then [LeavesOf(p)] else []
  {
    assert (items + [p])[..|items|] == items;
  }

  lemma {:induction false} InfosSnoc(levels: Levels, items: seq<Position>, p: Position, takenOver: bool)
    requires takenOver ==> items != []
    ensures Infos(levels, items + [p], takenOver)
         == Infos(levels, items, takenOver) + [TreeInfo(VertexLevel(levels, |p|), |Fulls(levels, items)|)]
  {
    assert (items + [p])[..|items|] == items;
  }

  lemma {:induction false} UsedStill(total: seq<Leaf>, subtasks: seq<seq<Leaf>>, leaves: seq<Leaf>, total': seq<Leaf>)
    requires AllUsed(total, subtasks) && AllFrom(leaves, total, total')
    ensures AllUsed(total', subtasks + [leaves])
  {
    forall i {:trigger total'[i]} | 0 <= i < |total'|
      ensures InSome(total'[i], subtasks + [leaves])
    {
      if i < |total| {
        assert total'[i] == total'[..|total|][i] == total[i];
        var k: nat :| k < |subtasks| && total[i] in subtasks[k];
        assert (subtasks + [leaves])[k] == subtasks[k];
      } else {
        assert (subtasks + [leaves])[|subtasks|] == leaves;
      }
    }
  }

  lemma {:induction false} CoveredStill(cache: set<nat>, cache': set<nat>, subtasks: seq<seq<Leaf>>, leaves: seq<Leaf>)
    requires AllCovered(cache, subtasks) && cache <= cache' && Covers(cache', leaves)
    ensures AllCovered(cache', subtasks + [leaves])
  {
    forall k {:trigger (subtasks + [leaves])[k]} | 0 <= k < |subtasks + [leaves]|
      ensures Covers(cache', (subtasks + [leaves])[k])
    {
      if k < |subtasks| {
        assert (subtasks + [leaves])[k] == subtasks[k];
      }
    }
  }

  /** The shards of a complete path joined to the task. */
  method AddSubtask(task: Task, cache: set<nat>, leaves: seq<Leaf>) returns (task': Task, cache': set<nat>, added: nat)
    requires Cached(task.total, cache) && AllCovered(cache, task.subtasks) && AllUsed(task.total, task.subtasks)
    ensures task'.subtasks == task.subtasks + [leaves]
    ensures Cached(task'.total, cache') && AllCovered(cache', task'.subtasks) && AllUsed(task'.total, task'.subtasks)
    ensures SizeSum(task'.total) == SizeSum(task.total) + added && added <= Required(leaves, cache)
    ensures cache' == cache + Uids(leaves) && added == NewSize(leaves, cache)
  {
    var total;
    total, cache', added := AddShards(leaves, task.total, cache);
    task' := Task(total, task.subtasks + [leaves]);
    UsedStill(task.total, task.subtasks, leaves, total);
    CoveredStill(cache, cache', task.subtasks, leaves);
  }

  lemma {:induction false} PositiveSum(leaves: seq<Leaf>)
    requires leaves != [] && forall i {:trigger leaves[i]} :: 0 <= i < |leaves| ==> leaves[i].size > 0
    ensures SizeSum(leaves) > 0
  {
    assert SizeSum(leaves) >= leaves[|leaves| - 1].size;
  }

  lemma {:induction false} EmptyCacheNeedsAll(leaves: seq<Leaf>)
    ensures Required(leaves, {}) == SizeSum(leaves)
    decreases |leaves|
  {
    if leaves != [] {
      EmptyCacheNeedsAll(leaves[..|leaves| - 1]);
    }
  }

  /** A task that uses no bytes has no shards. */
  lemma {:induction false} UnusedIsEmpty(levels: Levels, items: seq<Position>, takenOver: bool, task: Task,
                                         cache: set<nat>,
                                         infos: seq<TreeInfo>, used: nat, capacity: nat)
    requires Packs(levels, items, takenOver, task, cache, infos, used, capacity) && used == 0
    ensures task.total == [] && cache == {}
  {
    if task.total != [] {
      UsedBySome(task.total, task.subtasks);
    }
  }

  lemma {:induction false} UsedBySome(total: seq<Leaf>, subtasks: seq<seq<Leaf>>)
    requires total != [] && AllUsed(total, subtasks)
    ensures subtasks != []
  {
    assert InSome(total[0], subtasks);
  }

  /** A group taken over from the task before starts the new one. */
  method TakeOver(levels: Levels, g: Group, ghost p: Position, capacity: nat)
    returns (task: Task, cache: set<nat>, infos: seq<TreeInfo>, used: nat)
    requires levels.Ok() && GroupIs(levels, g, p) && FitsBuffer(levels, [p], capacity) && capacity > 0
    ensures Packs(levels, [p], true, task, cache, infos, used, capacity) && Accounted(levels, [p], true, cache, used)
  {
    infos := [];
    var i, l := 1, VertexLevel(levels, g.maxLevel);
    while i <= l
      invariant 1 <= i <= l + 1 && infos == Ancestors(i - 1)
    {
      infos := infos + [TreeInfo(i, 0)];
      i := i + 1;
    }
    task, cache, used := Task([], []), {}, 0;
    if g.leaves.Some? {
      assert PathFits(LeavesOf([p][0]), capacity);
      task, cache, used := TakePath(g.leaves.value, capacity);
    }
    OneFulls(levels, p);
    AccountedOne(levels, p, cache, used);
  }

  lemma {:induction false} OneFulls(levels: Levels, p: Position)
    ensures Fulls(levels, [p]) == if |p| == levels.maxLevel then [LeavesOf(p)] else []
  {
    FullsSnoc(levels, [], p);
    assert [] + [p] == [p];
  }

  /** A task that starts with one complete path. */
  method TakePath(leaves: seq<Leaf>, ghost capacity: nat) returns (task: Task, cache: set<nat>, used: nat)
    requires PathFits(leaves, capacity) && leaves != []
    ensures task.subtasks == [leaves] && cache == Uids(leaves) && used == NewSize(leaves, {})
    ensures Cached(task.total, cache) && AllCovered(cache, task.subtasks) && AllUsed(task.total, task.subtasks)
    ensures SizeSum(task.total) == used && 0 < used < capacity
  {
    RequiredBelow(leaves, {});
    task, cache, used := AddSubtask(Task([], []), {}, leaves);
    assert task.subtasks == [leaves] && Covers(cache, task.subtasks[0]);
    TakenIsUsed(leaves, task.total, cache, used);
  }

  lemma {:induction false} TakenIsUsed(leaves: seq<Leaf>, total: seq<Leaf>, cache: set<nat>, used: nat)
    requires Cached(total, cache) && SizeSum(total) == used && leaves != [] && Covers(cache, leaves)
             && AllUsed(total, [leaves])
    requires forall i {:trigger leaves[i]} :: 0 <= i < |leaves| ==> leaves[i].size > 0
    ensures used > 0
  {
    assert leaves[0].uid in Uids(total);
    forall i {:trigger total[i]} | 0 <= i < |total|
      ensures total[i].size > 0
    {
      assert InSome(total[i], [leaves]);
    }
    PositiveSum(total);
  }

  /** The packer stops before the group g. */
  predicate Stops(levels: Levels, g: Group, required: nat, used: nat, capacity: nat, cached: nat, numVertices: nat,
                  numSubtasks: nat) {
    || required + used >= capacity
    || (VertexLevel(levels, g.minLevel) == 1
        && (used > capacity / 10 * 9
            || cached > MAX_SHARDS_PER_ITER / 10 * 9
            || numVertices * numSubtasks + 1 > MAX_TREE_NODES / 10 * 9))
  }

  /** It never stops with nothing packed: the assertion at the break holds. */
  lemma {:induction false} StopsUsed(levels: Levels, items: seq<Position>, takenOver: bool, task: Task, cache: set<nat>,
                                     infos: seq<TreeInfo>, used: nat, capacity: nat, g: Group, required: nat,
                                     numVertices: nat)
    requires Packs(levels, items, takenOver, task, cache, infos, used, capacity) && required < capacity
    requires Stops(levels, g, required, used, capacity, |cache|, numVertices, |task.subtasks|)
    ensures used != 0
  {
    if used == 0 {
      UnusedIsEmpty(levels, items, takenOver, task, cache, infos, used, capacity);
    }
  }

  /** The test agrees with what the task's groups amount to. */
  lemma {:induction false} StopsIfFull(levels: Levels, items: seq<Position>, takenOver: bool, task: Task,
                                       cache: set<nat>, used: nat, capacity: nat, g: Group, p: Position, required: nat,
                                       numVertices: nat)
    requires levels.Ok() && GroupIs(levels, g, p) && Accounted(levels, items, takenOver, cache, used)
    requires task.subtasks == Fulls(levels, items)
    requires required == if g.leaves.Some? then Required(g.leaves.value, cache) else 0
    ensures Stops(levels, g, required, used, capacity, |cache|, numVertices, |task.subtasks|)
            <==> Full(levels, items, takenOver, p, capacity, numVertices)
  {
    assert VertexLevel(levels, g.minLevel) == levels.vlevel[|p| - 1] + 1;
    assert required == Needs(levels, items, p);
  }

  /** One more group packed. */
  method AddGroup(levels: Levels, ghost items: seq<Position>, ghost takenOver: bool, task: Task, cache: set<nat>,
                  infos: seq<TreeInfo>,
                  used: nat, ghost capacity: nat, g: Group, ghost p: Position, required: nat)
    returns (task': Task, cache': set<nat>, infos': seq<TreeInfo>, used': nat)
    requires levels.Ok() && GroupIs(levels, g, p) && Packs(levels, items, takenOver, task, cache, infos, used, capacity)
    requires takenOver ==> items != []
    requires required == (if g.leaves.Some? then Required(g.leaves.value, cache) else 0) && required + used < capacity
    requires FitsBuffer(levels, [p], capacity) && Accounted(levels, items, takenOver, cache, used)
    ensures Packs(levels, items + [p], takenOver, task', cache', infos', used', capacity)
    ensures Accounted(levels, items + [p], takenOver, cache', used')
  {
    FullsSnoc(levels, items, p);
    InfosSnoc(levels, items, p, takenOver);
    infos' := infos + [TreeInfo(VertexLevel(levels, g.maxLevel), |task.subtasks|)];
    used' := used + required;
    task', cache' := task, cache;
    if g.leaves.Some? {
      var leaves := g.leaves.value;
      assert PathFits(LeavesOf([p][0]), capacity);
      if used' == 0 {
        UnusedIsEmpty(levels, items, takenOver, task, cache, infos, used, capacity);
        EmptyCacheNeedsAll(leaves);
        PositiveSum(leaves);
      }
      var added;
      task', cache', added := AddSubtask(task, cache, leaves);
    }
    AccountedSnoc(levels, items, takenOver, cache, used, p, cache');
  }

  // ----- packing until the buffer is full or the walk is over -----

  ghost function Left(levels: Levels, stk: seq<Track>, tmp: Option<Group>, group: Option<Group>,
                      at: Position): seq<Position>
    requires levels.Ok()
  {
    if group.Some? then [at] + Pending(levels, stk, tmp) else Pending(levels, stk, tmp)
  }

  /** The iterator between tasks: at is where the group left pending closes. */
  ghost predicate IteratorOk(levels: Levels, root: Node, stk: seq<Track>, tmp: Option<Group>, group: Option<Group>,
                             at: Position)
    requires levels.Ok()
  {
    && WalkOk(levels, root, stk, tmp)
    && (group.Some? ==> GroupIs(levels, group.value, at) && IsEnd(levels, at))
  }

  lemma {:induction false} BufferParts(levels: Levels, items: seq<Position>, p: Position, rest: seq<Position>,
                                       capacity: nat)
    requires FitsBuffer(levels, items, capacity) && items != [] && p == items[0] && rest == items[1..]
    ensures items == [p] + rest && FitsBuffer(levels, [p], capacity) && FitsBuffer(levels, rest, capacity)
  {
    assert |p| == levels.maxLevel ==> PathFits(LeavesOf(items[0]), capacity);
    forall i {:trigger rest[i]} | 0 <= i < |rest| && |rest[i]| == levels.maxLevel
      ensures PathFits(LeavesOf(rest[i]), capacity)
    {
      assert rest[i] == items[i + 1];
    }
  }

  /** The next group of the walk and what is pending after it. */
  method NextPending(levels: Levels, ghost root: Node, stk: seq<Track>, tmp: Option<Group>, ghost capacity: nat)
    returns (stk': seq<Track>, tmp': Option<Group>, g: Option<Group>, ghost p: Position)
    requires levels.Ok() && WalkOk(levels, root, stk, tmp) && FitsBuffer(levels, Pending(levels, stk, tmp), capacity)
    ensures WalkOk(levels, root, stk', tmp') && FitsBuffer(levels, Pending(levels, stk', tmp'), capacity)
    ensures g.None? ==> Pending(levels, stk, tmp) == [] && Pending(levels, stk', tmp') == []
    ensures g.Some? ==>
              && Pending(levels, stk, tmp) == [p] + Pending(levels, stk', tmp')
              && GroupIs(levels, g.value, p) && IsEnd(levels, p) && FitsBuffer(levels, [p], capacity)
  {
    ghost var before := Pending(levels, stk, tmp);
    stk', tmp', g := PopGridGroup(levels, root, stk, tmp);
    p := [];
    if g.Some? {
      p := before[0];
      BufferParts(levels, before, p, Pending(levels, stk', tmp'), capacity);
    }
  }

  /** Packs one group, or finds that it does not fit. */
  method PackOne(levels: Levels, numVertices: nat, capacity: nat, ghost takenOver: bool, g: Group, ghost p: Position,
                 ghost items: seq<Position>, task: Task, cache: set<nat>, infos: seq<TreeInfo>, used: nat)
    returns (stop: bool, task': Task, cache': set<nat>, infos': seq<TreeInfo>, used': nat)
    requires levels.Ok() && GroupIs(levels, g, p) && FitsBuffer(levels, [p], capacity) && capacity > 0
    requires Packs(levels, items, takenOver, task, cache, infos, used, capacity) && (takenOver ==> items != [])
    requires Accounted(levels, items, takenOver, cache, used)
    ensures stop <==> Full(levels, items, takenOver, p, capacity, numVertices)
    ensures !stop ==> Accounted(levels, items + [p], takenOver, cache', used')
    ensures stop ==> used != 0 && task' == task && cache' == cache && infos' == infos && used' == used
    ensures !stop ==> Packs(levels, items + [p], takenOver, task', cache', infos', used', capacity)
  {
    task', cache', infos', used' := task, cache, infos, used;
    var required := RequiredOf(levels, g, p, cache, capacity);
    stop := Stops(levels, g, required, used, capacity, |cache|, numVertices, |task.subtasks|);
    StopsIfFull(levels, items, takenOver, task, cache, used, capacity, g, p, required, numVertices);
    if stop {
      StopsUsed(levels, items, takenOver, task, cache, infos, used, capacity, g, required, numVertices);
    } else {
      task', cache', infos', used' := AddGroup(levels, items, takenOver, task, cache, infos, used, capacity, g, p,
            required);
    }
  }

  /**
   * The groups of the walk are packed one after another: each had room, and the first that has none is left pending.
   */
  method PackGroups(levels: Levels, ghost root: Node, numVertices: nat, capacity: nat, ghost takenOver: bool,
                    stk0: seq<Track>, tmp0: Option<Group>, ghost items0: seq<Position>,
                    task0: Task, cache0: set<nat>, infos0: seq<TreeInfo>, used0: nat)
    returns (stk: seq<Track>, tmp: Option<Group>, group: Option<Group>, ghost at: Position, ghost items: seq<Position>,
             task: Task, infos: seq<TreeInfo>, cache: set<nat>, used: nat)
    requires levels.Ok() && WalkOk(levels, root, stk0, tmp0) && capacity > 0 && (takenOver ==> items0 != [])
    requires Packs(levels, items0, takenOver, task0, cache0, infos0, used0, capacity)
    requires FitsBuffer(levels, Pending(levels, stk0, tmp0), capacity)
    requires Accounted(levels, items0, takenOver, cache0, used0)
             && HadRoom(levels, items0, takenOver, capacity, numVertices)
    ensures IteratorOk(levels, root, stk, tmp, group, at)
    ensures items0 + Pending(levels, stk0, tmp0) == items + Left(levels, stk, tmp, group, at)
    ensures Packs(levels, items, takenOver, task, cache, infos, used, capacity)
    ensures group.None? ==> Left(levels, stk, tmp, group, at) == []
    ensures group.Some? ==> used != 0
    ensures used == UsedBy(levels, items, takenOver) && HadRoom(levels, items, takenOver, capacity, numVertices)
    ensures group.Some? ==> Full(levels, items, takenOver, at, capacity, numVertices)
  {
    stk, tmp, group, at, items := stk0, tmp0, None, [], items0;
    task, infos, used, cache := task0, infos0, used0, cache0;
    var more := true;
    while more
      invariant WalkOk(levels, root, stk, tmp) && (takenOver ==> items != [])
      invariant Packs(levels, items, takenOver, task, cache, infos, used, capacity)
      invariant items0 + Pending(levels, stk0, tmp0) == items + Left(levels, stk, tmp, group, at)
      invariant FitsBuffer(levels, Pending(levels, stk, tmp), capacity)
      invariant more ==> group.None?
      invariant !more && group.None? ==> Pending(levels, stk, tmp) == []
      invariant group.Some? ==> used != 0 && GroupIs(levels, group.value, at) && IsEnd(levels, at)
      invariant Accounted(levels, items, takenOver, cache, used)
                && HadRoom(levels, items, takenOver, capacity, numVertices)
      invariant group.Some? ==> Full(levels, items, takenOver, at, capacity, numVertices)
      decreases more, |Pending(levels, stk, tmp)|
    {
      var g;
      ghost var p;
      ghost var left := Pending(levels, stk, tmp);
      stk, tmp, g, p := NextPending(levels, root, stk, tmp, capacity);
      if g.None? {
        more := false;
      } else {
        var stop;
        stop, task, cache, infos, used := PackOne(levels, numVertices, capacity, takenOver, g.value, p, items, task,
              cache, infos, used);
        if stop {
          group, at, more := g, p, false;
        } else {
          Regroup(items, p, Pending(levels, stk, tmp));
          HadRoomSnoc(levels, items, takenOver, p, capacity, numVertices);
          items := items + [p];
        }
      }
    }
  }

  lemma {:induction false} Regroup(items: seq<Position>, p: Position, left: seq<Position>)
    ensures items + ([p] + left) == (items + [p]) + left
  {
  }

  /** What the group needs on top of what is cached. */
  method RequiredOf(levels: Levels, g: Group, ghost p: Position, cache: set<nat>, ghost capacity: nat)
    returns (required: nat)
    requires levels.Ok() && GroupIs(levels, g, p) && FitsBuffer(levels, [p], capacity) && capacity > 0
    ensures required == if g.leaves.Some? then Required(g.leaves.value, cache) else 0
    ensures required < capacity
  {
    required := 0;
    if g.leaves.Some? {
      assert PathFits(LeavesOf([p][0]), capacity);
      RequiredBelow(g.leaves.value, cache);
      required := RequiredSize(g.leaves.value, cache);
    }
  }
}
