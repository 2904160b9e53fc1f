/** The set intersection at one depth: loading slot lists, choosing the pivot, testing and collecting candidates. */
module Intersections {
  import opened Machine
  import opened Sequences
  import opened Shards

  // ----- slot lists -----

  /**
   * The list a slot contributes: the row list for the list ids of earlier endpoints (below numEdges), and for those of
   * later endpoints the adjacency list of the value already matched at the other end.
   */
  function SlotList(e: nat, shard: Shard, numEdges: nat, lv0Dep: seq<nat>, a: seq<nat>): seq<nat>
    requires e >= numEdges ==> e - numEdges < |lv0Dep| && lv0Dep[e - numEdges] < |a|
  {
    if e < numEdges then shard.rows else shard.Adj(a[lv0Dep[e - numEdges]])
  }

  ghost predicate AllValid(joined: seq<Shard>) {
    forall j {:trigger joined[j].Valid()} :: 0 <= j < |joined| ==> joined[j].Valid()
  }

  ghost predicate SlotsLookBack(es: seq<nat>, numEdges: nat, lv0Dep: seq<nat>, d: nat) {
    && |lv0Dep| == numEdges
    && forall j :: 0 <= j < |es| ==>
         es[j] < 2 * numEdges && (es[j] >= numEdges ==> lv0Dep[es[j] - numEdges] < d)
  }

  ghost function SlotLists(es: seq<nat>, joined: seq<Shard>, numEdges: nat, lv0Dep: seq<nat>,
                           a: seq<nat>): (lists: seq<seq<nat>>)
    requires |es| == |joined| && SlotsLookBack(es, numEdges, lv0Dep, |a|)
    ensures |lists| == |es|
    ensures forall j :: 0 <= j < |es| ==> lists[j] == SlotList(es[j], joined[j], numEdges, lv0Dep, a)
  {
    seq(|es|, j requires 0 <= j < |es| => SlotList(es[j], joined[j], numEdges, lv0Dep, a))
  }

  /** Slot lists are strictly sorted lists of 24-bit ids. */
  ghost predicate ListsOk(lists: seq<seq<nat>>) {
    forall j {:trigger ListOk(lists[j])} :: 0 <= j < |lists| ==> ListOk(lists[j])
  }

  ghost predicate ListOk(list: seq<nat>) {
    StrictlySorted(list) && forall i :: 0 <= i < |list| ==> list[i] < VERTICES_PER_GRID
  }

  lemma {:induction false} SlotListsOk(es: seq<nat>, joined: seq<Shard>, numEdges: nat, lv0Dep: seq<nat>, a: seq<nat>)
    requires |es| == |joined| && SlotsLookBack(es, numEdges, lv0Dep, |a|)
    requires AllValid(joined)
    ensures ListsOk(SlotLists(es, joined, numEdges, lv0Dep, a))
    ensures forall j :: 0 <= j < |es| && es[j] < numEdges ==> SlotLists(es, joined, numEdges, lv0Dep, a)[j] != []
  {
    var lists := SlotLists(es, joined, numEdges, lv0Dep, a);
    forall j | 0 <= j < |es|
      ensures ListOk(lists[j])
    {
      assert joined[j].Valid();
      RowsBounded(joined[j]);
    }
    forall j | 0 <= j < |es| && es[j] < numEdges
      ensures lists[j] != []
    {
      assert joined[j].Valid();
    }
  }

  lemma {:induction false} RowsBounded(shard: Shard)
    requires shard.Valid()
    ensures forall i :: 0 <= i < |shard.rows| ==> shard.rows[i] < VERTICES_PER_GRID
  {
    forall i | 0 <= i < |shard.rows|
      ensures shard.rows[i] < VERTICES_PER_GRID
    {
      assert shard.rows[i] in shard.rows;
      assert shard.Adj(shard.rows[i]) != [];
    }
  }

  /**
   * The slots joined at one depth: their list ids, which are negative, how many may be the pivot, and the values the
   * NOT_EQUAL constraints forbid.
   */
  datatype Join = Join(es: seq<nat>, negative: seq<bool>, numPivots: nat, exclude: seq<nat>) {

    ghost predicate Ok() {
      && |negative| == |es| && NoDup(es)
      && 1 <= numPivots <= |es|
      && forall j :: 0 <= j < |es| ==> (negative[j] <==> j >= numPivots)
    }

    /** v is in every regular list, in no negative one, and not excluded. */
    ghost predicate Passes(lists: seq<seq<nat>>, v: nat) {
      && (forall j :: 0 <= j < |lists| ==> (v in lists[j] <==> j < numPivots))
      && v !in exclude
    }

    ghost function Passing(lists: seq<seq<nat>>): iset<nat> {
      iset v: nat | Passes(lists, v)
    }
  }

  // ----- iterator windows -----

  /** What an iterator window [mn, mx] of an array still holds. */
  ghost function Window(arr: seq<nat>, mn: nat, mx: nat): seq<nat> {
    if mn <= mx < |arr| then arr[mn..mx + 1] else []
  }

  /** The window [mn, mx] of arr is exactly list; an empty list leaves mn == mx + 1. */
  ghost predicate Loaded(list: seq<nat>, arr: seq<nat>, mn: nat, mx: nat) {
    && |arr| <= 0x8000_0000
    && mn <= mx + 1 && mx + 1 - mn == |list| && mx < |arr|
    && list == Window(arr, mn, mx)
  }

  ghost predicate AllLoaded(lists: seq<seq<nat>>, es: seq<nat>, arrs: seq<seq<nat>>, mn: seq<nat>, mx: seq<nat>,
                            skip: int) {
    && |lists| <= |es|
    && |arrs| == |mn| == |mx|
    && (forall j :: 0 <= j < |es| ==> es[j] < |arrs|)
    && forall j {:trigger Loaded(lists[j], arrs[es[j]], mn[es[j]], mx[es[j]])} :: 0 <= j < |lists| && j != skip ==>
         Loaded(lists[j], arrs[es[j]], mn[es[j]], mx[es[j]])
  }

  /** Sets up array, window and length of every joined slot. */
  method LoadLists(es: seq<nat>, joined: seq<Shard>, numEdges: nat, lv0Dep: seq<nat>, a: seq<nat>,
                   arrs: seq<seq<nat>>, mn: seq<nat>, mx: seq<nat>)
    returns (arrs': seq<seq<nat>>, mn': seq<nat>, mx': seq<nat>, vidGap: seq<nat>)
    requires |es| == |joined| && SlotsLookBack(es, numEdges, lv0Dep, |a|) && NoDup(es)
    requires AllValid(joined)
    requires |arrs| == |mn| == |mx| == 2 * numEdges
    ensures |arrs'| == |mn'| == |mx'| == 2 * numEdges
    ensures AllLoaded(SlotLists(es, joined, numEdges, lv0Dep, a), es, arrs', mn', mx', -1)
    ensures |vidGap| == |es|
    ensures forall j :: 0 <= j < |es| ==> vidGap[j] == |SlotLists(es, joined, numEdges, lv0Dep, a)[j]|
    ensures forall e :: 0 <= e < 2 * numEdges && e !in es ==> arrs'[e] == arrs[e]
    ensures forall j :: 0 <= j < |es| && es[j] < numEdges ==> mn'[es[j]] == 0
  {
    ghost var lists := SlotLists(es, joined, numEdges, lv0Dep, a);
    arrs', mn', mx', vidGap := arrs, mn, mx, [];
    var i := 0;
    while i < |es|
      invariant 0 <= i <= |es|
      invariant |arrs'| == |mn'| == |mx'| == 2 * numEdges
      invariant |vidGap| == i
      invariant forall j :: 0 <= j < i ==> vidGap[j] == |lists[j]|
      invariant AllLoaded(lists[..i], es, arrs', mn', mx', -1)
      invariant forall e :: 0 <= e < 2 * numEdges && e !in es ==> arrs'[e] == arrs[e]
      invariant forall j :: 0 <= j < i && es[j] < numEdges ==> mn'[es[j]] == 0
    {
      var e := es[i];
      var arr, lo, gap := LoadOne(e, joined, i, numEdges, lv0Dep, a);
      var hi := U32(lo + gap - 1);
      LoadedSnoc(lists, es, i, arrs', mn', mx', arr, lo, hi);
      arrs', mn', mx', vidGap := arrs'[e := arr], mn'[e := lo], mx'[e := hi], vidGap + [gap];
      i := i + 1;
    }
    assert lists[..i] == lists;
  }

  lemma {:induction false} LoadedSnoc(lists: seq<seq<nat>>, es: seq<nat>, i: nat, arrs: seq<seq<nat>>, mn: seq<nat>,
                                      mx: seq<nat>,
                   arr: seq<nat>, lo: nat, hi: nat)
    requires i < |lists| <= |es| && NoDup(es)
    requires AllLoaded(lists[..i], es, arrs, mn, mx, -1)
    requires Loaded(lists[i], arr, lo, hi)
    ensures AllLoaded(lists[..i + 1], es, arrs[es[i] := arr], mn[es[i] := lo], mx[es[i] := hi], -1)
  {
    var arrs', mn', mx' := arrs[es[i] := arr], mn[es[i] := lo], mx[es[i] := hi];
    forall j | 0 <= j < i + 1
      ensures Loaded(lists[..i + 1][j], arrs'[es[j]], mn'[es[j]], mx'[es[j]])
    {
      if j < i {
        assert Loaded(lists[..i][j], arrs[es[j]], mn[es[j]], mx[es[j]]);
      }
    }
  }

  /** One slot: the decoded array, the first position and the length of its list. */
  method LoadOne(e: nat, joined: seq<Shard>, i: nat, numEdges: nat, lv0Dep: seq<nat>, a: seq<nat>)
    returns (arr: seq<nat>, lo: nat, gap: nat)
    requires AllValid(joined) && i < |joined|
    requires e >= numEdges ==> e - numEdges < |lv0Dep| && lv0Dep[e - numEdges] < |a|
    ensures 1 <= lo + gap <= TWO_32
    ensures e < numEdges ==> lo == 0
    ensures gap == |SlotList(e, joined[i], numEdges, lv0Dep, a)|
    ensures Loaded(SlotList(e, joined[i], numEdges, lv0Dep, a), arr, lo, lo + gap - 1)
  {
    var shard := joined[i];
    assert shard.Valid();
    if e < numEdges {
      arr, lo, gap := shard.rows, 0, shard.NumLists();
    } else {
      var adj := shard.AdjListVid(a[lv0Dep[e - numEdges]]);
      arr, lo, gap := shard.cols, adj.colptr, adj.length;
      assert shard.colptr[1] <= shard.colptr[|shard.colptr| - 1];
    }
  }

  // ----- the pivot -----

  /** Index of the first shortest among the first n lists. */
  ghost function FirstShortest(lists: seq<seq<nat>>, n: nat): (p: nat)
    requires 1 <= n <= |lists|
    ensures p < n
    ensures forall j :: 0 <= j < n ==> |lists[p]| <= |lists[j]|
    ensures forall j :: 0 <= j < p ==> |lists[p]| < |lists[j]|
  {
    if n == 1 then 0
    else
      var p := FirstShortest(lists, n - 1);
      if |lists[p]| > |lists[n - 1]| then n - 1 else p
  }

  /** The reduction over vid_gap and vid_gap_idx. */
  method PickPivot(vidGap: seq<nat>, n: nat, ghost lists: seq<seq<nat>>) returns (p: nat, gap: nat)
    requires 1 <= n <= |vidGap| == |lists|
    requires forall j :: 0 <= j < |lists| ==> vidGap[j] == |lists[j]|
    ensures p == FirstShortest(lists, n) && gap == |lists[p]|
  {
    p, gap := 0, vidGap[0];
    var i := 1;
    while i < n
      invariant 1 <= i <= n
      invariant p == FirstShortest(lists, i) && gap == |lists[p]|
    {
      if gap > vidGap[i] {
        gap, p := vidGap[i], i;
      }
      i := i + 1;
    }
  }

  // ----- testing one candidate -----

  method Excluded(exclude: seq<nat>, v: nat) returns (hit: bool)
    ensures hit <==> v in exclude
  {
    var i := 0;
    while i < |exclude|
      invariant 0 <= i <= |exclude|
      invariant v !in exclude[..i]
    {
      if v == exclude[i] {
        return true;
      }
      i := i + 1;
    }
    return false;
  }

  /** One list against one value; the negative form takes an empty window for absence. */
  method TestList(negative: bool, ghost list: seq<nat>, arr: seq<nat>, mn: nat, mx: nat, v: nat) returns (ok: bool)
    requires Loaded(list, arr, mn, mx) && ListOk(list)
    requires !negative ==> list != []
    ensures ok <==> (v in list <==> !negative)
  {
    var tmp;
    if !negative {
      ok, tmp := LowerBound(arr, v, mn, U32(mx + 1));
    } else if mn == U32(mx + 1) {
      ok := true;
    } else {
      ok, tmp := LowerBound(arr, v, mn, U32(mx + 1));
      ok := !ok;
    }
  }

  /** Every regular list is nonempty, so no binary search runs on an empty window. */
  ghost predicate RegularNonempty(lists: seq<seq<nat>>, numPivots: nat) {
    forall j :: 0 <= j < numPivots && j < |lists| ==> lists[j] != []
  }

  /** Tests a value of the pivot list p against every other list and the excluded values. */
  method Intersects(join: Join, ghost lists: seq<seq<nat>>,
                    arrs: seq<seq<nat>>, mn: seq<nat>, mx: seq<nat>, p: nat, v: nat) returns (intersect: bool)
    requires join.Ok() && |join.es| == |lists| && p < join.numPivots
    requires AllLoaded(lists, join.es, arrs, mn, mx, p) && ListsOk(lists) && RegularNonempty(lists, join.numPivots)
    requires v in lists[p]
    ensures intersect <==> join.Passes(lists, v)
  {
    var hit := Excluded(join.exclude, v);
    if hit {
      return false;
    }
    var j := 0;
    while j < |join.es|
      invariant 0 <= j <= |join.es|
      invariant forall i :: 0 <= i < j ==> (v in lists[i] <==> i < join.numPivots)
    {
      if j != p {
        var e := join.es[j];
        intersect := TestList(join.negative[j], lists[j], arrs[e], mn[e], mx[e], v);
        if !intersect {
          return;
        }
      }
      j := j + 1;
    }
    intersect := true;
  }

  // ----- collecting the candidates of a window -----

  /**
   * Tests the pivot positions lo..hi in any order, as the threads of a block do, and appends the survivors to a buffer.
   * The buffer ends up with exactly the passing values of the window, each once.
   */
  method Collect(join: Join, ghost lists: seq<seq<nat>>,
                 arrs: seq<seq<nat>>, mn: seq<nat>, mx: seq<nat>, p: nat, lo: nat, hi: nat, keep: bool,
                 buffer: seq<nat>)
    returns (size: nat, data: seq<nat>, ghost found: seq<nat>)
    requires join.Ok() && |join.es| == |lists| && p < join.numPivots
    requires AllLoaded(lists, join.es, arrs, mn, mx, p) && ListsOk(lists)
    requires lo <= hi <= |arrs[join.es[p]]|
    requires lo < hi ==> RegularNonempty(lists, join.numPivots)
    requires forall i :: lo <= i < hi ==> arrs[join.es[p]][i] in lists[p]
    requires StrictlySorted(arrs[join.es[p]][lo..hi])
    requires keep ==> |buffer| == SM_THRESHOLD && hi - lo <= SM_THRESHOLD
    ensures |found| == size <= hi - lo
    ensures |data| == |buffer|
    ensures keep ==> data[..size] == found
    ensures NoDup(found)
    ensures SameElements(found, FilterIn(join.Passing(lists), arrs[join.es[p]][lo..hi]))
  {
    var arr := arrs[join.es[p]];
    ghost var good := join.Passing(lists);
    var todo := Positions(lo, hi);
    size, data, found := 0, buffer, [];
    SortedInWindow(arr, lo, hi);
    while todo != {}
      invariant todo <= Positions(lo, hi)
      invariant size == |found| && size + |todo| <= hi - lo
      invariant |data| == |buffer|
      invariant keep ==> data[..size] == found
      invariant NoDup(found) && Gathered(arr, good, found, Positions(lo, hi) - todo)
      decreases todo
    {
      var i :| i in todo;
      var intersect := TestPosition(join, lists, arrs, mn, mx, p, lo, hi, i, found, todo);
      if intersect {
        if keep {
          WriteAt(data, size, arr[i]);
          data := data[size := arr[i]];
        }
        NoDupSnoc(found, arr[i]);
        found, size := found + [arr[i]], size + 1;
      }
      todo := todo - {i};
    }
    assert Positions(lo, hi) - todo == Positions(lo, hi);
    CollectedAll(arr, lo, hi, good, found);
  }

  /** One thread testing the value at pivot position i. */
  method TestPosition(join: Join, ghost lists: seq<seq<nat>>,
                      arrs: seq<seq<nat>>, mn: seq<nat>, mx: seq<nat>, p: nat,
                      ghost lo: nat, ghost hi: nat, i: nat, ghost found: seq<nat>, ghost todo: set<nat>)
    returns (intersect: bool)
    requires join.Ok() && |join.es| == |lists| && p < join.numPivots
    requires AllLoaded(lists, join.es, arrs, mn, mx, p) && ListsOk(lists) && RegularNonempty(lists, join.numPivots)
    requires lo <= hi <= |arrs[join.es[p]]| && i in todo && todo <= Positions(lo, hi)
    requires forall i :: lo <= i < hi ==> arrs[join.es[p]][i] in lists[p]
    requires forall i, j :: lo <= i < j < hi ==> arrs[join.es[p]][i] < arrs[join.es[p]][j]
    requires Gathered(arrs[join.es[p]], join.Passing(lists), found, Positions(lo, hi) - todo)
    ensures arrs[join.es[p]][i] !in found
    ensures Gathered(arrs[join.es[p]], join.Passing(lists),
                     if intersect then found + [arrs[join.es[p]][i]] else found, Positions(lo, hi) - (todo - {i}))
  {
    intersect := Intersects(join, lists, arrs, mn, mx, p, arrs[join.es[p]][i]);
    GatherOne(arrs[join.es[p]], lo, hi, join.Passing(lists), found, Positions(lo, hi) - todo, i);
    assert Positions(lo, hi) - (todo - {i}) == (Positions(lo, hi) - todo) + {i};
  }

  function Positions(lo: nat, hi: nat): (s: set<nat>)
    requires lo <= hi
    ensures |s| == hi - lo
    ensures forall i :: i in s <==> lo <= i < hi
    decreases hi - lo
  {
    if lo == hi then {} else Positions(lo, hi - 1) + {hi - 1}
  }

  ghost predicate Gathered(arr: seq<nat>, good: iset<nat>, found: seq<nat>, done: set<nat>) {
    forall v :: v in found <==> v in good && exists i :: i in done && i < |arr| && arr[i] == v
  }

  lemma {:induction false} GatherOne(arr: seq<nat>, lo: nat, hi: nat, good: iset<nat>, found: seq<nat>, done: set<nat>,
                                     i: nat)
    requires lo <= hi <= |arr| && i in Positions(lo, hi) && i !in done && done <= Positions(lo, hi)
    requires forall i, j :: lo <= i < j < hi ==> arr[i] < arr[j]
    requires Gathered(arr, good, found, done)
    ensures arr[i] !in found
    ensures Gathered(arr, good, if arr[i] in good then found + [arr[i]] else found, done + {i})
  {
    forall h | h in done
      ensures arr[h] != arr[i]
    {
      assert h in Positions(lo, hi);
    }
    var found' := if arr[i] in good then found + [arr[i]] else found;
    forall v
      ensures v in found' <==> v in good && exists h :: h in done + {i} && h < |arr| && arr[h] == v
    {
      if v == arr[i] {
        assert i in done + {i};
      } else if v in found {
        var h :| h in done && h < |arr| && arr[h] == v;
        assert h in done + {i};
      }
    }
  }

  lemma {:induction false} CollectedAll(arr: seq<nat>, lo: nat, hi: nat, good: iset<nat>, found: seq<nat>)
    requires lo <= hi <= |arr| && StrictlySorted(arr[lo..hi])
    requires Gathered(arr, good, found, Positions(lo, hi))
    ensures SameElements(found, FilterIn(good, arr[lo..hi]))
  {
    FilterElements(good, arr[lo..hi]);
    forall v
      ensures v in found <==> v in FilterIn(good, arr[lo..hi])
    {
      if v in arr[lo..hi] {
        var i :| 0 <= i < hi - lo && arr[lo..hi][i] == v;
        assert lo + i in Positions(lo, hi) && arr[lo + i] == v;
      }
      if v in found {
        var i :| i in Positions(lo, hi) && i < |arr| && arr[i] == v;
        assert arr[lo..hi][i - lo] == v;
      }
    }
  }

  // ----- one chunk of a pivot window -----

  /** The pivot window still holds `share`, part of the pivot list, and every other list is loaded. */
  ghost predicate Scannable(lists: seq<seq<nat>>, es: seq<nat>, arrs: seq<seq<nat>>, mn: seq<nat>, mx: seq<nat>, p: nat,
                            share: seq<nat>) {
    && AllLoaded(lists, es, arrs, mn, mx, p) && p < |lists|
    && WindowIs(arrs[es[p]], mn[es[p]], mx[es[p]], share)
    && PartOf(share, lists[p])
  }

  /** The positions mn..mx of arr hold share; with nothing left, mn is past mx. */
  ghost predicate WindowIs(arr: seq<nat>, mn: nat, mx: nat, share: seq<nat>) {
    && |arr| <= 0x8000_0000 && mx < |arr| && mn <= 0xC000_0000
    && (if share == [] then mn > mx else mn + |share| == mx + 1)
    && forall i {:trigger share[i]} :: 0 <= i < |share| ==> share[i] == arr[mn + i]
  }

  /** share is a stretch of list. */
  ghost predicate PartOf(share: seq<nat>, list: seq<nat>) {
    exists lo: nat :: IsStretch(share, list, lo)
  }

  ghost predicate IsStretch(share: seq<nat>, list: seq<nat>, lo: nat) {
    && lo + |share| <= |list|
    && forall i {:trigger share[i]} :: 0 <= i < |share| ==> share[i] == list[lo + i]
  }

  lemma {:induction false} PartOk(share: seq<nat>, list: seq<nat>)
    requires PartOf(share, list) && StrictlySorted(list)
    ensures StrictlySorted(share)
    ensures forall i :: 0 <= i < |share| ==> share[i] in list
  {
    var lo: nat :| IsStretch(share, list, lo);
    forall i | 0 <= i < |share|
      ensures share[i] in list
    {
      assert share[i] == list[lo + i];
    }
  }

  lemma {:induction false} PartOfPart(later: seq<nat>, share: seq<nat>, list: seq<nat>, i: nat)
    requires PartOf(share, list) && i <= |share| && later == share[i..]
    ensures PartOf(later, list)
  {
    var lo: nat :| IsStretch(share, list, lo);
    forall h | 0 <= h < |later|
      ensures later[h] == list[lo + i + h]
    {
      assert later[h] == share[i + h];
    }
    assert IsStretch(later, list, lo + i);
  }

  /** What a chunk of share leaves for later. */
  function LaterShare(share: seq<nat>): seq<nat> {
    share[Min(SM_THRESHOLD, |share|)..]
  }

  function ChunkOf(share: seq<nat>): seq<nat> {
    share[..Min(SM_THRESHOLD, |share|)]
  }

  lemma {:induction false} WindowSplit(arr: seq<nat>, mn: nat, mx: nat, share: seq<nat>)
    requires WindowIs(arr, mn, mx, share)
    ensures share != [] ==> ChunkOf(share) == arr[mn..Min(mx, mn + SM_THRESHOLD - 1) + 1]
    ensures share != [] ==> WindowIs(arr, mn + SM_THRESHOLD, mx, LaterShare(share))
    ensures mn + SM_THRESHOLD <= mx <==> LaterShare(share) != []
    ensures share != [] && LaterShare(share) != [] ==> mx + 1 - (mn + SM_THRESHOLD) == |LaterShare(share)|
  {
  }

  /** Scans the next chunk of the pivot window into the buffer and moves the window on. */
  method ScanChunk(join: Join, ghost lists: seq<seq<nat>>,
                   arrs: seq<seq<nat>>, mn: seq<nat>, mx: seq<nat>, p: nat, buffer: seq<nat>, ghost share: seq<nat>)
    returns (size: nat, data: seq<nat>, mn': seq<nat>)
    requires join.Ok() && |join.es| == |lists| && p < join.numPivots
    requires ListsOk(lists) && Scannable(lists, join.es, arrs, mn, mx, p, share)
    requires share != [] ==> RegularNonempty(lists, join.numPivots)
    requires |buffer| == SM_THRESHOLD
    ensures |data| == SM_THRESHOLD && size <= SM_THRESHOLD
    ensures NoDup(data[..size])
    ensures SameElements(data[..size], FilterIn(join.Passing(lists), ChunkOf(share)))
    ensures |mn'| == |mn| && (mn'[join.es[p]] <= mx[join.es[p]] <==> LaterShare(share) != [])
    ensures LaterShare(share) != [] ==>
              Scannable(lists, join.es, arrs, mn', mx, p, LaterShare(share))
              && mx[join.es[p]] + 1 - mn'[join.es[p]] == |LaterShare(share)| < |share|
  {
    var e := join.es[p];
    var first := mn[e];
    var maxValue := Min(mx[e], U32(first + SM_THRESHOLD - 1));
    size, data := 0, buffer;
    ghost var found: seq<nat> := [];
    assert ListOk(lists[p]);
    PartOk(share, lists[p]);
    PartOfPart(LaterShare(share), share, lists[p], Min(SM_THRESHOLD, |share|));
    WindowSplit(arrs[e], mn[e], mx[e], share);
    if first <= maxValue {
      assert ChunkOf(share) == arrs[e][first..maxValue + 1];
      forall i | first <= i < maxValue + 1
        ensures arrs[e][i] in lists[p]
      {
        assert ChunkOf(share)[i - first] == arrs[e][i];
        assert share[i - first] in lists[p];
      }
      size, data, found := Collect(join, lists, arrs, mn, mx, p, first, maxValue + 1, true, buffer);
    } else {
      assert share == [] && ChunkOf(share) == [];
    }
    mn' := mn[e := U32(first + SM_THRESHOLD)];
    MovedOn(lists, join.es, arrs, mn, mx, p, mn', mx);
  }

  /** Moving the pivot's window leaves the other lists loaded. */
  lemma {:induction false} MovedOn(lists: seq<seq<nat>>, es: seq<nat>, arrs: seq<seq<nat>>, mn: seq<nat>, mx: seq<nat>,
                                   p: nat,
                mn': seq<nat>, mx': seq<nat>)
    requires AllLoaded(lists, es, arrs, mn, mx, p) && p < |es| && NoDup(es)
    requires |mn'| == |mn| && forall e :: 0 <= e < |mn| && e != es[p] ==> mn'[e] == mn[e]
    requires |mx'| == |mx| && forall e :: 0 <= e < |mx| && e != es[p] ==> mx'[e] == mx[e]
    ensures AllLoaded(lists, es, arrs, mn', mx', p)
  {
  }

  // ----- the first intersection at a depth -----

  datatype IntersectionType = SHARED_MEMBUF | SINGLE | LAST

  /** Width of one block's slice of a pivot list. */
  function Gap(len: nat): nat {
    (len + MAX_BLOCKS - 1) / MAX_BLOCKS
  }

  function Slice(list: seq<nat>, lo: nat, hi: nat): seq<nat>
    requires lo <= hi
  {
    list[Min(lo, |list|)..Min(hi, |list|)]
  }

  /** The part of the pivot list a block works on: all of it below the root, its slice at the root. */
  function BlockShare(dep: nat, blockIdx: nat, list: seq<nat>): seq<nat> {
    if dep == 0 then Slice(list, Gap(|list|) * blockIdx, Gap(|list|) * blockIdx + Gap(|list|)) else list
  }

  /** Positions of the block's slice of a pivot window that starts at 0. */
  method SplitWindow(blockIdx: nat, ghost list: seq<nat>, arr: seq<nat>, mx: nat, gap0: nat)
    returns (mn': nat, mx': nat)
    requires Loaded(list, arr, 0, mx) && gap0 == |list| && list != []
    requires |list| <= VERTICES_PER_GRID && StrictlySorted(list) && blockIdx < 0x1_0000
    ensures WindowIs(arr, mn', mx', BlockShare(0, blockIdx, list))
  {
    var gap := U32(gap0 + MAX_BLOCKS - 1) / MAX_BLOCKS;
    GapBounds(gap0, blockIdx);
    mx' := Min(U32(gap * (blockIdx + 1)) - 1, mx);
    mn' := U32(gap * blockIdx);
    SliceIs(gap * blockIdx, gap * blockIdx + gap, list, arr);
  }

  lemma {:induction false} GapBounds(len: nat, b: nat)
    requires 1 <= len <= VERTICES_PER_GRID && b < 0x1_0000
    ensures 1 <= Gap(len)
    ensures Gap(len) * b < Gap(len) * (b + 1) == Gap(len) * b + Gap(len) <= 0x3000_0000
  {
    MulLe(Gap(len), b + 1, 4370, 0x1_0000);
    Expand(Gap(len), b);
  }

  lemma {:induction false} Expand(x: nat, b: nat)
    ensures x * (b + 1) == x * b + x
  {
  }

  lemma {:induction false} MulLe(x: nat, y: nat, u: nat, w: nat)
    requires x <= u && y <= w
    ensures x * y <= u * w
  {
    assert x * y <= u * y;
    assert u * y <= u * w;
  }

  lemma {:induction false} SliceIs(lo: nat, hi: nat, list: seq<nat>, arr: seq<nat>)
    requires 0 < |list| <= |arr| <= 0x8000_0000 && list == arr[0..|list|] && StrictlySorted(list)
    requires lo < hi && lo <= 0xC000_0000
    ensures WindowIs(arr, lo, Min(hi - 1, |list| - 1), Slice(list, lo, hi))
  {
  }

  /** The whole first pass: lists, pivot, and then one of the three ways to enumerate the candidates. */
  method SetIntersectionInitial(dep: nat, numVertices: nat, blockIdx: nat, join: Join, joined: seq<Shard>,
                                numEdges: nat,
                                lv0Dep: seq<nat>, a: seq<nat>, arrs: seq<seq<nat>>, mn: seq<nat>, mx: seq<nat>,
                                buffer: seq<nat>)
    returns (arrs': seq<seq<nat>>, mn': seq<nat>, mx': seq<nat>, size: nat, data: seq<nat>, isType: IntersectionType,
             p: nat)
    requires join.Ok() && |join.es| == |joined| && SlotsLookBack(join.es, numEdges, lv0Dep, |a|) && AllValid(joined)
    requires |arrs| == |mn| == |mx| == 2 * numEdges && |buffer| == SM_THRESHOLD
    requires dep == |a| < numVertices && numVertices >= 2 && blockIdx < 0x1_0000
    ensures |arrs'| == |mn'| == |mx'| == 2 * numEdges && |data| == SM_THRESHOLD
    ensures forall e :: 0 <= e < 2 * numEdges && e !in join.es ==> arrs'[e] == arrs[e]
    ensures p == FirstShortest(SlotLists(join.es, joined, numEdges, lv0Dep, a), join.numPivots)
    ensures isType.SINGLE? <==> dep != 0 && |join.es| == 1 && |join.exclude| == 0
    ensures isType.SINGLE? ==>
              SingleDone(join, SlotLists(join.es, joined, numEdges, lv0Dep, a), arrs', mn', p, size) && dep != 0
    ensures isType.LAST? ==>
              LastDone(join, SlotLists(join.es, joined, numEdges, lv0Dep, a), p, size) && dep == numVertices - 1
    ensures isType.SHARED_MEMBUF? ==>
              dep < numVertices - 1
              && ChunkDone(join, SlotLists(join.es, joined, numEdges, lv0Dep, a), arrs', mn', mx', p, size, data,
                        BlockShare(dep, blockIdx, SlotLists(join.es, joined, numEdges, lv0Dep, a)[p]))
  {
    ghost var lists := SlotLists(join.es, joined, numEdges, lv0Dep, a);
    SlotListsOk(join.es, joined, numEdges, lv0Dep, a);
    var vidGap, gap;
    arrs', mn', mx', vidGap := LoadLists(join.es, joined, numEdges, lv0Dep, a, arrs, mn, mx);
    p, gap := PickPivot(vidGap, join.numPivots, lists);
    data := buffer;
    if dep != 0 && |join.es| == 1 && |join.exclude| == 0 {
      PivotWindow(lists, join.es, arrs', mn', mx', p);
      size, isType := gap, SINGLE;
    } else if dep == numVertices - 1 {
      isType := LAST;
      size := CountLast(join, lists, arrs', mn', mx', p);
    } else {
      isType := SHARED_MEMBUF;
      size, data, mn', mx' := FirstChunk(dep, blockIdx, join, lists, arrs', mn', mx', p, gap, buffer);
    }
  }

  method CountLast(join: Join, ghost lists: seq<seq<nat>>, arrs: seq<seq<nat>>, mn: seq<nat>, mx: seq<nat>, p: nat)
    returns (size: nat)
    requires join.Ok() && |join.es| == |lists| && p < join.numPivots
    requires AllLoaded(lists, join.es, arrs, mn, mx, -1) && ListsOk(lists)
    requires forall j :: 0 <= j < join.numPivots ==> |lists[p]| <= |lists[j]|
    ensures LastDone(join, lists, p, size)
  {
    var e := join.es[p];
    PivotWindow(lists, join.es, arrs, mn, mx, p);
    ghost var found;
    var data;
    size, data, found := Collect(join, lists, arrs, mn, mx, p, mn[e], mx[e] + 1, false, []);
    FilterElements(join.Passing(lists), lists[p]);
    SameLength(found, FilterIn(join.Passing(lists), lists[p]));
  }

  method FirstChunk(dep: nat, blockIdx: nat, join: Join, ghost lists: seq<seq<nat>>, arrs: seq<seq<nat>>,
                    mn: seq<nat>, mx: seq<nat>, p: nat, gap: nat, buffer: seq<nat>)
    returns (size: nat, data: seq<nat>, mn': seq<nat>, mx': seq<nat>)
    requires join.Ok() && |join.es| == |lists| && p < join.numPivots
    requires AllLoaded(lists, join.es, arrs, mn, mx, -1) && ListsOk(lists)
    requires forall j :: 0 <= j < join.numPivots ==> |lists[p]| <= |lists[j]|
    requires gap == |lists[p]| && |buffer| == SM_THRESHOLD && blockIdx < 0x1_0000
    requires dep == 0 ==> mn[join.es[p]] == 0 && lists[p] != []
    ensures |mn'| == |mn| && |mx'| == |mx| && |data| == SM_THRESHOLD
    ensures ChunkDone(join, lists, arrs, mn', mx', p, size, data, BlockShare(dep, blockIdx, lists[p]))
  {
    var e := join.es[p];
    ghost var share := BlockShare(dep, blockIdx, lists[p]);
    PivotWindow(lists, join.es, arrs, mn, mx, p);
    mn', mx' := mn, mx;
    if dep == 0 {
      SortedBounded(lists[p]);
      var lo, hi := SplitWindow(blockIdx, lists[p], arrs[e], mx[e], gap);
      mn', mx' := mn[e := lo], mx[e := hi];
    }
    assert WindowIs(arrs[e], mn'[e], mx'[e], share);
    ShareInList(dep, blockIdx, lists[p]);
    MovedOn(lists, join.es, arrs, mn, mx, p, mn', mx');
    size, data, mn' := ScanChunk(join, lists, arrs, mn', mx', p, buffer, share);
  }

  // ----- outcomes -----

  /** A lone unconstrained list is enumerated in place. */
  ghost predicate SingleDone(join: Join, lists: seq<seq<nat>>, arrs: seq<seq<nat>>, mn: seq<nat>, p: nat, size: nat)
    requires p < |lists| <= |join.es|
  {
    && |lists| == 1 && join.exclude == []
    && join.es[p] < |arrs| && join.es[p] < |mn|
    && size == |lists[p]|
    && mn[join.es[p]] + size <= |arrs[join.es[p]]|
    && arrs[join.es[p]][mn[join.es[p]]..mn[join.es[p]] + size] == lists[p]
  }

  /** The last depth only counts. */
  ghost predicate LastDone(join: Join, lists: seq<seq<nat>>, p: nat, size: nat)
    requires p < |lists|
  {
    size == |FilterIn(join.Passing(lists), lists[p])|
  }

  /** One chunk of the share is in the buffer; the window holds the rest. */
  ghost predicate ChunkDone(join: Join, lists: seq<seq<nat>>, arrs: seq<seq<nat>>, mn: seq<nat>, mx: seq<nat>, p: nat,
                            size: nat, data: seq<nat>, share: seq<nat>)
    requires p < |join.es|
  {
    && size <= |data|
    && NoDup(data[..size])
    && SameElements(data[..size], FilterIn(join.Passing(lists), ChunkOf(share)))
    && join.es[p] < |mn| && join.es[p] < |mx|
    && (mn[join.es[p]] <= mx[join.es[p]] <==> LaterShare(share) != [])
    && (LaterShare(share) != [] ==>
          && Scannable(lists, join.es, arrs, mn, mx, p, LaterShare(share))
          && RegularNonempty(lists, join.numPivots)
          && mx[join.es[p]] + 1 - mn[join.es[p]] == |LaterShare(share)| < |share|)
  }

  lemma {:induction false} PivotWindow(lists: seq<seq<nat>>, es: seq<nat>, arrs: seq<seq<nat>>, mn: seq<nat>,
                                       mx: seq<nat>, p: nat)
    requires AllLoaded(lists, es, arrs, mn, mx, -1) && p < |lists| && ListsOk(lists)
    ensures mn[es[p]] + |lists[p]| == mx[es[p]] + 1 <= |arrs[es[p]]|
    ensures lists[p] == arrs[es[p]][mn[es[p]]..mx[es[p]] + 1]
    ensures ListOk(lists[p]) && Loaded(lists[p], arrs[es[p]], mn[es[p]], mx[es[p]])
    ensures forall i :: mn[es[p]] <= i <= mx[es[p]] ==> arrs[es[p]][i] in lists[p]
  {
    assert Loaded(lists[p], arrs[es[p]], mn[es[p]], mx[es[p]]) && ListOk(lists[p]);
    forall i | mn[es[p]] <= i <= mx[es[p]]
      ensures arrs[es[p]][i] in lists[p]
    {
      assert lists[p][i - mn[es[p]]] == arrs[es[p]][i];
    }
  }

  /** A sorted list of 24-bit ids is at most 2^24 long. */
  lemma {:induction false} SortedBounded(list: seq<nat>)
    requires StrictlySorted(list) && forall i :: 0 <= i < |list| ==> list[i] < VERTICES_PER_GRID
    ensures |list| <= VERTICES_PER_GRID
  {
    if list != [] {
      IndexBelow(list, |list| - 1);
    }
  }

  lemma {:induction false} IndexBelow(list: seq<nat>, i: nat)
    requires StrictlySorted(list) && i < |list|
    ensures i <= list[i]
  {
    if i > 0 {
      IndexBelow(list, i - 1);
    }
  }

  lemma {:induction false} ShareInList(dep: nat, blockIdx: nat, list: seq<nat>)
    ensures PartOf(BlockShare(dep, blockIdx, list), list)
  {
    assert IsStretch(BlockShare(dep, blockIdx, list), list, if dep == 0 then Min(Gap(|list|) * blockIdx, |list|)
        else 0);
  }
}
