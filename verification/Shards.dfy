/** The in-memory shard: a row list and a compressed adjacency structure over 24-bit local ids. */
module Shards {
  import opened Machine
  import opened Sequences

  /** What `adj_list_vid` hands to the kernel: where the list starts in `cols` and how long it is. */
  datatype AdjList = AdjList(length: nat, colptr: nat)

  /** `rows` and `cols` are the decoded 24-bit row and column vectors. */
  datatype Shard = Shard(rows: seq<nat>, minSrc: nat, maxSrc: nat, colptr: seq<nat>, cols: seq<nat>) {

    ghost predicate Valid() {
      && minSrc <= maxSrc < VERTICES_PER_GRID
      && |colptr| == maxSrc - minSrc + 2
      && colptr[0] == 0
      && colptr[|colptr| - 1] == |cols| <= 0x8000_0000
      && (forall i, j :: 0 <= i <= j < |colptr| ==> colptr[i] <= colptr[j])
      && colptr[1] > 0
      && (forall i :: 0 <= i < |cols| ==> cols[i] < VERTICES_PER_GRID)
      && (forall v :: StrictlySorted(Adj(v)))
      && StrictlySorted(rows)
      && rows != []
      && |rows| <= VERTICES_PER_GRID
      && (forall v :: v in rows <==> Adj(v) != [])
    }

    function NumLists(): nat {
      |rows|
    }

    /** The adjacency list of a vertex, as a value; empty outside the source range. */
    function Adj(v: nat): seq<nat>
    {
      if minSrc <= v <= maxSrc && v - minSrc + 1 < |colptr|
         && colptr[v - minSrc] <= colptr[v - minSrc + 1] <= |cols|
      then cols[colptr[v - minSrc]..colptr[v - minSrc + 1]]
      else []
    }

    ghost predicate HasEdge(u: nat, v: nat) {
      v in Adj(u)
    }

    function AdjListVid(v: nat): (list: AdjList)
      requires Valid()
      ensures list.colptr + list.length <= if list.length == 0 then |cols| + 1 else |cols|
      ensures list.length > 0 ==> cols[list.colptr..list.colptr + list.length] == Adj(v)
      ensures list.length == |Adj(v)|
      ensures list.length == 0 ==> list.colptr > 0
      ensures minSrc <= v <= maxSrc ==>
                list.colptr == colptr[v - minSrc] && list.colptr + list.length == colptr[v - minSrc + 1]
      ensures !(minSrc <= v <= maxSrc) ==> list.length == 0
    {
      if minSrc <= v <= maxSrc then
        var p := v - minSrc;
        assert colptr[p] <= colptr[p + 1] <= colptr[|colptr| - 1];
        assert p >= 1 ==> colptr[1] <= colptr[p];
        AdjList(colptr[p + 1] - colptr[p], colptr[p])
      else
        AdjList(0, 1)
    }

    /** The neighbours of u stand in the column array between the pointers of u and of its successor. */
    lemma {:induction false} HasEdgeIff(u: nat, w: nat)
      requires Valid()
      ensures HasEdge(u, w) <==>
                minSrc <= u <= maxSrc &&
                exists p {:trigger cols[p]} :: colptr[u - minSrc] <= p < colptr[u - minSrc + 1] && cols[p] == w
    {
      if minSrc <= u <= maxSrc {
        assert colptr[u - minSrc] <= colptr[u - minSrc + 1] <= colptr[|colptr| - 1];
        InSlice(cols, colptr[u - minSrc], colptr[u - minSrc + 1], w);
      }
    }

    /** The lists of the first n source vertices, one after the other. */
    ghost function FirstLists(n: nat): seq<nat> {
      if n == 0 then [] else FirstLists(n - 1) + Adj(minSrc + n - 1)
    }

    lemma {:induction false} FirstListsAre(n: nat)
      requires Valid() && n < |colptr|
      ensures colptr[n] <= |cols| && FirstLists(n) == cols[..colptr[n]]
      decreases n
    {
      assert colptr[n] <= colptr[|colptr| - 1];
      if n > 0 {
        FirstListsAre(n - 1);
        assert colptr[n - 1] <= colptr[n];
        SliceOn(cols, colptr[n - 1], colptr[n]);
      }
    }

    /** The lists of the source range, joined in ascending order, are the column array. */
    lemma {:induction false} ListsTileColumns()
      requires Valid()
      ensures FirstLists(maxSrc - minSrc + 1) == cols
    {
      FirstListsAre(maxSrc - minSrc + 1);
      assert cols[..|cols|] == cols;
    }
  }

  lemma {:induction false} InSlice(s: seq<nat>, lo: nat, hi: nat, w: nat)
    requires lo <= hi <= |s|
    ensures w in s[lo..hi] <==> exists p {:trigger s[p]} :: lo <= p < hi && s[p] == w
  {
    if w in s[lo..hi] {
      var j :| 0 <= j < hi - lo && s[lo..hi][j] == w;
      assert s[lo + j] == w;
    }
    if p :| lo <= p < hi && s[p] == w {
      assert s[lo..hi][p - lo] == w;
    }
  }

  lemma {:induction false} SliceOn(s: seq<nat>, lo: nat, hi: nat)
    requires lo <= hi <= |s|
    ensures s[..hi] == s[..lo] + s[lo..hi]
  {
  }

  /** Binary search of a nonempty sorted window; both the verdict and the returned position. */
  method LowerBound(arr: seq<nat>, key: nat, start: nat, end: nat) returns (found: bool, rslt: nat)
    requires start < end <= |arr| && end <= 0x8000_0000
    requires StrictlySorted(arr[start..end])
    ensures found <==> key in arr[start..end]
    ensures start <= rslt < end
    ensures forall i :: start <= i < rslt ==> arr[i] < key
    ensures forall i :: rslt < i < end ==> key < arr[i]
    ensures found ==> arr[rslt] == key
  {
    var lo, hi := start, end;
    while lo + 1 < hi
      invariant start <= lo < hi <= end
      invariant forall i :: start <= i < lo ==> arr[i] < key
      invariant lo > start ==> arr[lo] <= key
      invariant forall i :: hi <= i < end ==> key < arr[i]
    {
      var mid := U32(lo + hi) / 2;
      SortedInWindow(arr, start, end);
      if key >= arr[mid] {
        lo := mid;
      } else {
        hi := mid;
      }
    }
    SortedInWindow(arr, start, end);
    rslt := lo;
    found := key == arr[lo];
    if found {
      assert arr[start..end][lo - start] == key;
    }
  }
}
