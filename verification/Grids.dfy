/** The partitioned data graph: grid cells of shard pairs. */
module Grids {
  import opened Machine
  import opened Shards

  datatype Interval = Interval(lo: nat, hi: nat)

  predicate Overlap(a: Interval, b: Interval) {
    (if a.lo > b.lo then a.lo else b.lo) <= Min(a.hi, b.hi)
  }

  function Meet(a: Interval, b: Interval): Interval {
    Interval(if a.lo > b.lo then a.lo else b.lo, Min(a.hi, b.hi))
  }

  function FullRange(): Interval {
    Interval(0, VERTICES_PER_GRID - 1)
  }

  ghost predicate Within(x: nat, r: Interval) {
    r.lo <= x <= r.hi
  }

  /** A shard as the planner sees it: its id, its size in memory, and its content. */
  datatype Leaf = Leaf(uid: nat, size: nat, shard: Shard)

  /** The two shards of a cell's tree node and the actual ranges of their sources and targets. */
  datatype ShardPair = ShardPair(outEdges: Leaf, inEdges: Leaf, src: Interval, dst: Interval) {

    /** The in-shard is the transpose of the out-shard, and the recorded ranges bound the edges. */
    ghost predicate Ok() {
      && outEdges.shard.Valid() && inEdges.shard.Valid()
      && (forall u, w {:trigger inEdges.shard.HasEdge(w, u)} {:trigger outEdges.shard.HasEdge(u, w)} ::
            inEdges.shard.HasEdge(w, u) <==> outEdges.shard.HasEdge(u, w))
      && (forall u, w {:trigger outEdges.shard.HasEdge(u, w)} :: outEdges.shard.HasEdge(u, w) ==>
           Within(u, src) && Within(w, dst))
    }
  }

  /** A cell of an edge label's adjacency matrix. */
  datatype Cell = Cell(row: nat, col: nat, labelId: nat)

  /** The grid rows of each vertex label, and the shard pairs of each cell in traversal order. */
  datatype GridFile = GridFile(minRow: seq<nat>, maxRow: seq<nat>, cells: map<Cell, seq<ShardPair>>) {

    function Pairs(cell: Cell): seq<ShardPair> {
      if cell in cells then cells[cell] else []
    }

    /** The shards of every cell are in order and share no edge. */
    ghost predicate Partitioned() {
      && |minRow| == |maxRow|
      && (forall cell: Cell, j: nat {:trigger Pairs(cell)[j]} :: j < |Pairs(cell)| ==> Pairs(cell)[j].Ok())
      && (forall cell: Cell, i: nat, j: nat, u, w
            {:trigger Pairs(cell)[i].outEdges.shard.HasEdge(u, w), Pairs(cell)[j].outEdges.shard.HasEdge(u, w)} ::
            (i < |Pairs(cell)| && j < |Pairs(cell)|
             && Pairs(cell)[i].outEdges.shard.HasEdge(u, w) && Pairs(cell)[j].outEdges.shard.HasEdge(u, w)) ==> i == j)
    }

    /** The leaf belongs to some cell. */
    ghost predicate IsLeaf(leaf: Leaf) {
      exists cell: Cell, j: nat {:trigger Pairs(cell)[j]} ::
        j < |Pairs(cell)| && (leaf == Pairs(cell)[j].outEdges || leaf == Pairs(cell)[j].inEdges)
    }

    /** Two different shards have different ids. */
    ghost predicate UniqueIds() {
      forall a: Leaf, b: Leaf {:trigger IsLeaf(a), IsLeaf(b)} :: IsLeaf(a) && IsLeaf(b) && a.uid == b.uid ==> a == b
    }

    /** The data graph's edges with the given label. */
    ghost predicate HasEdge(cell: Cell, u: nat, w: nat) {
      exists j: nat {:trigger Pairs(cell)[j]} :: j < |Pairs(cell)| && Pairs(cell)[j].outEdges.shard.HasEdge(u, w)
    }
  }
}
