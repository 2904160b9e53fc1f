/** Where the sections of a header buffer lie, and that they fit the space set aside for it. */
module HeaderLayouts {
  import opened Machine

  const CUDA_ALIGNMENT: nat := 256
  const SECTOR_SIZE: nat := 4096

  /** The fixed part of the header: its numbers, a flag and twenty pointers on a 64-bit machine. */
  const HEADER_STRUCT_SIZE: nat := 208

  /** count fields of one size, each at a multiple of its size. */
  datatype Fields = Fields(count: nat, size: nat)

  /** The header's fields: its size, seven counts, the join flag, the counter, and the pointers to the sections. */
  ghost function HeaderFields(): seq<Fields> {
    [Fields(1, 8), Fields(7, 4), Fields(1, 1), Fields(1, 8), Fields(20, 8)]
  }

  /** Where a structure of these fields ends when each is placed at the next multiple of its size. */
  ghost function EndOf(fields: seq<Fields>): nat {
    if fields == [] then 0
    else
      var last := fields[|fields| - 1];
      if last.size == 0 then EndOf(fields[..|fields| - 1])
      else (EndOf(fields[..|fields| - 1]) + last.size - 1) / last.size * last.size + last.count * last.size
  }

  /** The fixed part of the header is as long as its fields make it, and needs no padding for the next one. */
  lemma {:induction false} HeaderStruct()
    ensures EndOf(HeaderFields()) == HEADER_STRUCT_SIZE && HEADER_STRUCT_SIZE % 8 == 0
  {
    var f := HeaderFields();
    assert f[..5] == f && f[..5][..4] == f[..4] && f[..4][..3] == f[..3] && f[..3][..2] == f[..2];
    assert f[..2][..1] == f[..1] && f[..1][..0] == [];
    assert EndOf(f[..1]) == 8;
    assert EndOf(f[..2]) == 36;
    assert EndOf(f[..3]) == 37;
    assert EndOf(f[..4]) == 48;
  }

  /** size, rounded up to the next multiple of the alignment. */
  function Aligned(size: nat): (r: nat)
    ensures size <= r
  {
    if size == 0 then 0
    else if size <= CUDA_ALIGNMENT then CUDA_ALIGNMENT
    else CUDA_ALIGNMENT + Aligned(size - CUDA_ALIGNMENT)
  }

  /** The closed form the program computes. */
  lemma {:induction false} AlignedIs(size: nat)
    ensures Aligned(size) == CUDA_ALIGNMENT * ((size + CUDA_ALIGNMENT - 1) / CUDA_ALIGNMENT)
  {
    if size > CUDA_ALIGNMENT {
      AlignedIs(size - CUDA_ALIGNMENT);
    }
  }

  function AlignedToSector(size: nat): nat {
    SECTOR_SIZE * ((size + SECTOR_SIZE - 1) / SECTOR_SIZE)
  }

  /** n sections of one size. */
  function Repeated(n: nat, size: nat): nat {
    if n == 0 then 0 else Repeated(n - 1, size) + Aligned(size)
  }

  /** How many entries the sections of a header have. */
  datatype Counts = Counts(vertices: nat, edges: nat, constraints: nat, shards: nat, nodes: nat, roots: nat,
                           subtasks: nat) {

    /** The program's limits, which it asserts or exits on. */
    predicate WithinLimits() {
      && vertices <= MAX_QUERY_VERTICES && edges <= MAX_QUERY_EDGES && constraints <= MAX_CONSTRAINTS
      && shards < MAX_SHARDS_PER_ITER && 1 <= nodes <= MAX_TREE_NODES && roots < nodes && subtasks <= nodes
    }

    function EdgeSizes(): (sizes: seq<nat>)
      ensures |sizes| == 7
    {
      [HEADER_STRUCT_SIZE, 8 * shards, 4 * vertices, 4 * (vertices + 1), 8 * edges, 2 * edges, 4 * edges]
    }

    function VertexSizes(): (sizes: seq<nat>)
      ensures |sizes| == 6
    {
      [4 * (vertices + 1), 4 * constraints, 4 * vertices, 4 * vertices, vertices, 4 * vertices]
    }

    function TreeSizes(): (sizes: seq<nat>)
      requires nodes >= 1
      ensures |sizes| == 6
    {
      [4 * (nodes + 1), 4 * (nodes - 1), 4 * (nodes - 1), 4 * (nodes - 1), 4 * roots, 8 * subtasks]
    }

    /** The sizes of all sections, in the order in which they are written. */
    function Sizes(): (sizes: seq<nat>)
      requires nodes >= 1
      ensures |sizes| == 19 + subtasks
    {
      EdgeSizes() + VertexSizes() + TreeSizes() + seq(subtasks, i => 8 * edges)
    }

    function EdgeSize(): nat {
      Aligned(HEADER_STRUCT_SIZE) + Aligned(8 * shards) + Aligned(4 * vertices) + Aligned(4 * (vertices + 1))
      + Aligned(8 * edges) + Aligned(2 * edges) + Aligned(4 * edges)
    }

    function VertexSize(): nat {
      Aligned(4 * (vertices + 1)) + Aligned(4 * constraints) + Aligned(4 * vertices) + Aligned(4 * vertices)
      + Aligned(vertices) + Aligned(4 * vertices)
    }

    function TreeSize(): nat
      requires nodes >= 1
    {
      Aligned(4 * (nodes + 1)) + Aligned(4 * (nodes - 1)) + Aligned(4 * (nodes - 1)) + Aligned(4 * (nodes - 1))
      + Aligned(4 * roots) + Aligned(8 * subtasks)
    }

    /** What all sections take together. */
    function HeaderSize(): nat
      requires nodes >= 1
    {
      EdgeSize() + VertexSize() + TreeSize() + Repeated(subtasks, 8 * edges)
    }
  }

  /** The space set aside for a header. */
  function MaxHeaderSize(): nat {
    AlignedToSector(
      Aligned(HEADER_STRUCT_SIZE) + Aligned(8 * MAX_SHARDS_PER_ITER) + Aligned(4 * MAX_QUERY_VERTICES)
      + Aligned(MAX_QUERY_VERTICES) + Aligned(4 * MAX_QUERY_VERTICES) + Aligned(4 * (MAX_QUERY_VERTICES + 1))
      + Aligned(8 * MAX_QUERY_EDGES) + Aligned(2 * MAX_QUERY_EDGES) + Aligned(4 * MAX_QUERY_EDGES)
      + Aligned(4 * (MAX_QUERY_VERTICES + 1)) + Aligned(4 * MAX_CONSTRAINTS) + Aligned(4 * MAX_QUERY_VERTICES)
      + Aligned(4 * MAX_QUERY_VERTICES) + Aligned(4 * MAX_TREE_NODES) + Aligned(4 * MAX_TREE_NODES)
      + Aligned(4 * MAX_TREE_NODES) + Aligned(4 * MAX_TREE_NODES) + Aligned(8 * MAX_TREE_NODES)
      + Aligned(4 * MAX_TREE_NODES) + Repeated(MAX_TREE_NODES, 8 * MAX_QUERY_EDGES))
  }

  // ----- placing the sections -----

  /** The sections placed so far: aligned, one after another, and all before end. */
  ghost predicate Laid(offsets: seq<nat>, sizes: seq<nat>, end: nat) {
    && |offsets| == |sizes| && end % 256 == 0
    && (forall i {:trigger offsets[i]} :: 0 <= i < |offsets| ==> offsets[i] % 256 == 0 && offsets[i] + sizes[i] <= end)
    && forall i, j :: 0 <= i < j < |offsets| ==> offsets[i] + sizes[i] <= offsets[j]
  }

  /** Places one more section at the current offset. */
  method Place(offsets: seq<nat>, ghost sizes: seq<nat>, offset: nat, size: nat)
    returns (offsets': seq<nat>, ghost sizes': seq<nat>, offset': nat)
    requires Laid(offsets, sizes, offset)
    ensures offsets' == offsets + [offset] && sizes' == sizes + [size] && offset' == offset + Aligned(size)
    ensures Laid(offsets', sizes', offset')
  {
    AlignedIs(size);
    offsets', sizes', offset' := offsets + [offset], sizes + [size], offset + Aligned(size);
  }

  method PlaceEdgeTables(c: Counts) returns (offsets: seq<nat>, ghost sizes: seq<nat>, offset: nat)
    ensures Laid(offsets, sizes, offset) && sizes == c.EdgeSizes() && offset == c.EdgeSize()
  {
    offsets, sizes, offset := Place([], [], 0, HEADER_STRUCT_SIZE);
    offsets, sizes, offset := Place(offsets, sizes, offset, 8 * c.shards);
    offsets, sizes, offset := Place(offsets, sizes, offset, 4 * c.vertices);
    offsets, sizes, offset := Place(offsets, sizes, offset, 4 * (c.vertices + 1));
    offsets, sizes, offset := Place(offsets, sizes, offset, 8 * c.edges);
    offsets, sizes, offset := Place(offsets, sizes, offset, 2 * c.edges);
    offsets, sizes, offset := Place(offsets, sizes, offset, 4 * c.edges);
  }

  method PlaceVertexTables(c: Counts, offsets0: seq<nat>, ghost sizes0: seq<nat>, offset0: nat)
    returns (offsets: seq<nat>, ghost sizes: seq<nat>, offset: nat)
    requires Laid(offsets0, sizes0, offset0)
    ensures Laid(offsets, sizes, offset) && sizes == sizes0 + c.VertexSizes() && offset == offset0 + c.VertexSize()
  {
    offsets, sizes, offset := Place(offsets0, sizes0, offset0, 4 * (c.vertices + 1));
    offsets, sizes, offset := Place(offsets, sizes, offset, 4 * c.constraints);
    offsets, sizes, offset := Place(offsets, sizes, offset, 4 * c.vertices);
    offsets, sizes, offset := Place(offsets, sizes, offset, 4 * c.vertices);
    offsets, sizes, offset := Place(offsets, sizes, offset, c.vertices);
    offsets, sizes, offset := Place(offsets, sizes, offset, 4 * c.vertices);
  }

  method PlaceTree(c: Counts, offsets0: seq<nat>, ghost sizes0: seq<nat>, offset0: nat)
    returns (offsets: seq<nat>, ghost sizes: seq<nat>, offset: nat)
    requires c.nodes >= 1 && Laid(offsets0, sizes0, offset0)
    ensures Laid(offsets, sizes, offset) && sizes == sizes0 + c.TreeSizes() && offset == offset0 + c.TreeSize()
  {
    offsets, sizes, offset := Place(offsets0, sizes0, offset0, 4 * (c.nodes + 1));
    offsets, sizes, offset := Place(offsets, sizes, offset, 4 * (c.nodes - 1));
    offsets, sizes, offset := Place(offsets, sizes, offset, 4 * (c.nodes - 1));
    offsets, sizes, offset := Place(offsets, sizes, offset, 4 * (c.nodes - 1));
    offsets, sizes, offset := Place(offsets, sizes, offset, 4 * c.roots);
    offsets, sizes, offset := Place(offsets, sizes, offset, 8 * c.subtasks);
  }

  /** Places all sections of a header, in the order in which they are written: no two overlap, and none is left out. */
  method LayOut(c: Counts) returns (offsets: seq<nat>, size: nat)
    requires c.nodes >= 1
    ensures Laid(offsets, c.Sizes(), size) && size == c.HeaderSize()
  {
    ghost var sizes;
    offsets, sizes, size := PlaceEdgeTables(c);
    offsets, sizes, size := PlaceVertexTables(c, offsets, sizes, size);
    offsets, sizes, size := PlaceTree(c, offsets, sizes, size);
    ghost var fixed, start := sizes, size;
    var i := 0;
    while i < c.subtasks
      invariant 0 <= i <= c.subtasks && Laid(offsets, sizes, size)
      invariant sizes == fixed + seq(i, j => 8 * c.edges) && size == start + Repeated(i, 8 * c.edges)
    {
      offsets, sizes, size := Place(offsets, sizes, size, 8 * c.edges);
      i := i + 1;
      assert sizes == fixed + seq(i, j => 8 * c.edges);
    }
  }

  // ----- the space -----

  lemma {:induction false} AlignedMono(a: nat, b: nat)
    requires a <= b
    ensures Aligned(a) <= Aligned(b)
    decreases b
  {
    if a > CUDA_ALIGNMENT {
      AlignedMono(a - CUDA_ALIGNMENT, b - CUDA_ALIGNMENT);
    }
  }

  lemma {:induction false} RepeatedBound(n: nat, size: nat, m: nat)
    requires n <= m && size <= 256
    ensures Repeated(n, size) <= 256 * m
    decreases n
  {
    if n > 0 {
      RepeatedBound(n - 1, size, m - 1);
    }
  }

  lemma {:induction false} RepeatedIs(n: nat, size: nat)
    requires 1 <= size <= 256
    ensures Repeated(n, size) == 256 * n
  {
    if n > 0 {
      RepeatedIs(n - 1, size);
    }
  }

  lemma {:induction false} TablesFit(c: Counts)
    requires c.WithinLimits()
    ensures c.EdgeSize() + c.VertexSize() <= 5632
  {
    AlignedMono(8 * c.shards, 2400);
    AlignedIs(2400);
  }

  lemma {:induction false} TreeFits(c: Counts)
    requires c.WithinLimits()
    ensures c.TreeSize() <= 14336
  {
    AlignedMono(4 * (c.nodes + 1), 2048);
    AlignedMono(4 * (c.nodes - 1), 2048);
    AlignedMono(4 * c.roots, 2048);
    AlignedMono(8 * c.subtasks, 4096);
    AlignedIs(2048);
    AlignedIs(4096);
  }

  /** Within the program's limits every header stays below the space set aside, as is asserted before each launch. */
  lemma {:induction false} HeaderFits(c: Counts)
    requires c.WithinLimits()
    ensures c.HeaderSize() < MaxHeaderSize()
  {
    TablesFit(c);
    TreeFits(c);
    RepeatedBound(c.subtasks, 8 * c.edges, MAX_TREE_NODES);
    RepeatedIs(MAX_TREE_NODES, 8 * MAX_QUERY_EDGES);
    AlignedIs(2400);
    AlignedIs(2000);
    AlignedIs(4000);
  }
}
