/** Machine-level constants of the device code and 32-bit unsigned arithmetic. */
module Machine {

  /** Local vertex ids are 24 bits wide (MaxNumVerticesPerGrid). */
  const VERTICES_PER_GRID: nat := 0x100_0000

  /** Launch width that the block split of the device code divides by (MaxBlocks). */
  const MAX_BLOCKS: nat := 3840

  /** Capacity of one shared-memory candidate buffer (SMThreshold). */
  const SM_THRESHOLD: nat := 128

  const MAX_QUERY_VERTICES: nat := 8
  const MAX_QUERY_EDGES: nat := 10
  const MAX_QUERY_DEGREES: nat := 4
  const MAX_CONSTRAINTS: nat := 5
  const MAX_TREE_NODES: nat := 500
  const MAX_SHARDS_PER_ITER: nat := 300

  const TWO_32: nat := 0x1_0000_0000

  /** The value a 32-bit unsigned register holds after computing x. */
  function U32(x: int): (r: nat)
    ensures r < TWO_32
    ensures 0 <= x < TWO_32 ==> r == x
  {
    x % TWO_32
  }

  function Min(x: nat, y: nat): nat {
    if x <= y then x else y
  }
}
