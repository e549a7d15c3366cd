/** Grid and continuous coordinates of the voxel world, the chunk size and
    the block scale (mgllib/world/const.py). Python's `//` on integers with a
    positive divisor is floor division, which is what Dafny's `/` on `int`
    computes for a positive divisor. */
module Coords {

  /** A grid coordinate: one voxel cell. */
  datatype Cell = Cell(x: int, y: int, z: int)

  /** A continuous position (a tuple of Python floats, modelled exactly). */
  datatype Pos = Pos(x: real, y: real, z: real)

  const CHUNK_SIZE: int := 16
  const BLOCK_SCALE: real := 0.75

  function Add(a: Cell, b: Cell): Cell {
    Cell(a.x + b.x, a.y + b.y, a.z + b.z)
  }

  function Sub(a: Cell, b: Cell): Cell {
    Cell(a.x - b.x, a.y - b.y, a.z - b.z)
  }

  /** The id of the chunk owning a cell: each coordinate floor-divided by the
      chunk size. */
  function ChunkId(p: Cell): Cell {
    Cell(p.x / CHUNK_SIZE, p.y / CHUNK_SIZE, p.z / CHUNK_SIZE)
  }

  /** The first cell of a chunk: its id scaled by the chunk size. */
  function WorldOffset(id: Cell): Cell {
    Cell(id.x * CHUNK_SIZE, id.y * CHUNK_SIZE, id.z * CHUNK_SIZE)
  }

  /** A chunk owns the cube of cells from its world offset to 15 past it. */
  predicate InChunk(id: Cell, p: Cell) {
    var o := WorldOffset(id);
    && o.x <= p.x < o.x + CHUNK_SIZE
    && o.y <= p.y < o.y + CHUNK_SIZE
    && o.z <= p.z < o.z + CHUNK_SIZE
  }

  /** A cell is routed to chunk `id` exactly when it lies in that chunk's
      cube, so every cell has one owning chunk. */
  lemma ChunkIdIsOwner(p: Cell, id: Cell)
    ensures ChunkId(p) == id <==> InChunk(id, p)
  {
    FloorDivUnique(p.x, id.x);
    FloorDivUnique(p.y, id.y);
    FloorDivUnique(p.z, id.z);
  }

  lemma FloorDivUnique(a: int, q: int)
    ensures a / CHUNK_SIZE == q <==> q * CHUNK_SIZE <= a < q * CHUNK_SIZE + CHUNK_SIZE
  {
    var r := a / CHUNK_SIZE;
    assert r * CHUNK_SIZE <= a < r * CHUNK_SIZE + CHUNK_SIZE;
  }

  /** The position a block's cube starts at: `v * BLOCK_SCALE` per axis. */
  function Scaled(c: Cell): Pos {
    Pos(c.x as real * BLOCK_SCALE, c.y as real * BLOCK_SCALE, c.z as real * BLOCK_SCALE)
  }

  /** `world_to_block`: each coordinate divided by the block scale and
      rounded down. */
  function WorldToBlock(pos: Pos): Cell {
    Cell((pos.x / BLOCK_SCALE).Floor, (pos.y / BLOCK_SCALE).Floor, (pos.z / BLOCK_SCALE).Floor)
  }

  predicate InScaledCube(c: Cell, pos: Pos) {
    var lo := Scaled(c);
    && lo.x <= pos.x < lo.x + BLOCK_SCALE
    && lo.y <= pos.y < lo.y + BLOCK_SCALE
    && lo.z <= pos.z < lo.z + BLOCK_SCALE
  }

  /** `world_to_block` names the cell whose scaled cube contains the
      position, and only that cell. */
  lemma WorldToBlockContains(pos: Pos, c: Cell)
    ensures WorldToBlock(pos) == c <==> InScaledCube(c, pos)
  {
    FloorScaleUnique(pos.x, c.x);
    FloorScaleUnique(pos.y, c.y);
    FloorScaleUnique(pos.z, c.z);
  }

  lemma FloorScaleUnique(v: real, k: int)
    ensures (v / BLOCK_SCALE).Floor == k <==> k as real * BLOCK_SCALE <= v < k as real * BLOCK_SCALE + BLOCK_SCALE
  {
    var f := (v / BLOCK_SCALE).Floor;
    assert f as real <= v / BLOCK_SCALE < f as real + 1.0;
    if k as real * BLOCK_SCALE <= v < k as real * BLOCK_SCALE + BLOCK_SCALE {
      assert k as real <= v / BLOCK_SCALE < k as real + 1.0;
    }
  }

  /** The chunk `World.add_decor` files a decoration under: each coordinate
      divided by the block scale, then floor-divided by the chunk size. */
  function DecorChunkId(pos: Pos): Cell {
    Cell((pos.x / BLOCK_SCALE / CHUNK_SIZE as real).Floor,
         (pos.y / BLOCK_SCALE / CHUNK_SIZE as real).Floor,
         (pos.z / BLOCK_SCALE / CHUNK_SIZE as real).Floor)
  }

  /** A decoration is filed under the chunk that owns the block cell its
      position falls in. */
  lemma DecorChunkOwnsCell(pos: Pos)
    ensures DecorChunkId(pos) == ChunkId(WorldToBlock(pos))
  {
    FloorOfSixteenth(pos.x / BLOCK_SCALE);
    FloorOfSixteenth(pos.y / BLOCK_SCALE);
    FloorOfSixteenth(pos.z / BLOCK_SCALE);
  }

  lemma FloorOfSixteenth(a: real)
    ensures (a / CHUNK_SIZE as real).Floor == a.Floor / CHUNK_SIZE
  {
    var k := a.Floor;
    var q := k / CHUNK_SIZE;
    assert q * CHUNK_SIZE <= k < q * CHUNK_SIZE + CHUNK_SIZE;
    assert (q * CHUNK_SIZE) as real <= a < (q * CHUNK_SIZE + CHUNK_SIZE) as real;
    assert q as real <= a / CHUNK_SIZE as real < q as real + 1.0;
  }
}
