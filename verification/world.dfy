/** The sparse chunked block store (mgllib/world/world.py, chunk.py and the
    `ChunkBlock` class of block.py). A `World` maps chunk ids to chunks; a
    chunk maps absolute cells to blocks, in insertion order; a block keeps
    the vertex buffer its last `generate` produced. A chunk's mesh is the
    concatenation of its blocks' buffers, or nothing when that is empty.
    The world also carries two ghost fields, the occupied cells and the set
    of all blocks, which its invariant ties to the chunks. */
module World {
  import opened Wrappers
  import opened Dicts
  import opened Coords
  import opened Block

  /** `buffer_from_content`: a chunk has a mesh exactly when its content is
      non-empty, and the mesh holds that content. */
  function MeshOf(content: seq<real>): (m: Option<seq<real>>)
    ensures m.None? <==> |content| == 0
    ensures m.Some? ==> m.value == content
  {
    if |content| > 0 then Some(content) else None
  }

  /** A decoration placed in the world: its group name and its position. */
  datatype Decor = Decor(group: string, pos: Pos)

  /** The dirty cells and their six neighbours: every cell a delta rebuild
      of the dirty set visits. */
  ghost function Near(dirty: set<Cell>): set<Cell> {
    set q, k | q in dirty && 0 <= k < 7 :: Add(N7_OFFSETS[k], q)
  }

  /** Near a single edited cell are that cell and the cells that have it
      across one of their faces. */
  lemma NearEdit(c: Cell, p: Cell)
    ensures c in Near({p}) <==> c == p || exists k :: 0 <= k < 6 && Add(c, N6_OFFSETS[k]) == p
  {
    if c == p {
      assert c == Add(N7_OFFSETS[6], p);
    }
    if k :| 0 <= k < 6 && Add(c, N6_OFFSETS[k]) == p {
      var j := if k % 2 == 0 then k + 1 else k - 1;
      assert c == Add(N7_OFFSETS[j], p);
    }
    if c in Near({p}) {
      var q, j :| q in {p} && 0 <= j < 7 && c == Add(N7_OFFSETS[j], q);
      if j < 6 {
        var k := if j % 2 == 0 then j + 1 else j - 1;
        assert Add(c, N6_OFFSETS[k]) == p;
      }
    }
  }

  /** The first n cells of `N7_OFFSETS` around pos. */
  function AroundUpTo(pos: Cell, n: nat): set<Cell>
    requires n <= 7
  {
    if n == 0 then {} else AroundUpTo(pos, n - 1) + {Add(N7_OFFSETS[n - 1], pos)}
  }

  lemma {:induction false} AroundUpToMembers(pos: Cell, n: nat)
    requires n <= 7
    ensures forall c :: c in AroundUpTo(pos, n) <==> exists k :: 0 <= k < n && c == Add(N7_OFFSETS[k], pos)
  {
    if n > 0 {
      AroundUpToMembers(pos, n - 1);
    }
  }

  /** Visiting the cells around one more dirty cell visits the cells near
      the enlarged dirty set. */
  lemma NearGrows(processed: set<Cell>, pos: Cell)
    ensures Near(processed + {pos}) == Near(processed) + AroundUpTo(pos, 7)
  {
    AroundUpToMembers(pos, 7);
    forall c | c in Near(processed + {pos})
      ensures c in Near(processed) + AroundUpTo(pos, 7)
    {
      var q, k :| q in processed + {pos} && 0 <= k < 7 && c == Add(N7_OFFSETS[k], q);
      if q in processed {
        assert c in Near(processed);
      }
    }
    forall c | c in AroundUpTo(pos, 7)
      ensures c in Near(processed + {pos})
    {
      var k :| 0 <= k < 7 && c == Add(N7_OFFSETS[k], pos);
      assert pos in processed + {pos};
    }
  }

  class ChunkBlock {
    const chunk: Chunk
    const blockId: string
    const chunkPos: Cell
    const worldPos: Cell
    const scaledWorldPos: Pos
    var buffer: seq<real>

    /** `ChunkBlock(parent, block_id, chunk_pos)`: the absolute cell is the
        chunk's offset plus the local cell, and the buffer is generated at
        once against the current world. */
    constructor (chunk: Chunk, blockId: string, chunkPos: Cell)
      requires chunk.world.Knows(blockId) && chunk.world.Structure()
      ensures this.chunk == chunk && this.blockId == blockId && this.chunkPos == chunkPos
      ensures worldPos == Add(chunk.worldOffset, chunkPos)
      ensures scaledWorldPos == Scaled(worldPos)
      ensures chunk.world.Fresh(this)
    {
      var wp := Add(chunk.worldOffset, chunkPos);
      this.chunk := chunk;
      this.blockId := blockId;
      this.chunkPos := chunkPos;
      worldPos := wp;
      scaledWorldPos := Scaled(wp);
      new;
      Generate();
    }

    /** `empty_neighbor_flags`: flag k is 1 when the world has no block across
        face k, 0 when it has one. */
    function EmptyNeighborFlags(): (flags: seq<int>)
      reads chunk.world`chunks, chunk.world.chunks.Values`blocks
      ensures |flags| == 6
      ensures forall k :: 0 <= k < 6 ==> (flags[k] == 1 <==> chunk.world.GetBlock(Neighbors(worldPos)[k]) == null)
      ensures forall k :: 0 <= k < 6 ==> (flags[k] == 0 <==> chunk.world.GetBlock(Neighbors(worldPos)[k]) != null)
    {
      var w := chunk.world;
      var ns := Neighbors(worldPos);
      [w.EmptyFlag(ns[0]), w.EmptyFlag(ns[1]), w.EmptyFlag(ns[2]), w.EmptyFlag(ns[3]), w.EmptyFlag(ns[4]), w.EmptyFlag(ns[5])]
    }

    /** `generate`: localize the type's reference cube at the block's local
        cell, keeping the faces whose neighbour is empty. */
    method Generate()
      requires chunk.world.Knows(blockId) && chunk.world.Structure()
      modifies this`buffer
      ensures chunk.world.Fresh(this)
    {
      var flags := EmptyNeighborFlags();
      chunk.world.FlagsFromOccupancy(this);
      buffer := chunk.world.blockCache[blockId].Localize(chunkPos, flags);
    }
  }

  class Chunk {
    const world: World
    const chunkId: Cell
    const worldOffset: Cell
    var blocks: Dict<Cell, ChunkBlock>
    var changesSinceRebuild: set<Cell>
    var mesh: Option<seq<real>>
    var decor: Dict<string, seq<Decor>>

    /** `Chunk(parent, chunk_id)`: empty, with no mesh; its offset is the
        chunk id scaled by the chunk size. */
    constructor (world: World, chunkId: Cell)
      ensures this.world == world && this.chunkId == chunkId && worldOffset == WorldOffset(chunkId)
      ensures blocks == Empty() && changesSinceRebuild == {} && mesh == None && decor == Empty()
    {
      this.world := world;
      this.chunkId := chunkId;
      worldOffset := WorldOffset(chunkId);
      blocks := Empty();
      changesSinceRebuild := {};
      mesh := None;
      decor := Empty();
    }

    /** `get_block`: the block stored at the cell, if any. */
    function GetBlock(worldPos: Cell): (b: ChunkBlock?)
      reads this`blocks
      ensures b != null <==> worldPos in blocks.items
      ensures b != null ==> b == blocks.items[worldPos]
    {
      if worldPos in blocks.items then blocks.items[worldPos] else null
    }

    /** The buffers of the first n blocks, in block-map order, concatenated. */
    function ContentUpTo(n: nat): seq<real>
      reads this`blocks, blocks.items.Values`buffer
      requires n <= |blocks.keys|
      requires forall p :: p in blocks.keys ==> p in blocks.items
    {
      if n == 0 then [] else ContentUpTo(n - 1) + blocks.items[blocks.keys[n - 1]].buffer
    }

    /** The chunk's content: every block's buffer, in block-map order. */
    function Content(): seq<real>
      reads this`blocks, blocks.items.Values`buffer
      requires blocks.Valid()
    {
      ContentUpTo(|blocks.keys|)
    }

    /** The content of the first n blocks is the in-order concatenation of
        their buffers. */
    lemma {:induction false} ContentIsFlatten(bufs: seq<seq<real>>, n: nat)
      requires n <= |blocks.keys| && |bufs| == n
      requires forall p :: p in blocks.keys ==> p in blocks.items
      requires forall j :: 0 <= j < n ==> blocks.items[blocks.keys[j]].buffer == bufs[j]
      ensures ContentUpTo(n) == Flatten(bufs)
    {
      if n > 0 {
        ContentIsFlatten(bufs[..n - 1], n - 1);
      }
    }

    /** The mesh holds the chunk's current content. */
    ghost predicate MeshCurrent()
      reads this`blocks, this`mesh, blocks.items.Values`buffer
    {
      blocks.Valid() && mesh == MeshOf(Content())
    }

    /** The content loop shared by `combine` and the delta `rebuild`:
        concatenate the blocks' buffers in block-map order. */
    method CollectContent() returns (content: seq<real>)
      requires blocks.Valid()
      ensures content == Content()
    {
      var values := blocks.Values();
      content := [];
      var i := 0;
      while i < |values|
        invariant 0 <= i <= |values|
        invariant content == ContentUpTo(i)
      {
        content := content + values[i].buffer;
        i := i + 1;
      }
    }

    /** `combine`: rebuild the mesh from the blocks' current buffers, without
        regenerating any of them. */
    method Combine()
      requires blocks.Valid()
      modifies this`mesh
      ensures MeshCurrent()
    {
      var content := CollectContent();
      mesh := MeshOf(content);
    }

    /** `add_decor`: append the decoration to its group's list, creating the
        list (at the end of the group order) for a new group. */
    method AddDecor(d: Decor)
      modifies this`decor
      ensures old(decor.Valid()) ==> decor.Valid()
      ensures d.group in old(decor.items) ==> decor.keys == old(decor.keys)
      ensures d.group !in old(decor.items) ==> decor.keys == old(decor.keys) + [d.group]
      ensures decor.items == old(decor.items)[d.group := (if d.group in old(decor.items) then old(decor.items)[d.group] else []) + [d]]
    {
      var group := if d.group in decor.items then decor.items[d.group] else [];
      decor := decor.Put(d.group, group + [d]);
    }

    /** The chunk as the world knows it. */
    ghost predicate Registered()
      reads this`blocks, world`chunks, world`occupied, world`allBlocks, world.chunks.Values`blocks
    {
      world.Structure() && chunkId in world.chunks && world.chunks[chunkId] == this && blocks.Valid()
    }

    /** The full pass of `rebuild`: generate every block of the chunk and
        concatenate the fresh buffers in block-map order. */
    method RegenerateAll() returns (content: seq<real>)
      requires Registered()
      modifies blocks.items.Values`buffer
      ensures blocks.Valid() && content == Content()
      ensures forall p :: p in blocks.items ==> world.Fresh(blocks.items[p])
    {
      var w := world;
      w.ChunkFacts(this);
      var values := blocks.Values();
      forall j, k | 0 <= j < k < |values|
        ensures values[j] != values[k]
      {
        assert values[j].worldPos == blocks.keys[j];
      }
      ghost var bufs;
      content, bufs := GenerateEach(values);
      ContentIsFlatten(bufs, |values|);
    }

    /** The loop of the full pass: generate each block in turn and append
        its buffer. Generating one block writes only its own buffer, so the
        blocks before it stay fresh. */
    method GenerateEach(values: seq<ChunkBlock>) returns (content: seq<real>, ghost bufs: seq<seq<real>>)
      requires world.Structure()
      requires forall j :: 0 <= j < |values| ==> values[j].chunk.world == world && world.Knows(values[j].blockId)
      requires forall j, k :: 0 <= j < k < |values| ==> values[j] != values[k]
      modifies set j | 0 <= j < |values| :: values[j]`buffer
      ensures |bufs| == |values| && content == Flatten(bufs)
      ensures forall j :: 0 <= j < |values| ==> values[j].buffer == bufs[j]
      ensures forall b :: b in values ==> world.Fresh(b)
    {
      bufs := [];
      content := [];
      var i := 0;
      while i < |values|
        invariant 0 <= i <= |values| && |bufs| == i
        invariant content == Flatten(bufs)
        invariant forall j :: 0 <= j < i ==> values[j].buffer == bufs[j]
        invariant forall b :: b in values[..i] ==> world.Fresh(b)
      {
        var block := values[i];
        block.Generate();
        assert values[..i + 1] == values[..i] + [block];
        content := content + block.buffer;
        assert (bufs + [block.buffer])[..i] == bufs;
        bufs := bufs + [block.buffer];
        i := i + 1;
      }
      assert values[..i] == values;
    }

    /** The delta pass of `rebuild`: for each dirty cell and each offset in
        `N7_OFFSETS`, regenerate the block there, if any, unless that cell
        was already handled in this pass; a regenerated block of another
        chunk puts that chunk into `combines_needed`. */
    method RegenerateAround(dirty: set<Cell>)
      requires Registered()
      modifies world.allBlocks`buffer, world`combinesNeeded
      ensures forall b :: b in world.allBlocks ==>
        (b.worldPos in Near(dirty) ==> world.Fresh(b)) && (b.worldPos !in Near(dirty) ==> b.buffer == old(b.buffer))
      ensures old(world.combinesNeeded) <= world.combinesNeeded <= old(world.combinesNeeded) + world.chunks.Values
      ensures forall b :: b in world.allBlocks && b.worldPos in Near(dirty) && b.chunk != this ==> b.chunk in world.combinesNeeded
    {
      var w := world;
      var pending := dirty;
      ghost var processed: set<Cell> := {};
      var built: set<Cell> := {};
      while pending != {}
        invariant pending + processed == dirty && pending !! processed
        invariant built == Near(processed)
        invariant w.Done(built, this)
        invariant forall b :: b in w.allBlocks && b.worldPos !in built ==> b.buffer == old(b.buffer)
        invariant old(w.combinesNeeded) <= w.combinesNeeded <= old(w.combinesNeeded) + w.chunks.Values
      {
        var pos :| pos in pending;
        built := RegenerateNeighborhood(pos, built);
        NearGrows(processed, pos);
        pending := pending - {pos};
        processed := processed + {pos};
      }
    }

    /** One dirty cell of the delta pass: its seven cells in `N7_OFFSETS`
        order, each skipped when already handled. */
    method RegenerateNeighborhood(pos: Cell, built: set<Cell>) returns (built': set<Cell>)
      requires Registered()
      requires world.Done(built, this)
      modifies world.allBlocks`buffer, world`combinesNeeded
      ensures built' == built + AroundUpTo(pos, 7)
      ensures world.Done(built', this)
      ensures forall b :: b in world.allBlocks && b.worldPos !in built' ==> b.buffer == old(b.buffer)
      ensures old(world.combinesNeeded) <= world.combinesNeeded <= old(world.combinesNeeded) + world.chunks.Values
    {
      built' := built;
      var k := 0;
      while k < 7
        invariant 0 <= k <= 7
        invariant built' == built + AroundUpTo(pos, k)
        invariant world.Done(built', this)
        invariant forall b :: b in world.allBlocks && b.worldPos !in built' ==> b.buffer == old(b.buffer)
        invariant old(world.combinesNeeded) <= world.combinesNeeded <= old(world.combinesNeeded) + world.chunks.Values
      {
        var worldPos := Add(N7_OFFSETS[k], pos);
        if worldPos !in built' {
          RegenerateCell(worldPos, built');
          built' := built' + {worldPos};
        }
        k := k + 1;
      }
    }

    /** One cell of the delta pass: regenerate the block there, if any, and
        record its chunk when it is not this one. */
    method RegenerateCell(worldPos: Cell, ghost built: set<Cell>)
      requires Registered()
      requires world.Done(built, this) && worldPos !in built
      modifies world.allBlocks`buffer, world`combinesNeeded
      ensures world.Done(built + {worldPos}, this)
      ensures forall b :: b in world.allBlocks && b.worldPos != worldPos ==> b.buffer == old(b.buffer)
      ensures old(world.combinesNeeded) <= world.combinesNeeded <= old(world.combinesNeeded) + world.chunks.Values
    {
      var w := world;
      var block := w.GetBlock(worldPos);
      w.GetBlockRoutes(worldPos);
      if block != null {
        block.Generate();
        if block.chunk != this {
          w.combinesNeeded := w.combinesNeeded + {block.chunk};
        }
      }
      StructureKept(w);
      forall b | b in w.allBlocks && b.worldPos in built + {worldPos}
        ensures w.Fresh(b) && (b.chunk != this ==> b.chunk in w.combinesNeeded)
      {
        w.BlockFacts(b);
        if b.worldPos != worldPos {
          assert old(w.Fresh(b));
        }
      }
    }

    /** `rebuild` up to the point where the chunk's own mesh is rebuilt. */
    method RebuildMesh(deltasOnly: bool)
      requires Registered() && world.Store()
      modifies this`changesSinceRebuild, this`mesh, world`combinesNeeded, world`rebuilt, world.allBlocks`buffer
      ensures world.Store()
      ensures changesSinceRebuild == {}
      ensures MeshCurrent()
      ensures world.rebuilt == old(world.rebuilt) + {this}
      ensures !deltasOnly ==>
        && world.combinesNeeded == old(world.combinesNeeded)
        && forall b :: b in world.allBlocks ==>
             (b.chunk == this ==> world.Fresh(b)) && (b.chunk != this ==> b.buffer == old(b.buffer))
      ensures deltasOnly ==>
        && (forall b :: b in world.allBlocks ==>
              (b.worldPos in Near(old(changesSinceRebuild)) ==> world.Fresh(b))
              && (b.worldPos !in Near(old(changesSinceRebuild)) ==> b.buffer == old(b.buffer)))
        && old(world.combinesNeeded) <= world.combinesNeeded
        && (forall b :: b in world.allBlocks && b.worldPos in Near(old(changesSinceRebuild)) && b.chunk != this
              ==> b.chunk in world.combinesNeeded)
    {
      if deltasOnly {
        RebuildDelta();
      } else {
        RebuildFull();
      }
    }

    /** The full rebuild of the mesh: regenerate every own block, then build
        the mesh from the fresh buffers. */
    method RebuildFull()
      requires Registered() && world.Store()
      modifies this`changesSinceRebuild, this`mesh, world`rebuilt, world.allBlocks`buffer
      ensures world.Store()
      ensures changesSinceRebuild == {}
      ensures MeshCurrent()
      ensures world.rebuilt == old(world.rebuilt) + {this}
      ensures forall b :: b in world.allBlocks ==>
        (b.chunk == this ==> world.Fresh(b)) && (b.chunk != this ==> b.buffer == old(b.buffer))
    {
      var w := world;
      w.ChunkFacts(this);
      var content := RegenerateAll();
      forall b | b in w.allBlocks
        ensures b.chunk == this ==> w.Fresh(b)
        ensures b.chunk != this ==> b !in old(blocks.items.Values)
      {
        w.BlockFacts(b);
      }
      StructureKept(w);
      Conclude(content);
    }

    /** The delta rebuild of the mesh: regenerate the blocks at and beside
        the dirty cells, then build the mesh from the chunk's buffers. */
    method RebuildDelta()
      requires Registered() && world.Store()
      modifies this`changesSinceRebuild, this`mesh, world`combinesNeeded, world`rebuilt, world.allBlocks`buffer
      ensures world.Store()
      ensures changesSinceRebuild == {}
      ensures MeshCurrent()
      ensures world.rebuilt == old(world.rebuilt) + {this}
      ensures forall b :: b in world.allBlocks ==>
        (b.worldPos in Near(old(changesSinceRebuild)) ==> world.Fresh(b))
        && (b.worldPos !in Near(old(changesSinceRebuild)) ==> b.buffer == old(b.buffer))
      ensures old(world.combinesNeeded) <= world.combinesNeeded
      ensures forall b :: b in world.allBlocks && b.worldPos in Near(old(changesSinceRebuild)) && b.chunk != this ==>
        b.chunk in world.combinesNeeded
    {
      var w := world;
      w.ChunkFacts(this);
      RegenerateAround(changesSinceRebuild);
      var content := CollectContent();
      StructureKept(w);
      Conclude(content);
    }

    /** The tail of `rebuild`: clear the dirty set, join `rebuilt` and turn
        the content into the mesh. */
    method Conclude(content: seq<real>)
      requires Registered() && world.Store()
      requires blocks.Valid() && content == Content()
      modifies this`changesSinceRebuild, this`mesh, world`rebuilt
      ensures world.Store()
      ensures changesSinceRebuild == {}
      ensures MeshCurrent()
      ensures world.rebuilt == old(world.rebuilt) + {this}
    {
      world.ChunkFacts(this);
      mesh := MeshOf(content);
      changesSinceRebuild := {};
      world.rebuilt := world.rebuilt + {this};
    }

    /** `rebuild(deltas_only, local)`. A full rebuild regenerates every block
        of the chunk; a delta rebuild regenerates, once each, the blocks at
        and beside every dirty cell, whichever chunk holds them, and records
        the other chunks among those in `combines_needed`. Either way the mesh
        is rebuilt from the chunk's own buffers, the dirty set is cleared and
        the chunk joins `rebuilt`; a local delta rebuild then runs
        `combine_missing`. */
    method Rebuild(deltasOnly: bool, local: bool)
      requires Registered() && world.Store()
      modifies this`changesSinceRebuild, world`combinesNeeded, world`rebuilt, world.chunks.Values`mesh,
               world.allBlocks`buffer
      ensures world.Store()
      ensures changesSinceRebuild == {}
      ensures MeshCurrent()
      ensures !deltasOnly ==>
        forall b :: b in world.allBlocks ==>
          (b.chunk == this ==> world.Fresh(b)) && (b.chunk != this ==> b.buffer == old(b.buffer))
      ensures deltasOnly ==>
        forall b :: b in world.allBlocks ==>
          (b.worldPos in Near(old(changesSinceRebuild)) ==> world.Fresh(b))
          && (b.worldPos !in Near(old(changesSinceRebuild)) ==> b.buffer == old(b.buffer))
      ensures !(local && deltasOnly) ==>
        && world.rebuilt == old(world.rebuilt) + {this}
        && old(world.combinesNeeded) <= world.combinesNeeded
        && (!deltasOnly ==> world.combinesNeeded == old(world.combinesNeeded))
        && (deltasOnly ==>
              forall b :: b in world.allBlocks && b.worldPos in Near(old(changesSinceRebuild)) && b.chunk != this
                ==> b.chunk in world.combinesNeeded)
        && (forall c :: c in world.chunks.Values && c != this ==> c.mesh == old(c.mesh))
      ensures local && deltasOnly ==>
        && world.Valid()
        && (forall b :: b in world.allBlocks && b.worldPos in Near(old(changesSinceRebuild)) && b.chunk !in old(world.rebuilt)
              ==> b.chunk.MeshCurrent())
        && (forall c :: c in world.chunks.Values ==> c.mesh == old(c.mesh) || c.MeshCurrent())
    {
      if local && deltasOnly {
        RebuildLocal();
      } else {
        RebuildMesh(deltasOnly);
      }
    }

    /** The local delta rebuild: rebuild this chunk from its deltas, then
        `combine_missing` recombines the other chunks whose blocks the pass
        regenerated. */
    method RebuildLocal()
      requires Registered() && world.Store()
      modifies this`changesSinceRebuild, world`combinesNeeded, world`rebuilt, world.chunks.Values`mesh,
               world.allBlocks`buffer
      ensures world.Valid()
      ensures changesSinceRebuild == {}
      ensures MeshCurrent()
      ensures forall b :: b in world.allBlocks ==>
        (b.worldPos in Near(old(changesSinceRebuild)) ==> world.Fresh(b))
        && (b.worldPos !in Near(old(changesSinceRebuild)) ==> b.buffer == old(b.buffer))
      ensures forall b :: b in world.allBlocks && b.worldPos in Near(old(changesSinceRebuild)) && b.chunk !in old(world.rebuilt) ==>
        b.chunk.MeshCurrent()
      ensures forall c :: c in world.chunks.Values ==> c.mesh == old(c.mesh) || c.MeshCurrent()
    {
      var w := world;
      assert this in w.chunks.Values;
      RebuildMesh(true);
      label combining:
      w.CombineMissing();
      forall b | b in w.allBlocks && b.worldPos in Near(old(changesSinceRebuild)) && b.chunk !in old(w.rebuilt)
        ensures b.chunk.MeshCurrent()
      {
        if b.chunk != this {
          assert b.chunk in old@combining(w.combinesNeeded - w.rebuilt);
        }
      }
    }

    /** `add_block(block_id, world_pos, rebuild)`: a new block, generated at
        once, takes the cell, replacing whatever block it held; the cell is
        marked dirty; with `rebuild` the chunk is then rebuilt locally from
        its deltas. */
    method AddBlock(blockId: string, worldPos: Cell, rebuild: bool)
      requires Registered() && world.Store() && world.Knows(blockId) && ChunkId(worldPos) == chunkId
      modifies this`blocks, this`changesSinceRebuild, world`occupied, world`allBlocks,
               world`combinesNeeded, world`rebuilt, world.chunks.Values`mesh, world.allBlocks`buffer
      ensures Registered() && world.Store()
      ensures worldPos in blocks.items && fresh(blocks.items[worldPos])
      ensures blocks == old(blocks).Put(worldPos, blocks.items[worldPos])
      ensures blocks.items[worldPos].blockId == blockId
      ensures blocks.items[worldPos].chunkPos == Sub(worldPos, worldOffset)
      ensures world.occupied == old(world.occupied) + {worldPos}
      ensures world.allBlocks == old(world.allBlocks) - old(BlockSet(worldPos)) + {blocks.items[worldPos]}
      ensures !rebuild ==>
        && changesSinceRebuild == old(changesSinceRebuild) + {worldPos}
        && world.Fresh(blocks.items[worldPos])
      ensures !rebuild ==>
        && world.combinesNeeded == old(world.combinesNeeded) && world.rebuilt == old(world.rebuilt)
        && (forall c :: c in world.chunks.Values ==> c.mesh == old(c.mesh))
        && (forall b :: b in old(world.allBlocks) ==> b.buffer == old(b.buffer))
      ensures rebuild ==> RebuiltAround(worldPos)
      ensures forall q :: q != worldPos ==> world.GetBlock(q) == old(world.GetBlock(q))
      ensures Edited(worldPos)
    {
      Insert(blockId, worldPos);
      if rebuild {
        RebuildLocal();
      }
    }

    /** `remove_block(world_pos, rebuild)`: a cell without a block is left
        alone (nothing deleted, marked dirty or rebuilt); otherwise its block
        is deleted, the cell is marked dirty and, with `rebuild`, the chunk
        is rebuilt locally from its deltas. */
    method RemoveBlock(worldPos: Cell, rebuild: bool)
      requires Registered() && world.Store()
      modifies this`blocks, this`changesSinceRebuild, world`occupied, world`allBlocks,
               world`combinesNeeded, world`rebuilt, world.chunks.Values`mesh, world.allBlocks`buffer
      ensures Registered() && world.Store()
      ensures worldPos !in old(blocks.items) ==>
        && blocks == old(blocks) && changesSinceRebuild == old(changesSinceRebuild)
        && world.occupied == old(world.occupied) && world.allBlocks == old(world.allBlocks)
        && world.combinesNeeded == old(world.combinesNeeded) && world.rebuilt == old(world.rebuilt)
        && (forall c :: c in world.chunks.Values ==> c.mesh == old(c.mesh))
        && (forall b :: b in world.allBlocks ==> b.buffer == old(b.buffer))
      ensures worldPos in old(blocks.items) ==>
        && blocks == old(blocks).Remove(worldPos)
        && world.occupied == old(world.occupied) - {worldPos}
        && world.allBlocks == old(world.allBlocks) - {old(blocks.items[worldPos])}
        && (!rebuild ==> changesSinceRebuild == old(changesSinceRebuild) + {worldPos})
      ensures worldPos in old(blocks.items) && !rebuild ==>
        && world.combinesNeeded == old(world.combinesNeeded) && world.rebuilt == old(world.rebuilt)
        && (forall c :: c in world.chunks.Values ==> c.mesh == old(c.mesh))
        && (forall b :: b in old(world.allBlocks) ==> b.buffer == old(b.buffer))
      ensures worldPos in old(blocks.items) && rebuild ==> RebuiltAround(worldPos)
      ensures forall q :: q != worldPos ==> world.GetBlock(q) == old(world.GetBlock(q))
      ensures Edited(worldPos)
    {
      if worldPos in blocks.items {
        RemoveStored(worldPos, rebuild);
      }
    }

    /** `remove_block` for a cell that holds a block. */
    method RemoveStored(worldPos: Cell, rebuild: bool)
      requires Registered() && world.Store() && worldPos in blocks.items
      modifies this`blocks, this`changesSinceRebuild, world`occupied, world`allBlocks,
               world`combinesNeeded, world`rebuilt, world.chunks.Values`mesh, world.allBlocks`buffer
      ensures Registered() && world.Store()
      ensures blocks == old(blocks).Remove(worldPos)
      ensures world.occupied == old(world.occupied) - {worldPos}
      ensures world.allBlocks == old(world.allBlocks) - {old(blocks.items[worldPos])}
      ensures !rebuild ==> changesSinceRebuild == old(changesSinceRebuild) + {worldPos}
      ensures !rebuild ==>
        && world.combinesNeeded == old(world.combinesNeeded) && world.rebuilt == old(world.rebuilt)
        && (forall c :: c in world.chunks.Values ==> c.mesh == old(c.mesh))
        && (forall b :: b in old(world.allBlocks) ==> b.buffer == old(b.buffer))
      ensures rebuild ==> RebuiltAround(worldPos)
      ensures forall q :: q != worldPos ==> world.GetBlock(q) == old(world.GetBlock(q))
      ensures Edited(worldPos)
    {
      Delete(worldPos);
      if rebuild {
        RebuildLocal();
      }
    }

    /** The store half of `add_block`: the new block, generated against the
        world as it was, is fresh once stored, because its own cell is none
        of its neighbours. */
    method Insert(blockId: string, worldPos: Cell)
      requires Registered() && world.Store() && world.Knows(blockId) && ChunkId(worldPos) == chunkId
      modifies this`blocks, this`changesSinceRebuild, world`occupied, world`allBlocks
      ensures Registered() && world.Store()
      ensures worldPos in blocks.items && fresh(blocks.items[worldPos])
      ensures blocks == old(blocks).Put(worldPos, blocks.items[worldPos])
      ensures blocks.items[worldPos].blockId == blockId
      ensures blocks.items[worldPos].chunkPos == Sub(worldPos, worldOffset)
      ensures blocks.items[worldPos].worldPos == worldPos
      ensures world.occupied == old(world.occupied) + {worldPos}
      ensures world.allBlocks == old(world.allBlocks) - old(BlockSet(worldPos)) + {blocks.items[worldPos]}
      ensures changesSinceRebuild == old(changesSinceRebuild) + {worldPos}
      ensures world.Fresh(blocks.items[worldPos])
      ensures forall q :: q != worldPos ==> world.GetBlock(q) == old(world.GetBlock(q))
    {
      var w := world;
      w.ChunkFacts(this);
      var block := new ChunkBlock(this, blockId, Sub(worldPos, worldOffset));
      assert block.worldPos == worldPos;
      Place(block);
      label placed:
      changesSinceRebuild := changesSinceRebuild + {worldPos};
      StructureKept@placed(w);
      forall k | 0 <= k < 6 {
        OwnCellIsNoNeighbor(worldPos, k);
      }
      EmptyFlagsAgree(old(w.occupied), w.occupied, worldPos);
      assert blocks.items[worldPos] == block;
    }

    /** `self.blocks[world_pos] = block`, with the world's ghost
        bookkeeping: the cell becomes occupied and the block takes the place
        of the one it replaces, if any, among all blocks. */
    method Place(block: ChunkBlock)
      requires Registered() && blocks.Valid()
      requires block.chunk == this && ChunkId(block.worldPos) == chunkId
      requires block.chunkPos == Sub(block.worldPos, worldOffset) && world.Knows(block.blockId)
      requires block !in world.allBlocks
      modifies this`blocks, world`occupied, world`allBlocks
      ensures Registered()
      ensures blocks == old(blocks).Put(block.worldPos, block)
      ensures world.occupied == old(world.occupied) + {block.worldPos}
      ensures world.allBlocks == old(world.allBlocks) - old(BlockSet(block.worldPos)) + {block}
      ensures forall q :: q != block.worldPos ==> world.GetBlock(q) == old(world.GetBlock(q))
    {
      var w := world;
      var p := block.worldPos;
      w.ChunkFacts(this);
      ghost var replaced := BlockSet(p);
      blocks := blocks.Put(p, block);
      w.occupied := w.occupied + {p};
      w.allBlocks := w.allBlocks - replaced + {block};
      assert blocks.items - {p} == old(blocks.items) - {p};
      RewriteKeepsStructure(p);
      OthersKept(p);
    }

    /** The delete half of `remove_block` for a stored cell: the cell
        leaves the block map and is marked dirty. */
    method Delete(worldPos: Cell)
      requires Registered() && blocks.Valid() && worldPos in blocks.items
      modifies this`blocks, this`changesSinceRebuild, world`occupied, world`allBlocks
      ensures Registered()
      ensures blocks == old(blocks).Remove(worldPos)
      ensures world.occupied == old(world.occupied) - {worldPos}
      ensures world.allBlocks == old(world.allBlocks) - {old(blocks.items[worldPos])}
      ensures changesSinceRebuild == old(changesSinceRebuild) + {worldPos}
      ensures forall q :: q != worldPos ==> world.GetBlock(q) == old(world.GetBlock(q))
    {
      Drop(worldPos);
      label dropped:
      changesSinceRebuild := changesSinceRebuild + {worldPos};
      StructureKept@dropped(world);
    }

    /** `del self.blocks[world_pos]`, with the world's ghost bookkeeping: the
        cell is no longer occupied and its block leaves all blocks. */
    method Drop(worldPos: Cell)
      requires Registered() && blocks.Valid() && worldPos in blocks.items
      modifies this`blocks, world`occupied, world`allBlocks
      ensures Registered()
      ensures blocks == old(blocks).Remove(worldPos)
      ensures world.occupied == old(world.occupied) - {worldPos}
      ensures world.allBlocks == old(world.allBlocks) - {old(blocks.items[worldPos])}
      ensures forall q :: q != worldPos ==> world.GetBlock(q) == old(world.GetBlock(q))
    {
      var w := world;
      ghost var gone := blocks.items[worldPos];
      assert w.Holds(chunkId, this);
      assert w.Placed(this, worldPos, gone);
      blocks := blocks.Remove(worldPos);
      w.occupied := w.occupied - {worldPos};
      w.allBlocks := w.allBlocks - {gone};
      assert blocks.items - {worldPos} == old(blocks.items) - {worldPos};
      RewriteKeepsStructure(worldPos);
      OthersKept(worldPos);
    }

    /** The block stored at the cell, as a set of at most one block. */
    function BlockSet(p: Cell): set<ChunkBlock>
      reads this`blocks
    {
      if p in blocks.items then {blocks.items[p]} else {}
    }

    /** One write to this chunk at cell `p` (`Place` or `Drop`):
        the chunk's other cells keep their blocks; the cell is occupied
        exactly when it now holds a block, which is then new and properly
        placed; the block it held before, if any, leaves all blocks and the
        new one joins them; nothing else changed. */
    twostate predicate Rewritten(p: Cell)
      reads world`chunks, world`occupied, world`allBlocks, world.chunks.Values`blocks, this`blocks
    {
      && old(world.Structure()) && unchanged(world`chunks)
      && chunkId in world.chunks && world.chunks[chunkId] == this && ChunkId(p) == chunkId
      && (forall d :: d in world.chunks.Values && d != this ==> unchanged(d`blocks))
      && blocks.Valid() && blocks.items - {p} == old(blocks.items) - {p}
      && (p in blocks.items ==> world.Placed(this, p, blocks.items[p]) && blocks.items[p] !in old(world.allBlocks))
      && world.occupied == old(world.occupied) - {p} + (if p in blocks.items then {p} else {})
      && world.allBlocks == old(world.allBlocks) - old(BlockSet(p)) + BlockSet(p)
    }

    /** A write to one cell keeps the structure. */
    twostate lemma RewriteKeepsStructure(p: Cell)
      requires Rewritten(p)
      ensures world.Structure()
    {
      RewriteKeepsChunks(p);
      RewriteKeepsIndex(p);
      RewriteKeepsOccupied(p);
      RewriteKeepsBlocks(p);
    }

    /** A write to one cell leaves the lookup of every other cell as it
        was: the chunks and the other chunks' blocks are untouched, and this
        chunk's map changes at `p` alone. */
    twostate lemma OthersKept(p: Cell)
      requires Rewritten(p)
      ensures forall q :: q != p ==> world.GetBlock(q) == old(world.GetBlock(q))
    {
      forall q | q != p
        ensures world.GetBlock(q) == old(world.GetBlock(q))
      {
        var id := ChunkId(q);
        if id in world.chunks {
          var d := world.chunks[id];
          assert d in world.chunks.Values;
          if d == this {
            assert q in blocks.items <==> q in (blocks.items - {p});
            assert old(q in blocks.items) <==> q in old(blocks.items) - {p};
          }
        }
      }
    }

    twostate lemma RewriteKeepsChunks(p: Cell)
      requires Rewritten(p)
      ensures forall id :: id in world.chunks ==> world.Holds(id, world.chunks[id])
    {
      forall id | id in world.chunks
        ensures world.Holds(id, world.chunks[id])
      {
        assert world.chunks[id] in world.chunks.Values;
        assert old(world.Holds(id, world.chunks[id]));
        if world.chunks[id] == this {
          forall q | q in blocks.items
            ensures world.Placed(this, q, blocks.items[q])
          {
            if q != p {
              assert q in (blocks.items - {p});
              assert old(world.Placed(this, q, blocks.items[q]));
            }
          }
        }
      }
    }

    twostate lemma RewriteKeepsIndex(p: Cell)
      requires Rewritten(p)
      ensures forall id, q :: id in world.chunks && q in world.chunks[id].blocks.items ==>
        q in world.occupied && world.chunks[id].blocks.items[q] in world.allBlocks
    {
      forall id, q | id in world.chunks && q in world.chunks[id].blocks.items
        ensures q in world.occupied && world.chunks[id].blocks.items[q] in world.allBlocks
      {
        var d := world.chunks[id];
        assert d in world.chunks.Values;
        if d != this || q != p {
          if d == this {
            assert q in (blocks.items - {p});
          }
          assert q in old(d.blocks.items);
          assert old(world.Holds(id, d));
          assert old(world.Placed(d, q, d.blocks.items[q]));
          assert old(world.chunks[id].blocks.items[q]) == d.blocks.items[q];
          if p in old(blocks.items) {
            assert old(world.Holds(chunkId, this));
            assert old(world.Placed(this, p, blocks.items[p]));
          }
        }
      }
    }

    twostate lemma RewriteKeepsOccupied(p: Cell)
      requires Rewritten(p)
      ensures forall q :: q in world.occupied ==> world.Stored(q)
    {
      forall q | q in world.occupied
        ensures world.Stored(q)
      {
        if q != p {
          assert old(world.Stored(q));
          var d := world.chunks[ChunkId(q)];
          assert d in world.chunks.Values;
          if d == this {
            assert q in old(blocks.items) - {p};
          }
        }
      }
    }

    twostate lemma RewriteKeepsBlocks(p: Cell)
      requires Rewritten(p)
      ensures forall b :: b in world.allBlocks ==>
        world.Stored(b.worldPos) && world.chunks[ChunkId(b.worldPos)].blocks.items[b.worldPos] == b
    {
      forall b | b in world.allBlocks
        ensures world.Stored(b.worldPos) && world.chunks[ChunkId(b.worldPos)].blocks.items[b.worldPos] == b
      {
        if b !in BlockSet(p) {
          assert old(world.Stored(b.worldPos) && world.chunks[ChunkId(b.worldPos)].blocks.items[b.worldPos] == b);
          var d := world.chunks[ChunkId(b.worldPos)];
          assert d in world.chunks.Values;
          if d == this {
            assert b.worldPos in old(blocks.items) - {p};
          }
        }
      }
    }

    /** What one edit at cell `p` changed outside this chunk's block map:
        nothing in the other chunks, the occupancy of no other cell, and the
        only block that joined the world sits at `p`. */
    twostate predicate Edited(p: Cell)
      reads world`chunks, world`occupied, world`allBlocks, world.chunks.Values`blocks,
            world.chunks.Values`changesSinceRebuild
    {
      && unchanged(world`chunks) && this in world.chunks.Values
      && (forall d :: d in world.chunks.Values && d != this ==> unchanged(d`blocks, d`changesSinceRebuild))
      && world.occupied - {p} == old(world.occupied) - {p}
      && (forall b :: b in world.allBlocks && b !in old(world.allBlocks) ==> b.worldPos == p)
    }

    /** What the local delta rebuild after an edit at `p` leaves behind: no
        rebuild in progress; this chunk clean, with a current mesh; every
        block at or beside a dirty cell regenerated, every other block
        untouched; every chunk holding a regenerated block, unless it was
        rebuilt before, with a current mesh; every other mesh unchanged. */
    twostate predicate RebuiltAround(p: Cell)
      reads *
    {
      && world.Valid() && changesSinceRebuild == {} && MeshCurrent()
      && (forall b :: b in world.allBlocks && b.worldPos in Near(old(changesSinceRebuild) + {p}) ==> world.Fresh(b))
      && (forall b :: b in old(world.allBlocks) && b in world.allBlocks && b.worldPos !in Near(old(changesSinceRebuild) + {p}) ==>
            b.buffer == old(b.buffer))
      && (forall b :: b in world.allBlocks && b.worldPos in Near(old(changesSinceRebuild) + {p}) && b.chunk !in old(world.rebuilt) ==>
            b.chunk.MeshCurrent())
      && (forall c :: c in old(world.chunks.Values) ==> c.mesh == old(c.mesh) || c.MeshCurrent())
    }

    /** One edit at cell `p` followed by a local delta rebuild of this chunk
        keeps a consistent world consistent: the blocks away from `p` keep
        buffers that still match the occupancy around them, and a chunk whose
        mesh was left alone holds none of the blocks that changed. */
    twostate lemma EditKeepsConsistent(p: Cell)
      requires old(world.Consistent()) && Edited(p) && RebuiltAround(p)
      ensures world.Consistent()
    {
      assert old(changesSinceRebuild) == {};
      assert old(changesSinceRebuild) + {p} == {p};
      NearHasDirty({p});
      world.EditKeepsFresh(p);
      EditKeepsMeshes(p);
    }

    /** The meshes of the chunks other than the edited one stay current: a
        mesh that was not rebuilt or combined belongs to a chunk none of whose
        blocks changed. */
    twostate lemma EditKeepsMeshes(p: Cell)
      requires old(world.Consistent()) && unchanged(world`chunks) && this in world.chunks.Values
      requires world.Structure() && changesSinceRebuild == {} && MeshCurrent()
      requires forall d :: d in world.chunks.Values && d != this ==> unchanged(d`blocks, d`changesSinceRebuild)
      requires forall b :: b in world.allBlocks && b !in old(world.allBlocks) ==> b.worldPos in Near({p})
      requires forall b :: b in old(world.allBlocks) && b in world.allBlocks && b.worldPos !in Near({p}) ==> b.buffer == old(b.buffer)
      requires forall b :: b in world.allBlocks && b.worldPos in Near({p}) ==> b.chunk.MeshCurrent()
      requires forall d :: d in world.chunks.Values ==> d.mesh == old(d.mesh) || d.MeshCurrent()
      ensures forall d :: d in world.chunks.Values ==> d.changesSinceRebuild == {} && d.MeshCurrent()
    {
      forall d | d in world.chunks.Values && d != this
        ensures d.changesSinceRebuild == {} && d.MeshCurrent()
      {
        if !d.MeshCurrent() {
          world.ChunkFacts(d);
          forall b | b in d.blocks.items.Values
            ensures unchanged(b`buffer)
          {
            var q :| q in d.blocks.items && d.blocks.items[q] == b;
          }
          MeshKept(d);
        }
      }
    }
  }

  /** Every dirty cell is near itself. */
  lemma NearHasDirty(dirty: set<Cell>)
    ensures dirty <= Near(dirty)
  {
    forall q | q in dirty
      ensures q in Near(dirty)
    {
      assert Add(N7_OFFSETS[6], q) == q;
    }
  }

  /** A chunk's mesh stays current while neither its block map, nor its
      mesh, nor any of its blocks' buffers change. */
  twostate lemma MeshKept(c: Chunk)
    requires old(c.MeshCurrent())
    requires unchanged(c`blocks, c`mesh)
    requires forall b :: b in c.blocks.items.Values ==> unchanged(b`buffer)
    ensures c.MeshCurrent()
  {
  }

  /** The structure only depends on the chunk map, the two ghost sets and
      the chunks' block maps. */
  twostate lemma StructureKept(w: World)
    requires old(w.Structure())
    requires unchanged(w`chunks, w`occupied, w`allBlocks)
    requires forall c :: c in w.chunks.Values ==> unchanged(c`blocks)
    ensures w.Structure()
  {
  }

  class World {
    const blockCache: map<string, BlockReferenceGeometry>
    var chunks: map<Cell, Chunk>
    var combinesNeeded: set<Chunk>
    var rebuilt: set<Chunk>
    var neighborMap: map<Cell, seq<Cell>>
    /** The cells that hold a block. */
    ghost var occupied: set<Cell>
    /** Every block of every chunk. */
    ghost var allBlocks: set<ChunkBlock>

    /** `World(program)`: no chunks, the block cache populated for a texture
        of `texCount` rows, both rebuild sets empty, an empty navigation map. */
    constructor (texCount: int)
      requires texCount > 0
      ensures Valid() && CacheValid()
      ensures blockCache == BlockCache(texCount)
      ensures chunks == map[] && neighborMap == map[] && occupied == {}
    {
      blockCache := BlockCache(texCount);
      chunks := map[];
      combinesNeeded := {};
      rebuilt := {};
      neighborMap := map[];
      occupied := {};
      allBlocks := {};
    }

    /** Every cached reference geometry is the unit cube with its type's UV
        placement. */
    ghost predicate CacheValid() {
      forall id :: id in blockCache ==> blockCache[id].Valid()
    }

    /** The block type has a well-formed reference geometry in the cache. */
    predicate Knows(blockId: string) {
      blockId in blockCache && blockCache[blockId].Shaped()
    }

    /** How chunks, blocks and the world refer to each other: each chunk sits
        under its own id and belongs to this world; each block sits under its
        absolute cell, in the chunk owning that cell, with the matching local
        cell; `occupied` and `allBlocks` are the cells and blocks found by
        `get_block`. */
    ghost predicate Structure()
      reads this`chunks, this`occupied, this`allBlocks, chunks.Values`blocks
    {
      && (forall id {:trigger Holds(id, chunks[id])} :: id in chunks ==> Holds(id, chunks[id]))
      && (forall id, p {:trigger chunks[id].blocks.items[p]} :: id in chunks && p in chunks[id].blocks.items ==> p in occupied && chunks[id].blocks.items[p] in allBlocks)
      && (forall p {:trigger Stored(p)} :: p in occupied ==> Stored(p))
      && (forall b {:trigger b in allBlocks} :: b in allBlocks ==> Stored(b.worldPos) && chunks[ChunkId(b.worldPos)].blocks.items[b.worldPos] == b)
    }

    /** The owning chunk of the cell exists and stores a block there. */
    ghost predicate Stored(p: Cell)
      reads this`chunks, chunks.Values`blocks
    {
      ChunkId(p) in chunks && p in chunks[ChunkId(p)].blocks.items
    }

    ghost predicate Holds(id: Cell, c: Chunk)
      reads c`blocks
    {
      && c.world == this && c.chunkId == id && c.worldOffset == WorldOffset(id)
      && c.blocks.Valid()
      && forall p {:trigger Placed(c, p, c.blocks.items[p])} :: p in c.blocks.items ==> Placed(c, p, c.blocks.items[p])
    }

    ghost predicate Placed(c: Chunk, p: Cell, b: ChunkBlock) {
      && ChunkId(p) == c.chunkId
      && b.chunk == c && b.worldPos == p && b.chunkPos == Sub(p, c.worldOffset)
      && Knows(b.blockId)
    }

    /** The structure, with both rebuild sets holding chunks of this world. */
    ghost predicate Store()
      reads this`chunks, this`occupied, this`allBlocks, this`combinesNeeded, this`rebuilt, chunks.Values`blocks
    {
      Structure() && combinesNeeded <= chunks.Values && rebuilt <= chunks.Values
    }

    /** The store with no rebuild in progress. */
    ghost predicate Valid()
      reads this`chunks, this`occupied, this`allBlocks, this`combinesNeeded, this`rebuilt, chunks.Values`blocks
    {
      Store() && combinesNeeded == {} && rebuilt == {}
    }

    /** `get_block`: look the cell up in the chunk that owns it; a missing
        chunk means no block. */
    function GetBlock(worldPos: Cell): (b: ChunkBlock?)
      reads this`chunks, chunks.Values`blocks
      ensures b != null <==> ChunkId(worldPos) in chunks && worldPos in chunks[ChunkId(worldPos)].blocks.items
      ensures b != null ==> b == chunks[ChunkId(worldPos)].blocks.items[worldPos]
    {
      var id := ChunkId(worldPos);
      if id in chunks then chunks[id].GetBlock(worldPos) else null
    }

    /** `int(not bool(get_block(p)))`. */
    function EmptyFlag(worldPos: Cell): (flag: int)
      reads this`chunks, chunks.Values`blocks
      ensures flag == 1 <==> GetBlock(worldPos) == null
      ensures flag == 0 <==> GetBlock(worldPos) != null
    {
      if GetBlock(worldPos) == null then 1 else 0
    }

    /** A cell has a block exactly when it is occupied; the block is the one
        stored under that cell in the chunk with id ChunkId(cell). */
    lemma GetBlockRoutes(p: Cell)
      requires Structure()
      ensures GetBlock(p) != null <==> p in occupied
      ensures GetBlock(p) != null ==>
        && ChunkId(p) in chunks && p in chunks[ChunkId(p)].blocks.items
        && GetBlock(p) == chunks[ChunkId(p)].blocks.items[p]
        && GetBlock(p) in allBlocks && GetBlock(p).worldPos == p && GetBlock(p).chunk == chunks[ChunkId(p)]
        && Knows(GetBlock(p).blockId) && GetBlock(p).chunk.world == this
        && GetBlock(p).chunkPos == Sub(p, GetBlock(p).chunk.worldOffset)
    {
      var id := ChunkId(p);
      if p in occupied {
        assert Stored(p);
      }
      if id in chunks && p in chunks[id].blocks.items {
        assert Holds(id, chunks[id]);
        assert Placed(chunks[id], p, chunks[id].blocks.items[p]);
        assert chunks[id].blocks.items[p] in allBlocks;
      }
    }

    /** Every stored block is found again under its own cell. */
    lemma BlockFacts(b: ChunkBlock)
      requires Structure() && b in allBlocks
      ensures GetBlock(b.worldPos) == b && b.worldPos in occupied
      ensures b.chunk in chunks.Values && b.chunk == chunks[ChunkId(b.worldPos)]
      ensures Knows(b.blockId) && b.chunk.world == this
      ensures b.worldPos == Add(b.chunk.worldOffset, b.chunkPos)
    {
      assert Stored(b.worldPos);
      assert chunks[ChunkId(b.worldPos)].blocks.items[b.worldPos] == b;
      GetBlockRoutes(b.worldPos);
    }

    /** A chunk of the world sits under its own id and is well formed. */
    lemma ChunkFacts(c: Chunk)
      requires Structure() && c in chunks.Values
      ensures c.chunkId in chunks && chunks[c.chunkId] == c && c.world == this && c.blocks.Valid()
      ensures c.worldOffset == WorldOffset(c.chunkId)
      ensures forall p :: p in c.blocks.items ==>
        var b := c.blocks.items[p];
        b in allBlocks && b.chunk == c && b.worldPos == p && Knows(b.blockId)
    {
      var id :| id in chunks && chunks[id] == c;
      assert Holds(id, c);
      forall p | p in c.blocks.items
        ensures var b := c.blocks.items[p];
          b in allBlocks && b.chunk == c && b.worldPos == p && Knows(b.blockId)
      {
        assert Placed(c, p, c.blocks.items[p]);
        GetBlockRoutes(p);
      }
    }

    /** The block's buffer is what `generate` would store now. */
    ghost predicate Fresh(b: ChunkBlock)
      reads this`occupied, b`buffer
    {
      Knows(b.blockId) && b.buffer == BlockBuffer(blockCache[b.blockId], b.chunkPos, b.worldPos, occupied)
    }

    /** The flags a block reads from the world are the flags of the occupied
        set. */
    lemma FlagsFromOccupancy(b: ChunkBlock)
      requires Structure() && b.chunk.world == this
      ensures b.EmptyNeighborFlags() == EmptyFlagsFor(occupied, b.worldPos)
    {
      forall k | 0 <= k < 6 {
        GetBlockRoutes(Neighbors(b.worldPos)[k]);
      }
    }

    /** Progress of a delta pass of chunk `c`: every block at a handled cell
        is fresh, and lies in `c` or in a chunk recorded in
        `combines_needed`. */
    ghost predicate Done(built: set<Cell>, c: Chunk)
      reads this`occupied, this`allBlocks, this`combinesNeeded, allBlocks`buffer
    {
      forall b :: b in allBlocks && b.worldPos in built ==>
        Fresh(b) && (b.chunk != c ==> b.chunk in combinesNeeded)
    }

    /** `reset_rebuild`. */
    method ResetRebuild()
      modifies this`combinesNeeded, this`rebuilt
      ensures combinesNeeded == {} && rebuilt == {}
    {
      combinesNeeded := {};
      rebuilt := {};
    }

    /** `combine_missing`: combine every chunk that needs it and was not
        rebuilt itself, then reset both sets. */
    method CombineMissing()
      requires Store()
      modifies this`combinesNeeded, this`rebuilt, chunks.Values`mesh
      ensures Valid()
      ensures forall c :: c in old(combinesNeeded - rebuilt) ==> c.MeshCurrent()
      ensures forall c :: c in chunks.Values && c !in old(combinesNeeded - rebuilt) ==> c.mesh == old(c.mesh)
    {
      var todo := combinesNeeded - rebuilt;
      ghost var done: set<Chunk> := {};
      while todo != {}
        invariant combinesNeeded == old(combinesNeeded) && rebuilt == old(rebuilt)
        invariant todo + done == old(combinesNeeded - rebuilt) && todo !! done
        invariant forall c :: c in done ==> c.MeshCurrent()
        invariant forall c :: c in chunks.Values && c !in done ==> c.mesh == old(c.mesh)
      {
        var c :| c in todo;
        ChunkFacts(c);
        c.Combine();
        todo := todo - {c};
        done := done + {c};
      }
      ResetRebuild();
      StructureKept(this);
    }

    /** Everything drawn is up to date: no rebuild in progress, every block
        generated against the current occupancy, every chunk clean and its
        mesh built from its blocks' current buffers. */
    ghost predicate Consistent()
      reads this`chunks, this`occupied, this`allBlocks, this`combinesNeeded, this`rebuilt
      reads chunks.Values`blocks, chunks.Values`mesh, chunks.Values`changesSinceRebuild, allBlocks`buffer
      reads (set c, b | c in chunks.Values && b in c.blocks.items.Values :: b)`buffer
    {
      && Valid()
      && (forall b :: b in allBlocks ==> Fresh(b))
      && (forall c :: c in chunks.Values ==> c.changesSinceRebuild == {} && c.MeshCurrent())
    }

    /** `if chunk_id not in self.chunks: self.chunks[chunk_id] =
        Chunk(self, chunk_id)`: the lazy creation shared by `add_block` and
        `add_decor`. A new chunk is empty, clean and has no mesh. */
    method EnsureChunk(id: Cell)
      requires Store()
      modifies this`chunks
      ensures Store()
      ensures id in chunks && chunks[id].chunkId == id
      ensures old(id in chunks) ==> chunks == old(chunks)
      ensures old(id !in chunks) ==>
        && fresh(chunks[id]) && chunks == old(chunks)[id := chunks[id]]
        && chunks[id].blocks == Empty() && chunks[id].mesh == None
        && chunks[id].changesSinceRebuild == {} && chunks[id].decor == Empty()
      ensures old(Consistent()) ==> Consistent()
      ensures forall q :: GetBlock(q) == old(GetBlock(q))
    {
      if id in chunks {
        assert Holds(id, chunks[id]);
      } else {
        var c := new Chunk(this, id);
        chunks := chunks[id := c];
        forall d | d in old(chunks).Values
          ensures d in chunks.Values
        {
          var k :| k in old(chunks) && old(chunks)[k] == d;
          assert chunks[k] == d;
        }
        NewChunkKeepsStructure(c);
        assert c.Content() == [];
      }
    }

    /** `add_block(block_id, world_pos, rebuild)`: route the cell to the
        chunk with id ChunkId(cell), creating that chunk on the first write
        to its region, and store a fresh block there. After the edit with
        `rebuild` (a local delta rebuild), a consistent world is consistent
        again: every block at or beside the cell was regenerated against the
        new occupancy and every chunk holding one has a current mesh. */
    method AddBlock(blockId: string, worldPos: Cell, rebuild: bool)
      requires Store() && Knows(blockId)
      modifies this`chunks, this`occupied, this`allBlocks, this`combinesNeeded, this`rebuilt,
               chunks.Values`blocks, chunks.Values`changesSinceRebuild, chunks.Values`mesh, allBlocks`buffer
      ensures Store()
      ensures ChunkId(worldPos) in chunks
      ensures old(ChunkId(worldPos) in chunks) ==> chunks == old(chunks)
      ensures old(ChunkId(worldPos) !in chunks) ==>
        fresh(chunks[ChunkId(worldPos)]) && chunks == old(chunks)[ChunkId(worldPos) := chunks[ChunkId(worldPos)]]
      ensures GetBlock(worldPos) != null && fresh(GetBlock(worldPos)) && GetBlock(worldPos).blockId == blockId
      ensures forall q :: q != worldPos ==> GetBlock(q) == old(GetBlock(q))
      ensures occupied == old(occupied) + {worldPos}
      ensures !rebuild && old(ChunkId(worldPos) in chunks) ==>
        chunks[ChunkId(worldPos)].changesSinceRebuild == old(chunks[ChunkId(worldPos)].changesSinceRebuild) + {worldPos}
      ensures !rebuild && old(ChunkId(worldPos) !in chunks) ==>
        chunks[ChunkId(worldPos)].changesSinceRebuild == {worldPos}
      ensures !rebuild ==>
        && combinesNeeded == old(combinesNeeded) && rebuilt == old(rebuilt)
        && (forall c :: c in old(chunks.Values) ==> c.mesh == old(c.mesh))
        && (forall b :: b in old(allBlocks) ==> b.buffer == old(b.buffer))
      ensures rebuild && old(Consistent()) ==> Consistent()
    {
      var id := ChunkId(worldPos);
      EnsureChunk(id);
      label ensured:
      var chunk := chunks[id];
      assert Holds(id, chunk);
      chunk.AddBlock(blockId, worldPos, rebuild);
      if rebuild && old(Consistent()) {
        chunk.EditKeepsConsistent@ensured(worldPos);
      }
    }

    /** `remove_block(world_pos, rebuild)`: route the cell to its chunk if
        that chunk exists; a missing chunk is never created. Afterwards the
        cell is empty; if it held nothing, nothing changed. As for adding,
        the edit with `rebuild` keeps a consistent world consistent. */
    method RemoveBlock(worldPos: Cell, rebuild: bool)
      requires Store()
      modifies this`occupied, this`allBlocks, this`combinesNeeded, this`rebuilt,
               chunks.Values`blocks, chunks.Values`changesSinceRebuild, chunks.Values`mesh, allBlocks`buffer
      ensures Store()
      ensures chunks == old(chunks)
      ensures GetBlock(worldPos) == null
      ensures forall q :: q != worldPos ==> GetBlock(q) == old(GetBlock(q))
      ensures occupied == old(occupied) - {worldPos}
      ensures worldPos in old(occupied) && !rebuild ==>
        && ChunkId(worldPos) in chunks
        && chunks[ChunkId(worldPos)].changesSinceRebuild == old(chunks[ChunkId(worldPos)].changesSinceRebuild) + {worldPos}
        && combinesNeeded == old(combinesNeeded) && rebuilt == old(rebuilt)
        && (forall c :: c in chunks.Values ==> c.mesh == old(c.mesh))
        && (forall b :: b in old(allBlocks) ==> b.buffer == old(b.buffer))
      ensures worldPos !in old(occupied) ==>
        && allBlocks == old(allBlocks) && combinesNeeded == old(combinesNeeded) && rebuilt == old(rebuilt)
        && (forall c :: c in chunks.Values ==> unchanged(c`blocks, c`changesSinceRebuild, c`mesh))
        && (forall b :: b in allBlocks ==> unchanged(b`buffer))
      ensures rebuild && old(Consistent()) ==> Consistent()
    {
      var id := ChunkId(worldPos);
      GetBlockRoutes(worldPos);
      if id in chunks {
        var chunk := chunks[id];
        ChunkFacts(chunk);
        chunk.RemoveBlock(worldPos, rebuild);
        ChunkFacts(chunk);
        if rebuild && old(Consistent()) && worldPos in old(chunk.blocks.items) {
          chunk.EditKeepsConsistent(worldPos);
        }
      }
      GetBlockRoutes(worldPos);
    }

    /** `add_decor`: file the decoration under the chunk owning the block
        cell its position falls in, creating that chunk if needed. */
    method AddDecor(d: Decor)
      requires Store()
      modifies this`chunks, chunks.Values`decor
      ensures Store()
      ensures DecorChunkId(d.pos) in chunks
      ensures forall id :: id in old(chunks) ==> id in chunks && chunks[id] == old(chunks[id])
      ensures chunks.Keys == old(chunks.Keys) + {DecorChunkId(d.pos)}
      ensures forall id :: id in old(chunks) && id != DecorChunkId(d.pos) ==> chunks[id].decor == old(chunks[id].decor)
      ensures var id := DecorChunkId(d.pos);
        var before := if old(id in chunks) then old(chunks[id].decor) else Empty();
        var c := chunks[id];
        && (d.group in before.items ==> c.decor.keys == before.keys)
        && (d.group !in before.items ==> c.decor.keys == before.keys + [d.group])
        && c.decor.items == before.items[d.group := (if d.group in before.items then before.items[d.group] else []) + [d]]
      ensures old(Consistent()) ==> Consistent()
    {
      var id := DecorChunkId(d.pos);
      EnsureChunk(id);
      var c := chunks[id];
      OwnChunk(id);
      c.AddDecor(d);
    }

    /** The chunk under `id` belongs to this world and sits under no other id. */
    lemma OwnChunk(id: Cell)
      requires Structure() && id in chunks
      ensures chunks[id].world == this && chunks[id].chunkId == id
      ensures forall other :: other in chunks && other != id ==> chunks[other] != chunks[id]
    {
      assert Holds(id, chunks[id]);
      forall other | other in chunks && other != id
        ensures chunks[other] != chunks[id]
      {
        assert Holds(other, chunks[other]);
      }
    }

    /** `rebuild(deltas_only)`: rebuild every chunk (not locally), then
        `combine_missing`. Afterwards no rebuild is in progress and every
        chunk is clean. A full rebuild leaves the world consistent: every
        block regenerated against the current occupancy and every mesh
        current. A delta rebuild promises no such thing: a chunk rebuilt
        early in the loop is left out of the combining pass even when a later
        chunk regenerates one of its blocks. The chunks are taken in any
        order. */
    method Rebuild(deltasOnly: bool)
      requires Store()
      modifies this`combinesNeeded, this`rebuilt, chunks.Values`changesSinceRebuild, chunks.Values`mesh, allBlocks`buffer
      ensures Valid()
      ensures forall c :: c in chunks.Values ==> c.changesSinceRebuild == {}
      ensures !deltasOnly ==> Consistent()
    {
      var todo := chunks.Values;
      ghost var done: set<Chunk> := {};
      while todo != {}
        invariant Store() && chunks == old(chunks) && allBlocks == old(allBlocks)
        invariant todo + done == chunks.Values && todo !! done
        invariant Swept(done, !deltasOnly)
        decreases |todo|
      {
        var c :| c in todo;
        RebuildOne(c, deltasOnly, done);
        todo := todo - {c};
        done := done + {c};
      }
      FinishRebuild(!deltasOnly);
    }

    /** The chunks in `done` are clean; after a full pass their meshes are
        current and their blocks fresh. */
    ghost predicate Swept(done: set<Chunk>, full: bool)
      reads *
    {
      && (forall c :: c in done ==> c.changesSinceRebuild == {})
      && (full ==> forall c :: c in done ==> c.MeshCurrent())
      && (full ==> forall b :: b in allBlocks && b.chunk in done ==> Fresh(b))
    }

    /** The tail of `rebuild`: `combine_missing`. Combining rewrites meshes
        only, so after a full pass, which left every chunk with a current
        mesh and every block fresh, the world is consistent. */
    method FinishRebuild(full: bool)
      requires Store() && Swept(chunks.Values, full)
      modifies this`combinesNeeded, this`rebuilt, chunks.Values`mesh
      ensures Valid()
      ensures forall c :: c in chunks.Values ==> c.changesSinceRebuild == {}
      ensures full ==> Consistent()
    {
      if full {
        forall b | b in allBlocks
          ensures Fresh(b)
        {
          BlockFacts(b);
        }
      }
      label start:
      CombineMissing();
      if full {
        forall d | d in chunks.Values
          ensures d.MeshCurrent()
        {
          if d !in old@start(combinesNeeded - rebuilt) {
            ChunkFacts(d);
            MeshKept@start(d);
          }
        }
      }
    }

    /** One turn of the loop of `rebuild`: rebuild chunk `c`. The dirty sets
        of the chunks done before stay empty; after a full rebuild of `c`
        their meshes and buffers stay current as well, because a full rebuild
        writes only `c`'s own blocks and mesh. */
    method RebuildOne(c: Chunk, deltasOnly: bool, ghost done: set<Chunk>)
      requires Store() && c in chunks.Values && c !in done && done <= chunks.Values
      requires Swept(done, !deltasOnly)
      modifies this`combinesNeeded, this`rebuilt, chunks.Values`changesSinceRebuild, chunks.Values`mesh, allBlocks`buffer
      ensures Store() && unchanged(this`chunks, this`occupied, this`allBlocks)
      ensures Swept(done + {c}, !deltasOnly)
    {
      ChunkFacts(c);
      c.Rebuild(deltasOnly, false);
      if !deltasOnly {
        forall d | d in done
          ensures d.MeshCurrent()
        {
          ChunkFacts(d);
          MeshKept(d);
        }
      }
    }

    /** The blocks away from an edited cell stay fresh. */
    twostate lemma EditKeepsFresh(p: Cell)
      requires forall b :: old(b in allBlocks) ==> old(Fresh(b))
      requires occupied - {p} == old(occupied) - {p}
      requires forall b :: b in allBlocks && b !in old(allBlocks) ==> b.worldPos in Near({p})
      requires forall b :: b in allBlocks && b.worldPos in Near({p}) ==> Fresh(b)
      requires forall b :: b in old(allBlocks) && b in allBlocks && b.worldPos !in Near({p}) ==> b.buffer == old(b.buffer)
      ensures forall b :: b in allBlocks ==> Fresh(b)
    {
      forall b | b in allBlocks && b.worldPos !in Near({p})
        ensures Fresh(b)
      {
        assert old(Fresh(b));
        NearEdit(b.worldPos, p);
        forall k | 0 <= k < 6
          ensures Add(b.worldPos, N6_OFFSETS[k]) in old(occupied) <==> Add(b.worldPos, N6_OFFSETS[k]) in occupied
        {
          var q := Add(b.worldPos, N6_OFFSETS[k]);
          assert q != p;
          assert q in old(occupied) <==> q in old(occupied) - {p};
          assert q in occupied <==> q in occupied - {p};
        }
        EmptyFlagsAgree(old(occupied), occupied, b.worldPos);
      }
    }

    /** Adding a new empty chunk under its own id keeps the structure. */
    twostate lemma NewChunkKeepsStructure(new c: Chunk)
      requires old(Structure()) && unchanged(this`occupied, this`allBlocks)
      requires c.chunkId !in old(chunks) && chunks == old(chunks)[c.chunkId := c]
      requires c.world == this && c.worldOffset == WorldOffset(c.chunkId) && c.blocks == Empty()
      requires forall d :: d in old(chunks.Values) ==> unchanged(d`blocks)
      ensures Structure()
    {
      forall id | id in chunks && id != c.chunkId
        ensures Holds(id, chunks[id])
      {
        assert old(chunks[id]) in old(chunks.Values);
        assert old(Holds(id, chunks[id]));
      }
      forall id, q | id in chunks && q in chunks[id].blocks.items
        ensures q in occupied && chunks[id].blocks.items[q] in allBlocks
      {
        assert old(chunks[id]) in old(chunks.Values);
      }
      forall q | q in occupied
        ensures Stored(q)
      {
        assert old(Stored(q));
        assert old(chunks[ChunkId(q)]) in old(chunks.Values);
      }
      forall b | b in allBlocks
        ensures Stored(b.worldPos) && chunks[ChunkId(b.worldPos)].blocks.items[b.worldPos] == b
      {
        assert old(Stored(b.worldPos));
        assert old(chunks[ChunkId(b.worldPos)]) in old(chunks.Values);
      }
    }
  }
}
