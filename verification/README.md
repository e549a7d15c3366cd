# VRResearch world, shapes and model loading — a Dafny model

This project models the CPU-side core of the VRResearch engine.

- **The voxel world** (`mgllib/world`):
  - cells and how they are routed to 16-cube chunks;
  - the reference cube of a block type and its localization into a chunk;
  - the neighbour flags that hide faces between occupied cells;
  - chunks with their block maps, decorations, dirty sets and full or delta rebuilds;
  - the world's add/remove/rebuild bookkeeping (`combines_needed` and `rebuilt`);
  - the `nearby_blocks` and `check_block` queries;
  - the navigation graph built by `gen_navmesh` (seed scan, breadth-first flood, diagonals on level ground);
  - the heuristic hooks of the A* pathfinder.
- **Axis-aligned cuboids** (`mgllib/shapes/cuboid.py`): centred, floor-anchored and corner-anchored boxes; their face getters and setters; collision with other boxes and with points; the axis-by-axis `move` that snaps against blockers and reports which faces were struck.
- **Model loading** (`mgllib/model`):
  - the `VertexFormat` parser for pywavefront format strings;
  - the loop that cuts each material's flat float list into per-vertex attribute dictionaries;
  - `Geometry`'s bounds, center and recentring;
  - the flattening `build` does before it uploads buffers;
  - the texture bitmask and the uniform names of `TexturedVAOs`.
- **Inventory slots** (`mgllib/player_body.py`): `InventorySlot.attach` and `take`, which keep the slot and the held item pointing at each other.

Code that changes state in place is modelled as classes whose methods carry `modifies` frames:

- `World`, `Chunk`, `ChunkBlock`;
- `Cuboid`;
- `Geometry`;
- `TexturedVAOs`;
- `InventorySlot`, `Item`.

Loops are methods with invariants, each proved against a specification function. The properties the engine relies on are lemmas about those functions:

- the loader's slicing and `build`'s flattening are inverse;
- `center` moves the center to the origin;
- a delta rebuild regenerates exactly the blocks at and beside the edited cells;
- a local edit keeps a consistent world consistent;
- `nearby_blocks` returns exactly the blocks in the box, in order;
- the flood reaches only standable cells and links them by `path_neighbors`;
- a move flags only faces on the side it moved towards.

Python dictionaries, which keep insertion order, are `Dicts.Dict`: a key list plus a map.

## Model

| member | source | states |
|---|---|---|
| Coords.ChunkIdIsOwner | mgllib/world/world.py:121 | the chunk id a cell is routed to (each coordinate floor-divided by 16) is the one chunk whose 16-cube, starting at `chunk_id * CHUNK_SIZE`, contains the cell, both directions |
| Coords.WorldToBlockContains | mgllib/world/world.py:172-173 | `world_to_block` gives exactly the cell whose cube of side `BLOCK_SCALE` contains the position, both directions |
| Coords.DecorChunkOwnsCell | mgllib/world/world.py:112-114 | the chunk `add_decor` files a decoration under (position over the block scale, floor-divided by 16) is the chunk owning the block cell the position falls in |
| CoordGen.TupleSum | mgllib/world/coord_gen.py:39-40 | the sum has the first tuple's length and is component-wise |
| CoordGen.GenPane | mgllib/world/coord_gen.py:9-37 | a pane is six vertices of five coordinates plus the normal; the two triangles share the two edge corners (vertex 1 is vertex 5, vertex 2 is vertex 4) |
| CoordGen.FlipSwapsEdges | mgllib/world/coord_gen.py:23-24 | `flip` gives the same corners with the two edge corners exchanged in each triangle |
| CoordGen.PaneIsFlat | mgllib/world/coord_gen.py:13-21 | with exactly one zero scale component, every vertex keeps the base coordinate on that axis |
| CoordGen.GenCube | mgllib/world/coord_gen.py:42-61 | a cube is 36 vertices of 8 floats |
| CoordGen.CubeFaceNormals | mgllib/world/coord_gen.py:53-60 | vertex i carries the normal of face i / 6 in the order front, back, right, left, top, bottom |
| CoordGen.CubeFacePlanes | mgllib/world/coord_gen.py:53-60 | every vertex of a face lies on the cube side its normal points out of (at `scale` for +z, +x, +y and at 0 for the others) |
| CoordGen.CubeUvBias | mgllib/world/coord_gen.py:48-50 | each face's first vertex has its UV moved in by the bias and its column width shrunk by twice the bias |
| Block.FlattenAppend | mgllib/world/block.py:11-12 | `flatten` distributes over concatenation of the outer list |
| Block.N7IsN6AndSelf | mgllib/world/block.py:28-29 | the seven rebuild offsets are the six face offsets and the cell itself |
| Block.FaceNormalsAreN6 | mgllib/world/block.py:28 | face k of the generated cube faces the neighbour at the k-th face offset |
| Block.Neighbors | mgllib/world/block.py:104-106 | the neighbours are the six cells at the face offsets, in offset order |
| Block.BlockReferenceGeometry.Localize | mgllib/world/block.py:83-88 | the loop appends exactly the shifted vertices whose face flag (`i // 6`) is set, in order |
| Block.LocalizedByFaces | mgllib/world/block.py:83-88 | localizing the first m faces concatenates each face's six shifted vertices when its flag is set and nothing otherwise |
| Block.LocalizedAllOnes | mgllib/world/block.py:83 | with the default all-ones flags every raw vertex is kept, shifted |
| Block.FaceKept | mgllib/world/block.py:86 | the six vertices of face k are kept exactly when flag k is set |
| Block.ReferenceGeometry | mgllib/world/block.py:65-81 | the reference cube of a block type spans one sixth of the texture width per face and one texture row, and starts at the row counted from the top by the block's number |
| Block.BlockCache | mgllib/world/block.py:115-117 | the cache holds one reference geometry per block type, built for that type |
| Block.EmptyFlagsFor | mgllib/world/block.py:108-110 | flag k is 1 exactly when the cell across face k holds no block and 0 exactly when it does |
| Block.EmptyFlagsAgree | mgllib/world/block.py:108-110 | the flags depend only on the six neighbour cells |
| Block.OwnCellIsNoNeighbor | mgllib/world/block.py:104-106 | no face offset leads back to the block's own cell |
| Block.GeneratedFaces | mgllib/world/block.py:112-113 | a generated buffer is the six face outputs in cube order; face k is missing exactly when the cell across it is occupied, and its vertices carry the normal pointing at that cell |
| Cuboids.Vec3.Put | mgllib/shapes/cuboid.py:25-26 | writing one component of the origin leaves the other two as they were |
| Cuboids.UpperFace | mgllib/shapes/cuboid.py:21-54 | right, top and front are the faces on the increasing side of x, y and z |
| Cuboids.LowerFace | mgllib/shapes/cuboid.py:28-61 | left, bottom and back are the faces on the decreasing side of x, y and z |
| Cuboids.WithFace | mgllib/shapes/cuboid.py:25-61 | a face setter puts that face at the given value and moves only the origin component of the face's axis |
| Cuboids.SetFaceKeepsExtent | mgllib/shapes/cuboid.py:21-61 | setting a face moves the opposite face by the same amount, so the extent along that axis is kept, for centred, floor and corner boxes |
| Cuboids.Collide | mgllib/shapes/cuboid.py:63-68 | boxes that share a point strictly inside both collide |
| Cuboids.CollideSymmetric | mgllib/shapes/cuboid.py:63-68 | `a.collidecuboid(b)` equals `b.collidecuboid(a)` |
| Cuboids.ProperFaces | mgllib/shapes/cuboid.py:21-61 | with non-negative sizes the lower face is not above the upper face on any axis |
| Cuboids.CollideIsOverlap | mgllib/shapes/cuboid.py:63-68 | between boxes of non-negative size, a collision is strict overlap on all three axes: the second, reversed disjunct never holds |
| Cuboids.TouchingDoesNotCollide | mgllib/shapes/cuboid.py:63-68 | boxes that only touch along some axis do not collide |
| Cuboids.PointIsEmptyBox | mgllib/shapes/cuboid.py:70-71 | `collidepoint` holds exactly when the box collides with an empty corner box at that point, so a point on a face is not inside |
| Cuboids.FirstHit | mgllib/shapes/cuboid.py:73-76 | the first blocker in list order that the box collides with; none when it collides with none |
| Cuboids.Cuboid.CollisionCheck | mgllib/shapes/cuboid.py:73-76 | the loop returns that first colliding blocker, or nothing |
| Cuboids.Advance | mgllib/shapes/cuboid.py:81 | `origin[a] += m` changes only that component; a zero step changes nothing |
| Cuboids.Resolve | mgllib/shapes/cuboid.py:83-89 | with a blocker, a positive step puts the upper face on the blocker's lower face and records the upper face, a negative step the reverse, a zero step nothing |
| Cuboids.StepAlong | mgllib/shapes/cuboid.py:81-89 | one axis step changes only that axis; a zero step changes nothing; a recorded face lies on the step's axis and side |
| Cuboids.StepSnaps | mgllib/shapes/cuboid.py:81-89 | a recorded face ends flush with the opposite face of the first blocker the advanced box hit |
| Cuboids.NoCollisionsAllFalse | mgllib/shapes/cuboid.py:1-8 | the initial flags hold all six faces, all false |
| Cuboids.Record | mgllib/shapes/cuboid.py:84-89 | recording adds the struck face as true and keeps the other flags |
| Cuboids.MoveBox | mgllib/shapes/cuboid.py:78-111 | `move` steps x, then y, then z, keeps the box's anchor and size, and returns a flag for every face |
| Cuboids.MoveFlags | mgllib/shapes/cuboid.py:78-111 | a face is flagged only when the movement along its axis went towards it; a zero component flags neither face of its axis; no axis gets both faces flagged |
| Cuboids.RecordedFlags | mgllib/shapes/cuboid.py:79-109 | the same facts for any three recorded steps, one per axis |
| Cuboids.Cuboid.constructor | mgllib/shapes/cuboid.py:11-13 | a cuboid starts at the given origin and size |
| Cuboids.Cuboid.SetFace | mgllib/shapes/cuboid.py:25-61 | the face setters, in place: the face is at the given value and the box is `WithFace` of the old one |
| Cuboids.Cuboid.MoveAlong | mgllib/shapes/cuboid.py:81-109 | one axis step in place: the new box and flags are those of `StepAlong` |
| Cuboids.Cuboid.Move | mgllib/shapes/cuboid.py:78-111 | the new box and the returned flags are those of `MoveBox` on the old box |
| Navmesh.Above | mgllib/world/world.py:127-129 | the cell `dy` above keeps x and z and adds `dy` to y |
| Navmesh.Solid | mgllib/world/world.py:120-123 | `get_block` finds a block in a well-formed store exactly when the cell is occupied |
| Navmesh.ValidPathing | mgllib/world/world.py:125-131 | in a well-formed store, a walker can stand in a cell exactly when the cell below holds a block and the cell and the two above it do not |
| Navmesh.Steps | mgllib/world/world.py:151-157 | the neighbour list holds at most one cell per movement direction, and every listed cell is one a walker can stand in |
| Navmesh.PathNeighbors | mgllib/world/world.py:151-157 | the loop returns the valid cells one movement direction away, in the order of `VALID_MOVEMENT_DIRECTIONS` |
| Navmesh.ValidStepsMembers | mgllib/world/world.py:151-157 | a cell is in the list exactly when it is valid and one of the twelve directions away |
| Navmesh.ValidStepsHead | mgllib/world/world.py:151-157 | the list is empty exactly when no direction leads to a valid cell; otherwise its head comes from the earliest such direction |
| Navmesh.FindValidPathDestination | mgllib/world/world.py:133-144 | the cell itself if valid, else the one below, else the one above, else the first valid neighbour, else nothing; whatever is returned is valid |
| Navmesh.LookupNeighbors | mgllib/world/world.py:146-149 | the cell's list in the graph, or the empty list for a cell the graph does not hold |
| Navmesh.ScanValid | mgllib/world/world.py:68-77 | whatever the seed scan finds is a valid cell |
| Navmesh.ScanFinds | mgllib/world/world.py:68-77 | the scan finds the first valid cell, checking up before down at each distance, and finds nothing only when every distance below `scan_range` misses both |
| Navmesh.FindSeed | mgllib/world/world.py:68-77 | the scanning loop returns the scan's result |
| Navmesh.NewCellsFacts | mgllib/world/world.py:83-86 | the cells a turn queues are distinct, unseen and neighbours; afterwards every neighbour has been seen; nothing is queued exactly when all were seen |
| Navmesh.Enqueue | mgllib/world/world.py:83-86 | the inner loop appends exactly the unseen neighbours to the queue and adds all neighbours to `seen` |
| Navmesh.FloodOrderValid | mgllib/world/world.py:78-88 | every cell the flood visits from a valid seed is valid |
| Navmesh.Members | mgllib/world/world.py:80 | `set(remaining)`: the set holds exactly the list's cells |
| Navmesh.FloodFrom | mgllib/world/world.py:79-88 | the breadth-first loop ends, with every reached cell holding its `path_neighbors` list, no list leading out of the reached cells, each later cell a step from an earlier one, and the graph's other entries untouched |
| Navmesh.Visit | mgllib/world/world.py:81-88 | one turn keeps the flood's invariant and shrinks the count of unqueued candidate cells or the queue |
| Navmesh.FloodTurn | mgllib/world/world.py:81-88 | the graph written at the head cell plus the newly queued cells keep the flood's invariant |
| Navmesh.FloodGap | mgllib/world/world.py:83-86 | a turn queues only cells that stand on a block, so the unqueued candidates drop unless nothing is queued |
| Navmesh.NeighborsCandidates | mgllib/world/world.py:151-157 | every cell one step away that is valid stands on a block |
| Navmesh.FloodDone | mgllib/world/world.py:81 | once the queue is empty, the flood's result holds |
| Navmesh.Flood | mgllib/world/world.py:78-88 | the flood run on the world's graph: the new graph is the flood's result over the old one |
| Navmesh.DiagonalsForMembers | mgllib/world/world.py:90-97 | a diagonal is appended exactly when it is a key of the graph and one of its two corner steps is already in the cell's list |
| Navmesh.DiagonalsLocal | mgllib/world/world.py:90-97 | a cell's diagonals depend only on the graph's keys and that cell's own list |
| Navmesh.ValidDiagonals | mgllib/world/world.py:92-96 | the inner loop collects the cell's diagonals in `DIAGONAL_CHECKS` order |
| Navmesh.AddDiagonals | mgllib/world/world.py:90-98 | the new graph has every cell's list extended by its diagonals, computed while earlier cells are already extended |
| Navmesh.GenNavmesh | mgllib/world/world.py:67-98 | scan, then flood from the seed if one is found, then add the diagonals; the graph is never cleared first |
| Navmesh.OffsetShapes | mgllib/world/world.py:16-21 | every diagonal moves along both x and z; every corner step along at most one |
| Navmesh.DiagonalsOffAxis | mgllib/world/world.py:90-97 | an appended diagonal is never a corner step of the cell it is appended to |
| Navmesh.DiagonalsStable | mgllib/world/world.py:90-98 | extending earlier cells first does not change the diagonals of later cells |
| Navmesh.DiagonalsCornersAgree | mgllib/world/world.py:90-97 | graphs with the same keys and the same corner entries in a cell's list give the cell the same diagonals |
| Navmesh.DiagonalPassExtends | mgllib/world/world.py:90-98 | the diagonal pass keeps the graph's keys and only appends: every list keeps its entries in front and gains at most one diagonal per check |
| Navmesh.RepeatedPassDuplicates | mgllib/world/world.py:90-98 | running the diagonal pass over its own output appends every cell's diagonals a second time |
| Navmesh.ReFloodedOnce | mgllib/world/world.py:79-98 | a cell the flood reaches has its list reset to its steps, so after `gen_navmesh` it holds its steps and one set of diagonals, whatever it held before |
| Navmesh.UnreachedGetsDiagonalsAgain | mgllib/world/world.py:67-98 | on a second `gen_navmesh`, a cell the new flood does not reach keeps its list, first diagonals included, and gets a second set of diagonals taken over the new keys |
| Navmesh.NoFloodKeepsGraph | mgllib/world/world.py:78-88 | without a seed the flood leaves the graph as it was |
| Navmesh.NoSeedRepeatsDiagonals | mgllib/world/world.py:67-98 | a second `gen_navmesh` that finds no seed appends every cell's diagonals a second time, over the same keys |
| Queries.CheckBlock | mgllib/world/world.py:176-179 | `check_block` returns the block `get_block` gives for the cell whose scaled cube holds the position |
| Queries.ScaledCubeCell | mgllib/world/world.py:177 | only the cell `world_to_block` computes holds the position in its scaled cube |
| Queries.CheckBlockFinds | mgllib/world/world.py:176-179 | `check_block` finds a block exactly when the scaled cell holding the position is occupied, and it is the block stored at that cell |
| Queries.Span | mgllib/world/world.py:162-164 | `len(range(2 * r + 1))` is zero exactly for a negative radius |
| Queries.NearbyBlocks | mgllib/world/world.py:159-169 | the three loops return the box's blocks, x outermost, then y, then z |
| Queries.StructureIndexed | mgllib/world/chunk.py:120-132 | a stored block sits at the cell under which it is stored |
| Queries.ZRowWithin | mgllib/world/world.py:164-168 | the innermost loop collects only stored blocks of its row |
| Queries.ZRowCovers | mgllib/world/world.py:164-168 | the innermost loop collects every stored block of its row |
| Queries.ZRowOrder | mgllib/world/world.py:164-168 | the innermost loop collects by increasing z |
| Queries.YPlaneWithin | mgllib/world/world.py:163-168 | the middle loop collects only stored blocks of its plane |
| Queries.YPlaneCovers | mgllib/world/world.py:163-168 | the middle loop collects every stored block of its plane |
| Queries.YPlaneOrder | mgllib/world/world.py:163-168 | the middle loop collects by increasing y, then z |
| Queries.BoxWithin | mgllib/world/world.py:162-168 | the outer loop collects only stored blocks of its box |
| Queries.BoxCovers | mgllib/world/world.py:162-168 | the outer loop collects every stored block of its box |
| Queries.BoxOrder | mgllib/world/world.py:162-168 | the outer loop collects by increasing x, then y, then z |
| Queries.NearbyBlocksExact | mgllib/world/world.py:159-169 | `nearby_blocks` returns exactly the stored blocks within `radii` of `world_to_block(pos)`, each once, in x, y, z order |
| Queries.NearIsBox | mgllib/world/world.py:162-165 | the cells the loops visit are exactly those within `radii` on every axis |
| Pathfinding.Square | mgllib/world/world.py:40 | `a ** 2` is non-negative and zero exactly for zero |
| Pathfinding.SquaredDistance | mgllib/world/world.py:39-40 | the squared distance is non-negative and zero exactly for equal cells |
| Pathfinding.SquaredDistanceSymmetric | mgllib/world/world.py:39-40 | the squared distance does not depend on the order of the cells |
| Pathfinding.Pathfinder.constructor | mgllib/world/world.py:24-29 | a pathfinder starts with no heuristic calls counted |
| Pathfinding.Pathfinder.ResetSearch | mgllib/world/world.py:31-32 | `astar` restarts the count at zero |
| Pathfinding.Pathfinder.Neighbors | mgllib/world/world.py:35-37 | the node's list in the graph, or no neighbours |
| Pathfinding.Pathfinder.DistanceBetween | mgllib/world/world.py:39-40 | the distance from a cell to itself is the square root of zero |
| Pathfinding.Pathfinder.DistanceSymmetric | mgllib/world/world.py:39-40 | the distance does not depend on the order of the cells |
| Pathfinding.Pathfinder.HeuristicCostEstimate | mgllib/world/world.py:42-47 | counts the call; fails with `MaxDepthReached` exactly when the count reaches `max_depth`; otherwise returns the distance to the goal |
| Pathfinding.Pathfinder.IsGoalReached | mgllib/world/world.py:49-50 | the goal is reached exactly when the squared distance to it, the heuristic's measure, is zero |
| World.MeshOf | mgllib/world/chunk.py:61-72 | a chunk has a mesh exactly when its content is non-empty, and the mesh holds that content |
| World.NearEdit | mgllib/world/chunk.py:96-98 | the cells a delta rebuild visits for one dirty cell are that cell and the cells that have it across one of their faces |
| World.AroundUpToMembers | mgllib/world/chunk.py:97-98 | the first n offsets of `N7_OFFSETS` around a cell give exactly the cells at those offsets |
| World.NearGrows | mgllib/world/chunk.py:96-102 | handling one more dirty cell adds exactly its seven cells to those handled |
| World.NearHasDirty | mgllib/world/chunk.py:96-98 | every dirty cell is among the cells a delta rebuild regenerates |
| World.ChunkBlock.constructor | mgllib/world/block.py:90-102 | the block's absolute cell is the chunk's offset plus its local cell, its scaled cell is that times `BLOCK_SCALE`, and its buffer is generated at once against the current world |
| World.ChunkBlock.EmptyNeighborFlags | mgllib/world/block.py:108-110 | six flags; flag k is 1 exactly when the world has no block across face k, and 0 exactly when it has one |
| World.ChunkBlock.Generate | mgllib/world/block.py:112-113 | the buffer becomes the type's reference cube localized at the block's cell with the faces whose neighbour is empty |
| World.Chunk.constructor | mgllib/world/chunk.py:11-32 | a new chunk has no blocks, no dirty cells, no mesh and no decorations; its offset is its id times `CHUNK_SIZE` |
| World.Chunk.GetBlock | mgllib/world/chunk.py:120-122 | the block stored at the cell, or nothing exactly when no block is stored there |
| World.Chunk.ContentIsFlatten | mgllib/world/chunk.py:56-57 | the content of the first n blocks is the in-order concatenation of their buffers |
| World.Chunk.CollectContent | mgllib/world/chunk.py:54-57 | the loop concatenates the blocks' buffers in block-map order |
| World.Chunk.Combine | mgllib/world/chunk.py:51-59 | the mesh is rebuilt from the blocks' current buffers, none regenerated |
| World.Chunk.AddDecor | mgllib/world/chunk.py:34-38 | the decoration is appended to its group's list; a new group's list is created empty first, at the end of the group order |
| World.Chunk.RegenerateAll | mgllib/world/chunk.py:90-93 | every block of the chunk is regenerated against the current world and the content is their fresh buffers in block-map order |
| World.Chunk.GenerateEach | mgllib/world/chunk.py:91-93 | the loop regenerates each block in turn; the earlier blocks stay fresh because generating one block writes only its own buffer |
| World.Chunk.RegenerateAround | mgllib/world/chunk.py:95-107 | exactly the blocks at and beside the dirty cells are regenerated, whichever chunk holds them, the others keep their buffers, and every other chunk holding such a block joins `combines_needed` |
| World.Chunk.RegenerateNeighborhood | mgllib/world/chunk.py:97-107 | one dirty cell: its seven cells in `N7_OFFSETS` order are handled, each skipped when already handled |
| World.Chunk.RegenerateCell | mgllib/world/chunk.py:99-107 | one cell: the block there, if any, is regenerated and its chunk recorded when it is not this one; no other buffer changes |
| World.Chunk.RebuildMesh | mgllib/world/chunk.py:84-115 | a full rebuild regenerates exactly this chunk's blocks; a delta rebuild exactly the blocks near the dirty cells; either way the dirty set is cleared, the chunk joins `rebuilt` and its mesh is its blocks' content |
| World.Chunk.RebuildFull | mgllib/world/chunk.py:90-115 | the full pass: every own block fresh, all other buffers unchanged, the mesh current |
| World.Chunk.RebuildDelta | mgllib/world/chunk.py:94-115 | the delta pass: blocks near the dirty cells fresh, all other buffers unchanged, the chunks of regenerated foreign blocks recorded, the mesh current |
| World.Chunk.Conclude | mgllib/world/chunk.py:112-115 | the dirty set is cleared, the chunk joins `rebuilt` and the mesh holds the content |
| World.Chunk.Rebuild | mgllib/world/chunk.py:84-118 | as `RebuildMesh`, and a local delta rebuild then recombines every other chunk whose blocks it regenerated, so each of them has a current mesh |
| World.Chunk.EditKeepsConsistent | mgllib/world/chunk.py:84-141 | one block edit followed by a local delta rebuild keeps a consistent world consistent: every block buffer matches the occupancy around it and every mesh left alone is current |
| World.Chunk.RebuildLocal | mgllib/world/chunk.py:117-118 | the local delta rebuild followed by `combine_missing` |
| World.Chunk.AddBlock | mgllib/world/chunk.py:124-132 | a new block, generated at once, takes the cell (replacing any block there) and every other cell's `get_block` is unchanged; the cell becomes dirty; with `rebuild` the chunk is rebuilt locally from its deltas, and without it no mesh, no block buffer and neither rebuild set changes |
| World.Chunk.RemoveBlock | mgllib/world/chunk.py:134-141 | a cell without a block changes nothing; otherwise its block is deleted, every other cell's `get_block` is unchanged and the cell is marked dirty; with `rebuild` the chunk is rebuilt locally, and without it no mesh, no buffer of a remaining block and neither rebuild set changes |
| World.Chunk.RemoveStored | mgllib/world/chunk.py:135-141 | the branch of `remove_block` for a cell holding a block: the entry goes, every other cell's `get_block` is unchanged, and without `rebuild` the cell is dirty while meshes, remaining buffers and the rebuild sets are untouched |
| World.Chunk.Insert | mgllib/world/chunk.py:125-129 | the stored new block is fresh, because its own cell is none of its neighbours; every other cell's `get_block` is unchanged |
| World.Chunk.Place | mgllib/world/chunk.py:127 | `self.blocks[world_pos] = block`: the block map gains the entry, the cell becomes occupied and every other cell's `get_block` is unchanged |
| World.Chunk.Delete | mgllib/world/chunk.py:135-138 | the cell leaves the block map and is marked dirty; every other cell's `get_block` is unchanged |
| World.Chunk.Drop | mgllib/world/chunk.py:136 | `del self.blocks[world_pos]`: the entry goes, the cell is no longer occupied and every other cell's `get_block` is unchanged |
| World.Chunk.OthersKept | mgllib/world/chunk.py:127 | a write to one cell of a chunk, with every other chunk's blocks untouched, leaves `get_block` of every other cell as it was |
| World.World.constructor | mgllib/world/world.py:53-65 | no chunks, an empty navigation graph, both rebuild sets empty, the block cache populated |
| World.World.EmptyFlag | mgllib/world/block.py:110 | `int(not bool(get_block(p)))` is 1 exactly for an empty cell, 0 exactly for an occupied one |
| World.World.GetBlockRoutes | mgllib/world/world.py:120-123 | `get_block` finds a block exactly for an occupied cell, and it is the one stored under that cell in the chunk whose id is the cell divided by `CHUNK_SIZE` |
| World.World.BlockFacts | mgllib/world/world.py:120-123 | every stored block is found again under its own cell |
| World.World.ChunkFacts | mgllib/world/world.py:181-184 | a chunk of the world sits under its own id |
| World.World.FlagsFromOccupancy | mgllib/world/block.py:108-110 | the flags a block reads from the world are the flags of the occupied cells |
| World.World.ResetRebuild | mgllib/world/world.py:100-104 | both rebuild sets become empty |
| World.World.CombineMissing | mgllib/world/world.py:106-110 | every chunk that needs combining and was not rebuilt gets a current mesh, the other meshes are unchanged, and both sets are reset |
| World.World.EnsureChunk | mgllib/world/world.py:182-183 | a missing chunk is created empty under its id; an existing one is kept; `get_block` of every cell is unchanged |
| World.World.GetBlock | mgllib/world/world.py:120-123 | a block is found exactly when the chunk whose id is the cell divided by the chunk size exists and stores a block at the cell, and it is that block |
| World.World.AddBlock | mgllib/world/world.py:181-186 | the cell gets a fresh block of the type, in the chunk of its region, created if missing, and `get_block` of every other cell is unchanged; without `rebuild` the cell joins its chunk's dirty set and no mesh, no old block's buffer and neither rebuild set changes; with `rebuild`, a consistent world stays consistent |
| World.World.RemoveBlock | mgllib/world/world.py:188-191 | the cell is empty afterwards and `get_block` of every other cell is unchanged; no chunk is created; an empty cell changes nothing; after removing a block without `rebuild`, the cell joins its chunk's dirty set and no mesh, no old block's buffer and neither rebuild set changes; with `rebuild`, a consistent world stays consistent |
| World.World.AddDecor | mgllib/world/world.py:112-118 | the decoration is appended to its group's list in the chunk owning the scaled cell of its position, created empty if missing; that chunk's other groups and their key order are kept, a new group is added last, and every other chunk's decorations are unchanged |
| World.World.EditKeepsFresh | mgllib/world/chunk.py:84-118 | after an edit at one cell, blocks away from it keep buffers that still match their neighbours, so once the blocks near it are regenerated every block is fresh |
| World.World.Rebuild | mgllib/world/world.py:193-197 | every chunk is clean afterwards and no rebuild is in progress; a full rebuild leaves every block fresh and every mesh current |
| World.World.FinishRebuild | mgllib/world/world.py:197 | the final `combine_missing`, which keeps a fully rebuilt world consistent |
| World.World.RebuildOne | mgllib/world/world.py:194-195 | one turn of the loop keeps the chunks done before clean, and after full rebuilds current |
| Obj.Split | mgllib/model/obj.py:33 | `str.split('_')`: at least one piece, and no piece holds the separator |
| Obj.JoinSplit | mgllib/model/obj.py:33 | splitting loses nothing: joining the pieces with the separator gives the string back |
| Obj.NameInjective | mgllib/model/obj.py:12-16 | different attributes have different names, so keying by attribute keys by name |
| Obj.LowerAscii | mgllib/model/obj.py:43 | `lower()` maps each upper-case ASCII letter to its lower-case form and keeps every other character |
| Obj.PartIdLookup | mgllib/model/obj.py:34-38 | a part's name is the `FORMAT_NAMES` entry for everything but its last two characters, or `unknown` |
| Obj.ParsePart | mgllib/model/obj.py:34-43 | a part shorter than two characters fails with `IndexError`; one whose second-to-last character is not a digit fails with `ValueError`; otherwise its size is that digit |
| Obj.ParseVertexFormat | mgllib/model/obj.py:26-47 | the loop over the parts gives the format the parts define, or the first part's error |
| Obj.ParsePartsNext | mgllib/model/obj.py:33-44 | parsing one more piece is one more turn of the loop |
| Obj.BuildNext | mgllib/model/obj.py:41-44 | one more part appends its range at the running offset, records its data type and grows the length by its size |
| Obj.ParseErrorSticks | mgllib/model/obj.py:33-39 | once a piece fails, the loop keeps that piece's error |
| Obj.ParsePartsOk | mgllib/model/obj.py:33-44 | parsing succeeds exactly when every piece parses |
| Obj.ParsePartsValues | mgllib/model/obj.py:33-44 | a successful parse has one part per piece, part k being what piece k parses to |
| Obj.ParseFirstError | mgllib/model/obj.py:33-39 | a failed parse reports the error of the first piece that fails |
| Obj.BuildWellFormed | mgllib/model/obj.py:32-47 | one range per part, the ranges tile `[0, length)` end to end, and `length` is the sum of the sizes |
| Obj.BuildGroupAt | mgllib/model/obj.py:41 | range k has part k's name and runs from the sum of the earlier sizes to that plus its own size |
| Obj.BuildDatatypesCover | mgllib/model/obj.py:43 | every part's name has a data type |
| Obj.BuildDatatypesWithin | mgllib/model/obj.py:43 | only parts' names have data types |
| Obj.BuildDatatypeLast | mgllib/model/obj.py:43 | a name's data type is that of the last part with that name |
| Obj.FormatOfWellFormed | mgllib/model/obj.py:26-47 | every parsed format string gives a well-formed layout |
| Obj.GroupsOfKeys | mgllib/model/obj.py:127-130 | the attributes of a vertex are the names of the ranges |
| Obj.GroupsOfValues | mgllib/model/obj.py:127-130 | an attribute holds the slice of the last range with that name |
| Obj.SliceFits | mgllib/model/obj.py:125 | a vertex index below `len // length` leaves room for the whole vertex |
| Obj.PointAtGroup | mgllib/model/obj.py:128 | range k of vertex i is floats `i * length + start` up to `i * length + end` |
| Obj.PointsUpToAt | mgllib/model/obj.py:125-130 | the first n vertices are n in number, vertex i cut from float `i * length` on |
| Obj.SlicePoints | mgllib/model/obj.py:125-130 | the slicing loop fails with `ZeroDivisionError` exactly for a zero-length format, and otherwise returns `len // length` vertices cut in order |
| Obj.LoadOne | mgllib/model/obj.py:115-130 | a material stores nothing exactly when its format string is empty |
| Obj.OutcomeAt | mgllib/model/obj.py:114-133 | outcome k is what material k loads to |
| Obj.CollectNext | mgllib/model/obj.py:114-133 | one more material is one more turn of the loop: an error ends it, a skipped material adds nothing, otherwise its vertices are stored under its name |
| Obj.CollectErrorSticks | mgllib/model/obj.py:114-133 | once a material fails, the load keeps that failure |
| Obj.CollectOk | mgllib/model/obj.py:114-133 | the load succeeds exactly when no material fails |
| Obj.CollectCover | mgllib/model/obj.py:133 | every material that produced vertices has its name stored |
| Obj.CollectWithin | mgllib/model/obj.py:133 | only names of materials that produced vertices are stored |
| Obj.LoadedNames | mgllib/model/obj.py:114-133 | after a successful load the stored names are exactly those of the materials with a non-empty format string |
| Obj.LoadOneParsed | mgllib/model/obj.py:118-130 | a material with a format string loads as its parsed format gives |
| Obj.LoadMaterial | mgllib/model/obj.py:115-133 | the loop body for one material: skipped, or parsed and cut into vertices |
| Obj.LoadMaterials | mgllib/model/obj.py:110-133 | the material loop gives what `Loaded` specifies |
| Inventory.InventorySlot.constructor | mgllib/player_body.py:37-40 | a new slot holds nothing |
| Inventory.InventorySlot.Attach | mgllib/player_body.py:45-50 | the slot and the item point at each other afterwards, and an item held before is let go of |
| Inventory.InventorySlot.Take | mgllib/player_body.py:52-57 | returns the item held, if any, unlinked from the slot, and leaves the slot empty; an empty slot stays as it was |
| Geom.Min | mgllib/model/geometry.py:96 | Python's `min`: at most both arguments and one of them |
| Geom.Max | mgllib/model/geometry.py:97 | Python's `max`: at least both arguments and one of them |
| Geom.Initial | mgllib/model/geometry.py:88 | one starting pair per dimension |
| Geom.Widen | mgllib/model/geometry.py:93-98 | the innermost loop keeps one pair per dimension |
| Geom.BoundsShape | mgllib/model/geometry.py:80-100 | no bounds exactly when there are no materials or the first material is empty; otherwise one pair per coordinate of its first vertex |
| Geom.WidenVerticesAxis | mgllib/model/geometry.py:92-98 | over one material an axis's pair only widens, takes in every coordinate, and each end is its start or some vertex's coordinate |
| Geom.WidenMaterialsAxis | mgllib/model/geometry.py:91-98 | the same over the materials |
| Geom.BoundsExact | mgllib/model/geometry.py:75-100 | when the coordinates lie within the starting extremes, each axis's bounds are exactly its smallest and largest coordinate over every vertex of every material |
| Geom.BoundsOrdered | mgllib/model/geometry.py:88-98 | each axis's pair is ordered and within the starting extremes |
| Geom.Geometry.constructor | mgllib/model/geometry.py:70-73 | the geometry holds the materials; the bounds are unset |
| Geom.Geometry.GetBounds | mgllib/model/geometry.py:75-100 | the three nested loops compute the bounds `BoundsExact` describes |
| Geom.Midpoints | mgllib/model/geometry.py:109 | one midpoint per axis |
| Geom.Geometry.GetCenter | mgllib/model/geometry.py:102-110 | the bounds are recomputed and the midpoints of each axis returned, or nothing when there are no bounds |
| Geom.Shift | mgllib/model/geometry.py:127-136 | the new position has one coordinate per axis of the center |
| Geom.MovedAll | mgllib/model/geometry.py:124-136 | every vertex of a material is moved, the count kept |
| Geom.MoveMaterial | mgllib/model/geometry.py:124-136 | the vertex loop gives every vertex its moved position |
| Geom.Geometry.MoveVertices | mgllib/model/geometry.py:123-136 | the material loop moves every vertex of every material |
| Geom.CenteredAt | mgllib/model/geometry.py:123-136 | after the loops the materials are the old ones with every position moved |
| Geom.MovedPre | mgllib/model/geometry.py:139 | the moved materials still have a position for every vertex, one coordinate per axis of the center |
| Geom.CenteredKeepsAttributes | mgllib/model/geometry.py:127-136 | moving a vertex changes only its position: its other attributes and their order stay |
| Geom.CoordMonotone | mgllib/model/geometry.py:128-134 | moving keeps the order of coordinates when the span is positive |
| Geom.CoordEnds | mgllib/model/geometry.py:109-134 | an axis's two ends move to opposite values, still within the starting extremes |
| Geom.SpanLargest | mgllib/model/geometry.py:120 | the largest span is at least every axis's span and is one of them |
| Geom.MovedExtremes | mgllib/model/geometry.py:123-139 | after moving, an axis's smallest and largest coordinates are the moved old ones |
| Geom.MovedInRange | mgllib/model/geometry.py:123-136 | moving by the midpoints keeps every coordinate within the starting extremes |
| Geom.BoundsAreExtremes | mgllib/model/geometry.py:75-100 | bounds that are the smallest and largest coordinates of an axis are that axis's pair |
| Geom.MovedMidpoint | mgllib/model/geometry.py:117-139 | after moving by the midpoints, each axis's new midpoint is 0 |
| Geom.MovedOrigin | mgllib/model/geometry.py:117-139 | the recomputed center of materials moved by their midpoints is the origin |
| Geom.CenterOrigin | mgllib/model/geometry.py:112-139 | `center`, with or without rescaling, moves the recomputed center to the origin on every axis when the coordinates lie within the starting extremes |
| Geom.Geometry.Center | mgllib/model/geometry.py:112-139 | the materials become the centered ones, or a zero largest span with rescaling fails with `ZeroDivisionError` and leaves them as they were; the bounds are then recomputed |
| Geom.BuffersUpTo | mgllib/model/geometry.py:149-162 | a material has a buffer exactly when it has a vertex, and the buffer is its flattening |
| Geom.FlatDataLength | mgllib/model/geometry.py:156-159 | vertices whose groups have the first vertex's sizes flatten to that many floats per vertex |
| Geom.FlatVertexLength | mgllib/model/geometry.py:157-159 | vertices with the same group sizes flatten to the same length |
| Geom.Ids | mgllib/model/geometry.py:152 | `list(vertex)`: the names of the groups, in order |
| Geom.GroupsOfOrder | mgllib/model/obj.py:127-130 | with distinct names, a vertex's keys are the group names in group order |
| Geom.GroupsTile | mgllib/model/geometry.py:157-159 | contiguous groups of a vertex, flattened in group order, are the floats from the vertex's start to the end of the last group |
| Geom.PointAtHas | mgllib/model/obj.py:127-130 | a cut vertex has every attribute of the format |
| Geom.PointAtGroups | mgllib/model/obj.py:128 | every group of a cut vertex sits where the format puts it |
| Geom.FlatVertexTiles | mgllib/model/geometry.py:157-159 | a cut vertex flattens back to the `length` floats it was cut from |
| Geom.FlatDataTiles | mgllib/model/geometry.py:156-159 | vertices that each tile their floats in turn flatten to the floats they were cut from |
| Geom.SliceThenFlatten | mgllib/model/geometry.py:152-159 | the loader's slicing and `build`'s flattening are inverse: a loaded material flattens back to its floats up to the last whole vertex, in format order |
| Geom.FlattenMaterial | mgllib/model/geometry.py:152-159 | the vertex and group loops give the material's flattening |
| Geom.Geometry.Build | mgllib/model/geometry.py:146-162 | the material loop gives one buffer per material with a vertex, in key order |
| Vao.Pow2 | mgllib/model/vao.py:92 | `2 ** n` is positive |
| Vao.OrBit | mgllib/model/vao.py:92 | a bit of `a \| b` is set exactly when it is set in `a` or in `b` |
| Vao.PowBit | mgllib/model/vao.py:92 | `2 ** i` has bit i and no other |
| Vao.OrAbsorbs | mgllib/model/vao.py:92 | or-ing in a bit already set changes nothing |
| Vao.IndexOf | mgllib/model/vao.py:92 | `list.index`: the first position holding the value |
| Vao.CategoryAt | mgllib/model/vao.py:8 | the categories are distinct, so a category's index names it |
| Vao.UniformNameInjective | mgllib/model/vao.py:108-111 | two categories share a uniform name exactly when they are the same |
| Vao.UniformNameNotFlags | mgllib/model/vao.py:108-118 | no category's uniform is `texture_flags` |
| Vao.TexturedVAOs.constructor | mgllib/model/vao.py:68-82 | no textures; the mask starts at 1; the mask invariant holds: bit k is set exactly for k = 0 and for the bound categories |
| Vao.TexturedVAOs.BindTexture | mgllib/model/vao.py:84-95 | a known category ors in `2 ** index` and stores the texture, replacing one bound before; an unknown category changes nothing; the mask invariant is kept |
| Vao.BindKeepsBits | mgllib/model/vao.py:92 | binding never clears a bit of the mask and sets the category's bit |
| Vao.BindTextureKeepsFlags | mgllib/model/vao.py:82-92 | binding `texture` leaves the mask as it was, since bit 0 is set from the start |
| Vao.PutSamplers | mgllib/model/vao.py:103-114 | the loop puts each bound texture under its uniform name |
| Vao.WithSamplersValid | mgllib/model/vao.py:103-114 | the uniforms stay a well-formed dictionary |
| Vao.WithSamplersHas | mgllib/model/vao.py:103-114 | every category put in is found under its uniform name; no later category overwrites it |
| Vao.WithSamplersKeeps | mgllib/model/vao.py:103-114 | a name no category maps to is left as it was |
| Vao.RenderedValid | mgllib/model/vao.py:117-118 | unless the VAOs are simple, `texture_flags` holds the mask |
| Vao.RenderedSamplers | mgllib/model/vao.py:103-114 | each bound texture is passed under its category's uniform |
| Vao.RenderedKeeps | mgllib/model/vao.py:97-118 | the caller's other uniforms pass through as they were |
| Vao.TexturedVAOs.RenderUniforms | mgllib/model/vao.py:97-118 | the uniforms passed on hold each bound texture under its category's name, the mask under `texture_flags` unless simple, and the caller's other uniforms unchanged |

## Left out

- GPU work is outside the model: moderngl buffers, VAOs, `VAOs.update` and `render` drawing, `release`, texture loading and `DecorGroup` buffers. A chunk's mesh is modelled as the float content its buffer would hold, and `Chunk.rebuild_decor` is not part of this model.
- `Pathfinder.astar`'s search loop belongs to the `astar` package and is not part of this model. Only the overridden hooks are modelled, and `math.sqrt` is a function field of the pathfinder.
- pywavefront's parsing of `.obj` and `.mtl` files is not part of this model. `load` is modelled from the materials it yields, each a name, a format string and a float list. The steps after the material loop (texture discovery, `center` and `build`) are modelled separately.
- Floats are exact reals: rounding, NaN and infinities are not modelled. The starting extremes `9999999` and `-9999999` are reals.
- Geom.BoundsExact, Geom.CenterOrigin: the bounds are exact, and the center moves to the origin, only when every coordinate lies within those starting extremes; outside them the source's bounds are wrong as well.
- `Geometry.bounds` starts out unset (`None` in the model) because the source's constructor never assigns it.
- Vertex dictionaries are values. `center` replaces each vertex's position in a copy, so any aliasing between point dictionaries of different materials is not modelled.
- Geom.BoundsOf requires every vertex to have a `vert` entry with enough coordinates (`BoundsPre`), and Geom.FlattenMaterial requires every vertex to have the first vertex's groups. The source raises `KeyError` or `IndexError` otherwise; those failures are not modelled.
- Geom.SliceThenFlatten: the round trip is proved for formats whose attribute names are distinct. With a repeated name the dictionary keeps only the last range, and the flattening then differs.
- Attribute names are the `Obj.Attr` enumeration (`uv`, `normal`, `vert`, `unknown`), not strings. `str.lower` is modelled for ASCII letters only, and `int()` of a character only for the ASCII digits 0–9; other Unicode digits are not modelled.
- Obj.ParsePart: `int(part[-2])` is modelled as one decimal digit. A sign or whitespace cannot occur in a one-character string that parses.
- Chunk and dictionary iteration order: `World.chunks` is a map, so `rebuild` visits the chunks in an order the model leaves open, and every property is proved for any order. Chunk block maps, decorations and materials keep insertion order.
- Python truthiness of `Element` objects is modelled as "not null". `get_block`'s implicit `None` is a null reference.
- World.AddBlock, World.RemoveBlock: consistency after an edit is proved for the local delta rebuild that `rebuild=True` triggers. After `World.rebuild(deltas_only=True)` no freshness of other chunks' blocks is claimed, because the source does not promise it.
- Navmesh.Flood: the flood writes each cell's list into a local map that is stored once the loop ends. This is equivalent, because the loop never reads the graph.
- Navmesh.GenNavmesh: the graph is never cleared before a call. A cell the new flood reaches has its list reset to its steps and ends with one set of diagonals (Navmesh.ReFloodedOnce). A cell from an earlier call that the new flood does not reach keeps its old list and gets a second set of diagonals (Navmesh.UnreachedGetsDiagonalsAgain, Navmesh.NoSeedRepeatsDiagonals). The model keeps this behaviour.
- World.World.AddBlock requires a block type the block cache knows (`Knows`). For an unknown type the source raises `KeyError` when the new block generates its buffer (mgllib/world/block.py:113, reached from mgllib/world/block.py:102); that failure is not modelled. Nor is the empty chunk that mgllib/world/world.py:183-184 has already stored for a missing region before the failure.
- World.Chunk.AddBlock requires a block type the block cache knows (`Knows`). For an unknown type the source raises `KeyError` when the new block generates its buffer (mgllib/world/block.py:113, reached from mgllib/world/block.py:102); that failure is not modelled.
- World.Chunk.Insert requires a block type the block cache knows (`Knows`). For an unknown type the source raises `KeyError` when the new block generates its buffer (mgllib/world/block.py:113, reached from mgllib/world/block.py:102); that failure is not modelled.
- World.ChunkBlock.constructor requires a block type the block cache knows (`Knows`). For an unknown type the source raises `KeyError` when the new block generates its buffer (mgllib/world/block.py:113, reached from mgllib/world/block.py:102); that failure is not modelled.
- World.ChunkBlock.Generate requires a block type the block cache knows (`Knows`). For an unknown type the source raises `KeyError` when the new block generates its buffer (mgllib/world/block.py:113, reached from mgllib/world/block.py:102); that failure is not modelled.
- World.World.constructor requires `texCount > 0`. With a texture shorter than one tile, `tex_count` is zero and mgllib/world/block.py:79 raises `ZeroDivisionError`; that failure is not modelled.
- Block.ReferenceGeometry requires `texCount > 0`. With a texture shorter than one tile, `tex_count` is zero and mgllib/world/block.py:79 raises `ZeroDivisionError`; that failure is not modelled.
- Block.BlockCache requires `texCount > 0`. With a texture shorter than one tile, `tex_count` is zero and mgllib/world/block.py:79 raises `ZeroDivisionError`; that failure is not modelled.
- Pathfinding.Pathfinder.constructor takes `maxDepth` as a parameter: the source's default `max_depth=2000` (mgllib/world/world.py:24) is the caller's to pass. The pathfinder a world builds for itself, `World.pathfinder` (mgllib/world/world.py:63), is not a field of the model's World; a pathfinder is built separately over a world.
- Navmesh.GenNavmesh takes `scanRange` as a parameter: the source's default `scan_range=100` (mgllib/world/world.py:67) is the caller's to pass.
- World.World.AddBlock and World.World.RemoveBlock take `rebuild` as a parameter: the source's default `rebuild=True` (mgllib/world/world.py:181, mgllib/world/world.py:188) is the caller's to pass.
- World.Chunk.AddBlock and World.Chunk.RemoveBlock take `rebuild` as a parameter: the source's default `rebuild=True` (mgllib/world/chunk.py:124, mgllib/world/chunk.py:134) is the caller's to pass.
- Queries.NearbyBlocks takes its radii as a cell of three integers; the source's default `(1, 1, 1)` is the caller's to pass.
- Cuboids.Cuboid.Move takes the blockers as box values, not objects, so a blocker that is the moving cuboid itself is not modelled.
- CoordGen.TupleSum requires the second tuple to be at least as long as the first. With a shorter second tuple the source raises `IndexError` (mgllib/world/coord_gen.py:40); that failure is not modelled, and every caller in the model passes two tuples of the same length.
- CoordGen.GenPane requires at least one zero scale component. With none, the source's offsets stay three long, and indexing them for the UV raises `IndexError`.
- Vao.TexturedVAOs.RenderUniforms returns the extended uniform dictionary rather than mutating the caller's dictionary in place. The shared mutable default `uniforms={}` of the source, which keeps the added entries between calls, is therefore not modelled. The method also requires only the textures dictionary to be well formed, not the mask invariant.
- The inventory slot's `origin`, `pos`, `rot` and `transform` are glm vector and quaternion arithmetic and are not part of this model.
