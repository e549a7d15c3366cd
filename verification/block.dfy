/** Block geometry (mgllib/world/block.py, the parts that do not depend on
    the world): the neighbour offsets, `flatten`, the per-type reference
    cube and `localize`, which copies the cube's vertices into chunk space
    keeping only the faces whose flag is set. The `ChunkBlock` class lives
    in module `World`, beside the chunk and world it refers to. */
module Block {
  import opened Coords
  import CoordGen

  /** `flatten(lss)`: the sublists concatenated in order. */
  function Flatten<T>(lss: seq<seq<T>>): seq<T>
  {
    if lss == [] then [] else Flatten(lss[..|lss| - 1]) + lss[|lss| - 1]
  }

  /** Flattening distributes over concatenation of the outer list. */
  lemma {:induction false} FlattenAppend<T>(a: seq<seq<T>>, b: seq<seq<T>>)
    ensures Flatten(a + b) == Flatten(a) + Flatten(b)
  {
    if b != [] {
      assert (a + b)[..|a + b| - 1] == a + b[..|b| - 1];
      FlattenAppend(a, b[..|b| - 1]);
    } else {
      assert a + b == a;
    }
  }

  /** The six face neighbours, in the order of the cube's faces. */
  const N6_OFFSETS: seq<Cell> :=
    [Cell(0, 0, 1), Cell(0, 0, -1), Cell(1, 0, 0), Cell(-1, 0, 0), Cell(0, 1, 0), Cell(0, -1, 0)]

  /** The six neighbours and the cell itself. */
  const N7_OFFSETS: seq<Cell> :=
    [Cell(0, 0, 1), Cell(0, 0, -1), Cell(1, 0, 0), Cell(-1, 0, 0), Cell(0, 1, 0), Cell(0, -1, 0), Cell(0, 0, 0)]

  lemma N7IsN6AndSelf()
    ensures N7_OFFSETS == N6_OFFSETS + [Cell(0, 0, 0)]
  {
  }

  function AsNormal(c: Cell): seq<real> {
    [c.x as real, c.y as real, c.z as real]
  }

  /** Face k of the generated cube faces the neighbour N6_OFFSETS[k]. */
  lemma FaceNormalsAreN6(k: nat)
    requires k < 6
    ensures CoordGen.FACE_NORMALS[k] == AsNormal(N6_OFFSETS[k])
  {
  }

  /** `ChunkBlock.neighbors`: the cells across the six faces. */
  function Neighbors(worldPos: Cell): (ns: seq<Cell>)
    ensures |ns| == 6
    ensures forall k :: 0 <= k < 6 ==> ns[k] == Add(worldPos, N6_OFFSETS[k])
  {
    seq(6, k requires 0 <= k < 6 => Add(worldPos, N6_OFFSETS[k]))
  }

  /** A raw vertex moved by a chunk-local cell: the first three components
      are shifted, the rest (UV, normal) copied. Every vertex of the cube
      has eight components; a shorter one is left as it is. */
  function Shift(point: seq<real>, chunkPos: Cell): (r: seq<real>)
    ensures |r| == |point|
  {
    if |point| < 3 then point
    else [point[0] + chunkPos.x as real, point[1] + chunkPos.y as real, point[2] + chunkPos.z as real] + point[3..]
  }

  /** The shifted copies of raw vertices lo .. hi-1, concatenated. */
  function ShiftRange(raw: seq<seq<real>>, chunkPos: Cell, lo: nat, hi: nat): (r: seq<real>)
    requires lo <= hi <= |raw|
    decreases hi
  {
    if lo == hi then [] else ShiftRange(raw, chunkPos, lo, hi - 1) + Shift(raw[hi - 1], chunkPos)
  }

  /** The face of raw vertex t: the cube lists its faces six vertices at a
      time. */
  function FaceOf(t: nat): nat
  {
    if t < 6 then 0 else FaceOf(t - 6) + 1
  }

  /** `FaceOf` is the source's `t // 6`. */
  lemma {:induction false} FaceOfIsDiv(t: nat)
    ensures FaceOf(t) == t / 6
  {
    if t >= 6 {
      FaceOfIsDiv(t - 6);
    }
  }

  /** Vertex t is kept when the flag of its face, `side_flags[t // 6]`, is
      non-zero. */
  predicate Kept(sideFlags: seq<int>, t: nat) {
    FaceOf(t) < |sideFlags| && sideFlags[FaceOf(t)] != 0
  }

  /** What `localize` produces from the first n raw vertices: each kept
      vertex, shifted, in order. */
  function LocalizedUpTo(raw: seq<seq<real>>, chunkPos: Cell, sideFlags: seq<int>, n: nat): seq<real>
    requires n <= |raw|
  {
    if n == 0 then []
    else LocalizedUpTo(raw, chunkPos, sideFlags, n - 1) + (if Kept(sideFlags, n - 1) then Shift(raw[n - 1], chunkPos) else [])
  }

  function Localized(raw: seq<seq<real>>, chunkPos: Cell, sideFlags: seq<int>): seq<real>
  {
    LocalizedUpTo(raw, chunkPos, sideFlags, |raw|)
  }

  /** Type-specific reference geometry: the unit cube with the type's UV
      placement. The placement itself depends on the texture's height and is
      an input here. */
  datatype BlockReferenceGeometry = BlockReferenceGeometry(blockId: string, uvBase: seq<real>, uvScale: seq<real>,
                                                           rawGeometry: seq<seq<real>>)
  {
    ghost predicate Valid() {
      |uvBase| == 2 && |uvScale| == 2 && rawGeometry == CoordGen.GenCube(uvBase, 1.0, uvScale)
    }

    /** The shape of the cube geometry: 36 vertices of 8 components. */
    predicate Shaped() {
      |rawGeometry| == 36 && forall i :: 0 <= i < 36 ==> |rawGeometry[i]| == 8
    }

    /** `localize`: walk the raw vertices, appending the shifted copy of
        each vertex whose face flag is set. */
    method Localize(chunkPos: Cell, sideFlags: seq<int>) returns (data: seq<real>)
      requires Shaped() && |sideFlags| >= 6
      ensures data == Localized(rawGeometry, chunkPos, sideFlags)
    {
      data := [];
      var i := 0;
      while i < |rawGeometry|
        invariant 0 <= i <= |rawGeometry|
        invariant data == LocalizedUpTo(rawGeometry, chunkPos, sideFlags, i)
      {
        var point := rawGeometry[i];
        FaceOfIsDiv(i);
        if sideFlags[i / 6] != 0 {
          data := data + [point[0] + chunkPos.x as real, point[1] + chunkPos.y as real, point[2] + chunkPos.z as real] + point[3..];
        }
        i := i + 1;
      }
    }
  }

  /** The block types and their row numbers in the block texture. */
  const BLOCK_MAP: map<string, int> := map["chiseled_stone" := 0, "log" := 1, "grass" := 2, "dirt" := 3]

  /** `BlockReferenceGeometry(block_id)`: the unit cube whose UVs select the
      texture row of the block type. The texture holds `texCount` rows (its
      height over the 16-pixel resolution) of six face columns each; row
      numbers count from the bottom, block numbers from the top. */
  function ReferenceGeometry(blockId: string, texCount: int): (g: BlockReferenceGeometry)
    requires blockId in BLOCK_MAP && texCount > 0
    ensures g.Valid() && g.Shaped() && g.blockId == blockId
    ensures g.uvScale[0] * 6.0 == 1.0 && g.uvScale[1] * texCount as real == 1.0
    ensures g.uvBase[0] == 0.0 && g.uvBase[1] * texCount as real == (texCount - 1 - BLOCK_MAP[blockId]) as real
  {
    var uvScale := [1.0 / 6.0, 1.0 / texCount as real];
    var yOffset := (texCount - 1) - BLOCK_MAP[blockId];
    var uvBase := [0.0, yOffset as real * uvScale[1]];
    BlockReferenceGeometry(blockId, uvBase, uvScale, CoordGen.GenCube(uvBase, 1.0, uvScale))
  }

  /** `populate_block_cache`: one reference geometry per block type. */
  function BlockCache(texCount: int): (cache: map<string, BlockReferenceGeometry>)
    requires texCount > 0
    ensures forall id :: id in cache <==> id in BLOCK_MAP
    ensures forall id :: id in cache ==> cache[id].Valid()
    ensures forall id :: id in cache ==> cache[id].Shaped() && cache[id].blockId == id
  {
    map id | id in BLOCK_MAP :: ReferenceGeometry(id, texCount)
  }

  /** The part of the output contributed by face k: its six vertices
      shifted, or nothing when its flag is zero. */
  function FaceOutput(raw: seq<seq<real>>, chunkPos: Cell, sideFlags: seq<int>, k: nat): seq<real>
    requires 6 * k + 6 <= |raw| && k < |sideFlags|
  {
    if sideFlags[k] != 0 then ShiftRange(raw, chunkPos, 6 * k, 6 * k + 6) else []
  }

  /** Localizing through a run of vertices whose flags agree adds that run,
      shifted, or nothing. */
  lemma {:induction false} LocalizedRun(raw: seq<seq<real>>, chunkPos: Cell, sideFlags: seq<int>, lo: nat, j: nat, keep: bool)
    requires lo + j <= |raw|
    requires forall t :: lo <= t < lo + j ==> Kept(sideFlags, t) == keep
    ensures LocalizedUpTo(raw, chunkPos, sideFlags, lo + j)
         == LocalizedUpTo(raw, chunkPos, sideFlags, lo) + (if keep then ShiftRange(raw, chunkPos, lo, lo + j) else [])
  {
    if j > 0 {
      LocalizedRun(raw, chunkPos, sideFlags, lo, j - 1, keep);
      LocalizedRunStep(raw, chunkPos, sideFlags, lo, lo + j - 1, keep);
    }
  }

  /** One step of `LocalizedRun`: extend the run by vertex n. */
  lemma LocalizedRunStep(raw: seq<seq<real>>, chunkPos: Cell, sideFlags: seq<int>, lo: nat, n: nat, keep: bool)
    requires lo <= n < |raw|
    requires Kept(sideFlags, n) == keep
    requires LocalizedUpTo(raw, chunkPos, sideFlags, n)
          == LocalizedUpTo(raw, chunkPos, sideFlags, lo) + (if keep then ShiftRange(raw, chunkPos, lo, n) else [])
    ensures LocalizedUpTo(raw, chunkPos, sideFlags, n + 1)
         == LocalizedUpTo(raw, chunkPos, sideFlags, lo) + (if keep then ShiftRange(raw, chunkPos, lo, n + 1) else [])
  {
    var before := LocalizedUpTo(raw, chunkPos, sideFlags, lo);
    var upTo := LocalizedUpTo(raw, chunkPos, sideFlags, n);
    if keep {
      var run := ShiftRange(raw, chunkPos, lo, n);
      var last := Shift(raw[n], chunkPos);
      assert LocalizedUpTo(raw, chunkPos, sideFlags, n + 1) == upTo + last;
      assert ShiftRange(raw, chunkPos, lo, n + 1) == run + last;
      assert upTo == before + run;
      assert (before + run) + last == before + (run + last);
    } else {
      assert LocalizedUpTo(raw, chunkPos, sideFlags, n + 1) == upTo + [];
      assert upTo == before + [];
    }
  }

  /** The six vertices of face k are kept exactly when flag k is set. */
  lemma FaceKept(sideFlags: seq<int>, k: nat)
    requires k < |sideFlags|
    ensures forall t :: 6 * k <= t < 6 * k + 6 ==> Kept(sideFlags, t) == (sideFlags[k] != 0)
  {
    forall t | 6 * k <= t < 6 * k + 6
      ensures FaceOf(t) == k
    {
      FaceOfIsDiv(t);
    }
  }

  /** The face outputs of the first m faces, concatenated in cube order. */
  function FacesUpTo(raw: seq<seq<real>>, chunkPos: Cell, sideFlags: seq<int>, m: nat): seq<real>
    requires 6 * m <= |raw| && m <= |sideFlags|
  {
    if m == 0 then [] else FacesUpTo(raw, chunkPos, sideFlags, m - 1) + FaceOutput(raw, chunkPos, sideFlags, m - 1)
  }

  /** Localizing the first m faces is the concatenation of their face
      outputs: face k's six vertices appear, in order, iff flag k is set. */
  lemma {:induction false} LocalizedByFaces(raw: seq<seq<real>>, chunkPos: Cell, sideFlags: seq<int>, m: nat)
    requires 6 * m <= |raw| && m <= |sideFlags|
    ensures LocalizedUpTo(raw, chunkPos, sideFlags, 6 * m) == FacesUpTo(raw, chunkPos, sideFlags, m)
  {
    if m > 0 {
      LocalizedByFaces(raw, chunkPos, sideFlags, m - 1);
      LocalizedFaceStep(raw, chunkPos, sideFlags, m - 1);
    }
  }

  /** One step of `LocalizedByFaces`: add face k. */
  lemma LocalizedFaceStep(raw: seq<seq<real>>, chunkPos: Cell, sideFlags: seq<int>, k: nat)
    requires 6 * k + 6 <= |raw| && k < |sideFlags|
    ensures LocalizedUpTo(raw, chunkPos, sideFlags, 6 * k + 6)
         == LocalizedUpTo(raw, chunkPos, sideFlags, 6 * k) + FaceOutput(raw, chunkPos, sideFlags, k)
  {
    FaceKept(sideFlags, k);
    LocalizedRun(raw, chunkPos, sideFlags, 6 * k, 6, sideFlags[k] != 0);
  }

  /** With the default all-ones flags every raw vertex is kept. */
  lemma {:induction false} LocalizedAllOnes(raw: seq<seq<real>>, chunkPos: Cell, n: nat)
    requires n <= |raw| <= 36
    ensures LocalizedUpTo(raw, chunkPos, [1, 1, 1, 1, 1, 1], n) == ShiftRange(raw, chunkPos, 0, n)
  {
    if n > 0 {
      LocalizedAllOnes(raw, chunkPos, n - 1);
      FaceOfIsDiv(n - 1);
    }
  }

  /** `empty_neighbor_flags` against a set of occupied cells: flag k is 1
      exactly when the cell across face k is not occupied. */
  function EmptyFlagsFor(occupied: set<Cell>, worldPos: Cell): (flags: seq<int>)
    ensures |flags| == 6
    ensures forall k :: 0 <= k < 6 ==> (flags[k] == 1 <==> Neighbors(worldPos)[k] !in occupied)
    ensures forall k :: 0 <= k < 6 ==> (flags[k] == 0 <==> Neighbors(worldPos)[k] in occupied)
  {
    var ns := Neighbors(worldPos);
    seq(6, k requires 0 <= k < 6 => if ns[k] in occupied then 0 else 1)
  }

  /** The flags only look at the six neighbour cells: occupancy sets that
      agree there give the same flags; in particular the block's own cell
      never matters. */
  lemma EmptyFlagsAgree(occ1: set<Cell>, occ2: set<Cell>, worldPos: Cell)
    requires forall k :: 0 <= k < 6 ==> (Add(worldPos, N6_OFFSETS[k]) in occ1 <==> Add(worldPos, N6_OFFSETS[k]) in occ2)
    ensures EmptyFlagsFor(occ1, worldPos) == EmptyFlagsFor(occ2, worldPos)
  {
  }

  lemma OwnCellIsNoNeighbor(worldPos: Cell, k: nat)
    requires k < 6
    ensures Add(worldPos, N6_OFFSETS[k]) != worldPos
  {
  }

  /** What `generate` stores in a block's buffer, given the occupied cells. */
  function BlockBuffer(ref: BlockReferenceGeometry, chunkPos: Cell, worldPos: Cell, occupied: set<Cell>): seq<real>
    requires ref.Shaped()
  {
    Localized(ref.rawGeometry, chunkPos, EmptyFlagsFor(occupied, worldPos))
  }

  /** The buffer of a generated block is its six face outputs in cube order;
      face k is emitted exactly when the cell across it is empty, and the
      vertices of face k carry the normal pointing at that cell. */
  lemma GeneratedFaces(ref: BlockReferenceGeometry, chunkPos: Cell, worldPos: Cell, occupied: set<Cell>)
    requires ref.Valid() && ref.Shaped()
    ensures var flags := EmptyFlagsFor(occupied, worldPos);
      BlockBuffer(ref, chunkPos, worldPos, occupied) == FacesUpTo(ref.rawGeometry, chunkPos, flags, 6)
    ensures forall k :: 0 <= k < 6 ==>
      (FaceOutput(ref.rawGeometry, chunkPos, EmptyFlagsFor(occupied, worldPos), k) == []
       <==> Add(worldPos, N6_OFFSETS[k]) in occupied)
    ensures forall i :: 0 <= i < 36 ==> ref.rawGeometry[i][5..] == AsNormal(N6_OFFSETS[i / 6])
  {
    var raw := ref.rawGeometry;
    var flags := EmptyFlagsFor(occupied, worldPos);
    LocalizedByFaces(raw, chunkPos, flags, 6);
    forall i | 0 <= i < 36
      ensures raw[i][5..] == AsNormal(N6_OFFSETS[i / 6])
    {
      CoordGen.CubeFaceNormals(ref.uvBase, 1.0, ref.uvScale, i);
      FaceNormalsAreN6(i / 6);
    }
  }
}
