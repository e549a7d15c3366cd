/** Block lookups from continuous positions (mgllib/world/world.py):
    `check_block`, the block of the cell under a position, and
    `nearby_blocks`, the blocks in a box of cells around it. */
module Queries {
  import opened Coords
  import opened World

  /** `check_block(pos)`: the block of the cell `world_to_block(pos)`,
      which is the cell whose scaled cube holds the position. */
  function CheckBlock(w: World, pos: Pos): (b: ChunkBlock?)
    reads w`chunks, w.chunks.Values`blocks
    ensures forall c :: InScaledCube(c, pos) ==> b == w.GetBlock(c)
  {
    ScaledCubeCell(pos);
    w.GetBlock(WorldToBlock(pos))
  }

  /** Only the cell `world_to_block(pos)` holds the position in its scaled
      cube. */
  lemma ScaledCubeCell(pos: Pos)
    ensures forall c :: InScaledCube(c, pos) ==> c == WorldToBlock(pos)
  {
    forall c | InScaledCube(c, pos)
      ensures c == WorldToBlock(pos)
    {
      WorldToBlockContains(pos, c);
    }
  }

  /** The block `check_block` finds is the one stored at the cell whose
      scaled cube holds the position; there is one exactly when that cell is
      occupied. */
  lemma CheckBlockFinds(w: World, pos: Pos, c: Cell)
    requires w.Structure() && InScaledCube(c, pos)
    ensures CheckBlock(w, pos) != null <==> c in w.occupied
    ensures CheckBlock(w, pos) != null ==> CheckBlock(w, pos).worldPos == c && CheckBlock(w, pos) in w.allBlocks
  {
    WorldToBlockContains(pos, c);
    w.GetBlockRoutes(c);
  }

  /** `len(range(2 * r + 1))`. */
  function Span(r: int): (n: nat)
    ensures n == 0 <==> r < 0
  {
    if 2 * r + 1 > 0 then 2 * r + 1 else 0
  }

  /** The cell looked up at loop indices (x, y, z). */
  function Lookup(base: Cell, radii: Cell, x: int, y: int, z: int): Cell {
    Cell(base.x + x - radii.x, base.y + y - radii.y, base.z + z - radii.z)
  }

  /** The block at a cell as a list of at most one. */
  function Found(w: World, p: Cell): seq<ChunkBlock>
    reads w`chunks, w.chunks.Values`blocks
  {
    var b := w.GetBlock(p);
    if b != null then [b] else []
  }

  /** The blocks the innermost loop collects for the first n values of z. */
  function ZRow(w: World, base: Cell, radii: Cell, x: int, y: int, n: nat): seq<ChunkBlock>
    reads w`chunks, w.chunks.Values`blocks
  {
    if n == 0 then [] else ZRow(w, base, radii, x, y, n - 1) + Found(w, Lookup(base, radii, x, y, n - 1))
  }

  /** The blocks the middle loop collects for the first n values of y. */
  function YPlane(w: World, base: Cell, radii: Cell, x: int, n: nat): seq<ChunkBlock>
    reads w`chunks, w.chunks.Values`blocks
  {
    if n == 0 then [] else YPlane(w, base, radii, x, n - 1) + ZRow(w, base, radii, x, n - 1, Span(radii.z))
  }

  /** The blocks the outer loop collects for the first n values of x. */
  function Box(w: World, base: Cell, radii: Cell, n: nat): seq<ChunkBlock>
    reads w`chunks, w.chunks.Values`blocks
  {
    if n == 0 then [] else Box(w, base, radii, n - 1) + YPlane(w, base, radii, n - 1, Span(radii.y))
  }

  /** `nearby_blocks(pos, radii)`: the blocks of the cells within `radii` of
      `world_to_block(pos)`, x outermost, then y, then z. The loops read
      the store as it was on entry, which they do not change. */
  method NearbyBlocks(w: World, pos: Pos, radii: Cell) returns (blocks: seq<ChunkBlock>)
    ensures blocks == Box(w, WorldToBlock(pos), radii, Span(radii.x))
  {
    blocks := [];
    var basePos := WorldToBlock(pos);
    for x := 0 to Span(radii.x)
      invariant blocks == old(Box(w, basePos, radii, x))
    {
      for y := 0 to Span(radii.y)
        invariant blocks == old(Box(w, basePos, radii, x) + YPlane(w, basePos, radii, x, y))
      {
        for z := 0 to Span(radii.z)
          invariant blocks == old(Box(w, basePos, radii, x) + YPlane(w, basePos, radii, x, y)
                                  + ZRow(w, basePos, radii, x, y, z))
        {
          var lookupPos := Lookup(basePos, radii, x, y, z);
          var block := w.GetBlock(lookupPos);
          assert block == old(w.GetBlock(lookupPos));
          if block != null {
            blocks := blocks + [block];
          }
        }
      }
    }
  }

  /** Cell a comes before cell b in x, then y, then z order. */
  predicate Before(a: Cell, b: Cell) {
    a.x < b.x || (a.x == b.x && (a.y < b.y || (a.y == b.y && a.z < b.z)))
  }

  /** The cell is within `radii` of `base` on every axis. */
  predicate Near(p: Cell, base: Cell, radii: Cell) {
    && base.x - radii.x <= p.x <= base.x + radii.x
    && base.y - radii.y <= p.y <= base.y + radii.y
    && base.z - radii.z <= p.z <= base.z + radii.z
  }

  /** The blocks of a list lie in strictly increasing cell order. */
  ghost predicate Increasing(bs: seq<ChunkBlock>) {
    forall i, j :: 0 <= i < j < |bs| ==> Before(bs[i].worldPos, bs[j].worldPos)
  }

  /** Every block of the left list comes before every block of the right. */
  ghost predicate AllBefore(left: seq<ChunkBlock>, right: seq<ChunkBlock>) {
    forall i, j :: 0 <= i < |left| && 0 <= j < |right| ==> Before(left[i].worldPos, right[j].worldPos)
  }

  /** Two increasing lists, the left entirely before the right, join into
      an increasing list. */
  lemma JoinIncreasing(left: seq<ChunkBlock>, right: seq<ChunkBlock>)
    requires Increasing(left) && Increasing(right) && AllBefore(left, right)
    ensures Increasing(left + right)
  {
    forall i, j | 0 <= i < j < |left + right|
      ensures Before((left + right)[i].worldPos, (left + right)[j].worldPos)
    {
      if j < |left| {
      } else if i >= |left| {
        assert (left + right)[i] == right[i - |left|];
      } else {
        assert (left + right)[j] == right[j - |left|];
      }
    }
  }

  /** The two facts about the block store the box lemmas use: a block
      found at a cell is a stored block of that cell, and every stored
      block is found at its own cell. */
  ghost predicate Indexed(w: World)
    reads w`chunks, w.chunks.Values`blocks, w`allBlocks
  {
    && (forall p :: w.GetBlock(p) != null ==> w.GetBlock(p) in w.allBlocks && w.GetBlock(p).worldPos == p)
    && (forall b :: b in w.allBlocks ==> w.GetBlock(b.worldPos) == b)
  }

  lemma StructureIndexed(w: World)
    requires w.Structure()
    ensures Indexed(w)
  {
    forall p | w.GetBlock(p) != null
      ensures w.GetBlock(p) in w.allBlocks && w.GetBlock(p).worldPos == p
    {
      w.GetBlockRoutes(p);
    }
    forall b | b in w.allBlocks
      ensures w.GetBlock(b.worldPos) == b
    {
      w.BlockFacts(b);
    }
  }

  /** The cells of row (x, y): the first n values of z. */
  predicate InRow(p: Cell, base: Cell, radii: Cell, x: int, y: int, n: int) {
    && p.x == base.x + x - radii.x && p.y == base.y + y - radii.y
    && base.z - radii.z <= p.z < base.z - radii.z + n
  }

  /** The cells of plane x: the first n values of y, every z. */
  predicate InPlane(p: Cell, base: Cell, radii: Cell, x: int, n: int) {
    && p.x == base.x + x - radii.x
    && base.y - radii.y <= p.y < base.y - radii.y + n
    && base.z - radii.z <= p.z < base.z - radii.z + Span(radii.z)
  }

  /** The cells of the box: the first n values of x, every y and z. */
  predicate InBox(p: Cell, base: Cell, radii: Cell, n: int) {
    && base.x - radii.x <= p.x < base.x - radii.x + n
    && base.y - radii.y <= p.y < base.y - radii.y + Span(radii.y)
    && base.z - radii.z <= p.z < base.z - radii.z + Span(radii.z)
  }

  /** The innermost loop collects only blocks of its row. */
  lemma {:induction false} ZRowWithin(w: World, base: Cell, radii: Cell, x: int, y: int, n: nat)
    requires Indexed(w)
    ensures forall b {:trigger b in ZRow(w, base, radii, x, y, n)} :: b in ZRow(w, base, radii, x, y, n) ==>
      b in w.allBlocks && InRow(b.worldPos, base, radii, x, y, n)
  {
    if n > 0 {
      ZRowWithin(w, base, radii, x, y, n - 1);
    }
  }

  /** The innermost loop collects every block of its row. */
  lemma {:induction false} ZRowCovers(w: World, base: Cell, radii: Cell, x: int, y: int, n: nat)
    requires Indexed(w)
    ensures forall b {:trigger b in w.allBlocks} :: b in w.allBlocks && InRow(b.worldPos, base, radii, x, y, n) ==>
      b in ZRow(w, base, radii, x, y, n)
  {
    if n > 0 {
      ZRowCovers(w, base, radii, x, y, n - 1);
      var p := Lookup(base, radii, x, y, n - 1);
      assert ZRow(w, base, radii, x, y, n) == ZRow(w, base, radii, x, y, n - 1) + Found(w, p);
      forall b | b in w.allBlocks && InRow(b.worldPos, base, radii, x, y, n)
        ensures b in ZRow(w, base, radii, x, y, n)
      {
        if !InRow(b.worldPos, base, radii, x, y, n - 1) {
          assert b.worldPos == p;
          assert Found(w, p) == [b];
        }
      }
    }
  }

  /** The innermost loop collects the blocks of its row by increasing z. */
  lemma {:induction false} ZRowOrder(w: World, base: Cell, radii: Cell, x: int, y: int, n: nat)
    requires Indexed(w)
    ensures Increasing(ZRow(w, base, radii, x, y, n))
  {
    if n > 0 {
      ZRowOrder(w, base, radii, x, y, n - 1);
      ZRowWithin(w, base, radii, x, y, n - 1);
      var left := ZRow(w, base, radii, x, y, n - 1);
      var p := Lookup(base, radii, x, y, n - 1);
      assert AllBefore(left, Found(w, p)) by {
        forall i, j | 0 <= i < |left| && 0 <= j < |Found(w, p)|
          ensures Before(left[i].worldPos, Found(w, p)[j].worldPos)
        {
          assert left[i] in left;
          assert Found(w, p)[j] == w.GetBlock(p);
        }
      }
      JoinIncreasing(left, Found(w, p));
    }
  }

  /** The middle loop collects only blocks of its plane. */
  lemma {:induction false} YPlaneWithin(w: World, base: Cell, radii: Cell, x: int, n: nat)
    requires Indexed(w)
    ensures forall b {:trigger b in YPlane(w, base, radii, x, n)} :: b in YPlane(w, base, radii, x, n) ==>
      b in w.allBlocks && InPlane(b.worldPos, base, radii, x, n)
  {
    if n > 0 {
      YPlaneWithin(w, base, radii, x, n - 1);
      ZRowWithin(w, base, radii, x, n - 1, Span(radii.z));
    }
  }

  /** The middle loop collects every block of its plane. */
  lemma {:induction false} YPlaneCovers(w: World, base: Cell, radii: Cell, x: int, n: nat)
    requires Indexed(w)
    ensures forall b {:trigger b in w.allBlocks} :: b in w.allBlocks && InPlane(b.worldPos, base, radii, x, n) ==>
      b in YPlane(w, base, radii, x, n)
  {
    if n > 0 {
      YPlaneCovers(w, base, radii, x, n - 1);
      ZRowCovers(w, base, radii, x, n - 1, Span(radii.z));
      var left := YPlane(w, base, radii, x, n - 1);
      var right := ZRow(w, base, radii, x, n - 1, Span(radii.z));
      assert YPlane(w, base, radii, x, n) == left + right;
      forall b | b in w.allBlocks && InPlane(b.worldPos, base, radii, x, n)
        ensures b in left + right
      {
        if InPlane(b.worldPos, base, radii, x, n - 1) {
          assert b in left;
        } else {
          assert InRow(b.worldPos, base, radii, x, n - 1, Span(radii.z));
          assert b in right;
        }
      }
    }
  }

  /** Blocks of the left list lie in column x below y, those of the right
      list in column x at y: the left ones all come first. */
  lemma BeforeByY(left: seq<ChunkBlock>, right: seq<ChunkBlock>, x: int, y: int)
    requires forall b :: b in left ==> b.worldPos.x == x && b.worldPos.y < y
    requires forall b :: b in right ==> b.worldPos.x == x && b.worldPos.y == y
    ensures AllBefore(left, right)
  {
    forall i, j | 0 <= i < |left| && 0 <= j < |right|
      ensures Before(left[i].worldPos, right[j].worldPos)
    {
      assert left[i] in left && right[j] in right;
    }
  }

  /** Blocks of the left list lie below x, those of the right list at x:
      the left ones all come first. */
  lemma BeforeByX(left: seq<ChunkBlock>, right: seq<ChunkBlock>, x: int)
    requires forall b :: b in left ==> b.worldPos.x < x
    requires forall b :: b in right ==> b.worldPos.x == x
    ensures AllBefore(left, right)
  {
    forall i, j | 0 <= i < |left| && 0 <= j < |right|
      ensures Before(left[i].worldPos, right[j].worldPos)
    {
      assert left[i] in left && right[j] in right;
    }
  }

  /** The first n rows of a plane come before row n. */
  lemma PlaneBeforeRow(w: World, base: Cell, radii: Cell, x: int, n: nat)
    requires Indexed(w)
    ensures AllBefore(YPlane(w, base, radii, x, n), ZRow(w, base, radii, x, n, Span(radii.z)))
  {
    YPlaneWithin(w, base, radii, x, n);
    ZRowWithin(w, base, radii, x, n, Span(radii.z));
    BeforeByY(YPlane(w, base, radii, x, n), ZRow(w, base, radii, x, n, Span(radii.z)),
      base.x + x - radii.x, base.y + n - radii.y);
  }

  /** The first n planes of a box come before plane n. */
  lemma BoxBeforePlane(w: World, base: Cell, radii: Cell, n: nat)
    requires Indexed(w)
    ensures AllBefore(Box(w, base, radii, n), YPlane(w, base, radii, n, Span(radii.y)))
  {
    BoxWithin(w, base, radii, n);
    YPlaneWithin(w, base, radii, n, Span(radii.y));
    BeforeByX(Box(w, base, radii, n), YPlane(w, base, radii, n, Span(radii.y)), base.x + n - radii.x);
  }

  /** The middle loop collects the blocks of its plane by increasing y,
      then z. */
  lemma {:induction false} YPlaneOrder(w: World, base: Cell, radii: Cell, x: int, n: nat)
    requires Indexed(w)
    ensures Increasing(YPlane(w, base, radii, x, n))
  {
    if n > 0 {
      YPlaneOrder(w, base, radii, x, n - 1);
      ZRowOrder(w, base, radii, x, n - 1, Span(radii.z));
      PlaneBeforeRow(w, base, radii, x, n - 1);
      JoinIncreasing(YPlane(w, base, radii, x, n - 1), ZRow(w, base, radii, x, n - 1, Span(radii.z)));
    }
  }

  /** The outer loop collects only blocks of its box. */
  lemma {:induction false} BoxWithin(w: World, base: Cell, radii: Cell, n: nat)
    requires Indexed(w)
    ensures forall b {:trigger b in Box(w, base, radii, n)} :: b in Box(w, base, radii, n) ==>
      b in w.allBlocks && InBox(b.worldPos, base, radii, n)
  {
    if n > 0 {
      BoxWithin(w, base, radii, n - 1);
      YPlaneWithin(w, base, radii, n - 1, Span(radii.y));
    }
  }

  /** The outer loop collects every block of its box. */
  lemma {:induction false} BoxCovers(w: World, base: Cell, radii: Cell, n: nat)
    requires Indexed(w)
    ensures forall b {:trigger b in w.allBlocks} :: b in w.allBlocks && InBox(b.worldPos, base, radii, n) ==>
      b in Box(w, base, radii, n)
  {
    if n > 0 {
      BoxCovers(w, base, radii, n - 1);
      YPlaneCovers(w, base, radii, n - 1, Span(radii.y));
      var left := Box(w, base, radii, n - 1);
      var right := YPlane(w, base, radii, n - 1, Span(radii.y));
      assert Box(w, base, radii, n) == left + right;
      forall b | b in w.allBlocks && InBox(b.worldPos, base, radii, n)
        ensures b in left + right
      {
        if InBox(b.worldPos, base, radii, n - 1) {
          assert b in left;
        } else {
          assert InPlane(b.worldPos, base, radii, n - 1, Span(radii.y));
          assert b in right;
        }
      }
    }
  }

  /** The outer loop collects the blocks of its box by increasing x, then
      y, then z. */
  lemma {:induction false} BoxOrder(w: World, base: Cell, radii: Cell, n: nat)
    requires Indexed(w)
    ensures Increasing(Box(w, base, radii, n))
  {
    if n > 0 {
      BoxOrder(w, base, radii, n - 1);
      YPlaneOrder(w, base, radii, n - 1, Span(radii.y));
      BoxBeforePlane(w, base, radii, n - 1);
      JoinIncreasing(Box(w, base, radii, n - 1), YPlane(w, base, radii, n - 1, Span(radii.y)));
    }
  }

  /** `nearby_blocks` returns exactly the stored blocks whose cells are
      within `radii` of `world_to_block(pos)`, each once, in x, then y,
      then z order. */
  lemma NearbyBlocksExact(w: World, pos: Pos, radii: Cell)
    requires w.Structure()
    ensures forall b {:trigger b in Box(w, WorldToBlock(pos), radii, Span(radii.x))} {:trigger b in w.allBlocks} ::
      b in Box(w, WorldToBlock(pos), radii, Span(radii.x)) <==>
        b in w.allBlocks && Near(b.worldPos, WorldToBlock(pos), radii)
    ensures Increasing(Box(w, WorldToBlock(pos), radii, Span(radii.x)))
    ensures forall i, j :: 0 <= i < j < |Box(w, WorldToBlock(pos), radii, Span(radii.x))| ==>
      Box(w, WorldToBlock(pos), radii, Span(radii.x))[i] != Box(w, WorldToBlock(pos), radii, Span(radii.x))[j]
  {
    var base := WorldToBlock(pos);
    StructureIndexed(w);
    BoxWithin(w, base, radii, Span(radii.x));
    BoxCovers(w, base, radii, Span(radii.x));
    BoxOrder(w, base, radii, Span(radii.x));
    forall b | b in w.allBlocks
      ensures InBox(b.worldPos, base, radii, Span(radii.x)) <==> Near(b.worldPos, base, radii)
    {
      NearIsBox(b.worldPos, base, radii);
    }
  }

  /** The cells the three loops visit are the cells within `radii`. */
  lemma NearIsBox(p: Cell, base: Cell, radii: Cell)
    ensures InBox(p, base, radii, Span(radii.x)) <==> Near(p, base, radii)
  {
  }
}
