/** Axis-aligned boxes and their collision resolution
    (mgllib/shapes/cuboid.py). A box has an origin, a size and one of three
    anchor conventions: `Cuboid` puts the origin at the centre, `FloorCuboid`
    at the centre of the bottom face, `CornerCuboid` at the corner with the
    least coordinates. A moving box advances along x, then y, then z; after
    each step the first blocker it overlaps pushes it back flush against
    its face and the struck face is recorded. */
module Cuboids {
  import opened Wrappers

  datatype Anchor = Center | Floor | Corner

  datatype Axis = X | Y | Z

  /** A position or size: `origin[0..3]`, `size[0..3]`. */
  datatype Vec3 = Vec3(x: real, y: real, z: real)
  {
    function At(a: Axis): real {
      match a
      case X => x
      case Y => y
      case Z => z
    }

    /** The vector with component `a` replaced by `v`. */
    function Put(a: Axis, v: real): (r: Vec3)
      ensures r.At(a) == v
      ensures forall b :: b != a ==> r.At(b) == At(b)
    {
      match a
      case X => Vec3(v, y, z)
      case Y => Vec3(x, v, z)
      case Z => Vec3(x, y, v)
    }
  }

  /** The six faces, which are also the keys of the collision flags. */
  datatype Face = Right | Left | Top | Bottom | Front | Back
  {
    function Axis(): Axis {
      match this
      case Right => X
      case Left => X
      case Top => Y
      case Bottom => Y
      case Front => Z
      case Back => Z
    }

    /** The face on the side of increasing coordinates. */
    predicate Upper() {
      this == Right || this == Top || this == Front
    }
  }

  /** The face of an axis on the side of increasing coordinates. */
  function UpperFace(a: Axis): (f: Face)
    ensures f.Axis() == a && f.Upper()
  {
    match a
    case X => Right
    case Y => Top
    case Z => Front
  }

  /** The face of an axis on the side of decreasing coordinates. */
  function LowerFace(a: Axis): (f: Face)
    ensures f.Axis() == a && !f.Upper()
  {
    match a
    case X => Left
    case Y => Bottom
    case Z => Back
  }

  datatype Box = Box(anchor: Anchor, origin: Vec3, size: Vec3)

  /** The origin lies on the lower face along this axis rather than
      midway between the faces. */
  predicate Cornered(anchor: Anchor, a: Axis) {
    anchor == Corner || (anchor == Floor && a == Y)
  }

  /** The face getters `right`, `left`, `top`, `bottom`, `front`, `back`. */
  function FaceOf(b: Box, f: Face): real {
    var o := b.origin.At(f.Axis());
    var s := b.size.At(f.Axis());
    if Cornered(b.anchor, f.Axis()) then
      (if f.Upper() then o + s else o)
    else
      (if f.Upper() then o + s * 0.5 else o - s * 0.5)
  }

  /** The face setters `set_right`, ..., `set_back`: the origin moves along
      the face's axis so that the face lies at `v`; nothing else changes. */
  function WithFace(b: Box, f: Face, v: real): (r: Box)
    ensures FaceOf(r, f) == v
    ensures r.anchor == b.anchor && r.size == b.size
    ensures forall a :: a != f.Axis() ==> r.origin.At(a) == b.origin.At(a)
  {
    var s := b.size.At(f.Axis());
    var o :=
      if Cornered(b.anchor, f.Axis()) then
        (if f.Upper() then v - s else v)
      else
        (if f.Upper() then v - s * 0.5 else v + s * 0.5);
    b.(origin := b.origin.Put(f.Axis(), o))
  }

  /** Setting a face keeps the extent of the box along that axis: the
      opposite face moves by the same amount. */
  lemma SetFaceKeepsExtent(b: Box, a: Axis, v: real)
    ensures FaceOf(WithFace(b, UpperFace(a), v), LowerFace(a)) == v - (FaceOf(b, UpperFace(a)) - FaceOf(b, LowerFace(a)))
    ensures FaceOf(WithFace(b, LowerFace(a), v), UpperFace(a)) == v + (FaceOf(b, UpperFace(a)) - FaceOf(b, LowerFace(a)))
  {
  }

  /** The overlap test on one axis as `collidecuboid` writes it: strictly
      overlapping intervals, or intervals that are both reversed. */
  predicate AxisHits(me: Box, other: Box, a: Axis) {
    var hi, lo := UpperFace(a), LowerFace(a);
    || (FaceOf(other, hi) > FaceOf(me, lo) && FaceOf(other, lo) < FaceOf(me, hi))
    || (FaceOf(other, hi) < FaceOf(me, lo) && FaceOf(other, lo) > FaceOf(me, hi))
  }

  /** `me.collidecuboid(other)`: the boxes hit on x, on z and on y. */
  predicate Collide(me: Box, other: Box)
    ensures (exists p :: ContainsPoint(me, p) && ContainsPoint(other, p)) ==> Collide(me, other)
  {
    AxisHits(me, other, X) && AxisHits(me, other, Z) && AxisHits(me, other, Y)
  }

  /** `collidecuboid` does not depend on which box asks. */
  lemma CollideSymmetric(a: Box, b: Box)
    ensures Collide(a, b) <==> Collide(b, a)
  {
    assert forall ax :: AxisHits(a, b, ax) <==> AxisHits(b, a, ax);
  }

  /** No face lies below its opposite face: every size component is at
      least zero. */
  predicate Proper(b: Box) {
    b.size.x >= 0.0 && b.size.y >= 0.0 && b.size.z >= 0.0
  }

  /** The lower face of a proper box is not above its upper face. */
  lemma ProperFaces(b: Box, a: Axis)
    requires Proper(b)
    ensures FaceOf(b, LowerFace(a)) <= FaceOf(b, UpperFace(a))
  {
  }

  /** Between proper boxes, `collidecuboid` is strict overlap on every
      axis: the second, reversed disjunct never applies. */
  lemma CollideIsOverlap(a: Box, b: Box)
    requires Proper(a) && Proper(b)
    ensures Collide(a, b) <==> forall ax ::
      FaceOf(a, LowerFace(ax)) < FaceOf(b, UpperFace(ax)) && FaceOf(b, LowerFace(ax)) < FaceOf(a, UpperFace(ax))
  {
    forall ax
      ensures AxisHits(a, b, ax) <==>
        FaceOf(a, LowerFace(ax)) < FaceOf(b, UpperFace(ax)) && FaceOf(b, LowerFace(ax)) < FaceOf(a, UpperFace(ax))
    {
      ProperFaces(a, ax);
      ProperFaces(b, ax);
    }
    assert Collide(a, b) <==> AxisHits(a, b, X) && AxisHits(a, b, Y) && AxisHits(a, b, Z);
  }

  /** Proper boxes that only touch along some axis do not collide. */
  lemma TouchingDoesNotCollide(a: Box, b: Box, ax: Axis)
    requires Proper(a) && Proper(b)
    requires FaceOf(a, UpperFace(ax)) == FaceOf(b, LowerFace(ax))
    ensures !Collide(a, b)
  {
    CollideIsOverlap(a, b);
  }

  /** `collidepoint(point)`: the point lies strictly between the faces on
      every axis. */
  predicate ContainsPoint(b: Box, p: Vec3) {
    && FaceOf(b, Left) < p.x < FaceOf(b, Right)
    && FaceOf(b, Bottom) < p.y < FaceOf(b, Top)
    && FaceOf(b, Back) < p.z < FaceOf(b, Front)
  }

  /** A point is inside a box exactly when the box collides with the empty
      box at that point; in particular no point on a face is inside. */
  lemma PointIsEmptyBox(b: Box, p: Vec3)
    requires Proper(b)
    ensures ContainsPoint(b, p) <==> Collide(b, Box(Corner, p, Vec3(0.0, 0.0, 0.0)))
  {
    var q := Box(Corner, p, Vec3(0.0, 0.0, 0.0));
    assert forall f :: FaceOf(q, f) == p.At(f.Axis());
    ProperFaces(b, X);
    ProperFaces(b, Y);
    ProperFaces(b, Z);
  }

  /** The index of the first blocker the box collides with, if any. */
  function FirstHit(me: Box, blockers: seq<Box>): (r: Option<nat>)
    ensures r.None? ==> forall i :: 0 <= i < |blockers| ==> !Collide(me, blockers[i])
    ensures r.Some? ==> r.value < |blockers| && Collide(me, blockers[r.value])
    ensures r.Some? ==> forall j :: 0 <= j < r.value ==> !Collide(me, blockers[j])
  {
    if blockers == [] then None
    else if Collide(me, blockers[0]) then Some(0)
    else match FirstHit(me, blockers[1..])
      case None => None
      case Some(i) => Some(i + 1)
  }

  /** What `collision_check` returns for these blockers. */
  function Blocking(me: Box, blockers: seq<Box>): Option<Box> {
    match FirstHit(me, blockers)
    case None => None
    case Some(i) => Some(blockers[i])
  }

  /** The result of one axis step: the box afterwards and the face it
      recorded, if any. */
  datatype Step = Step(box: Box, hit: Option<Face>)

  /** `origin[a] += m`. */
  function Advance(b: Box, a: Axis, m: real): (r: Box)
    ensures r.anchor == b.anchor && r.size == b.size
    ensures forall c :: c != a ==> r.origin.At(c) == b.origin.At(c)
    ensures m == 0.0 ==> r == b
  {
    var r := b.(origin := b.origin.Put(a, b.origin.At(a) + m));
    assert m == 0.0 ==> r.origin == b.origin;
    r
  }

  /** What a step does about the blocker it found, if any: a positive
      step puts the upper face flush against the blocker's lower face, a
      negative step the lower face against the blocker's upper face, and a
      zero step does nothing. */
  function Resolve(moved: Box, a: Axis, m: real, blocker: Option<Box>): (r: Step)
    ensures r.box.anchor == moved.anchor && r.box.size == moved.size
    ensures forall c :: c != a ==> r.box.origin.At(c) == moved.origin.At(c)
    ensures r.hit.Some? ==> r.hit.value.Axis() == a && (r.hit.value.Upper() <==> m > 0.0)
    ensures r.hit.Some? ==> blocker.Some?
    ensures r.hit.Some? ==> FaceOf(r.box, r.hit.value) == FaceOf(blocker.value, if m > 0.0 then LowerFace(a) else UpperFace(a))
    ensures r.hit.None? ==> r.box == moved
    ensures r.hit.None? <==> blocker.None? || m == 0.0
  {
    match blocker
    case None => Step(moved, None)
    case Some(bl) =>
      if m > 0.0 then Step(WithFace(moved, UpperFace(a), FaceOf(bl, LowerFace(a))), Some(UpperFace(a)))
      else if m < 0.0 then Step(WithFace(moved, LowerFace(a), FaceOf(bl, UpperFace(a))), Some(LowerFace(a)))
      else Step(moved, None)
  }

  /** One axis step of `move`: advance, then resolve against the first
      blocker the advanced box overlaps. */
  function StepAlong(b: Box, a: Axis, m: real, blockers: seq<Box>): (r: Step)
    ensures r.box.anchor == b.anchor && r.box.size == b.size
    ensures forall c :: c != a ==> r.box.origin.At(c) == b.origin.At(c)
    ensures m == 0.0 ==> r == Step(b, None)
    ensures r.hit.Some? ==> r.hit.value.Axis() == a && (r.hit.value.Upper() <==> m > 0.0)
  {
    var moved := Advance(b, a, m);
    Resolve(moved, a, m, Blocking(moved, blockers))
  }

  /** A step that records a face leaves that face flush against the face
      of the first blocker the advanced box overlapped. */
  lemma StepSnaps(b: Box, a: Axis, m: real, blockers: seq<Box>)
    requires StepAlong(b, a, m, blockers).hit.Some?
    ensures FirstHit(Advance(b, a, m), blockers).Some?
    ensures var i := FirstHit(Advance(b, a, m), blockers).value;
      var f := StepAlong(b, a, m, blockers).hit.value;
      FaceOf(StepAlong(b, a, m, blockers).box, f) == FaceOf(blockers[i], if f.Upper() then LowerFace(a) else UpperFace(a))
  {
  }

  /** `NO_COLLISIONS`: every face flag false. */
  const NO_COLLISIONS: map<Face, bool> :=
    map[Right := false, Left := false, Top := false, Bottom := false, Front := false, Back := false]

  lemma NoCollisionsAllFalse()
    ensures forall f :: f in NO_COLLISIONS && !NO_COLLISIONS[f]
  {
    forall f: Face
      ensures f in NO_COLLISIONS && !NO_COLLISIONS[f]
    {
      match f
      case Right =>
      case Left =>
      case Top =>
      case Bottom =>
      case Front =>
      case Back =>
    }
  }

  /** The flags after recording a step's face, if any. */
  function Record(flags: map<Face, bool>, hit: Option<Face>): (r: map<Face, bool>)
    ensures r.Keys == flags.Keys + (if hit.Some? then {hit.value} else {})
    ensures forall f :: f in r ==> (r[f] <==> hit == Some(f) || flags[f])
  {
    match hit
    case None => flags
    case Some(f) => flags[f := true]
  }

  /** The flag of the face is set. */
  predicate Flagged(flags: map<Face, bool>, f: Face) {
    f in flags && flags[f]
  }

  /** The outcome of `move`: the box afterwards and the collision flags. */
  datatype Moved = Moved(box: Box, collisions: map<Face, bool>)

  /** `move(movement, blockers)`: steps along x, then y, then z, recording
      the struck faces in a fresh copy of `NO_COLLISIONS`. */
  function MoveBox(b: Box, movement: Vec3, blockers: seq<Box>): (r: Moved)
    ensures r.box.anchor == b.anchor && r.box.size == b.size
    ensures forall f :: f in r.collisions
  {
    var sx := StepAlong(b, X, movement.x, blockers);
    var sy := StepAlong(sx.box, Y, movement.y, blockers);
    var sz := StepAlong(sy.box, Z, movement.z, blockers);
    NoCollisionsAllFalse();
    Moved(sz.box, Record(Record(Record(NO_COLLISIONS, sx.hit), sy.hit), sz.hit))
  }

  /** The flags `move` returns: a face is flagged only by a step along its
      own axis in its own direction, so a zero component flags nothing on
      its axis and no axis has both faces flagged. */
  lemma MoveFlags(b: Box, movement: Vec3, blockers: seq<Box>)
    ensures var c := MoveBox(b, movement, blockers).collisions;
      forall a :: Flagged(c, UpperFace(a)) ==> movement.At(a) > 0.0
    ensures var c := MoveBox(b, movement, blockers).collisions;
      forall a :: Flagged(c, LowerFace(a)) ==> movement.At(a) < 0.0
    ensures var c := MoveBox(b, movement, blockers).collisions;
      forall a :: !(Flagged(c, UpperFace(a)) && Flagged(c, LowerFace(a)))
    ensures var c := MoveBox(b, movement, blockers).collisions;
      forall a :: movement.At(a) == 0.0 ==> !Flagged(c, UpperFace(a)) && !Flagged(c, LowerFace(a))
  {
    var sx := StepAlong(b, X, movement.x, blockers);
    var sy := StepAlong(sx.box, Y, movement.y, blockers);
    var sz := StepAlong(sy.box, Z, movement.z, blockers);
    assert MoveBox(b, movement, blockers).collisions == Record(Record(Record(NO_COLLISIONS, sx.hit), sy.hit), sz.hit);
    RecordedFlags(movement, sx.hit, sy.hit, sz.hit);
  }

  /** Recording one face per axis step, each on its own axis and on the
      side the step went, into all-false flags. */
  lemma RecordedFlags(movement: Vec3, hx: Option<Face>, hy: Option<Face>, hz: Option<Face>)
    requires movement.x == 0.0 ==> hx.None?
    requires movement.y == 0.0 ==> hy.None?
    requires movement.z == 0.0 ==> hz.None?
    requires hx.Some? ==> hx.value.Axis() == X && (hx.value.Upper() <==> movement.x > 0.0)
    requires hy.Some? ==> hy.value.Axis() == Y && (hy.value.Upper() <==> movement.y > 0.0)
    requires hz.Some? ==> hz.value.Axis() == Z && (hz.value.Upper() <==> movement.z > 0.0)
    ensures var c := Record(Record(Record(NO_COLLISIONS, hx), hy), hz);
      forall a :: Flagged(c, UpperFace(a)) ==> movement.At(a) > 0.0
    ensures var c := Record(Record(Record(NO_COLLISIONS, hx), hy), hz);
      forall a :: Flagged(c, LowerFace(a)) ==> movement.At(a) < 0.0
    ensures var c := Record(Record(Record(NO_COLLISIONS, hx), hy), hz);
      forall a :: !(Flagged(c, UpperFace(a)) && Flagged(c, LowerFace(a)))
    ensures var c := Record(Record(Record(NO_COLLISIONS, hx), hy), hz);
      forall a :: movement.At(a) == 0.0 ==> !Flagged(c, UpperFace(a)) && !Flagged(c, LowerFace(a))
  {
    NoCollisionsAllFalse();
    var c := Record(Record(Record(NO_COLLISIONS, hx), hy), hz);
    assert forall f :: Flagged(c, f) ==> hx == Some(f) || hy == Some(f) || hz == Some(f);
  }

  /** A moving box. Only its origin changes. */
  class Cuboid {
    const anchor: Anchor
    var origin: Vec3
    const size: Vec3

    constructor (anchor: Anchor, origin: Vec3, size: Vec3)
      ensures Shape() == Box(anchor, origin, size)
    {
      this.anchor := anchor;
      this.origin := origin;
      this.size := size;
    }

    /** The box the cuboid currently occupies. */
    function Shape(): Box
      reads this`origin
    {
      Box(anchor, origin, size)
    }

    /** A face setter: the face now lies at `v`. */
    method SetFace(f: Face, v: real)
      modifies this`origin
      ensures Shape() == WithFace(old(Shape()), f, v)
      ensures FaceOf(Shape(), f) == v
    {
      origin := WithFace(Shape(), f, v).origin;
    }

    /** `collision_check(blockers)`: the first blocker, in list order, that
        the cuboid collides with, or none. */
    method CollisionCheck(blockers: seq<Box>) returns (blocker: Option<Box>)
      ensures blocker == Blocking(Shape(), blockers)
      ensures blocker.Some? ==> blocker.value in blockers && Collide(Shape(), blocker.value)
    {
      for i := 0 to |blockers|
        invariant forall j :: 0 <= j < i ==> !Collide(Shape(), blockers[j])
      {
        if Collide(Shape(), blockers[i]) {
          return Some(blockers[i]);
        }
      }
      return None;
    }

    /** One axis step of `move`, updating the flags. */
    method MoveAlong(a: Axis, m: real, blockers: seq<Box>, collisions: map<Face, bool>)
      returns (collisions': map<Face, bool>)
      modifies this`origin
      ensures Shape() == StepAlong(old(Shape()), a, m, blockers).box
      ensures collisions' == Record(collisions, StepAlong(old(Shape()), a, m, blockers).hit)
    {
      collisions' := collisions;
      ghost var moved := Advance(Shape(), a, m);
      origin := origin.Put(a, origin.At(a) + m);
      assert Shape() == moved;
      var blocker := CollisionCheck(blockers);
      ghost var r := Resolve(moved, a, m, blocker);
      if blocker.Some? {
        if m > 0.0 {
          SetFace(UpperFace(a), FaceOf(blocker.value, LowerFace(a)));
          collisions' := collisions'[UpperFace(a) := true];
        }
        if m < 0.0 {
          SetFace(LowerFace(a), FaceOf(blocker.value, UpperFace(a)));
          collisions' := collisions'[LowerFace(a) := true];
        }
      }
      assert Shape() == r.box && collisions' == Record(collisions, r.hit);
    }

    /** `move(movement, blockers)`. */
    method Move(movement: Vec3, blockers: seq<Box>) returns (collisions: map<Face, bool>)
      modifies this`origin
      ensures Moved(Shape(), collisions) == MoveBox(old(Shape()), movement, blockers)
    {
      collisions := NO_COLLISIONS;
      collisions := MoveAlong(X, movement.x, blockers, collisions);
      collisions := MoveAlong(Y, movement.y, blockers, collisions);
      collisions := MoveAlong(Z, movement.z, blockers, collisions);
    }
  }
}
