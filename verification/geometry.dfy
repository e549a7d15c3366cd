/** `Geometry` (mgllib/model/geometry.py): the vertices of a model, grouped
    by material, with their axis-aligned bounds, recentring, and the
    flattening of each material into one float buffer for the GPU. A
    vertex is a dictionary from attribute to floats, as the OBJ loader
    produces it; its position is the `vert` attribute. */
module Geom {
  import opened Wrappers
  import opened Dicts
  import Obj

  type Point = Obj.Point

  /** `materials`: material name to its list of vertices. */
  type Materials = Dict<string, seq<Point>>

  /** One `(min, max)` pair per axis. */
  type Bounds = seq<(real, real)>

  /** The starting extremes of `get_bounds`, `9999999` and `-9999999`. */
  const FAR: real := 9999999.0

  /** Python's `min(a, b)`: `b` only when it is smaller. */
  function Min(a: real, b: real): (r: real)
    ensures r <= a && r <= b && (r == a || r == b)
  {
    if b < a then b else a
  }

  /** Python's `max(a, b)`: `b` only when it is larger. */
  function Max(a: real, b: real): (r: real)
    ensures r >= a && r >= b && (r == a || r == b)
  {
    if b > a then b else a
  }

  /** `vert['vert']`: the position of a vertex. */
  function Pos(p: Point): seq<real>
    requires Obj.Vert in p.items
  {
    p.items[Obj.Vert]
  }

  /** There is a first material and it has a vertex. */
  predicate HasFirst(m: Materials) {
    |m.keys| > 0 && m.keys[0] in m.items && |m.items[m.keys[0]]| > 0
  }

  /** The first vertex of the first material. */
  function First(m: Materials): Point
    requires HasFirst(m)
  {
    m.items[m.keys[0]][0]
  }

  /** Every vertex of every material has a position of at least d
      coordinates. */
  ghost predicate Positioned(m: Materials, d: nat) {
    forall k, j :: k in m.items && 0 <= j < |m.items[k]| ==>
      Obj.Vert in m.items[k][j].items && d <= |Pos(m.items[k][j])|
  }

  /** What `get_bounds` needs to run without a `KeyError` or an
      `IndexError`: once there is a first vertex, every vertex has a
      position at least as long as the first one's. */
  ghost predicate BoundsPre(m: Materials) {
    && m.Valid()
    && (HasFirst(m) ==> Obj.Vert in First(m).items && Positioned(m, |Pos(First(m))|))
  }

  /** `[(9999999, -9999999)] * dimensions`. */
  function Initial(d: nat): (b: Bounds)
    ensures |b| == d
  {
    seq(d, _ => (FAR, -FAR))
  }

  /** One turn of the innermost loop of `get_bounds` for every axis: each
      pair widened to take in the vertex's coordinate. */
  function Widen(b: Bounds, v: seq<real>): (r: Bounds)
    requires |b| <= |v|
    ensures |r| == |b|
  {
    seq(|b|, i requires 0 <= i < |b| => (Min(b[i].0, v[i]), Max(b[i].1, v[i])))
  }

  /** The bounds after the first n vertices of one material. */
  function WidenVertices(b: Bounds, vs: seq<Point>, n: nat): (r: Bounds)
    requires n <= |vs|
    requires forall j :: 0 <= j < n ==> Obj.Vert in vs[j].items && |b| <= |Pos(vs[j])|
    ensures |r| == |b|
  {
    if n == 0 then b else Widen(WidenVertices(b, vs, n - 1), Pos(vs[n - 1]))
  }

  /** The bounds after every vertex of the first n materials, in key
      order. */
  function WidenMaterials(b: Bounds, m: Materials, n: nat): (r: Bounds)
    requires n <= |m.keys| && forall t :: 0 <= t < n ==> m.keys[t] in m.items
    requires Positioned(m, |b|)
    ensures |r| == |b|
  {
    if n == 0 then b
    else
      var vs := m.items[m.keys[n - 1]];
      WidenVertices(WidenMaterials(b, m, n - 1), vs, |vs|)
  }

  /** `self.bounds` after `get_bounds()`: none without a first vertex,
      otherwise the widening of the starting extremes over every vertex of
      every material. */
  ghost function BoundsOf(m: Materials): Option<Bounds>
    requires BoundsPre(m)
  {
    if !HasFirst(m) then None
    else
      KeysInItems(m);
      Some(WidenMaterials(Initial(|Pos(First(m))|), m, |m.keys|))
  }

  /** Every key in the key list has a value. */
  lemma KeysInItems(m: Materials)
    requires m.Valid()
    ensures forall t :: 0 <= t < |m.keys| ==> m.keys[t] in m.items
  {
    forall t | 0 <= t < |m.keys|
      ensures m.keys[t] in m.items
    {
      assert m.keys[t] in m.keys;
    }
  }

  /** No bounds without materials or with an empty first material;
      otherwise one pair per coordinate of the first vertex. */
  lemma BoundsShape(m: Materials)
    requires BoundsPre(m)
    ensures BoundsOf(m).None? <==> |m.keys| == 0 || |m.items[m.keys[0]]| == 0
    ensures BoundsOf(m).Some? ==> |BoundsOf(m).value| == |Pos(m.items[m.keys[0]][0])|
  {
    if |m.keys| > 0 {
      assert m.keys[0] in m.keys;
    }
  }

  /** Every coordinate the bounds look at lies within the starting
      extremes. */
  ghost predicate InRange(m: Materials, d: nat)
    requires Positioned(m, d)
  {
    forall k, j, a :: k in m.items && 0 <= j < |m.items[k]| && 0 <= a < d ==> -FAR <= Pos(m.items[k][j])[a] <= FAR
  }

  /** x is the smallest coordinate on axis a over all vertices. */
  ghost predicate Lowest(m: Materials, a: nat, x: real)
    requires Positioned(m, a + 1)
  {
    && (forall k, j :: k in m.items && 0 <= j < |m.items[k]| ==> x <= Pos(m.items[k][j])[a])
    && (exists k, j :: k in m.items && 0 <= j < |m.items[k]| && Pos(m.items[k][j])[a] == x)
  }

  /** x is the largest coordinate on axis a over all vertices. */
  ghost predicate Highest(m: Materials, a: nat, x: real)
    requires Positioned(m, a + 1)
  {
    && (forall k, j :: k in m.items && 0 <= j < |m.items[k]| ==> Pos(m.items[k][j])[a] <= x)
    && (exists k, j :: k in m.items && 0 <= j < |m.items[k]| && Pos(m.items[k][j])[a] == x)
  }

  /** Over one material, axis a's pair only widens, takes in every
      coordinate, and each end is the start or some vertex's coordinate. */
  lemma {:induction false} WidenVerticesAxis(b: Bounds, vs: seq<Point>, n: nat, a: nat)
    requires n <= |vs| && forall j :: 0 <= j < n ==> Obj.Vert in vs[j].items && |b| <= |Pos(vs[j])|
    requires a < |b|
    ensures WidenVertices(b, vs, n)[a].0 <= b[a].0 && WidenVertices(b, vs, n)[a].1 >= b[a].1
    ensures forall j :: 0 <= j < n ==> WidenVertices(b, vs, n)[a].0 <= Pos(vs[j])[a] <= WidenVertices(b, vs, n)[a].1
    ensures WidenVertices(b, vs, n)[a].0 == b[a].0 || exists j :: 0 <= j < n && Pos(vs[j])[a] == WidenVertices(b, vs, n)[a].0
    ensures WidenVertices(b, vs, n)[a].1 == b[a].1 || exists j :: 0 <= j < n && Pos(vs[j])[a] == WidenVertices(b, vs, n)[a].1
  {
    if n > 0 {
      WidenVerticesAxis(b, vs, n - 1, a);
      var p := WidenVertices(b, vs, n - 1)[a];
      var x := Pos(vs[n - 1])[a];
      assert WidenVertices(b, vs, n)[a] == (Min(p.0, x), Max(p.1, x));
    }
  }

  /** The same over the first n materials. */
  lemma {:induction false} WidenMaterialsAxis(b: Bounds, m: Materials, n: nat, a: nat)
    requires n <= |m.keys| && forall t :: 0 <= t < n ==> m.keys[t] in m.items
    requires Positioned(m, |b|) && a < |b|
    ensures WidenMaterials(b, m, n)[a].0 <= b[a].0 && WidenMaterials(b, m, n)[a].1 >= b[a].1
    ensures forall t, j :: 0 <= t < n && 0 <= j < |m.items[m.keys[t]]| ==>
      WidenMaterials(b, m, n)[a].0 <= Pos(m.items[m.keys[t]][j])[a] <= WidenMaterials(b, m, n)[a].1
    ensures WidenMaterials(b, m, n)[a].0 == b[a].0 || exists t, j :: 0 <= t < n && 0 <= j < |m.items[m.keys[t]]| && Pos(m.items[m.keys[t]][j])[a] == WidenMaterials(b, m, n)[a].0
    ensures WidenMaterials(b, m, n)[a].1 == b[a].1 || exists t, j :: 0 <= t < n && 0 <= j < |m.items[m.keys[t]]| && Pos(m.items[m.keys[t]][j])[a] == WidenMaterials(b, m, n)[a].1
  {
    if n > 0 {
      WidenMaterialsAxis(b, m, n - 1, a);
      var vs := m.items[m.keys[n - 1]];
      var p := WidenMaterials(b, m, n - 1);
      WidenVerticesAxis(p, vs, |vs|, a);
      var r := WidenMaterials(b, m, n)[a];
      assert r == WidenVertices(p, vs, |vs|)[a];
      if r.0 != b[a].0 && r.0 != p[a].0 {
        var j :| 0 <= j < |vs| && Pos(vs[j])[a] == r.0;
        assert 0 <= n - 1 < n && Pos(m.items[m.keys[n - 1]][j])[a] == r.0;
      }
      if r.1 != b[a].1 && r.1 != p[a].1 {
        var j :| 0 <= j < |vs| && Pos(vs[j])[a] == r.1;
        assert 0 <= n - 1 < n && Pos(m.items[m.keys[n - 1]][j])[a] == r.1;
      }
    }
  }

  /** When every coordinate lies within the starting extremes, the bounds
      of axis a are exactly its smallest and largest coordinate over all
      vertices of all materials. */
  lemma BoundsExact(m: Materials, a: nat)
    requires BoundsPre(m) && HasFirst(m) && a < |Pos(First(m))|
    requires InRange(m, |Pos(First(m))|)
    ensures Lowest(m, a, BoundsOf(m).value[a].0)
    ensures Highest(m, a, BoundsOf(m).value[a].1)
  {
    KeysInItems(m);
    var d := |Pos(First(m))|;
    var r := BoundsOf(m).value[a];
    WidenMaterialsAxis(Initial(d), m, |m.keys|, a);
    forall k, j | k in m.items && 0 <= j < |m.items[k]|
      ensures r.0 <= Pos(m.items[k][j])[a] <= r.1
    {
      assert k in m.keys;
      var t :| 0 <= t < |m.keys| && m.keys[t] == k;
    }
    var x := Pos(m.items[m.keys[0]][0])[a];
    assert -FAR <= x <= FAR;
    if r.0 == FAR {
      assert x == r.0;
    } else {
      var t, j :| 0 <= t < |m.keys| && 0 <= j < |m.items[m.keys[t]]| && Pos(m.items[m.keys[t]][j])[a] == r.0;
      assert m.keys[t] in m.items;
    }
    if r.1 == -FAR {
      assert x == r.1;
    } else {
      var t, j :| 0 <= t < |m.keys| && 0 <= j < |m.items[m.keys[t]]| && Pos(m.items[m.keys[t]][j])[a] == r.1;
      assert m.keys[t] in m.items;
    }
  }

  /** `get_center`'s tuple: the midpoint of each axis. */
  function Midpoints(b: Bounds): (c: seq<real>)
    ensures |c| == |b|
  {
    seq(|b|, i requires 0 <= i < |b| => (b[i].1 - b[i].0) * 0.5 + b[i].0)
  }

  /** `get_center()`: none when there are no bounds or no axes (an empty
      list is false), otherwise the midpoints. */
  ghost function CenterOf(m: Materials): Option<seq<real>>
    requires BoundsPre(m)
  {
    match BoundsOf(m)
    case None => None
    case Some(b) => if b == [] then None else Some(Midpoints(b))
  }

  /** `max(dim[1] - dim[0] for dim in bounds)` over the first n axes. */
  function LargestSpan(b: Bounds, n: nat): real
    requires 0 < n <= |b|
  {
    if n == 1 then b[0].1 - b[0].0 else Max(LargestSpan(b, n - 1), b[n - 1].1 - b[n - 1].0)
  }

  /** One coordinate after `center`: moved by the old center, and with
      `rescale` divided by the largest span and doubled. */
  function Coord(x: real, c: real, rescale: bool, span: real): real
    requires rescale ==> span != 0.0
  {
    if rescale then (x - c) / span * 2.0 else x - c
  }

  /** The new position tuple of a vertex: one coordinate per axis of the
      center, so any further coordinates are dropped. */
  function Shift(v: seq<real>, c: seq<real>, rescale: bool, span: real): (r: seq<real>)
    requires |c| <= |v| && (rescale ==> span != 0.0)
    ensures |r| == |c|
  {
    seq(|c|, j requires 0 <= j < |c| => Coord(v[j], c[j], rescale, span))
  }

  /** A vertex after `center`: its position replaced, every other
      attribute kept. */
  function Moved(p: Point, c: seq<real>, rescale: bool, span: real): Point
    requires Obj.Vert in p.items && |c| <= |Pos(p)| && (rescale ==> span != 0.0)
  {
    p.Put(Obj.Vert, Shift(Pos(p), c, rescale, span))
  }

  /** One material's vertices after `center`. */
  function MovedAll(vs: seq<Point>, c: seq<real>, rescale: bool, span: real): (r: seq<Point>)
    requires forall j :: 0 <= j < |vs| ==> Obj.Vert in vs[j].items && |c| <= |Pos(vs[j])|
    requires rescale ==> span != 0.0
    ensures |r| == |vs|
  {
    seq(|vs|, j requires 0 <= j < |vs| => Moved(vs[j], c, rescale, span))
  }

  /** Every material after `center`, keys and their order unchanged. */
  ghost function Centered(m: Materials, c: seq<real>, rescale: bool, span: real): Materials
    requires Positioned(m, |c|) && (rescale ==> span != 0.0)
  {
    Dict(m.keys, map k | k in m.items :: MovedAll(m.items[k], c, rescale, span))
  }

  /** The exception `center` can raise: dividing by a largest span of 0. */
  datatype CenterError = ZeroDivisionError

  /** The materials after `center(rescale)`: unchanged without a center,
      an error when rescaling by a span of 0, otherwise every vertex
      moved. */
  ghost function CenteredOf(m: Materials, rescale: bool): Result<Materials, CenterError>
    requires BoundsPre(m)
  {
    match CenterOf(m)
    case None => Ok(m)
    case Some(c) =>
      var span := LargestSpan(BoundsOf(m).value, |c|);
      if rescale && span == 0.0 then Err(ZeroDivisionError)
      else Ok(Centered(m, c, rescale, span))
  }

  /** m' is m with every position moved coordinate by coordinate: the
      same materials in the same order, the same vertex counts, and
      positions of exactly one coordinate per axis of the center. */
  ghost predicate MovedFrom(m': Materials, m: Materials, c: seq<real>, rescale: bool, span: real)
    requires Positioned(m, |c|) && (rescale ==> span != 0.0)
  {
    && m'.Valid() && m'.keys == m.keys
    && (forall k :: k in m'.items <==> k in m.items)
    && (forall k :: k in m.items ==> |m'.items[k]| == |m.items[k]|)
    && (forall k, j :: k in m.items && 0 <= j < |m.items[k]| ==>
          Obj.Vert in m'.items[k][j].items && |Pos(m'.items[k][j])| == |c|)
    && (forall k, j, a :: k in m.items && 0 <= j < |m.items[k]| && 0 <= a < |c| ==>
          Pos(m'.items[k][j])[a] == Coord(Pos(m.items[k][j])[a], c[a], rescale, span))
  }

  /** `center`'s materials are the old ones with every position moved. */
  lemma CenteredAt(m: Materials, c: seq<real>, rescale: bool, span: real)
    requires m.Valid() && Positioned(m, |c|) && (rescale ==> span != 0.0)
    ensures MovedFrom(Centered(m, c, rescale, span), m, c, rescale, span)
  {
    var m' := Centered(m, c, rescale, span);
    forall k, j | k in m.items && 0 <= j < |m.items[k]|
      ensures m'.items[k][j] == Moved(m.items[k][j], c, rescale, span)
    {
    }
  }

  /** After `center` the materials still meet `get_bounds`'s needs, with
      one coordinate per axis of the center. */
  lemma MovedPre(m': Materials, m: Materials, c: seq<real>, rescale: bool, span: real)
    requires BoundsPre(m) && HasFirst(m) && |c| == |Pos(First(m))| && (rescale ==> span != 0.0)
    requires MovedFrom(m', m, c, rescale, span)
    ensures BoundsPre(m') && HasFirst(m') && |Pos(First(m'))| == |c|
  {
    assert m.keys[0] in m.keys;
    forall k, j | k in m'.items && 0 <= j < |m'.items[k]|
      ensures Obj.Vert in m'.items[k][j].items && |c| <= |Pos(m'.items[k][j])|
    {
    }
  }

  /** Moving a vertex keeps its other attributes and their order. */
  lemma CenteredKeepsAttributes(m: Materials, c: seq<real>, rescale: bool, span: real, k: string, j: nat, id: Obj.Attr)
    requires Positioned(m, |c|) && (rescale ==> span != 0.0)
    requires k in m.items && j < |m.items[k]|
    ensures k in Centered(m, c, rescale, span).items && j < |Centered(m, c, rescale, span).items[k]|
    ensures Centered(m, c, rescale, span).items[k][j].keys == m.items[k][j].keys
    ensures id != Obj.Vert ==> (id in Centered(m, c, rescale, span).items[k][j].items <==> id in m.items[k][j].items)
    ensures id != Obj.Vert && id in m.items[k][j].items ==>
      Centered(m, c, rescale, span).items[k][j].items[id] == m.items[k][j].items[id]
  {
    assert Centered(m, c, rescale, span).items[k][j] == Moved(m.items[k][j], c, rescale, span);
  }

  /** The smallest coordinate of an axis is one value. */
  lemma LowestUnique(m: Materials, a: nat, x: real, y: real)
    requires Positioned(m, a + 1) && Lowest(m, a, x) && Lowest(m, a, y)
    ensures x == y
  {
    var k, j :| k in m.items && 0 <= j < |m.items[k]| && Pos(m.items[k][j])[a] == x;
    var k', j' :| k' in m.items && 0 <= j' < |m.items[k']| && Pos(m.items[k'][j'])[a] == y;
  }

  /** The largest coordinate of an axis is one value. */
  lemma HighestUnique(m: Materials, a: nat, x: real, y: real)
    requires Positioned(m, a + 1) && Highest(m, a, x) && Highest(m, a, y)
    ensures x == y
  {
    var k, j :| k in m.items && 0 <= j < |m.items[k]| && Pos(m.items[k][j])[a] == x;
    var k', j' :| k' in m.items && 0 <= j' < |m.items[k']| && Pos(m.items[k'][j'])[a] == y;
  }

  /** Moving keeps the order of coordinates when the span is positive. */
  lemma CoordMonotone(x: real, y: real, c: real, rescale: bool, span: real)
    requires x <= y && (rescale ==> span > 0.0)
    ensures Coord(x, c, rescale, span) <= Coord(y, c, rescale, span)
  {
    if rescale {
      assert (y - c) / span - (x - c) / span == (y - x) / span;
    }
  }

  /** Dividing a negated value negates the quotient. */
  lemma DivNeg(x: real, s: real)
    requires s != 0.0
    ensures (-x) / s == -(x / s)
  {
    var q := x / s;
    assert q * s == x;
    assert (-q) * s == -x;
  }

  /** A value between 0 and a positive divisor divides to at most 1. */
  lemma DivAtMostOne(x: real, s: real)
    requires 0.0 <= x <= s && s > 0.0
    ensures x / s <= 1.0
  {
    var q := x / s;
    assert q * s == x;
    assert (q - 1.0) * s <= 0.0;
  }

  /** The two ends of an axis move to opposite values within the starting
      extremes. */
  lemma CoordEnds(lo: real, hi: real, rescale: bool, span: real)
    requires -FAR <= lo <= hi <= FAR && (rescale ==> span > 0.0 && hi - lo <= span)
    ensures var c := (hi - lo) * 0.5 + lo;
      && Coord(lo, c, rescale, span) == -Coord(hi, c, rescale, span)
      && -FAR <= Coord(lo, c, rescale, span) <= Coord(hi, c, rescale, span) <= FAR
  {
    var c := (hi - lo) * 0.5 + lo;
    if rescale {
      assert lo - c == -(hi - c);
      DivNeg(hi - c, span);
      DivAtMostOne(hi - c, span);
    }
  }

  /** The largest span is at least every axis's span and is one of them. */
  lemma {:induction false} SpanLargest(b: Bounds, n: nat)
    requires 0 < n <= |b|
    ensures forall a :: 0 <= a < n ==> b[a].1 - b[a].0 <= LargestSpan(b, n)
    ensures exists a :: 0 <= a < n && LargestSpan(b, n) == b[a].1 - b[a].0
  {
    if n == 1 {
      assert LargestSpan(b, n) == b[0].1 - b[0].0;
    } else {
      SpanLargest(b, n - 1);
      if b[n - 1].1 - b[n - 1].0 <= LargestSpan(b, n - 1) {
        var a :| 0 <= a < n - 1 && LargestSpan(b, n - 1) == b[a].1 - b[a].0;
        assert LargestSpan(b, n) == b[a].1 - b[a].0;
      } else {
        assert LargestSpan(b, n) == b[n - 1].1 - b[n - 1].0;
      }
    }
  }

  /** Each axis's pair is ordered and lies within the starting extremes. */
  lemma BoundsOrdered(m: Materials, a: nat)
    requires BoundsPre(m) && HasFirst(m) && a < |Pos(First(m))|
    requires InRange(m, |Pos(First(m))|)
    ensures -FAR <= BoundsOf(m).value[a].0 <= BoundsOf(m).value[a].1 <= FAR
  {
    BoundsExact(m, a);
    assert m.keys[0] in m.keys;
    var k, j :| k in m.items && 0 <= j < |m.items[k]| && Pos(m.items[k][j])[a] == BoundsOf(m).value[a].0;
    var k', j' :| k' in m.items && 0 <= j' < |m.items[k']| && Pos(m.items[k'][j'])[a] == BoundsOf(m).value[a].1;
  }

  /** After moving, the smallest and largest coordinates of an axis are
      the moved old ones. */
  lemma MovedExtremes(m': Materials, m: Materials, c: seq<real>, rescale: bool, span: real, a: nat)
    requires BoundsPre(m) && HasFirst(m) && a < |Pos(First(m))| == |c|
    requires InRange(m, |c|) && (rescale ==> span > 0.0)
    requires MovedFrom(m', m, c, rescale, span)
    ensures Positioned(m', a + 1)
    ensures Lowest(m', a, Coord(BoundsOf(m).value[a].0, c[a], rescale, span))
    ensures Highest(m', a, Coord(BoundsOf(m).value[a].1, c[a], rescale, span))
  {
    var lo := BoundsOf(m).value[a].0;
    var hi := BoundsOf(m).value[a].1;
    BoundsExact(m, a);
    forall k, j | k in m'.items && 0 <= j < |m'.items[k]|
      ensures Coord(lo, c[a], rescale, span) <= Pos(m'.items[k][j])[a] <= Coord(hi, c[a], rescale, span)
    {
      var x := Pos(m.items[k][j])[a];
      CoordMonotone(lo, x, c[a], rescale, span);
      CoordMonotone(x, hi, c[a], rescale, span);
    }
    var k, j :| k in m.items && 0 <= j < |m.items[k]| && Pos(m.items[k][j])[a] == lo;
    assert Pos(m'.items[k][j])[a] == Coord(lo, c[a], rescale, span);
    var k', j' :| k' in m.items && 0 <= j' < |m.items[k']| && Pos(m.items[k'][j'])[a] == hi;
    assert Pos(m'.items[k'][j'])[a] == Coord(hi, c[a], rescale, span);
  }

  /** Moving by the midpoints keeps every coordinate within the starting
      extremes. */
  lemma MovedInRange(m': Materials, m: Materials, c: seq<real>, rescale: bool, span: real)
    requires BoundsPre(m) && HasFirst(m) && InRange(m, |Pos(First(m))|)
    requires c == Midpoints(BoundsOf(m).value)
    requires rescale ==> span > 0.0 && forall a :: 0 <= a < |c| ==> BoundsOf(m).value[a].1 - BoundsOf(m).value[a].0 <= span
    requires MovedFrom(m', m, c, rescale, span)
    ensures Positioned(m', |c|) && InRange(m', |c|)
  {
    var b := BoundsOf(m).value;
    forall k, j, a | k in m'.items && 0 <= j < |m'.items[k]| && 0 <= a < |c|
      ensures -FAR <= Pos(m'.items[k][j])[a] <= FAR
    {
      BoundsExact(m, a);
      BoundsOrdered(m, a);
      var x := Pos(m.items[k][j])[a];
      CoordMonotone(b[a].0, x, c[a], rescale, span);
      CoordMonotone(x, b[a].1, c[a], rescale, span);
      CoordEnds(b[a].0, b[a].1, rescale, span);
    }
  }

  /** Bounds whose ends are the smallest and largest coordinates. */
  lemma BoundsAreExtremes(m: Materials, a: nat, lo: real, hi: real)
    requires BoundsPre(m) && HasFirst(m) && a < |Pos(First(m))| && InRange(m, |Pos(First(m))|)
    requires Lowest(m, a, lo) && Highest(m, a, hi)
    ensures BoundsOf(m).value[a] == (lo, hi)
  {
    BoundsExact(m, a);
    LowestUnique(m, a, BoundsOf(m).value[a].0, lo);
    HighestUnique(m, a, BoundsOf(m).value[a].1, hi);
  }

  /** Moving by the midpoints brings axis a's midpoint to 0. */
  lemma MovedMidpoint(m': Materials, m: Materials, c: seq<real>, rescale: bool, span: real, a: nat)
    requires BoundsPre(m) && HasFirst(m) && a < |Pos(First(m))| && InRange(m, |Pos(First(m))|)
    requires c == Midpoints(BoundsOf(m).value)
    requires rescale ==> span > 0.0 && forall i :: 0 <= i < |c| ==> BoundsOf(m).value[i].1 - BoundsOf(m).value[i].0 <= span
    requires MovedFrom(m', m, c, rescale, span)
    ensures BoundsPre(m') && BoundsOf(m').Some? && a < |BoundsOf(m').value|
    ensures Midpoints(BoundsOf(m').value)[a] == 0.0
  {
    var b := BoundsOf(m).value;
    MovedPre(m', m, c, rescale, span);
    MovedInRange(m', m, c, rescale, span);
    BoundsOrdered(m, a);
    MovedExtremes(m', m, c, rescale, span, a);
    var lo := Coord(b[a].0, c[a], rescale, span);
    var hi := Coord(b[a].1, c[a], rescale, span);
    BoundsAreExtremes(m', a, lo, hi);
    CoordEnds(b[a].0, b[a].1, rescale, span);
    var b' := BoundsOf(m').value;
    assert b'[a] == (lo, hi) && lo == -hi;
    assert Midpoints(b')[a] == (hi - lo) * 0.5 + lo;
  }

  /** `center` moves the midpoint of the recomputed bounds to the origin
      on every axis, with or without rescaling, as long as the
      coordinates lie within the starting extremes. */
  lemma CenterOrigin(m: Materials, rescale: bool)
    requires BoundsPre(m) && HasFirst(m) && 0 < |Pos(First(m))| && InRange(m, |Pos(First(m))|)
    requires CenteredOf(m, rescale).Ok?
    ensures BoundsPre(CenteredOf(m, rescale).value)
    ensures CenterOf(CenteredOf(m, rescale).value) == Some(seq(|Pos(First(m))|, _ => 0.0))
  {
    var d := |Pos(First(m))|;
    var b := BoundsOf(m).value;
    var c := Midpoints(b);
    assert CenterOf(m) == Some(c);
    var span := LargestSpan(b, d);
    SpanLargest(b, d);
    if rescale {
      BoundsOrdered(m, 0);
    }
    var m' := Centered(m, c, rescale, span);
    assert CenteredOf(m, rescale).value == m';
    CenteredAt(m, c, rescale, span);
    MovedOrigin(m', m, c, rescale, span);
  }

  /** Materials moved by the midpoints of their bounds have their own
      midpoints at the origin. */
  lemma MovedOrigin(m': Materials, m: Materials, c: seq<real>, rescale: bool, span: real)
    requires BoundsPre(m) && HasFirst(m) && 0 < |Pos(First(m))| && InRange(m, |Pos(First(m))|)
    requires c == Midpoints(BoundsOf(m).value)
    requires rescale ==> span > 0.0 && forall i :: 0 <= i < |c| ==> BoundsOf(m).value[i].1 - BoundsOf(m).value[i].0 <= span
    requires MovedFrom(m', m, c, rescale, span)
    ensures BoundsPre(m')
    ensures CenterOf(m') == Some(seq(|Pos(First(m))|, _ => 0.0))
  {
    var d := |Pos(First(m))|;
    MovedMidpoint(m', m, c, rescale, span, 0);
    var b' := BoundsOf(m').value;
    forall a | 0 <= a < d
      ensures Midpoints(b')[a] == 0.0
    {
      MovedMidpoint(m', m, c, rescale, span, a);
    }
    assert Midpoints(b') == seq(d, _ => 0.0);
  }

  /** The inner loop of `center` over one material's vertices: each
      vertex gets its moved position, in place. */
  method MoveMaterial(vertices: seq<Point>, c: seq<real>, rescale: bool, span: real) returns (moved: seq<Point>)
    requires forall j :: 0 <= j < |vertices| ==> Obj.Vert in vertices[j].items && |c| <= |Pos(vertices[j])|
    requires rescale ==> span != 0.0
    ensures moved == MovedAll(vertices, c, rescale, span)
  {
    moved := vertices;
    for j := 0 to |moved|
      invariant |moved| == |vertices|
      invariant forall i :: 0 <= i < j ==> moved[i] == Moved(vertices[i], c, rescale, span)
      invariant forall i :: j <= i < |moved| ==> moved[i] == vertices[i]
    {
      var p := moved[j];
      var vert := seq(|c|, i requires 0 <= i < |c| => Coord(p.items[Obj.Vert][i], c[i], rescale, span));
      moved := moved[j := p.Put(Obj.Vert, vert)];
    }
  }

  /** `VertexBuffer(ctx, material_data, material_fmt)` without the GPU
      upload: a material's floats and the attribute order they follow. */
  datatype Buffer = Buffer(data: seq<real>, fmt: seq<Obj.Attr>)

  /** One vertex flattened: the values of its groups in the order fmt. */
  function FlatVertex(p: Point, fmt: seq<Obj.Attr>): seq<real>
    requires forall g :: g in fmt ==> g in p.items
  {
    if fmt == [] then [] else FlatVertex(p, fmt[..|fmt| - 1]) + p.items[fmt[|fmt| - 1]]
  }

  /** The first n vertices flattened one after another. */
  function FlatData(vs: seq<Point>, fmt: seq<Obj.Attr>, n: nat): seq<real>
    requires n <= |vs| && forall j, g :: 0 <= j < n && g in fmt ==> g in vs[j].items
  {
    if n == 0 then [] else FlatData(vs, fmt, n - 1) + FlatVertex(vs[n - 1], fmt)
  }

  /** `build` needs every vertex of a material to have the attributes of
      the material's first vertex (a `KeyError` otherwise). */
  ghost predicate Flattenable(m: Materials) {
    forall k, j, g :: k in m.items && 0 <= j < |m.items[k]| && g in m.items[k][0].keys ==> g in m.items[k][j].items
  }

  /** The buffer of a non-empty material: its vertices flattened in the
      first vertex's key order. */
  ghost function MaterialBuffer(vs: seq<Point>): Buffer
    requires |vs| > 0 && forall j, g :: 0 <= j < |vs| && g in vs[0].keys ==> g in vs[j].items
  {
    Buffer(FlatData(vs, vs[0].keys, |vs|), vs[0].keys)
  }

  /** The buffers of the first n materials: one per non-empty material,
      in key order. */
  ghost function BuffersOf(m: Materials, n: nat): Dict<string, Buffer>
    requires m.Valid() && n <= |m.keys| && Flattenable(m)
  {
    KeysInItems(m);
    if n == 0 then Empty()
    else
      var vs := m.items[m.keys[n - 1]];
      if |vs| == 0 then BuffersOf(m, n - 1)
      else BuffersOf(m, n - 1).Put(m.keys[n - 1], MaterialBuffer(vs))
  }

  /** A material has a buffer exactly when it is one of the first n and
      has a vertex; the buffer is its flattening, and the buffer list has
      no duplicates. */
  lemma {:induction false} BuffersUpTo(m: Materials, n: nat, k: string)
    requires m.Valid() && Flattenable(m) && n <= |m.keys|
    ensures BuffersOf(m, n).Valid()
    ensures k in BuffersOf(m, n).items <==> k in m.keys[..n] && k in m.items && |m.items[k]| > 0
    ensures k in BuffersOf(m, n).items ==> BuffersOf(m, n).items[k] == MaterialBuffer(m.items[k])
  {
    KeysInItems(m);
    if n > 0 {
      BuffersUpTo(m, n - 1, k);
      assert m.keys[..n] == m.keys[..n - 1] + [m.keys[n - 1]];
    }
  }

  /** Flattened data of vertices whose groups have the first vertex's
      sizes is that many floats per vertex. */
  lemma {:induction false} FlatDataLength(vs: seq<Point>, fmt: seq<Obj.Attr>, n: nat)
    requires 0 < n <= |vs| && forall j, g :: 0 <= j < n && g in fmt ==> g in vs[j].items
    requires forall j, g :: 0 <= j < n && g in fmt ==> |vs[j].items[g]| == |vs[0].items[g]|
    ensures |FlatData(vs, fmt, n)| == n * |FlatVertex(vs[0], fmt)|
  {
    FlatVertexLength(vs[n - 1], vs[0], fmt);
    if n > 1 {
      FlatDataLength(vs, fmt, n - 1);
    }
  }

  /** Vertices with the same group sizes flatten to the same length. */
  lemma {:induction false} FlatVertexLength(p: Point, q: Point, fmt: seq<Obj.Attr>)
    requires forall g :: g in fmt ==> g in p.items && g in q.items && |p.items[g]| == |q.items[g]|
    ensures |FlatVertex(p, fmt)| == |FlatVertex(q, fmt)|
  {
    if fmt != [] {
      FlatVertexLength(p, q, fmt[..|fmt| - 1]);
    }
  }

  /** The attribute names of a list of groups, in order. */
  function Ids(groups: seq<Obj.Group>): (ids: seq<Obj.Attr>)
    ensures |ids| == |groups| && forall i :: 0 <= i < |groups| ==> ids[i] == groups[i].id
  {
    seq(|groups|, i requires 0 <= i < |groups| => groups[i].id)
  }

  /** No two groups share a name. */
  ghost predicate DistinctIds(groups: seq<Obj.Group>) {
    forall i, j :: 0 <= i < j < |groups| ==> groups[i].id != groups[j].id
  }

  /** With distinct names, a vertex's attributes are the group names in
      group order. */
  lemma {:induction false} GroupsOfOrder(groups: seq<Obj.Group>, n: nat, vertices: seq<real>, base: nat)
    requires n <= |groups| && DistinctIds(groups)
    requires forall k :: 0 <= k < n ==> 0 <= groups[k].start <= groups[k].end && base + groups[k].end <= |vertices|
    ensures Obj.GroupsOf(groups, n, vertices, base).keys == Ids(groups[..n])
  {
    if n > 0 {
      GroupsOfOrder(groups, n - 1, vertices, base);
      Obj.GroupsOfKeys(groups, n - 1, vertices, base);
      assert groups[n - 1].id !in Obj.GroupsOf(groups, n - 1, vertices, base).items;
      assert Ids(groups[..n]) == Ids(groups[..n - 1]) + [groups[n - 1].id];
    }
  }

  /** Two adjacent slices make one. */
  lemma SliceConcat(s: seq<real>, a: nat, b: nat, c: nat)
    requires a <= b <= c <= |s|
    ensures s[a..b] + s[b..c] == s[a..c]
  {
  }

  /** Group `g` of a vertex `p` whose floats start at `base`. */
  ghost predicate GroupAt(p: Point, g: Obj.Group, vertices: seq<real>, base: nat) {
    && 0 <= g.start <= g.end
    && base + g.end <= |vertices|
    && g.id in p.items
    && p.items[g.id] == vertices[base + g.start..base + g.end]
  }

  /** A prefix and the slice after it make a longer prefix. */
  lemma PrefixConcat(s: seq<real>, b: nat, c: nat)
    requires b <= c <= |s|
    ensures s[..b] + s[b..c] == s[..c]
  {
  }

  /** The first groups of a vertex, flattened in group order, are the
      floats from the vertex's start to the end of the last of them:
      contiguous groups tile the vertex. */
  lemma {:induction false} GroupsTile(p: Point, groups: seq<Obj.Group>, fmt: seq<Obj.Attr>, vertices: seq<real>, base: nat)
    requires 0 < |fmt| <= |groups|
    requires forall k :: 0 <= k < |fmt| ==> fmt[k] == groups[k].id
    requires forall k :: 0 <= k < |groups| ==> GroupAt(p, groups[k], vertices, base)
    requires 0 <= groups[|fmt| - 1].end && base + groups[|fmt| - 1].end <= |vertices|
    requires groups[0].start == 0 && forall k :: 0 < k < |groups| ==> groups[k].start == groups[k - 1].end
    requires forall g :: g in fmt ==> g in p.items
    ensures FlatVertex(p, fmt) == vertices[base..base + groups[|fmt| - 1].end]
  {
    var n := |fmt|;
    var init := fmt[..n - 1];
    var g := groups[n - 1];
    assert GroupAt(p, g, vertices, base);
    if n > 1 {
      assert GroupAt(p, groups[n - 2], vertices, base);
      GroupsTile(p, groups, init, vertices, base);
    } else {
      assert init == [];
    }
    assert FlatVertex(p, init) == vertices[base..base + g.start];
    assert FlatVertex(p, fmt) == FlatVertex(p, init) + p.items[g.id];
    SliceConcat(vertices, base, base + g.start, base + g.end);
  }

  /** Vertex i has every attribute of the format. */
  lemma PointAtHas(f: Obj.VertexFormat, vertices: seq<real>, i: nat)
    requires Obj.WellFormed(f) && f.length > 0 && i < |vertices| / f.length
    ensures forall g :: g in Ids(f.groupMap) ==> g in Obj.PointAt(f, vertices, i).items
  {
    Obj.SliceFits(|vertices|, f.length, i);
    var base := i * f.length;
    Obj.GroupsOfKeys(f.groupMap, |f.groupMap|, vertices, base);
    forall g | g in Ids(f.groupMap)
      ensures g in Obj.PointAt(f, vertices, i).items
    {
      var k :| 0 <= k < |f.groupMap| && Ids(f.groupMap)[k] == g;
      assert f.groupMap[k].id == g;
    }
  }

  /** Every group of vertex i sits where the format puts it. */
  lemma PointAtGroups(f: Obj.VertexFormat, vertices: seq<real>, i: nat, base: nat)
    requires Obj.WellFormed(f) && f.length > 0 && i < |vertices| / f.length && DistinctIds(f.groupMap)
    requires base == i * f.length
    ensures forall k :: 0 <= k < |f.groupMap| ==> GroupAt(Obj.PointAt(f, vertices, i), f.groupMap[k], vertices, base)
  {
    forall k | 0 <= k < |f.groupMap|
      ensures GroupAt(Obj.PointAt(f, vertices, i), f.groupMap[k], vertices, base)
    {
      Obj.PointAtGroup(f, vertices, i, k);
    }
  }

  /** Vertex p, flattened in order `fmt`, is the `length` floats from
      `base` on. */
  ghost predicate Tile(p: Point, fmt: seq<Obj.Attr>, vertices: seq<real>, base: nat, length: nat) {
    && (forall g :: g in fmt ==> g in p.items)
    && base + length <= |vertices|
    && FlatVertex(p, fmt) == vertices[base..base + length]
  }

  /** Vertex i, flattened in group order, is the `length` floats from
      `base == i * length` on of its material. */
  lemma FlatVertexTiles(f: Obj.VertexFormat, vertices: seq<real>, i: nat, base: nat)
    requires Obj.WellFormed(f) && f.length > 0 && i < |vertices| / f.length && DistinctIds(f.groupMap)
    requires base == i * f.length
    ensures Tile(Obj.PointAt(f, vertices, i), Ids(f.groupMap), vertices, base, f.length)
  {
    Obj.SliceFits(|vertices|, f.length, i);
    PointAtGroups(f, vertices, i, base);
    var last := f.groupMap[|f.groupMap| - 1];
    assert GroupAt(Obj.PointAt(f, vertices, i), last, vertices, base);
    PointAtHas(f, vertices, i);
    GroupsTile(Obj.PointAt(f, vertices, i), f.groupMap, Ids(f.groupMap), vertices, base);
  }

  /** Where vertex j of a material starts: `j * length`, counted up one
      vertex at a time. */
  function Offset(j: nat, length: nat): (o: nat)
  {
    if j == 0 then 0 else Offset(j - 1, length) + length
  }

  /** Counting vertex by vertex gives the product. */
  lemma {:induction false} OffsetIsProduct(j: nat, length: nat)
    ensures Offset(j, length) == j * length
  {
    if j > 0 {
      OffsetIsProduct(j - 1, length);
      assert (j - 1) * length + length == j * length;
    }
  }

  /** Vertices that each tile their `length` floats in turn flatten to the
      floats they were cut from. */
  lemma {:induction false} FlatDataTiles(vs: seq<Point>, fmt: seq<Obj.Attr>, vertices: seq<real>, length: nat, n: nat)
    requires n <= |vs|
    requires forall j :: 0 <= j < n ==> Tile(vs[j], fmt, vertices, Offset(j, length), length)
    ensures forall j, g :: 0 <= j < n && g in fmt ==> g in vs[j].items
    ensures Offset(n, length) <= |vertices|
    ensures FlatData(vs, fmt, n) == vertices[..Offset(n, length)]
  {
    forall j, g | 0 <= j < n && g in fmt
      ensures g in vs[j].items
    {
      assert Tile(vs[j], fmt, vertices, Offset(j, length), length);
    }
    if n > 0 {
      var prev := Offset(n - 1, length);
      FlatDataTiles(vs, fmt, vertices, length, n - 1);
      assert Tile(vs[n - 1], fmt, vertices, prev, length);
      assert Offset(n, length) == prev + length;
      assert FlatData(vs, fmt, n) == FlatData(vs, fmt, n - 1) + FlatVertex(vs[n - 1], fmt);
      PrefixConcat(vertices, prev, prev + length);
    }
  }

  /** The OBJ loader's slicing and `build`'s flattening are inverse: a
      material loaded with a format whose names are distinct flattens, in
      its first vertex's key order, back to its floats up to the last
      whole vertex. */
  lemma SliceThenFlatten(f: Obj.VertexFormat, vertices: seq<real>)
    requires Obj.WellFormed(f) && f.length > 0 && DistinctIds(f.groupMap)
    requires |vertices| >= f.length
    ensures var vs := Obj.MaterialPoints(f, vertices);
      && |vs| > 0
      && (forall j, g :: 0 <= j < |vs| && g in vs[0].keys ==> g in vs[j].items)
      && MaterialBuffer(vs) == Buffer(vertices[..|vertices| / f.length * f.length], Ids(f.groupMap))
  {
    var n := |vertices| / f.length;
    var vs := Obj.MaterialPoints(f, vertices);
    Obj.PointsUpToAt(f, vertices, n);
    forall j | 0 <= j < n
      ensures Tile(vs[j], Ids(f.groupMap), vertices, Offset(j, f.length), f.length)
    {
      OffsetIsProduct(j, f.length);
      FlatVertexTiles(f, vertices, j, Offset(j, f.length));
    }
    FlatDataTiles(vs, Ids(f.groupMap), vertices, f.length, n);
    OffsetIsProduct(n, f.length);
    Obj.SliceFits(|vertices|, f.length, 0);
    GroupsOfOrder(f.groupMap, |f.groupMap|, vertices, 0);
    assert f.groupMap[..|f.groupMap|] == f.groupMap;
  }

  /** The vertex and group loops of `build` for one material. */
  method FlattenMaterial(vertices: seq<Point>) returns (b: Buffer)
    requires |vertices| > 0 && forall j, g :: 0 <= j < |vertices| && g in vertices[0].keys ==> g in vertices[j].items
    ensures b == MaterialBuffer(vertices)
  {
    var fmt := vertices[0].keys;
    var data: seq<real> := [];
    for j := 0 to |vertices|
      invariant data == FlatData(vertices, fmt, j)
    {
      var vertex := vertices[j];
      assert forall h :: h in fmt ==> h in vertex.items;
      for g := 0 to |fmt|
        invariant data == FlatData(vertices, fmt, j) + FlatVertex(vertex, fmt[..g])
      {
        var values := vertex.items[fmt[g]];
        for x := 0 to |values|
          invariant data == FlatData(vertices, fmt, j) + FlatVertex(vertex, fmt[..g]) + values[..x]
        {
          data := data + [values[x]];
        }
        assert fmt[..g + 1][..g] == fmt[..g];
        assert values[..|values|] == values;
      }
      assert fmt[..|fmt|] == fmt;
    }
    return Buffer(data, fmt);
  }

  class Geometry {
    var materials: Materials
    var bounds: Option<Bounds>

    /** `Geometry(materials)`; the bounds are unset until `get_bounds`. */
    constructor (materials: Materials)
      ensures this.materials == materials && bounds == None
    {
      this.materials := materials;
      bounds := None;
    }

    /** `get_bounds()`: the nested loops over materials, vertices and
        axes. */
    method GetBounds()
      requires BoundsPre(materials)
      modifies this`bounds
      ensures bounds == BoundsOf(materials)
    {
      bounds := None;
      if |materials.keys| > 0 {
        assert materials.keys[0] in materials.keys;
        var first := materials.items[materials.keys[0]];
        if |first| > 0 {
          var dimensions := |first[0].items[Obj.Vert]|;
          KeysInItems(materials);
          var b := Initial(dimensions);
          for t := 0 to |materials.keys|
            invariant b == WidenMaterials(Initial(dimensions), materials, t)
          {
            var vertices := materials.items[materials.keys[t]];
            ghost var start := b;
            for j := 0 to |vertices|
              invariant b == WidenVertices(start, vertices, j)
            {
              var vert := vertices[j].items[Obj.Vert];
              ghost var b0 := b;
              for i := 0 to dimensions
                invariant |b| == dimensions
                invariant forall a :: 0 <= a < dimensions ==>
                  b[a] == if a < i then (Min(b0[a].0, vert[a]), Max(b0[a].1, vert[a])) else b0[a]
              {
                b := b[i := (Min(b[i].0, vert[i]), Max(b[i].1, vert[i]))];
              }
              assert b == Widen(b0, vert);
            }
          }
          bounds := Some(b);
        }
      }
    }

    /** `get_center()`: recomputes the bounds and returns their midpoints. */
    method GetCenter() returns (c: Option<seq<real>>)
      requires BoundsPre(materials)
      modifies this`bounds
      ensures bounds == BoundsOf(materials)
      ensures c == CenterOf(materials)
    {
      GetBounds();
      if bounds.Some? && bounds.value != [] {
        var b := bounds.value;
        c := Some(seq(|b|, i requires 0 <= i < |b| => (b[i].1 - b[i].0) * 0.5 + b[i].0));
      } else {
        c := None;
      }
    }

    /** `center(rescale)`: moves every vertex by the old center (and
        rescales it), then recomputes the bounds. */
    method Center(rescale: bool) returns (r: Result<(), CenterError>)
      requires BoundsPre(materials)
      modifies this
      ensures r.Ok? <==> CenteredOf(old(materials), rescale).Ok?
      ensures r.Ok? ==> materials == CenteredOf(old(materials), rescale).value
      ensures r.Err? ==> r.error == ZeroDivisionError && materials == old(materials)
      ensures BoundsPre(materials) && bounds == BoundsOf(materials)
    {
      var oldCenter := GetCenter();
      if oldCenter.None? {
        return Ok(());
      }
      var c := oldCenter.value;
      var largestSpan := LargestSpan(bounds.value, |c|);
      if rescale && largestSpan == 0.0 {
        return Err(ZeroDivisionError);
      }
      ghost var m0 := materials;
      MoveVertices(c, rescale, largestSpan);
      CenteredAt(m0, c, rescale, largestSpan);
      MovedPre(materials, m0, c, rescale, largestSpan);
      GetBounds();
      return Ok(());
    }

    /** The flattening part of `build(ctx, program, fmt)`: one buffer per
        material with a vertex, in key order. */
    method Build() returns (buffers: Dict<string, Buffer>)
      requires materials.Valid() && Flattenable(materials)
      ensures buffers == BuffersOf(materials, |materials.keys|)
    {
      KeysInItems(materials);
      buffers := Empty();
      for t := 0 to |materials.keys|
        invariant buffers == BuffersOf(materials, t)
      {
        var material := materials.keys[t];
        if |materials.items[material]| > 0 {
          var buffer := FlattenMaterial(materials.items[material]);
          buffers := buffers.Put(material, buffer);
        }
      }
    }

    /** The loops of `center` that rewrite each vertex's position, material
        by material in key order. */
    method MoveVertices(c: seq<real>, rescale: bool, span: real)
      requires materials.Valid() && Positioned(materials, |c|) && (rescale ==> span != 0.0)
      modifies this`materials
      ensures materials == Centered(old(materials), c, rescale, span)
    {
      ghost var m0 := materials;
      KeysInItems(m0);
      for t := 0 to |materials.keys|
        invariant materials.keys == m0.keys
        invariant materials.items.Keys == m0.items.Keys
        invariant forall s :: 0 <= s < t ==> materials.items[m0.keys[s]] == MovedAll(m0.items[m0.keys[s]], c, rescale, span)
        invariant forall s :: t <= s < |m0.keys| ==> materials.items[m0.keys[s]] == m0.items[m0.keys[s]]
      {
        var key := materials.keys[t];
        var vertices := MoveMaterial(materials.items[key], c, rescale, span);
        materials := materials.Put(key, vertices);
        assert forall s :: 0 <= s < |m0.keys| && s != t ==> m0.keys[s] != key;
      }
      assert materials == Centered(m0, c, rescale, span);
    }
  }
}
