/** Cube and pane vertex layout (mgllib/world/coord_gen.py). A vertex is
    the tuple (x, y, z, u, v, nx, ny, nz): three position components, two
    texture coordinates and the normal. Python tuples of numbers are
    sequences of reals here. */
module CoordGen {

  /** `tuple_sum(t1, t2)`: component-wise sum over the length of `t1`. */
  function TupleSum(t1: seq<real>, t2: seq<real>): (r: seq<real>)
    requires |t1| <= |t2|
    ensures |r| == |t1|
    ensures forall i :: 0 <= i < |t1| ==> r[i] == t1[i] + t2[i]
  {
    seq(|t1|, i requires 0 <= i < |t1| => t1[i] + t2[i])
  }

  /** Scale has a zero component on some axis: the pane is flat there. Without
      one the source indexes past the end of a 3-tuple offset and raises. */
  predicate FlatSomewhere(scale: seq<real>)
    requires |scale| >= 3
  {
    scale[0] == 0.0 || scale[1] == 0.0 || scale[2] == 0.0
  }

  /** The two edge offsets (dx, dy, dz, du, dv) chosen from the zero axis of
      `scale`. The three tests run in order x, y, z, so a later zero axis
      overrides an earlier one. */
  function EdgeOffsets(scale: seq<real>, uvScale: seq<real>): (seq<real>, seq<real>)
    requires |scale| >= 3 && |uvScale| >= 2 && FlatSomewhere(scale)
  {
    if scale[2] == 0.0 then
      ([0.0, scale[1], 0.0, 0.0, uvScale[1]], [scale[0], 0.0, 0.0, uvScale[0], 0.0])
    else if scale[1] == 0.0 then
      ([scale[0], 0.0, 0.0, uvScale[0], 0.0], [0.0, 0.0, scale[2], 0.0, uvScale[1]])
    else
      ([0.0, 0.0, scale[2], uvScale[0], 0.0], [0.0, scale[1], 0.0, 0.0, uvScale[1]])
  }

  /** The corner `base` moved by offset `o`, with its UV and the normal. */
  function Corner(base: seq<real>, uvBase: seq<real>, o: seq<real>, normal: seq<real>): seq<real>
    requires |base| >= 3 && |uvBase| >= 2 && |o| == 5
  {
    [base[0] + o[0], base[1] + o[1], base[2] + o[2], uvBase[0] + o[3], uvBase[1] + o[4]] + normal
  }

  /** `gen_pane`: two triangles covering a parallelogram spanned by the edge
      offsets; `flip` swaps the two offsets (and so the winding). */
  function GenPane(base: seq<real>, scale: seq<real>, normal: seq<real>, uvBase: seq<real>,
                   uvScale: seq<real>, flip: bool): (r: seq<seq<real>>)
    requires |base| >= 3 && |scale| >= 3 && |uvBase| >= 2 && |uvScale| >= 2
    requires FlatSomewhere(scale)
    ensures |r| == 6
    ensures forall i :: 0 <= i < 6 ==> |r[i]| == 5 + |normal| && r[i][5..] == normal
    ensures r[1] == r[5] && r[2] == r[4]
  {
    var (e1, e2) := EdgeOffsets(scale, uvScale);
    var (o1, o2) := if flip then (e2, e1) else (e1, e2);
    var both := [o1[0] + o2[0], o1[1] + o2[1], o1[2] + o2[2], o1[3] + o2[3], o1[4] + o2[4]];
    var v0 := [base[0], base[1], base[2], uvBase[0], uvBase[1]] + normal;
    var v1 := Corner(base, uvBase, o1, normal);
    var v2 := Corner(base, uvBase, o2, normal);
    var v3 := Corner(base, uvBase, both, normal);
    [v0, v1, v2, v3, v2, v1]
  }

  /** Flipping a pane swaps its two edges: the same corners, wound the other
      way round. */
  lemma FlipSwapsEdges(base: seq<real>, scale: seq<real>, normal: seq<real>, uvBase: seq<real>,
                       uvScale: seq<real>)
    requires |base| >= 3 && |scale| >= 3 && |uvBase| >= 2 && |uvScale| >= 2
    requires FlatSomewhere(scale)
    ensures var p := GenPane(base, scale, normal, uvBase, uvScale, false);
            GenPane(base, scale, normal, uvBase, uvScale, true) == [p[0], p[2], p[1], p[3], p[5], p[4]]
  {
  }

  /** The axis whose scale component is the only zero one. */
  predicate OnlyZeroAxis(scale: seq<real>, axis: nat)
    requires |scale| >= 3
  {
    axis < 3 && scale[axis] == 0.0 && forall a :: 0 <= a < 3 && a != axis ==> scale[a] != 0.0
  }

  /** With exactly one zero scale component, every corner of the pane keeps
      the base coordinate on that axis: the pane is flat there. */
  lemma PaneIsFlat(base: seq<real>, scale: seq<real>, normal: seq<real>, uvBase: seq<real>,
                   uvScale: seq<real>, flip: bool, axis: nat)
    requires |base| >= 3 && |scale| >= 3 && |uvBase| >= 2 && |uvScale| >= 2
    requires OnlyZeroAxis(scale, axis)
    ensures FlatSomewhere(scale)
    ensures forall i :: 0 <= i < 6 ==> GenPane(base, scale, normal, uvBase, uvScale, flip)[i][axis] == base[axis]
  {
    assert scale[axis] == 0.0;
  }

  const BIAS: real := 0.00001

  /** The normals of the six cube faces in the order `gen_cube` emits them:
      front (+z), back (-z), right (+x), left (-x), top (+y), bottom (-y). */
  const FACE_NORMALS: seq<seq<real>> :=
    [[0.0, 0.0, 1.0], [0.0, 0.0, -1.0], [1.0, 0.0, 0.0], [-1.0, 0.0, 0.0], [0.0, 1.0, 0.0], [0.0, -1.0, 0.0]]

  /** Which multiple of the (biased) UV width each face's texture starts at. */
  const FACE_UV_COLUMN: seq<real> := [2.0, 3.0, 4.0, 5.0, 0.0, 1.0]

  /** `gen_cube`: six panes, one per face, each with its outward normal. */
  function GenCube(uvBase: seq<real>, scale: real, uvScale: seq<real>): (r: seq<seq<real>>)
    requires |uvBase| == 2 && |uvScale| == 2
    ensures |r| == 36
    ensures forall i :: 0 <= i < 36 ==> |r[i]| == 8
  {
    var ub := TupleSum(uvBase, [BIAS, BIAS]);
    var us := TupleSum(uvScale, [-BIAS * 2.0, -BIAS * 2.0]);
    var front := GenPane([0.0, 0.0, scale], [scale, scale, 0.0], [0.0, 0.0, 1.0], TupleSum(ub, [us[0] * 2.0, 0.0]), us, true);
    var back := GenPane([0.0, 0.0, 0.0], [scale, scale, 0.0], [0.0, 0.0, -1.0], TupleSum(ub, [us[0] * 3.0, 0.0]), us, false);
    var right := GenPane([scale, 0.0, 0.0], [0.0, scale, scale], [1.0, 0.0, 0.0], TupleSum(ub, [us[0] * 4.0, 0.0]), us, true);
    var left := GenPane([0.0, 0.0, 0.0], [0.0, scale, scale], [-1.0, 0.0, 0.0], TupleSum(ub, [us[0] * 5.0, 0.0]), us, false);
    var top := GenPane([0.0, scale, 0.0], [scale, 0.0, scale], [0.0, 1.0, 0.0], TupleSum(ub, [us[0] * 0.0, 0.0]), us, true);
    var bottom := GenPane([0.0, 0.0, 0.0], [scale, 0.0, scale], [0.0, -1.0, 0.0], TupleSum(ub, [us[0] * 1.0, 0.0]), us, false);
    var r := front + back + right + left + top + bottom;
    r
  }

  /** Vertex i of the cube belongs to face i / 6 and carries that face's
      normal. */
  lemma CubeFaceNormals(uvBase: seq<real>, scale: real, uvScale: seq<real>, i: nat)
    requires |uvBase| == 2 && |uvScale| == 2 && i < 36
    ensures GenCube(uvBase, scale, uvScale)[i][5..] == FACE_NORMALS[i / 6]
  {
  }

  /** The axis each face's normal points along. */
  const FACE_AXIS: seq<nat> := [2, 2, 0, 0, 1, 1]

  /** Every vertex of face k lies on the cube side its normal points out of:
      at `scale` on that axis for the +x, +y and +z faces, at 0 for the others. */
  lemma CubeFacePlanes(uvBase: seq<real>, scale: real, uvScale: seq<real>, i: nat)
    requires |uvBase| == 2 && |uvScale| == 2 && i < 36
    ensures GenCube(uvBase, scale, uvScale)[i][FACE_AXIS[i / 6]] == if (i / 6) % 2 == 0 then scale else 0.0
  {
  }

  /** The first vertex of face k sits at the biased UV origin shifted by k's
      column: the base moves in by the bias and the width shrinks by twice it. */
  lemma CubeUvBias(uvBase: seq<real>, scale: real, uvScale: seq<real>, k: nat)
    requires |uvBase| == 2 && |uvScale| == 2 && k < 6
    ensures var v := GenCube(uvBase, scale, uvScale)[6 * k];
      && v[3] == uvBase[0] + BIAS + (uvScale[0] - 2.0 * BIAS) * FACE_UV_COLUMN[k]
      && v[4] == uvBase[1] + BIAS
  {
  }
}
