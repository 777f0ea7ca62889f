/** The cinema scene: the look-at view matrix built by `createViewMatrix` and
    the constant vertex, colour and index tables that `initBuffers` uploads for
    the box (a screen 8 wide, 6 high and 2 deep, centred on the origin).

    The three `normalize` calls need the lengths of the vectors they divide;
    the caller passes the first two (`lenZ` for camera minus target, `lenX` for
    up × z). The third vector, z × x, always has length 1, so it needs none. */
module CinemaScene {

  import RealArith
  import opened Vector
  import Matrix

  /** The lengths handed in are the true lengths of the vectors that
      `createViewMatrix` normalises; both are non-zero, so the camera is not
      at the target and `up` is not parallel to the viewing direction. */
  predicate ValidLengths(cam: Vec3, target: Vec3, up: Vec3, lenZ: real, lenX: real)
  {
    IsLength(lenZ, Sub(cam, target)) && IsLength(lenX, Cross(up, ZAxis(cam, target, lenZ)))
  }

  /** `zAxis`: the unit vector from the target towards the camera. */
  function ZAxis(cam: Vec3, target: Vec3, lenZ: real): (z: Vec3)
    requires IsLength(lenZ, Sub(cam, target))
    ensures Dot(z, z) == 1.0
    ensures Sub(cam, target) == Scale(lenZ, z)
  {
    Normalize(Sub(cam, target), lenZ)
  }

  /** `xAxis`: the unit vector along up × z, perpendicular to both. */
  function XAxis(cam: Vec3, target: Vec3, up: Vec3, lenZ: real, lenX: real): (x: Vec3)
    requires ValidLengths(cam, target, up, lenZ, lenX)
    ensures Dot(x, x) == 1.0
    ensures Dot(x, ZAxis(cam, target, lenZ)) == 0.0
    ensures Dot(x, up) == 0.0
    ensures Cross(up, ZAxis(cam, target, lenZ)) == Scale(lenX, x)
  {
    var z := ZAxis(cam, target, lenZ);
    var c := Cross(up, z);
    var x := Normalize(c, lenX);
    CrossOrthogonal(up, z);
    DotScale(lenX, x, z);
    DotScale(lenX, x, up);
    DotSymmetric(c, z);
    DotSymmetric(c, up);
    RealArith.ProductZero(Dot(x, z), lenX);
    RealArith.ProductZero(Dot(x, up), lenX);
    x
  }

  /** `yAxis`: z × x, normalised; it is already a unit vector perpendicular to
      both, so normalising leaves it as it is. */
  function YAxis(cam: Vec3, target: Vec3, up: Vec3, lenZ: real, lenX: real): (y: Vec3)
    requires ValidLengths(cam, target, up, lenZ, lenX)
    ensures Dot(y, y) == 1.0
    ensures Dot(y, ZAxis(cam, target, lenZ)) == 0.0
    ensures Dot(y, XAxis(cam, target, up, lenZ, lenX)) == 0.0
    ensures y == Cross(ZAxis(cam, target, lenZ), XAxis(cam, target, up, lenZ, lenX))
  {
    var z := ZAxis(cam, target, lenZ);
    var x := XAxis(cam, target, up, lenZ, lenX);
    var c := Cross(z, x);
    Lagrange(z, x);
    UnitCrossLength(Dot(c, c), Dot(z, z), Dot(x, x), Dot(z, x));
    var y := Normalize(c, 1.0);
    assert y[0] == c[0] && y[1] == c[1] && y[2] == c[2];
    CrossOrthogonal(z, x);
    DotSymmetric(c, z);
    DotSymmetric(c, x);
    y
  }

  /** Lagrange's identity for two orthogonal unit vectors, over plain reals. */
  lemma UnitCrossLength(cc: real, zz: real, xx: real, zx: real)
    requires cc == zz * xx - zx * zx
    requires zz == 1.0 && xx == 1.0 && zx == 0.0
    ensures cc == 1.0
  {
  }

  /** `createViewMatrix(cam, target, up)`: the three axes, then the array
      `FrameMatrix` lays out from them. */
  function ViewMatrix(cam: Vec3, target: Vec3, up: Vec3, lenZ: real, lenX: real): (m: Matrix.Mat4)
    requires ValidLengths(cam, target, up, lenZ, lenX)
  {
    var z := ZAxis(cam, target, lenZ);
    var x := XAxis(cam, target, up, lenZ, lenX);
    var y := YAxis(cam, target, up, lenZ, lenX);
    FrameMatrix(x, y, z, cam)
  }

  /** The array `createViewMatrix` returns for the axes `x`, `y`, `z`: the
      axes in the first three columns of the 3×3 block (so they are its rows
      when read column by column), and the camera position, expressed in
      those axes and negated, in the last column. */
  function FrameMatrix(x: Vec3, y: Vec3, z: Vec3, cam: Vec3): (m: Matrix.Mat4)
  {
    [x[0], y[0], z[0], 0.0,
     x[1], y[1], z[1], 0.0,
     x[2], y[2], z[2], 0.0,
     -Dot(x, cam), -Dot(y, cam), -Dot(z, cam), 1.0]
  }

  /** The point `p` with w = 1. */
  function Homogeneous(p: Vec3): (h: Matrix.Vec4)
  {
    [p[0], p[1], p[2], 1.0]
  }

  /** The view matrix's layout: the last row (entries 3, 7, 11, 15) is
      (0, 0, 0, 1), the rows of the 3×3 block are the x, y and z axes, and the
      translation column holds minus each axis dotted with the camera. */
  lemma ViewMatrixLayout(cam: Vec3, target: Vec3, up: Vec3, lenZ: real, lenX: real)
    requires ValidLengths(cam, target, up, lenZ, lenX)
    ensures var m := ViewMatrix(cam, target, up, lenZ, lenX);
      var x, y, z := XAxis(cam, target, up, lenZ, lenX), YAxis(cam, target, up, lenZ, lenX), ZAxis(cam, target, lenZ);
      && m[3] == 0.0 && m[7] == 0.0 && m[11] == 0.0 && m[15] == 1.0
      && [m[0], m[4], m[8]] == x && [m[1], m[5], m[9]] == y && [m[2], m[6], m[10]] == z
      && m[12] == -Dot(x, cam) && m[13] == -Dot(y, cam) && m[14] == -Dot(z, cam)
  {
  }

  /** The view matrix takes a point to its offset from the camera measured
      along the three axes: this is what makes it a change of frame. */
  lemma {:induction false} ViewMatrixTransform(cam: Vec3, target: Vec3, up: Vec3, lenZ: real, lenX: real, p: Vec3)
    requires ValidLengths(cam, target, up, lenZ, lenX)
    ensures var d := Sub(p, cam);
      Matrix.Transform(ViewMatrix(cam, target, up, lenZ, lenX), Homogeneous(p))
        == [Dot(XAxis(cam, target, up, lenZ, lenX), d),
            Dot(YAxis(cam, target, up, lenZ, lenX), d),
            Dot(ZAxis(cam, target, lenZ), d), 1.0]
  {
    var x, y, z := XAxis(cam, target, up, lenZ, lenX), YAxis(cam, target, up, lenZ, lenX), ZAxis(cam, target, lenZ);
    FrameTransform(x, y, z, cam, p);
  }

  /** `ViewMatrixTransform` for arbitrary axes, over the layout alone. */
  lemma {:induction false} FrameTransform(x: Vec3, y: Vec3, z: Vec3, cam: Vec3, p: Vec3)
    ensures var d := Sub(p, cam);
      Matrix.Transform(FrameMatrix(x, y, z, cam), Homogeneous(p)) == [Dot(x, d), Dot(y, d), Dot(z, d), 1.0]
  {
    FrameX(x, y, z, cam, p);
    FrameY(x, y, z, cam, p);
    FrameZ(x, y, z, cam, p);
    assert Matrix.Transform(FrameMatrix(x, y, z, cam), Homogeneous(p))[3] == 1.0;
  }

  /** The first coordinate of `FrameTransform`. */
  lemma FrameX(x: Vec3, y: Vec3, z: Vec3, cam: Vec3, p: Vec3)
    ensures Matrix.Transform(FrameMatrix(x, y, z, cam), Homogeneous(p))[0] == Dot(x, Sub(p, cam))
  {
    var q := Matrix.Transform(FrameMatrix(x, y, z, cam), Homogeneous(p));
    assert q[0] == x[0] * p[0] + x[1] * p[1] + x[2] * p[2] + -Dot(x, cam) * 1.0;
    FrameRow(x, cam, p);
  }

  /** The second coordinate of `FrameTransform`. */
  lemma FrameY(x: Vec3, y: Vec3, z: Vec3, cam: Vec3, p: Vec3)
    ensures Matrix.Transform(FrameMatrix(x, y, z, cam), Homogeneous(p))[1] == Dot(y, Sub(p, cam))
  {
    var q := Matrix.Transform(FrameMatrix(x, y, z, cam), Homogeneous(p));
    assert q[1] == y[0] * p[0] + y[1] * p[1] + y[2] * p[2] + -Dot(y, cam) * 1.0;
    FrameRow(y, cam, p);
  }

  /** The third coordinate of `FrameTransform`. */
  lemma FrameZ(x: Vec3, y: Vec3, z: Vec3, cam: Vec3, p: Vec3)
    ensures Matrix.Transform(FrameMatrix(x, y, z, cam), Homogeneous(p))[2] == Dot(z, Sub(p, cam))
  {
    var q := Matrix.Transform(FrameMatrix(x, y, z, cam), Homogeneous(p));
    assert q[2] == z[0] * p[0] + z[1] * p[1] + z[2] * p[2] + -Dot(z, cam) * 1.0;
    FrameRow(z, cam, p);
  }

  /** One row of `FrameMatrix` applied to a point with w = 1. */
  lemma FrameRow(a: Vec3, cam: Vec3, p: Vec3)
    ensures a[0] * p[0] + a[1] * p[1] + a[2] * p[2] + -Dot(a, cam) * 1.0 == Dot(a, Sub(p, cam))
  {
    DotSubDistributes(a, p, cam);
  }

  /** The camera lands at the origin of view space. */
  lemma {:induction false} ViewMatrixCameraToOrigin(cam: Vec3, target: Vec3, up: Vec3, lenZ: real, lenX: real)
    requires ValidLengths(cam, target, up, lenZ, lenX)
    ensures Matrix.Transform(ViewMatrix(cam, target, up, lenZ, lenX), Homogeneous(cam)) == [0.0, 0.0, 0.0, 1.0]
  {
    ViewMatrixTransform(cam, target, up, lenZ, lenX, cam);
    SubSelfIsZero(cam);
  }

  /** The target lands straight ahead of the camera on the negative z axis, at
      its distance from the camera. */
  lemma {:induction false} ViewMatrixTargetAhead(cam: Vec3, target: Vec3, up: Vec3, lenZ: real, lenX: real)
    requires ValidLengths(cam, target, up, lenZ, lenX)
    ensures Matrix.Transform(ViewMatrix(cam, target, up, lenZ, lenX), Homogeneous(target)) == [0.0, 0.0, -lenZ, 1.0]
  {
    var x, y, z := XAxis(cam, target, up, lenZ, lenX), YAxis(cam, target, up, lenZ, lenX), ZAxis(cam, target, lenZ);
    ViewMatrixTransform(cam, target, up, lenZ, lenX, target);
    var d, e := Sub(target, cam), Sub(cam, target);
    assert d[0] == -e[0] && d[1] == -e[1] && d[2] == -e[2];
    assert d == Scale(-lenZ, z);
    DotScale(-lenZ, x, z);
    DotScale(-lenZ, y, z);
    DotScale(-lenZ, z, z);
    DotSymmetric(x, z);
    DotSymmetric(y, z);
    RealArith.MulBoth(Dot(z, z), 1.0, -lenZ);
  }

  /** `up` seen from the camera points into the upper half of the view's
      y–z plane: no sideways part, and a positive upward part (it equals the
      length of up × z). */
  lemma {:induction false} ViewMatrixKeepsUpUpward(cam: Vec3, target: Vec3, up: Vec3, lenZ: real, lenX: real)
    requires ValidLengths(cam, target, up, lenZ, lenX)
    ensures Dot(XAxis(cam, target, up, lenZ, lenX), up) == 0.0
    ensures Dot(YAxis(cam, target, up, lenZ, lenX), up) == lenX
    ensures Dot(YAxis(cam, target, up, lenZ, lenX), up) > 0.0
  {
    var x, y, z := XAxis(cam, target, up, lenZ, lenX), YAxis(cam, target, up, lenZ, lenX), ZAxis(cam, target, lenZ);
    DotSymmetric(y, up);
    TripleProductCyclic(up, z, x);
    TripleProductCyclic(z, x, up);
    DotScale(lenX, x, x);
    RealArith.MulBoth(Dot(x, x), 1.0, lenX);
  }

  // ----- The box's vertex, colour and index tables -----

  /** `positions`: eight vertices of three coordinates each; the front face
      (z = 1) first, then the back face (z = -1). */
  const Positions: seq<real> := [
    -4.0, -3.0,  1.0,
     4.0, -3.0,  1.0,
     4.0,  3.0,  1.0,
    -4.0,  3.0,  1.0,
    -4.0, -3.0, -1.0,
    -4.0,  3.0, -1.0,
     4.0,  3.0, -1.0,
     4.0, -3.0, -1.0
  ]

  /** `colors`: one RGBA colour per vertex, red for the front face and blue for
      the back. */
  const Colors: seq<real> := [
    1.0, 0.0, 0.0, 1.0,
    1.0, 0.0, 0.0, 1.0,
    1.0, 0.0, 0.0, 1.0,
    1.0, 0.0, 0.0, 1.0,
    0.0, 0.0, 1.0, 1.0,
    0.0, 0.0, 1.0, 1.0,
    0.0, 0.0, 1.0, 1.0,
    0.0, 0.0, 1.0, 1.0
  ]

  /** The number of vertices in the position and colour tables. */
  const VertexCount: nat := 8

  /** A vertex number: the position of a vertex in the position and colour
      tables. */
  type VertexIndex = i: nat | i < VertexCount

  /** `indices`: twelve triangles, two per face, in the order front, back,
      bottom, top, left, right. Every entry names one of the eight vertices. */
  const Indices: seq<VertexIndex> := [
    0, 1, 2,  0, 2, 3,
    4, 5, 6,  4, 6, 7,
    0, 4, 7,  0, 7, 1,
    3, 2, 6,  3, 6, 5,
    0, 3, 5,  0, 5, 4,
    1, 7, 6,  1, 6, 2
  ]

  /** Vertex `i` of the position table. */
  function Vertex(i: VertexIndex): (v: Vec3)
  {
    [Positions[3 * i], Positions[3 * i + 1], Positions[3 * i + 2]]
  }

  /** The colour of vertex `i`, as (r, g, b, a). */
  function VertexColor(i: VertexIndex): (c: seq<real>)
  {
    [Colors[4 * i], Colors[4 * i + 1], Colors[4 * i + 2], Colors[4 * i + 3]]
  }

  /** The tables have the sizes the draw call relies on: three coordinates
      and four colour channels per vertex, three indices per triangle. */
  lemma TablesConsistent()
    ensures |Positions| == 3 * VertexCount && |Colors| == 4 * VertexCount
    ensures |Indices| == 36
  {
  }

  /** Every vertex is a corner of the box: x is ±4, y is ±3, and z is 1 for
      the first four and -1 for the last four. */
  lemma VerticesAreBoxCorners(i: VertexIndex)
    ensures var v := Vertex(i);
      && (v[0] == 4.0 || v[0] == -4.0)
      && (v[1] == 3.0 || v[1] == -3.0)
      && v[2] == (if i < 4 then 1.0 else -1.0)
  {
    if i == 0 {} else if i == 1 {} else if i == 2 {} else if i == 3 {}
    else if i == 4 {} else if i == 5 {} else if i == 6 {} else {}
  }

  /** The front face's vertices are opaque red and the back face's opaque blue. */
  lemma VertexColors(i: VertexIndex)
    ensures VertexColor(i) == if i < 4 then [1.0, 0.0, 0.0, 1.0] else [0.0, 0.0, 1.0, 1.0]
  {
    var red, blue := [1.0, 0.0, 0.0, 1.0], [0.0, 0.0, 1.0, 1.0];
    if i == 0 { assert VertexColor(0) == red; } else if i == 1 { assert VertexColor(1) == red; }
    else if i == 2 { assert VertexColor(2) == red; } else if i == 3 { assert VertexColor(3) == red; }
    else if i == 4 { assert VertexColor(4) == blue; } else if i == 5 { assert VertexColor(5) == blue; }
    else if i == 6 { assert VertexColor(6) == blue; } else { assert VertexColor(7) == blue; }
  }

  /** The first two triangles (the front face) use only the first four
      vertices, and the next two (the back face) only the last four. */
  lemma FrontAndBackTriangles()
    ensures forall n :: 0 <= n < 6 ==> Indices[n] < 4
    ensures forall n :: 6 <= n < 12 ==> Indices[n] >= 4
  {
  }

  /** So the front face is drawn in red and the back face in blue, as the
      colour table's layout intends. */
  lemma {:induction false} FrontRedBackBlue(n: nat)
    requires n < 12
    ensures VertexColor(Indices[n]) == if n < 6 then [1.0, 0.0, 0.0, 1.0] else [0.0, 0.0, 1.0, 1.0]
  {
    FrontAndBackTriangles();
    VertexColors(Indices[n]);
  }

  /** The side of the box that the six indices from `6 * f` draw, as the
      coordinate (0 for x, 1 for y, 2 for z) that is constant on it and that
      constant: front, back, bottom, top, left, right. */
  function FacePlane(f: nat): (plane: (nat, real))
    requires f < 6
    ensures plane.0 < 3
  {
    [(2, 1.0), (2, -1.0), (1, -3.0), (1, 3.0), (0, -4.0), (0, 4.0)][f]
  }

  /** Every triangle lies on the side of the box its pair is meant to draw:
      each corner of index entry `n` has the face's constant coordinate. */
  lemma TrianglesLieOnTheirFaces(n: nat)
    requires n < 36
    ensures Vertex(Indices[n])[FacePlane(n / 6).0] == FacePlane(n / 6).1
  {
    var i := Indices[n];
    if n < 6 {
      assert i in {0, 1, 2, 3};
    } else if n < 12 {
      assert i in {4, 5, 6, 7};
    } else if n < 18 {
      assert i in {0, 1, 4, 7};
    } else if n < 24 {
      assert i in {2, 3, 5, 6};
    } else if n < 30 {
      assert i in {0, 3, 4, 5};
    } else {
      assert i in {1, 2, 6, 7};
    }
    VerticesAreBoxCorners(i);
  }
}
