/** The 4×4 matrix helpers of the shared math library: `mat4Perspective` and
    `mat4Multiply`. A matrix is a flat sequence of 16 reals, as the library's
    `Float32Array(16)`; WebGL reads such an array column by column, so the entry
    in row `r` and column `c` is `m[c * 4 + r]`, and `Transform` applies a matrix
    to a homogeneous point in that reading. */
module Matrix {

  import RealArith

  type Mat4 = m: seq<real> | |m| == 16 witness seq(16, _ => 0.0)

  /** A homogeneous point (x, y, z, w). */
  type Vec4 = p: seq<real> | |p| == 4 witness [0.0, 0.0, 0.0, 0.0]

  const Identity: Mat4 := [1.0, 0.0, 0.0, 0.0,
                           0.0, 1.0, 0.0, 0.0,
                           0.0, 0.0, 1.0, 0.0,
                           0.0, 0.0, 0.0, 1.0]

  /** The sum that `mat4Multiply` accumulates into cell `i * 4 + j`, written out. */
  function RowTimesColumn(a: Mat4, b: Mat4, i: nat, j: nat): (s: real)
    requires i < 4 && j < 4
  {
    a[i * 4] * b[j] + a[i * 4 + 1] * b[4 + j] + a[i * 4 + 2] * b[8 + j] + a[i * 4 + 3] * b[12 + j]
  }

  /** The first `n` terms of that sum, as the innermost loop has added them. */
  function PartialSum(a: Mat4, b: Mat4, i: nat, j: nat, n: nat): (s: real)
    requires i < 4 && j < 4 && n <= 4
  {
    if n == 0 then 0.0 else PartialSum(a, b, i, j, n - 1) + a[i * 4 + n - 1] * b[(n - 1) * 4 + j]
  }

  /** The matrix `mat4Multiply(a, b)` returns: cell `i * 4 + j` is row `i` of
      `a` against column `j` of `b`, both in the flat layout. */
  function Product(a: Mat4, b: Mat4): (c: Mat4)
  {
    seq(16, n requires 0 <= n < 16 => RowTimesColumn(a, b, n / 4, n % 4))
  }

  /** `m` applied to the point `p`, reading `m` column by column as WebGL does. */
  function Transform(m: Mat4, p: Vec4): (q: Vec4)
  {
    seq(4, r requires 0 <= r < 4 => m[r] * p[0] + m[4 + r] * p[1] + m[8 + r] * p[2] + m[12 + r] * p[3])
  }

  /** `mat4Multiply(a, b)`: a fresh zeroed array filled cell by cell, each cell
      by a running sum over `k`. The arguments are only read. */
  method Multiply(a: array<real>, b: array<real>) returns (result: array<real>)
    requires a.Length == 16 && b.Length == 16
    ensures fresh(result) && result.Length == 16
    ensures result[..] == Product(a[..], b[..])
  {
    result := new real[16](_ => 0.0);
    for i := 0 to 4
      invariant forall n :: 0 <= n < i * 4 ==> result[n] == Product(a[..], b[..])[n]
      invariant forall n :: i * 4 <= n < 16 ==> result[n] == 0.0
    {
      for j := 0 to 4
        invariant forall n :: 0 <= n < i * 4 + j ==> result[n] == Product(a[..], b[..])[n]
        invariant forall n :: i * 4 + j <= n < 16 ==> result[n] == 0.0
      {
        var sum := 0.0;
        for k := 0 to 4
          invariant sum == PartialSum(a[..], b[..], i, j, k)
        {
          sum := sum + a[i * 4 + k] * b[k * 4 + j];
        }
        PartialSumComplete(a[..], b[..], i, j);
        result[i * 4 + j] := sum;
      }
    }
  }

  /** After four steps the running sum is the whole row-times-column sum. */
  lemma PartialSumComplete(a: Mat4, b: Mat4, i: nat, j: nat)
    requires i < 4 && j < 4
    ensures PartialSum(a, b, i, j, 4) == RowTimesColumn(a, b, i, j)
  {
    assert PartialSum(a, b, i, j, 1) == a[i * 4] * b[j];
    assert PartialSum(a, b, i, j, 2) == a[i * 4] * b[j] + a[i * 4 + 1] * b[4 + j];
  }

  /** Multiplying by the identity on the left changes nothing. */
  lemma ProductIdentityLeft(m: Mat4)
    ensures Product(Identity, m) == m
  {
    var p := Product(Identity, m);
    forall n | 0 <= n < 16
      ensures p[n] == m[n]
    {
      var i, j := n / 4, n % 4;
      assert n == i * 4 + j;
      if i == 0 {
      } else if i == 1 {
      } else if i == 2 {
      } else {
      }
    }
  }

  /** Multiplying by the identity on the right changes nothing. */
  lemma ProductIdentityRight(m: Mat4)
    ensures Product(m, Identity) == m
  {
    var p := Product(m, Identity);
    forall n | 0 <= n < 16
      ensures p[n] == m[n]
    {
      var i, j := n / 4, n % 4;
      assert n == i * 4 + j;
      if j == 0 {
      } else if j == 1 {
      } else if j == 2 {
      } else {
      }
    }
  }

  /** Read column by column, `Product(a, b)` applies `a` first and then `b`. */
  lemma TransformProduct(a: Mat4, b: Mat4, p: Vec4)
    ensures Transform(Product(a, b), p) == Transform(b, Transform(a, p))
  {
    var l, r := Transform(Product(a, b), p), Transform(b, Transform(a, p));
    forall k | 0 <= k < 4
      ensures l[k] == r[k]
    {
      TransformProductEntry(a, b, p, k);
    }
  }

  lemma TransformProductEntry(a: Mat4, b: Mat4, p: Vec4, k: nat)
    requires k < 4
    ensures Transform(Product(a, b), p)[k] == Transform(b, Transform(a, p))[k]
  {
  }

  /** `mat4Perspective`, with `f` the cotangent of half the field of view
      (the library computes it with `Math.tan`). */
  function Perspective(f: real, aspect: real, near: real, far: real): (m: Mat4)
    requires aspect != 0.0 && near != far
  {
    var rangeInv := 1.0 / (near - far);
    [f / aspect, 0.0, 0.0, 0.0,
     0.0, f, 0.0, 0.0,
     0.0, 0.0, (near + far) * rangeInv, -1.0,
     0.0, 0.0, near * far * rangeInv * 2.0, 0.0]
  }

  /** What each entry of `Perspective` is: `f` scaled by the aspect ratio in x,
      `f` in y, the depth pair fixed by `near` and `far`, and `-1` copying `-z`
      into `w`; every other entry is zero. */
  lemma PerspectiveEntries(f: real, aspect: real, near: real, far: real)
    requires aspect != 0.0 && near != far
    ensures var m := Perspective(f, aspect, near, far);
      && m[0] * aspect == f && m[5] == f
      && m[10] * (near - far) == near + far
      && m[14] * (near - far) == 2.0 * near * far
      && m[11] == -1.0
      && forall n :: 0 <= n < 16 && n !in {0, 5, 10, 11, 14} ==> m[n] == 0.0
  {
    var m := Perspective(f, aspect, near, far);
    var r := 1.0 / (near - far);
    RealArith.InverseTimes(near - far);
    RealArith.MulBoth(r * (near - far), 1.0, near + far);
    RealArith.MulBoth(r * (near - far), 1.0, near * far * 2.0);
  }

  /** With the planes in front of the camera, both depth terms are negative. */
  lemma PerspectiveDepthTermsNegative(f: real, aspect: real, near: real, far: real)
    requires aspect != 0.0 && 0.0 < near < far
    ensures var m := Perspective(f, aspect, near, far);
      m[10] < 0.0 && m[14] < 0.0
  {
    var r := 1.0 / (near - far);
    RealArith.InverseOfNegative(near - far);
    RealArith.MulPositive(near + far, -r);
    RealArith.MulPositive(near * far * 2.0, -r);
    RealArith.MulPositive(near, far);
  }

  /** The worked case near = 1, far = 100. */
  lemma PerspectiveNearOneFarHundred(f: real, aspect: real)
    requires aspect != 0.0
    ensures var m := Perspective(f, aspect, 1.0, 100.0);
      m[10] == -101.0 / 99.0 && m[14] == -200.0 / 99.0
  {
  }

  /** A point on the near plane lands at normalised depth -1: its clip z is
      minus its clip w. x and y are scaled by `f / aspect` and `f`. */
  lemma PerspectiveNearPlane(f: real, aspect: real, near: real, far: real, x: real, y: real)
    requires aspect != 0.0 && near != far
    ensures Transform(Perspective(f, aspect, near, far), [x, y, -near, 1.0])
         == [f / aspect * x, f * y, -near, near]
  {
    var r := 1.0 / (near - far);
    RealArith.InverseTimes(near - far);
    DepthAtPlanes(near, far, r);
    var q := Transform(Perspective(f, aspect, near, far), [x, y, -near, 1.0]);
    assert q[0] == f / aspect * x && q[1] == f * y && q[2] == -near && q[3] == near;
  }

  /** A point on the far plane lands at normalised depth +1: its clip z equals
      its clip w. */
  lemma PerspectiveFarPlane(f: real, aspect: real, near: real, far: real, x: real, y: real)
    requires aspect != 0.0 && near != far
    ensures Transform(Perspective(f, aspect, near, far), [x, y, -far, 1.0])
         == [f / aspect * x, f * y, far, far]
  {
    var r := 1.0 / (near - far);
    RealArith.InverseTimes(near - far);
    DepthAtPlanes(near, far, r);
    var q := Transform(Perspective(f, aspect, near, far), [x, y, -far, 1.0]);
    assert q[0] == f / aspect * x && q[1] == f * y && q[2] == far && q[3] == far;
  }

  /** The depth row of `Perspective` at z = -near and at z = -far, over plain reals. */
  lemma DepthAtPlanes(near: real, far: real, r: real)
    requires r * (near - far) == 1.0
    ensures (near + far) * r * -near + near * far * r * 2.0 == -near
    ensures (near + far) * r * -far + near * far * r * 2.0 == far
  {
    DepthFactors(near, far, r);
    RealArith.MulBoth(r * (near - far), 1.0, -near);
    RealArith.MulBoth(r * (near - far), 1.0, far);
  }

  lemma DepthFactors(near: real, far: real, r: real)
    ensures (near + far) * r * -near + near * far * r * 2.0 == -near * (r * (near - far))
    ensures (near + far) * r * -far + near * far * r * 2.0 == far * (r * (near - far))
  {
  }
}
