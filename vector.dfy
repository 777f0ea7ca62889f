/** The 3-vector helpers of the shared math library: `subtractVectors`, `dot`,
    `cross` and `normalize`, over exact reals. A vector is a sequence of three
    components, indexed 0..2 as the library indexes its arrays.

    `normalize` divides by the Euclidean length, which the library obtains with
    a square root. Here the length is a parameter: `IsLength(len, v)` says that
    `len` is the positive square root of `Dot(v, v)`, so a zero vector (for
    which the library would produce NaN) cannot be normalised. */
module Vector {

  import RealArith

  type Vec3 = v: seq<real> | |v| == 3 witness [0.0, 0.0, 0.0]

  const Zero: Vec3 := [0.0, 0.0, 0.0]

  /** `k` times `v`, componentwise. */
  function Scale(k: real, v: Vec3): Vec3 {
    [k * v[0], k * v[1], k * v[2]]
  }

  /** `subtractVectors(a, b)`. */
  function Sub(a: Vec3, b: Vec3): (r: Vec3)
    ensures forall i :: 0 <= i < 3 ==> r[i] == a[i] - b[i]
  {
    [a[0] - b[0], a[1] - b[1], a[2] - b[2]]
  }

  /** `dot(a, b)`. */
  function Dot(a: Vec3, b: Vec3): (r: real)
  {
    a[0] * b[0] + a[1] * b[1] + a[2] * b[2]
  }

  /** `cross(a, b)`. */
  function Cross(a: Vec3, b: Vec3): (c: Vec3)
  {
    [a[1] * b[2] - a[2] * b[1],
     a[2] * b[0] - a[0] * b[2],
     a[0] * b[1] - a[1] * b[0]]
  }

  /** `len` is the Euclidean length of `v`, and it is not zero. */
  predicate IsLength(len: real, v: Vec3) {
    len > 0.0 && len * len == Dot(v, v)
  }

  /** `normalize(v)`, given the length the library computes with a square root:
      the result has unit length and `v` is `len` times it. */
  function Normalize(v: Vec3, len: real): (u: Vec3)
    requires IsLength(len, v)
    ensures Dot(u, u) == 1.0
    ensures v == Scale(len, u)
  {
    var k := 1.0 / len;
    RealArith.InverseTimes(len);
    ScaledToUnit(v[0], v[1], v[2], len, k);
    RealArith.TimesInverseTimes(v[0], len);
    RealArith.TimesInverseTimes(v[1], len);
    RealArith.TimesInverseTimes(v[2], len);
    var u := [v[0] / len, v[1] / len, v[2] / len];
    var w := Scale(len, u);
    assert w[0] == v[0] && w[1] == v[1] && w[2] == v[2];
    u
  }

  /** Helper for `Normalize`, over plain reals. */
  lemma ScaledToUnit(v0: real, v1: real, v2: real, len: real, k: real)
    requires len * len == v0 * v0 + v1 * v1 + v2 * v2 && k * len == 1.0
    ensures (k * v0) * (k * v0) + (k * v1) * (k * v1) + (k * v2) * (k * v2) == 1.0
  {
    RealArith.MulBoth(len * len, v0 * v0 + v1 * v1 + v2 * v2, k * k);
    RealArith.MulBoth(k * len, 1.0, k * len);
  }

  lemma SubSelfIsZero(a: Vec3)
    ensures Sub(a, a) == Zero
  {
  }

  lemma DotSymmetric(a: Vec3, b: Vec3)
    ensures Dot(a, b) == Dot(b, a)
  {
  }

  /** A vector's squared length is never negative. */
  lemma DotSelfNonNegative(v: Vec3)
    ensures !(Dot(v, v) < 0.0)
  {
    RealArith.SumOfSquaresNonNegative(Dot(v, v), v[0], v[1], v[2]);
  }

  lemma DotSubDistributes(a: Vec3, b: Vec3, c: Vec3)
    ensures Dot(a, Sub(b, c)) == Dot(a, b) - Dot(a, c)
  {
  }

  lemma DotScale(k: real, a: Vec3, b: Vec3)
    ensures Dot(Scale(k, a), b) == k * Dot(a, b)
    ensures Dot(a, Scale(k, b)) == k * Dot(a, b)
  {
  }

  /** The cross product is perpendicular to both of its arguments. */
  lemma CrossOrthogonal(a: Vec3, b: Vec3)
    ensures Dot(Cross(a, b), a) == 0.0
    ensures Dot(Cross(a, b), b) == 0.0
  {
  }

  lemma CrossAnticommutative(a: Vec3, b: Vec3)
    ensures Cross(a, b) == Scale(-1.0, Cross(b, a))
  {
  }

  lemma CrossSelfIsZero(a: Vec3)
    ensures Cross(a, a) == Zero
  {
  }

  /** Lagrange's identity: |a × b|² = |a|²·|b|² − (a·b)². */
  lemma Lagrange(a: Vec3, b: Vec3)
    ensures Dot(Cross(a, b), Cross(a, b)) == Dot(a, a) * Dot(b, b) - Dot(a, b) * Dot(a, b)
  {
  }

  /** The scalar triple product is invariant under cyclic shifts. */
  lemma TripleProductCyclic(a: Vec3, b: Vec3, c: Vec3)
    ensures Dot(a, Cross(b, c)) == Dot(b, Cross(c, a))
  {
  }

  /** The length of a vector is unique, so the `len` parameter of `Normalize` is not a choice. */
  lemma {:induction false} LengthUnique(v: Vec3, l1: real, l2: real)
    requires IsLength(l1, v) && IsLength(l2, v)
    ensures l1 == l2
  {
    assert (l1 - l2) * (l1 + l2) == 0.0;
  }
}
