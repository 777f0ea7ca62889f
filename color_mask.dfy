/** The colour-removal shader pair: a vertex shader that passes a full-screen
    quad through and derives texture coordinates from clip coordinates, and a
    fragment shader that makes every pixel whose colour lies within a
    tolerance of a target colour fully transparent and leaves the others as
    they are.

    Colours are exact reals in 0..1 per channel, as the shader sees them after
    sampling. GLSL's `length` is a square root; the fragment shader takes the
    distance it computes as a parameter, tied to the colours by `IsDistance`,
    and `Masked` restates the test without a root by comparing squares. */
module ColorMask {

  import RealArith
  import Matrix

  /** A sampled texel, `vec4 color`. */
  datatype Rgba = Rgba(r: real, g: real, b: real, a: real)

  /** The target colour uniform, `vec3 uTargetColor`. */
  datatype Rgb = Rgb(r: real, g: real, b: real)

  /** A two-component vector: a clip-space position or a texture coordinate. */
  datatype Vec2 = Vec2(x: real, y: real)

  /** `vec4(0.0, 0.0, 0.0, 0.0)`: black with zero alpha. */
  const Transparent: Rgba := Rgba(0.0, 0.0, 0.0, 0.0)

  /** The squared Euclidean distance between the texel's colour channels and
      the target; alpha takes no part. */
  function SquaredDistance(c: Rgba, t: Rgb): (sq: real)
    ensures !(sq < 0.0)
  {
    var dr, dg, db := c.r - t.r, c.g - t.g, c.b - t.b;
    RealArith.SumOfSquaresNonNegative(dr * dr + dg * dg + db * db, dr, dg, db);
    dr * dr + dg * dg + db * db
  }

  /** `d` is `length(color.rgb - uTargetColor)`: the non-negative root of the
      squared distance. */
  predicate IsDistance(d: real, c: Rgba, t: Rgb)
  {
    !(d < 0.0) && d * d == SquaredDistance(c, t)
  }

  /** The masking test stated without a square root: the threshold
      `tolerance / 255` is positive and the squared distance is below its
      square. */
  predicate Masked(c: Rgba, t: Rgb, tolerance: real)
  {
    var threshold := tolerance / 255.0;
    threshold > 0.0 && SquaredDistance(c, t) < threshold * threshold
  }

  /** What the fragment shader writes for a texel, by the root-free test. */
  function Mask(c: Rgba, t: Rgb, tolerance: real): (out: Rgba)
    ensures out == Transparent || out == c
  {
    if Masked(c, t, tolerance) then Transparent else c
  }

  /** The fragment shader's `main`: the distance from the target colour is
      compared with `uTolerance / 255.0`; below it the pixel becomes
      transparent black, otherwise the sampled colour is written unchanged. */
  function Fragment(color: Rgba, target: Rgb, tolerance: real, distance: real): (out: Rgba)
    requires IsDistance(distance, color, target)
    ensures out == Mask(color, target, tolerance)
  {
    MaskedIffCloser(color, target, tolerance, distance);
    if distance < tolerance / 255.0 then Transparent else color
  }

  /** Comparing the distance with the threshold is the same as comparing
      their squares, and a threshold of zero or less masks nothing. */
  lemma {:induction false} MaskedIffCloser(c: Rgba, t: Rgb, tolerance: real, d: real)
    requires IsDistance(d, c, t)
    ensures d < tolerance / 255.0 <==> Masked(c, t, tolerance)
  {
    var threshold := tolerance / 255.0;
    if threshold > 0.0 {
      if d < threshold {
        CloserSquares(d, threshold);
      } else {
        NotCloserSquares(d, threshold);
      }
    }
  }

  /** 0 <= d < t gives d² < t². */
  lemma CloserSquares(d: real, t: real)
    requires !(d < 0.0) && d < t
    ensures d * d < t * t
  {
    RealArith.MulPositive(t - d, t + d);
  }

  /** 0 < t <= d gives d² >= t². */
  lemma NotCloserSquares(d: real, t: real)
    requires 0.0 < t && !(d < t)
    ensures !(d * d < t * t)
  {
    if t < d {
      CloserSquares(t, d);
    }
  }

  /** A tolerance of zero or less removes nothing: the comparison is strict
      and a distance is never negative. */
  lemma NonPositiveToleranceKeepsEverything(c: Rgba, t: Rgb, tolerance: real)
    requires !(tolerance > 0.0)
    ensures Mask(c, t, tolerance) == c
  {
  }

  /** A texel with exactly the target colour is removed whenever the tolerance
      is positive, whatever its alpha. */
  lemma {:induction false} ExactMatchIsRemoved(c: Rgba, t: Rgb, tolerance: real)
    requires c.r == t.r && c.g == t.g && c.b == t.b
    requires tolerance > 0.0
    ensures Mask(c, t, tolerance) == Transparent
  {
    RealArith.SquareOfZero(c.r - t.r);
    RealArith.SquareOfZero(c.g - t.g);
    RealArith.SquareOfZero(c.b - t.b);
    assert IsDistance(0.0, c, t);
    MaskedIffCloser(c, t, tolerance, 0.0);
  }

  /** Raising the tolerance only ever removes more. */
  lemma {:induction false} MaskedMonotone(c: Rgba, t: Rgb, low: real, high: real)
    requires low <= high
    requires Masked(c, t, low)
    ensures Masked(c, t, high)
  {
    var tl, th := low / 255.0, high / 255.0;
    if tl < th {
      RealArith.MulPositive(th - tl, th + tl);
    }
  }

  /** Alpha plays no part in the decision. */
  lemma MaskedIgnoresAlpha(c: Rgba, t: Rgb, tolerance: real, alpha: real)
    ensures Masked(c.(a := alpha), t, tolerance) == Masked(c, t, tolerance)
  {
  }

  /** Running the mask on its own output changes nothing more. */
  lemma {:induction false} MaskIdempotent(c: Rgba, t: Rgb, tolerance: real)
    ensures Mask(Mask(c, t, tolerance), t, tolerance) == Mask(c, t, tolerance)
  {
  }

  /** A pure red texel against a red target at tolerance 10 is removed. */
  lemma RedOnRedIsRemoved(alpha: real)
    ensures Mask(Rgba(1.0, 0.0, 0.0, alpha), Rgb(1.0, 0.0, 0.0), 10.0) == Transparent
  {
    ExactMatchIsRemoved(Rgba(1.0, 0.0, 0.0, alpha), Rgb(1.0, 0.0, 0.0), 10.0);
  }

  /** A pure red texel against a blue target at tolerance 10 is kept: its
      distance is √2, far above 10/255. */
  lemma RedOnBlueIsKept(alpha: real)
    ensures Mask(Rgba(1.0, 0.0, 0.0, alpha), Rgb(0.0, 0.0, 1.0), 10.0) == Rgba(1.0, 0.0, 0.0, alpha)
  {
    assert SquaredDistance(Rgba(1.0, 0.0, 0.0, alpha), Rgb(0.0, 0.0, 1.0)) == 2.0;
  }

  // ----- Vertex shader -----

  /** The vertex shader's outputs: the `texCoord` varying and `gl_Position`. */
  datatype VertexOut = VertexOut(texCoord: Vec2, glPosition: Matrix.Vec4)

  /** `texCoord` from a clip-space position: x from [-1, 1] onto [0, 1], and y
      onto [0, 1] upside down, because image rows run from the top. */
  function TexCoord(p: Vec2): (tc: Vec2)
    ensures PositionOf(tc) == p
  {
    Vec2(p.x * 0.5 + 0.5, 0.5 - p.y * 0.5)
  }

  /** The clip-space position whose texture coordinate is `tc`. */
  function PositionOf(tc: Vec2): (p: Vec2)
  {
    Vec2(2.0 * tc.x - 1.0, 1.0 - 2.0 * tc.y)
  }

  /** The vertex shader's `main`: the position is passed through with z = 0
      and w = 1, and the texture coordinate is the one that position names. */
  function VertexShader(position: Vec2): (out: VertexOut)
    ensures out.glPosition == [position.x, position.y, 0.0, 1.0]
    ensures PositionOf(out.texCoord) == position
  {
    VertexOut(TexCoord(position), [position.x, position.y, 0.0, 1.0])
  }

  /** `PositionOf` undoes `TexCoord` and the other way round, so every texel
      of the image has exactly one position on screen. */
  lemma TexCoordRoundTrip(tc: Vec2)
    ensures TexCoord(PositionOf(tc)) == tc
  {
  }

  /** A position is inside the clip square exactly when its texture
      coordinate is inside the unit square. */
  lemma TexCoordInUnitSquare(p: Vec2)
    ensures (-1.0 <= p.x <= 1.0 && -1.0 <= p.y <= 1.0)
        <==> (0.0 <= TexCoord(p).x <= 1.0 && 0.0 <= TexCoord(p).y <= 1.0)
  {
  }

  /** The texture coordinate is affine in the position, so interpolating the
      varying along an edge gives the same value as computing it at the point
      reached. */
  lemma TexCoordAffine(p: Vec2, q: Vec2, s: real)
    ensures TexCoord(Vec2(s * p.x + (1.0 - s) * q.x, s * p.y + (1.0 - s) * q.y))
         == Vec2(s * TexCoord(p).x + (1.0 - s) * TexCoord(q).x,
                 s * TexCoord(p).y + (1.0 - s) * TexCoord(q).y)
  {
  }

  /** The full-screen rectangle that `setupRectangleBuffers` in the
      picked-colour module uploads: four corners of the clip square as (x, y)
      pairs, in triangle-strip order. It is paired here with the colour-removal
      vertex shader, which takes the same `position` attribute. */
  const Quad: seq<real> := [-1.0, -1.0, 1.0, -1.0, -1.0, 1.0, 1.0, 1.0]

  /** Corner `i` of the quad. */
  function QuadCorner(i: nat): (p: Vec2)
    requires i < 4
  {
    Vec2(Quad[2 * i], Quad[2 * i + 1])
  }

  /** The quad's corners carry the image's corners: bottom-left, bottom-right,
      top-left and top-right of the screen get texture coordinates (0, 1),
      (1, 1), (0, 0) and (1, 0), so the whole image fills the quad upright. */
  lemma QuadShowsWholeImage()
    ensures forall i :: 0 <= i < 4 ==>
      VertexShader(QuadCorner(i)).texCoord == [Vec2(0.0, 1.0), Vec2(1.0, 1.0), Vec2(0.0, 0.0), Vec2(1.0, 0.0)][i]
  {
  }
}
