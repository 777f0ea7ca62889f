# WebGL playground: colour removal and cinema scene, modelled in Dafny

The repository holds small WebGL demos. This model covers their logic:

- **Colour removal** (`ColorMask`, `color_mask.dfy`). A fragment shader
  receives the sampled texel, a target colour and a tolerance from 0 to 255.
  It erases (writes transparent black) every pixel whose RGB colour lies
  closer to the target than `tolerance / 255`. Every other pixel passes
  through unchanged. A vertex shader passes each corner of a full-screen
  quad through and derives its texture coordinate from its clip-space
  position.
- **Shared math library** (`Vector`, `vector.dfy`, and `Matrix`, `matrix.dfy`).
  It provides vector subtraction, the dot and cross products,
  normalisation, the perspective projection and 4×4 matrix multiplication.
- **Cinema scene** (`CinemaScene`, `cinema_scene.dfy`). It builds a look-at view matrix from a
  camera position, a target and an up vector. It also holds the constant
  tables for an 8-vertex box: positions, colours and triangle indices.

`RealArith` (`arith.dfy`) holds small facts about real multiplication and division. The
other proofs use them.

All arithmetic is over exact reals. The source computes some values with a
square root or `Math.tan`. The model takes these values as parameters.
The lengths and the colour distance come with a predicate that says what
makes each one correct:

- `IsLength(len, v)`: `len` is the positive root of `Dot(v, v)`.
- `IsDistance(d, c, t)`: `d` is GLSL `length` of `c.rgb - t`.

`f` is an unconstrained parameter: the caller's cotangent of half the
field of view. Every perspective lemma holds for any `f`.

Matrices are flat sequences of 16 reals, as in the source's `Float32Array`.
`Matrix.Transform` reads a matrix column by column, as WebGL does:
entry (row `r`, column `c`) is `m[c * 4 + r]`. Read row by row, the
multiply loop computes a·b in its own argument order; read column by
column, as `Transform` reads it, the same array is b·a, so `Product(a, b)`
applies `a` to a point first and then `b`. The column reading is the one
under which the view matrix's last four entries form its translation
column and its entries 3, 7 and 11 form the bottom row.

## Model

| member | source | states |
|---|---|---|
| Vector.Sub | src/shared/lib/math/vector.ts:31-33 | each component of the result is the difference of the inputs' components |
| Vector.SubSelfIsZero | src/shared/lib/math/vector.ts:31-33 | a vector minus itself is the zero vector |
| Vector.Dot | src/shared/lib/math/vector.ts:41-43 | the sum of the three componentwise products; its laws are the lemmas in the rows below |
| Vector.DotSymmetric | src/shared/lib/math/vector.ts:41-43 | the dot product does not depend on the order of its arguments |
| Vector.DotSelfNonNegative | src/shared/lib/math/vector.ts:41-43 | a vector dotted with itself is never negative |
| Vector.DotSubDistributes | src/shared/lib/math/vector.ts:31-43 | a·(b − c) = a·b − a·c |
| Vector.DotScale | src/shared/lib/math/vector.ts:41-43 | scaling either argument by k scales the dot product by k |
| Vector.Cross | src/shared/lib/math/vector.ts:17-23 | the three 2×2 determinants of the library's formula; its laws are the lemmas in the rows below |
| Vector.CrossOrthogonal | src/shared/lib/math/vector.ts:17-23 | the cross product is perpendicular to both of its arguments, as the function's doc comment promises |
| Vector.CrossAnticommutative | src/shared/lib/math/vector.ts:17-23 | a × b = −(b × a) |
| Vector.CrossSelfIsZero | src/shared/lib/math/vector.ts:17-23 | a × a = 0 |
| Vector.Lagrange | src/shared/lib/math/vector.ts:17-43 | \|a × b\|² = \|a\|²\|b\|² − (a·b)², so the cross product of perpendicular unit vectors is a unit vector |
| Vector.TripleProductCyclic | src/shared/lib/math/vector.ts:17-43 | a·(b × c) = b·(c × a) |
| Vector.Normalize | src/shared/lib/math/vector.ts:6-9 | the result has unit length, and the input is its length (a positive number) times the result |
| Vector.LengthUnique | src/shared/lib/math/vector.ts:6-9 | the length that normalisation divides by is determined by the vector, so it is not a free choice |
| Matrix.Multiply | src/shared/lib/math/matrix.ts:29-41 | returns a freshly allocated 16-entry array (so the caller may write into it), whose cell i*4+j is the sum over k of a[i*4+k]·b[k*4+j]; the arguments are not modified (no modifies clause). The loop invariants say that cells already visited hold their final sums and cells still ahead keep the zero of the fresh array |
| Matrix.PartialSumComplete | src/shared/lib/math/matrix.ts:33-36 | after the four steps of the k loop, the running sum equals the whole row-times-column sum |
| Matrix.ProductIdentityLeft | src/shared/lib/math/matrix.ts:29-41 | multiplying the identity by m gives m |
| Matrix.ProductIdentityRight | src/shared/lib/math/matrix.ts:29-41 | multiplying m by the identity gives m |
| Matrix.TransformProduct | src/shared/lib/math/matrix.ts:29-41 | applying the product of a and b to a point, read column by column, is applying a and then b |
| Matrix.Perspective | src/shared/lib/math/matrix.ts:11-21 | `mat4Perspective` with `f` given; what its entries mean is stated in the rows below |
| Matrix.PerspectiveEntries | src/shared/lib/math/matrix.ts:11-21 | entry 0 times aspect is f; entry 5 is f; entries 10 and 14 times (near − far) are near + far and 2·near·far; entry 11 is −1; all other entries are 0 |
| Matrix.PerspectiveDepthTermsNegative | src/shared/lib/math/matrix.ts:13-19 | for 0 < near < far, entries 10 and 14 are negative |
| Matrix.PerspectiveNearOneFarHundred | src/shared/lib/math/matrix.ts:13-19 | with near = 1 and far = 100, entry 10 is −101/99 and entry 14 is −200/99 |
| Matrix.PerspectiveNearPlane | src/shared/lib/math/matrix.ts:11-21 | a point at z = −near goes to clip z = −near and w = near (depth −1 after the divide), with x scaled by f/aspect and y by f |
| Matrix.PerspectiveFarPlane | src/shared/lib/math/matrix.ts:11-21 | a point at z = −far goes to clip z = w = far (depth +1 after the divide) |
| CinemaScene.ZAxis | src/modules/cinemaScene/lib/shaders.ts:69 | a unit vector; camera minus target is its distance times this vector |
| CinemaScene.XAxis | src/modules/cinemaScene/lib/shaders.ts:70 | a unit vector perpendicular to the z axis and to up; up × z is lenX times it |
| CinemaScene.YAxis | src/modules/cinemaScene/lib/shaders.ts:71 | a unit vector perpendicular to the z and x axes, equal to z × x (normalising an already unit vector changes nothing) |
| CinemaScene.ViewMatrix | src/modules/cinemaScene/lib/shaders.ts:68-82 | `createViewMatrix`: the three axes laid out by `FrameMatrix`; its action is stated in the rows below |
| CinemaScene.FrameMatrix | src/modules/cinemaScene/lib/shaders.ts:73-81 | the array literal of `createViewMatrix`, for any axes and camera position |
| CinemaScene.FrameTransform | src/modules/cinemaScene/lib/shaders.ts:73-81 | for any three axes, the layout takes a point p (with w = 1) to p − cam measured along each axis |
| CinemaScene.ViewMatrixLayout | src/modules/cinemaScene/lib/shaders.ts:73-81 | entries 3, 7 and 11 are 0 and entry 15 is 1; the rows of the 3×3 block are the x, y and z axes; entries 12-14 are minus each axis dotted with the camera position |
| CinemaScene.ViewMatrixTransform | src/modules/cinemaScene/lib/shaders.ts:68-82 | the matrix takes a point p (with w = 1) to (x·(p − cam), y·(p − cam), z·(p − cam), 1): the point's offset from the camera in the camera's axes |
| CinemaScene.ViewMatrixCameraToOrigin | src/modules/cinemaScene/lib/shaders.ts:68-82 | the camera position goes to (0, 0, 0, 1) |
| CinemaScene.ViewMatrixTargetAhead | src/modules/cinemaScene/lib/shaders.ts:68-82 | the target goes to (0, 0, −distance, 1), straight ahead on the negative z axis |
| CinemaScene.ViewMatrixKeepsUpUpward | src/modules/cinemaScene/lib/shaders.ts:70-71 | up has no component along the view's x axis, and its component along the y axis is lenX, which is positive |
| CinemaScene.Positions | src/modules/cinemaScene/lib/shaders.ts:14-25 | the `positions` table, value for value |
| CinemaScene.Colors | src/modules/cinemaScene/lib/shaders.ts:27-38 | the `colors` table, value for value |
| CinemaScene.Indices | src/modules/cinemaScene/lib/shaders.ts:40-47 | the `indices` table; its element type holds only the vertex numbers 0-7 |
| CinemaScene.TablesConsistent | src/modules/cinemaScene/lib/shaders.ts:14-47 | 24 position values and 32 colour values (3 and 4 per vertex for 8 vertices); 36 indices, each naming one of the 8 vertices |
| CinemaScene.VerticesAreBoxCorners | src/modules/cinemaScene/lib/shaders.ts:14-25 | every vertex has x = ±4 and y = ±3; z is 1 for vertices 0-3 and −1 for vertices 4-7 |
| CinemaScene.VertexColors | src/modules/cinemaScene/lib/shaders.ts:27-38 | vertices 0-3 are opaque red (1, 0, 0, 1), vertices 4-7 opaque blue (0, 0, 1, 1) |
| CinemaScene.FrontAndBackTriangles | src/modules/cinemaScene/lib/shaders.ts:41-42 | the first two triangles use only vertices 0-3, the next two only vertices 4-7 |
| CinemaScene.FrontRedBackBlue | src/modules/cinemaScene/lib/shaders.ts:27-42 | so every corner of the front-face triangles is red and every corner of the back-face triangles blue |
| CinemaScene.FacePlane | src/modules/cinemaScene/lib/shaders.ts:41-46 | the face each line of the index table names, as an axis (x, y or z) and the constant value of that coordinate on the face |
| CinemaScene.TrianglesLieOnTheirFaces | src/modules/cinemaScene/lib/shaders.ts:40-47 | each group of six indices lies on the side its comment names: front z = 1, back z = −1, bottom y = −3, top y = 3, left x = −4, right x = 4 |
| ColorMask.SquaredDistance | remove-color-from-image/src/lib/shaders.ts:19 | the squared RGB distance to the target is never negative |
| ColorMask.Mask | remove-color-from-image/src/lib/shaders.ts:21-25 | the output is either transparent black or the input texel unchanged |
| ColorMask.MaskedIffCloser | remove-color-from-image/src/lib/shaders.ts:19-21 | given the true distance d, d < tolerance/255 holds exactly when the squared distance is below (tolerance/255)² and tolerance is positive (both directions) |
| ColorMask.Fragment | remove-color-from-image/src/lib/shaders.ts:17-26 | the shader's output, which tests the distance, equals the root-free `Mask` |
| ColorMask.NonPositiveToleranceKeepsEverything | remove-color-from-image/src/lib/shaders.ts:21 | a tolerance of 0 or less leaves every pixel unchanged, even an exact match |
| ColorMask.ExactMatchIsRemoved | remove-color-from-image/src/lib/shaders.ts:19-22 | a texel whose RGB equals the target is erased for every positive tolerance, whatever its alpha |
| ColorMask.MaskedMonotone | remove-color-from-image/src/lib/shaders.ts:21 | a pixel erased at some tolerance is erased at every higher one |
| ColorMask.MaskedIgnoresAlpha | remove-color-from-image/src/lib/shaders.ts:19 | the erase decision does not depend on the texel's alpha |
| ColorMask.MaskIdempotent | remove-color-from-image/src/lib/shaders.ts:21-25 | masking the output again with the same target and tolerance changes nothing |
| ColorMask.RedOnRedIsRemoved | remove-color-from-image/src/lib/shaders.ts:17-26 | red texel, red target, tolerance 10: erased |
| ColorMask.RedOnBlueIsKept | remove-color-from-image/src/lib/shaders.ts:17-26 | red texel, blue target, tolerance 10: kept unchanged |
| ColorMask.TexCoord | remove-color-from-image/src/lib/shaders.ts:5 | `PositionOf` recovers the clip position from the texture coordinate |
| ColorMask.VertexShader | remove-color-from-image/src/lib/shaders.ts:4-7 | gl_Position is (x, y, 0, 1), and the texture coordinate is the one that maps back to the position |
| ColorMask.TexCoordRoundTrip | remove-color-from-image/src/lib/shaders.ts:5 | taking a texture coordinate to its position and back returns it, so the mapping is a bijection |
| ColorMask.TexCoordInUnitSquare | remove-color-from-image/src/lib/shaders.ts:5 | a position lies in the clip square [−1, 1]² exactly when its texture coordinate lies in [0, 1]² |
| ColorMask.TexCoordAffine | remove-color-from-image/src/lib/shaders.ts:5 | the texture coordinate of a blend of two positions is the same blend of their texture coordinates, so interpolating the varying is exact |
| ColorMask.Quad | src/modules/remove-picked-color/lib/shaders.ts:8 | the four clip-space corners of `setupRectangleBuffers`' quad, value for value |
| ColorMask.QuadShowsWholeImage | src/modules/remove-picked-color/lib/shaders.ts:8 | the quad's corners get texture coordinates (0,1), (1,1), (0,0), (1,0): the whole image, upright |

## Left out

- `webgl.ts` and every GL call (buffer creation and upload, texture setup, program linking, drawing) are not part of this model. It is I/O against the GPU.
- Texture sampling (`texture2D`) is left out. The fragment shader receives the sampled texel as a parameter.
- The `.vert` and `.frag` files that the cinema scene and picked-colour modules import are not part of this model. Only the shader text inlined in `remove-color-from-image/src/lib/shaders.ts` is modelled.
- The quad in `ColorMask.Quad` is the one that `setupRectangleBuffers` uploads in the picked-colour module. How the colour-removal demo draws its quad is not part of this model.
- Floating point (`Float32Array`, `mediump` floats, NaN and Infinity) is left out. All arithmetic is exact.
- Vector.Normalize: it requires a non-zero length. The library divides by zero for the zero vector and returns NaN components.
- CinemaScene.ZAxis: the camera must not sit on the target (`ValidLengths`). CinemaScene.XAxis: `up` must not be parallel to the viewing direction. Otherwise the library normalises a zero vector.
- Matrix.Perspective: the function itself, and every perspective lemma with it, requires `aspect ≠ 0` and `near ≠ far`. The library accepts those inputs, divides by zero and returns Infinity or NaN entries; the model does not describe that matrix.
- `Math.sqrt` and `Math.tan` are parameters rather than computed. `f` is the caller's cotangent of half the field of view. The lengths come with the `IsLength` predicate. The colour distance comes with `IsDistance`.
- The uniform-upload path is left out. So is the case where the shader runs with unset uniforms.
