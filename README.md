# HeadTracker geometry core, modelled in Dafny

This project models the deterministic geometry and view-state logic of the
HeadTracker Android SDK: a 360-degree video player that maps each video
frame onto the inside of a sphere and turns the camera with the phone's head
tracker. Five pieces are modelled.

- **The sphere mesh** (`Points`, module `Points`). This is a UV sphere of
  radius 400 sampled every 5 degrees. It has 37 latitude rows of 73
  vertices, texture coordinates, and a 16-bit triangle index list. The
  lists are built lazily behind an `initFlat` flag and can be dropped with
  `clear`.
- **The column-major 4x4 matrix helpers** (`MatrixUtil`, module
  `MatrixUtil`): `m4Multiply`, `m4RotateX/Y/Z` and `m4LookAt`. Each writes
  into a caller-supplied array that may alias an input. Each is an
  imperative method over `array<real>`, proved equal to a specification
  function of the inputs as they were on entry. That covers every aliasing
  case.
- **The renderer's view state** (`VideoTextureSurfaceRenderer`, module
  `VideoRenderer`). This covers the rotation, distance and scale setters
  and the per-frame matrix composition of `drawTexture`. It also covers the
  copy of the mesh into GL arrays in `setupVertexBuffer`.
- **The native matrix and quaternion code** (`util.h`/`util.cc`, module
  `NativeUtil`): `Matrix4x4` with its two products, `ToGlArray`,
  `Quatf`, `ToMatrix` and `GetTranslationMatrix`.
- **The native head tracker wrapper** (`jni_api.cc`, module `JniApi`).
  This is the integer-to-orientation mapping, the 50 ms prediction time
  stamp and the translation-times-rotation pose matrix of `GetPose`.

Floats are modelled as `real`. Sine, cosine and square root are parameters:
a `Trig` pair of functions of degrees (module `Angles`), or `s`/`c` and a
`sqrt` function. Lemmas that need the unit-circle identity or a true square
root take it as a precondition.

## Model

| member | source | states |
|---|---|---|
| Points.Mesher.constructor | sdk/src/main/java/com/xiaolong/sdk/render/Points.kt:4-20 | the three lists start empty and the flag down, which satisfies the cache invariant `Valid` |
| Points.Mesher.Init | sdk/src/main/java/com/xiaolong/sdk/render/Points.kt:21-81 | after `init` the lists hold exactly the position list, the texture list and the index list of the mesh, and the flag is up; the lists are cleared first, so a second `init` gives the same contents and no duplicates |
| Points.Mesher.SweepVertices | sdk/src/main/java/com/xiaolong/sdk/render/Points.kt:22-45 | the latitude loop from -90 to 90 leaves in `pp` and `tt` the rows of the mesh, one row per latitude, in order |
| Points.Mesher.SweepRow | sdk/src/main/java/com/xiaolong/sdk/render/Points.kt:27-43 | the longitude loop from 0 to 360 appends the 73 vertices of the row, each with 3 position floats and 2 texture floats |
| Points.Mesher.StitchIndices | sdk/src/main/java/com/xiaolong/sdk/render/Points.kt:46-79 | the index loop clears `index` and appends the 72 columns of cells in order, with `jstep` = 73 |
| Points.Mesher.StitchColumn | sdk/src/main/java/com/xiaolong/sdk/render/Points.kt:51-77 | one column appends its 36 cells from the south pole to the north pole, following the three `when` branches |
| Points.Mesher.XYZ | sdk/src/main/java/com/xiaolong/sdk/render/Points.kt:83-87 | the getter returns the position list of the mesh, builds the mesh only when the flag is down, and leaves all three lists equal to the mesh |
| Points.Mesher.UV | sdk/src/main/java/com/xiaolong/sdk/render/Points.kt:88-92 | the same for the texture list |
| Points.Mesher.GetIndex | sdk/src/main/java/com/xiaolong/sdk/render/Points.kt:94-97 | the same for the index list |
| Points.Mesher.Clear | sdk/src/main/java/com/xiaolong/sdk/render/Points.kt:99-104 | all three lists empty and the flag down, so the next getter rebuilds the original contents |
| Points.Attr | sdk/src/main/java/com/xiaolong/sdk/render/Points.kt:37-41 | a vertex adds exactly 3 floats to the position list and 2 to the texture list |
| Points.ToShort | sdk/src/main/java/com/xiaolong/sdk/render/Points.kt:56-73 | Kotlin `toShort` gives a value in [-32768, 32768) and leaves any value already in that range unchanged |
| Points.RowPrefixLength | sdk/src/main/java/com/xiaolong/sdk/render/Points.kt:29-43 | the first `n` vertices of a row hold `Width * n` floats |
| Points.Vertex | sdk/src/main/java/com/xiaolong/sdk/render/Points.kt:30-39 | a vertex has three coordinates, and its `(x, z)` part points along its longitude: `x sin(lon) = z cos(lon)` |
| Points.TexCoordAt | sdk/src/main/java/com/xiaolong/sdk/render/Points.kt:40-41 | the texture coordinate `(i / 360, j / 90 / 2 + 0.5)` of vertex `(row, col)` is `(col / 72, row / 36)` |
| Points.Grid | sdk/src/main/java/com/xiaolong/sdk/render/Points.kt:24-45 | the outer loop's 37 rows, each holding `Width * 73` values of the list it fills |
| Points.Mesh | sdk/src/main/java/com/xiaolong/sdk/render/Points.kt:24-45 | the list `init` leaves in `pp` or `tt`, the rows one after the other, holds `Width` values for each of the 2701 vertices |
| Points.Cell | sdk/src/main/java/com/xiaolong/sdk/render/Points.kt:54-74 | the `when` branches emit 3 indices for the two pole bands and 6 for every other band, each a 16-bit value |
| Points.MeshLength | sdk/src/main/java/com/xiaolong/sdk/render/Points.kt:24-45 | 37 x 73 = 2701 vertices: the position list holds 8103 floats and the texture list 5402 |
| Points.MeshAt | sdk/src/main/java/com/xiaolong/sdk/render/Points.kt:24-45 | value `k` of vertex `(row, col)` sits at offset `Width * (73 * row + col) + k`, so vertex `(row, col)` is vertex number `73 * row + col` |
| Points.PositionAt | sdk/src/main/java/com/xiaolong/sdk/render/Points.kt:34-39 | the three position floats of vertex `(row, col)` are `(r cos(lat) cos(lon), r sin(lat), r cos(lat) sin(lon))` |
| Points.TexCoordValue | sdk/src/main/java/com/xiaolong/sdk/render/Points.kt:40-41 | `u = i / 360` is `col / 72` and `v = j / 90 / 2 + 0.5` is `row / 36`; both lie in [0, 1] on the grid |
| Points.TexCoordListAt | sdk/src/main/java/com/xiaolong/sdk/render/Points.kt:40-41 | the texture list holds `col / 72` and `row / 36` at the offsets of vertex `(row, col)` |
| Points.PoleCollapse | sdk/src/main/java/com/xiaolong/sdk/render/Points.kt:30-36 | at latitude -90 and 90 every vertex of the row is the pole `(0, -400, 0)` or `(0, 400, 0)` |
| Points.OnSphere | sdk/src/main/java/com/xiaolong/sdk/render/Points.kt:30-36 | when sine and cosine satisfy `sin^2 + cos^2 = 1`, every vertex lies on the sphere of radius 400 |
| Points.ColumnLength | sdk/src/main/java/com/xiaolong/sdk/render/Points.kt:53-77 | a column emits 3 indices for each pole cell and 6 for each of the 34 cells between, 210 in all |
| Points.CellCorners | sdk/src/main/java/com/xiaolong/sdk/render/Points.kt:54-74 | every index of cell `(i, j)` is one of its four corners `row * 73 + col`, each below 2701, so `toShort` never wraps |
| Points.CellShape | sdk/src/main/java/com/xiaolong/sdk/render/Points.kt:54-74 | band 0 emits exactly the triangle `(j, i), (j + 1, i + 1), (j + 1, i)`, whose single corner on the pole row comes first; band 35 emits exactly `(j, i), (j, i + 1), (j + 1, i + 1)`, with its single north-row corner last; every other band emits `(j, i), (j, i + 1), (j + 1, i + 1)` then `(j, i), (j + 1, i + 1), (j + 1, i)`, covering all four corners; the vertex order, and so the winding, is the source's (corner `(row, col)` is index `row * 73 + col`) |
| Points.ColumnBelow | sdk/src/main/java/com/xiaolong/sdk/render/Points.kt:53-77 | every index a column emits names one of the 2701 vertices |
| Points.MeshIndices | sdk/src/main/java/com/xiaolong/sdk/render/Points.kt:47-79 | the index list `init` builds, the 72 columns one after the other, holds 72 x 210 = 15120 indices (5040 triangles), each in [0, 2701) |
| MatrixUtil.Multiply | sdk/src/main/java/com/xiaolong/sdk/render/util/MatrixUtil.kt:220-272 | entry `(r, c)` of the column-major product is row `r` of `a` against column `c` of `b` |
| MatrixUtil.MultiplyIdentityLeft | sdk/src/main/java/com/xiaolong/sdk/render/util/MatrixUtil.kt:220-272 | the identity on the left returns the other operand |
| MatrixUtil.MultiplyIdentityRight | sdk/src/main/java/com/xiaolong/sdk/render/util/MatrixUtil.kt:220-272 | the identity on the right returns the other operand |
| MatrixUtil.M4Multiply | sdk/src/main/java/com/xiaolong/sdk/render/util/MatrixUtil.kt:220-272 | `out` receives the product of `a` and `b` as they were on entry, even when `out` is `a` or `b`: all of `a` is cached first and each column of `b` is read before that column of `out` is written |
| MatrixUtil.M4RotateX | sdk/src/main/java/com/xiaolong/sdk/render/util/MatrixUtil.kt:17-47 | `out` receives `RotateX` of `a` as on entry: entries 4..11 mixed by `s`, `c` and the others equal to `a`'s, whether `out` is `a`, an equal array or a different one |
| MatrixUtil.M4RotateY | sdk/src/main/java/com/xiaolong/sdk/render/util/MatrixUtil.kt:57-89 | the same for the rotation about Y: entries 0..3 and 8..11 mixed, the others copied |
| MatrixUtil.M4RotateZ | sdk/src/main/java/com/xiaolong/sdk/render/util/MatrixUtil.kt:99-131 | the same for the rotation about Z: entries 0..7 mixed, the others copied |
| MatrixUtil.RotateX | sdk/src/main/java/com/xiaolong/sdk/render/util/MatrixUtil.kt:17-47 | what `m4RotateX` leaves in `out`: columns 0 and 3 of `a` are copied unchanged (columns 1 and 2 are mixed) |
| MatrixUtil.RotateY | sdk/src/main/java/com/xiaolong/sdk/render/util/MatrixUtil.kt:57-89 | what `m4RotateY` leaves: columns 1 and 3 of `a` are copied unchanged |
| MatrixUtil.RotateZ | sdk/src/main/java/com/xiaolong/sdk/render/util/MatrixUtil.kt:99-131 | what `m4RotateZ` leaves: columns 2 and 3 of `a` are copied unchanged |
| MatrixUtil.RotateXIsProduct | sdk/src/main/java/com/xiaolong/sdk/render/util/MatrixUtil.kt:17-47 | the result of `m4RotateX` is `a` times the elementary rotation about X built from the same `s` and `c` |
| MatrixUtil.RotateYIsProduct | sdk/src/main/java/com/xiaolong/sdk/render/util/MatrixUtil.kt:57-89 | the same about Y |
| MatrixUtil.RotateZIsProduct | sdk/src/main/java/com/xiaolong/sdk/render/util/MatrixUtil.kt:99-131 | the same about Z |
| MatrixUtil.RotateXInverse | sdk/src/main/java/com/xiaolong/sdk/render/util/MatrixUtil.kt:38-45 | when `s^2 + c^2 = 1`, rotating by an angle and then by its opposite gives `a` back |
| MatrixUtil.RotateYInverse | sdk/src/main/java/com/xiaolong/sdk/render/util/MatrixUtil.kt:57-89 | the same about Y |
| MatrixUtil.RotateZInverse | sdk/src/main/java/com/xiaolong/sdk/render/util/MatrixUtil.kt:99-131 | the same about Z |
| MatrixUtil.Minus | sdk/src/main/java/com/xiaolong/sdk/render/util/MatrixUtil.kt:166-168 | `eye - center` is zero exactly when the two points coincide |
| MatrixUtil.Scale | sdk/src/main/java/com/xiaolong/sdk/render/util/MatrixUtil.kt:169-172 | scaling a vector by `k` scales each of its dot products by `k` |
| MatrixUtil.Cross | sdk/src/main/java/com/xiaolong/sdk/render/util/MatrixUtil.kt:173-175 | the cross product is orthogonal to both factors |
| MatrixUtil.NormalizedOrZero | sdk/src/main/java/com/xiaolong/sdk/render/util/MatrixUtil.kt:176-186 | normalizing, or zeroing when the length is 0, keeps a vector orthogonal to whatever it was orthogonal to |
| MatrixUtil.LookAtFrame | sdk/src/main/java/com/xiaolong/sdk/render/util/MatrixUtil.kt:166-200 | the three axes the look-at construction builds are pairwise orthogonal |
| MatrixUtil.LookAtAxes | sdk/src/main/java/com/xiaolong/sdk/render/util/MatrixUtil.kt:166-200 | the step-by-step axis computation, with both `len == 0` branches, yields exactly that frame |
| MatrixUtil.LookAt | sdk/src/main/java/com/xiaolong/sdk/render/util/MatrixUtil.kt:162-216 | the bottom row is `(0, 0, 0, 1)`; when `eye != center` the rows of the 3x3 block are the frame's axes and the translation is minus each axis against `eye` |
| MatrixUtil.M4LookAt | sdk/src/main/java/com/xiaolong/sdk/render/util/MatrixUtil.kt:142-218 | `out` receives the look-at matrix of the first three entries of `eye`, `center` and `up` as on entry; the inputs may be longer than 3 and may be `out` itself, since all of them are read before `out` is written |
| MatrixUtil.LookAtCoincident | sdk/src/main/java/com/xiaolong/sdk/render/util/MatrixUtil.kt:162-165 | when the eye is the centre the result is the identity |
| MatrixUtil.LookAtOrthogonal | sdk/src/main/java/com/xiaolong/sdk/render/util/MatrixUtil.kt:166-200 | the three rows of the rotation block are pairwise orthogonal |
| MatrixUtil.NormalizedIsUnit | sdk/src/main/java/com/xiaolong/sdk/render/util/MatrixUtil.kt:176-186 | under a true square root, a vector other than zero normalizes to unit length |
| MatrixUtil.LookAtUnitZ | sdk/src/main/java/com/xiaolong/sdk/render/util/MatrixUtil.kt:166-172 | under a true square root the viewing axis `z` has unit length |
| MatrixUtil.LookAtOrthonormal | sdk/src/main/java/com/xiaolong/sdk/render/util/MatrixUtil.kt:173-200 | when `up` is not parallel to the view direction, all three rows have unit length, so with `LookAtOrthogonal` they are orthonormal |
| MatrixUtil.CrossOfOrthonormal | sdk/src/main/java/com/xiaolong/sdk/render/util/MatrixUtil.kt:187-200 | `y`, the cross product of the unit axes `z` and `x`, normalizes to unit length |
| MatrixUtil.LookAtDegenerate | sdk/src/main/java/com/xiaolong/sdk/render/util/MatrixUtil.kt:176-194 | when `up` is parallel to the view direction, the `x` and `y` rows are zero instead of a division by zero |
| MatrixUtil.LookAtEyeToOrigin | sdk/src/main/java/com/xiaolong/sdk/render/util/MatrixUtil.kt:201-216 | the view matrix takes the eye to the origin |
| MatrixUtil.LookAtAtCenter | sdk/src/main/java/com/xiaolong/sdk/render/util/MatrixUtil.kt:201-216 | the view matrix applied to the centre is minus the rotation block applied to `eye - center` |
| MatrixUtil.LookAtCenterAhead | sdk/src/main/java/com/xiaolong/sdk/render/util/MatrixUtil.kt:166-216 | under a true square root the centre lands on the negative `z` axis, at the distance between eye and centre |
| MatrixUtil.SetColumn | sdk/src/main/java/com/xiaolong/sdk/render/util/MatrixUtil.kt:201-216 | four consecutive stores fill column `j` of `out` and leave its other twelve entries as they were |
| MatrixUtil.SetIdentity | sdk/src/main/java/com/xiaolong/sdk/render/VideoTextureSurfaceRenderer.kt:172-175 | `Matrix.setIdentityM` leaves the identity in the array |
| VideoRenderer.ScaleFor | sdk/src/main/java/com/xiaolong/sdk/render/VideoTextureSurfaceRenderer.kt:43-44 | the scale initialiser satisfies the commented relation between scale and distance, and maps the open distance range into the open scale range |
| VideoRenderer.DistanceFor | sdk/src/main/java/com/xiaolong/sdk/render/VideoTextureSurfaceRenderer.kt:275-279 | `changeScale`'s formula satisfies the same relation, and maps the open scale range (1, 4) into the open distance range (-100, 380) |
| VideoRenderer.ScaleDistanceRoundTrip | sdk/src/main/java/com/xiaolong/sdk/render/VideoTextureSurfaceRenderer.kt:43-44 | the two formulas are inverse to each other, and the relation holds exactly when either one gives the other quantity |
| VideoRenderer.DistanceDecreasing | sdk/src/main/java/com/xiaolong/sdk/render/VideoTextureSurfaceRenderer.kt:279 | a larger scale gives a strictly smaller distance |
| VideoRenderer.InitialScale | sdk/src/main/java/com/xiaolong/sdk/render/VideoTextureSurfaceRenderer.kt:36-44 | the initial distance 350 gives scale 1.1875, and `changeScale`'s formula maps 1.1875 back to 350 |
| VideoRenderer.Truncate | sdk/src/main/java/com/xiaolong/sdk/render/VideoTextureSurfaceRenderer.kt:244 | rounding toward zero: the result lies between zero and `y`, within 1 of `y` |
| VideoRenderer.Rem360 | sdk/src/main/java/com/xiaolong/sdk/render/VideoTextureSurfaceRenderer.kt:244 | Kotlin's float `% 360` lies in (-360, 360), has the sign of the dividend, differs from it by a whole number of turns, and is the identity inside (-360, 360) |
| VideoRenderer.TurnUnique | sdk/src/main/java/com/xiaolong/sdk/render/VideoTextureSurfaceRenderer.kt:252-258 | at most one angle in [0, 360) is a whole number of turns from a given angle, so `setRotationX`'s result is determined |
| VideoRenderer.Clamp | sdk/src/main/java/com/xiaolong/sdk/render/VideoTextureSurfaceRenderer.kt:264-269 | the result lies in [lo, hi], is `x` inside the range, and is the nearer limit outside it |
| VideoRenderer.ClampIdempotent | sdk/src/main/java/com/xiaolong/sdk/render/VideoTextureSurfaceRenderer.kt:264-269 | clamping twice is clamping once |
| VideoRenderer.Model | sdk/src/main/java/com/xiaolong/sdk/render/VideoTextureSurfaceRenderer.kt:177-184 | rotating in place about X by `rotationY` and then about Y by `rotationX` is the base matrix times the two elementary rotations, in that order |
| VideoRenderer.ModelUnrotated | sdk/src/main/java/com/xiaolong/sdk/render/VideoTextureSurfaceRenderer.kt:177-184 | with both angles 0 the model matrix is the base matrix |
| VideoRenderer.Load | sdk/src/main/java/com/xiaolong/sdk/render/VideoTextureSurfaceRenderer.kt:188-190 | `setLookAtM` and `perspectiveM` leave the matrix they compute in the array |
| VideoRenderer.Renderer.constructor | sdk/src/main/java/com/xiaolong/sdk/render/VideoTextureSurfaceRenderer.kt:27-44 | the initial view state is `rotationX = -45`, `rotationY = 0`, `distance = 350` and `scale = 1.1875`, with four separate 16-entry matrices |
| VideoRenderer.Renderer.SetRotation | sdk/src/main/java/com/xiaolong/sdk/render/VideoTextureSurfaceRenderer.kt:243-246 | stores `rx % 360`, which may be negative, stores `ry` unclamped, ignores `rz`, and changes no other field |
| VideoRenderer.Renderer.SetRotationX | sdk/src/main/java/com/xiaolong/sdk/render/VideoTextureSurfaceRenderer.kt:252-258 | stores the angle in [0, 360) that is a whole number of turns from `v`, and `v` itself when `v` is already in range |
| VideoRenderer.Renderer.SetRotationY | sdk/src/main/java/com/xiaolong/sdk/render/VideoTextureSurfaceRenderer.kt:264-269 | stores `v` clamped to [-90, 90] through `min` then `max` |
| VideoRenderer.Renderer.GetScale | sdk/src/main/java/com/xiaolong/sdk/render/VideoTextureSurfaceRenderer.kt:271-273 | the scale handed out lies in [1, 4] |
| VideoRenderer.Renderer.ChangeScale | sdk/src/main/java/com/xiaolong/sdk/render/VideoTextureSurfaceRenderer.kt:276-280 | when `f * scale` is strictly between 1 and 4, the distance becomes the one related to it; otherwise nothing changes; `scale` is never written |
| VideoRenderer.Renderer.SetScale | sdk/src/main/java/com/xiaolong/sdk/render/VideoTextureSurfaceRenderer.kt:282-285 | the scale becomes `scale * f` clamped to [1, 4]; distance and angles are untouched |
| VideoRenderer.Renderer.DrawTexture | sdk/src/main/java/com/xiaolong/sdk/render/VideoTextureSurfaceRenderer.kt:170-197 | the model matrix is the head pose (or the identity without head tracking) rotated by the two angles, and `vertexTransform` is `(perspective x lookAt) x model`, in that order |
| VideoRenderer.Renderer.RotateModel | sdk/src/main/java/com/xiaolong/sdk/render/VideoTextureSurfaceRenderer.kt:177-184 | with head tracking `m4Rotate` becomes a new array holding the rotated pose; without it the identity is rotated in place |
| VideoRenderer.Renderer.SetupVertexBuffer | sdk/src/main/java/com/xiaolong/sdk/render/VideoTextureSurfaceRenderer.kt:106-135 | the texture array, the index array and the two GL buffers hold exactly the mesh lists, and the mesh cache stays valid and built |
| VideoRenderer.CopyReals | sdk/src/main/java/com/xiaolong/sdk/render/VideoTextureSurfaceRenderer.kt:110-117 | the copy loop produces a new array with the list's length and contents |
| VideoRenderer.CopyInts | sdk/src/main/java/com/xiaolong/sdk/render/VideoTextureSurfaceRenderer.kt:118-121 | the same for the index list |
| NativeUtil.Product | sdk/src/main/cpp/util.cc:33-44 | `result.m[i][j]` is the sum over `k` of `m[k][j] * right.m[i][k]` |
| NativeUtil.Mul | sdk/src/main/cpp/util.cc:33-44 | the triple loop that accumulates with `+=` returns that product; both operands are values and are left unchanged |
| NativeUtil.EntryIsSum | sdk/src/main/cpp/util.cc:37-40 | the four terms the inner loop adds up are the entry |
| NativeUtil.ProductIdentity | sdk/src/main/cpp/util.cc:33-44 | the identity is neutral on both sides |
| NativeUtil.Apply | sdk/src/main/cpp/util.cc:46-55 | coordinate `i` of `m * vec` is the sum over `k` of `m[k][i] * vec[k]` |
| NativeUtil.MulVec | sdk/src/main/cpp/util.cc:46-55 | the double loop returns exactly that vector |
| NativeUtil.ApplyIdentity | sdk/src/main/cpp/util.cc:46-55 | the identity changes no vector |
| NativeUtil.ToGlArray | sdk/src/main/cpp/util.cc:57-61 | `result[4i + j] = m[i][j]`: the memory copy yields `MatrixUtil`'s column-major layout |
| NativeUtil.FromGlArray | sdk/src/main/cpp/util.cc:57-61 | reading the 16 floats back into a matrix |
| NativeUtil.GlArrayRoundTrip | sdk/src/main/cpp/util.cc:57-61 | the layout is a bijection: both round trips are the identity |
| NativeUtil.GlArrayOfProduct | sdk/src/main/cpp/util.cc:33-44 | laid out for OpenGL, the native product is `m4Multiply`'s product of the laid-out operands |
| NativeUtil.GlArrayOfIdentity | sdk/src/main/cpp/util.cc:57-61 | the native identity lays out as the column-major identity |
| NativeUtil.FromXYZW | sdk/src/main/cpp/util.h:57 | the quaternion's fields are the four floats in x, y, z, w order |
| NativeUtil.ToMatrix | sdk/src/main/cpp/util.cc:63-96 | for every quaternion, entry 3 of columns `m[0]`, `m[1]` and `m[2]` is 0 and column `m[3]` is `(0, 0, 0, 1)`: the result has no translation part |
| NativeUtil.ToMatrixScalar | sdk/src/main/cpp/util.h:55 | a quaternion with no vector part gives the identity matrix |
| NativeUtil.DefaultQuatIdentity | sdk/src/main/cpp/util.h:55 | the default `Quatf()` = (0, 0, 0, 1) gives the identity matrix |
| NativeUtil.ToMatrixNegate | sdk/src/main/cpp/util.cc:65-93 | `q` and `-q` give the same matrix |
| NativeUtil.Translation | sdk/src/main/cpp/util.cc:98-103 | the identity except that column `m[3]` is `(t0, t1, t2, 1)` |
| NativeUtil.TranslationZero | sdk/src/main/cpp/util.cc:98-103 | no translation is the identity |
| NativeUtil.TranslationMovesPoint | sdk/src/main/cpp/util.cc:98-103 | the translation moves a point by `t` |
| NativeUtil.TranslationCompose | sdk/src/main/cpp/util.cc:98-103 | two translations compose into the translation by the sum |
| NativeUtil.TranslationTimesLinear | sdk/src/main/cpp/util.cc:33-44 | a translation times a matrix with no translation keeps its 3x3 block and takes `(t, 1)` as column `m[3]` |
| NativeUtil.PoseBlocks | sdk/src/main/cpp/util.cc:63-103 | `T * R` has the rotation block of `ToMatrix(q)` and `(t, 1)` as column `m[3]` |
| JniApi.EnumValue | sdk/src/main/cpp/headtracker/cardboard.h:31-46 | the orientation enum's values are 0..3 |
| JniApi.Orientation | sdk/src/main/cpp/jni_api.cc:43-51 | 0, 1 and 2 select the orientation with that enum value; any other integer selects upside-down portrait |
| JniApi.OrientationOfValue | sdk/src/main/cpp/jni_api.cc:43-51 | every orientation is selected by its own value |
| JniApi.OrientationOutOfRange | sdk/src/main/cpp/jni_api.cc:49-51 | negative numbers and numbers above 3 all select the same orientation as 3 |
| JniApi.PoseMatrix | sdk/src/main/cpp/jni_api.cc:55-56 | the returned matrix has the quaternion's rotation block and `(position, 1)` as column `m[3]` |
| JniApi.NeutralPose | sdk/src/main/cpp/headtracker/cardboard.cc:91-95 | the fallback pose (no translation, identity quaternion) gives the identity matrix |
| JniApi.HeadTracker.constructor | sdk/src/main/cpp/jni_api.cc:19-26 | the tracker keeps the handle the library created |
| JniApi.HeadTracker.GetPose | sdk/src/main/cpp/jni_api.cc:39-57 | asks the tracker for the pose at boot time + 50,000,000 ns in the selected orientation, and returns that pose's translation-times-rotation matrix |

## Left out

- Floating point: every float is a `real`, so rounding, `toFloat()`, and the reciprocal square root are exact here.
- Sine, cosine and square root are not computed. They are parameters: `Trig`, the pair `s`/`c`, and `sqrt`. The source converts degrees to radians before calling them; the model passes degrees to `Trig` directly.
- Android's `Matrix.setLookAtM` and `Matrix.perspectiveM` enter `DrawTexture` as the matrices they produce. So does the pose from `nativeGetHeaderPose`. Their own arithmetic is not modelled. `Matrix.setIdentityM` is modelled by `SetIdentity`.
- GL and EGL calls, the render thread, `synchronized` blocks and `onFrameAvailable` are left out: they are foreign calls and cross-thread signalling.
- `loadShaders`, `setupTexture` (with `textureBuffer`), `setupX`, `draw`, `deinitGLComponents`, `checkGlError` and `release` are left out. So are `startHeadTrack` and `pauseHeadTrack`. They only call GL or JNI.
- `initGLComponents` is left out. It calls `setupVertexBuffer`, GL set-up, and `Points.clear()`, modelled as `SetupVertexBuffer` and `Mesher.Clear`.
- `getRotationX` and `getRotationY` are left out. They return a field unchanged.
- `EYE_DISTANCE` is left out; nothing reads it.
- `MAX_SCALE` and `MIN_SCALE` are `Int` in the source. They are compared against and converted to floats, so they are modelled as the reals 4.0 and 1.0.
- `Points` keeps its loop counters and scratch values (`i`, `ii`, `j`, `jj`, `sinj`, `x`, ...) in fields. Nothing outside `init` reads them, so they are method locals here. The float counters are whole multiples of 5 and are modelled as integers.
- `Points.Mesher.XYZ`, `UV` and `GetIndex` return the list's contents as a value. The source returns the `ArrayList` object itself, so a caller holding it would see a later `clear`. That aliasing is not modelled.
- The Cardboard library (`cardboard.cc`, `cardboard.h` and the Kalman filter behind it) is not part of this model. `GetPose` takes its pose query as a function parameter. Only the default-pose fallback is used, in `NeutralPose`.
- `GetBootTimeNano` reads the system clock; its result is the parameter `bootTime`. The 64-bit addition of the 50 ms offset is unbounded here.
- The `HeadTracker` destructor, `OnPause` and `OnResume` only forward the handle to the library, and are left out.
- `Cardboard_initializeAndroid`, and the JNI marshalling in `jni.cc` and `HeaderTrackerUtil.kt`, are left out.
- The matrix methods of `MatrixUtil` require the 16-entry arrays (`out`, `a`, `b`) to have exactly 16 entries; the source accepts longer arrays and uses their first 16.
- The quaternion's rotation block is not proved orthonormal for unit quaternions. Only its fixed entries, sign symmetry and identity case are.
