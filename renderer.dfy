/**
 * The view state of `VideoTextureSurfaceRenderer`: two rotation angles, the
 * camera distance and a zoom scale that the UI setters change, the matrix
 * composition run once per frame, and the copy of the sphere mesh into the
 * arrays handed to GL.
 *
 * Android's `Matrix.setLookAtM` and `Matrix.perspectiveM`, and the pose that
 * comes back from the native head tracker, are not modelled: they enter
 * `DrawTexture` as the matrices they would have produced.
 */
module VideoRenderer {
  import opened Angles
  import opened MatrixUtil
  import opened Points

  // ---------------------------------------------------------------------
  // Zoom limits.  The distance is where the camera sits on the Z axis; the
  // scale is the zoom factor shown to the user.

  const MaxDistance: real := 380.0
  const MinDistance: real := -100.0
  const MaxScale: real := 4.0
  const MinScale: real := 1.0

  /** The relation between scale and distance that the renderer's comment
      states: both sit at the same fraction of their ranges, one counted
      from the top and the other from the bottom. */
  ghost predicate Related(scale: real, distance: real)
  {
    (MaxScale - scale) / (MaxScale - MinScale) == (distance - MinDistance) / (MaxDistance - MinDistance)
  }

  /** The initial scale, computed from a distance by the field initialiser. */
  function ScaleFor(distance: real): (s: real)
    ensures Related(s, distance)
    ensures MinDistance < distance < MaxDistance ==> MinScale < s < MaxScale
  {
    MaxScale - (distance - MinDistance) / (MaxDistance - MinDistance) * (MaxScale - MinScale)
  }

  /** The distance `changeScale` computes for a requested scale. */
  function DistanceFor(scale: real): (d: real)
    ensures Related(scale, d)
    ensures MinScale < scale < MaxScale ==> MinDistance < d < MaxDistance
  {
    (MaxScale - scale) / (MaxScale - MinScale) * (MaxDistance - MinDistance) + MinDistance
  }

  /** The two formulas are inverse to each other, and `Related` pins down
      either quantity from the other. */
  lemma ScaleDistanceRoundTrip(s: real, d: real)
    ensures ScaleFor(DistanceFor(s)) == s
    ensures DistanceFor(ScaleFor(d)) == d
    ensures Related(s, d) <==> d == DistanceFor(s)
    ensures Related(s, d) <==> s == ScaleFor(d)
  {
  }

  /** Zooming in moves the camera forward: a larger scale gives a strictly
      smaller distance. */
  lemma DistanceDecreasing(s1: real, s2: real)
    requires s1 < s2
    ensures DistanceFor(s1) > DistanceFor(s2)
  {
  }

  /** The initial field values agree with the relation: the scale computed
      from distance 350 is 1.1875, and `changeScale`'s formula maps 1.1875
      back to 350. */
  lemma InitialScale()
    ensures ScaleFor(350.0) == 1.1875
    ensures DistanceFor(1.1875) == 350.0
    ensures Related(1.1875, 350.0)
  {
  }

  // ---------------------------------------------------------------------
  // Angles

  /** `y` is a whole number. */
  ghost predicate Whole(y: real)
  {
    y.Floor as real == y
  }

  /** Rounding toward zero. */
  function Truncate(y: real): (n: int)
    ensures 0.0 <= y ==> 0.0 <= n as real <= y < n as real + 1.0
    ensures y < 0.0 ==> n as real - 1.0 < y <= n as real <= 0.0
  {
    if 0.0 <= y then y.Floor else -((-y).Floor)
  }

  /** Kotlin's `x % 360f`: the remainder of the division truncated toward
      zero, so it keeps the sign of `x` (unlike Dafny's `%`, which is never
      negative). */
  function Rem360(x: real): (r: real)
    ensures -360.0 < r < 360.0
    ensures 0.0 <= x ==> 0.0 <= r
    ensures x < 0.0 ==> r <= 0.0
    ensures Whole((x - r) / 360.0)
    ensures -360.0 < x < 360.0 ==> r == x
  {
    var q := Truncate(x / 360.0);
    assert (x - (x - 360.0 * q as real)) / 360.0 == q as real;
    x - 360.0 * q as real
  }

  /** One turn less is still a whole number of turns. */
  lemma WholeLess(x: real)
    requires Whole(x / 360.0)
    ensures Whole((x - 360.0) / 360.0)
  {
    assert (x - 360.0) / 360.0 == x / 360.0 - 1.0;
  }

  /** At most one value in [0, 360) differs from `v` by a whole number of
      turns. */
  lemma {:induction false} TurnUnique(v: real, r1: real, r2: real)
    requires 0.0 <= r1 < 360.0 && 0.0 <= r2 < 360.0
    requires Whole((v - r1) / 360.0) && Whole((v - r2) / 360.0)
    ensures r1 == r2
  {
    var a, b := ((v - r1) / 360.0).Floor, ((v - r2) / 360.0).Floor;
    assert (r2 - r1) / 360.0 == (a - b) as real;
    assert -1 < a - b < 1;
  }

  /** The clamp both `setRotationY` (via `min` then `max`) and `setScale`
      (via two comparisons) perform. */
  function Clamp(x: real, lo: real, hi: real): (r: real)
    requires lo <= hi
    ensures lo <= r <= hi
    ensures lo <= x <= hi ==> r == x
    ensures x < lo ==> r == lo
    ensures hi < x ==> r == hi
  {
    if x < lo then lo else if hi < x then hi else x
  }

  /** Clamping twice is clamping once. */
  lemma ClampIdempotent(x: real, lo: real, hi: real)
    requires lo <= hi
    ensures Clamp(Clamp(x, lo, hi), lo, hi) == Clamp(x, lo, hi)
  {
  }

  // ---------------------------------------------------------------------
  // Per-frame composition

  /** The model matrix: `base` rotated about X by `rotationY` degrees, then
      about Y by `rotationX` degrees, each step written into the same array
      by `m4RotateX`/`m4RotateY`.  It equals `base` times the two elementary
      rotations, in that order. */
  function Model(base: Mat4, rotationX: real, rotationY: real, trig: Trig): (m: Mat4)
    ensures m == Multiply(Multiply(base, RotationX(trig.sin(rotationY), trig.cos(rotationY))),
                          RotationY(trig.sin(rotationX), trig.cos(rotationX)))
  {
    var once := RotateX(base, trig.sin(rotationY), trig.cos(rotationY));
    RotateXIsProduct(base, trig.sin(rotationY), trig.cos(rotationY));
    RotateYIsProduct(once, trig.sin(rotationX), trig.cos(rotationX));
    RotateY(once, trig.sin(rotationX), trig.cos(rotationX))
  }

  /** With both angles 0 (sine 0, cosine 1) the model matrix is `base`. */
  lemma ModelUnrotated(base: Mat4, trig: Trig)
    requires trig.sin(0.0) == 0.0 && trig.cos(0.0) == 1.0
    ensures Model(base, 0.0, 0.0, trig) == base
  {
    Entries(base);
  }

  /** `Matrix.setLookAtM`, `Matrix.perspectiveM` and the copy of the head
      pose: each fills a 16-entry array with a matrix computed elsewhere. */
  method Load(m: array<real>, v: Mat4)
    requires m.Length == 16
    modifies m
    ensures m[..] == v
  {
    forall k | 0 <= k < 16 {
      m[k] := v[k];
    }
  }

  // ---------------------------------------------------------------------
  // The renderer

  class Renderer {
    var rotationX: real
    var rotationY: real
    var distance: real
    var scale: real
    /** Inherited from `TextureSurfaceRenderer`; always true there. */
    var useHeadTracker: bool
    var m4Rotate: array<real>
    const m4LookAt: array<real>
    const m4Perspective: array<real>
    const vertexTransform: array<real>
    var textureCoordsArray: array?<real>
    var drawOrderArray: array?<int>
    /** What `vertexBuffer` and `drawListBuffer` receive from their `put`. */
    var vertexBuffer: seq<real>
    var drawListBuffer: seq<int>

    /** The four matrices are separate 16-entry arrays, and the zoom state
        stays within its limits. */
    ghost predicate Valid()
      reads this
    {
      m4Rotate.Length == 16 && m4LookAt.Length == 16 &&
      m4Perspective.Length == 16 && vertexTransform.Length == 16 &&
      m4Rotate != m4LookAt && m4Rotate != m4Perspective && m4Rotate != vertexTransform &&
      m4LookAt != m4Perspective && m4LookAt != vertexTransform &&
      m4Perspective != vertexTransform &&
      MinScale <= scale <= MaxScale && MinDistance < distance < MaxDistance
    }

    constructor()
      ensures rotationX == -45.0 && rotationY == 0.0
      ensures distance == 350.0 && scale == ScaleFor(350.0) == 1.1875
      ensures useHeadTracker
      ensures textureCoordsArray == null && drawOrderArray == null
      ensures Valid()
    {
      rotationX, rotationY, distance := -45.0, 0.0, 350.0;
      scale := ScaleFor(350.0);
      useHeadTracker := true;
      m4Rotate := new real[16](_ => 0.0);
      m4LookAt := new real[16](_ => 0.0);
      m4Perspective := new real[16](_ => 0.0);
      vertexTransform := new real[16](_ => 0.0);
      textureCoordsArray, drawOrderArray := null, null;
      vertexBuffer, drawListBuffer := [], [];
      InitialScale();
    }

    /** `setRotation(rx, ry, rz)`: keeps the truncated remainder of `rx`,
        which is negative for negative `rx`, stores `ry` without clamping
        and ignores `rz`. */
    method SetRotation(rx: real, ry: real, rz: real)
      modifies this`rotationX, this`rotationY
      ensures rotationX == Rem360(rx) && rotationY == ry
      ensures -360.0 < rotationX < 360.0 && Whole((rx - rotationX) / 360.0)
    {
      rotationX := Rem360(rx);
      rotationY := ry;
    }

    /** `setRotationX(v)`: the one angle in [0, 360) a whole number of turns
        away from `v`. */
    method SetRotationX(v: real)
      modifies this`rotationX
      ensures 0.0 <= rotationX < 360.0
      ensures Whole((v - rotationX) / 360.0)
      ensures 0.0 <= v < 360.0 ==> rotationX == v
    {
      var r := v;
      r := Rem360(r);
      if r >= 360.0 {
        r := r - 360.0;
      }
      if r < 0.0 {
        WholeLess(v - r);
        r := r + 360.0;
      }
      rotationX := r;
    }

    /** `setRotationY(v)`: `v` limited to [-90, 90]. */
    method SetRotationY(v: real)
      modifies this`rotationY
      ensures rotationY == Clamp(v, -90.0, 90.0)
    {
      var r := v;
      r := if r <= 90.0 then r else 90.0;
      r := if r >= -90.0 then r else -90.0;
      rotationY := r;
    }

    /** `getScale()`. */
    function GetScale(): (s: real)
      reads this
      requires Valid()
      ensures MinScale <= s <= MaxScale
    {
      scale
    }

    /** `changeScale(f)`: when `f` times the current scale lies strictly
        between the limits, moves the camera to the distance that goes with
        it; the scale field itself is never written. */
    method ChangeScale(f: real)
      requires Valid()
      modifies this`distance
      ensures Valid()
      ensures MinScale < f * scale < MaxScale ==>
        distance == DistanceFor(f * scale) && Related(f * scale, distance)
      ensures !(MinScale < f * scale < MaxScale) ==> distance == old(distance)
    {
      var newScale := f * scale;
      if newScale >= MaxScale || newScale <= MinScale {
        return;
      }
      distance := DistanceFor(newScale);
    }

    /** `setScale(f)`: multiplies the scale by `f` and pulls it back into
        [1, 4]. */
    method SetScale(f: real)
      requires Valid()
      modifies this`scale
      ensures Valid()
      ensures scale == Clamp(old(scale) * f, MinScale, MaxScale)
    {
      scale := scale * f;
      if scale >= MaxScale {
        scale := MaxScale;
      } else if scale <= MinScale {
        scale := MinScale;
      }
    }

    /** The matrix work of `drawTexture`.  `pose` is what the head tracker
        returns, `lookAt(distance)` what `setLookAtM` builds for the eye at
        (0, 0, distance) looking at (0, 0, -500) with Y up, and
        `perspective` what `perspectiveM` builds for the viewport.  The
        result is perspective, then camera, then model, multiplied in that
        order. */
    method DrawTexture(trig: Trig, pose: Mat4, lookAt: real -> Mat4, perspective: Mat4)
      requires Valid()
      modifies this`m4Rotate, m4Rotate, m4LookAt, m4Perspective, vertexTransform
      ensures Valid()
      ensures m4Rotate[..] == Model(if useHeadTracker then pose else Identity, rotationX, rotationY, trig)
      ensures m4LookAt[..] == lookAt(distance) && m4Perspective[..] == perspective
      ensures vertexTransform[..] == Multiply(Multiply(perspective, lookAt(distance)), m4Rotate[..])
      ensures useHeadTracker ==> fresh(m4Rotate)
      ensures !useHeadTracker ==> m4Rotate == old(m4Rotate)
    {
      SetIdentity(vertexTransform);
      SetIdentity(m4Rotate);
      SetIdentity(m4LookAt);
      SetIdentity(m4Perspective);
      RotateModel(trig, pose);
      Load(m4LookAt, lookAt(distance));
      Load(m4Perspective, perspective);
      M4Multiply(vertexTransform, m4Perspective, m4LookAt);
      M4Multiply(vertexTransform, vertexTransform, m4Rotate);
    }

    /** The rotation step of `drawTexture`, entered with `m4Rotate` reset to
        the identity: with head tracking `m4Rotate` is replaced by a new
        array holding the pose, and the model is then rotated in place about
        X by `rotationY` and about Y by `rotationX`. */
    method RotateModel(trig: Trig, pose: Mat4)
      requires Valid()
      requires m4Rotate[..] == Identity
      modifies this`m4Rotate, m4Rotate
      ensures Valid()
      ensures m4Rotate[..] == Model(if useHeadTracker then pose else Identity, rotationX, rotationY, trig)
      ensures useHeadTracker ==> fresh(m4Rotate)
      ensures !useHeadTracker ==> m4Rotate == old(m4Rotate)
    {
      var sy, cy := trig.sin(rotationY), trig.cos(rotationY);
      var sx, cx := trig.sin(rotationX), trig.cos(rotationX);
      if useHeadTracker {
        var tracked := new real[16];
        Load(tracked, pose);
        m4Rotate := tracked;
        M4RotateX(m4Rotate, m4Rotate, sy, cy);
        M4RotateY(m4Rotate, m4Rotate, sx, cx);
      } else {
        M4RotateX(m4Rotate, m4Rotate, sy, cy);
        M4RotateY(m4Rotate, m4Rotate, sx, cx);
      }
    }

    /** `setupVertexBuffer()`: fetches the three mesh lists (building them if
        needed) and copies each, element by element, into a fresh array;
        the position and index arrays then go into the GL buffers. */
    method SetupVertexBuffer(points: Mesher)
      requires points.Valid()
      modifies points, this`textureCoordsArray, this`drawOrderArray
      modifies this`vertexBuffer, this`drawListBuffer
      ensures points.Valid() && points.initFlat
      ensures textureCoordsArray != null && fresh(textureCoordsArray)
      ensures textureCoordsArray[..] == Mesh(TexCoord, points.trig)
      ensures drawOrderArray != null && fresh(drawOrderArray)
      ensures drawOrderArray[..] == MeshIndices()
      ensures vertexBuffer == Mesh(Position, points.trig)
      ensures drawListBuffer == MeshIndices()
    {
      var textureCoords := points.UV();
      var squareCoords := points.XYZ();
      var drawOrder := points.GetIndex();
      var squareCoordsArray := CopyReals(squareCoords);
      textureCoordsArray := CopyReals(textureCoords);
      var order := CopyInts(drawOrder);
      drawOrderArray := order;
      drawListBuffer := order[..];
      vertexBuffer := squareCoordsArray[..];
    }
  }

  /** One of the float copy loops of `setupVertexBuffer`. */
  method CopyReals(src: seq<real>) returns (a: array<real>)
    ensures fresh(a)
    ensures a[..] == src
  {
    a := new real[|src|];
    for i := 0 to |src|
      invariant a[..i] == src[..i]
    {
      a[i] := src[i];
    }
    assert a[..] == a[..|src|];
  }

  /** The index copy loop of `setupVertexBuffer` (into a `ShortArray`). */
  method CopyInts(src: seq<int>) returns (a: array<int>)
    ensures fresh(a)
    ensures a[..] == src
  {
    a := new int[|src|];
    for i := 0 to |src|
      invariant a[..i] == src[..i]
    {
      a[i] := src[i];
    }
    assert a[..] == a[..|src|];
  }
}
