/**
 * The column-major 4x4 matrix helpers of `MatrixUtil`.
 *
 * Every operation of the source writes into a caller-supplied `out` array
 * that may be the very array it reads from.  Each one is modelled twice: a
 * method over `array<real>` that performs the same reads and writes in the
 * same order as the source, and a function over the 16 entries that says
 * what the result is.  Each method's postcondition ties the array it wrote
 * to the function applied to the inputs as they were on entry, so aliasing
 * between `out` and an input is covered by the proof.
 *
 * The source takes the rotation angle in radians and computes its sine and
 * cosine itself; here the sine `s` and cosine `c` are the parameters.
 */
module MatrixUtil {
  import opened Angles

  /** A 4x4 matrix as 16 entries in column-major order. */
  type Mat4 = m: seq<real> | |m| == 16 witness seq(16, _ => 0.0)

  /** A 3-component vector (the source's `vec3` arrays). */
  type Vec3 = v: seq<real> | |v| == 3 witness [0.0, 0.0, 0.0]

  /** Entry in row `r` and column `c`. */
  function At(m: Mat4, r: nat, c: nat): real
    requires r < 4 && c < 4
  {
    m[4 * c + r]
  }

  /** Row `r` of `a` times column `c` of `b`. */
  function Dot(a: Mat4, b: Mat4, r: nat, c: nat): real
    requires r < 4 && c < 4
  {
    At(b, 0, c) * At(a, r, 0) + At(b, 1, c) * At(a, r, 1)
    + At(b, 2, c) * At(a, r, 2) + At(b, 3, c) * At(a, r, 3)
  }

  /** The product `a x b` of two column-major matrices. */
  function Multiply(a: Mat4, b: Mat4): (p: Mat4)
    ensures forall r, c | 0 <= r < 4 && 0 <= c < 4 :: At(p, r, c) == Dot(a, b, r, c)
  {
    [Dot(a, b, 0, 0), Dot(a, b, 1, 0), Dot(a, b, 2, 0), Dot(a, b, 3, 0),
     Dot(a, b, 0, 1), Dot(a, b, 1, 1), Dot(a, b, 2, 1), Dot(a, b, 3, 1),
     Dot(a, b, 0, 2), Dot(a, b, 1, 2), Dot(a, b, 2, 2), Dot(a, b, 3, 2),
     Dot(a, b, 0, 3), Dot(a, b, 1, 3), Dot(a, b, 2, 3), Dot(a, b, 3, 3)]
  }

  /** The 16 entries of `m`, listed one by one. */
  lemma Entries(m: Mat4)
    ensures m == [m[0], m[1], m[2], m[3], m[4], m[5], m[6], m[7],
                  m[8], m[9], m[10], m[11], m[12], m[13], m[14], m[15]]
  {
  }

  /** Two matrices with the same 16 entries are equal. */
  lemma SameEntries(p: Mat4, q: Mat4)
    requires p[0] == q[0] && p[1] == q[1] && p[2] == q[2] && p[3] == q[3]
    requires p[4] == q[4] && p[5] == q[5] && p[6] == q[6] && p[7] == q[7]
    requires p[8] == q[8] && p[9] == q[9] && p[10] == q[10] && p[11] == q[11]
    requires p[12] == q[12] && p[13] == q[13] && p[14] == q[14] && p[15] == q[15]
    ensures p == q
  {
    Entries(p);
    Entries(q);
  }

  /** An array holding the same 16 entries as `q` holds `q`. */
  lemma ArrayHolds(m: array<real>, q: Mat4)
    requires m.Length == 16
    requires m[0] == q[0] && m[1] == q[1] && m[2] == q[2] && m[3] == q[3]
    requires m[4] == q[4] && m[5] == q[5] && m[6] == q[6] && m[7] == q[7]
    requires m[8] == q[8] && m[9] == q[9] && m[10] == q[10] && m[11] == q[11]
    requires m[12] == q[12] && m[13] == q[13] && m[14] == q[14] && m[15] == q[15]
    ensures m[..] == q
  {
    SameEntries(m[..], q);
  }

  /** The identity matrix (what Android's `Matrix.setIdentityM` writes). */
  const Identity: Mat4 := [1.0, 0.0, 0.0, 0.0,
                           0.0, 1.0, 0.0, 0.0,
                           0.0, 0.0, 1.0, 0.0,
                           0.0, 0.0, 0.0, 1.0]

  lemma IdentityAt(r: nat, c: nat)
    requires r < 4 && c < 4
    ensures At(Identity, r, c) == if r == c then 1.0 else 0.0
  {
  }

  /** `Identity x a == a`. */
  lemma MultiplyIdentityLeft(a: Mat4)
    ensures Multiply(Identity, a) == a
  {
    Entries(a);
  }

  /** `a x Identity == a`. */
  lemma MultiplyIdentityRight(a: Mat4)
    ensures Multiply(a, Identity) == a
  {
    Entries(a);
  }

  // ---------------------------------------------------------------------
  // Elementary rotations

  /** Rotation about X by the angle whose sine is `s` and cosine is `c`. */
  function RotationX(s: real, c: real): Mat4
  {
    [1.0, 0.0, 0.0, 0.0,
     0.0, c,   s,   0.0,
     0.0, -s,  c,   0.0,
     0.0, 0.0, 0.0, 1.0]
  }

  /** Rotation about Y by the angle whose sine is `s` and cosine is `c`. */
  function RotationY(s: real, c: real): Mat4
  {
    [c,   0.0, -s,  0.0,
     0.0, 1.0, 0.0, 0.0,
     s,   0.0, c,   0.0,
     0.0, 0.0, 0.0, 1.0]
  }

  /** Rotation about Z by the angle whose sine is `s` and cosine is `c`. */
  function RotationZ(s: real, c: real): Mat4
  {
    [c,   s,   0.0, 0.0,
     -s,  c,   0.0, 0.0,
     0.0, 0.0, 1.0, 0.0,
     0.0, 0.0, 0.0, 1.0]
  }

  /** What `m4RotateX` leaves in `out`: columns 1 and 2 of `a` mixed, columns
      0 and 3 copied. */
  function RotateX(a: Mat4, s: real, c: real): (r: Mat4)
    ensures r[..4] == a[..4] && r[12..] == a[12..]
  {
    [a[0], a[1], a[2], a[3],
     a[4] * c + a[8] * s, a[5] * c + a[9] * s, a[6] * c + a[10] * s, a[7] * c + a[11] * s,
     a[8] * c - a[4] * s, a[9] * c - a[5] * s, a[10] * c - a[6] * s, a[11] * c - a[7] * s,
     a[12], a[13], a[14], a[15]]
  }

  /** What `m4RotateY` leaves in `out`: columns 0 and 2 of `a` mixed, columns
      1 and 3 copied. */
  function RotateY(a: Mat4, s: real, c: real): (r: Mat4)
    ensures r[4..8] == a[4..8] && r[12..] == a[12..]
  {
    [a[0] * c - a[8] * s, a[1] * c - a[9] * s, a[2] * c - a[10] * s, a[3] * c - a[11] * s,
     a[4], a[5], a[6], a[7],
     a[0] * s + a[8] * c, a[1] * s + a[9] * c, a[2] * s + a[10] * c, a[3] * s + a[11] * c,
     a[12], a[13], a[14], a[15]]
  }

  /** What `m4RotateZ` leaves in `out`: columns 0 and 1 of `a` mixed, columns
      2 and 3 copied. */
  function RotateZ(a: Mat4, s: real, c: real): (r: Mat4)
    ensures r[8..] == a[8..]
  {
    [a[0] * c + a[4] * s, a[1] * c + a[5] * s, a[2] * c + a[6] * s, a[3] * c + a[7] * s,
     a[4] * c - a[0] * s, a[5] * c - a[1] * s, a[6] * c - a[2] * s, a[7] * c - a[3] * s,
     a[8], a[9], a[10], a[11], a[12], a[13], a[14], a[15]]
  }

  /** `m4RotateX` right-multiplies by the elementary rotation about X. */
  lemma RotateXIsProduct(a: Mat4, s: real, c: real)
    ensures RotateX(a, s, c) == Multiply(a, RotationX(s, c))
  {
    RotateXProductLow(a, s, c);
    RotateXProductHigh(a, s, c);
    SameEntries(RotateX(a, s, c), Multiply(a, RotationX(s, c)));
  }

  /** Columns 0 and 1 of `RotateXIsProduct`. */
  lemma RotateXProductLow(a: Mat4, s: real, c: real)
    ensures var p, q := RotateX(a, s, c), Multiply(a, RotationX(s, c));
      p[0] == q[0] && p[1] == q[1] && p[2] == q[2] && p[3] == q[3]
      && p[4] == q[4] && p[5] == q[5] && p[6] == q[6] && p[7] == q[7]
  {
  }

  /** Columns 2 and 3 of `RotateXIsProduct`. */
  lemma RotateXProductHigh(a: Mat4, s: real, c: real)
    ensures var p, q := RotateX(a, s, c), Multiply(a, RotationX(s, c));
      p[8] == q[8] && p[9] == q[9] && p[10] == q[10] && p[11] == q[11]
      && p[12] == q[12] && p[13] == q[13] && p[14] == q[14] && p[15] == q[15]
  {
  }

  /** `m4RotateY` right-multiplies by the elementary rotation about Y. */
  lemma RotateYIsProduct(a: Mat4, s: real, c: real)
    ensures RotateY(a, s, c) == Multiply(a, RotationY(s, c))
  {
    RotateYProductLow(a, s, c);
    RotateYProductHigh(a, s, c);
    SameEntries(RotateY(a, s, c), Multiply(a, RotationY(s, c)));
  }

  /** Columns 0 and 1 of `RotateYIsProduct`. */
  lemma RotateYProductLow(a: Mat4, s: real, c: real)
    ensures var p, q := RotateY(a, s, c), Multiply(a, RotationY(s, c));
      p[0] == q[0] && p[1] == q[1] && p[2] == q[2] && p[3] == q[3]
      && p[4] == q[4] && p[5] == q[5] && p[6] == q[6] && p[7] == q[7]
  {
  }

  /** Columns 2 and 3 of `RotateYIsProduct`. */
  lemma RotateYProductHigh(a: Mat4, s: real, c: real)
    ensures var p, q := RotateY(a, s, c), Multiply(a, RotationY(s, c));
      p[8] == q[8] && p[9] == q[9] && p[10] == q[10] && p[11] == q[11]
      && p[12] == q[12] && p[13] == q[13] && p[14] == q[14] && p[15] == q[15]
  {
  }

  /** `m4RotateZ` right-multiplies by the elementary rotation about Z. */
  lemma RotateZIsProduct(a: Mat4, s: real, c: real)
    ensures RotateZ(a, s, c) == Multiply(a, RotationZ(s, c))
  {
    RotateZProductEven(a, s, c);
    RotateZProductOdd(a, s, c);
    SameEntries(RotateZ(a, s, c), Multiply(a, RotationZ(s, c)));
  }

  /** Columns 0 and 2 of `RotateZIsProduct`. */
  lemma RotateZProductEven(a: Mat4, s: real, c: real)
    ensures var p, q := RotateZ(a, s, c), Multiply(a, RotationZ(s, c));
      p[0] == q[0] && p[1] == q[1] && p[2] == q[2] && p[3] == q[3]
      && p[8] == q[8] && p[9] == q[9] && p[10] == q[10] && p[11] == q[11]
  {
  }

  /** Columns 1 and 3 of `RotateZIsProduct`. */
  lemma RotateZProductOdd(a: Mat4, s: real, c: real)
    ensures var p, q := RotateZ(a, s, c), Multiply(a, RotationZ(s, c));
      p[4] == q[4] && p[5] == q[5] && p[6] == q[6] && p[7] == q[7]
      && p[12] == q[12] && p[13] == q[13] && p[14] == q[14] && p[15] == q[15]
  {
  }

  /** Mixing a pair `(x, y)` into `(u, v)` by an angle and then mixing
      `(u, v)` by the opposite angle gives `(x, y)` back, once
      `s*s + c*c == 1`. */
  lemma UnitCircle(x: real, y: real, u: real, v: real, s: real, c: real)
    requires s * s + c * c == 1.0
    requires u == x * c + y * s && v == y * c - x * s
    ensures u * c + v * (-s) == x
    ensures v * c - u * (-s) == y
  {
    assert u * c + v * (-s) == x * (s * s + c * c);
    assert v * c - u * (-s) == y * (s * s + c * c);
  }

  /** Rotating about X by an angle and then by its opposite gives `a` back
      (the opposite angle has sine `-s` and the same cosine). */
  lemma RotateXInverse(a: Mat4, s: real, c: real)
    requires s * s + c * c == 1.0
    ensures RotateX(RotateX(a, s, c), -s, c) == a
  {
    RotateXInverseTop(a, s, c);
    RotateXInverseBottom(a, s, c);
    SameEntries(RotateX(RotateX(a, s, c), -s, c), a);
  }

  /** Rows 0 and 1 of columns 1 and 2 of `RotateXInverse`, the columns
      the rotation mixes. */
  lemma RotateXInverseTop(a: Mat4, s: real, c: real)
    requires s * s + c * c == 1.0
    ensures var b := RotateX(RotateX(a, s, c), -s, c);
      b[4] == a[4] && b[5] == a[5] && b[8] == a[8] && b[9] == a[9]
  {
    var m := RotateX(a, s, c);
    UnitCircle(a[4], a[8], m[4], m[8], s, c);
    UnitCircle(a[5], a[9], m[5], m[9], s, c);
  }

  /** Rows 2 and 3 of columns 1 and 2 of `RotateXInverse`. */
  lemma RotateXInverseBottom(a: Mat4, s: real, c: real)
    requires s * s + c * c == 1.0
    ensures var b := RotateX(RotateX(a, s, c), -s, c);
      b[6] == a[6] && b[7] == a[7] && b[10] == a[10] && b[11] == a[11]
  {
    var m := RotateX(a, s, c);
    UnitCircle(a[6], a[10], m[6], m[10], s, c);
    UnitCircle(a[7], a[11], m[7], m[11], s, c);
  }

  /** Rotating about Y by an angle and then by its opposite gives `a` back. */
  lemma RotateYInverse(a: Mat4, s: real, c: real)
    requires s * s + c * c == 1.0
    ensures RotateY(RotateY(a, s, c), -s, c) == a
  {
    RotateYInverseTop(a, s, c);
    RotateYInverseBottom(a, s, c);
    SameEntries(RotateY(RotateY(a, s, c), -s, c), a);
  }

  /** Rows 0 and 1 of columns 0 and 2 of `RotateYInverse`, the columns
      the rotation mixes. */
  lemma RotateYInverseTop(a: Mat4, s: real, c: real)
    requires s * s + c * c == 1.0
    ensures var b := RotateY(RotateY(a, s, c), -s, c);
      b[0] == a[0] && b[1] == a[1] && b[8] == a[8] && b[9] == a[9]
  {
    var m := RotateY(a, s, c);
    UnitCircle(a[8], a[0], m[8], m[0], s, c);
    UnitCircle(a[9], a[1], m[9], m[1], s, c);
  }

  /** Rows 2 and 3 of columns 0 and 2 of `RotateYInverse`. */
  lemma RotateYInverseBottom(a: Mat4, s: real, c: real)
    requires s * s + c * c == 1.0
    ensures var b := RotateY(RotateY(a, s, c), -s, c);
      b[2] == a[2] && b[3] == a[3] && b[10] == a[10] && b[11] == a[11]
  {
    var m := RotateY(a, s, c);
    UnitCircle(a[10], a[2], m[10], m[2], s, c);
    UnitCircle(a[11], a[3], m[11], m[3], s, c);
  }

  /** Rotating about Z by an angle and then by its opposite gives `a` back. */
  lemma RotateZInverse(a: Mat4, s: real, c: real)
    requires s * s + c * c == 1.0
    ensures RotateZ(RotateZ(a, s, c), -s, c) == a
  {
    RotateZInverseTop(a, s, c);
    RotateZInverseBottom(a, s, c);
    SameEntries(RotateZ(RotateZ(a, s, c), -s, c), a);
  }

  /** Rows 0 and 1 of columns 0 and 1 of `RotateZInverse`, the columns
      the rotation mixes. */
  lemma RotateZInverseTop(a: Mat4, s: real, c: real)
    requires s * s + c * c == 1.0
    ensures var b := RotateZ(RotateZ(a, s, c), -s, c);
      b[0] == a[0] && b[1] == a[1] && b[4] == a[4] && b[5] == a[5]
  {
    var m := RotateZ(a, s, c);
    UnitCircle(a[0], a[4], m[0], m[4], s, c);
    UnitCircle(a[1], a[5], m[1], m[5], s, c);
  }

  /** Rows 2 and 3 of columns 0 and 1 of `RotateZInverse`. */
  lemma RotateZInverseBottom(a: Mat4, s: real, c: real)
    requires s * s + c * c == 1.0
    ensures var b := RotateZ(RotateZ(a, s, c), -s, c);
      b[2] == a[2] && b[3] == a[3] && b[6] == a[6] && b[7] == a[7]
  {
    var m := RotateZ(a, s, c);
    UnitCircle(a[2], a[6], m[2], m[6], s, c);
    UnitCircle(a[3], a[7], m[3], m[7], s, c);
  }

  // ---------------------------------------------------------------------
  // The look-at construction

  /** The dot product of two vectors. */
  function Dot3(u: Vec3, v: Vec3): real
  {
    u[0] * v[0] + u[1] * v[1] + u[2] * v[2]
  }

  /** `u - v`, component by component. */
  function Minus(u: Vec3, v: Vec3): (w: Vec3)
    ensures w == [0.0, 0.0, 0.0] <==> u == v
  {
    [u[0] - v[0], u[1] - v[1], u[2] - v[2]]
  }

  /** `v` with every component multiplied by `k`. */
  function Scale(v: Vec3, k: real): (w: Vec3)
    ensures forall u: Vec3 :: Dot3(w, u) == k * Dot3(v, u)
  {
    [v[0] * k, v[1] * k, v[2] * k]
  }

  /** The cross product `u x v`; it is orthogonal to both factors. */
  function Cross(u: Vec3, v: Vec3): (w: Vec3)
    ensures Dot3(w, u) == 0.0 && Dot3(w, v) == 0.0
  {
    [u[1] * v[2] - u[2] * v[1], u[2] * v[0] - u[0] * v[2], u[0] * v[1] - u[1] * v[0]]
  }

  /** A vector other than zero has a positive squared length. */
  lemma SquaredLengthPositive(v: Vec3)
    requires v != [0.0, 0.0, 0.0]
    ensures Dot3(v, v) > 0.0
  {
    assert v[0] != 0.0 || v[1] != 0.0 || v[2] != 0.0 by { assert v == [v[0], v[1], v[2]]; }
    SumOfSquares(v);
  }

  /** `v` divided by its length, or the zero vector when that length is 0
      (how the source treats the `x` and `y` axes). */
  function NormalizedOrZero(v: Vec3, sqrt: real -> real): (w: Vec3)
    ensures forall u: Vec3 :: Dot3(v, u) == 0.0 ==> Dot3(w, u) == 0.0
  {
    var len := sqrt(Dot3(v, v));
    if len == 0.0 then [0.0, 0.0, 0.0] else Scale(v, 1.0 / len)
  }

  /** The squared length of `v` as a sum of three squares. */
  lemma SumOfSquares(v: Vec3)
    ensures Dot3(v, v) == Times(v[0], v[0]) + Times(v[1], v[1]) + Times(v[2], v[2])
    ensures Dot3(v, v) >= 0.0
    ensures v[0] != 0.0 || v[1] != 0.0 || v[2] != 0.0 ==> Dot3(v, v) > 0.0
  {
    TimesSelf(v[0]);
    TimesSelf(v[1]);
    TimesSelf(v[2]);
  }

  /** The three axes of the camera frame, as rows of the view matrix. */
  datatype Frame = Frame(x: Vec3, y: Vec3, z: Vec3)

  /** The camera frame `m4LookAt` builds when `eye != center`: `z` points
      from `center` to `eye` with unit length, `x = up x z` and `y = z x x`,
      each divided by its length unless that length is 0. */
  function LookAtFrame(eye: Vec3, center: Vec3, up: Vec3, sqrt: real -> real): (f: Frame)
    requires PositiveOnPositive(sqrt)
    requires eye != center
    ensures Dot3(f.x, f.z) == 0.0 && Dot3(f.y, f.z) == 0.0 && Dot3(f.y, f.x) == 0.0
  {
    var d := Minus(eye, center);
    SquaredLengthPositive(d);
    var z := Scale(d, 1.0 / sqrt(Dot3(d, d)));
    var x := NormalizedOrZero(Cross(up, z), sqrt);
    var y := NormalizedOrZero(Cross(z, x), sqrt);
    Frame(x, y, z)
  }

  /** Row `r` (0, 1 or 2) of the upper-left 3x3 block of `m`. */
  function Row3(m: Mat4, r: nat): Vec3
    requires r < 3
  {
    [m[r], m[4 + r], m[8 + r]]
  }

  /** `m` applied to the point `p` (homogeneous coordinate 1), coordinate
      `r`. */
  function ApplyToPoint(m: Mat4, p: Vec3, r: nat): real
    requires r < 4
  {
    m[r] * p[0] + m[4 + r] * p[1] + m[8 + r] * p[2] + m[12 + r]
  }

  /** What `m4LookAt(out, eye, center, up)` leaves in `out`. */
  function LookAt(eye: Vec3, center: Vec3, up: Vec3, sqrt: real -> real): (m: Mat4)
    requires PositiveOnPositive(sqrt)
    ensures m[3] == 0.0 && m[7] == 0.0 && m[11] == 0.0 && m[15] == 1.0
    ensures eye != center ==>
      var f := LookAtFrame(eye, center, up, sqrt);
      Row3(m, 0) == f.x && Row3(m, 1) == f.y && Row3(m, 2) == f.z
    ensures eye != center ==>
      m[12] == -Dot3(Row3(m, 0), eye) && m[13] == -Dot3(Row3(m, 1), eye)
      && m[14] == -Dot3(Row3(m, 2), eye)
  {
    if eye == center then Identity
    else
      var f := LookAtFrame(eye, center, up, sqrt);
      var x, y, z := f.x, f.y, f.z;
      var m := [x[0], y[0], z[0], 0.0,
                x[1], y[1], z[1], 0.0,
                x[2], y[2], z[2], 0.0,
                -Dot3(x, eye), -Dot3(y, eye), -Dot3(z, eye), 1.0];
      assert Row3(m, 0) == x && Row3(m, 1) == y && Row3(m, 2) == z;
      m
  }

  /** When the eye and the centre coincide the source gives up and returns
      the identity. */
  lemma LookAtCoincident(eye: Vec3, up: Vec3, sqrt: real -> real)
    requires PositiveOnPositive(sqrt)
    ensures LookAt(eye, eye, up, sqrt) == Identity
  {
  }

  /** The rows of the rotation block are pairwise orthogonal. */
  lemma LookAtOrthogonal(eye: Vec3, center: Vec3, up: Vec3, sqrt: real -> real)
    requires PositiveOnPositive(sqrt)
    requires eye != center
    ensures var m := LookAt(eye, center, up, sqrt);
      Dot3(Row3(m, 0), Row3(m, 2)) == 0.0 && Dot3(Row3(m, 1), Row3(m, 2)) == 0.0
      && Dot3(Row3(m, 0), Row3(m, 1)) == 0.0
  {
    var f := LookAtFrame(eye, center, up, sqrt);
    assert Dot3(f.x, f.y) == Dot3(f.y, f.x);
  }

  /** The view matrix takes the eye to the origin. */
  lemma LookAtEyeToOrigin(eye: Vec3, center: Vec3, up: Vec3, sqrt: real -> real)
    requires PositiveOnPositive(sqrt)
    requires eye != center
    ensures var m := LookAt(eye, center, up, sqrt);
      ApplyToPoint(m, eye, 0) == 0.0 && ApplyToPoint(m, eye, 1) == 0.0
      && ApplyToPoint(m, eye, 2) == 0.0 && ApplyToPoint(m, eye, 3) == 1.0
  {
    var m := LookAt(eye, center, up, sqrt);
    assert Minus(eye, eye) == [0.0, 0.0, 0.0];
    ApplyRelative(m, eye, eye, 0);
    ApplyRelative(m, eye, eye, 1);
    ApplyRelative(m, eye, eye, 2);
  }

  /** Under a true square root, a vector other than zero normalizes to unit
      length. */
  lemma NormalizedIsUnit(v: Vec3, sqrt: real -> real)
    requires IsSqrt(sqrt)
    requires v != [0.0, 0.0, 0.0]
    ensures Dot3(NormalizedOrZero(v, sqrt), NormalizedOrZero(v, sqrt)) == 1.0
  {
    SquaredLengthPositive(v);
    SqrtIsPositiveOnPositive(sqrt);
    var len := sqrt(Dot3(v, v));
    assert len * len == Dot3(v, v);
    var w := Scale(v, 1.0 / len);
    assert Dot3(w, w) == (1.0 / len) * Dot3(v, w);
    assert Dot3(v, w) == Dot3(w, v) == (1.0 / len) * Dot3(v, v);
    assert (1.0 / len) * ((1.0 / len) * (len * len)) == 1.0;
  }

  /** The view direction: `z` has unit length. */
  lemma LookAtUnitZ(eye: Vec3, center: Vec3, up: Vec3, sqrt: real -> real)
    requires IsSqrt(sqrt)
    requires eye != center
    ensures PositiveOnPositive(sqrt)
    ensures var m := LookAt(eye, center, up, sqrt);
      Dot3(Row3(m, 2), Row3(m, 2)) == 1.0
  {
    SqrtIsPositiveOnPositive(sqrt);
    var d := Minus(eye, center);
    NormalizedIsUnit(d, sqrt);
  }

  /** A vector orthogonal to `Scale(v, k)` with `k != 0` is orthogonal to
      `v`. */
  lemma OrthogonalToScaled(w: Vec3, v: Vec3, k: real)
    requires k != 0.0
    requires Dot3(Scale(v, k), w) == 0.0
    ensures Dot3(v, w) == 0.0
  {
    assert k * Dot3(v, w) == 0.0;
  }

  /** The dot product is symmetric. */
  lemma DotSymmetric(u: Vec3, v: Vec3)
    ensures Dot3(u, v) == Dot3(v, u)
  {
  }

  /** The dot product distributes over a difference. */
  lemma DotMinus(w: Vec3, p: Vec3, q: Vec3)
    ensures Dot3(w, Minus(p, q)) == Dot3(w, p) - Dot3(w, q)
  {
  }

  /** When the translation column of `m` is minus its rotation block
      applied to `q`, coordinate `r` of `m` applied to `p` is row `r` of the
      block applied to `p - q`. */
  lemma ApplyRelative(m: Mat4, q: Vec3, p: Vec3, r: nat)
    requires r < 3
    requires m[12 + r] == -Dot3(Row3(m, r), q)
    ensures ApplyToPoint(m, p, r) == Dot3(Row3(m, r), Minus(p, q))
  {
    DotMinus(Row3(m, r), p, q);
  }

  /** `x` and `y` are orthogonal to the direction from the centre to the
      eye, and `z` is that direction divided by its length. */
  lemma FrameAgainstDirection(eye: Vec3, center: Vec3, up: Vec3, sqrt: real -> real)
    requires PositiveOnPositive(sqrt)
    requires eye != center
    ensures var d := Minus(eye, center); Dot3(d, d) > 0.0 && sqrt(Dot3(d, d)) > 0.0
    ensures var f, d := LookAtFrame(eye, center, up, sqrt), Minus(eye, center);
      Dot3(f.x, d) == 0.0 && Dot3(f.y, d) == 0.0
      && Dot3(f.z, d) == Dot3(d, d) / sqrt(Dot3(d, d))
  {
    var f, d := LookAtFrame(eye, center, up, sqrt), Minus(eye, center);
    SquaredLengthPositive(d);
    var k := 1.0 / sqrt(Dot3(d, d));
    assert f.z == Scale(d, k);
    DotSymmetric(f.x, f.z);
    DotSymmetric(f.y, f.z);
    OrthogonalToScaled(f.x, d, k);
    OrthogonalToScaled(f.y, d, k);
    DotSymmetric(f.z, d);
  }

  /** Under a true square root, `v . v / sqrt(v . v)` is `sqrt(v . v)`. */
  lemma SquareOverRoot(v: Vec3, sqrt: real -> real)
    requires IsSqrt(sqrt)
    requires v != [0.0, 0.0, 0.0]
    ensures sqrt(Dot3(v, v)) > 0.0
    ensures Dot3(v, v) / sqrt(Dot3(v, v)) == sqrt(Dot3(v, v))
  {
    SquaredLengthPositive(v);
    SqrtIsPositiveOnPositive(sqrt);
    var len := sqrt(Dot3(v, v));
    assert len * len == Dot3(v, v);
  }

  /** The view matrix applied to the centre is minus the frame applied to
      `eye - center`. */
  lemma LookAtAtCenter(eye: Vec3, center: Vec3, up: Vec3, sqrt: real -> real)
    requires PositiveOnPositive(sqrt)
    requires eye != center
    ensures var m, d := LookAt(eye, center, up, sqrt), Minus(eye, center);
      ApplyToPoint(m, center, 0) == -Dot3(Row3(m, 0), d)
      && ApplyToPoint(m, center, 1) == -Dot3(Row3(m, 1), d)
      && ApplyToPoint(m, center, 2) == -Dot3(Row3(m, 2), d)
  {
    var m, d := LookAt(eye, center, up, sqrt), Minus(eye, center);
    var back := Minus(center, eye);
    assert back == Scale(d, -1.0);
    ApplyRelative(m, eye, center, 0);
    ApplyRelative(m, eye, center, 1);
    ApplyRelative(m, eye, center, 2);
    DotSymmetric(Row3(m, 0), back);
    DotSymmetric(Row3(m, 1), back);
    DotSymmetric(Row3(m, 2), back);
    DotSymmetric(Row3(m, 0), d);
    DotSymmetric(Row3(m, 1), d);
    DotSymmetric(Row3(m, 2), d);
  }

  /** The centre lies straight ahead: the view matrix takes it onto the
      negative `z` axis, at the distance between the eye and the centre. */
  lemma LookAtCenterAhead(eye: Vec3, center: Vec3, up: Vec3, sqrt: real -> real)
    requires IsSqrt(sqrt)
    requires eye != center
    ensures PositiveOnPositive(sqrt)
    ensures var m, d := LookAt(eye, center, up, sqrt), Minus(eye, center);
      ApplyToPoint(m, center, 0) == 0.0 && ApplyToPoint(m, center, 1) == 0.0
      && ApplyToPoint(m, center, 2) == -sqrt(Dot3(d, d))
  {
    SqrtIsPositiveOnPositive(sqrt);
    var m, d := LookAt(eye, center, up, sqrt), Minus(eye, center);
    var f := LookAtFrame(eye, center, up, sqrt);
    assert Row3(m, 0) == f.x && Row3(m, 1) == f.y && Row3(m, 2) == f.z;
    LookAtAtCenter(eye, center, up, sqrt);
    FrameAgainstDirection(eye, center, up, sqrt);
    SquareOverRoot(d, sqrt);
    assert ApplyToPoint(m, center, 2) == -(Dot3(d, d) / sqrt(Dot3(d, d)));
  }

  /** Lagrange's identity: `|u x v|^2 == |u|^2 |v|^2 - (u . v)^2`. */
  lemma Lagrange(u: Vec3, v: Vec3)
    ensures Dot3(Cross(u, v), Cross(u, v)) == Dot3(u, u) * Dot3(v, v) - Dot3(u, v) * Dot3(u, v)
  {
  }

  /** Under a true square root the zero vector normalizes to itself. */
  lemma NormalizedZero(sqrt: real -> real)
    requires IsSqrt(sqrt)
    ensures NormalizedOrZero([0.0, 0.0, 0.0], sqrt) == [0.0, 0.0, 0.0]
  {
    var z: Vec3 := [0.0, 0.0, 0.0];
    assert Dot3(z, z) == 0.0;
    TimesSelf(sqrt(0.0));
  }

  /** When `up` is not parallel to the viewing direction, the three rows of
      the rotation block have unit length, so with `LookAtOrthogonal` they
      form an orthonormal basis. */
  lemma LookAtOrthonormal(eye: Vec3, center: Vec3, up: Vec3, sqrt: real -> real)
    requires IsSqrt(sqrt)
    requires eye != center
    ensures PositiveOnPositive(sqrt)
    ensures Cross(up, LookAtFrame(eye, center, up, sqrt).z) != [0.0, 0.0, 0.0] ==>
      var m := LookAt(eye, center, up, sqrt);
      Dot3(Row3(m, 0), Row3(m, 0)) == 1.0 && Dot3(Row3(m, 1), Row3(m, 1)) == 1.0
      && Dot3(Row3(m, 2), Row3(m, 2)) == 1.0
  {
    SqrtIsPositiveOnPositive(sqrt);
    var f := LookAtFrame(eye, center, up, sqrt);
    if Cross(up, f.z) != [0.0, 0.0, 0.0] {
      LookAtUnitZ(eye, center, up, sqrt);
      NormalizedIsUnit(Cross(up, f.z), sqrt);
      CrossOfOrthonormal(f.z, f.x, sqrt);
    }
  }

  /** The cross product of two orthogonal unit vectors normalizes to a unit
      vector. */
  lemma CrossOfOrthonormal(z: Vec3, x: Vec3, sqrt: real -> real)
    requires IsSqrt(sqrt)
    requires Dot3(z, z) == 1.0 && Dot3(x, x) == 1.0 && Dot3(x, z) == 0.0
    ensures Dot3(NormalizedOrZero(Cross(z, x), sqrt), NormalizedOrZero(Cross(z, x), sqrt)) == 1.0
  {
    var c := Cross(z, x);
    Lagrange(z, x);
    DotSymmetric(z, x);
    assert Dot3(c, c) == 1.0;
    assert c != [0.0, 0.0, 0.0];
    NormalizedIsUnit(c, sqrt);
  }

  /** When `up` is parallel to the viewing direction, the `x` and `y` rows
      collapse to zero (the source's `len == 0` branches). */
  lemma LookAtDegenerate(eye: Vec3, center: Vec3, up: Vec3, sqrt: real -> real)
    requires IsSqrt(sqrt)
    requires eye != center
    ensures PositiveOnPositive(sqrt)
    ensures Cross(up, LookAtFrame(eye, center, up, sqrt).z) == [0.0, 0.0, 0.0] ==>
      var m := LookAt(eye, center, up, sqrt);
      Row3(m, 0) == [0.0, 0.0, 0.0] && Row3(m, 1) == [0.0, 0.0, 0.0]
  {
    SqrtIsPositiveOnPositive(sqrt);
    var f := LookAtFrame(eye, center, up, sqrt);
    if Cross(up, f.z) == [0.0, 0.0, 0.0] {
      NormalizedZero(sqrt);
      assert f.x == [0.0, 0.0, 0.0];
      assert Cross(f.z, f.x) == [0.0, 0.0, 0.0];
    }
  }

  // ---------------------------------------------------------------------
  // Entry lemmas used by the in-place operations.  Each names one entry of a
  // specification function in terms of values the method has cached, so the
  // method's own proof needs no arithmetic.

  /** Entry `(r, c)` of `a x b`, from row `r` of `a` and column `c` of `b`. */
  lemma DotFrom(a: Mat4, b: Mat4, r: nat, c: nat,
                x0: real, x1: real, x2: real, x3: real,
                y0: real, y1: real, y2: real, y3: real)
    requires r < 4 && c < 4
    requires x0 == At(a, r, 0) && x1 == At(a, r, 1) && x2 == At(a, r, 2) && x3 == At(a, r, 3)
    requires y0 == At(b, 0, c) && y1 == At(b, 1, c) && y2 == At(b, 2, c) && y3 == At(b, 3, c)
    ensures y0 * x0 + y1 * x1 + y2 * x2 + y3 * x3 == Dot(a, b, r, c)
  {
  }

  /** Entries 4..11 of `RotateX(a, s, c)` from the cached columns 1 and 2. */
  lemma RotateXFrom(a: Mat4, s: real, c: real,
                    a10: real, a11: real, a12: real, a13: real,
                    a20: real, a21: real, a22: real, a23: real)
    requires a10 == a[4] && a11 == a[5] && a12 == a[6] && a13 == a[7]
    requires a20 == a[8] && a21 == a[9] && a22 == a[10] && a23 == a[11]
    ensures RotateX(a, s, c)[4] == a10 * c + a20 * s && RotateX(a, s, c)[5] == a11 * c + a21 * s
    ensures RotateX(a, s, c)[6] == a12 * c + a22 * s && RotateX(a, s, c)[7] == a13 * c + a23 * s
    ensures RotateX(a, s, c)[8] == a20 * c - a10 * s && RotateX(a, s, c)[9] == a21 * c - a11 * s
    ensures RotateX(a, s, c)[10] == a22 * c - a12 * s && RotateX(a, s, c)[11] == a23 * c - a13 * s
  {
    var r := RotateX(a, s, c);
    assert r[4] == a[4] * c + a[8] * s && r[5] == a[5] * c + a[9] * s;
    assert r[6] == a[6] * c + a[10] * s && r[7] == a[7] * c + a[11] * s;
    assert r[8] == a[8] * c - a[4] * s && r[9] == a[9] * c - a[5] * s;
    assert r[10] == a[10] * c - a[6] * s && r[11] == a[11] * c - a[7] * s;
  }

  /** Entries 0..3 and 8..11 of `RotateY(a, s, c)` from the cached columns 0
      and 2. */
  lemma RotateYFrom(a: Mat4, s: real, c: real,
                    a00: real, a01: real, a02: real, a03: real,
                    a20: real, a21: real, a22: real, a23: real)
    requires a00 == a[0] && a01 == a[1] && a02 == a[2] && a03 == a[3]
    requires a20 == a[8] && a21 == a[9] && a22 == a[10] && a23 == a[11]
    ensures RotateY(a, s, c)[0] == a00 * c - a20 * s && RotateY(a, s, c)[1] == a01 * c - a21 * s
    ensures RotateY(a, s, c)[2] == a02 * c - a22 * s && RotateY(a, s, c)[3] == a03 * c - a23 * s
    ensures RotateY(a, s, c)[8] == a00 * s + a20 * c && RotateY(a, s, c)[9] == a01 * s + a21 * c
    ensures RotateY(a, s, c)[10] == a02 * s + a22 * c && RotateY(a, s, c)[11] == a03 * s + a23 * c
  {
    var r := RotateY(a, s, c);
    assert r[0] == a[0] * c - a[8] * s && r[1] == a[1] * c - a[9] * s;
    assert r[2] == a[2] * c - a[10] * s && r[3] == a[3] * c - a[11] * s;
    assert r[8] == a[0] * s + a[8] * c && r[9] == a[1] * s + a[9] * c;
    assert r[10] == a[2] * s + a[10] * c && r[11] == a[3] * s + a[11] * c;
  }

  /** Entries 0..7 of `RotateZ(a, s, c)` from the cached columns 0 and 1. */
  lemma RotateZFrom(a: Mat4, s: real, c: real,
                    a00: real, a01: real, a02: real, a03: real,
                    a10: real, a11: real, a12: real, a13: real)
    requires a00 == a[0] && a01 == a[1] && a02 == a[2] && a03 == a[3]
    requires a10 == a[4] && a11 == a[5] && a12 == a[6] && a13 == a[7]
    ensures RotateZ(a, s, c)[0] == a00 * c + a10 * s && RotateZ(a, s, c)[1] == a01 * c + a11 * s
    ensures RotateZ(a, s, c)[2] == a02 * c + a12 * s && RotateZ(a, s, c)[3] == a03 * c + a13 * s
    ensures RotateZ(a, s, c)[4] == a10 * c - a00 * s && RotateZ(a, s, c)[5] == a11 * c - a01 * s
    ensures RotateZ(a, s, c)[6] == a12 * c - a02 * s && RotateZ(a, s, c)[7] == a13 * c - a03 * s
  {
    var r := RotateZ(a, s, c);
    assert r[0] == a[0] * c + a[4] * s && r[1] == a[1] * c + a[5] * s;
    assert r[2] == a[2] * c + a[6] * s && r[3] == a[3] * c + a[7] * s;
    assert r[4] == a[4] * c - a[0] * s && r[5] == a[5] * c - a[1] * s;
    assert r[6] == a[6] * c - a[2] * s && r[7] == a[7] * c - a[3] * s;
  }

  // ---------------------------------------------------------------------
  // The in-place operations

  /** Android's `Matrix.setIdentityM(m, 0)`. */
  method SetIdentity(m: array<real>)
    requires m.Length == 16
    modifies m
    ensures m[..] == Identity
  {
    forall k | 0 <= k < 16 {
      m[k] := Identity[k];
    }
  }

  /** Writes `v0..v3` into column `j` of `out` (entries `4j .. 4j+3`) and
      leaves the other twelve entries alone.  The source writes one column's
      four entries in a row; this is that group of writes. */
  method SetColumn(out: array<real>, j: nat, v0: real, v1: real, v2: real, v3: real)
    requires out.Length == 16 && j < 4
    modifies out
    ensures out[4 * j] == v0 && out[4 * j + 1] == v1 && out[4 * j + 2] == v2 && out[4 * j + 3] == v3
    ensures forall k | 0 <= k < 16 && (k < 4 * j || 4 * j + 4 <= k) :: out[k] == old(out[k])
  {
    out[4 * j], out[4 * j + 1], out[4 * j + 2], out[4 * j + 3] := v0, v1, v2, v3;
  }

  /** `m4RotateX(out, a, rad)` with `s = sin(rad)`, `c = cos(rad)`; `out` may
      be `a`.  Columns 0 and 3 are copied only when the contents differ. */
  method M4RotateX(out: array<real>, a: array<real>, s: real, c: real)
    requires out.Length == 16 && a.Length == 16
    modifies out
    ensures out[..] == RotateX(old(a[..]), s, c)
  {
    ghost var A := a[..];
    var a10, a11, a12, a13 := a[4], a[5], a[6], a[7];
    var a20, a21, a22, a23 := a[8], a[9], a[10], a[11];
    if a[..] != out[..] {
      SetColumn(out, 0, a[0], a[1], a[2], a[3]);
      SetColumn(out, 3, a[12], a[13], a[14], a[15]);
    }
    assert out[0] == A[0] && out[1] == A[1] && out[2] == A[2] && out[3] == A[3];
    assert out[12] == A[12] && out[13] == A[13] && out[14] == A[14] && out[15] == A[15];
    SetColumn(out, 1,
      a10 * c + a20 * s,
      a11 * c + a21 * s,
      a12 * c + a22 * s,
      a13 * c + a23 * s);
    SetColumn(out, 2,
      a20 * c - a10 * s,
      a21 * c - a11 * s,
      a22 * c - a12 * s,
      a23 * c - a13 * s);
    RotateXFrom(A, s, c, a10, a11, a12, a13, a20, a21, a22, a23);
    ArrayHolds(out, RotateX(A, s, c));
  }

  /** `m4RotateY(out, a, rad)` with `s = sin(rad)`, `c = cos(rad)`; `out` may
      be `a`.  Columns 1 and 3 are copied only when the contents differ. */
  method M4RotateY(out: array<real>, a: array<real>, s: real, c: real)
    requires out.Length == 16 && a.Length == 16
    modifies out
    ensures out[..] == RotateY(old(a[..]), s, c)
  {
    ghost var A := a[..];
    var a00, a01, a02, a03 := a[0], a[1], a[2], a[3];
    var a20, a21, a22, a23 := a[8], a[9], a[10], a[11];
    if a[..] != out[..] {
      SetColumn(out, 1, a[4], a[5], a[6], a[7]);
      SetColumn(out, 3, a[12], a[13], a[14], a[15]);
    }
    assert out[4] == A[4] && out[5] == A[5] && out[6] == A[6] && out[7] == A[7];
    assert out[12] == A[12] && out[13] == A[13] && out[14] == A[14] && out[15] == A[15];
    SetColumn(out, 0,
      a00 * c - a20 * s,
      a01 * c - a21 * s,
      a02 * c - a22 * s,
      a03 * c - a23 * s);
    SetColumn(out, 2,
      a00 * s + a20 * c,
      a01 * s + a21 * c,
      a02 * s + a22 * c,
      a03 * s + a23 * c);
    RotateYFrom(A, s, c, a00, a01, a02, a03, a20, a21, a22, a23);
    ArrayHolds(out, RotateY(A, s, c));
  }

  /** `m4RotateZ(out, a, rad)` with `s = sin(rad)`, `c = cos(rad)`; `out` may
      be `a`.  Columns 2 and 3 are copied only when the contents differ. */
  method M4RotateZ(out: array<real>, a: array<real>, s: real, c: real)
    requires out.Length == 16 && a.Length == 16
    modifies out
    ensures out[..] == RotateZ(old(a[..]), s, c)
  {
    ghost var A := a[..];
    var a00, a01, a02, a03 := a[0], a[1], a[2], a[3];
    var a10, a11, a12, a13 := a[4], a[5], a[6], a[7];
    if a[..] != out[..] {
      SetColumn(out, 2, a[8], a[9], a[10], a[11]);
      SetColumn(out, 3, a[12], a[13], a[14], a[15]);
    }
    assert out[8] == A[8] && out[9] == A[9] && out[10] == A[10] && out[11] == A[11];
    assert out[12] == A[12] && out[13] == A[13] && out[14] == A[14] && out[15] == A[15];
    SetColumn(out, 0,
      a00 * c + a10 * s,
      a01 * c + a11 * s,
      a02 * c + a12 * s,
      a03 * c + a13 * s);
    SetColumn(out, 1,
      a10 * c - a00 * s,
      a11 * c - a01 * s,
      a12 * c - a02 * s,
      a13 * c - a03 * s);
    RotateZFrom(A, s, c, a00, a01, a02, a03, a10, a11, a12, a13);
    ArrayHolds(out, RotateZ(A, s, c));
  }

  /** `m4Multiply(out, a, b)`: `out := a x b`, where `out` may be `a` or `b`.
      All of `a` is read first; each column of `b` is read just before the
      same column of `out` is written, so even `out == b` gives the product. */
  method M4Multiply(out: array<real>, a: array<real>, b: array<real>)
    requires out.Length == 16 && a.Length == 16 && b.Length == 16
    modifies out
    ensures out[..] == Multiply(old(a[..]), old(b[..]))
  {
    ghost var A, B := a[..], b[..];
    var a00, a01, a02, a03 := a[0], a[1], a[2], a[3];
    var a10, a11, a12, a13 := a[4], a[5], a[6], a[7];
    var a20, a21, a22, a23 := a[8], a[9], a[10], a[11];
    var a30, a31, a32, a33 := a[12], a[13], a[14], a[15];

    var b0, b1, b2, b3 := b[0], b[1], b[2], b[3];
    assert b0 == B[0] && b1 == B[1] && b2 == B[2] && b3 == B[3];
    SetColumn(out, 0,
      b0 * a00 + b1 * a10 + b2 * a20 + b3 * a30,
      b0 * a01 + b1 * a11 + b2 * a21 + b3 * a31,
      b0 * a02 + b1 * a12 + b2 * a22 + b3 * a32,
      b0 * a03 + b1 * a13 + b2 * a23 + b3 * a33);
    DotFrom(A, B, 0, 0, a00, a10, a20, a30, b0, b1, b2, b3);
    DotFrom(A, B, 1, 0, a01, a11, a21, a31, b0, b1, b2, b3);
    DotFrom(A, B, 2, 0, a02, a12, a22, a32, b0, b1, b2, b3);
    DotFrom(A, B, 3, 0, a03, a13, a23, a33, b0, b1, b2, b3);

    b0, b1, b2, b3 := b[4], b[5], b[6], b[7];
    assert b0 == B[4] && b1 == B[5] && b2 == B[6] && b3 == B[7];
    SetColumn(out, 1,
      b0 * a00 + b1 * a10 + b2 * a20 + b3 * a30,
      b0 * a01 + b1 * a11 + b2 * a21 + b3 * a31,
      b0 * a02 + b1 * a12 + b2 * a22 + b3 * a32,
      b0 * a03 + b1 * a13 + b2 * a23 + b3 * a33);
    DotFrom(A, B, 0, 1, a00, a10, a20, a30, b0, b1, b2, b3);
    DotFrom(A, B, 1, 1, a01, a11, a21, a31, b0, b1, b2, b3);
    DotFrom(A, B, 2, 1, a02, a12, a22, a32, b0, b1, b2, b3);
    DotFrom(A, B, 3, 1, a03, a13, a23, a33, b0, b1, b2, b3);

    b0, b1, b2, b3 := b[8], b[9], b[10], b[11];
    assert b0 == B[8] && b1 == B[9] && b2 == B[10] && b3 == B[11];
    SetColumn(out, 2,
      b0 * a00 + b1 * a10 + b2 * a20 + b3 * a30,
      b0 * a01 + b1 * a11 + b2 * a21 + b3 * a31,
      b0 * a02 + b1 * a12 + b2 * a22 + b3 * a32,
      b0 * a03 + b1 * a13 + b2 * a23 + b3 * a33);
    DotFrom(A, B, 0, 2, a00, a10, a20, a30, b0, b1, b2, b3);
    DotFrom(A, B, 1, 2, a01, a11, a21, a31, b0, b1, b2, b3);
    DotFrom(A, B, 2, 2, a02, a12, a22, a32, b0, b1, b2, b3);
    DotFrom(A, B, 3, 2, a03, a13, a23, a33, b0, b1, b2, b3);

    b0, b1, b2, b3 := b[12], b[13], b[14], b[15];
    assert b0 == B[12] && b1 == B[13] && b2 == B[14] && b3 == B[15];
    SetColumn(out, 3,
      b0 * a00 + b1 * a10 + b2 * a20 + b3 * a30,
      b0 * a01 + b1 * a11 + b2 * a21 + b3 * a31,
      b0 * a02 + b1 * a12 + b2 * a22 + b3 * a32,
      b0 * a03 + b1 * a13 + b2 * a23 + b3 * a33);
    DotFrom(A, B, 0, 3, a00, a10, a20, a30, b0, b1, b2, b3);
    DotFrom(A, B, 1, 3, a01, a11, a21, a31, b0, b1, b2, b3);
    DotFrom(A, B, 2, 3, a02, a12, a22, a32, b0, b1, b2, b3);
    DotFrom(A, B, 3, 3, a03, a13, a23, a33, b0, b1, b2, b3);

    ArrayHolds(out, Multiply(A, B));
  }

  /** The axis computation of `m4LookAt` once `eye != center`: `z` is
      normalized, `x` and `y` are normalized unless their length is 0, in
      which case they become the zero vector. */
  method LookAtAxes(e: Vec3, c: Vec3, u: Vec3, sqrt: real -> real) returns (x: Vec3, y: Vec3, z: Vec3)
    requires PositiveOnPositive(sqrt)
    requires e != c
    ensures Frame(x, y, z) == LookAtFrame(e, c, u, sqrt)
  {
    var d := Minus(e, c);
    SquaredLengthPositive(d);
    var len := 1.0 / sqrt(Dot3(d, d));
    z := Scale(d, len);
    x := Cross(u, z);
    len := sqrt(Dot3(x, x));
    if len == 0.0 {
      x := [0.0, 0.0, 0.0];
    } else {
      len := 1.0 / len;
      x := Scale(x, len);
    }
    y := Cross(z, x);
    len := sqrt(Dot3(y, y));
    if len == 0.0 {
      y := [0.0, 0.0, 0.0];
    } else {
      len := 1.0 / len;
      y := Scale(y, len);
    }
  }

  /** `m4LookAt(out, eye, center, up)`, with the platform's square root
      passed as `sqrt`.  The source keeps each vector in three scalar
      variables; here each triple is one `Vec3`.  Only the first three
      entries of `eye`, `center` and `up` are read, all before `out` is
      written, so `out` may be any of them. */
  method M4LookAt(out: array<real>, eye: array<real>, center: array<real>, up: array<real>,
                  sqrt: real -> real)
    requires out.Length == 16 && eye.Length >= 3 && center.Length >= 3 && up.Length >= 3
    requires PositiveOnPositive(sqrt)
    modifies out
    ensures out[..] == LookAt(old(eye[..3]), old(center[..3]), old(up[..3]), sqrt)
  {
    var e: Vec3 := [eye[0], eye[1], eye[2]];
    var u: Vec3 := [up[0], up[1], up[2]];
    var c: Vec3 := [center[0], center[1], center[2]];
    assert e == eye[..3] && u == up[..3] && c == center[..3];
    if e[0] == c[0] && e[1] == c[1] && e[2] == c[2] {
      assert e == c;
      SetIdentity(out);
      return;
    }
    var x, y, z := LookAtAxes(e, c, u, sqrt);
    SetColumn(out, 0, x[0], y[0], z[0], 0.0);
    SetColumn(out, 1, x[1], y[1], z[1], 0.0);
    SetColumn(out, 2, x[2], y[2], z[2], 0.0);
    SetColumn(out, 3, -Dot3(x, e), -Dot3(y, e), -Dot3(z, e), 1.0);
    ArrayHolds(out, LookAt(e, c, u, sqrt));
  }
}
