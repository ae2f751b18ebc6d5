/**
 * The native pose math of the head tracker: `Matrix4x4` (a 4x4 float array
 * `m[4][4]` whose first index selects a column, as `ToGlArray` shows), its
 * two products, the quaternion `Quatf` and its rotation matrix, and the
 * translation matrix.
 *
 * The products keep the source's nested loops; everything else builds and
 * returns a value.  The link to the Kotlin side is `ToGlArray`: it turns
 * this layout into the 16-entry column-major array of `MatrixUtil`, and the
 * native product becomes `MatrixUtil.Multiply` there.
 */
module NativeUtil {
  import opened MatrixUtil

  /** Four floats: a column of a matrix, a vector, a quaternion as array. */
  type Vec4 = v: seq<real> | |v| == 4 witness [0.0, 0.0, 0.0, 0.0]

  const Zero4: Vec4 := [0.0, 0.0, 0.0, 0.0]

  type Rows = r: seq<Vec4> | |r| == 4 witness [Zero4, Zero4, Zero4, Zero4]

  /** `class Matrix4x4 { float m[4][4]; }`: `m[i][j]` is entry `j` of
      column `i`. */
  datatype Matrix4x4 = Matrix4x4(m: Rows)

  const Identity4: Matrix4x4 := Matrix4x4([[1.0, 0.0, 0.0, 0.0],
                                           [0.0, 1.0, 0.0, 0.0],
                                           [0.0, 0.0, 1.0, 0.0],
                                           [0.0, 0.0, 0.0, 1.0]])

  // ---------------------------------------------------------------------
  // Products

  /** The first `n` terms of the sum that `operator*` accumulates into
      `result.m[i][j]`. */
  function PartialEntry(a: Matrix4x4, right: Matrix4x4, i: nat, j: nat, n: nat): real
    requires i < 4 && j < 4 && n <= 4
  {
    if n == 0 then 0.0
    else PartialEntry(a, right, i, j, n - 1) + a.m[n - 1][j] * right.m[i][n - 1]
  }

  /** Entry `j` of column `i` of `a * right`. */
  function Entry(a: Matrix4x4, right: Matrix4x4, i: nat, j: nat): real
    requires i < 4 && j < 4
  {
    a.m[0][j] * right.m[i][0] + a.m[1][j] * right.m[i][1]
    + a.m[2][j] * right.m[i][2] + a.m[3][j] * right.m[i][3]
  }

  /** The matrix product `a * right`. */
  function Product(a: Matrix4x4, right: Matrix4x4): (p: Matrix4x4)
    ensures forall i, j | 0 <= i < 4 && 0 <= j < 4 :: p.m[i][j] == Entry(a, right, i, j)
  {
    Matrix4x4(seq(4, i requires 0 <= i < 4 =>
      seq(4, j requires 0 <= j < 4 => Entry(a, right, i, j))))
  }

  /** `Matrix4x4::operator*(right)`: three nested loops, the innermost one
      adding one term per step into `result.m[i][j]`.  Neither operand is
      changed (both are values here). */
  method Mul(a: Matrix4x4, right: Matrix4x4) returns (result: Matrix4x4)
    ensures result == Product(a, right)
  {
    var cols: seq<Vec4> := [Zero4, Zero4, Zero4, Zero4];
    for i := 0 to 4
      invariant |cols| == 4
      invariant forall p, q | 0 <= p < i && 0 <= q < 4 :: cols[p][q] == Entry(a, right, p, q)
    {
      var column: Vec4 := cols[i];
      for j := 0 to 4
        invariant forall q | 0 <= q < j :: column[q] == Entry(a, right, i, q)
      {
        column := column[j := 0.0];
        for k := 0 to 4
          invariant column[j] == PartialEntry(a, right, i, j, k)
          invariant forall q | 0 <= q < j :: column[q] == Entry(a, right, i, q)
        {
          column := column[j := column[j] + a.m[k][j] * right.m[i][k]];
        }
        EntryIsSum(a, right, i, j);
      }
      cols := cols[i := column];
    }
    result := Matrix4x4(cols);
    ProductFrom(a, right, result);
  }

  /** The loop's four terms add up to the entry. */
  lemma EntryIsSum(a: Matrix4x4, right: Matrix4x4, i: nat, j: nat)
    requires i < 4 && j < 4
    ensures PartialEntry(a, right, i, j, 4) == Entry(a, right, i, j)
  {
    assert PartialEntry(a, right, i, j, 1) == a.m[0][j] * right.m[i][0];
    assert PartialEntry(a, right, i, j, 3) == PartialEntry(a, right, i, j, 2) + a.m[2][j] * right.m[i][2];
  }

  /** Two matrices with the same entries are the same. */
  lemma SameMatrix(r: Matrix4x4, p: Matrix4x4)
    requires forall i, j | 0 <= i < 4 && 0 <= j < 4 :: r.m[i][j] == p.m[i][j]
    ensures r == p
  {
    forall i | 0 <= i < 4
      ensures r.m[i] == p.m[i]
    {
      assert r.m[i][0] == p.m[i][0] && r.m[i][1] == p.m[i][1];
      assert r.m[i][2] == p.m[i][2] && r.m[i][3] == p.m[i][3];
    }
    assert r.m == p.m;
  }

  /** A matrix whose every entry is the product's is the product. */
  lemma ProductFrom(a: Matrix4x4, right: Matrix4x4, r: Matrix4x4)
    requires forall p, q | 0 <= p < 4 && 0 <= q < 4 :: r.m[p][q] == Entry(a, right, p, q)
    ensures r == Product(a, right)
  {
    SameMatrix(r, Product(a, right));
  }

  /** The first `n` terms of `result[i]` in the matrix-vector product. */
  function PartialApply(a: Matrix4x4, vec: Vec4, i: nat, n: nat): real
    requires i < 4 && n <= 4
  {
    if n == 0 then 0.0 else PartialApply(a, vec, i, n - 1) + a.m[n - 1][i] * vec[n - 1]
  }

  /** `a * vec`: coordinate `i` is row `i` of `a` against `vec`. */
  function Apply(a: Matrix4x4, vec: Vec4): (r: Vec4)
    ensures forall i | 0 <= i < 4 ::
      r[i] == a.m[0][i] * vec[0] + a.m[1][i] * vec[1] + a.m[2][i] * vec[2] + a.m[3][i] * vec[3]
  {
    seq(4, i requires 0 <= i < 4 =>
      a.m[0][i] * vec[0] + a.m[1][i] * vec[1] + a.m[2][i] * vec[2] + a.m[3][i] * vec[3])
  }

  /** The loop's four terms add up to the coordinate. */
  lemma ApplyIsSum(a: Matrix4x4, vec: Vec4, i: nat)
    requires i < 4
    ensures PartialApply(a, vec, i, 4) == Apply(a, vec)[i]
  {
    assert PartialApply(a, vec, i, 1) == a.m[0][i] * vec[0];
    assert PartialApply(a, vec, i, 3) == PartialApply(a, vec, i, 2) + a.m[2][i] * vec[2];
  }

  /** `Matrix4x4::operator*(vec)`: two nested loops accumulating into
      `result[i]`. */
  method MulVec(a: Matrix4x4, vec: Vec4) returns (result: Vec4)
    ensures result == Apply(a, vec)
  {
    result := [0.0, 0.0, 0.0, 0.0];
    for i := 0 to 4
      invariant forall p | 0 <= p < i :: result[p] == Apply(a, vec)[p]
    {
      result := result[i := 0.0];
      for k := 0 to 4
        invariant result[i] == PartialApply(a, vec, i, k)
        invariant forall p | 0 <= p < i :: result[p] == Apply(a, vec)[p]
      {
        result := result[i := result[i] + a.m[k][i] * vec[k]];
      }
      ApplyIsSum(a, vec, i);
    }
    assert result == Apply(a, vec);
  }

  /** The identity changes no vector. */
  lemma ApplyIdentity(vec: Vec4)
    ensures Apply(Identity4, vec) == vec
  {
  }

  /** The identity is neutral on both sides of the product. */
  lemma ProductIdentity(a: Matrix4x4)
    ensures Product(Identity4, a) == a
    ensures Product(a, Identity4) == a
  {
    ProductFrom(Identity4, a, a);
    ProductFrom(a, Identity4, a);
  }

  // ---------------------------------------------------------------------
  // The OpenGL layout

  /** `ToGlArray()`: the 16 floats of `m` in memory order, so entry `j` of
      column `i` lands at `4 * i + j` — the column-major layout of
      `MatrixUtil`. */
  function ToGlArray(a: Matrix4x4): (g: Mat4)
    ensures forall i, j | 0 <= i < 4 && 0 <= j < 4 :: g[4 * i + j] == a.m[i][j]
    ensures forall i, j | 0 <= i < 4 && 0 <= j < 4 :: At(g, j, i) == a.m[i][j]
  {
    [a.m[0][0], a.m[0][1], a.m[0][2], a.m[0][3],
     a.m[1][0], a.m[1][1], a.m[1][2], a.m[1][3],
     a.m[2][0], a.m[2][1], a.m[2][2], a.m[2][3],
     a.m[3][0], a.m[3][1], a.m[3][2], a.m[3][3]]
  }

  /** The inverse of `ToGlArray`. */
  function FromGlArray(g: Mat4): (a: Matrix4x4)
    ensures forall i, j | 0 <= i < 4 && 0 <= j < 4 :: a.m[i][j] == g[4 * i + j]
  {
    Matrix4x4([g[0..4], g[4..8], g[8..12], g[12..16]])
  }

  lemma GlArrayRoundTrip(a: Matrix4x4, g: Mat4)
    ensures FromGlArray(ToGlArray(a)) == a
    ensures ToGlArray(FromGlArray(g)) == g
  {
    var b := FromGlArray(ToGlArray(a));
    assert b.m[0] == a.m[0] && b.m[1] == a.m[1] && b.m[2] == a.m[2] && b.m[3] == a.m[3];
    assert b.m == a.m;
    assert g == g[0..4] + g[4..8] + g[8..12] + g[12..16];
  }

  /** The native product and the Kotlin `m4Multiply` agree once the native
      matrices are laid out for OpenGL. */
  lemma {:induction false} GlArrayOfProduct(a: Matrix4x4, b: Matrix4x4)
    ensures ToGlArray(Product(a, b)) == Multiply(ToGlArray(a), ToGlArray(b))
  {
    var l, r := ToGlArray(Product(a, b)), Multiply(ToGlArray(a), ToGlArray(b));
    SameEntries(l, r);
  }

  /** Two column-major matrices that agree at every row and column are
      equal. */
  lemma SameAt(p: Mat4, q: Mat4)
    requires forall r, c | 0 <= r < 4 && 0 <= c < 4 :: At(p, r, c) == At(q, r, c)
    ensures p == q
  {
    assert At(p, 0, 0) == At(q, 0, 0) && At(p, 1, 0) == At(q, 1, 0);
    assert At(p, 2, 0) == At(q, 2, 0) && At(p, 3, 0) == At(q, 3, 0);
    assert At(p, 0, 1) == At(q, 0, 1) && At(p, 1, 1) == At(q, 1, 1);
    assert At(p, 2, 1) == At(q, 2, 1) && At(p, 3, 1) == At(q, 3, 1);
    assert At(p, 0, 2) == At(q, 0, 2) && At(p, 1, 2) == At(q, 1, 2);
    assert At(p, 2, 2) == At(q, 2, 2) && At(p, 3, 2) == At(q, 3, 2);
    assert At(p, 0, 3) == At(q, 0, 3) && At(p, 1, 3) == At(q, 1, 3);
    assert At(p, 2, 3) == At(q, 2, 3) && At(p, 3, 3) == At(q, 3, 3);
    SameEntries(p, q);
  }

  /** The identity is laid out as `MatrixUtil`'s identity. */
  lemma GlArrayOfIdentity()
    ensures ToGlArray(Identity4) == Identity
  {
  }

  // ---------------------------------------------------------------------
  // Quaternions

  /** `struct Quatf { float x, y, z, w; }`; `Quatf(x, y, z, w)` stores its
      arguments in those fields. */
  datatype Quatf = Quatf(x: real, y: real, z: real, w: real)

  /** `Quatf()`: the identity rotation. */
  const DefaultQuat: Quatf := Quatf(0.0, 0.0, 0.0, 1.0)

  /** `Quatf::FromXYZW(q)`: the four floats in x, y, z, w order. */
  function FromXYZW(q: Vec4): (r: Quatf)
    ensures [r.x, r.y, r.z, r.w] == q
  {
    Quatf(q[0], q[1], q[2], q[3])
  }

  /** The quaternion with every component negated. */
  function Negate(q: Quatf): (r: Quatf)
    ensures r.x + q.x == 0.0 && r.y + q.y == 0.0 && r.z + q.z == 0.0 && r.w + q.w == 0.0
  {
    Quatf(-q.x, -q.y, -q.z, -q.w)
  }

  /** `2 * a * b`, the doubled product every entry of `ToMatrix` is built
      from. */
  function Twice(a: real, b: real): real
  {
    2.0 * a * b
  }

  /** `Quatf::ToMatrix()`: the rotation matrix of the quaternion, built
      from the doubled pairwise products. */
  function ToMatrix(q: Quatf): (r: Matrix4x4)
    ensures r.m[0][3] == 0.0 && r.m[1][3] == 0.0 && r.m[2][3] == 0.0
    ensures r.m[3] == [0.0, 0.0, 0.0, 1.0]
  {
    var xx, yy, zz := Twice(q.x, q.x), Twice(q.y, q.y), Twice(q.z, q.z);
    var xy, xz, yz := Twice(q.x, q.y), Twice(q.x, q.z), Twice(q.y, q.z);
    var xw, yw, zw := Twice(q.x, q.w), Twice(q.y, q.w), Twice(q.z, q.w);
    Matrix4x4([[1.0 - yy - zz, xy + zw, xz - yw, 0.0],
               [xy - zw, 1.0 - xx - zz, yz + xw, 0.0],
               [xz + yw, yz - xw, 1.0 - xx - yy, 0.0],
               [0.0, 0.0, 0.0, 1.0]])
  }

  /** A quaternion with no vector part, the default one among them, gives
      the identity matrix. */
  lemma ToMatrixScalar(w: real)
    ensures ToMatrix(Quatf(0.0, 0.0, 0.0, w)) == Identity4
  {
    var r := ToMatrix(Quatf(0.0, 0.0, 0.0, w));
    assert r.m[0] == Identity4.m[0] && r.m[1] == Identity4.m[1];
    assert r.m[2] == Identity4.m[2] && r.m[3] == Identity4.m[3];
  }

  /** The default quaternion `Quatf()` is the identity rotation. */
  lemma DefaultQuatIdentity()
    ensures ToMatrix(DefaultQuat) == Identity4
  {
    ToMatrixScalar(1.0);
  }

  /** `q` and `-q` give the same matrix: every entry is built from products
      of two components. */
  lemma {:induction false} ToMatrixNegate(q: Quatf)
    ensures ToMatrix(Negate(q)) == ToMatrix(q)
  {
    TwiceNegate(q.x, q.x); TwiceNegate(q.y, q.y); TwiceNegate(q.z, q.z);
    TwiceNegate(q.x, q.y); TwiceNegate(q.x, q.z); TwiceNegate(q.y, q.z);
    TwiceNegate(q.x, q.w); TwiceNegate(q.y, q.w); TwiceNegate(q.z, q.w);
  }

  lemma TwiceNegate(a: real, b: real)
    ensures Twice(-a, -b) == Twice(a, b)
  {
  }

  // ---------------------------------------------------------------------
  // Translation

  /** `GetTranslationMatrix(t)`: the identity with `t` in the last column. */
  function Translation(t: Vec3): (r: Matrix4x4)
    ensures forall i, j | 0 <= i < 3 && 0 <= j < 4 :: r.m[i][j] == Identity4.m[i][j]
    ensures r.m[3] == [t[0], t[1], t[2], 1.0]
  {
    Matrix4x4([[1.0, 0.0, 0.0, 0.0],
               [0.0, 1.0, 0.0, 0.0],
               [0.0, 0.0, 1.0, 0.0],
               [t[0], t[1], t[2], 1.0]])
  }

  /** No translation is the identity. */
  lemma TranslationZero()
    ensures Translation([0.0, 0.0, 0.0]) == Identity4
  {
  }

  /** A translation moves a point (last coordinate 1) by `t`. */
  lemma TranslationMovesPoint(t: Vec3, p: Vec3)
    ensures Apply(Translation(t), [p[0], p[1], p[2], 1.0]) ==
      [p[0] + t[0], p[1] + t[1], p[2] + t[2], 1.0]
  {
    var v := Apply(Translation(t), [p[0], p[1], p[2], 1.0]);
    assert v[0] == p[0] + t[0] && v[1] == p[1] + t[1] && v[2] == p[2] + t[2] && v[3] == 1.0;
  }

  /** Two translations compose into one by the sum. */
  lemma {:induction false} TranslationCompose(s: Vec3, t: Vec3)
    ensures Product(Translation(s), Translation(t)) ==
      Translation([s[0] + t[0], s[1] + t[1], s[2] + t[2]])
  {
    var p, u := Product(Translation(s), Translation(t)), Translation([s[0] + t[0], s[1] + t[1], s[2] + t[2]]);
    forall i, j | 0 <= i < 4 && 0 <= j < 4
      ensures p.m[i][j] == u.m[i][j]
    {
      assert p.m[i][j] == Entry(Translation(s), Translation(t), i, j);
    }
    SameMatrix(p, u);
  }

  /** A matrix of rigid-motion shape: nothing in the fourth row of its
      first three columns, and last column (0, 0, 0, 1). */
  ghost predicate Linear(r: Matrix4x4)
  {
    r.m[0][3] == 0.0 && r.m[1][3] == 0.0 && r.m[2][3] == 0.0 && r.m[3] == [0.0, 0.0, 0.0, 1.0]
  }

  /** A translation times such a matrix keeps the matrix's 3x3 block and
      takes the translation as its last column. */
  lemma {:induction false} TranslationTimesLinear(t: Vec3, r: Matrix4x4)
    requires Linear(r)
    ensures var p := Product(Translation(t), r);
      (forall i, j | 0 <= i < 3 && 0 <= j < 4 :: p.m[i][j] == r.m[i][j]) &&
      p.m[3] == [t[0], t[1], t[2], 1.0]
  {
    var p := Product(Translation(t), r);
    forall i, j | 0 <= i < 3 && 0 <= j < 4
      ensures p.m[i][j] == r.m[i][j]
    {
      assert p.m[i][j] == Entry(Translation(t), r, i, j);
    }
    assert p.m[3][0] == t[0] && p.m[3][1] == t[1] && p.m[3][2] == t[2] && p.m[3][3] == 1.0;
  }

  /** The pose `T * R` for a translation `t` and quaternion `q`: the
      rotation block of `q` and the translation `t`. */
  lemma PoseBlocks(t: Vec3, q: Quatf)
    ensures var p, r := Product(Translation(t), ToMatrix(q)), ToMatrix(q);
      (forall i, j | 0 <= i < 3 && 0 <= j < 4 :: p.m[i][j] == r.m[i][j]) &&
      p.m[3] == [t[0], t[1], t[2], 1.0]
  {
    TranslationTimesLinear(t, ToMatrix(q));
  }
}
