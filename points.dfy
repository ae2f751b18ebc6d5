/**
 * The sphere mesh of `Points`: a UV sphere of radius 400 sampled every 5
 * degrees, its texture coordinates, and the triangle list that stitches it
 * together.  The source object builds the three lists lazily, on the first
 * request for any of them, and can drop them again with `clear`.
 *
 * Vertices are produced row by row: row `row` (0 .. 36) lies at latitude
 * `5 * row - 90` degrees, and inside a row vertex `col` (0 .. 72) lies at
 * longitude `5 * col` degrees, so vertex `(row, col)` is number
 * `73 * row + col`.  Longitude 360 repeats longitude 0 so that the texture
 * seam gets its own column of texture coordinates.
 */
module Points {
  import opened Angles

  /** Radius of the sphere (`r`). */
  const Radius: real := 400.0
  /** Angular step in degrees (`step`). */
  const Step: int := 5
  /** Vertices per row, and the distance in vertex numbers between two rows
      (`jstep`, computed as `360 / step + 1`). */
  const Stride: int := 73
  /** Number of rows: latitudes -90, -85, ..., 90. */
  const Rows: int := 37
  /** Number of vertices. */
  const VertexCount: int := Rows * Stride
  /** Cells around a row of the index loop (`ii = 360 / step`). */
  const LonCells: int := 72
  /** Cells from pole to pole (`jj = 180 / step`). */
  const LatCells: int := 36

  /** Latitude of row `row`, in degrees. */
  function Latitude(row: int): int
  {
    Step * row - 90
  }

  /** Longitude of column `col`, in degrees. */
  function Longitude(col: int): int
  {
    Step * col
  }

  // ---------------------------------------------------------------------
  // Vertex attributes

  /** The two per-vertex lists the object keeps. */
  datatype Attribute = Position | TexCoord

  /** Number of floats one vertex contributes to the list of `a`. */
  function Width(a: Attribute): nat
  {
    match a
    case Position => 3
    case TexCoord => 2
  }

  /** Position `(x, y, z)` of vertex `(row, col)`: `y` along the polar axis,
      `x` and `z` in the equatorial plane. */
  function Vertex(trig: Trig, row: int, col: int): (v: seq<real>)
    ensures |v| == 3
    ensures var lon := Longitude(col) as real;
      v[0] * trig.sin(lon) == v[2] * trig.cos(lon)
  {
    var sini, cosi := trig.sin(Longitude(col) as real), trig.cos(Longitude(col) as real);
    var sinj, cosj := trig.sin(Latitude(row) as real), trig.cos(Latitude(row) as real);
    [Radius * cosj * cosi, Radius * sinj, Radius * cosj * sini]
  }

  /** Texture coordinate `(u, v)` of vertex `(row, col)`: longitude over 360,
      and latitude mapped from [-90, 90] to [0, 1]. */
  function TexCoordAt(row: int, col: int): (t: seq<real>)
    ensures t == [col as real / 72.0, row as real / 36.0]
  {
    [Longitude(col) as real / 360.0, Latitude(row) as real / 90.0 / 2.0 + 0.5]
  }

  /** The values vertex `(row, col)` adds to the list of `a`. */
  function Attr(a: Attribute, trig: Trig, row: int, col: int): (v: seq<real>)
    ensures |v| == Width(a)
  {
    match a
    case Position => Vertex(trig, row, col)
    case TexCoord => TexCoordAt(row, col)
  }

  /** The values of the first `n` vertices of row `row`. */
  function RowPrefix(a: Attribute, trig: Trig, row: int, n: nat): seq<real>
  {
    if n == 0 then [] else RowPrefix(a, trig, row, n - 1) + Attr(a, trig, row, n - 1)
  }

  /** Appending vertex `n` of a row to a list ending in the row's first `n`
      vertices gives the list ending in its first `n + 1`. */
  lemma RowStep(prefix: seq<real>, a: Attribute, trig: Trig, row: int, n: nat)
    ensures prefix + RowPrefix(a, trig, row, n + 1) == prefix + RowPrefix(a, trig, row, n) + Attr(a, trig, row, n)
  {
  }

  /** The rows of the mesh, row `row` at position `row`. */
  function Grid(a: Attribute, trig: Trig): (g: seq<seq<real>>)
    ensures |g| == Rows
    ensures forall row | 0 <= row < Rows :: |g[row]| == Width(a) * Stride
  {
    RowLengths(a, trig);
    seq(Rows, row => RowPrefix(a, trig, row, Stride))
  }

  /** The concatenation of the lists in `ss`, in order. */
  function Flatten<T>(ss: seq<seq<T>>): seq<T>
  {
    if |ss| == 0 then [] else Flatten(ss[..|ss| - 1]) + ss[|ss| - 1]
  }

  lemma FlattenStep<T>(ss: seq<seq<T>>, i: nat)
    requires i < |ss|
    ensures Flatten(ss[..i + 1]) == Flatten(ss[..i]) + ss[i]
  {
    assert ss[..i + 1][..i] == ss[..i];
  }

  /** The whole list of `a` once the mesh is built: the rows one after the
      other. */
  function Mesh(a: Attribute, trig: Trig): (m: seq<real>)
    ensures |m| == Width(a) * VertexCount
  {
    FlattenLength(Grid(a, trig), Width(a) * Stride);
    Flatten(Grid(a, trig))
  }

  // ---------------------------------------------------------------------
  // Triangle indices

  /** Kotlin's `Int.toShort()`: keeps the low 16 bits, read as signed. */
  function ToShort(n: int): (s: int)
    ensures -32768 <= s < 32768
    ensures -32768 <= n < 32768 ==> s == n
  {
    (n + 32768) % 65536 - 32768
  }

  /** The indices emitted for cell `(i, j)`: the quad between columns `i`,
      `i + 1` and rows `j`, `j + 1`.  The cell touching the south pole
      (`j == 0`) and the one touching the north pole (`j == LatCells - 1`)
      keep one triangle each; every other cell is split into two. */
  function Cell(i: int, j: int): (c: seq<int>)
    ensures |c| == if j == 0 || j == LatCells - 1 then 3 else 6
    ensures forall k | 0 <= k < |c| :: -32768 <= c[k] < 32768
  {
    if j == 0 then
      [ToShort(j * Stride + i), ToShort((j + 1) * Stride + i + 1), ToShort((j + 1) * Stride + i)]
    else if j == LatCells - 1 then
      [ToShort(j * Stride + i), ToShort(j * Stride + i + 1), ToShort((j + 1) * Stride + i + 1)]
    else
      [ToShort(j * Stride + i), ToShort(j * Stride + i + 1), ToShort((j + 1) * Stride + i + 1),
       ToShort(j * Stride + i), ToShort((j + 1) * Stride + i + 1), ToShort((j + 1) * Stride + i)]
  }

  /** The indices of cells `(i, 0) .. (i, n - 1)`. */
  function Column(i: int, n: nat): seq<int>
  {
    if n == 0 then [] else Column(i, n - 1) + Cell(i, n - 1)
  }

  /** Appending cell `(i, j)` to a list ending in the first `j` cells of
      column `i` gives the list ending in its first `j + 1` cells. */
  lemma ColumnStep(prefix: seq<int>, i: int, j: nat)
    ensures prefix + Column(i, j + 1) == prefix + Column(i, j) + Cell(i, j)
  {
  }

  /** The index lists of all columns, column `i` at position `i`. */
  function Columns(): (cs: seq<seq<int>>)
    ensures |cs| == LonCells
  {
    seq(LonCells, i => Column(i, LatCells))
  }

  /** The whole index list once the mesh is built. */
  function MeshIndices(): (m: seq<int>)
    ensures |m| == LonCells * 210 == 15120 == 3 * 5040
    ensures Below(m, VertexCount)
  {
    ColumnsFacts();
    FlattenFacts(Columns(), 210, VertexCount);
    Flatten(Columns())
  }

  // ---------------------------------------------------------------------
  // Properties of the mesh

  lemma {:induction false} RowPrefixLength(a: Attribute, trig: Trig, row: int, n: nat)
    ensures |RowPrefix(a, trig, row, n)| == Width(a) * n
  {
    if n > 0 {
      RowPrefixLength(a, trig, row, n - 1);
    }
  }

  /** Every full row of `a` holds `Width(a) * Stride` values. */
  lemma RowLengths(a: Attribute, trig: Trig)
    ensures forall row :: |RowPrefix(a, trig, row, Stride)| == Width(a) * Stride
  {
    forall row {
      RowPrefixLength(a, trig, row, Stride);
    }
  }

  /** If every list in `ss` has length `len`, the concatenation has
      length `len * |ss|`. */
  lemma {:induction false} FlattenLength<T>(ss: seq<seq<T>>, len: nat)
    requires forall k | 0 <= k < |ss| :: |ss[k]| == len
    ensures |Flatten(ss)| == len * |ss|
  {
    if |ss| > 0 {
      FlattenLength(ss[..|ss| - 1], len);
    }
  }

  /** Element `j` of list `r` sits right after the lists before it. */
  lemma {:induction false} FlattenAt<T>(ss: seq<seq<T>>, r: nat, j: nat)
    requires r < |ss| && j < |ss[r]|
    ensures |Flatten(ss[..r])| + j < |Flatten(ss)|
    ensures Flatten(ss)[|Flatten(ss[..r])| + j] == ss[r][j]
  {
    var init := ss[..|ss| - 1];
    if r < |ss| - 1 {
      assert init[..r] == ss[..r];
      FlattenAt(init, r, j);
    } else {
      assert ss[..r] == init;
    }
  }

  /** The first `r` rows of `a` hold `Width(a) * Stride * r` values. */
  lemma GridPrefixLength(a: Attribute, trig: Trig, r: nat)
    requires r <= Rows
    ensures |Flatten(Grid(a, trig)[..r])| == Width(a) * Stride * r
  {
    FlattenLength(Grid(a, trig)[..r], Width(a) * Stride);
  }

  /** The position list holds 3 floats for each of the 37 * 73 = 2701
      vertices, the texture list 2. */
  lemma MeshLength(trig: Trig)
    ensures |Mesh(Position, trig)| == 3 * VertexCount == 8103
    ensures |Mesh(TexCoord, trig)| == 2 * VertexCount == 5402
  {
  }

  lemma {:induction false} RowPrefixGrows(a: Attribute, trig: Trig, row: int, m: nat, n: nat)
    requires m <= n
    ensures RowPrefix(a, trig, row, m) <= RowPrefix(a, trig, row, n)
  {
    if m < n {
      RowPrefixGrows(a, trig, row, m, n - 1);
    }
  }

  /** Inside its row, the values of vertex `col` follow those of the
      earlier vertices of the row. */
  lemma RowAt(a: Attribute, trig: Trig, row: int, col: nat, k: nat)
    requires col < Stride && k < Width(a)
    ensures var at := |RowPrefix(a, trig, row, col)| + k;
      at < |RowPrefix(a, trig, row, Stride)| &&
      RowPrefix(a, trig, row, Stride)[at] == Attr(a, trig, row, col)[k]
  {
    RowPrefixGrows(a, trig, row, col + 1, Stride);
    assert RowPrefix(a, trig, row, col + 1) ==
      RowPrefix(a, trig, row, col) + Attr(a, trig, row, col);
  }

  /** Value `k` of vertex `(row, col)` sits at offset
      `Width(a) * (Stride * row + col) + k`: vertex `(row, col)` is vertex
      number `Stride * row + col`. */
  lemma MeshAt(a: Attribute, trig: Trig, row: nat, col: nat, k: nat)
    requires row < Rows && col < Stride && k < Width(a)
    ensures Width(a) * Stride * row + Width(a) * col + k < |Mesh(a, trig)|
    ensures Mesh(a, trig)[Width(a) * Stride * row + Width(a) * col + k] == Attr(a, trig, row, col)[k]
  {
    RowAt(a, trig, row, col, k);
    RowPrefixLength(a, trig, row, col);
    GridPrefixLength(a, trig, row);
    FlattenAt(Grid(a, trig), row, |RowPrefix(a, trig, row, col)| + k);
  }

  /** The position list, read vertex by vertex. */
  lemma PositionAt(trig: Trig, row: nat, col: nat)
    requires row < Rows && col < Stride
    ensures |Mesh(Position, trig)| == 8103
    ensures Mesh(Position, trig)[3 * (Stride * row + col) ..][..3] == Vertex(trig, row, col)
  {
    MeshLength(trig);
    MeshAt(Position, trig, row, col, 0);
    MeshAt(Position, trig, row, col, 1);
    MeshAt(Position, trig, row, col, 2);
  }

  /** The texture coordinate of vertex `(row, col)` is `(col / 72, row / 36)`:
      u runs from 0 to 1 around the sphere, v from 0 at the south pole to 1
      at the north pole. */
  lemma TexCoordValue(row: int, col: int)
    ensures TexCoordAt(row, col) == [col as real / 72.0, row as real / 36.0]
    ensures 0 <= row <= LatCells && 0 <= col <= LonCells ==>
      0.0 <= TexCoordAt(row, col)[0] <= 1.0 && 0.0 <= TexCoordAt(row, col)[1] <= 1.0
  {
  }

  /** The texture list, read vertex by vertex. */
  lemma TexCoordListAt(trig: Trig, row: nat, col: nat)
    requires row < Rows && col < Stride
    ensures |Mesh(TexCoord, trig)| == 5402
    ensures Mesh(TexCoord, trig)[2 * (Stride * row + col)] == col as real / 72.0
    ensures Mesh(TexCoord, trig)[2 * (Stride * row + col) + 1] == row as real / 36.0
  {
    MeshLength(trig);
    MeshAt(TexCoord, trig, row, col, 0);
    MeshAt(TexCoord, trig, row, col, 1);
    TexCoordValue(row, col);
  }

  /** At the poles (cosine 0) every vertex of the row collapses onto the
      polar axis, which is why the cells next to a pole keep only the one
      triangle whose other two corners lie off the pole row. */
  lemma PoleCollapse(trig: Trig, col: int)
    requires trig.cos(-90.0) == 0.0 && trig.sin(-90.0) == -1.0
    requires trig.cos(90.0) == 0.0 && trig.sin(90.0) == 1.0
    ensures Vertex(trig, 0, col) == [0.0, -Radius, 0.0]
    ensures Vertex(trig, LatCells, col) == [0.0, Radius, 0.0]
  {
  }

  /** With `sin^2 + cos^2 = 1` for both angles, `(x, y, z)` lies on the
      sphere of radius `Radius`. */
  lemma OnSphere(trig: Trig, row: int, col: int)
    requires var lat := Latitude(row) as real;
      Times(trig.sin(lat), trig.sin(lat)) + Times(trig.cos(lat), trig.cos(lat)) == 1.0
    requires var lon := Longitude(col) as real;
      Times(trig.sin(lon), trig.sin(lon)) + Times(trig.cos(lon), trig.cos(lon)) == 1.0
    ensures var v := Vertex(trig, row, col);
      Times(v[0], v[0]) + Times(v[1], v[1]) + Times(v[2], v[2]) == Times(Radius, Radius)
  {
    var lat, lon := Latitude(row) as real, Longitude(col) as real;
    SphereIdentity(Radius, trig.sin(lat), trig.cos(lat), trig.sin(lon), trig.cos(lon));
  }

  lemma SphereIdentity(r: real, sj: real, cj: real, si: real, ci: real)
    requires Times(sj, sj) + Times(cj, cj) == 1.0
    requires Times(si, si) + Times(ci, ci) == 1.0
    ensures Times(r * cj * ci, r * cj * ci) + Times(r * sj, r * sj) + Times(r * cj * si, r * cj * si)
      == Times(r, r)
  {
    var rc := r * cj;
    SquareOfProduct(rc, ci);
    SquareOfProduct(rc, si);
    SquareOfProduct(r, cj);
    SquareOfProduct(r, sj);
    ScaledUnit(Times(rc, rc), Times(si, si), Times(ci, ci));
    ScaledUnit(Times(r, r), Times(sj, sj), Times(cj, cj));
  }

  lemma SquareOfProduct(x: real, y: real)
    ensures Times(x * y, x * y) == Times(x, x) * Times(y, y)
  {
  }

  lemma ScaledUnit(p: real, u: real, v: real)
    requires u + v == 1.0
    ensures p * v + p * u == p
  {
  }

  /** Number of indices a column contributes: 3 for each pole cell and 6
      for each of the 34 cells in between. */
  lemma {:induction false} ColumnLength(i: int, n: nat)
    requires n <= LatCells
    ensures |Column(i, n)| == (if n == 0 then 0 else if n < LatCells then 6 * n - 3 else 210)
  {
    if n > 0 {
      ColumnLength(i, n - 1);
    }
  }

  /** The corners of cell `(i, j)`. */
  function Corners(i: int, j: int): set<int>
  {
    {j * Stride + i, j * Stride + i + 1, (j + 1) * Stride + i, (j + 1) * Stride + i + 1}
  }

  /** Every index of cell `(i, j)` is one of the cell's corners: the 16-bit
      conversion never wraps, since the largest vertex number, 2700, fits in
      a short. */
  lemma CellCorners(i: int, j: int)
    requires 0 <= i < LonCells && 0 <= j < LatCells
    ensures forall k | 0 <= k < |Cell(i, j)| :: Cell(i, j)[k] in Corners(i, j)
    ensures forall c | c in Corners(i, j) :: 0 <= c < VertexCount
  {
  }

  /** The pole cells keep the triangle with exactly one corner on the pole
      row; the other cells use all four corners, split along the diagonal
      from `(j, i)` to `(j + 1, i + 1)`. */
  lemma CellShape(i: int, j: int)
    requires 0 <= i < LonCells && 0 <= j < LatCells
    ensures j == 0 ==> |Cell(i, j)| == 3 && Cell(i, j)[0] < Stride && Cell(i, j)[1] >= Stride && Cell(i, j)[2] >= Stride
    ensures j == LatCells - 1 ==>
              |Cell(i, j)| == 3 && Cell(i, j)[0] < LatCells * Stride &&
              Cell(i, j)[1] < LatCells * Stride && Cell(i, j)[2] >= LatCells * Stride
    ensures 0 < j < LatCells - 1 ==>
              |Cell(i, j)| == 6 && (set k | 0 <= k < 6 :: Cell(i, j)[k]) == Corners(i, j)
    ensures j == 0 ==>
              Cell(i, j) == [j * Stride + i, (j + 1) * Stride + i + 1, (j + 1) * Stride + i]
    ensures j == LatCells - 1 ==>
              Cell(i, j) == [j * Stride + i, j * Stride + i + 1, (j + 1) * Stride + i + 1]
    ensures 0 < j < LatCells - 1 ==>
              Cell(i, j) == [j * Stride + i, j * Stride + i + 1, (j + 1) * Stride + i + 1,
                             j * Stride + i, (j + 1) * Stride + i + 1, (j + 1) * Stride + i]
  {
    if 0 < j < LatCells - 1 {
      var c := Cell(i, j);
      assert c[0] == j * Stride + i && c[1] == j * Stride + i + 1;
      assert c[2] == (j + 1) * Stride + i + 1 && c[5] == (j + 1) * Stride + i;
      assert (set k | 0 <= k < 6 :: c[k]) == {c[0], c[1], c[2], c[5]};
    }
  }

  /** All indices lie in `[0, n)`. */
  ghost predicate Below(s: seq<int>, n: int)
  {
    forall k | 0 <= k < |s| :: 0 <= s[k] < n
  }

  lemma BelowAppend(a: seq<int>, b: seq<int>, n: int)
    requires Below(a, n) && Below(b, n)
    ensures Below(a + b, n)
  {
    forall k | 0 <= k < |a + b|
      ensures 0 <= (a + b)[k] < n
    {
      if k >= |a| {
        assert (a + b)[k] == b[k - |a|];
      }
    }
  }

  lemma {:induction false} ColumnBelow(i: int, n: nat)
    requires 0 <= i < LonCells && n <= LatCells
    ensures Below(Column(i, n), VertexCount)
  {
    if n > 0 {
      ColumnBelow(i, n - 1);
      CellCorners(i, n - 1);
      BelowAppend(Column(i, n - 1), Cell(i, n - 1), VertexCount);
    }
  }

  lemma {:induction false} FlattenFacts(ss: seq<seq<int>>, len: nat, n: int)
    requires forall k | 0 <= k < |ss| :: |ss[k]| == len && Below(ss[k], n)
    ensures |Flatten(ss)| == len * |ss|
    ensures Below(Flatten(ss), n)
  {
    if |ss| > 0 {
      var init := ss[..|ss| - 1];
      FlattenFacts(init, len, n);
      BelowAppend(Flatten(init), ss[|ss| - 1], n);
    }
  }

  /** The index list holds 15120 indices, 5040 triangles, each naming one of
      the 2701 vertices. */
  /** Each of the 72 columns emits 210 indices, each naming a vertex. */
  lemma ColumnsFacts()
    ensures forall k | 0 <= k < LonCells :: |Columns()[k]| == 210 && Below(Columns()[k], VertexCount)
  {
    forall k | 0 <= k < LonCells
      ensures |Columns()[k]| == 210 && Below(Columns()[k], VertexCount)
    {
      ColumnLength(k, LatCells);
      ColumnBelow(k, LatCells);
    }
  }

  // ---------------------------------------------------------------------
  // The object

  /** The `Points` singleton: three lists and the flag saying whether they
      hold the mesh.  The platform's sine and cosine are fixed at
      construction. */
  class Mesher {
    const trig: Trig
    var pp: seq<real>
    var tt: seq<real>
    var index: seq<int>
    var initFlat: bool

    /** Either the lists hold the complete mesh, or they are all empty and
        the flag is down. */
    ghost predicate Valid()
      reads this
    {
      if initFlat then
        pp == Mesh(Position, trig) && tt == Mesh(TexCoord, trig) && index == MeshIndices()
      else
        pp == [] && tt == [] && index == []
    }

    constructor(trig: Trig)
      ensures this.trig == trig
      ensures pp == [] && tt == [] && index == [] && !initFlat
      ensures Valid()
    {
      this.trig := trig;
      pp, tt, index := [], [], [];
      initFlat := false;
    }

    /** `init()`: rebuilds the vertex lists, then the index list, then
        raises the flag. */
    method Init()
      modifies this
      ensures pp == Mesh(Position, trig) && tt == Mesh(TexCoord, trig)
      ensures index == MeshIndices()
      ensures initFlat
      ensures Valid()
    {
      SweepVertices();
      StitchIndices();
      initFlat := true;
    }

    /** The vertex half of `init()`: clears the vertex lists and sweeps
        latitude from -90 to 90 in steps of 5 degrees, one row of vertices
        per latitude. */
    method SweepVertices()
      modifies this`pp, this`tt
      ensures pp == Mesh(Position, trig) && tt == Mesh(TexCoord, trig)
    {
      pp := [];
      tt := [];
      var j := -90;
      var jj := 90;
      ghost var row := 0;
      while j <= jj
        invariant 0 <= row <= Rows && j == Latitude(row) && jj == 90
        invariant pp == Flatten(Grid(Position, trig)[..row])
        invariant tt == Flatten(Grid(TexCoord, trig)[..row])
        decreases jj - j
      {
        SweepRow(j, row);
        FlattenStep(Grid(Position, trig), row);
        FlattenStep(Grid(TexCoord, trig), row);
        j := j + Step;
        row := row + 1;
      }
      assert Grid(Position, trig)[..row] == Grid(Position, trig);
      assert Grid(TexCoord, trig)[..row] == Grid(TexCoord, trig);
    }

    /** The index half of `init()`: clears the index list and stitches the
        72 columns of cells, one after the other. */
    method StitchIndices()
      modifies this`index
      ensures index == MeshIndices()
    {
      index := [];
      var jstep := ToShort(360 / Step + 1);
      var i := 0;
      var ii := 360 / Step;
      while i < ii
        invariant 0 <= i <= LonCells && ii == LonCells && jstep == Stride
        invariant index == Flatten(Columns()[..i])
      {
        StitchColumn(i, jstep);
        FlattenStep(Columns(), i);
        i := i + 1;
      }
      assert Columns()[..i] == Columns();
    }

    /** One pass of the inner vertex loop of `init()`: for the latitude `j`
        of row `row`, runs longitude from 0 to 360 in steps of 5 degrees and
        appends each vertex's position and texture coordinate. */
    method SweepRow(j: int, ghost row: int)
      requires j == Latitude(row)
      modifies this`pp, this`tt
      ensures pp == old(pp) + RowPrefix(Position, trig, row, Stride)
      ensures tt == old(tt) + RowPrefix(TexCoord, trig, row, Stride)
    {
      var i := 0;
      var ii := 360;
      ghost var col := 0;
      while i <= ii
        invariant 0 <= col <= Stride && i == Longitude(col) && ii == 360
        invariant pp == old(pp) + RowPrefix(Position, trig, row, col)
        invariant tt == old(tt) + RowPrefix(TexCoord, trig, row, col)
        decreases ii - i
      {
        var sini := trig.sin(i as real);
        var cosi := trig.cos(i as real);
        var sinj := trig.sin(j as real);
        var cosj := trig.cos(j as real);
        var y := Radius * sinj;
        var x := Radius * cosj * cosi;
        var z := Radius * cosj * sini;
        assert Vertex(trig, row, col)[0] == x && Vertex(trig, row, col)[1] == y;
        assert Vertex(trig, row, col)[2] == z;
        var u := i as real / 360.0;
        var v := j as real / 90.0 / 2.0 + 0.5;
        assert TexCoordAt(row, col)[0] == u && TexCoordAt(row, col)[1] == v;
        RowStep(old(pp), Position, trig, row, col);
        RowStep(old(tt), TexCoord, trig, row, col);
        pp := pp + [x, y, z];
        tt := tt + [u, v];
        i := i + Step;
        col := col + 1;
      }
    }

    /** One pass of the inner index loop of `init()`: walks the cells of
        column `i` from the south pole to the north pole and appends each
        cell's triangles. */
    method StitchColumn(i: int, jstep: int)
      requires jstep == Stride
      modifies this`index
      ensures index == old(index) + Column(i, LatCells)
    {
      var j := 0;
      var jj := 180 / Step;
      while j < jj
        invariant 0 <= j <= LatCells && jj == LatCells
        invariant index == old(index) + Column(i, j)
      {
        var cell: seq<int>;
        if j == 0 {
          cell := [ToShort(j * jstep + i), ToShort((j + 1) * jstep + i + 1),
                   ToShort((j + 1) * jstep + i)];
        } else if j == jj - 1 {
          cell := [ToShort(j * jstep + i), ToShort(j * jstep + i + 1),
                   ToShort((j + 1) * jstep + i + 1)];
        } else {
          cell := [ToShort(j * jstep + i), ToShort(j * jstep + i + 1),
                   ToShort((j + 1) * jstep + i + 1),
                   ToShort(j * jstep + i), ToShort((j + 1) * jstep + i + 1),
                   ToShort((j + 1) * jstep + i)];
        }
        assert cell == Cell(i, j);
        ColumnStep(old(index), i, j);
        index := index + cell;
        j := j + 1;
      }
    }

    /** The `xYZ` getter: builds the mesh if needed, then hands out the
        positions. */
    method XYZ() returns (r: seq<real>)
      requires Valid()
      modifies this
      ensures Valid() && initFlat
      ensures r == pp == Mesh(Position, trig)
      ensures tt == Mesh(TexCoord, trig) && index == MeshIndices()
    {
      if !initFlat {
        Init();
      }
      r := pp;
    }

    /** The `uV` getter: builds the mesh if needed, then hands out the
        texture coordinates. */
    method UV() returns (r: seq<real>)
      requires Valid()
      modifies this
      ensures Valid() && initFlat
      ensures r == tt == Mesh(TexCoord, trig)
      ensures pp == Mesh(Position, trig) && index == MeshIndices()
    {
      if !initFlat {
        Init();
      }
      r := tt;
    }

    /** `getIndex()`: builds the mesh if needed, then hands out the triangle
        indices. */
    method GetIndex() returns (r: seq<int>)
      requires Valid()
      modifies this
      ensures Valid() && initFlat
      ensures r == index == MeshIndices()
      ensures pp == Mesh(Position, trig) && tt == Mesh(TexCoord, trig)
    {
      if !initFlat {
        Init();
      }
      r := index;
    }

    /** `clear()`: empties the three lists and lowers the flag, so that the
        next request rebuilds them. */
    method Clear()
      modifies this
      ensures pp == [] && tt == [] && index == [] && !initFlat
      ensures Valid()
    {
      pp := [];
      tt := [];
      index := [];
      initFlat := false;
    }
  }
}
