/**
 * The 4x4 matrix builders of the cube viewer, over exact reals.
 *
 * Matrices are stored column-major, as WebGL expects them: the entry in
 * row r and column c sits at index 4 * c + r. A matrix acts on a column
 * vector (Apply), and the meaning of every builder is stated through that
 * action: a product acts as "first the right factor, then the left one",
 * a translation moves points and leaves directions alone, a rotation turns
 * about its axis, and the projection sends the near and far planes to the
 * two ends of the clip-space depth range.
 */
module Matrices {

  /** 16 entries, column-major. */
  type Mat4 = m: seq<real> | |m| == 16
    witness [1.0, 0.0, 0.0, 0.0,  0.0, 1.0, 0.0, 0.0,  0.0, 0.0, 1.0, 0.0,  0.0, 0.0, 0.0, 1.0]

  /** A homogeneous column vector (x, y, z, w). */
  type Vec4 = v: seq<real> | |v| == 4 witness [0.0, 0.0, 0.0, 0.0]

  /** An angle given by its cosine and sine; the trigonometry happens outside the model. */
  datatype Angle = Angle(cos: real, sin: real)

  const ZeroAngle: Angle := Angle(1.0, 0.0)

  /** The angle of the sum, by the angle-addition formulas. */
  function AddAngles(a: Angle, b: Angle): Angle
  {
    Angle(a.cos * b.cos - a.sin * b.sin, a.sin * b.cos + a.cos * b.sin)
  }

  /** The angle of the negation: cosine is even, sine is odd. */
  function NegateAngle(a: Angle): Angle
  {
    Angle(a.cos, -a.sin)
  }

  /** A genuine angle lies on the unit circle. */
  predicate IsUnit(a: Angle)
  {
    a.cos * a.cos + a.sin * a.sin == 1.0
  }

  const Identity: Mat4 :=
    [1.0, 0.0, 0.0, 0.0,  0.0, 1.0, 0.0, 0.0,  0.0, 0.0, 1.0, 0.0,  0.0, 0.0, 0.0, 1.0]

  /** Column i of m. */
  function Column(m: Mat4, i: int): Vec4
    requires 0 <= i < 4
  {
    m[4 * i .. 4 * i + 4]
  }

  /** Row r of m times v. */
  function RowTimes(m: Mat4, r: int, v: Vec4): real
    requires 0 <= r < 4
  {
    m[r] * v[0] + m[r + 4] * v[1] + m[r + 8] * v[2] + m[r + 12] * v[3]
  }

  /** The column vector m * v. */
  function Apply(m: Mat4, v: Vec4): Vec4
  {
    seq(4, r requires 0 <= r < 4 => RowTimes(m, r, v))
  }

  /** Entry 4 * i + j of the product, exactly as the inner loop body of main.js's `multiply` writes it. */
  function ProductEntry(a: Mat4, b: Mat4, i: int, j: int): real
    requires 0 <= i < 4 && 0 <= j < 4
  {
    a[j] * b[i * 4] + a[j + 4] * b[i * 4 + 1] + a[j + 8] * b[i * 4 + 2] + a[j + 12] * b[i * 4 + 3]
  }

  /**
   * The column-major product a * b: its i-th column is a applied to the
   * i-th column of b.
   */
  function Product(a: Mat4, b: Mat4): (r: Mat4)
    ensures forall i | 0 <= i < 4 :: Column(r, i) == Apply(a, Column(b, i))
  {
    var r: Mat4 := seq(16, k requires 0 <= k < 16 => ProductEntry(a, b, k / 4, k % 4));
    assert forall i | 0 <= i < 4 :: Column(r, i) == Apply(a, Column(b, i)) by {
      forall i | 0 <= i < 4
        ensures Column(r, i) == Apply(a, Column(b, i))
      {
        EntriesFormColumn(a, b, r, i);
      }
    }
    r
  }

  /** Two vectors that agree in every coordinate are equal. */
  lemma Vec4Equal(u: Vec4, v: Vec4)
    requires u[0] == v[0] && u[1] == v[1] && u[2] == v[2] && u[3] == v[3]
    ensures u == v
  {
    forall j | 0 <= j < 4
      ensures u[j] == v[j]
    {
      assert j == 0 || j == 1 || j == 2 || j == 3;
    }
  }

  /** A buffer filled with the entry formula of `multiply` has a applied to b's columns as columns. */
  lemma EntriesFormColumn(a: Mat4, b: Mat4, r: Mat4, i: int)
    requires 0 <= i < 4
    requires forall k | 0 <= k < 16 :: r[k] == ProductEntry(a, b, k / 4, k % 4)
    ensures Column(r, i) == Apply(a, Column(b, i))
  {
    var c := Column(b, i);
    assert r[4 * i] == ProductEntry(a, b, i, 0) by { assert (4 * i) / 4 == i && (4 * i) % 4 == 0; }
    assert r[4 * i + 1] == ProductEntry(a, b, i, 1) by { assert (4 * i + 1) / 4 == i && (4 * i + 1) % 4 == 1; }
    assert r[4 * i + 2] == ProductEntry(a, b, i, 2) by { assert (4 * i + 2) / 4 == i && (4 * i + 2) % 4 == 2; }
    assert r[4 * i + 3] == ProductEntry(a, b, i, 3) by { assert (4 * i + 3) / 4 == i && (4 * i + 3) % 4 == 3; }
    Vec4Equal(Column(r, i), Apply(a, c));
  }

  /** Entry 4 * i + j of the product is the entry formula of `multiply` for row j, column i. */
  lemma ProductAt(a: Mat4, b: Mat4, i: int, j: int)
    requires 0 <= i < 4 && 0 <= j < 4
    ensures Product(a, b)[4 * i + j] == ProductEntry(a, b, i, j)
  {
    assert (4 * i + j) / 4 == i && (4 * i + j) % 4 == j;
  }

  /**
   * main.js's `multiply`: fills a fresh 16-entry buffer, column by
   * column, in a nested loop.
   */
  method Multiply(a: Mat4, b: Mat4) returns (r: Mat4)
    ensures r == Product(a, b)
  {
    ghost var p := Product(a, b);
    var out := new real[16](_ => 0.0);
    for i := 0 to 4
      invariant out[..4 * i] == p[..4 * i]
    {
      for j := 0 to 4
        invariant out[..4 * i + j] == p[..4 * i + j]
      {
        ghost var k := 4 * i + j;
        ProductAt(a, b, i, j);
        out[i * 4 + j] := a[j] * b[i * 4] + a[j + 4] * b[i * 4 + 1] + a[j + 8] * b[i * 4 + 2] + a[j + 12] * b[i * 4 + 3];
        assert out[k] == ProductEntry(a, b, i, j);
        assert out[..k + 1] == out[..k] + [out[k]];
      }
    }
    assert out[..] == out[..16];
    r := out[..];
  }

  /** Translation by (x, y, z): identity 3x3 block, offset in the last column. */
  function Translate(x: real, y: real, z: real): (m: Mat4)
    // each coordinate gains its offset times w, and w is kept
    ensures forall v: Vec4 :: RowTimes(m, 0, v) == v[0] + x * v[3] && RowTimes(m, 1, v) == v[1] + y * v[3]
    ensures forall v: Vec4 :: RowTimes(m, 2, v) == v[2] + z * v[3] && RowTimes(m, 3, v) == v[3]
  {
    [1.0, 0.0, 0.0, 0.0,  0.0, 1.0, 0.0, 0.0,  0.0, 0.0, 1.0, 0.0,  x, y, z, 1.0]
  }

  /** Rotation about the x axis, with c and s the cosine and sine of the angle. */
  function RotateX(a: Angle): (m: Mat4)
    // x and w are kept
    ensures forall v: Vec4 :: RowTimes(m, 0, v) == v[0] && RowTimes(m, 3, v) == v[3]
    ensures a == ZeroAngle ==> m == Identity
  {
    var c, s := a.cos, a.sin;
    [1.0, 0.0, 0.0, 0.0,  0.0, c, s, 0.0,  0.0, -s, c, 0.0,  0.0, 0.0, 0.0, 1.0]
  }

  /** Rotation about the y axis, with c and s the cosine and sine of the angle. */
  function RotateY(a: Angle): (m: Mat4)
    // y and w are kept
    ensures forall v: Vec4 :: RowTimes(m, 1, v) == v[1] && RowTimes(m, 3, v) == v[3]
    ensures a == ZeroAngle ==> m == Identity
  {
    var c, s := a.cos, a.sin;
    [c, 0.0, -s, 0.0,  0.0, 1.0, 0.0, 0.0,  s, 0.0, c, 0.0,  0.0, 0.0, 0.0, 1.0]
  }

  /**
   * Perspective projection with focal term f (the cotangent of half the
   * vertical field of view, computed outside), aspect ratio and clip planes.
   */
  function Perspective(f: real, aspect: real, near: real, far: real): (m: Mat4)
    requires aspect != 0.0 && near != far
    // x and y are scaled by the focal term, and the clip w is the depth in front of the camera
    ensures forall v: Vec4 :: RowTimes(m, 0, v) == f / aspect * v[0] && RowTimes(m, 1, v) == f * v[1]
    ensures forall v: Vec4 :: RowTimes(m, 3, v) == -v[2]
  {
    var rangeInv := 1.0 / (near - far);
    [f / aspect, 0.0, 0.0, 0.0,
     0.0, f, 0.0, 0.0,
     0.0, 0.0, (near + far) * rangeInv, -1.0,
     0.0, 0.0, near * far * rangeInv * 2.0, 0.0]
  }

  // ---------------------------------------------------------------------
  // Equality helpers

  /** Two matrices that agree in every entry are equal. */
  lemma Mat4Equal(m: Mat4, n: Mat4)
    requires m[0] == n[0] && m[1] == n[1] && m[2] == n[2] && m[3] == n[3]
    requires m[4] == n[4] && m[5] == n[5] && m[6] == n[6] && m[7] == n[7]
    requires m[8] == n[8] && m[9] == n[9] && m[10] == n[10] && m[11] == n[11]
    requires m[12] == n[12] && m[13] == n[13] && m[14] == n[14] && m[15] == n[15]
    ensures m == n
  {
    forall k | 0 <= k < 16
      ensures m[k] == n[k]
    {
      assert k == 0 || k == 1 || k == 2 || k == 3 || k == 4 || k == 5 || k == 6 || k == 7
          || k == 8 || k == 9 || k == 10 || k == 11 || k == 12 || k == 13 || k == 14 || k == 15;
    }
  }

  /** The product written out entry by entry, index 4 * i + j holding ProductEntry(a, b, i, j). */
  lemma ProductEntries(a: Mat4, b: Mat4)
    ensures var p := Product(a, b);
      p[0] == ProductEntry(a, b, 0, 0) && p[1] == ProductEntry(a, b, 0, 1) &&
      p[2] == ProductEntry(a, b, 0, 2) && p[3] == ProductEntry(a, b, 0, 3) &&
      p[4] == ProductEntry(a, b, 1, 0) && p[5] == ProductEntry(a, b, 1, 1) &&
      p[6] == ProductEntry(a, b, 1, 2) && p[7] == ProductEntry(a, b, 1, 3) &&
      p[8] == ProductEntry(a, b, 2, 0) && p[9] == ProductEntry(a, b, 2, 1) &&
      p[10] == ProductEntry(a, b, 2, 2) && p[11] == ProductEntry(a, b, 2, 3) &&
      p[12] == ProductEntry(a, b, 3, 0) && p[13] == ProductEntry(a, b, 3, 1) &&
      p[14] == ProductEntry(a, b, 3, 2) && p[15] == ProductEntry(a, b, 3, 3)
  {
  }

  // ---------------------------------------------------------------------
  // Products

  /** Applying the identity changes no vector. */
  lemma ApplyIdentity(v: Vec4)
    ensures Apply(Identity, v) == v
  {
    var u := Apply(Identity, v);
    assert u[0] == RowTimes(Identity, 0, v) == v[0];
    assert u[1] == RowTimes(Identity, 1, v) == v[1];
    assert u[2] == RowTimes(Identity, 2, v) == v[2];
    assert u[3] == RowTimes(Identity, 3, v) == v[3];
    Vec4Equal(u, v);
  }

  /** A matrix is determined by its columns. */
  lemma ColumnsDetermine(m: Mat4, n: Mat4)
    requires forall i | 0 <= i < 4 :: Column(m, i) == Column(n, i)
    ensures m == n
  {
    forall k | 0 <= k < 16
      ensures m[k] == n[k]
    {
      var i := k / 4;
      assert Column(m, i)[k - 4 * i] == Column(n, i)[k - 4 * i];
    }
  }

  /** The product acts as its right factor followed by its left factor. */
  lemma ApplyProduct(a: Mat4, b: Mat4, v: Vec4)
    ensures Apply(Product(a, b), v) == Apply(a, Apply(b, v))
  {
    var p, w := Product(a, b), Apply(b, v);
    forall r | 0 <= r < 4
      ensures Apply(p, v)[r] == Apply(a, w)[r]
    {
      ProductRowEntries(a, b, r);
      RowOfProduct(a, b, p, v, r);
    }
    Vec4Equal(Apply(p, v), Apply(a, w));
  }

  /** Row r of the product, read off the entry formula of `multiply`. */
  lemma ProductRowEntries(a: Mat4, b: Mat4, r: int)
    requires 0 <= r < 4
    ensures var p := Product(a, b);
      && p[r] == a[r] * b[0] + a[r + 4] * b[1] + a[r + 8] * b[2] + a[r + 12] * b[3]
      && p[r + 4] == a[r] * b[4] + a[r + 4] * b[5] + a[r + 8] * b[6] + a[r + 12] * b[7]
      && p[r + 8] == a[r] * b[8] + a[r + 4] * b[9] + a[r + 8] * b[10] + a[r + 12] * b[11]
      && p[r + 12] == a[r] * b[12] + a[r + 4] * b[13] + a[r + 8] * b[14] + a[r + 12] * b[15]
  {
    assert r / 4 == 0 && r % 4 == r;
    assert (r + 4) / 4 == 1 && (r + 4) % 4 == r;
    assert (r + 8) / 4 == 2 && (r + 8) % 4 == r;
    assert (r + 12) / 4 == 3 && (r + 12) % 4 == r;
  }

  /** A sum of four terms times a factor, term by term. */
  lemma DistributeRight(x0: real, x1: real, x2: real, x3: real, c: real)
    ensures (x0 + x1 + x2 + x3) * c == x0 * c + x1 * c + x2 * c + x3 * c
  {
  }

  /** A factor times a sum of four terms, term by term. */
  lemma DistributeLeft(c: real, x0: real, x1: real, x2: real, x3: real)
    ensures c * (x0 + x1 + x2 + x3) == c * x0 + c * x1 + c * x2 + c * x3
  {
  }

  /**
   * One coordinate of ApplyProduct: if row r of p is row r of a times b,
   * then row r of p times v is row r of a times b * v. Both sides are the
   * sum of the sixteen terms a[r + 4j] * b[4k + j] * v[k].
   */
  lemma RowOfProduct(a: Mat4, b: Mat4, p: Mat4, v: Vec4, r: int)
    requires 0 <= r < 4
    requires p[r] == a[r] * b[0] + a[r + 4] * b[1] + a[r + 8] * b[2] + a[r + 12] * b[3]
    requires p[r + 4] == a[r] * b[4] + a[r + 4] * b[5] + a[r + 8] * b[6] + a[r + 12] * b[7]
    requires p[r + 8] == a[r] * b[8] + a[r + 4] * b[9] + a[r + 8] * b[10] + a[r + 12] * b[11]
    requires p[r + 12] == a[r] * b[12] + a[r + 4] * b[13] + a[r + 8] * b[14] + a[r + 12] * b[15]
    ensures RowTimes(p, r, v) == RowTimes(a, r, Apply(b, v))
  {
    var a0, a1, a2, a3 := a[r], a[r + 4], a[r + 8], a[r + 12];
    var w := Apply(b, v);
    assert w[0] == b[0] * v[0] + b[4] * v[1] + b[8] * v[2] + b[12] * v[3];
    assert w[1] == b[1] * v[0] + b[5] * v[1] + b[9] * v[2] + b[13] * v[3];
    assert w[2] == b[2] * v[0] + b[6] * v[1] + b[10] * v[2] + b[14] * v[3];
    assert w[3] == b[3] * v[0] + b[7] * v[1] + b[11] * v[2] + b[15] * v[3];
    DistributeRight(a0 * b[0], a1 * b[1], a2 * b[2], a3 * b[3], v[0]);
    DistributeRight(a0 * b[4], a1 * b[5], a2 * b[6], a3 * b[7], v[1]);
    DistributeRight(a0 * b[8], a1 * b[9], a2 * b[10], a3 * b[11], v[2]);
    DistributeRight(a0 * b[12], a1 * b[13], a2 * b[14], a3 * b[15], v[3]);
    DistributeLeft(a0, b[0] * v[0], b[4] * v[1], b[8] * v[2], b[12] * v[3]);
    DistributeLeft(a1, b[1] * v[0], b[5] * v[1], b[9] * v[2], b[13] * v[3]);
    DistributeLeft(a2, b[2] * v[0], b[6] * v[1], b[10] * v[2], b[14] * v[3]);
    DistributeLeft(a3, b[3] * v[0], b[7] * v[1], b[11] * v[2], b[15] * v[3]);
  }

  /** multiply(I, m) == m. */
  lemma ProductIdentityLeft(m: Mat4)
    ensures Product(Identity, m) == m
  {
    ProductEntries(Identity, m);
    Mat4Equal(Product(Identity, m), m);
  }

  /** multiply(m, I) == m. */
  lemma ProductIdentityRight(m: Mat4)
    ensures Product(m, Identity) == m
  {
    ProductEntries(m, Identity);
    Mat4Equal(Product(m, Identity), m);
  }

  /** The product is associative, so a chain of products can be grouped either way. */
  lemma ProductAssociative(a: Mat4, b: Mat4, c: Mat4)
    ensures Product(Product(a, b), c) == Product(a, Product(b, c))
  {
    var left, right := Product(Product(a, b), c), Product(a, Product(b, c));
    forall i | 0 <= i < 4
      ensures Column(left, i) == Column(right, i)
    {
      ApplyProduct(a, b, Column(c, i));
    }
    ColumnsDetermine(left, right);
  }

  // ---------------------------------------------------------------------
  // Translation

  /** translate(0, 0, 0) is the identity. */
  lemma TranslateZeroIsIdentity()
    ensures Translate(0.0, 0.0, 0.0) == Identity
  {
  }

  /** A translation moves a point (w = 1) by its offset and leaves a direction (w = 0) alone. */
  lemma TranslateMovesPoints(x: real, y: real, z: real, p: Vec4)
    ensures p[3] == 1.0 ==> Apply(Translate(x, y, z), p) == [p[0] + x, p[1] + y, p[2] + z, 1.0]
    ensures p[3] == 0.0 ==> Apply(Translate(x, y, z), p) == p
  {
    var q := Apply(Translate(x, y, z), p);
    if p[3] == 1.0 {
      Vec4Equal(q, [p[0] + x, p[1] + y, p[2] + z, 1.0]);
    }
    if p[3] == 0.0 {
      Vec4Equal(q, p);
    }
  }

  /** Two translations compose to the translation by the summed offsets. */
  lemma TranslateCompose(x1: real, y1: real, z1: real, x2: real, y2: real, z2: real)
    ensures Product(Translate(x1, y1, z1), Translate(x2, y2, z2)) == Translate(x1 + x2, y1 + y2, z1 + z2)
  {
    ProductEntries(Translate(x1, y1, z1), Translate(x2, y2, z2));
    Mat4Equal(Product(Translate(x1, y1, z1), Translate(x2, y2, z2)), Translate(x1 + x2, y1 + y2, z1 + z2));
  }

  // ---------------------------------------------------------------------
  // Rotations

  /** rotateX(0) and rotateY(0) are the identity. */
  lemma RotationsAtZeroAreIdentity()
    ensures RotateX(ZeroAngle) == Identity
    ensures RotateY(ZeroAngle) == Identity
  {
  }

  /** Rotation about x fixes x and w and turns (y, z) by the angle. */
  lemma RotateXTurnsYZ(a: Angle, v: Vec4)
    ensures Apply(RotateX(a), v) ==
      [v[0], a.cos * v[1] - a.sin * v[2], a.sin * v[1] + a.cos * v[2], v[3]]
  {
    Vec4Equal(Apply(RotateX(a), v), [v[0], a.cos * v[1] - a.sin * v[2], a.sin * v[1] + a.cos * v[2], v[3]]);
  }

  /** Rotation about y fixes y and w and turns (z, x) by the angle. */
  lemma RotateYTurnsZX(a: Angle, v: Vec4)
    ensures Apply(RotateY(a), v) ==
      [a.cos * v[0] + a.sin * v[2], v[1], -a.sin * v[0] + a.cos * v[2], v[3]]
  {
    Vec4Equal(Apply(RotateY(a), v), [a.cos * v[0] + a.sin * v[2], v[1], -a.sin * v[0] + a.cos * v[2], v[3]]);
  }

  /** A rotation by a genuine angle keeps the distance from its axis. */
  lemma RotationsKeepLength(a: Angle, v: Vec4)
    requires IsUnit(a)
    ensures var u := Apply(RotateX(a), v); u[1] * u[1] + u[2] * u[2] == v[1] * v[1] + v[2] * v[2]
    ensures var u := Apply(RotateY(a), v); u[0] * u[0] + u[2] * u[2] == v[0] * v[0] + v[2] * v[2]
  {
    var c, s := a.cos, a.sin;
    RotateXTurnsYZ(a, v);
    RotateYTurnsZX(a, v);
    assert (c * v[1] - s * v[2]) * (c * v[1] - s * v[2]) + (s * v[1] + c * v[2]) * (s * v[1] + c * v[2])
        == (c * c + s * s) * (v[1] * v[1] + v[2] * v[2]);
    assert (c * v[0] + s * v[2]) * (c * v[0] + s * v[2]) + (-s * v[0] + c * v[2]) * (-s * v[0] + c * v[2])
        == (c * c + s * s) * (v[0] * v[0] + v[2] * v[2]);
  }

  /** A matrix whose every entry is the product formula's is the product. */
  lemma ProductByEntries(a: Mat4, b: Mat4, t: Mat4)
    requires t[0] == ProductEntry(a, b, 0, 0) && t[1] == ProductEntry(a, b, 0, 1)
    requires t[2] == ProductEntry(a, b, 0, 2) && t[3] == ProductEntry(a, b, 0, 3)
    requires t[4] == ProductEntry(a, b, 1, 0) && t[5] == ProductEntry(a, b, 1, 1)
    requires t[6] == ProductEntry(a, b, 1, 2) && t[7] == ProductEntry(a, b, 1, 3)
    requires t[8] == ProductEntry(a, b, 2, 0) && t[9] == ProductEntry(a, b, 2, 1)
    requires t[10] == ProductEntry(a, b, 2, 2) && t[11] == ProductEntry(a, b, 2, 3)
    requires t[12] == ProductEntry(a, b, 3, 0) && t[13] == ProductEntry(a, b, 3, 1)
    requires t[14] == ProductEntry(a, b, 3, 2) && t[15] == ProductEntry(a, b, 3, 3)
    ensures Product(a, b) == t
  {
    ProductEntries(a, b);
    Mat4Equal(Product(a, b), t);
  }

  /** Successive rotations about x add their angles. */
  lemma RotateXCompose(a: Angle, b: Angle)
    ensures Product(RotateX(a), RotateX(b)) == RotateX(AddAngles(a, b))
  {
    ProductByEntries(RotateX(a), RotateX(b), RotateX(AddAngles(a, b)));
  }

  /** Successive rotations about y add their angles. */
  lemma RotateYCompose(a: Angle, b: Angle)
    ensures Product(RotateY(a), RotateY(b)) == RotateY(AddAngles(a, b))
  {
    ProductByEntries(RotateY(a), RotateY(b), RotateY(AddAngles(a, b)));
  }

  /** Rotating by a genuine angle and then back by its negation is the identity. */
  lemma RotateRoundTrip(a: Angle)
    requires IsUnit(a)
    ensures Product(RotateX(a), RotateX(NegateAngle(a))) == Identity
    ensures Product(RotateY(a), RotateY(NegateAngle(a))) == Identity
  {
    assert AddAngles(a, NegateAngle(a)) == ZeroAngle;
    RotateXCompose(a, NegateAngle(a));
    RotateYCompose(a, NegateAngle(a));
    RotationsAtZeroAreIdentity();
  }

  // ---------------------------------------------------------------------
  // Projection

  /**
   * The projection scales x by f / aspect and y by f, puts -z into w, and
   * maps the near plane to clip depth -w and the far plane to clip depth +w,
   * the two ends of the normalised depth range.
   */
  lemma PerspectiveMapsDepthRange(f: real, aspect: real, near: real, far: real, x: real, y: real)
    requires aspect != 0.0 && near != far
    ensures var c := Apply(Perspective(f, aspect, near, far), [x, y, -near, 1.0]);
      c[0] * aspect == x * f && c[1] == y * f && c[3] == near && c[2] == -c[3]
    ensures var c := Apply(Perspective(f, aspect, near, far), [x, y, -far, 1.0]);
      c[0] * aspect == x * f && c[1] == y * f && c[3] == far && c[2] == c[3]
  {
    var p := Perspective(f, aspect, near, far);
    var d := near - far;
    assert p[10] * d == near + far;
    assert p[14] * d == 2.0 * near * far;
    assert p[0] * aspect == f;
  }
}
