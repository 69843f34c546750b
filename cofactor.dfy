/** The Leibniz formula for 3x3 and 4x4 determinants over plain real entries, and the
    cofactor (Laplace) expansions and the product rule that the matrix lemmas rest on.

    Entries are passed row by row: `aRC` is the entry in row R and column C. Each expansion
    is stated as a `Dot` of a row (or a column) with a vector of signed cofactors `k0, k1,
    ...`, which is exactly the shape in which a matrix product computes one of its entries:
    a matrix lemma instantiates these facts with its own entries and cofactors, and what is
    left for it to do is to match terms, with no arithmetic. The small facts about
    quotients and rotations (`DivideScale` to `RotationDeterminant`) play the same part for
    the projection and rotation factories.
 */
module Cofactor {
  import opened Vector

  /** The Leibniz formula for a 3x3 determinant. */
  function Det3(a00: real, a01: real, a02: real, a10: real, a11: real, a12: real, a20: real, a21: real, a22: real): real
  {
    a00 * a11 * a22 - a00 * a12 * a21 - a01 * a10 * a22 + a01 * a12 * a20 + a02 * a10 * a21 - a02 * a11 * a20
  }

  /** The Leibniz formula for a 4x4 determinant: one signed product per permutation of the columns. */
  function Det4(a00: real, a01: real, a02: real, a03: real, a10: real, a11: real, a12: real, a13: real, a20: real, a21: real, a22: real, a23: real, a30: real, a31: real, a32: real, a33: real): real
  {
    a00 * a11 * a22 * a33 - a00 * a11 * a23 * a32
    - a00 * a12 * a21 * a33 + a00 * a12 * a23 * a31
    + a00 * a13 * a21 * a32 - a00 * a13 * a22 * a31
    - a01 * a10 * a22 * a33 + a01 * a10 * a23 * a32
    + a01 * a12 * a20 * a33 - a01 * a12 * a23 * a30
    - a01 * a13 * a20 * a32 + a01 * a13 * a22 * a30
    + a02 * a10 * a21 * a33 - a02 * a10 * a23 * a31
    - a02 * a11 * a20 * a33 + a02 * a11 * a23 * a30
    + a02 * a13 * a20 * a31 - a02 * a13 * a21 * a30
    - a03 * a10 * a21 * a32 + a03 * a10 * a22 * a31
    + a03 * a11 * a20 * a32 - a03 * a11 * a22 * a30
    - a03 * a12 * a20 * a31 + a03 * a12 * a21 * a30
  }

  /* The cofactors of a 3x3 matrix with columns `p, q, r` and rows `u, v, w` (so that
     `u == (p.x, q.x, r.x)`), once as cross products of columns and once as cross products
     of rows: `CrossEntryIJ` equates component J of column cross product I (`q x r`,
     `r x p`, `p x q`) with component I of row cross product J (`v x w`, `w x u`, `u x v`). */

  lemma CrossEntryXX(p: Vector3, q: Vector3, r: Vector3)
    ensures Vector3.Cross(q, r).x == Vector3.Cross(Vector3(p.y, q.y, r.y), Vector3(p.z, q.z, r.z)).x
  {
  }

  lemma CrossEntryXY(p: Vector3, q: Vector3, r: Vector3)
    ensures Vector3.Cross(q, r).y == Vector3.Cross(Vector3(p.z, q.z, r.z), Vector3(p.x, q.x, r.x)).x
  {
  }

  lemma CrossEntryXZ(p: Vector3, q: Vector3, r: Vector3)
    ensures Vector3.Cross(q, r).z == Vector3.Cross(Vector3(p.x, q.x, r.x), Vector3(p.y, q.y, r.y)).x
  {
  }

  /** Column `x` of the cofactors: component `x` of the cross products of the rows `u, v, w`
      of a 3x3 matrix, taken cyclically, is the cross product of two of its columns `p, q, r`. */
  lemma CrossTransposeX(p: Vector3, q: Vector3, r: Vector3)
    ensures Vector3.Cross(q, r) == Vector3(Vector3.Cross(Vector3(p.y, q.y, r.y), Vector3(p.z, q.z, r.z)).x, Vector3.Cross(Vector3(p.z, q.z, r.z), Vector3(p.x, q.x, r.x)).x, Vector3.Cross(Vector3(p.x, q.x, r.x), Vector3(p.y, q.y, r.y)).x)
  {
    CrossEntryXX(p, q, r);
    CrossEntryXY(p, q, r);
    CrossEntryXZ(p, q, r);
  }

  lemma CrossEntryYX(p: Vector3, q: Vector3, r: Vector3)
    ensures Vector3.Cross(r, p).x == Vector3.Cross(Vector3(p.y, q.y, r.y), Vector3(p.z, q.z, r.z)).y
  {
  }

  lemma CrossEntryYY(p: Vector3, q: Vector3, r: Vector3)
    ensures Vector3.Cross(r, p).y == Vector3.Cross(Vector3(p.z, q.z, r.z), Vector3(p.x, q.x, r.x)).y
  {
  }

  lemma CrossEntryYZ(p: Vector3, q: Vector3, r: Vector3)
    ensures Vector3.Cross(r, p).z == Vector3.Cross(Vector3(p.x, q.x, r.x), Vector3(p.y, q.y, r.y)).y
  {
  }

  /** Column `y` of the cofactors: component `y` of the cross products of the rows `u, v, w`
      of a 3x3 matrix, taken cyclically, is the cross product of two of its columns `p, q, r`. */
  lemma CrossTransposeY(p: Vector3, q: Vector3, r: Vector3)
    ensures Vector3.Cross(r, p) == Vector3(Vector3.Cross(Vector3(p.y, q.y, r.y), Vector3(p.z, q.z, r.z)).y, Vector3.Cross(Vector3(p.z, q.z, r.z), Vector3(p.x, q.x, r.x)).y, Vector3.Cross(Vector3(p.x, q.x, r.x), Vector3(p.y, q.y, r.y)).y)
  {
    CrossEntryYX(p, q, r);
    CrossEntryYY(p, q, r);
    CrossEntryYZ(p, q, r);
  }

  lemma CrossEntryZX(p: Vector3, q: Vector3, r: Vector3)
    ensures Vector3.Cross(p, q).x == Vector3.Cross(Vector3(p.y, q.y, r.y), Vector3(p.z, q.z, r.z)).z
  {
  }

  lemma CrossEntryZY(p: Vector3, q: Vector3, r: Vector3)
    ensures Vector3.Cross(p, q).y == Vector3.Cross(Vector3(p.z, q.z, r.z), Vector3(p.x, q.x, r.x)).z
  {
  }

  lemma CrossEntryZZ(p: Vector3, q: Vector3, r: Vector3)
    ensures Vector3.Cross(p, q).z == Vector3.Cross(Vector3(p.x, q.x, r.x), Vector3(p.y, q.y, r.y)).z
  {
  }

  /** Column `z` of the cofactors: component `z` of the cross products of the rows `u, v, w`
      of a 3x3 matrix, taken cyclically, is the cross product of two of its columns `p, q, r`. */
  lemma CrossTransposeZ(p: Vector3, q: Vector3, r: Vector3)
    ensures Vector3.Cross(p, q) == Vector3(Vector3.Cross(Vector3(p.y, q.y, r.y), Vector3(p.z, q.z, r.z)).z, Vector3.Cross(Vector3(p.z, q.z, r.z), Vector3(p.x, q.x, r.x)).z, Vector3.Cross(Vector3(p.x, q.x, r.x), Vector3(p.y, q.y, r.y)).z)
  {
    CrossEntryZX(p, q, r);
    CrossEntryZY(p, q, r);
    CrossEntryZZ(p, q, r);
  }

  /** Dividing by a nonzero `d` and multiplying by it again gives back `a`. */
  lemma DivideScale(a: real, d: real)
    requires d != 0.0
    ensures a / d * d == a
  {
  }

  /** The affine map `x |-> 2 x / (hi - lo) - (hi + lo) / (hi - lo)` of an orthographic
      projection sends `lo` to -1 and `hi` to 1. */
  lemma OrthoAxis(lo: real, hi: real)
    requires hi != lo
    ensures 2.0 / (hi - lo) * lo + -(hi + lo) / (hi - lo) == -1.0
    ensures 2.0 / (hi - lo) * hi + -(hi + lo) / (hi - lo) == 1.0
  {
  }

  /** The depth row of an orthographic projection sends `-near` to -1 and `-far` to 1. */
  lemma OrthoDepth(near: real, far: real)
    requires far != near
    ensures -2.0 / (far - near) * -near + -(far + near) / (far - near) == -1.0
    ensures -2.0 / (far - near) * -far + -(far + near) / (far - near) == 1.0
  {
  }

  /** The depth row of a perspective projection sends `-near` to `-near` and `-far` to `far`. */
  lemma PerspectiveDepth(near: real, far: real)
    requires near != far
    ensures (far + near) / (near - far) * -near + 2.0 * far * near / (near - far) == -near
    ensures (far + near) / (near - far) * -far + 2.0 * far * near / (near - far) == far
  {
  }

  /** The columns `(c, s, 0)`, `(-s, c, 0)` and `(0, 0, 1)` of a 2D rotation are orthonormal. */
  lemma RotationColumns(s: real, c: real)
    requires s * s + c * c == 1.0
    ensures Vector3.Dot(Vector3(c, s, 0.0), Vector3(c, s, 0.0)) == 1.0
    ensures Vector3.Dot(Vector3(-s, c, 0.0), Vector3(-s, c, 0.0)) == 1.0
    ensures Vector3.Dot(Vector3(0.0, 0.0, 1.0), Vector3(0.0, 0.0, 1.0)) == 1.0
    ensures Vector3.Dot(Vector3(c, s, 0.0), Vector3(-s, c, 0.0)) == 0.0
    ensures Vector3.Dot(Vector3(-s, c, 0.0), Vector3(c, s, 0.0)) == 0.0
    ensures Vector3.Dot(Vector3(c, s, 0.0), Vector3(0.0, 0.0, 1.0)) == 0.0
    ensures Vector3.Dot(Vector3(0.0, 0.0, 1.0), Vector3(c, s, 0.0)) == 0.0
    ensures Vector3.Dot(Vector3(-s, c, 0.0), Vector3(0.0, 0.0, 1.0)) == 0.0
    ensures Vector3.Dot(Vector3(0.0, 0.0, 1.0), Vector3(-s, c, 0.0)) == 0.0
  {
  }

  /** The determinant of a 2D rotation is `c^2 + s^2`. */
  lemma RotationDeterminant(s: real, c: real)
    requires s * s + c * c == 1.0
    ensures Det3(c, -s, 0.0, s, c, 0.0, 0.0, 0.0, 1.0) == 1.0
  {
  }

  /** A row dotted with cofactors of alternating sign is the alternating sum of products. */
  lemma AlternatingDot(a0: real, a1: real, a2: real, a3: real, d0: real, d1: real, d2: real, d3: real)
    ensures Vector4.Dot(Vector4(a0, a1, a2, a3), Vector4(d0, -d1, d2, -d3)) == a0 * d0 - a1 * d1 + a2 * d2 - a3 * d3
  {
  }

  /** A 3x3 determinant does not change when rows and columns are exchanged. */
  lemma Det3Transpose(a00: real, a01: real, a02: real, a10: real, a11: real, a12: real, a20: real, a21: real, a22: real)
    ensures Det3(a00, a10, a20, a01, a11, a21, a02, a12, a22) == Det3(a00, a01, a02, a10, a11, a12, a20, a21, a22)
  {
  }

  /** A 4x4 determinant does not change when rows and columns are exchanged. */
  lemma Det4Transpose(a00: real, a01: real, a02: real, a03: real, a10: real, a11: real, a12: real, a13: real, a20: real, a21: real, a22: real, a23: real, a30: real, a31: real, a32: real, a33: real)
    ensures Det4(a00, a10, a20, a30, a01, a11, a21, a31, a02, a12, a22, a32, a03, a13, a23, a33)
        == Det4(a00, a01, a02, a03, a10, a11, a12, a13, a20, a21, a22, a23, a30, a31, a32, a33)
  {
  }

  /** The product rule for 3x3 determinants, with the entries of the product written out. */
  lemma Det3ProductPolynomial(a00: real, a01: real, a02: real, a10: real, a11: real, a12: real, a20: real, a21: real, a22: real,
      b00: real, b01: real, b02: real, b10: real, b11: real, b12: real, b20: real, b21: real, b22: real)
    ensures Det3(
        a00 * b00 + a01 * b10 + a02 * b20, a00 * b01 + a01 * b11 + a02 * b21, a00 * b02 + a01 * b12 + a02 * b22,
        a10 * b00 + a11 * b10 + a12 * b20, a10 * b01 + a11 * b11 + a12 * b21, a10 * b02 + a11 * b12 + a12 * b22,
        a20 * b00 + a21 * b10 + a22 * b20, a20 * b01 + a21 * b11 + a22 * b21, a20 * b02 + a21 * b12 + a22 * b22)
      == Det3(a00, a01, a02, a10, a11, a12, a20, a21, a22) * Det3(b00, b01, b02, b10, b11, b12, b20, b21, b22)
  {
  }

  /** The product rule for 3x3 determinants: if `cIJ` is row I of `a` dotted with column J
      of `b`, then `det(c) == det(a) * det(b)`. */
  lemma Det3Product(a00: real, a01: real, a02: real, a10: real, a11: real, a12: real, a20: real, a21: real, a22: real,
      b00: real, b01: real, b02: real, b10: real, b11: real, b12: real, b20: real, b21: real, b22: real,
      c00: real, c01: real, c02: real, c10: real, c11: real, c12: real, c20: real, c21: real, c22: real)
    requires c00 == Vector3.Dot(Vector3(a00, a01, a02), Vector3(b00, b10, b20))
    requires c01 == Vector3.Dot(Vector3(a00, a01, a02), Vector3(b01, b11, b21))
    requires c02 == Vector3.Dot(Vector3(a00, a01, a02), Vector3(b02, b12, b22))
    requires c10 == Vector3.Dot(Vector3(a10, a11, a12), Vector3(b00, b10, b20))
    requires c11 == Vector3.Dot(Vector3(a10, a11, a12), Vector3(b01, b11, b21))
    requires c12 == Vector3.Dot(Vector3(a10, a11, a12), Vector3(b02, b12, b22))
    requires c20 == Vector3.Dot(Vector3(a20, a21, a22), Vector3(b00, b10, b20))
    requires c21 == Vector3.Dot(Vector3(a20, a21, a22), Vector3(b01, b11, b21))
    requires c22 == Vector3.Dot(Vector3(a20, a21, a22), Vector3(b02, b12, b22))
    ensures Det3(c00, c01, c02, c10, c11, c12, c20, c21, c22) == Det3(a00, a01, a02, a10, a11, a12, a20, a21, a22) * Det3(b00, b01, b02, b10, b11, b12, b20, b21, b22)
  {
    assert c00 == a00 * b00 + a01 * b10 + a02 * b20;
    assert c01 == a00 * b01 + a01 * b11 + a02 * b21;
    assert c02 == a00 * b02 + a01 * b12 + a02 * b22;
    assert c10 == a10 * b00 + a11 * b10 + a12 * b20;
    assert c11 == a10 * b01 + a11 * b11 + a12 * b21;
    assert c12 == a10 * b02 + a11 * b12 + a12 * b22;
    assert c20 == a20 * b00 + a21 * b10 + a22 * b20;
    assert c21 == a20 * b01 + a21 * b11 + a22 * b21;
    assert c22 == a20 * b02 + a21 * b12 + a22 * b22;
    Det3ProductPolynomial(a00, a01, a02, a10, a11, a12, a20, a21, a22,
      b00, b01, b02, b10, b11, b12, b20, b21, b22);
  }

  /* Row expansions of a 4x4 determinant. `RowExpansionI` expands it along row I;
     `AlienRowIJ` (I != J) pairs row I with the signed cofactors of row J, which expands the
     determinant of a matrix with two equal rows: zero. These sixteen lemmas, and the
     sixteen column expansions after them, are proof steps only: each supplies one entry of
     `m * adj(m)` (in `Matrix.Matrix4.AdjugateProductRight`) or of `adj(m) * m` (in
     `Matrix.Matrix4.AdjugateProductLeft`), and `RowExpansion0` is also the first-row
     expansion behind `Matrix.Matrix4.Leibniz`. */

  lemma RowExpansion0(a00: real, a01: real, a02: real, a03: real, a10: real, a11: real, a12: real, a13: real, a20: real, a21: real, a22: real, a23: real, a30: real, a31: real, a32: real, a33: real,
      k0: real, k1: real, k2: real, k3: real)
    requires k0 == Det3(a11, a12, a13, a21, a22, a23, a31, a32, a33)
    requires k1 == -Det3(a10, a12, a13, a20, a22, a23, a30, a32, a33)
    requires k2 == Det3(a10, a11, a13, a20, a21, a23, a30, a31, a33)
    requires k3 == -Det3(a10, a11, a12, a20, a21, a22, a30, a31, a32)
    ensures Vector4.Dot(Vector4(a00, a01, a02, a03), Vector4(k0, k1, k2, k3))
        == Det4(a00, a01, a02, a03, a10, a11, a12, a13, a20, a21, a22, a23, a30, a31, a32, a33)
  {
  }

  lemma AlienRow01(a00: real, a01: real, a02: real, a03: real, a10: real, a11: real, a12: real, a13: real, a20: real, a21: real, a22: real, a23: real, a30: real, a31: real, a32: real, a33: real,
      k0: real, k1: real, k2: real, k3: real)
    requires k0 == -Det3(a01, a02, a03, a21, a22, a23, a31, a32, a33)
    requires k1 == Det3(a00, a02, a03, a20, a22, a23, a30, a32, a33)
    requires k2 == -Det3(a00, a01, a03, a20, a21, a23, a30, a31, a33)
    requires k3 == Det3(a00, a01, a02, a20, a21, a22, a30, a31, a32)
    ensures Vector4.Dot(Vector4(a00, a01, a02, a03), Vector4(k0, k1, k2, k3))
        == 0.0
  {
  }

  lemma AlienRow02(a00: real, a01: real, a02: real, a03: real, a10: real, a11: real, a12: real, a13: real, a20: real, a21: real, a22: real, a23: real, a30: real, a31: real, a32: real, a33: real,
      k0: real, k1: real, k2: real, k3: real)
    requires k0 == Det3(a01, a02, a03, a11, a12, a13, a31, a32, a33)
    requires k1 == -Det3(a00, a02, a03, a10, a12, a13, a30, a32, a33)
    requires k2 == Det3(a00, a01, a03, a10, a11, a13, a30, a31, a33)
    requires k3 == -Det3(a00, a01, a02, a10, a11, a12, a30, a31, a32)
    ensures Vector4.Dot(Vector4(a00, a01, a02, a03), Vector4(k0, k1, k2, k3))
        == 0.0
  {
  }

  lemma AlienRow03(a00: real, a01: real, a02: real, a03: real, a10: real, a11: real, a12: real, a13: real, a20: real, a21: real, a22: real, a23: real, a30: real, a31: real, a32: real, a33: real,
      k0: real, k1: real, k2: real, k3: real)
    requires k0 == -Det3(a01, a02, a03, a11, a12, a13, a21, a22, a23)
    requires k1 == Det3(a00, a02, a03, a10, a12, a13, a20, a22, a23)
    requires k2 == -Det3(a00, a01, a03, a10, a11, a13, a20, a21, a23)
    requires k3 == Det3(a00, a01, a02, a10, a11, a12, a20, a21, a22)
    ensures Vector4.Dot(Vector4(a00, a01, a02, a03), Vector4(k0, k1, k2, k3))
        == 0.0
  {
  }

  lemma AlienRow10(a00: real, a01: real, a02: real, a03: real, a10: real, a11: real, a12: real, a13: real, a20: real, a21: real, a22: real, a23: real, a30: real, a31: real, a32: real, a33: real,
      k0: real, k1: real, k2: real, k3: real)
    requires k0 == Det3(a11, a12, a13, a21, a22, a23, a31, a32, a33)
    requires k1 == -Det3(a10, a12, a13, a20, a22, a23, a30, a32, a33)
    requires k2 == Det3(a10, a11, a13, a20, a21, a23, a30, a31, a33)
    requires k3 == -Det3(a10, a11, a12, a20, a21, a22, a30, a31, a32)
    ensures Vector4.Dot(Vector4(a10, a11, a12, a13), Vector4(k0, k1, k2, k3))
        == 0.0
  {
  }

  lemma RowExpansion1(a00: real, a01: real, a02: real, a03: real, a10: real, a11: real, a12: real, a13: real, a20: real, a21: real, a22: real, a23: real, a30: real, a31: real, a32: real, a33: real,
      k0: real, k1: real, k2: real, k3: real)
    requires k0 == -Det3(a01, a02, a03, a21, a22, a23, a31, a32, a33)
    requires k1 == Det3(a00, a02, a03, a20, a22, a23, a30, a32, a33)
    requires k2 == -Det3(a00, a01, a03, a20, a21, a23, a30, a31, a33)
    requires k3 == Det3(a00, a01, a02, a20, a21, a22, a30, a31, a32)
    ensures Vector4.Dot(Vector4(a10, a11, a12, a13), Vector4(k0, k1, k2, k3))
        == Det4(a00, a01, a02, a03, a10, a11, a12, a13, a20, a21, a22, a23, a30, a31, a32, a33)
  {
  }

  lemma AlienRow12(a00: real, a01: real, a02: real, a03: real, a10: real, a11: real, a12: real, a13: real, a20: real, a21: real, a22: real, a23: real, a30: real, a31: real, a32: real, a33: real,
      k0: real, k1: real, k2: real, k3: real)
    requires k0 == Det3(a01, a02, a03, a11, a12, a13, a31, a32, a33)
    requires k1 == -Det3(a00, a02, a03, a10, a12, a13, a30, a32, a33)
    requires k2 == Det3(a00, a01, a03, a10, a11, a13, a30, a31, a33)
    requires k3 == -Det3(a00, a01, a02, a10, a11, a12, a30, a31, a32)
    ensures Vector4.Dot(Vector4(a10, a11, a12, a13), Vector4(k0, k1, k2, k3))
        == 0.0
  {
  }

  lemma AlienRow13(a00: real, a01: real, a02: real, a03: real, a10: real, a11: real, a12: real, a13: real, a20: real, a21: real, a22: real, a23: real, a30: real, a31: real, a32: real, a33: real,
      k0: real, k1: real, k2: real, k3: real)
    requires k0 == -Det3(a01, a02, a03, a11, a12, a13, a21, a22, a23)
    requires k1 == Det3(a00, a02, a03, a10, a12, a13, a20, a22, a23)
    requires k2 == -Det3(a00, a01, a03, a10, a11, a13, a20, a21, a23)
    requires k3 == Det3(a00, a01, a02, a10, a11, a12, a20, a21, a22)
    ensures Vector4.Dot(Vector4(a10, a11, a12, a13), Vector4(k0, k1, k2, k3))
        == 0.0
  {
  }

  lemma AlienRow20(a00: real, a01: real, a02: real, a03: real, a10: real, a11: real, a12: real, a13: real, a20: real, a21: real, a22: real, a23: real, a30: real, a31: real, a32: real, a33: real,
      k0: real, k1: real, k2: real, k3: real)
    requires k0 == Det3(a11, a12, a13, a21, a22, a23, a31, a32, a33)
    requires k1 == -Det3(a10, a12, a13, a20, a22, a23, a30, a32, a33)
    requires k2 == Det3(a10, a11, a13, a20, a21, a23, a30, a31, a33)
    requires k3 == -Det3(a10, a11, a12, a20, a21, a22, a30, a31, a32)
    ensures Vector4.Dot(Vector4(a20, a21, a22, a23), Vector4(k0, k1, k2, k3))
        == 0.0
  {
  }

  lemma AlienRow21(a00: real, a01: real, a02: real, a03: real, a10: real, a11: real, a12: real, a13: real, a20: real, a21: real, a22: real, a23: real, a30: real, a31: real, a32: real, a33: real,
      k0: real, k1: real, k2: real, k3: real)
    requires k0 == -Det3(a01, a02, a03, a21, a22, a23, a31, a32, a33)
    requires k1 == Det3(a00, a02, a03, a20, a22, a23, a30, a32, a33)
    requires k2 == -Det3(a00, a01, a03, a20, a21, a23, a30, a31, a33)
    requires k3 == Det3(a00, a01, a02, a20, a21, a22, a30, a31, a32)
    ensures Vector4.Dot(Vector4(a20, a21, a22, a23), Vector4(k0, k1, k2, k3))
        == 0.0
  {
  }

  lemma RowExpansion2(a00: real, a01: real, a02: real, a03: real, a10: real, a11: real, a12: real, a13: real, a20: real, a21: real, a22: real, a23: real, a30: real, a31: real, a32: real, a33: real,
      k0: real, k1: real, k2: real, k3: real)
    requires k0 == Det3(a01, a02, a03, a11, a12, a13, a31, a32, a33)
    requires k1 == -Det3(a00, a02, a03, a10, a12, a13, a30, a32, a33)
    requires k2 == Det3(a00, a01, a03, a10, a11, a13, a30, a31, a33)
    requires k3 == -Det3(a00, a01, a02, a10, a11, a12, a30, a31, a32)
    ensures Vector4.Dot(Vector4(a20, a21, a22, a23), Vector4(k0, k1, k2, k3))
        == Det4(a00, a01, a02, a03, a10, a11, a12, a13, a20, a21, a22, a23, a30, a31, a32, a33)
  {
  }

  lemma AlienRow23(a00: real, a01: real, a02: real, a03: real, a10: real, a11: real, a12: real, a13: real, a20: real, a21: real, a22: real, a23: real, a30: real, a31: real, a32: real, a33: real,
      k0: real, k1: real, k2: real, k3: real)
    requires k0 == -Det3(a01, a02, a03, a11, a12, a13, a21, a22, a23)
    requires k1 == Det3(a00, a02, a03, a10, a12, a13, a20, a22, a23)
    requires k2 == -Det3(a00, a01, a03, a10, a11, a13, a20, a21, a23)
    requires k3 == Det3(a00, a01, a02, a10, a11, a12, a20, a21, a22)
    ensures Vector4.Dot(Vector4(a20, a21, a22, a23), Vector4(k0, k1, k2, k3))
        == 0.0
  {
  }

  lemma AlienRow30(a00: real, a01: real, a02: real, a03: real, a10: real, a11: real, a12: real, a13: real, a20: real, a21: real, a22: real, a23: real, a30: real, a31: real, a32: real, a33: real,
      k0: real, k1: real, k2: real, k3: real)
    requires k0 == Det3(a11, a12, a13, a21, a22, a23, a31, a32, a33)
    requires k1 == -Det3(a10, a12, a13, a20, a22, a23, a30, a32, a33)
    requires k2 == Det3(a10, a11, a13, a20, a21, a23, a30, a31, a33)
    requires k3 == -Det3(a10, a11, a12, a20, a21, a22, a30, a31, a32)
    ensures Vector4.Dot(Vector4(a30, a31, a32, a33), Vector4(k0, k1, k2, k3))
        == 0.0
  {
  }

  lemma AlienRow31(a00: real, a01: real, a02: real, a03: real, a10: real, a11: real, a12: real, a13: real, a20: real, a21: real, a22: real, a23: real, a30: real, a31: real, a32: real, a33: real,
      k0: real, k1: real, k2: real, k3: real)
    requires k0 == -Det3(a01, a02, a03, a21, a22, a23, a31, a32, a33)
    requires k1 == Det3(a00, a02, a03, a20, a22, a23, a30, a32, a33)
    requires k2 == -Det3(a00, a01, a03, a20, a21, a23, a30, a31, a33)
    requires k3 == Det3(a00, a01, a02, a20, a21, a22, a30, a31, a32)
    ensures Vector4.Dot(Vector4(a30, a31, a32, a33), Vector4(k0, k1, k2, k3))
        == 0.0
  {
  }

  lemma AlienRow32(a00: real, a01: real, a02: real, a03: real, a10: real, a11: real, a12: real, a13: real, a20: real, a21: real, a22: real, a23: real, a30: real, a31: real, a32: real, a33: real,
      k0: real, k1: real, k2: real, k3: real)
    requires k0 == Det3(a01, a02, a03, a11, a12, a13, a31, a32, a33)
    requires k1 == -Det3(a00, a02, a03, a10, a12, a13, a30, a32, a33)
    requires k2 == Det3(a00, a01, a03, a10, a11, a13, a30, a31, a33)
    requires k3 == -Det3(a00, a01, a02, a10, a11, a12, a30, a31, a32)
    ensures Vector4.Dot(Vector4(a30, a31, a32, a33), Vector4(k0, k1, k2, k3))
        == 0.0
  {
  }

  lemma RowExpansion3(a00: real, a01: real, a02: real, a03: real, a10: real, a11: real, a12: real, a13: real, a20: real, a21: real, a22: real, a23: real, a30: real, a31: real, a32: real, a33: real,
      k0: real, k1: real, k2: real, k3: real)
    requires k0 == -Det3(a01, a02, a03, a11, a12, a13, a21, a22, a23)
    requires k1 == Det3(a00, a02, a03, a10, a12, a13, a20, a22, a23)
    requires k2 == -Det3(a00, a01, a03, a10, a11, a13, a20, a21, a23)
    requires k3 == Det3(a00, a01, a02, a10, a11, a12, a20, a21, a22)
    ensures Vector4.Dot(Vector4(a30, a31, a32, a33), Vector4(k0, k1, k2, k3))
        == Det4(a00, a01, a02, a03, a10, a11, a12, a13, a20, a21, a22, a23, a30, a31, a32, a33)
  {
  }

  /* Column expansions of a 4x4 determinant: the same facts with rows and columns
     exchanged, the signed cofactors of column J paired with column I. */

  lemma ColumnExpansion0(a00: real, a01: real, a02: real, a03: real, a10: real, a11: real, a12: real, a13: real, a20: real, a21: real, a22: real, a23: real, a30: real, a31: real, a32: real, a33: real,
      k0: real, k1: real, k2: real, k3: real)
    requires k0 == Det3(a11, a12, a13, a21, a22, a23, a31, a32, a33)
    requires k1 == -Det3(a01, a02, a03, a21, a22, a23, a31, a32, a33)
    requires k2 == Det3(a01, a02, a03, a11, a12, a13, a31, a32, a33)
    requires k3 == -Det3(a01, a02, a03, a11, a12, a13, a21, a22, a23)
    ensures Vector4.Dot(Vector4(k0, k1, k2, k3), Vector4(a00, a10, a20, a30))
        == Det4(a00, a01, a02, a03, a10, a11, a12, a13, a20, a21, a22, a23, a30, a31, a32, a33)
  {
  }

  lemma AlienColumn01(a00: real, a01: real, a02: real, a03: real, a10: real, a11: real, a12: real, a13: real, a20: real, a21: real, a22: real, a23: real, a30: real, a31: real, a32: real, a33: real,
      k0: real, k1: real, k2: real, k3: real)
    requires k0 == -Det3(a10, a12, a13, a20, a22, a23, a30, a32, a33)
    requires k1 == Det3(a00, a02, a03, a20, a22, a23, a30, a32, a33)
    requires k2 == -Det3(a00, a02, a03, a10, a12, a13, a30, a32, a33)
    requires k3 == Det3(a00, a02, a03, a10, a12, a13, a20, a22, a23)
    ensures Vector4.Dot(Vector4(k0, k1, k2, k3), Vector4(a00, a10, a20, a30))
        == 0.0
  {
  }

  lemma AlienColumn02(a00: real, a01: real, a02: real, a03: real, a10: real, a11: real, a12: real, a13: real, a20: real, a21: real, a22: real, a23: real, a30: real, a31: real, a32: real, a33: real,
      k0: real, k1: real, k2: real, k3: real)
    requires k0 == Det3(a10, a11, a13, a20, a21, a23, a30, a31, a33)
    requires k1 == -Det3(a00, a01, a03, a20, a21, a23, a30, a31, a33)
    requires k2 == Det3(a00, a01, a03, a10, a11, a13, a30, a31, a33)
    requires k3 == -Det3(a00, a01, a03, a10, a11, a13, a20, a21, a23)
    ensures Vector4.Dot(Vector4(k0, k1, k2, k3), Vector4(a00, a10, a20, a30))
        == 0.0
  {
  }

  lemma AlienColumn03(a00: real, a01: real, a02: real, a03: real, a10: real, a11: real, a12: real, a13: real, a20: real, a21: real, a22: real, a23: real, a30: real, a31: real, a32: real, a33: real,
      k0: real, k1: real, k2: real, k3: real)
    requires k0 == -Det3(a10, a11, a12, a20, a21, a22, a30, a31, a32)
    requires k1 == Det3(a00, a01, a02, a20, a21, a22, a30, a31, a32)
    requires k2 == -Det3(a00, a01, a02, a10, a11, a12, a30, a31, a32)
    requires k3 == Det3(a00, a01, a02, a10, a11, a12, a20, a21, a22)
    ensures Vector4.Dot(Vector4(k0, k1, k2, k3), Vector4(a00, a10, a20, a30))
        == 0.0
  {
  }

  lemma AlienColumn10(a00: real, a01: real, a02: real, a03: real, a10: real, a11: real, a12: real, a13: real, a20: real, a21: real, a22: real, a23: real, a30: real, a31: real, a32: real, a33: real,
      k0: real, k1: real, k2: real, k3: real)
    requires k0 == Det3(a11, a12, a13, a21, a22, a23, a31, a32, a33)
    requires k1 == -Det3(a01, a02, a03, a21, a22, a23, a31, a32, a33)
    requires k2 == Det3(a01, a02, a03, a11, a12, a13, a31, a32, a33)
    requires k3 == -Det3(a01, a02, a03, a11, a12, a13, a21, a22, a23)
    ensures Vector4.Dot(Vector4(k0, k1, k2, k3), Vector4(a01, a11, a21, a31))
        == 0.0
  {
  }

  lemma ColumnExpansion1(a00: real, a01: real, a02: real, a03: real, a10: real, a11: real, a12: real, a13: real, a20: real, a21: real, a22: real, a23: real, a30: real, a31: real, a32: real, a33: real,
      k0: real, k1: real, k2: real, k3: real)
    requires k0 == -Det3(a10, a12, a13, a20, a22, a23, a30, a32, a33)
    requires k1 == Det3(a00, a02, a03, a20, a22, a23, a30, a32, a33)
    requires k2 == -Det3(a00, a02, a03, a10, a12, a13, a30, a32, a33)
    requires k3 == Det3(a00, a02, a03, a10, a12, a13, a20, a22, a23)
    ensures Vector4.Dot(Vector4(k0, k1, k2, k3), Vector4(a01, a11, a21, a31))
        == Det4(a00, a01, a02, a03, a10, a11, a12, a13, a20, a21, a22, a23, a30, a31, a32, a33)
  {
  }

  lemma AlienColumn12(a00: real, a01: real, a02: real, a03: real, a10: real, a11: real, a12: real, a13: real, a20: real, a21: real, a22: real, a23: real, a30: real, a31: real, a32: real, a33: real,
      k0: real, k1: real, k2: real, k3: real)
    requires k0 == Det3(a10, a11, a13, a20, a21, a23, a30, a31, a33)
    requires k1 == -Det3(a00, a01, a03, a20, a21, a23, a30, a31, a33)
    requires k2 == Det3(a00, a01, a03, a10, a11, a13, a30, a31, a33)
    requires k3 == -Det3(a00, a01, a03, a10, a11, a13, a20, a21, a23)
    ensures Vector4.Dot(Vector4(k0, k1, k2, k3), Vector4(a01, a11, a21, a31))
        == 0.0
  {
  }

  lemma AlienColumn13(a00: real, a01: real, a02: real, a03: real, a10: real, a11: real, a12: real, a13: real, a20: real, a21: real, a22: real, a23: real, a30: real, a31: real, a32: real, a33: real,
      k0: real, k1: real, k2: real, k3: real)
    requires k0 == -Det3(a10, a11, a12, a20, a21, a22, a30, a31, a32)
    requires k1 == Det3(a00, a01, a02, a20, a21, a22, a30, a31, a32)
    requires k2 == -Det3(a00, a01, a02, a10, a11, a12, a30, a31, a32)
    requires k3 == Det3(a00, a01, a02, a10, a11, a12, a20, a21, a22)
    ensures Vector4.Dot(Vector4(k0, k1, k2, k3), Vector4(a01, a11, a21, a31))
        == 0.0
  {
  }

  lemma AlienColumn20(a00: real, a01: real, a02: real, a03: real, a10: real, a11: real, a12: real, a13: real, a20: real, a21: real, a22: real, a23: real, a30: real, a31: real, a32: real, a33: real,
      k0: real, k1: real, k2: real, k3: real)
    requires k0 == Det3(a11, a12, a13, a21, a22, a23, a31, a32, a33)
    requires k1 == -Det3(a01, a02, a03, a21, a22, a23, a31, a32, a33)
    requires k2 == Det3(a01, a02, a03, a11, a12, a13, a31, a32, a33)
    requires k3 == -Det3(a01, a02, a03, a11, a12, a13, a21, a22, a23)
    ensures Vector4.Dot(Vector4(k0, k1, k2, k3), Vector4(a02, a12, a22, a32))
        == 0.0
  {
  }

  lemma AlienColumn21(a00: real, a01: real, a02: real, a03: real, a10: real, a11: real, a12: real, a13: real, a20: real, a21: real, a22: real, a23: real, a30: real, a31: real, a32: real, a33: real,
      k0: real, k1: real, k2: real, k3: real)
    requires k0 == -Det3(a10, a12, a13, a20, a22, a23, a30, a32, a33)
    requires k1 == Det3(a00, a02, a03, a20, a22, a23, a30, a32, a33)
    requires k2 == -Det3(a00, a02, a03, a10, a12, a13, a30, a32, a33)
    requires k3 == Det3(a00, a02, a03, a10, a12, a13, a20, a22, a23)
    ensures Vector4.Dot(Vector4(k0, k1, k2, k3), Vector4(a02, a12, a22, a32))
        == 0.0
  {
  }

  lemma ColumnExpansion2(a00: real, a01: real, a02: real, a03: real, a10: real, a11: real, a12: real, a13: real, a20: real, a21: real, a22: real, a23: real, a30: real, a31: real, a32: real, a33: real,
      k0: real, k1: real, k2: real, k3: real)
    requires k0 == Det3(a10, a11, a13, a20, a21, a23, a30, a31, a33)
    requires k1 == -Det3(a00, a01, a03, a20, a21, a23, a30, a31, a33)
    requires k2 == Det3(a00, a01, a03, a10, a11, a13, a30, a31, a33)
    requires k3 == -Det3(a00, a01, a03, a10, a11, a13, a20, a21, a23)
    ensures Vector4.Dot(Vector4(k0, k1, k2, k3), Vector4(a02, a12, a22, a32))
        == Det4(a00, a01, a02, a03, a10, a11, a12, a13, a20, a21, a22, a23, a30, a31, a32, a33)
  {
  }

  lemma AlienColumn23(a00: real, a01: real, a02: real, a03: real, a10: real, a11: real, a12: real, a13: real, a20: real, a21: real, a22: real, a23: real, a30: real, a31: real, a32: real, a33: real,
      k0: real, k1: real, k2: real, k3: real)
    requires k0 == -Det3(a10, a11, a12, a20, a21, a22, a30, a31, a32)
    requires k1 == Det3(a00, a01, a02, a20, a21, a22, a30, a31, a32)
    requires k2 == -Det3(a00, a01, a02, a10, a11, a12, a30, a31, a32)
    requires k3 == Det3(a00, a01, a02, a10, a11, a12, a20, a21, a22)
    ensures Vector4.Dot(Vector4(k0, k1, k2, k3), Vector4(a02, a12, a22, a32))
        == 0.0
  {
  }

  lemma AlienColumn30(a00: real, a01: real, a02: real, a03: real, a10: real, a11: real, a12: real, a13: real, a20: real, a21: real, a22: real, a23: real, a30: real, a31: real, a32: real, a33: real,
      k0: real, k1: real, k2: real, k3: real)
    requires k0 == Det3(a11, a12, a13, a21, a22, a23, a31, a32, a33)
    requires k1 == -Det3(a01, a02, a03, a21, a22, a23, a31, a32, a33)
    requires k2 == Det3(a01, a02, a03, a11, a12, a13, a31, a32, a33)
    requires k3 == -Det3(a01, a02, a03, a11, a12, a13, a21, a22, a23)
    ensures Vector4.Dot(Vector4(k0, k1, k2, k3), Vector4(a03, a13, a23, a33))
        == 0.0
  {
  }

  lemma AlienColumn31(a00: real, a01: real, a02: real, a03: real, a10: real, a11: real, a12: real, a13: real, a20: real, a21: real, a22: real, a23: real, a30: real, a31: real, a32: real, a33: real,
      k0: real, k1: real, k2: real, k3: real)
    requires k0 == -Det3(a10, a12, a13, a20, a22, a23, a30, a32, a33)
    requires k1 == Det3(a00, a02, a03, a20, a22, a23, a30, a32, a33)
    requires k2 == -Det3(a00, a02, a03, a10, a12, a13, a30, a32, a33)
    requires k3 == Det3(a00, a02, a03, a10, a12, a13, a20, a22, a23)
    ensures Vector4.Dot(Vector4(k0, k1, k2, k3), Vector4(a03, a13, a23, a33))
        == 0.0
  {
  }

  lemma AlienColumn32(a00: real, a01: real, a02: real, a03: real, a10: real, a11: real, a12: real, a13: real, a20: real, a21: real, a22: real, a23: real, a30: real, a31: real, a32: real, a33: real,
      k0: real, k1: real, k2: real, k3: real)
    requires k0 == Det3(a10, a11, a13, a20, a21, a23, a30, a31, a33)
    requires k1 == -Det3(a00, a01, a03, a20, a21, a23, a30, a31, a33)
    requires k2 == Det3(a00, a01, a03, a10, a11, a13, a30, a31, a33)
    requires k3 == -Det3(a00, a01, a03, a10, a11, a13, a20, a21, a23)
    ensures Vector4.Dot(Vector4(k0, k1, k2, k3), Vector4(a03, a13, a23, a33))
        == 0.0
  {
  }

  lemma ColumnExpansion3(a00: real, a01: real, a02: real, a03: real, a10: real, a11: real, a12: real, a13: real, a20: real, a21: real, a22: real, a23: real, a30: real, a31: real, a32: real, a33: real,
      k0: real, k1: real, k2: real, k3: real)
    requires k0 == -Det3(a10, a11, a12, a20, a21, a22, a30, a31, a32)
    requires k1 == Det3(a00, a01, a02, a20, a21, a22, a30, a31, a32)
    requires k2 == -Det3(a00, a01, a02, a10, a11, a12, a30, a31, a32)
    requires k3 == Det3(a00, a01, a02, a10, a11, a12, a20, a21, a22)
    ensures Vector4.Dot(Vector4(k0, k1, k2, k3), Vector4(a03, a13, a23, a33))
        == Det4(a00, a01, a02, a03, a10, a11, a12, a13, a20, a21, a22, a23, a30, a31, a32, a33)
  {
  }
}
