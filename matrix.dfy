/** Square matrices of size 2, 3 and 4 over the reals, stored as columns.

    A `MatrixN` holds N column vectors `x`, `y`, ... of type `VectorN`; the entry in row `i`
    and column `j` is component `i` of column `j` (`Entry(i, j)`). The private helpers behind
    the `+`, `-`, `* matrix`, `* vector` and `* scalar` operators and the public associated
    functions (`identity`, `transpose`, `determinant`, `adjugate`, `inverse`, and the
    factories `translate`, `scale`, `rotate`, `ortho` and `perspective`) become static
    functions; the compound assignment operators are the `MatrixNCell` classes. Where a
    factory computes a sine, a cosine or a tangent, that value is a parameter.
 */
module Matrix {
  import opened Vector
  import Cofactor

  /** What `inverse` returns: `None` for a singular matrix. */
  datatype Option<T> = None | Some(value: T)

  datatype Matrix2 = Matrix2(x: Vector2, y: Vector2) {

    /** Column `j`. */
    function Column(j: nat): Vector2
      requires j < 2
    {
      if j == 0 then x else y
    }

    /** The entry in row `i` and column `j`. */
    function Entry(i: nat, j: nat): real
      requires i < 2 && j < 2
    {
      Column(j).At(i)
    }

    /** `a + b`, entry by entry. */
    static function Add(a: Matrix2, b: Matrix2): (r: Matrix2)
      ensures forall i, j :: 0 <= i < 2 && 0 <= j < 2 ==> r.Entry(i, j) == a.Entry(i, j) + b.Entry(i, j)
    {
      Matrix2(Vector2.Add(a.x, b.x), Vector2.Add(a.y, b.y))
    }

    /** `a - b`, entry by entry. */
    static function Sub(a: Matrix2, b: Matrix2): (r: Matrix2)
      ensures forall i, j :: 0 <= i < 2 && 0 <= j < 2 ==> r.Entry(i, j) == a.Entry(i, j) - b.Entry(i, j)
    {
      Matrix2(Vector2.Sub(a.x, b.x), Vector2.Sub(a.y, b.y))
    }

    /** `a * s` for a scalar `s`: every entry scaled by `s`. */
    static function MulScalar(a: Matrix2, s: real): (r: Matrix2)
      ensures forall i, j :: 0 <= i < 2 && 0 <= j < 2 ==> r.Entry(i, j) == a.Entry(i, j) * s
    {
      Matrix2(Vector2.MulScalar(a.x, s), Vector2.MulScalar(a.y, s))
    }

    /** Rows become columns. */
    static function Transpose(m: Matrix2): (r: Matrix2)
      ensures forall i, j :: 0 <= i < 2 && 0 <= j < 2 ==> r.Entry(i, j) == m.Entry(j, i)
    {
      Matrix2(Vector2(m.x.x, m.y.x), Vector2(m.x.y, m.y.y))
    }

    /** The identity matrix: ones on the diagonal, zeros elsewhere. */
    static function Identity(): (r: Matrix2)
      ensures forall i, j :: 0 <= i < 2 && 0 <= j < 2 ==> r.Entry(i, j) == if i == j then 1.0 else 0.0
    {
      Matrix2(Vector2(1.0, 0.0), Vector2(0.0, 1.0))
    }

    /** `a * v`: component `i` is row `i` of `a` (a column of the transpose) dotted with `v`. */
    static function MulVector(a: Matrix2, v: Vector2): Vector2
    {
      var t := Transpose(a);
      Vector2(Vector2.Dot(t.x, v), Vector2.Dot(t.y, v))
    }

    /** `a * b`: row `i` of `a` dotted with column `j` of `b`. */
    static function MulMatrix(a: Matrix2, b: Matrix2): Matrix2
    {
      var t := Transpose(a);
      Matrix2(
        Vector2(Vector2.Dot(t.x, b.x), Vector2.Dot(t.y, b.x)),
        Vector2(Vector2.Dot(t.x, b.y), Vector2.Dot(t.y, b.y)))
    }

    static function Determinant(m: Matrix2): real
    {
      m.x.x * m.y.y - m.x.y * m.y.x
    }

    /** The transpose of the matrix of cofactors. */
    static function Adjugate(m: Matrix2): Matrix2
    {
      Matrix2(Vector2(m.y.y, -m.x.y), Vector2(-m.y.x, m.x.x))
    }

    /** `None` when the determinant is zero, otherwise the adjugate divided by the determinant. */
    static function Inverse(m: Matrix2): Option<Matrix2>
    {
      var det := Determinant(m);
      if det == 0.0 then None else Some(MulScalar(Adjugate(m), 1.0 / det))
    }

    /** Adding `b` and subtracting it again gives back `a`, and the other way round. */
    static lemma AddSubInverse(a: Matrix2, b: Matrix2)
      ensures Sub(Add(a, b), b) == a
      ensures Add(Sub(a, b), b) == a
    {
    }

    /** Transposing twice gives back the matrix. */
    static lemma TransposeInvolutive(m: Matrix2)
      ensures Transpose(Transpose(m)) == m
    {
    }

    /** Component `i` of `a * v` is the textbook sum over `k` of `a[i][k] * v[k]`. */
    static lemma MulVectorEntries(a: Matrix2, v: Vector2)
      ensures forall i :: 0 <= i < 2 ==> MulVector(a, v).At(i) == a.Entry(i, 0) * v.At(0) + a.Entry(i, 1) * v.At(1)
    {
    }

    /** Entry `(i, j)` of `a * b` is the textbook sum over `k` of `a[i][k] * b[k][j]`. */
    static lemma MulMatrixEntries(a: Matrix2, b: Matrix2)
      ensures forall i, j :: 0 <= i < 2 && 0 <= j < 2 ==>
        MulMatrix(a, b).Entry(i, j) == a.Entry(i, 0) * b.Entry(0, j) + a.Entry(i, 1) * b.Entry(1, j)
    {
    }

    /** Column `j` of `a * b` is `a` applied to column `j` of `b`. */
    static lemma MulMatrixColumns(a: Matrix2, b: Matrix2)
      ensures MulMatrix(a, b).x == MulVector(a, b.x)
      ensures MulMatrix(a, b).y == MulVector(a, b.y)
    {
    }

    /** Applying `a * b` to a vector is applying `b` and then `a`. */
    static lemma MulVectorComposes(a: Matrix2, b: Matrix2, v: Vector2)
      ensures MulVector(MulMatrix(a, b), v) == MulVector(a, MulVector(b, v))
    {
    }

    /** The matrix product is associative. */
    static lemma MulMatrixAssociative(a: Matrix2, b: Matrix2, c: Matrix2)
      ensures MulMatrix(MulMatrix(a, b), c) == MulMatrix(a, MulMatrix(b, c))
    {
      MulMatrixColumns(MulMatrix(a, b), c);
      MulMatrixColumns(b, c);
      MulMatrixColumns(a, MulMatrix(b, c));
      MulVectorComposes(a, b, c.x);
      MulVectorComposes(a, b, c.y);
    }

    /** The identity is neutral on both sides of the product and on vectors. */
    static lemma MulIdentity(m: Matrix2, v: Vector2)
      ensures MulMatrix(Identity(), m) == m
      ensures MulMatrix(m, Identity()) == m
      ensures MulVector(Identity(), v) == v
    {
    }

    /** `det(I) == 1` and `det(m^T) == det(m)`. */
    static lemma DeterminantIdentityTranspose(m: Matrix2)
      ensures Determinant(Identity()) == 1.0
      ensures Determinant(Transpose(m)) == Determinant(m)
    {
    }

    /** `det(a * b) == det(a) * det(b)`. */
    static lemma DeterminantMultiplicative(a: Matrix2, b: Matrix2)
      ensures Determinant(MulMatrix(a, b)) == Determinant(a) * Determinant(b)
    {
    }

    /** The adjugate multiplied with the matrix, on either side, is `det(m)` times the identity. */
    static lemma AdjugateProduct(m: Matrix2)
      ensures MulMatrix(m, Adjugate(m)) == MulScalar(Identity(), Determinant(m))
      ensures MulMatrix(Adjugate(m), m) == MulScalar(Identity(), Determinant(m))
    {
    }

    /** A scalar factor on the vector can be taken out of `a * v`. */
    static lemma MulVectorScalar(a: Matrix2, v: Vector2, s: real)
      ensures MulVector(a, Vector2.MulScalar(v, s)) == Vector2.MulScalar(MulVector(a, v), s)
    {
      var t := Transpose(a);
      Vector2.DotScale(t.x, v, s);
      Vector2.DotScale(t.y, v, s);
    }

    /** A scalar factor on the matrix can be taken out of `a * v`. */
    static lemma MulVectorScaledMatrix(a: Matrix2, v: Vector2, s: real)
      ensures MulVector(MulScalar(a, s), v) == Vector2.MulScalar(MulVector(a, v), s)
    {
      var t := Transpose(a);
      assert Transpose(MulScalar(a, s)) == Matrix2(Vector2.MulScalar(t.x, s), Vector2.MulScalar(t.y, s));
      Vector2.DotScale(t.x, v, s);
      Vector2.DotScale(t.y, v, s);
    }

    /** A scalar factor on either operand can be taken out of the product. */
    static lemma MulMatrixScalar(a: Matrix2, b: Matrix2, s: real)
      ensures MulMatrix(a, MulScalar(b, s)) == MulScalar(MulMatrix(a, b), s)
      ensures MulMatrix(MulScalar(a, s), b) == MulScalar(MulMatrix(a, b), s)
    {
      MulMatrixColumns(a, MulScalar(b, s));
      MulMatrixColumns(MulScalar(a, s), b);
      MulMatrixColumns(a, b);
      MulVectorScalar(a, b.x, s);
      MulVectorScaledMatrix(a, b.x, s);
      MulVectorScalar(a, b.y, s);
      MulVectorScaledMatrix(a, b.y, s);
    }

    /** `(d I) * (1 / d) == I` for nonzero `d`. */
    static lemma ScaledIdentityInverse(d: real)
      requires d != 0.0
      ensures MulScalar(MulScalar(Identity(), d), 1.0 / d) == Identity()
    {
    }

    /** `inverse` fails exactly for a zero determinant, and what it returns is a two-sided inverse. */
    static lemma InverseCorrect(m: Matrix2)
      ensures Inverse(m).None? <==> Determinant(m) == 0.0
      ensures Inverse(m).Some? ==> MulMatrix(m, Inverse(m).value) == Identity()
      ensures Inverse(m).Some? ==> MulMatrix(Inverse(m).value, m) == Identity()
    {
      var det := Determinant(m);
      if det != 0.0 {
        AdjugateProduct(m);
        MulMatrixScalar(m, Adjugate(m), 1.0 / det);
        MulMatrixScalar(Adjugate(m), m, 1.0 / det);
        ScaledIdentityInverse(det);
      }
    }

    /** A matrix with zero determinant has no right inverse, so `inverse` returns `None` only
        when no inverse exists. */
    static lemma SingularHasNoInverse(m: Matrix2, b: Matrix2)
      requires MulMatrix(m, b) == Identity()
      ensures Determinant(m) != 0.0
    {
      DeterminantMultiplicative(m, b);
      DeterminantIdentityTranspose(m);
    }

    /** A matrix whose two columns are equal is singular, and `inverse` rejects it. */
    static lemma EqualColumnsSingular(m: Matrix2)
      requires m.x == m.y
      ensures Determinant(m) == 0.0 && Inverse(m) == None
    {
    }

    /** The values the crate's own tests expect. */
    static lemma Examples()
      ensures MulMatrix(Matrix2(Vector2(1.0, 2.0), Vector2(3.0, 4.0)), Matrix2(Vector2(5.0, 6.0), Vector2(7.0, 8.0)))
        == Matrix2(Vector2(23.0, 34.0), Vector2(31.0, 46.0))
      ensures MulVector(Matrix2(Vector2(1.0, 2.0), Vector2(3.0, 4.0)), Vector2(1.0, 2.0)) == Vector2(7.0, 10.0)
      ensures Transpose(Matrix2(Vector2(1.0, 2.0), Vector2(3.0, 4.0))) == Matrix2(Vector2(1.0, 3.0), Vector2(2.0, 4.0))
      ensures Determinant(Matrix2(Vector2(1.0, 2.0), Vector2(3.0, 4.0))) == -2.0
      ensures Inverse(Matrix2(Vector2(1.0, 2.0), Vector2(3.0, 4.0))) == Some(Matrix2(Vector2(-2.0, 1.0), Vector2(1.5, -0.5)))
    {
    }
  }

  datatype Matrix3 = Matrix3(x: Vector3, y: Vector3, z: Vector3) {

    /** Column `j`. */
    function Column(j: nat): Vector3
      requires j < 3
    {
      if j == 0 then x else if j == 1 then y else z
    }

    /** The entry in row `i` and column `j`. */
    function Entry(i: nat, j: nat): real
      requires i < 3 && j < 3
    {
      Column(j).At(i)
    }

    /** `a + b`, entry by entry. */
    static function Add(a: Matrix3, b: Matrix3): (r: Matrix3)
      ensures forall i, j :: 0 <= i < 3 && 0 <= j < 3 ==> r.Entry(i, j) == a.Entry(i, j) + b.Entry(i, j)
    {
      Matrix3(Vector3.Add(a.x, b.x), Vector3.Add(a.y, b.y), Vector3.Add(a.z, b.z))
    }

    /** `a - b`, entry by entry. */
    static function Sub(a: Matrix3, b: Matrix3): (r: Matrix3)
      ensures forall i, j :: 0 <= i < 3 && 0 <= j < 3 ==> r.Entry(i, j) == a.Entry(i, j) - b.Entry(i, j)
    {
      Matrix3(Vector3.Sub(a.x, b.x), Vector3.Sub(a.y, b.y), Vector3.Sub(a.z, b.z))
    }

    /** `a * s` for a scalar `s`: every entry scaled by `s`. */
    static function MulScalar(a: Matrix3, s: real): (r: Matrix3)
      ensures forall i, j :: 0 <= i < 3 && 0 <= j < 3 ==> r.Entry(i, j) == a.Entry(i, j) * s
    {
      var r := Matrix3(Vector3.MulScalar(a.x, s), Vector3.MulScalar(a.y, s), Vector3.MulScalar(a.z, s));
      assert forall i, j :: 0 <= i < 3 && 0 <= j < 3 ==> r.Entry(i, j) == a.Entry(i, j) * s by {
        forall i, j | 0 <= i < 3 && 0 <= j < 3
          ensures r.Entry(i, j) == a.Entry(i, j) * s
        {
          assert r.Column(j) == Vector3.MulScalar(a.Column(j), s);
        }
      }
      r
    }

    /** Rows become columns. */
    static function Transpose(m: Matrix3): (r: Matrix3)
      ensures forall i, j :: 0 <= i < 3 && 0 <= j < 3 ==> r.Entry(i, j) == m.Entry(j, i)
    {
      Matrix3(
        Vector3(m.x.x, m.y.x, m.z.x),
        Vector3(m.x.y, m.y.y, m.z.y),
        Vector3(m.x.z, m.y.z, m.z.z))
    }

    /** The identity matrix: ones on the diagonal, zeros elsewhere. */
    static function Identity(): (r: Matrix3)
      ensures forall i, j :: 0 <= i < 3 && 0 <= j < 3 ==> r.Entry(i, j) == if i == j then 1.0 else 0.0
    {
      Matrix3(Vector3(1.0, 0.0, 0.0), Vector3(0.0, 1.0, 0.0), Vector3(0.0, 0.0, 1.0))
    }

    /** `a * v`: component `i` is row `i` of `a` (a column of the transpose) dotted with `v`. */
    static function MulVector(a: Matrix3, v: Vector3): Vector3
    {
      var t := Transpose(a);
      Vector3(Vector3.Dot(t.x, v), Vector3.Dot(t.y, v), Vector3.Dot(t.z, v))
    }

    /** `a * b`: row `i` of `a` dotted with column `j` of `b`. */
    static function MulMatrix(a: Matrix3, b: Matrix3): Matrix3
    {
      var t := Transpose(a);
      Matrix3(
        Vector3(Vector3.Dot(t.x, b.x), Vector3.Dot(t.y, b.x), Vector3.Dot(t.z, b.x)),
        Vector3(Vector3.Dot(t.x, b.y), Vector3.Dot(t.y, b.y), Vector3.Dot(t.z, b.y)),
        Vector3(Vector3.Dot(t.x, b.z), Vector3.Dot(t.y, b.z), Vector3.Dot(t.z, b.z)))
    }

    /** The scalar triple product of the rows. */
    static function Determinant(m: Matrix3): real
    {
      var t := Transpose(m);
      Vector3.Dot(Vector3.Cross(t.x, t.y), t.z)
    }

    /** Column `j` is the cross product of the two rows other than `j`, taken cyclically. */
    static function Adjugate(m: Matrix3): Matrix3
    {
      var t := Transpose(m);
      Matrix3(Vector3.Cross(t.y, t.z), Vector3.Cross(t.z, t.x), Vector3.Cross(t.x, t.y))
    }

    /** `None` when the determinant is zero, otherwise the adjugate divided by the determinant. */
    static function Inverse(m: Matrix3): Option<Matrix3>
    {
      var det := Determinant(m);
      if det == 0.0 then None else Some(MulScalar(Adjugate(m), 1.0 / det))
    }

    /** The homogeneous 2D translation by `v`: its last column is `(v.x, v.y, 1)`. */
    static function Translate(v: Vector2): Matrix3
    {
      Matrix3(Vector3(1.0, 0.0, 0.0), Vector3(0.0, 1.0, 0.0), Vector3(v.x, v.y, 1.0))
    }

    /** The homogeneous 2D scaling by `v`: `diag(v.x, v.y, 1)`. */
    static function Scale(v: Vector2): Matrix3
    {
      Matrix3(Vector3(v.x, 0.0, 0.0), Vector3(0.0, v.y, 0.0), Vector3(0.0, 0.0, 1.0))
    }

    /** The homogeneous 2D rotation by the angle whose sine is `s` and cosine is `c`. */
    static function Rotate(s: real, c: real): Matrix3
    {
      Matrix3(Vector3(c, s, 0.0), Vector3(-s, c, 0.0), Vector3(0.0, 0.0, 1.0))
    }

    /** The crate's 2D `ortho` for the bounds `left`, `right`, `bottom`, `top`: it only scales
        the two coordinates by `2 / (right - left)` and `2 / (top - bottom)` and negates the
        homogeneous one. It has no translation column, so unlike the 4x4 `ortho` it does not
        map the box onto `[-1, 1]^2`. */
    static function Ortho(left: real, right: real, bottom: real, top: real): Matrix3
      requires right != left && top != bottom
    {
      Matrix3(Vector3(2.0 / (right - left), 0.0, 0.0), Vector3(0.0, 2.0 / (top - bottom), 0.0), Vector3(0.0, 0.0, -1.0))
    }

    /** Adding `b` and subtracting it again gives back `a`, and the other way round. */
    static lemma AddSubInverse(a: Matrix3, b: Matrix3)
      ensures Sub(Add(a, b), b) == a
      ensures Add(Sub(a, b), b) == a
    {
    }

    /** Transposing twice gives back the matrix. */
    static lemma TransposeInvolutive(m: Matrix3)
      ensures Transpose(Transpose(m)) == m
    {
    }

    /** Component `i` of `a * v` is the textbook sum over `k` of `a[i][k] * v[k]`. */
    static lemma MulVectorEntries(a: Matrix3, v: Vector3)
      ensures forall i :: 0 <= i < 3 ==>
        MulVector(a, v).At(i) == a.Entry(i, 0) * v.At(0) + a.Entry(i, 1) * v.At(1) + a.Entry(i, 2) * v.At(2)
    {
    }

    /** Entry `(i, j)` of `a * b` is the textbook sum over `k` of `a[i][k] * b[k][j]`. */
    static lemma MulMatrixEntries(a: Matrix3, b: Matrix3)
      ensures forall i, j :: 0 <= i < 3 && 0 <= j < 3 ==>
        MulMatrix(a, b).Entry(i, j)
          == a.Entry(i, 0) * b.Entry(0, j) + a.Entry(i, 1) * b.Entry(1, j) + a.Entry(i, 2) * b.Entry(2, j)
    {
      forall i, j | 0 <= i < 3 && 0 <= j < 3
        ensures MulMatrix(a, b).Entry(i, j)
          == a.Entry(i, 0) * b.Entry(0, j) + a.Entry(i, 1) * b.Entry(1, j) + a.Entry(i, 2) * b.Entry(2, j)
      {
        MulMatrixColumns(a, b);
        MulVectorEntries(a, b.Column(j));
        assert MulMatrix(a, b).Column(j) == MulVector(a, b.Column(j));
      }
    }

    /** Column `j` of `a * b` is `a` applied to column `j` of `b`. */
    static lemma MulMatrixColumns(a: Matrix3, b: Matrix3)
      ensures MulMatrix(a, b).x == MulVector(a, b.x)
      ensures MulMatrix(a, b).y == MulVector(a, b.y)
      ensures MulMatrix(a, b).z == MulVector(a, b.z)
    {
    }

    /** Applying `a * b` to a vector is applying `b` and then `a`. */
    static lemma MulVectorComposes(a: Matrix3, b: Matrix3, v: Vector3)
      ensures MulVector(MulMatrix(a, b), v) == MulVector(a, MulVector(b, v))
    {
    }

    /** The matrix product is associative. */
    static lemma MulMatrixAssociative(a: Matrix3, b: Matrix3, c: Matrix3)
      ensures MulMatrix(MulMatrix(a, b), c) == MulMatrix(a, MulMatrix(b, c))
    {
      MulMatrixColumns(MulMatrix(a, b), c);
      MulMatrixColumns(b, c);
      MulMatrixColumns(a, MulMatrix(b, c));
      MulVectorComposes(a, b, c.x);
      MulVectorComposes(a, b, c.y);
      MulVectorComposes(a, b, c.z);
    }

    /** The identity is neutral on both sides of the product and on vectors. */
    static lemma MulIdentity(m: Matrix3, v: Vector3)
      ensures MulMatrix(Identity(), m) == m
      ensures MulMatrix(m, Identity()) == m
      ensures MulVector(Identity(), v) == v
    {
    }

    /** The determinant agrees with the Leibniz formula on the entries, read row by row. */
    static lemma Leibniz(m: Matrix3)
      ensures Determinant(m) == Cofactor.Det3(m.x.x, m.y.x, m.z.x, m.x.y, m.y.y, m.z.y, m.x.z, m.y.z, m.z.z)
    {
    }

    /** `det(I) == 1`. */
    static lemma DeterminantIdentity()
      ensures Determinant(Identity()) == 1.0
    {
    }

    /** `det(m^T) == det(m)`. */
    static lemma DeterminantTranspose(m: Matrix3)
      ensures Determinant(Transpose(m)) == Determinant(m)
    {
      Leibniz(m);
      Leibniz(Transpose(m));
      Cofactor.Det3Transpose(m.x.x, m.y.x, m.z.x, m.x.y, m.y.y, m.z.y, m.x.z, m.y.z, m.z.z);
    }

    /** `det(a * b) == det(a) * det(b)`. */
    static lemma DeterminantMultiplicative(a: Matrix3, b: Matrix3)
      ensures Determinant(MulMatrix(a, b)) == Determinant(a) * Determinant(b)
    {
      var c := MulMatrix(a, b);
      Leibniz(a);
      Leibniz(b);
      Leibniz(c);
      assert b.x == Vector3(b.x.x, b.x.y, b.x.z);
      assert b.y == Vector3(b.y.x, b.y.y, b.y.z);
      assert b.z == Vector3(b.z.x, b.z.y, b.z.z);
      Cofactor.Det3Product(a.x.x, a.y.x, a.z.x, a.x.y, a.y.y, a.z.y, a.x.z, a.y.z, a.z.z,
        b.x.x, b.y.x, b.z.x, b.x.y, b.y.y, b.z.y, b.x.z, b.y.z, b.z.z,
        c.x.x, c.y.x, c.z.x, c.x.y, c.y.y, c.z.y, c.x.z, c.y.z, c.z.z);
    }

    /** `m * adj(m) == det(m) I`: row `i` of `m` against the cross product of the other two rows
        is the triple product of the rows when it completes them, and zero when it repeats one. */
    static lemma AdjugateProductRight(m: Matrix3)
      ensures MulMatrix(m, Adjugate(m)) == MulScalar(Identity(), Determinant(m))
    {
      var t := Transpose(m);
      Vector3.DotCrossInterchange(t.x, t.y, t.z);
      Vector3.DotCrossInterchange(t.y, t.z, t.x);
      Vector3.DotCrossInterchange(t.z, t.x, t.y);
      Vector3.TripleProductCycles(t.x, t.y, t.z);
      Vector3.TripleProductCycles(t.z, t.x, t.y);
      Vector3.CrossOrthogonalLeft(t.x, t.y);
      Vector3.CrossOrthogonalRight(t.x, t.y);
      Vector3.CrossOrthogonalLeft(t.y, t.z);
      Vector3.CrossOrthogonalRight(t.y, t.z);
      Vector3.CrossOrthogonalLeft(t.z, t.x);
      Vector3.CrossOrthogonalRight(t.z, t.x);
    }

    /** The transpose of a product is the product of the transposes in reverse order. */
    static lemma TransposeProduct(a: Matrix3, b: Matrix3)
      ensures Transpose(MulMatrix(a, b)) == MulMatrix(Transpose(b), Transpose(a))
    {
    }

    /** The adjugate of the transpose is the transpose of the adjugate. */
    static lemma AdjugateTranspose(m: Matrix3)
      ensures Adjugate(Transpose(m)) == Transpose(Adjugate(m))
    {
      TransposeInvolutive(m);
      Cofactor.CrossTransposeX(m.x, m.y, m.z);
      Cofactor.CrossTransposeY(m.x, m.y, m.z);
      Cofactor.CrossTransposeZ(m.x, m.y, m.z);
    }

    /** `adj(m) * m == det(m) I`: transposing it gives `m^T * adj(m^T) == det(m^T) I`. */
    static lemma AdjugateProductLeft(m: Matrix3)
      ensures MulMatrix(Adjugate(m), m) == MulScalar(Identity(), Determinant(m))
    {
      var t := Transpose(m);
      TransposeProduct(Adjugate(m), m);
      AdjugateTranspose(m);
      TransposeInvolutive(m);
      AdjugateProductRight(t);
      DeterminantTranspose(m);
      TransposeInvolutive(MulMatrix(Adjugate(m), m));
      ScaledIdentity(Determinant(m));
    }

    /** `d I`, written out. */
    static lemma ScaledIdentity(d: real)
      ensures MulScalar(Identity(), d) == Matrix3(Vector3(d, 0.0, 0.0), Vector3(0.0, d, 0.0), Vector3(0.0, 0.0, d))
    {
    }

    /** Rows dotted with `v * s` give the rows dotted with `v`, times `s`. */
    static lemma RowsDotScaledVector(r0: Vector3, r1: Vector3, r2: Vector3, v: Vector3, s: real)
      ensures Vector3(Vector3.Dot(r0, Vector3.MulScalar(v, s)), Vector3.Dot(r1, Vector3.MulScalar(v, s)), Vector3.Dot(r2, Vector3.MulScalar(v, s)))
           == Vector3.MulScalar(Vector3(Vector3.Dot(r0, v), Vector3.Dot(r1, v), Vector3.Dot(r2, v)), s)
    {
      assert Vector3.MulScalar(Vector3(Vector3.Dot(r0, v), Vector3.Dot(r1, v), Vector3.Dot(r2, v)), s) == Vector3(Vector3.Dot(r0, v) * s, Vector3.Dot(r1, v) * s, Vector3.Dot(r2, v) * s);
      Vector3.DotScale(r0, v, s);
      Vector3.DotScale(r1, v, s);
      Vector3.DotScale(r2, v, s);
    }

    /** Rows scaled by `s` and dotted with `v` give the rows dotted with `v`, times `s`. */
    static lemma ScaledRowsDot(r0: Vector3, r1: Vector3, r2: Vector3, v: Vector3, s: real)
      ensures Vector3(Vector3.Dot(Vector3.MulScalar(r0, s), v), Vector3.Dot(Vector3.MulScalar(r1, s), v), Vector3.Dot(Vector3.MulScalar(r2, s), v))
           == Vector3.MulScalar(Vector3(Vector3.Dot(r0, v), Vector3.Dot(r1, v), Vector3.Dot(r2, v)), s)
    {
      assert Vector3.MulScalar(Vector3(Vector3.Dot(r0, v), Vector3.Dot(r1, v), Vector3.Dot(r2, v)), s) == Vector3(Vector3.Dot(r0, v) * s, Vector3.Dot(r1, v) * s, Vector3.Dot(r2, v) * s);
      Vector3.DotScale(r0, v, s);
      Vector3.DotScale(r1, v, s);
      Vector3.DotScale(r2, v, s);
    }

    /** A scalar factor on the vector can be taken out of `a * v`. */
    static lemma MulVectorScalar(a: Matrix3, v: Vector3, s: real)
      ensures MulVector(a, Vector3.MulScalar(v, s)) == Vector3.MulScalar(MulVector(a, v), s)
    {
      var t := Transpose(a);
      RowsDotScaledVector(t.x, t.y, t.z, v, s);
    }

    /** A scalar factor on the matrix can be taken out of `a * v`. */
    static lemma MulVectorScaledMatrix(a: Matrix3, v: Vector3, s: real)
      ensures MulVector(MulScalar(a, s), v) == Vector3.MulScalar(MulVector(a, v), s)
    {
      var t := Transpose(a);
      assert Transpose(MulScalar(a, s)).x == Vector3.MulScalar(t.x, s);
      assert Transpose(MulScalar(a, s)).y == Vector3.MulScalar(t.y, s);
      assert Transpose(MulScalar(a, s)).z == Vector3.MulScalar(t.z, s);
      ScaledRowsDot(t.x, t.y, t.z, v, s);
    }

    /** A scalar factor on either operand can be taken out of the product. */
    static lemma MulMatrixScalar(a: Matrix3, b: Matrix3, s: real)
      ensures MulMatrix(a, MulScalar(b, s)) == MulScalar(MulMatrix(a, b), s)
      ensures MulMatrix(MulScalar(a, s), b) == MulScalar(MulMatrix(a, b), s)
    {
      MulMatrixColumns(a, MulScalar(b, s));
      MulMatrixColumns(MulScalar(a, s), b);
      MulMatrixColumns(a, b);
      MulVectorScalar(a, b.x, s);
      MulVectorScaledMatrix(a, b.x, s);
      MulVectorScalar(a, b.y, s);
      MulVectorScaledMatrix(a, b.y, s);
      MulVectorScalar(a, b.z, s);
      MulVectorScaledMatrix(a, b.z, s);
    }

    /** `(d I) * (1 / d) == I` for nonzero `d`. */
    static lemma ScaledIdentityInverse(d: real)
      requires d != 0.0
      ensures MulScalar(MulScalar(Identity(), d), 1.0 / d) == Identity()
    {
    }

    /** `inverse` fails exactly for a zero determinant, and what it returns is a two-sided inverse. */
    static lemma InverseCorrect(m: Matrix3)
      ensures Inverse(m).None? <==> Determinant(m) == 0.0
      ensures Inverse(m).Some? ==> MulMatrix(m, Inverse(m).value) == Identity()
      ensures Inverse(m).Some? ==> MulMatrix(Inverse(m).value, m) == Identity()
    {
      var det := Determinant(m);
      if det != 0.0 {
        var inv := MulScalar(Adjugate(m), 1.0 / det);
        assert MulMatrix(m, inv) == Identity() by {
          AdjugateProductRight(m);
          MulMatrixScalar(m, Adjugate(m), 1.0 / det);
          ScaledIdentityInverse(det);
        }
        assert MulMatrix(inv, m) == Identity() by {
          AdjugateProductLeft(m);
          MulMatrixScalar(Adjugate(m), m, 1.0 / det);
          ScaledIdentityInverse(det);
        }
      }
    }

    /** A matrix with zero determinant has no right inverse, so `inverse` returns `None` only
        when no inverse exists. */
    static lemma SingularHasNoInverse(m: Matrix3, b: Matrix3)
      requires MulMatrix(m, b) == Identity()
      ensures Determinant(m) != 0.0
    {
      DeterminantMultiplicative(m, b);
      DeterminantIdentity();
    }

    /** A matrix with two equal columns is singular, and `inverse` rejects it. */
    static lemma EqualColumnsSingular(m: Matrix3)
      requires m.x == m.y || m.y == m.z || m.x == m.z
      ensures Determinant(m) == 0.0 && Inverse(m) == None
    {
      Leibniz(m);
    }

    /** `translate(v)` moves a point `(p.x, p.y, 1)` by `v` and leaves a direction `(d.x, d.y, 0)` alone. */
    static lemma TranslateMovesPoints(v: Vector2, p: Vector2)
      ensures MulVector(Translate(v), Vector3(p.x, p.y, 1.0)) == Vector3(p.x + v.x, p.y + v.y, 1.0)
      ensures MulVector(Translate(v), Vector3(p.x, p.y, 0.0)) == Vector3(p.x, p.y, 0.0)
    {
    }

    /** `scale(v)` multiplies the two coordinates by `v.x` and `v.y` and keeps the homogeneous one. */
    static lemma ScaleScales(v: Vector2, p: Vector3)
      ensures MulVector(Scale(v), p) == Vector3(v.x * p.x, v.y * p.y, p.z)
    {
    }

    /** `rotate` turns the two coordinates counter-clockwise and keeps the homogeneous one. */
    static lemma RotateTurns(s: real, c: real, p: Vector3)
      ensures MulVector(Rotate(s, c), p) == Vector3(c * p.x - s * p.y, s * p.x + c * p.y, p.z)
    {
    }

    /** With `s^2 + c^2 == 1`, `rotate` is orthogonal: its transpose undoes it. */
    static lemma RotateOrthogonal(s: real, c: real)
      requires s * s + c * c == 1.0
      ensures MulMatrix(Transpose(Rotate(s, c)), Rotate(s, c)) == Identity()
    {
      TransposeInvolutive(Rotate(s, c));
      Cofactor.RotationColumns(s, c);
    }

    /** With `s^2 + c^2 == 1`, `rotate` keeps orientation and area: its determinant is 1. */
    static lemma RotateDeterminant(s: real, c: real)
      requires s * s + c * c == 1.0
      ensures Determinant(Rotate(s, c)) == 1.0
    {
      Leibniz(Rotate(s, c));
      Cofactor.RotationDeterminant(s, c);
    }

    /** `ortho` maps the extent `(right - left, top - bottom)` of its box, as a direction, to the
        extent 2 of the unit square, and negates the homogeneous coordinate. */
    static lemma OrthoExtent(left: real, right: real, bottom: real, top: real)
      requires right != left && top != bottom
      ensures MulVector(Ortho(left, right, bottom, top), Vector3(right - left, top - bottom, 0.0)) == Vector3(2.0, 2.0, 0.0)
      ensures MulVector(Ortho(left, right, bottom, top), Vector3(0.0, 0.0, 1.0)) == Vector3(0.0, 0.0, -1.0)
    {
      Cofactor.DivideScale(2.0, right - left);
      Cofactor.DivideScale(2.0, top - bottom);
    }

    /** The determinants the crate's own tests expect; the last matrix is the one whose
        inverse they check, which `InverseCorrect` covers once its determinant is nonzero. */
    static lemma DeterminantExamples()
      ensures Determinant(Matrix3(Vector3(1.0, 2.0, 3.0), Vector3(4.0, 5.0, 6.0), Vector3(7.0, 8.0, 9.0))) == 0.0
      ensures Determinant(Identity()) == 1.0
      ensures Determinant(Matrix3(Vector3(1.0, 0.0, -2.0), Vector3(-1.0, -2.0, -3.0), Vector3(1.0, 1.0, 0.0))) == 1.0
    {
      DeterminantIdentity();
      Leibniz(Matrix3(Vector3(1.0, 2.0, 3.0), Vector3(4.0, 5.0, 6.0), Vector3(7.0, 8.0, 9.0)));
      Leibniz(Matrix3(Vector3(1.0, 0.0, -2.0), Vector3(-1.0, -2.0, -3.0), Vector3(1.0, 1.0, 0.0)));
    }

    /** The matrix whose inverse the crate's tests check: `inverse` returns these entries,
        and they undo the matrix from the right. */
    static lemma InverseExample(m: Matrix3)
      requires m == Matrix3(Vector3(1.0, 0.0, -2.0), Vector3(-1.0, -2.0, -3.0), Vector3(1.0, 1.0, 0.0))
      ensures Inverse(m) == Some(Matrix3(Vector3(3.0, -2.0, -4.0), Vector3(-3.0, 2.0, 5.0), Vector3(1.0, -1.0, -2.0)))
      ensures MulMatrix(m, Inverse(m).value) == Identity()
    {
      var inv := Matrix3(Vector3(3.0, -2.0, -4.0), Vector3(-3.0, 2.0, 5.0), Vector3(1.0, -1.0, -2.0));
      assert Determinant(m) == 1.0 by {
        Leibniz(m);
      }
      assert Adjugate(m) == inv;
      assert MulScalar(inv, 1.0 / 1.0) == inv;
      InverseCorrect(m);
    }

    /** The products and the transpose the crate's own tests expect. */
    static lemma ProductExamples()
      ensures MulMatrix(Matrix3(Vector3(1.0, 2.0, 3.0), Vector3(4.0, 5.0, 6.0), Vector3(7.0, 8.0, 9.0)),
                        Matrix3(Vector3(10.0, 11.0, 12.0), Vector3(13.0, 14.0, 15.0), Vector3(16.0, 17.0, 18.0)))
        == Matrix3(Vector3(138.0, 171.0, 204.0), Vector3(174.0, 216.0, 258.0), Vector3(210.0, 261.0, 312.0))
      ensures MulVector(Matrix3(Vector3(1.0, 2.0, 3.0), Vector3(4.0, 5.0, 6.0), Vector3(7.0, 8.0, 9.0)), Vector3(1.0, 2.0, 3.0)) == Vector3(30.0, 36.0, 42.0)
      ensures Transpose(Matrix3(Vector3(1.0, 2.0, 3.0), Vector3(4.0, 5.0, 6.0), Vector3(7.0, 8.0, 9.0)))
        == Matrix3(Vector3(1.0, 4.0, 7.0), Vector3(2.0, 5.0, 8.0), Vector3(3.0, 6.0, 9.0))
    {
    }

    /** The points and directions the crate's own tests move and scale. */
    static lemma AffineExamples()
      ensures MulVector(Translate(Vector2(1.0, 0.0)), Vector3(0.0, 0.0, 1.0)) == Vector3(1.0, 0.0, 1.0)
      ensures MulVector(Translate(Vector2(1.0, 0.0)), Vector3(1.0, 0.0, 0.0)) == Vector3(1.0, 0.0, 0.0)
      ensures MulVector(Scale(Vector2(2.0, 1.0)), Vector3(1.0, 0.0, 1.0)) == Vector3(2.0, 0.0, 1.0)
      ensures MulVector(Scale(Vector2(2.0, 1.0)), Vector3(1.0, 0.0, 0.0)) == Vector3(2.0, 0.0, 0.0)
    {
      TranslateMovesPoints(Vector2(1.0, 0.0), Vector2(0.0, 0.0));
      TranslateMovesPoints(Vector2(1.0, 0.0), Vector2(1.0, 0.0));
      ScaleScales(Vector2(2.0, 1.0), Vector3(1.0, 0.0, 1.0));
      ScaleScales(Vector2(2.0, 1.0), Vector3(1.0, 0.0, 0.0));
    }
  }

  datatype Matrix4 = Matrix4(x: Vector4, y: Vector4, z: Vector4, w: Vector4) {

    /** Column `j`. */
    function Column(j: nat): Vector4
      requires j < 4
    {
      if j == 0 then x else if j == 1 then y else if j == 2 then z else w
    }

    /** The entry in row `i` and column `j`. */
    function Entry(i: nat, j: nat): real
      requires i < 4 && j < 4
    {
      Column(j).At(i)
    }

    /** `a + b`, entry by entry. */
    static function Add(a: Matrix4, b: Matrix4): (r: Matrix4)
      ensures forall i, j :: 0 <= i < 4 && 0 <= j < 4 ==> r.Entry(i, j) == a.Entry(i, j) + b.Entry(i, j)
    {
      Matrix4(Vector4.Add(a.x, b.x), Vector4.Add(a.y, b.y), Vector4.Add(a.z, b.z), Vector4.Add(a.w, b.w))
    }

    /** `a - b`, entry by entry. */
    static function Sub(a: Matrix4, b: Matrix4): (r: Matrix4)
      ensures forall i, j :: 0 <= i < 4 && 0 <= j < 4 ==> r.Entry(i, j) == a.Entry(i, j) - b.Entry(i, j)
    {
      Matrix4(Vector4.Sub(a.x, b.x), Vector4.Sub(a.y, b.y), Vector4.Sub(a.z, b.z), Vector4.Sub(a.w, b.w))
    }

    /** `a * s` for a scalar `s`: every entry scaled by `s`. */
    static function MulScalar(a: Matrix4, s: real): (r: Matrix4)
      ensures forall i, j :: 0 <= i < 4 && 0 <= j < 4 ==> r.Entry(i, j) == a.Entry(i, j) * s
    {
      var r := Matrix4(Vector4.MulScalar(a.x, s), Vector4.MulScalar(a.y, s), Vector4.MulScalar(a.z, s), Vector4.MulScalar(a.w, s));
      assert forall i, j :: 0 <= i < 4 && 0 <= j < 4 ==> r.Entry(i, j) == a.Entry(i, j) * s by {
        forall i, j | 0 <= i < 4 && 0 <= j < 4
          ensures r.Entry(i, j) == a.Entry(i, j) * s
        {
          assert r.Column(j) == Vector4.MulScalar(a.Column(j), s);
        }
      }
      r
    }

    /** Rows become columns. */
    static function Transpose(m: Matrix4): (r: Matrix4)
      ensures forall i, j :: 0 <= i < 4 && 0 <= j < 4 ==> r.Entry(i, j) == m.Entry(j, i)
    {
      Matrix4(
        Vector4(m.x.x, m.y.x, m.z.x, m.w.x),
        Vector4(m.x.y, m.y.y, m.z.y, m.w.y),
        Vector4(m.x.z, m.y.z, m.z.z, m.w.z),
        Vector4(m.x.w, m.y.w, m.z.w, m.w.w))
    }

    /** The identity matrix: ones on the diagonal, zeros elsewhere. */
    static function Identity(): (r: Matrix4)
      ensures forall i, j :: 0 <= i < 4 && 0 <= j < 4 ==> r.Entry(i, j) == if i == j then 1.0 else 0.0
    {
      Matrix4(Vector4(1.0, 0.0, 0.0, 0.0), Vector4(0.0, 1.0, 0.0, 0.0), Vector4(0.0, 0.0, 1.0, 0.0), Vector4(0.0, 0.0, 0.0, 1.0))
    }

    /** `a * v`: component `i` is row `i` of `a` (a column of the transpose) dotted with `v`. */
    static function MulVector(a: Matrix4, v: Vector4): Vector4
    {
      var t := Transpose(a);
      Vector4(Vector4.Dot(t.x, v), Vector4.Dot(t.y, v), Vector4.Dot(t.z, v), Vector4.Dot(t.w, v))
    }

    /** `a * b`: row `i` of `a` dotted with column `j` of `b`. */
    static function MulMatrix(a: Matrix4, b: Matrix4): Matrix4
    {
      var t := Transpose(a);
      Matrix4(
        Vector4(Vector4.Dot(t.x, b.x), Vector4.Dot(t.y, b.x), Vector4.Dot(t.z, b.x), Vector4.Dot(t.w, b.x)),
        Vector4(Vector4.Dot(t.x, b.y), Vector4.Dot(t.y, b.y), Vector4.Dot(t.z, b.y), Vector4.Dot(t.w, b.y)),
        Vector4(Vector4.Dot(t.x, b.z), Vector4.Dot(t.y, b.z), Vector4.Dot(t.z, b.z), Vector4.Dot(t.w, b.z)),
        Vector4(Vector4.Dot(t.x, b.w), Vector4.Dot(t.y, b.w), Vector4.Dot(t.z, b.w), Vector4.Dot(t.w, b.w)))
    }

    /** Laplace expansion along the first row, over the 3x3 minors that leave out row 0 and
        column `j`, with alternating signs. */
    static function Determinant(m: Matrix4): real
    {
      var a := Matrix3(Vector3(m.y.y, m.y.z, m.y.w), Vector3(m.z.y, m.z.z, m.z.w), Vector3(m.w.y, m.w.z, m.w.w));
      var b := Matrix3(Vector3(m.x.y, m.x.z, m.x.w), Vector3(m.z.y, m.z.z, m.z.w), Vector3(m.w.y, m.w.z, m.w.w));
      var c := Matrix3(Vector3(m.x.y, m.x.z, m.x.w), Vector3(m.y.y, m.y.z, m.y.w), Vector3(m.w.y, m.w.z, m.w.w));
      var d := Matrix3(Vector3(m.x.y, m.x.z, m.x.w), Vector3(m.y.y, m.y.z, m.y.w), Vector3(m.z.y, m.z.z, m.z.w));
      m.x.x * Matrix3.Determinant(a) - m.y.x * Matrix3.Determinant(b)
        + m.z.x * Matrix3.Determinant(c) - m.w.x * Matrix3.Determinant(d)
    }

    /** The matrix of signed cofactors: entry `(i, j)` is `(-1)^(i+j)` times the determinant of
        the minor that leaves out row `i` and column `j`. */
    static function Comatrix(m: Matrix4): Matrix4
    {
      var c00 := Matrix3(Vector3(m.y.y, m.y.z, m.y.w), Vector3(m.z.y, m.z.z, m.z.w), Vector3(m.w.y, m.w.z, m.w.w));
      var c01 := Matrix3(Vector3(m.x.y, m.x.z, m.x.w), Vector3(m.z.y, m.z.z, m.z.w), Vector3(m.w.y, m.w.z, m.w.w));
      var c02 := Matrix3(Vector3(m.x.y, m.x.z, m.x.w), Vector3(m.y.y, m.y.z, m.y.w), Vector3(m.w.y, m.w.z, m.w.w));
      var c03 := Matrix3(Vector3(m.x.y, m.x.z, m.x.w), Vector3(m.y.y, m.y.z, m.y.w), Vector3(m.z.y, m.z.z, m.z.w));
      var c10 := Matrix3(Vector3(m.y.x, m.y.z, m.y.w), Vector3(m.z.x, m.z.z, m.z.w), Vector3(m.w.x, m.w.z, m.w.w));
      var c11 := Matrix3(Vector3(m.x.x, m.x.z, m.x.w), Vector3(m.z.x, m.z.z, m.z.w), Vector3(m.w.x, m.w.z, m.w.w));
      var c12 := Matrix3(Vector3(m.x.x, m.x.z, m.x.w), Vector3(m.y.x, m.y.z, m.y.w), Vector3(m.w.x, m.w.z, m.w.w));
      var c13 := Matrix3(Vector3(m.x.x, m.x.z, m.x.w), Vector3(m.y.x, m.y.z, m.y.w), Vector3(m.z.x, m.z.z, m.z.w));
      var c20 := Matrix3(Vector3(m.y.x, m.y.y, m.y.w), Vector3(m.z.x, m.z.y, m.z.w), Vector3(m.w.x, m.w.y, m.w.w));
      var c21 := Matrix3(Vector3(m.x.x, m.x.y, m.x.w), Vector3(m.z.x, m.z.y, m.z.w), Vector3(m.w.x, m.w.y, m.w.w));
      var c22 := Matrix3(Vector3(m.x.x, m.x.y, m.x.w), Vector3(m.y.x, m.y.y, m.y.w), Vector3(m.w.x, m.w.y, m.w.w));
      var c23 := Matrix3(Vector3(m.x.x, m.x.y, m.x.w), Vector3(m.y.x, m.y.y, m.y.w), Vector3(m.z.x, m.z.y, m.z.w));
      var c30 := Matrix3(Vector3(m.y.x, m.y.y, m.y.z), Vector3(m.z.x, m.z.y, m.z.z), Vector3(m.w.x, m.w.y, m.w.z));
      var c31 := Matrix3(Vector3(m.x.x, m.x.y, m.x.z), Vector3(m.z.x, m.z.y, m.z.z), Vector3(m.w.x, m.w.y, m.w.z));
      var c32 := Matrix3(Vector3(m.x.x, m.x.y, m.x.z), Vector3(m.y.x, m.y.y, m.y.z), Vector3(m.w.x, m.w.y, m.w.z));
      var c33 := Matrix3(Vector3(m.x.x, m.x.y, m.x.z), Vector3(m.y.x, m.y.y, m.y.z), Vector3(m.z.x, m.z.y, m.z.z));
      Matrix4(
        Vector4(Matrix3.Determinant(c00), -Matrix3.Determinant(c10), Matrix3.Determinant(c20), -Matrix3.Determinant(c30)),
        Vector4(-Matrix3.Determinant(c01), Matrix3.Determinant(c11), -Matrix3.Determinant(c21), Matrix3.Determinant(c31)),
        Vector4(Matrix3.Determinant(c02), -Matrix3.Determinant(c12), Matrix3.Determinant(c22), -Matrix3.Determinant(c32)),
        Vector4(-Matrix3.Determinant(c03), Matrix3.Determinant(c13), -Matrix3.Determinant(c23), Matrix3.Determinant(c33)))
    }

    /** The transpose of the comatrix. */
    static function Adjugate(m: Matrix4): Matrix4
    {
      Transpose(Comatrix(m))
    }

    /** `None` when the determinant is zero, otherwise the adjugate divided by the determinant. */
    static function Inverse(m: Matrix4): Option<Matrix4>
    {
      var det := Determinant(m);
      if det == 0.0 then None else Some(MulScalar(Adjugate(m), 1.0 / det))
    }

    /** The homogeneous 3D translation by `v`: its last column is `(v.x, v.y, v.z, 1)`. */
    static function Translate(v: Vector3): Matrix4
    {
      Matrix4(Vector4(1.0, 0.0, 0.0, 0.0), Vector4(0.0, 1.0, 0.0, 0.0), Vector4(0.0, 0.0, 1.0, 0.0), Vector4(v.x, v.y, v.z, 1.0))
    }

    /** The homogeneous 3D scaling by `v`: the diagonal is `(v.x, v.y, v.z, 1)`. */
    static function Scale(v: Vector3): Matrix4
    {
      Matrix4(Vector4(v.x, 0.0, 0.0, 0.0), Vector4(0.0, v.y, 0.0, 0.0), Vector4(0.0, 0.0, v.z, 0.0), Vector4(0.0, 0.0, 0.0, 1.0))
    }

    /** The homogeneous 3D rotation about the unit axis `a` by the angle whose sine is `s` and
        cosine is `c` (Rodrigues' formula: entry `(i, j)` is `c * d_ij + a_i * (1 - c) * a_j`
        plus or minus `s` times the third axis component). */
    static function Rotate(s: real, c: real, a: Vector3): Matrix4
    {
      Matrix4(
        Vector4(c + a.x * (1.0 - c) * a.x, a.x * (1.0 - c) * a.y + s * a.z, a.x * (1.0 - c) * a.z - s * a.y, 0.0),
        Vector4(a.y * (1.0 - c) * a.x - s * a.z, c + a.y * (1.0 - c) * a.y, a.y * (1.0 - c) * a.z + s * a.x, 0.0),
        Vector4(a.z * (1.0 - c) * a.x + s * a.y, a.z * (1.0 - c) * a.y - s * a.x, c + a.z * (1.0 - c) * a.z, 0.0),
        Vector4(0.0, 0.0, 0.0, 1.0))
    }

    /** The orthographic projection of the box `[left, right] x [bottom, top] x [-near, -far]`
        onto the cube `[-1, 1]^3`. */
    static function Ortho(left: real, right: real, bottom: real, top: real, near: real, far: real): Matrix4
      requires right != left && top != bottom && far != near
    {
      Matrix4(
        Vector4(2.0 / (right - left), 0.0, 0.0, 0.0),
        Vector4(0.0, 2.0 / (top - bottom), 0.0, 0.0),
        Vector4(0.0, 0.0, -2.0 / (far - near), 0.0),
        Vector4(-(right + left) / (right - left), -(top + bottom) / (top - bottom), -(far + near) / (far - near), 1.0))
    }

    /** `perspective` as the crate writes it, with the focal factor `f` (the reciprocal of the
        tangent of half the vertical field of view) given: the depth terms sit in row `w` of
        column `z`, and the `-1` in row `z` of column `w`. */
    static function PerspectiveAsWritten(f: real, aspect: real, near: real, far: real): Matrix4
      requires aspect != 0.0 && near != far
    {
      Matrix4(
        Vector4(f / aspect, 0.0, 0.0, 0.0),
        Vector4(0.0, f, 0.0, 0.0),
        Vector4(0.0, 0.0, (far + near) / (near - far), (2.0 * far * near) / (near - far)),
        Vector4(0.0, 0.0, -1.0, 0.0))
    }

    /** The perspective projection in the crate's own column convention (the one `translate`
        and `ortho` follow): column `z` carries the depth scale and the `-1` that copies the
        depth into `w`, column `w` the depth offset. */
    static function Perspective(f: real, aspect: real, near: real, far: real): Matrix4
      requires aspect != 0.0 && near != far
    {
      Matrix4(
        Vector4(f / aspect, 0.0, 0.0, 0.0),
        Vector4(0.0, f, 0.0, 0.0),
        Vector4(0.0, 0.0, (far + near) / (near - far), -1.0),
        Vector4(0.0, 0.0, (2.0 * far * near) / (near - far), 0.0))
    }

    /** Subtracting what was added gives back the original matrix. */
    static lemma AddSubInverse(a: Matrix4, b: Matrix4)
      ensures Sub(Add(a, b), b) == a
    {
      Vector4.AddSubInverse(a.x, b.x);
      Vector4.AddSubInverse(a.y, b.y);
      Vector4.AddSubInverse(a.z, b.z);
      Vector4.AddSubInverse(a.w, b.w);
    }

    /** Transposing twice gives back the original matrix. */
    static lemma TransposeInvolutive(m: Matrix4)
      ensures Transpose(Transpose(m)) == m
    {
    }

    /** Component `i` of `a * v` is the sum over `k` of `a[i][k] * v[k]`. */
    static lemma MulVectorEntry(a: Matrix4, v: Vector4, i: nat)
      requires i < 4
      ensures MulVector(a, v).At(i)
        == a.Entry(i, 0) * v.At(0) + a.Entry(i, 1) * v.At(1) + a.Entry(i, 2) * v.At(2) + a.Entry(i, 3) * v.At(3)
    {
    }

    /** `a * v` computed row by row: the textbook sum for every component. */
    static lemma MulVectorEntries(a: Matrix4, v: Vector4)
      ensures forall i :: 0 <= i < 4 ==>
        MulVector(a, v).At(i) == a.Entry(i, 0) * v.At(0) + a.Entry(i, 1) * v.At(1) + a.Entry(i, 2) * v.At(2) + a.Entry(i, 3) * v.At(3)
    {
      forall i | 0 <= i < 4
        ensures MulVector(a, v).At(i) == a.Entry(i, 0) * v.At(0) + a.Entry(i, 1) * v.At(1) + a.Entry(i, 2) * v.At(2) + a.Entry(i, 3) * v.At(3)
      {
        MulVectorEntry(a, v, i);
      }
    }

    /** Column `j` of `a * b`, for an index `j`. */
    static lemma MulMatrixColumn(a: Matrix4, b: Matrix4, j: nat)
      requires j < 4
      ensures MulMatrix(a, b).Column(j) == MulVector(a, b.Column(j))
    {
      MulMatrixColumns(a, b);
    }

    /** Entry `(i, j)` of `a * b` is the textbook sum over `k` of `a[i][k] * b[k][j]`. */
    static lemma MulMatrixEntries(a: Matrix4, b: Matrix4)
      ensures forall i, j :: 0 <= i < 4 && 0 <= j < 4 ==>
        MulMatrix(a, b).Entry(i, j)
          == a.Entry(i, 0) * b.Entry(0, j) + a.Entry(i, 1) * b.Entry(1, j) + a.Entry(i, 2) * b.Entry(2, j) + a.Entry(i, 3) * b.Entry(3, j)
    {
      forall i, j | 0 <= i < 4 && 0 <= j < 4
        ensures MulMatrix(a, b).Entry(i, j)
          == a.Entry(i, 0) * b.Entry(0, j) + a.Entry(i, 1) * b.Entry(1, j) + a.Entry(i, 2) * b.Entry(2, j) + a.Entry(i, 3) * b.Entry(3, j)
      {
        MulMatrixColumn(a, b, j);
        MulVectorEntry(a, b.Column(j), i);
      }
    }

    /** Column `j` of `a * b` is `a` applied to column `j` of `b`. */
    static lemma MulMatrixColumns(a: Matrix4, b: Matrix4)
      ensures MulMatrix(a, b).x == MulVector(a, b.x)
      ensures MulMatrix(a, b).y == MulVector(a, b.y)
      ensures MulMatrix(a, b).z == MulVector(a, b.z)
      ensures MulMatrix(a, b).w == MulVector(a, b.w)
    {
    }

    /** The columns of `b` weighted by the components of `v` and added up. */
    static function ColumnCombination(b: Matrix4, v: Vector4): Vector4
    {
      Vector4.Add(Vector4.Add(Vector4.Add(Vector4.MulScalar(b.x, v.x), Vector4.MulScalar(b.y, v.y)), Vector4.MulScalar(b.z, v.z)), Vector4.MulScalar(b.w, v.w))
    }

    /** `b * v` is the combination of the columns of `b` with the components of `v` as weights. */
    static lemma ColumnsCombine(b: Matrix4, v: Vector4)
      ensures MulVector(b, v) == ColumnCombination(b, v)
    {
    }

    /** One row `r` against `b * v` is the row `r * b` against `v`. */
    static lemma RowCompose(r: Vector4, b: Matrix4, v: Vector4)
      ensures Vector4.Dot(r, MulVector(b, v))
        == Vector4.Dot(Vector4(Vector4.Dot(r, b.x), Vector4.Dot(r, b.y), Vector4.Dot(r, b.z), Vector4.Dot(r, b.w)), v)
    {
      ColumnsCombine(b, v);
      Vector4.DotCombination(r, b.x, b.y, b.z, b.w, v);
    }

    /** Applying `a * b` to a vector is applying `b` and then `a`. */
    static lemma MulVectorComposes(a: Matrix4, b: Matrix4, v: Vector4)
      ensures MulVector(MulMatrix(a, b), v) == MulVector(a, MulVector(b, v))
    {
      var t := Transpose(a);
      RowCompose(t.x, b, v);
      RowCompose(t.y, b, v);
      RowCompose(t.z, b, v);
      RowCompose(t.w, b, v);
    }

    /** The matrix product is associative. */
    static lemma MulMatrixAssociative(a: Matrix4, b: Matrix4, c: Matrix4)
      ensures MulMatrix(MulMatrix(a, b), c) == MulMatrix(a, MulMatrix(b, c))
    {
      MulMatrixColumns(MulMatrix(a, b), c);
      MulMatrixColumns(b, c);
      MulMatrixColumns(a, MulMatrix(b, c));
      MulVectorComposes(a, b, c.x);
      MulVectorComposes(a, b, c.y);
      MulVectorComposes(a, b, c.z);
      MulVectorComposes(a, b, c.w);
    }

    /** The identity is neutral on both sides of the product and on vectors. */
    static lemma MulIdentity(m: Matrix4, v: Vector4)
      ensures MulMatrix(Identity(), m) == m
      ensures MulMatrix(m, Identity()) == m
      ensures MulVector(Identity(), v) == v
    {
    }

    /** Entry `(i, j)` of the comatrix is the signed Leibniz determinant of the minor that
        leaves out row `i` and column `j`. */
    static lemma ComatrixCofactors(m: Matrix4)
      ensures Comatrix(m).x.x == Cofactor.Det3(m.y.y, m.z.y, m.w.y, m.y.z, m.z.z, m.w.z, m.y.w, m.z.w, m.w.w)
      ensures Comatrix(m).y.x == -Cofactor.Det3(m.x.y, m.z.y, m.w.y, m.x.z, m.z.z, m.w.z, m.x.w, m.z.w, m.w.w)
      ensures Comatrix(m).z.x == Cofactor.Det3(m.x.y, m.y.y, m.w.y, m.x.z, m.y.z, m.w.z, m.x.w, m.y.w, m.w.w)
      ensures Comatrix(m).w.x == -Cofactor.Det3(m.x.y, m.y.y, m.z.y, m.x.z, m.y.z, m.z.z, m.x.w, m.y.w, m.z.w)
      ensures Comatrix(m).x.y == -Cofactor.Det3(m.y.x, m.z.x, m.w.x, m.y.z, m.z.z, m.w.z, m.y.w, m.z.w, m.w.w)
      ensures Comatrix(m).y.y == Cofactor.Det3(m.x.x, m.z.x, m.w.x, m.x.z, m.z.z, m.w.z, m.x.w, m.z.w, m.w.w)
      ensures Comatrix(m).z.y == -Cofactor.Det3(m.x.x, m.y.x, m.w.x, m.x.z, m.y.z, m.w.z, m.x.w, m.y.w, m.w.w)
      ensures Comatrix(m).w.y == Cofactor.Det3(m.x.x, m.y.x, m.z.x, m.x.z, m.y.z, m.z.z, m.x.w, m.y.w, m.z.w)
      ensures Comatrix(m).x.z == Cofactor.Det3(m.y.x, m.z.x, m.w.x, m.y.y, m.z.y, m.w.y, m.y.w, m.z.w, m.w.w)
      ensures Comatrix(m).y.z == -Cofactor.Det3(m.x.x, m.z.x, m.w.x, m.x.y, m.z.y, m.w.y, m.x.w, m.z.w, m.w.w)
      ensures Comatrix(m).z.z == Cofactor.Det3(m.x.x, m.y.x, m.w.x, m.x.y, m.y.y, m.w.y, m.x.w, m.y.w, m.w.w)
      ensures Comatrix(m).w.z == -Cofactor.Det3(m.x.x, m.y.x, m.z.x, m.x.y, m.y.y, m.z.y, m.x.w, m.y.w, m.z.w)
      ensures Comatrix(m).x.w == -Cofactor.Det3(m.y.x, m.z.x, m.w.x, m.y.y, m.z.y, m.w.y, m.y.z, m.z.z, m.w.z)
      ensures Comatrix(m).y.w == Cofactor.Det3(m.x.x, m.z.x, m.w.x, m.x.y, m.z.y, m.w.y, m.x.z, m.z.z, m.w.z)
      ensures Comatrix(m).z.w == -Cofactor.Det3(m.x.x, m.y.x, m.w.x, m.x.y, m.y.y, m.w.y, m.x.z, m.y.z, m.w.z)
      ensures Comatrix(m).w.w == Cofactor.Det3(m.x.x, m.y.x, m.z.x, m.x.y, m.y.y, m.z.y, m.x.z, m.y.z, m.z.z)
    {
      Matrix3.Leibniz(Matrix3(Vector3(m.y.y, m.y.z, m.y.w), Vector3(m.z.y, m.z.z, m.z.w), Vector3(m.w.y, m.w.z, m.w.w)));
      Matrix3.Leibniz(Matrix3(Vector3(m.x.y, m.x.z, m.x.w), Vector3(m.z.y, m.z.z, m.z.w), Vector3(m.w.y, m.w.z, m.w.w)));
      Matrix3.Leibniz(Matrix3(Vector3(m.x.y, m.x.z, m.x.w), Vector3(m.y.y, m.y.z, m.y.w), Vector3(m.w.y, m.w.z, m.w.w)));
      Matrix3.Leibniz(Matrix3(Vector3(m.x.y, m.x.z, m.x.w), Vector3(m.y.y, m.y.z, m.y.w), Vector3(m.z.y, m.z.z, m.z.w)));
      Matrix3.Leibniz(Matrix3(Vector3(m.y.x, m.y.z, m.y.w), Vector3(m.z.x, m.z.z, m.z.w), Vector3(m.w.x, m.w.z, m.w.w)));
      Matrix3.Leibniz(Matrix3(Vector3(m.x.x, m.x.z, m.x.w), Vector3(m.z.x, m.z.z, m.z.w), Vector3(m.w.x, m.w.z, m.w.w)));
      Matrix3.Leibniz(Matrix3(Vector3(m.x.x, m.x.z, m.x.w), Vector3(m.y.x, m.y.z, m.y.w), Vector3(m.w.x, m.w.z, m.w.w)));
      Matrix3.Leibniz(Matrix3(Vector3(m.x.x, m.x.z, m.x.w), Vector3(m.y.x, m.y.z, m.y.w), Vector3(m.z.x, m.z.z, m.z.w)));
      Matrix3.Leibniz(Matrix3(Vector3(m.y.x, m.y.y, m.y.w), Vector3(m.z.x, m.z.y, m.z.w), Vector3(m.w.x, m.w.y, m.w.w)));
      Matrix3.Leibniz(Matrix3(Vector3(m.x.x, m.x.y, m.x.w), Vector3(m.z.x, m.z.y, m.z.w), Vector3(m.w.x, m.w.y, m.w.w)));
      Matrix3.Leibniz(Matrix3(Vector3(m.x.x, m.x.y, m.x.w), Vector3(m.y.x, m.y.y, m.y.w), Vector3(m.w.x, m.w.y, m.w.w)));
      Matrix3.Leibniz(Matrix3(Vector3(m.x.x, m.x.y, m.x.w), Vector3(m.y.x, m.y.y, m.y.w), Vector3(m.z.x, m.z.y, m.z.w)));
      Matrix3.Leibniz(Matrix3(Vector3(m.y.x, m.y.y, m.y.z), Vector3(m.z.x, m.z.y, m.z.z), Vector3(m.w.x, m.w.y, m.w.z)));
      Matrix3.Leibniz(Matrix3(Vector3(m.x.x, m.x.y, m.x.z), Vector3(m.z.x, m.z.y, m.z.z), Vector3(m.w.x, m.w.y, m.w.z)));
      Matrix3.Leibniz(Matrix3(Vector3(m.x.x, m.x.y, m.x.z), Vector3(m.y.x, m.y.y, m.y.z), Vector3(m.w.x, m.w.y, m.w.z)));
      Matrix3.Leibniz(Matrix3(Vector3(m.x.x, m.x.y, m.x.z), Vector3(m.y.x, m.y.y, m.y.z), Vector3(m.z.x, m.z.y, m.z.z)));
    }

    /** The determinant agrees with the Leibniz formula on the entries, read row by row. */
    static lemma Leibniz(m: Matrix4)
      ensures Determinant(m) == Cofactor.Det4(m.x.x, m.y.x, m.z.x, m.w.x, m.x.y, m.y.y, m.z.y, m.w.y, m.x.z, m.y.z, m.z.z, m.w.z, m.x.w, m.y.w, m.z.w, m.w.w)
    {
      var a := Matrix3(Vector3(m.y.y, m.y.z, m.y.w), Vector3(m.z.y, m.z.z, m.z.w), Vector3(m.w.y, m.w.z, m.w.w));
      var b := Matrix3(Vector3(m.x.y, m.x.z, m.x.w), Vector3(m.z.y, m.z.z, m.z.w), Vector3(m.w.y, m.w.z, m.w.w));
      var c := Matrix3(Vector3(m.x.y, m.x.z, m.x.w), Vector3(m.y.y, m.y.z, m.y.w), Vector3(m.w.y, m.w.z, m.w.w));
      var d := Matrix3(Vector3(m.x.y, m.x.z, m.x.w), Vector3(m.y.y, m.y.z, m.y.w), Vector3(m.z.y, m.z.z, m.z.w));
      Matrix3.Leibniz(a);
      Matrix3.Leibniz(b);
      Matrix3.Leibniz(c);
      Matrix3.Leibniz(d);
      var da, db, dc, dd := Matrix3.Determinant(a), Matrix3.Determinant(b), Matrix3.Determinant(c), Matrix3.Determinant(d);
      Cofactor.RowExpansion0(m.x.x, m.y.x, m.z.x, m.w.x, m.x.y, m.y.y, m.z.y, m.w.y, m.x.z, m.y.z, m.z.z, m.w.z, m.x.w, m.y.w, m.z.w, m.w.w,
        da, -db, dc, -dd);
      Cofactor.AlternatingDot(m.x.x, m.y.x, m.z.x, m.w.x, da, db, dc, dd);
    }

    /** `det(I) == 1`. */
    static lemma DeterminantIdentity()
      ensures Determinant(Identity()) == 1.0
    {
      Leibniz(Identity());
    }

    /** `det(m^T) == det(m)`. */
    static lemma DeterminantTranspose(m: Matrix4)
      ensures Determinant(Transpose(m)) == Determinant(m)
    {
      Leibniz(m);
      Leibniz(Transpose(m));
      Cofactor.Det4Transpose(m.x.x, m.y.x, m.z.x, m.w.x, m.x.y, m.y.y, m.z.y, m.w.y, m.x.z, m.y.z, m.z.z, m.w.z, m.x.w, m.y.w, m.z.w, m.w.w);
    }

    /** `m * adj(m) == det(m) I`: row `i` of `m` against the signed cofactors of row `j` is the
        expansion of the determinant along row `i` when `i == j`, and zero otherwise. */
    static lemma AdjugateProductRight(m: Matrix4)
      ensures MulMatrix(m, Adjugate(m)) == MulScalar(Identity(), Determinant(m))
    {
      ComatrixCofactors(m);
      Leibniz(m);
      ScaledIdentity(Determinant(m));
      Cofactor.RowExpansion0(m.x.x, m.y.x, m.z.x, m.w.x, m.x.y, m.y.y, m.z.y, m.w.y, m.x.z, m.y.z, m.z.z, m.w.z, m.x.w, m.y.w, m.z.w, m.w.w,
        Comatrix(m).x.x, Comatrix(m).y.x, Comatrix(m).z.x, Comatrix(m).w.x);
      Cofactor.AlienRow01(m.x.x, m.y.x, m.z.x, m.w.x, m.x.y, m.y.y, m.z.y, m.w.y, m.x.z, m.y.z, m.z.z, m.w.z, m.x.w, m.y.w, m.z.w, m.w.w,
        Comatrix(m).x.y, Comatrix(m).y.y, Comatrix(m).z.y, Comatrix(m).w.y);
      Cofactor.AlienRow02(m.x.x, m.y.x, m.z.x, m.w.x, m.x.y, m.y.y, m.z.y, m.w.y, m.x.z, m.y.z, m.z.z, m.w.z, m.x.w, m.y.w, m.z.w, m.w.w,
        Comatrix(m).x.z, Comatrix(m).y.z, Comatrix(m).z.z, Comatrix(m).w.z);
      Cofactor.AlienRow03(m.x.x, m.y.x, m.z.x, m.w.x, m.x.y, m.y.y, m.z.y, m.w.y, m.x.z, m.y.z, m.z.z, m.w.z, m.x.w, m.y.w, m.z.w, m.w.w,
        Comatrix(m).x.w, Comatrix(m).y.w, Comatrix(m).z.w, Comatrix(m).w.w);
      Cofactor.AlienRow10(m.x.x, m.y.x, m.z.x, m.w.x, m.x.y, m.y.y, m.z.y, m.w.y, m.x.z, m.y.z, m.z.z, m.w.z, m.x.w, m.y.w, m.z.w, m.w.w,
        Comatrix(m).x.x, Comatrix(m).y.x, Comatrix(m).z.x, Comatrix(m).w.x);
      Cofactor.RowExpansion1(m.x.x, m.y.x, m.z.x, m.w.x, m.x.y, m.y.y, m.z.y, m.w.y, m.x.z, m.y.z, m.z.z, m.w.z, m.x.w, m.y.w, m.z.w, m.w.w,
        Comatrix(m).x.y, Comatrix(m).y.y, Comatrix(m).z.y, Comatrix(m).w.y);
      Cofactor.AlienRow12(m.x.x, m.y.x, m.z.x, m.w.x, m.x.y, m.y.y, m.z.y, m.w.y, m.x.z, m.y.z, m.z.z, m.w.z, m.x.w, m.y.w, m.z.w, m.w.w,
        Comatrix(m).x.z, Comatrix(m).y.z, Comatrix(m).z.z, Comatrix(m).w.z);
      Cofactor.AlienRow13(m.x.x, m.y.x, m.z.x, m.w.x, m.x.y, m.y.y, m.z.y, m.w.y, m.x.z, m.y.z, m.z.z, m.w.z, m.x.w, m.y.w, m.z.w, m.w.w,
        Comatrix(m).x.w, Comatrix(m).y.w, Comatrix(m).z.w, Comatrix(m).w.w);
      Cofactor.AlienRow20(m.x.x, m.y.x, m.z.x, m.w.x, m.x.y, m.y.y, m.z.y, m.w.y, m.x.z, m.y.z, m.z.z, m.w.z, m.x.w, m.y.w, m.z.w, m.w.w,
        Comatrix(m).x.x, Comatrix(m).y.x, Comatrix(m).z.x, Comatrix(m).w.x);
      Cofactor.AlienRow21(m.x.x, m.y.x, m.z.x, m.w.x, m.x.y, m.y.y, m.z.y, m.w.y, m.x.z, m.y.z, m.z.z, m.w.z, m.x.w, m.y.w, m.z.w, m.w.w,
        Comatrix(m).x.y, Comatrix(m).y.y, Comatrix(m).z.y, Comatrix(m).w.y);
      Cofactor.RowExpansion2(m.x.x, m.y.x, m.z.x, m.w.x, m.x.y, m.y.y, m.z.y, m.w.y, m.x.z, m.y.z, m.z.z, m.w.z, m.x.w, m.y.w, m.z.w, m.w.w,
        Comatrix(m).x.z, Comatrix(m).y.z, Comatrix(m).z.z, Comatrix(m).w.z);
      Cofactor.AlienRow23(m.x.x, m.y.x, m.z.x, m.w.x, m.x.y, m.y.y, m.z.y, m.w.y, m.x.z, m.y.z, m.z.z, m.w.z, m.x.w, m.y.w, m.z.w, m.w.w,
        Comatrix(m).x.w, Comatrix(m).y.w, Comatrix(m).z.w, Comatrix(m).w.w);
      Cofactor.AlienRow30(m.x.x, m.y.x, m.z.x, m.w.x, m.x.y, m.y.y, m.z.y, m.w.y, m.x.z, m.y.z, m.z.z, m.w.z, m.x.w, m.y.w, m.z.w, m.w.w,
        Comatrix(m).x.x, Comatrix(m).y.x, Comatrix(m).z.x, Comatrix(m).w.x);
      Cofactor.AlienRow31(m.x.x, m.y.x, m.z.x, m.w.x, m.x.y, m.y.y, m.z.y, m.w.y, m.x.z, m.y.z, m.z.z, m.w.z, m.x.w, m.y.w, m.z.w, m.w.w,
        Comatrix(m).x.y, Comatrix(m).y.y, Comatrix(m).z.y, Comatrix(m).w.y);
      Cofactor.AlienRow32(m.x.x, m.y.x, m.z.x, m.w.x, m.x.y, m.y.y, m.z.y, m.w.y, m.x.z, m.y.z, m.z.z, m.w.z, m.x.w, m.y.w, m.z.w, m.w.w,
        Comatrix(m).x.z, Comatrix(m).y.z, Comatrix(m).z.z, Comatrix(m).w.z);
      Cofactor.RowExpansion3(m.x.x, m.y.x, m.z.x, m.w.x, m.x.y, m.y.y, m.z.y, m.w.y, m.x.z, m.y.z, m.z.z, m.w.z, m.x.w, m.y.w, m.z.w, m.w.w,
        Comatrix(m).x.w, Comatrix(m).y.w, Comatrix(m).z.w, Comatrix(m).w.w);
    }

    /** `adj(m) * m == det(m) I`: the signed cofactors of column `i` against column `j` of `m`
        is the expansion of the determinant along column `i` when `i == j`, and zero otherwise. */
    static lemma AdjugateProductLeft(m: Matrix4)
      ensures MulMatrix(Adjugate(m), m) == MulScalar(Identity(), Determinant(m))
    {
      ComatrixCofactors(m);
      Leibniz(m);
      ScaledIdentity(Determinant(m));
      assert m.x == Vector4(m.x.x, m.x.y, m.x.z, m.x.w);
      assert m.y == Vector4(m.y.x, m.y.y, m.y.z, m.y.w);
      assert m.z == Vector4(m.z.x, m.z.y, m.z.z, m.z.w);
      assert m.w == Vector4(m.w.x, m.w.y, m.w.z, m.w.w);
      Cofactor.ColumnExpansion0(m.x.x, m.y.x, m.z.x, m.w.x, m.x.y, m.y.y, m.z.y, m.w.y, m.x.z, m.y.z, m.z.z, m.w.z, m.x.w, m.y.w, m.z.w, m.w.w,
        Comatrix(m).x.x, Comatrix(m).x.y, Comatrix(m).x.z, Comatrix(m).x.w);
      Cofactor.AlienColumn10(m.x.x, m.y.x, m.z.x, m.w.x, m.x.y, m.y.y, m.z.y, m.w.y, m.x.z, m.y.z, m.z.z, m.w.z, m.x.w, m.y.w, m.z.w, m.w.w,
        Comatrix(m).x.x, Comatrix(m).x.y, Comatrix(m).x.z, Comatrix(m).x.w);
      Cofactor.AlienColumn20(m.x.x, m.y.x, m.z.x, m.w.x, m.x.y, m.y.y, m.z.y, m.w.y, m.x.z, m.y.z, m.z.z, m.w.z, m.x.w, m.y.w, m.z.w, m.w.w,
        Comatrix(m).x.x, Comatrix(m).x.y, Comatrix(m).x.z, Comatrix(m).x.w);
      Cofactor.AlienColumn30(m.x.x, m.y.x, m.z.x, m.w.x, m.x.y, m.y.y, m.z.y, m.w.y, m.x.z, m.y.z, m.z.z, m.w.z, m.x.w, m.y.w, m.z.w, m.w.w,
        Comatrix(m).x.x, Comatrix(m).x.y, Comatrix(m).x.z, Comatrix(m).x.w);
      Cofactor.AlienColumn01(m.x.x, m.y.x, m.z.x, m.w.x, m.x.y, m.y.y, m.z.y, m.w.y, m.x.z, m.y.z, m.z.z, m.w.z, m.x.w, m.y.w, m.z.w, m.w.w,
        Comatrix(m).y.x, Comatrix(m).y.y, Comatrix(m).y.z, Comatrix(m).y.w);
      Cofactor.ColumnExpansion1(m.x.x, m.y.x, m.z.x, m.w.x, m.x.y, m.y.y, m.z.y, m.w.y, m.x.z, m.y.z, m.z.z, m.w.z, m.x.w, m.y.w, m.z.w, m.w.w,
        Comatrix(m).y.x, Comatrix(m).y.y, Comatrix(m).y.z, Comatrix(m).y.w);
      Cofactor.AlienColumn21(m.x.x, m.y.x, m.z.x, m.w.x, m.x.y, m.y.y, m.z.y, m.w.y, m.x.z, m.y.z, m.z.z, m.w.z, m.x.w, m.y.w, m.z.w, m.w.w,
        Comatrix(m).y.x, Comatrix(m).y.y, Comatrix(m).y.z, Comatrix(m).y.w);
      Cofactor.AlienColumn31(m.x.x, m.y.x, m.z.x, m.w.x, m.x.y, m.y.y, m.z.y, m.w.y, m.x.z, m.y.z, m.z.z, m.w.z, m.x.w, m.y.w, m.z.w, m.w.w,
        Comatrix(m).y.x, Comatrix(m).y.y, Comatrix(m).y.z, Comatrix(m).y.w);
      Cofactor.AlienColumn02(m.x.x, m.y.x, m.z.x, m.w.x, m.x.y, m.y.y, m.z.y, m.w.y, m.x.z, m.y.z, m.z.z, m.w.z, m.x.w, m.y.w, m.z.w, m.w.w,
        Comatrix(m).z.x, Comatrix(m).z.y, Comatrix(m).z.z, Comatrix(m).z.w);
      Cofactor.AlienColumn12(m.x.x, m.y.x, m.z.x, m.w.x, m.x.y, m.y.y, m.z.y, m.w.y, m.x.z, m.y.z, m.z.z, m.w.z, m.x.w, m.y.w, m.z.w, m.w.w,
        Comatrix(m).z.x, Comatrix(m).z.y, Comatrix(m).z.z, Comatrix(m).z.w);
      Cofactor.ColumnExpansion2(m.x.x, m.y.x, m.z.x, m.w.x, m.x.y, m.y.y, m.z.y, m.w.y, m.x.z, m.y.z, m.z.z, m.w.z, m.x.w, m.y.w, m.z.w, m.w.w,
        Comatrix(m).z.x, Comatrix(m).z.y, Comatrix(m).z.z, Comatrix(m).z.w);
      Cofactor.AlienColumn32(m.x.x, m.y.x, m.z.x, m.w.x, m.x.y, m.y.y, m.z.y, m.w.y, m.x.z, m.y.z, m.z.z, m.w.z, m.x.w, m.y.w, m.z.w, m.w.w,
        Comatrix(m).z.x, Comatrix(m).z.y, Comatrix(m).z.z, Comatrix(m).z.w);
      Cofactor.AlienColumn03(m.x.x, m.y.x, m.z.x, m.w.x, m.x.y, m.y.y, m.z.y, m.w.y, m.x.z, m.y.z, m.z.z, m.w.z, m.x.w, m.y.w, m.z.w, m.w.w,
        Comatrix(m).w.x, Comatrix(m).w.y, Comatrix(m).w.z, Comatrix(m).w.w);
      Cofactor.AlienColumn13(m.x.x, m.y.x, m.z.x, m.w.x, m.x.y, m.y.y, m.z.y, m.w.y, m.x.z, m.y.z, m.z.z, m.w.z, m.x.w, m.y.w, m.z.w, m.w.w,
        Comatrix(m).w.x, Comatrix(m).w.y, Comatrix(m).w.z, Comatrix(m).w.w);
      Cofactor.AlienColumn23(m.x.x, m.y.x, m.z.x, m.w.x, m.x.y, m.y.y, m.z.y, m.w.y, m.x.z, m.y.z, m.z.z, m.w.z, m.x.w, m.y.w, m.z.w, m.w.w,
        Comatrix(m).w.x, Comatrix(m).w.y, Comatrix(m).w.z, Comatrix(m).w.w);
      Cofactor.ColumnExpansion3(m.x.x, m.y.x, m.z.x, m.w.x, m.x.y, m.y.y, m.z.y, m.w.y, m.x.z, m.y.z, m.z.z, m.w.z, m.x.w, m.y.w, m.z.w, m.w.w,
        Comatrix(m).w.x, Comatrix(m).w.y, Comatrix(m).w.z, Comatrix(m).w.w);
    }

    /** `d I`, written out. */
    static lemma ScaledIdentity(d: real)
      ensures MulScalar(Identity(), d)
        == Matrix4(Vector4(d, 0.0, 0.0, 0.0), Vector4(0.0, d, 0.0, 0.0), Vector4(0.0, 0.0, d, 0.0), Vector4(0.0, 0.0, 0.0, d))
    {
    }

    /** Rows dotted with `v * s` give the rows dotted with `v`, times `s`. */
    static lemma RowsDotScaledVector(r0: Vector4, r1: Vector4, r2: Vector4, r3: Vector4, v: Vector4, s: real)
      ensures Vector4(Vector4.Dot(r0, Vector4.MulScalar(v, s)), Vector4.Dot(r1, Vector4.MulScalar(v, s)), Vector4.Dot(r2, Vector4.MulScalar(v, s)), Vector4.Dot(r3, Vector4.MulScalar(v, s)))
           == Vector4.MulScalar(Vector4(Vector4.Dot(r0, v), Vector4.Dot(r1, v), Vector4.Dot(r2, v), Vector4.Dot(r3, v)), s)
    {
      assert Vector4.MulScalar(Vector4(Vector4.Dot(r0, v), Vector4.Dot(r1, v), Vector4.Dot(r2, v), Vector4.Dot(r3, v)), s) == Vector4(Vector4.Dot(r0, v) * s, Vector4.Dot(r1, v) * s, Vector4.Dot(r2, v) * s, Vector4.Dot(r3, v) * s);
      Vector4.DotScale(r0, v, s);
      Vector4.DotScale(r1, v, s);
      Vector4.DotScale(r2, v, s);
      Vector4.DotScale(r3, v, s);
    }

    /** Rows scaled by `s` and dotted with `v` give the rows dotted with `v`, times `s`. */
    static lemma ScaledRowsDot(r0: Vector4, r1: Vector4, r2: Vector4, r3: Vector4, v: Vector4, s: real)
      ensures Vector4(Vector4.Dot(Vector4.MulScalar(r0, s), v), Vector4.Dot(Vector4.MulScalar(r1, s), v), Vector4.Dot(Vector4.MulScalar(r2, s), v), Vector4.Dot(Vector4.MulScalar(r3, s), v))
           == Vector4.MulScalar(Vector4(Vector4.Dot(r0, v), Vector4.Dot(r1, v), Vector4.Dot(r2, v), Vector4.Dot(r3, v)), s)
    {
      assert Vector4.MulScalar(Vector4(Vector4.Dot(r0, v), Vector4.Dot(r1, v), Vector4.Dot(r2, v), Vector4.Dot(r3, v)), s) == Vector4(Vector4.Dot(r0, v) * s, Vector4.Dot(r1, v) * s, Vector4.Dot(r2, v) * s, Vector4.Dot(r3, v) * s);
      Vector4.DotScale(r0, v, s);
      Vector4.DotScale(r1, v, s);
      Vector4.DotScale(r2, v, s);
      Vector4.DotScale(r3, v, s);
    }

    /** A scalar factor on the vector can be taken out of `a * v`. */
    static lemma MulVectorScalar(a: Matrix4, v: Vector4, s: real)
      ensures MulVector(a, Vector4.MulScalar(v, s)) == Vector4.MulScalar(MulVector(a, v), s)
    {
      var t := Transpose(a);
      RowsDotScaledVector(t.x, t.y, t.z, t.w, v, s);
    }

    /** A scalar factor on the matrix can be taken out of `a * v`. */
    static lemma MulVectorScaledMatrix(a: Matrix4, v: Vector4, s: real)
      ensures MulVector(MulScalar(a, s), v) == Vector4.MulScalar(MulVector(a, v), s)
    {
      var t := Transpose(a);
      assert Transpose(MulScalar(a, s)).x == Vector4.MulScalar(t.x, s);
      assert Transpose(MulScalar(a, s)).y == Vector4.MulScalar(t.y, s);
      assert Transpose(MulScalar(a, s)).z == Vector4.MulScalar(t.z, s);
      assert Transpose(MulScalar(a, s)).w == Vector4.MulScalar(t.w, s);
      ScaledRowsDot(t.x, t.y, t.z, t.w, v, s);
    }

    /** A scalar factor on either operand can be taken out of the product. */
    static lemma MulMatrixScalar(a: Matrix4, b: Matrix4, s: real)
      ensures MulMatrix(a, MulScalar(b, s)) == MulScalar(MulMatrix(a, b), s)
      ensures MulMatrix(MulScalar(a, s), b) == MulScalar(MulMatrix(a, b), s)
    {
      MulMatrixColumns(a, MulScalar(b, s));
      MulMatrixColumns(MulScalar(a, s), b);
      MulMatrixColumns(a, b);
      MulVectorScalar(a, b.x, s);
      MulVectorScaledMatrix(a, b.x, s);
      MulVectorScalar(a, b.y, s);
      MulVectorScaledMatrix(a, b.y, s);
      MulVectorScalar(a, b.z, s);
      MulVectorScaledMatrix(a, b.z, s);
      MulVectorScalar(a, b.w, s);
      MulVectorScaledMatrix(a, b.w, s);
    }

    /** `(d I) * (1 / d) == I` for nonzero `d`. */
    static lemma ScaledIdentityInverse(d: real)
      requires d != 0.0
      ensures MulScalar(MulScalar(Identity(), d), 1.0 / d) == Identity()
    {
    }

    /** `inverse` fails exactly for a zero determinant, and what it returns is a two-sided inverse. */
    static lemma InverseCorrect(m: Matrix4)
      ensures Inverse(m).None? <==> Determinant(m) == 0.0
      ensures Inverse(m).Some? ==> MulMatrix(m, Inverse(m).value) == Identity()
      ensures Inverse(m).Some? ==> MulMatrix(Inverse(m).value, m) == Identity()
    {
      var det := Determinant(m);
      if det != 0.0 {
        var inv := MulScalar(Adjugate(m), 1.0 / det);
        assert MulMatrix(m, inv) == Identity() by {
          AdjugateProductRight(m);
          MulMatrixScalar(m, Adjugate(m), 1.0 / det);
          ScaledIdentityInverse(det);
        }
        assert MulMatrix(inv, m) == Identity() by {
          AdjugateProductLeft(m);
          MulMatrixScalar(Adjugate(m), m, 1.0 / det);
          ScaledIdentityInverse(det);
        }
      }
    }

    /** A matrix with two equal columns is singular, and `inverse` rejects it. */
    static lemma EqualColumnsSingular(m: Matrix4)
      requires m.x == m.y || m.x == m.z || m.x == m.w || m.y == m.z || m.y == m.w || m.z == m.w
      ensures Determinant(m) == 0.0 && Inverse(m) == None
    {
      Leibniz(m);
    }

    /** A matrix with a zero row is singular, and `inverse` rejects it. */
    static lemma ZeroRowSingular(m: Matrix4, i: nat)
      requires i < 4
      requires m.x.At(i) == 0.0 && m.y.At(i) == 0.0 && m.z.At(i) == 0.0 && m.w.At(i) == 0.0
      ensures Determinant(m) == 0.0 && Inverse(m) == None
    {
      Leibniz(m);
    }

    /** `translate(v)` moves a point `(p.x, p.y, p.z, 1)` by `v` and leaves a direction
        `(d.x, d.y, d.z, 0)` alone. */
    static lemma TranslateMovesPoints(v: Vector3, p: Vector3)
      ensures MulVector(Translate(v), Vector4(p.x, p.y, p.z, 1.0)) == Vector4(p.x + v.x, p.y + v.y, p.z + v.z, 1.0)
      ensures MulVector(Translate(v), Vector4(p.x, p.y, p.z, 0.0)) == Vector4(p.x, p.y, p.z, 0.0)
    {
    }

    /** `scale(v)` multiplies the three coordinates by `v` and keeps the homogeneous one. */
    static lemma ScaleScales(v: Vector3, p: Vector4)
      ensures MulVector(Scale(v), p) == Vector4(v.x * p.x, v.y * p.y, v.z * p.z, p.w)
    {
    }

    /** About the `x` axis, `rotate` turns the `y`-`z` plane by the angle and keeps `x`. */
    static lemma RotateAboutX(s: real, c: real, p: Vector4)
      ensures MulVector(Rotate(s, c, Vector3(1.0, 0.0, 0.0)), p) == Vector4(p.x, c * p.y - s * p.z, s * p.y + c * p.z, p.w)
    {
    }

    /** About the `y` axis, `rotate` turns the `z`-`x` plane by the angle and keeps `y`. */
    static lemma RotateAboutY(s: real, c: real, p: Vector4)
      ensures MulVector(Rotate(s, c, Vector3(0.0, 1.0, 0.0)), p) == Vector4(c * p.x + s * p.z, p.y, c * p.z - s * p.x, p.w)
    {
    }

    /** About the `z` axis, `rotate` turns the `x`-`y` plane by the angle and keeps `z`. */
    static lemma RotateAboutZ(s: real, c: real, p: Vector4)
      ensures MulVector(Rotate(s, c, Vector3(0.0, 0.0, 1.0)), p) == Vector4(c * p.x - s * p.y, s * p.x + c * p.y, p.z, p.w)
    {
    }

    /** `ortho` maps the near corner `(left, bottom, -near)` of its box to `(-1, -1, -1)` and
        the far corner `(right, top, -far)` to `(1, 1, 1)`, keeping the homogeneous coordinate. */
    static lemma OrthoMapsBox(left: real, right: real, bottom: real, top: real, near: real, far: real)
      requires right != left && top != bottom && far != near
      ensures MulVector(Ortho(left, right, bottom, top, near, far), Vector4(left, bottom, -near, 1.0)) == Vector4(-1.0, -1.0, -1.0, 1.0)
      ensures MulVector(Ortho(left, right, bottom, top, near, far), Vector4(right, top, -far, 1.0)) == Vector4(1.0, 1.0, 1.0, 1.0)
    {
      Cofactor.OrthoAxis(left, right);
      Cofactor.OrthoAxis(bottom, top);
      Cofactor.OrthoDepth(near, far);
    }

    /** The perspective projection puts the depth `-p.z` in front of the eye into the homogeneous
        coordinate, and maps the near plane `z == -near` to depth `-w` and the far plane
        `z == -far` to depth `w`: after the division by `w`, to -1 and to 1. */
    static lemma PerspectiveDepthRange(f: real, aspect: real, near: real, far: real, p: Vector4)
      requires aspect != 0.0 && near != far
      ensures MulVector(Perspective(f, aspect, near, far), p).w == -p.z
      ensures MulVector(Perspective(f, aspect, near, far), Vector4(0.0, 0.0, -near, 1.0)) == Vector4(0.0, 0.0, -near, near)
      ensures MulVector(Perspective(f, aspect, near, far), Vector4(0.0, 0.0, -far, 1.0)) == Vector4(0.0, 0.0, far, far)
    {
      Cofactor.PerspectiveDepth(near, far);
    }

    /** The matrix `perspective` builds is the transpose of the perspective projection. */
    static lemma PerspectiveAsWrittenTransposed(f: real, aspect: real, near: real, far: real)
      requires aspect != 0.0 && near != far
      ensures PerspectiveAsWritten(f, aspect, near, far) == Transpose(Perspective(f, aspect, near, far))
    {
    }

    /** With `near == 1` and `far == 3`, the matrix `perspective` builds sends the point
        `(0, 0, -1)` on the near plane to `(0, 0, 1, 3)`, at depth `1 / 3`, where the
        perspective projection sends it to depth -1 (`PerspectiveDepthRange`). */
    static lemma PerspectiveAsWrittenNearPlane()
      ensures MulVector(PerspectiveAsWritten(1.0, 1.0, 1.0, 3.0), Vector4(0.0, 0.0, -1.0, 1.0)) == Vector4(0.0, 0.0, 1.0, 3.0)
    {
    }

    /** The matrix with entries 1 to 16 in order, which the crate's tests multiply and
        transpose, is singular. */
    static lemma DeterminantSingularExample()
      ensures Determinant(Matrix4(Vector4(1.0, 2.0, 3.0, 4.0), Vector4(5.0, 6.0, 7.0, 8.0),
                                  Vector4(9.0, 10.0, 11.0, 12.0), Vector4(13.0, 14.0, 15.0, 16.0))) == 0.0
    {
      Leibniz(Matrix4(Vector4(1.0, 2.0, 3.0, 4.0), Vector4(5.0, 6.0, 7.0, 8.0),
                                  Vector4(9.0, 10.0, 11.0, 12.0), Vector4(13.0, 14.0, 15.0, 16.0)));
    }

    /** The matrix whose inverse the crate's tests check has determinant 2, so
        `InverseCorrect` applies to it. */
    static lemma DeterminantInvertibleExample(m: Matrix4)
      requires m == Matrix4(Vector4(1.0, 0.0, 2.0, 2.0), Vector4(0.0, 2.0, 1.0, 0.0),
                            Vector4(0.0, 1.0, 0.0, 1.0), Vector4(1.0, 2.0, 1.0, 4.0))
      ensures Determinant(m) == 2.0
    {
      Leibniz(m);
    }

    /** The signed cofactors of the matrix whose inverse the crate's tests check. */
    static lemma ComatrixExample(m: Matrix4)
      requires m == Matrix4(Vector4(1.0, 0.0, 2.0, 2.0), Vector4(0.0, 2.0, 1.0, 0.0),
                            Vector4(0.0, 1.0, 0.0, 1.0), Vector4(1.0, 2.0, 1.0, 4.0))
      ensures Comatrix(m) == Matrix4(Vector4(-4.0, -1.0, 2.0, 1.0), Vector4(2.0, 1.0, 0.0, -1.0),
                                     Vector4(-16.0, -2.0, 4.0, 4.0), Vector4(6.0, 1.0, -2.0, -1.0))
    {
      ComatrixCofactors(m);
    }

    /** Its adjugate, the transpose of the comatrix: `inverse` returns this halved, since the
        determinant is 2, and `InverseCorrect` shows that it undoes the matrix. */
    static lemma AdjugateExample(m: Matrix4)
      requires m == Matrix4(Vector4(1.0, 0.0, 2.0, 2.0), Vector4(0.0, 2.0, 1.0, 0.0),
                            Vector4(0.0, 1.0, 0.0, 1.0), Vector4(1.0, 2.0, 1.0, 4.0))
      ensures Adjugate(m) == Matrix4(Vector4(-4.0, 2.0, -16.0, 6.0), Vector4(-1.0, 1.0, -2.0, 1.0),
                                     Vector4(2.0, 0.0, 4.0, -2.0), Vector4(1.0, -1.0, 4.0, -1.0))
    {
      ComatrixExample(m);
    }

    /** The product the crate's own tests expect. */
    static lemma MulMatrixExample(a: Matrix4, b: Matrix4)
      requires a == Matrix4(Vector4(1.0, 2.0, 3.0, 4.0), Vector4(5.0, 6.0, 7.0, 8.0), Vector4(9.0, 10.0, 11.0, 12.0), Vector4(13.0, 14.0, 15.0, 16.0))
      requires b == Matrix4(Vector4(17.0, 18.0, 19.0, 20.0), Vector4(21.0, 22.0, 23.0, 24.0), Vector4(25.0, 26.0, 27.0, 28.0), Vector4(29.0, 30.0, 31.0, 32.0))
      ensures MulMatrix(a, b)
        == Matrix4(Vector4(538.0, 612.0, 686.0, 760.0), Vector4(650.0, 740.0, 830.0, 920.0),
                   Vector4(762.0, 868.0, 974.0, 1080.0), Vector4(874.0, 996.0, 1118.0, 1240.0))
    {
    }

    /** The matrix-vector product and the transpose the crate's own tests expect. */
    static lemma MulVectorTransposeExamples()
      ensures MulVector(Matrix4(Vector4(1.0, 2.0, 3.0, 4.0), Vector4(5.0, 6.0, 7.0, 8.0),
                        Vector4(9.0, 10.0, 11.0, 12.0), Vector4(13.0, 14.0, 15.0, 16.0)),
                        Vector4(1.0, 2.0, 3.0, 4.0)) == Vector4(90.0, 100.0, 110.0, 120.0)
      ensures Transpose(Matrix4(Vector4(1.0, 2.0, 3.0, 4.0), Vector4(5.0, 6.0, 7.0, 8.0),
                        Vector4(9.0, 10.0, 11.0, 12.0), Vector4(13.0, 14.0, 15.0, 16.0)))
        == Matrix4(Vector4(1.0, 5.0, 9.0, 13.0), Vector4(2.0, 6.0, 10.0, 14.0),
                   Vector4(3.0, 7.0, 11.0, 15.0), Vector4(4.0, 8.0, 12.0, 16.0))
    {
    }

    /** The points and directions the crate's own tests move and scale. */
    static lemma AffineExamples()
      ensures MulVector(Translate(Vector3(1.0, 0.0, 0.0)), Vector4(0.0, 0.0, 0.0, 1.0)) == Vector4(1.0, 0.0, 0.0, 1.0)
      ensures MulVector(Translate(Vector3(1.0, 0.0, 0.0)), Vector4(1.0, 0.0, 0.0, 0.0)) == Vector4(1.0, 0.0, 0.0, 0.0)
      ensures MulVector(Scale(Vector3(2.0, 1.0, 1.0)), Vector4(1.0, 0.0, 0.0, 1.0)) == Vector4(2.0, 0.0, 0.0, 1.0)
      ensures MulVector(Scale(Vector3(2.0, 1.0, 1.0)), Vector4(1.0, 0.0, 0.0, 0.0)) == Vector4(2.0, 0.0, 0.0, 0.0)
    {
      TranslateMovesPoints(Vector3(1.0, 0.0, 0.0), Vector3(0.0, 0.0, 0.0));
      TranslateMovesPoints(Vector3(1.0, 0.0, 0.0), Vector3(1.0, 0.0, 0.0));
      ScaleScales(Vector3(2.0, 1.0, 1.0), Vector4(1.0, 0.0, 0.0, 1.0));
      ScaleScales(Vector3(2.0, 1.0, 1.0), Vector4(1.0, 0.0, 0.0, 0.0));
    }
  }

  /** A mutable `Matrix2` place, the `&mut self` of the compound assignment operators. */
  class Matrix2Cell {
    var value: Matrix2

    constructor (v: Matrix2)
      ensures value == v
    {
      value := v;
    }

    /** `self += rhs` */
    method AddAssign(rhs: Matrix2)
      modifies this
      ensures value == Matrix2.Add(old(value), rhs)
    {
      value := Matrix2.Add(value, rhs);
    }

    /** `self -= rhs` */
    method SubAssign(rhs: Matrix2)
      modifies this
      ensures value == Matrix2.Sub(old(value), rhs)
    {
      value := Matrix2.Sub(value, rhs);
    }

    /** `self *= rhs` for a matrix `rhs`: the old value stays on the left. */
    method MulAssign(rhs: Matrix2)
      modifies this
      ensures value == Matrix2.MulMatrix(old(value), rhs)
    {
      value := Matrix2.MulMatrix(value, rhs);
    }

    /** `self *= s` for a scalar `s`. */
    method MulAssignScalar(s: real)
      modifies this
      ensures value == Matrix2.MulScalar(old(value), s)
    {
      value := Matrix2.MulScalar(value, s);
    }
  }

  /** A mutable `Matrix3` place, the `&mut self` of the compound assignment operators. */
  class Matrix3Cell {
    var value: Matrix3

    constructor (v: Matrix3)
      ensures value == v
    {
      value := v;
    }

    /** `self += rhs` */
    method AddAssign(rhs: Matrix3)
      modifies this
      ensures value == Matrix3.Add(old(value), rhs)
    {
      value := Matrix3.Add(value, rhs);
    }

    /** `self -= rhs` */
    method SubAssign(rhs: Matrix3)
      modifies this
      ensures value == Matrix3.Sub(old(value), rhs)
    {
      value := Matrix3.Sub(value, rhs);
    }

    /** `self *= rhs` for a matrix `rhs`: the old value stays on the left. */
    method MulAssign(rhs: Matrix3)
      modifies this
      ensures value == Matrix3.MulMatrix(old(value), rhs)
    {
      value := Matrix3.MulMatrix(value, rhs);
    }

    /** `self *= s` for a scalar `s`. */
    method MulAssignScalar(s: real)
      modifies this
      ensures value == Matrix3.MulScalar(old(value), s)
    {
      value := Matrix3.MulScalar(value, s);
    }
  }

  /** A mutable `Matrix4` place, the `&mut self` of the compound assignment operators. */
  class Matrix4Cell {
    var value: Matrix4

    constructor (v: Matrix4)
      ensures value == v
    {
      value := v;
    }

    /** `self += rhs` */
    method AddAssign(rhs: Matrix4)
      modifies this
      ensures value == Matrix4.Add(old(value), rhs)
    {
      value := Matrix4.Add(value, rhs);
    }

    /** `self -= rhs` */
    method SubAssign(rhs: Matrix4)
      modifies this
      ensures value == Matrix4.Sub(old(value), rhs)
    {
      value := Matrix4.Sub(value, rhs);
    }

    /** `self *= rhs` for a matrix `rhs`: the old value stays on the left. */
    method MulAssign(rhs: Matrix4)
      modifies this
      ensures value == Matrix4.MulMatrix(old(value), rhs)
    {
      value := Matrix4.MulMatrix(value, rhs);
    }

    /** `self *= s` for a scalar `s`. */
    method MulAssignScalar(s: real)
      modifies this
      ensures value == Matrix4.MulScalar(old(value), s)
    {
      value := Matrix4.MulScalar(value, s);
    }
  }

  /** The crate's own `+=` and `-=` tests, run on a `Matrix2Cell`. */
  method CompoundAssignExamples() returns (sum: Matrix2, difference: Matrix2)
    ensures sum == Matrix2(Vector2(6.0, 8.0), Vector2(10.0, 12.0))
    ensures difference == Matrix2(Vector2(-4.0, -4.0), Vector2(-4.0, -4.0))
  {
    var b := Matrix2(Vector2(5.0, 6.0), Vector2(7.0, 8.0));
    var a := new Matrix2Cell(Matrix2(Vector2(1.0, 2.0), Vector2(3.0, 4.0)));
    a.AddAssign(b);
    sum := a.value;
    var c := new Matrix2Cell(Matrix2(Vector2(1.0, 2.0), Vector2(3.0, 4.0)));
    c.SubAssign(b);
    difference := c.value;
  }
}
