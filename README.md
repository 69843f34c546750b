# linmath in Dafny

A model of the fixed-size linear algebra of the Rust crate `linmath`: the generic vectors
`Vector2`, `Vector3` and `Vector4` (`src/vector.rs`), the square matrices `Matrix2`,
`Matrix3` and `Matrix4` built from them (`src/matrix.rs`), and the older `f64`-only vectors
of `src/linmath.rs`. The scalar type (`T: Float`, or `f64`) is modelled as `real`, so every
statement below is about exact arithmetic.

- `vector.dfy` (module `Vector`): each `VectorN<T>` is a datatype, and its constructor
  stands for `new`. The helpers behind `+`, `-` and `* scalar`, and the public `dot` and
  `cross`, are static functions. The `+=`, `-=` and `*=` impls overwrite a `&mut` place;
  they are methods of the `VectorNCell` classes, whose one field is that place.
- `matrix.dfy` (module `Matrix`): each `MatrixN<T>` is a datatype of N column vectors, and
  `Entry(i, j)` is component `i` of column `j`. The following are static functions:
  - the operator helpers, `identity`, `transpose`, `determinant` and `comatrix`;
  - `adjugate` and `inverse`, whose `Option` result is `None` exactly when the determinant
    is zero;
  - the factories `translate`, `scale`, `rotate`, `ortho` and `perspective`.

  The compound assignments are the `MatrixNCell` classes. A matrix times a vector is the
  crate's "transpose, then dot each row with the vector": the columns weighted by the
  components of the vector.
- `cofactor.dfy` (module `Cofactor`): the Leibniz formula for 3x3 and 4x4 determinants over
  plain real entries. It also holds the cofactor expansions and the product rule the matrix
  lemmas rest on, and small facts about quotients and rotations used by the factories.
- `linmath.dfy` (module `LinMath`): the `f64` vectors, whose `*` and `/` work component by
  component on two vectors. They also have `From<f64>` and their own `cross`, and each is
  related to the generic vector of the same size.

What is proved:
- Each operation is tied to a reference definition or a partner. Componentwise operations
  are stated per index. Products are stated as textbook sums of entries. The determinants
  equal the Leibniz formula.
- Addition and subtraction undo each other.
- The dot product is symmetric, bilinear and non-negative on a vector with itself.
- The cross product is anticommutative and orthogonal to both arguments, and obeys
  Lagrange's identity.
- The matrix product is associative, composes with the matrix-vector product, has the
  identity as unit and commutes with scalars.
- The determinant is unchanged by transposition. It is multiplicative for 2x2 and 3x3.
- `m * adj(m)` and `adj(m) * m` both equal `det(m) I`.
- A matrix with two equal columns, or (4x4) a zero row, has determinant 0, and `inverse`
  returns `None` for it.
- For every size, `inverse` returns `None` exactly for a singular matrix, and otherwise a
  two-sided inverse.
- `translate`, `scale` and `rotate` move, scale and turn points as their names promise; for
  the 3D `rotate` this is proved about the three coordinate axes only. The 4x4 `ortho` maps
  its box onto the cube `[-1, 1]^3`. The 2D `ortho` only scales the two coordinates by
  `2 / (right - left)` and `2 / (top - bottom)` and negates `w`: it has no translation
  column, so it does not map its box onto `[-1, 1]^2`. The corrected `Perspective` sends the near and far planes to depths -1 and 1;
  `perspective` as written builds the transpose of that matrix (see Findings).

## Model

| member | source | states |
|---|---|---|
| Vector.Vector2.Add | src/vector.rs:25-27 | each component of the sum is the sum of the components |
| Vector.Vector3.Add | src/vector.rs:25-27 | each component of the sum is the sum of the components |
| Vector.Vector4.Add | src/vector.rs:25-27 | each component of the sum is the sum of the components |
| Vector.Vector2.Sub | src/vector.rs:30-32 | each component of the difference is the difference of the components |
| Vector.Vector3.Sub | src/vector.rs:30-32 | each component of the difference is the difference of the components |
| Vector.Vector4.Sub | src/vector.rs:30-32 | each component of the difference is the difference of the components |
| Vector.Vector2.MulScalar | src/vector.rs:35-37 | each component is multiplied by the scalar |
| Vector.Vector3.MulScalar | src/vector.rs:35-37 | each component is multiplied by the scalar |
| Vector.Vector4.MulScalar | src/vector.rs:35-37 | each component is multiplied by the scalar |
| Vector.Vector2.Dot | src/vector.rs:40-42 | the sum of the products of the components; `DotSymmetric`, `DotAdditive`, `DotScale` and `DotSelfNonNegative` state that it is symmetric, bilinear and non-negative on `(v, v)` |
| Vector.Vector3.Dot | src/vector.rs:40-42 | the sum of the products of the components; `DotSymmetric`, `DotAdditive`, `DotScale` and `DotSelfNonNegative` state that it is symmetric, bilinear and non-negative on `(v, v)` |
| Vector.Vector4.Dot | src/vector.rs:40-42 | the sum of the products of the components; `DotSymmetric`, `DotAdditive`, `DotScale` and `DotSelfNonNegative` state that it is symmetric, bilinear and non-negative on `(v, v)` |
| Vector.Vector3.Cross | src/vector.rs:156-164 | the cross product; `CrossAntiCommutes`, `CrossOrthogonalLeft`, `CrossOrthogonalRight` and `CrossLagrange` state that it is anticommutative, orthogonal to both arguments and of squared length `\|a\|^2 \|b\|^2 - (a . b)^2` |
| Vector.Vector2.AddSubInverse | src/vector.rs:25-32 | `(a + b) - b == a` and `(a - b) + b == a` |
| Vector.Vector3.AddSubInverse | src/vector.rs:25-32 | `(a + b) - b == a` and `(a - b) + b == a` |
| Vector.Vector4.AddSubInverse | src/vector.rs:25-32 | `(a + b) - b == a` and `(a - b) + b == a` |
| Vector.Vector2.DotSymmetric | src/vector.rs:40-42 | `dot(a, b) == dot(b, a)` |
| Vector.Vector3.DotSymmetric | src/vector.rs:40-42 | `dot(a, b) == dot(b, a)` |
| Vector.Vector4.DotSymmetric | src/vector.rs:40-42 | `dot(a, b) == dot(b, a)` |
| Vector.Vector2.DotAdditive | src/vector.rs:40-42 | `dot(a + b, c) == dot(a, c) + dot(b, c)` |
| Vector.Vector3.DotAdditive | src/vector.rs:40-42 | `dot(a + b, c) == dot(a, c) + dot(b, c)` |
| Vector.Vector4.DotAdditive | src/vector.rs:40-42 | `dot(a + b, c) == dot(a, c) + dot(b, c)` |
| Vector.Vector2.DotScale | src/vector.rs:40-42 | scaling either argument scales the dot product |
| Vector.Vector3.DotScale | src/vector.rs:40-42 | scaling either argument scales the dot product |
| Vector.Vector4.DotScale | src/vector.rs:40-42 | scaling either argument scales the dot product |
| Vector.Vector2.DotSelfNonNegative | src/vector.rs:40-42 | `dot(v, v) >= 0`, the quantity `length` takes the root of |
| Vector.Vector3.DotSelfNonNegative | src/vector.rs:40-42 | `dot(v, v) >= 0` |
| Vector.Vector4.DotSelfNonNegative | src/vector.rs:40-42 | `dot(v, v) >= 0` |
| Vector.Vector3.CrossAntiCommutes | src/vector.rs:156-164 | `a x b == -(b x a)` and `a x a == 0` |
| Vector.Vector3.CrossLagrange | src/vector.rs:156-164 | `\|a x b\|^2 == \|a\|^2 \|b\|^2 - (a . b)^2` |
| Vector.Vector3.CrossOrthogonalLeft | src/vector.rs:156-164 | `a . (a x b) == 0` |
| Vector.Vector3.CrossOrthogonalRight | src/vector.rs:156-164 | `b . (a x b) == 0` |
| Vector.Vector3.DotCrossInterchange | src/vector.rs:156-164 | `a . (b x c) == (a x b) . c` |
| Vector.Vector3.TripleProductCycles | src/vector.rs:156-164 | `(a x b) . c == (b x c) . a` |
| Vector.Vector2.Examples | src/vector.rs:171-220 | the sums, differences, scalings and dot product of the crate's `Vector2` tests |
| Vector.Vector3.Examples | src/vector.rs:233-301 | the sums, differences, scalings, dot product and cross product of the crate's `Vector3` tests, including `cross((1,2,3), (4,5,6)) == (-3,6,-3)` |
| Vector.Vector4.Examples | src/vector.rs:302-351 | the sums, differences, scalings and dot product of the crate's `Vector4` tests |
| Vector.CompoundAssignExamples | src/vector.rs:178-213 | the crate's `+=`, `-=` and `*=` tests for all three sizes, run through the cells (the `Vector3` and `Vector4` tests are at src/vector.rs:240-275 and 309-344) |
| Vector.Vector2Cell.AddAssign | src/vector.rs:82-87 | `+=` replaces the value by `old + rhs` |
| Vector.Vector2Cell.SubAssign | src/vector.rs:89-94 | `-=` replaces the value by `old - rhs` |
| Vector.Vector2Cell.MulAssign | src/vector.rs:96-101 | `*=` replaces the value by `old * s` |
| Vector.Vector3Cell.AddAssign | src/vector.rs:82-87 | `+=` replaces the value by `old + rhs` |
| Vector.Vector3Cell.SubAssign | src/vector.rs:89-94 | `-=` replaces the value by `old - rhs` |
| Vector.Vector3Cell.MulAssign | src/vector.rs:96-101 | `*=` replaces the value by `old * s` |
| Vector.Vector4Cell.AddAssign | src/vector.rs:82-87 | `+=` replaces the value by `old + rhs` |
| Vector.Vector4Cell.SubAssign | src/vector.rs:89-94 | `-=` replaces the value by `old - rhs` |
| Vector.Vector4Cell.MulAssign | src/vector.rs:96-101 | `*=` replaces the value by `old * s` |
| Matrix.Matrix2.Add | src/matrix.rs:22-24 | entry `(i, j)` of the sum is the sum of the entries |
| Matrix.Matrix3.Add | src/matrix.rs:22-24 | entry `(i, j)` of the sum is the sum of the entries |
| Matrix.Matrix4.Add | src/matrix.rs:22-24 | entry `(i, j)` of the sum is the sum of the entries |
| Matrix.Matrix2.Sub | src/matrix.rs:27-29 | entry `(i, j)` of the difference is the difference of the entries |
| Matrix.Matrix3.Sub | src/matrix.rs:27-29 | entry `(i, j)` of the difference is the difference of the entries |
| Matrix.Matrix4.Sub | src/matrix.rs:27-29 | entry `(i, j)` of the difference is the difference of the entries |
| Matrix.Matrix2.MulScalar | src/matrix.rs:37-39 | every entry is multiplied by the scalar |
| Matrix.Matrix3.MulScalar | src/matrix.rs:37-39 | every entry is multiplied by the scalar |
| Matrix.Matrix4.MulScalar | src/matrix.rs:37-39 | every entry is multiplied by the scalar |
| Matrix.Matrix2.AddSubInverse | src/matrix.rs:22-29 | `(a + b) - b == a` and `(a - b) + b == a` |
| Matrix.Matrix3.AddSubInverse | src/matrix.rs:22-29 | `(a + b) - b == a` and `(a - b) + b == a` |
| Matrix.Matrix4.AddSubInverse | src/matrix.rs:22-29 | `(a + b) - b == a` |
| Matrix.Matrix2.Transpose | src/matrix.rs:136-138 | entry `(i, j)` of the transpose is entry `(j, i)` |
| Matrix.Matrix3.Transpose | src/matrix.rs:194-200 | entry `(i, j)` of the transpose is entry `(j, i)` |
| Matrix.Matrix4.Transpose | src/matrix.rs:307-314 | entry `(i, j)` of the transpose is entry `(j, i)` |
| Matrix.Matrix2.TransposeInvolutive | src/matrix.rs:136-138 | transposing twice gives back the matrix |
| Matrix.Matrix3.TransposeInvolutive | src/matrix.rs:194-200 | transposing twice gives back the matrix |
| Matrix.Matrix4.TransposeInvolutive | src/matrix.rs:307-314 | transposing twice gives back the matrix |
| Matrix.Matrix2.Identity | src/matrix.rs:128-133 | entry `(i, j)` is 1 on the diagonal and 0 elsewhere |
| Matrix.Matrix3.Identity | src/matrix.rs:185-191 | entry `(i, j)` is 1 on the diagonal and 0 elsewhere |
| Matrix.Matrix4.Identity | src/matrix.rs:297-304 | entry `(i, j)` is 1 on the diagonal and 0 elsewhere |
| Matrix.Matrix2.MulVector | src/matrix.rs:31-34 | component `i` is row `i` of the matrix dotted with the vector; `MulVectorEntries` states it as the textbook sum `sum_j a[i][j] v[j]` |
| Matrix.Matrix3.MulVector | src/matrix.rs:31-34 | component `i` is row `i` of the matrix dotted with the vector; `MulVectorEntries` states it as the textbook sum `sum_j a[i][j] v[j]` |
| Matrix.Matrix4.MulVector | src/matrix.rs:31-34 | component `i` is row `i` of the matrix dotted with the vector; `MulVectorEntries` states it as the textbook sum `sum_j a[i][j] v[j]` |
| Matrix.Matrix2.MulMatrix | src/matrix.rs:119-125 | entry `(i, j)` is row `i` of `a` dotted with column `j` of `b`; `MulMatrixEntries` states the textbook sum and `MulMatrixAssociative` associativity |
| Matrix.Matrix3.MulMatrix | src/matrix.rs:163-182 | entry `(i, j)` is row `i` of `a` dotted with column `j` of `b`; `MulMatrixEntries` states the textbook sum and `MulMatrixAssociative` associativity |
| Matrix.Matrix4.MulMatrix | src/matrix.rs:266-294 | entry `(i, j)` is row `i` of `a` dotted with column `j` of `b`; `MulMatrixEntries` states the textbook sum and `MulMatrixAssociative` associativity |
| Matrix.Matrix2.MulVectorEntries | src/matrix.rs:31-34 | component `i` of `a * v` is `sum_j a[i][j] v[j]` |
| Matrix.Matrix3.MulVectorEntries | src/matrix.rs:31-34 | component `i` of `a * v` is `sum_j a[i][j] v[j]` |
| Matrix.Matrix4.MulVectorEntry | src/matrix.rs:31-34 | component `i` of `a * v` is `sum_j a[i][j] v[j]` |
| Matrix.Matrix4.MulVectorEntries | src/matrix.rs:31-34 | the same, for all four components at once |
| Matrix.Matrix4.ColumnsCombine | src/matrix.rs:31-34 | `b * v` is the sum of the columns of `b` weighted by the components of `v` |
| Matrix.Matrix2.MulMatrixEntries | src/matrix.rs:119-125 | entry `(i, j)` of `a * b` is `sum_k a[i][k] b[k][j]` |
| Matrix.Matrix3.MulMatrixEntries | src/matrix.rs:163-182 | entry `(i, j)` of `a * b` is `sum_k a[i][k] b[k][j]` |
| Matrix.Matrix4.MulMatrixEntries | src/matrix.rs:266-294 | entry `(i, j)` of `a * b` is `sum_k a[i][k] b[k][j]` |
| Matrix.Matrix2.MulMatrixColumns | src/matrix.rs:119-125 | column `j` of `a * b` is `a` times column `j` of `b` |
| Matrix.Matrix3.MulMatrixColumns | src/matrix.rs:163-182 | column `j` of `a * b` is `a` times column `j` of `b` |
| Matrix.Matrix4.MulMatrixColumn | src/matrix.rs:266-294 | column `j` of `a * b` is `a` times column `j` of `b` |
| Matrix.Matrix4.MulMatrixColumns | src/matrix.rs:266-294 | the same, for all four columns at once |
| Matrix.Matrix4.RowCompose | src/matrix.rs:266-294 | a row dotted with `b * v` is the row's products with the columns of `b`, dotted with `v` |
| Matrix.Matrix2.MulVectorComposes | src/matrix.rs:119-125 | `(a * b) * v == a * (b * v)` |
| Matrix.Matrix3.MulVectorComposes | src/matrix.rs:163-182 | `(a * b) * v == a * (b * v)` |
| Matrix.Matrix4.MulVectorComposes | src/matrix.rs:266-294 | `(a * b) * v == a * (b * v)` |
| Matrix.Matrix2.MulMatrixAssociative | src/matrix.rs:119-125 | `(a * b) * c == a * (b * c)` |
| Matrix.Matrix3.MulMatrixAssociative | src/matrix.rs:163-182 | `(a * b) * c == a * (b * c)` |
| Matrix.Matrix4.MulMatrixAssociative | src/matrix.rs:266-294 | `(a * b) * c == a * (b * c)` |
| Matrix.Matrix2.MulIdentity | src/matrix.rs:128-133 | the identity is a unit for both products, on either side |
| Matrix.Matrix3.MulIdentity | src/matrix.rs:185-191 | the identity is a unit for both products, on either side |
| Matrix.Matrix4.MulIdentity | src/matrix.rs:297-304 | the identity is a unit for both products, on either side |
| Matrix.Matrix2.MulVectorScalar | src/matrix.rs:31-34 | `a * (s v) == s (a * v)` |
| Matrix.Matrix3.MulVectorScalar | src/matrix.rs:31-34 | `a * (s v) == s (a * v)` |
| Matrix.Matrix4.MulVectorScalar | src/matrix.rs:31-34 | `a * (s v) == s (a * v)` |
| Matrix.Matrix2.MulVectorScaledMatrix | src/matrix.rs:31-39 | `(s a) * v == s (a * v)` |
| Matrix.Matrix3.MulVectorScaledMatrix | src/matrix.rs:31-39 | `(s a) * v == s (a * v)` |
| Matrix.Matrix4.MulVectorScaledMatrix | src/matrix.rs:31-39 | `(s a) * v == s (a * v)` |
| Matrix.Matrix3.RowsDotScaledVector | src/matrix.rs:31-34 | rows dotted with `s v` give `s` times the rows dotted with `v` |
| Matrix.Matrix4.RowsDotScaledVector | src/matrix.rs:31-34 | rows dotted with `s v` give `s` times the rows dotted with `v` |
| Matrix.Matrix3.ScaledRowsDot | src/matrix.rs:31-39 | rows scaled by `s` dotted with `v` give `s` times the rows dotted with `v` |
| Matrix.Matrix4.ScaledRowsDot | src/matrix.rs:31-39 | rows scaled by `s` dotted with `v` give `s` times the rows dotted with `v` |
| Matrix.Matrix2.MulMatrixScalar | src/matrix.rs:119-125 | a scalar factor on either side moves out of the product |
| Matrix.Matrix3.MulMatrixScalar | src/matrix.rs:163-182 | a scalar factor on either side moves out of the product |
| Matrix.Matrix4.MulMatrixScalar | src/matrix.rs:266-294 | a scalar factor on either side moves out of the product |
| Matrix.Matrix2.DeterminantIdentityTranspose | src/matrix.rs:141-143 | `det(I) == 1` and `det(m^T) == det(m)` |
| Matrix.Matrix2.Determinant | src/matrix.rs:141-143 | `m.x.x m.y.y - m.x.y m.y.x`; `DeterminantIdentityTranspose` and `DeterminantMultiplicative` state its identity, transpose and product laws |
| Matrix.Matrix3.Determinant | src/matrix.rs:202-206 | the triple product of the rows; `Leibniz` states that it is the Leibniz formula |
| Matrix.Matrix4.Determinant | src/matrix.rs:316-340 | the expansion along the first row over four 3x3 minors; `Leibniz` states that it is the Leibniz formula |
| Matrix.Matrix3.Leibniz | src/matrix.rs:202-206 | the crate's triple product `dot(cross(row 0, row 1), row 2)`, an expansion along the last row, equals the Leibniz formula |
| Matrix.Matrix4.Leibniz | src/matrix.rs:316-340 | the crate's expansion along the first row over four 3x3 minors equals the Leibniz formula |
| Matrix.Matrix3.DeterminantIdentity | src/matrix.rs:202-206 | `det(I) == 1` |
| Matrix.Matrix4.DeterminantIdentity | src/matrix.rs:316-340 | `det(I) == 1` |
| Matrix.Matrix3.DeterminantTranspose | src/matrix.rs:202-206 | `det(m^T) == det(m)` |
| Matrix.Matrix4.DeterminantTranspose | src/matrix.rs:316-340 | `det(m^T) == det(m)` |
| Matrix.Matrix2.DeterminantMultiplicative | src/matrix.rs:141-143 | `det(a b) == det(a) det(b)` |
| Matrix.Matrix3.DeterminantMultiplicative | src/matrix.rs:202-206 | `det(a b) == det(a) det(b)` |
| Matrix.Matrix4.Comatrix | src/matrix.rs:342-449 | the matrix of signed 3x3 minors; `ComatrixCofactors` states each entry by the Leibniz formula |
| Matrix.Matrix2.Adjugate | src/matrix.rs:146-148 | the swapped and negated entries; `AdjugateProduct` states `m adj(m) == adj(m) m == det(m) I` |
| Matrix.Matrix3.Adjugate | src/matrix.rs:208-215 | the cross products of pairs of rows; `AdjugateProductRight` and `AdjugateProductLeft` state `m adj(m) == adj(m) m == det(m) I` |
| Matrix.Matrix4.Adjugate | src/matrix.rs:451-454 | the transposed comatrix; `AdjugateProductRight` and `AdjugateProductLeft` state `m adj(m) == adj(m) m == det(m) I` |
| Matrix.Matrix4.ComatrixCofactors | src/matrix.rs:342-449 | each comatrix entry is the signed 3x3 minor of the entry, by the Leibniz formula |
| Matrix.Matrix2.AdjugateProduct | src/matrix.rs:146-148 | `m adj(m) == adj(m) m == det(m) I` |
| Matrix.Matrix3.AdjugateProductRight | src/matrix.rs:208-215 | `m adj(m) == det(m) I` |
| Matrix.Matrix3.AdjugateProductLeft | src/matrix.rs:208-215 | `adj(m) m == det(m) I` |
| Matrix.Matrix3.AdjugateTranspose | src/matrix.rs:208-215 | `adj(m^T) == adj(m)^T` |
| Matrix.Matrix3.TransposeProduct | src/matrix.rs:194-200 | `(a b)^T == b^T a^T` |
| Matrix.Matrix4.AdjugateProductRight | src/matrix.rs:451-454 | `m adj(m) == det(m) I` |
| Matrix.Matrix4.AdjugateProductLeft | src/matrix.rs:451-454 | `adj(m) m == det(m) I` |
| Matrix.Matrix3.ScaledIdentity | src/matrix.rs:185-191 | `d I` is the diagonal matrix of `d` |
| Matrix.Matrix4.ScaledIdentity | src/matrix.rs:297-304 | `d I` is the diagonal matrix of `d` |
| Matrix.Matrix2.ScaledIdentityInverse | src/matrix.rs:150-159 | for `d != 0`, `(1/d)(d I) == I`, the step from the adjugate product to the inverse |
| Matrix.Matrix3.ScaledIdentityInverse | src/matrix.rs:217-226 | for `d != 0`, `(1/d)(d I) == I` |
| Matrix.Matrix4.ScaledIdentityInverse | src/matrix.rs:456-465 | for `d != 0`, `(1/d)(d I) == I` |
| Matrix.Matrix2.InverseCorrect | src/matrix.rs:150-159 | `inverse` is `None` exactly when `det == 0`, and otherwise a two-sided inverse |
| Matrix.Matrix3.InverseCorrect | src/matrix.rs:217-226 | `inverse` is `None` exactly when `det == 0`, and otherwise a two-sided inverse |
| Matrix.Matrix4.InverseCorrect | src/matrix.rs:456-465 | `inverse` is `None` exactly when `det == 0`, and otherwise a two-sided inverse |
| Matrix.Matrix2.Inverse | src/matrix.rs:150-159 | `None` for a zero determinant, otherwise the adjugate over the determinant; `InverseCorrect` states that it is a two-sided inverse |
| Matrix.Matrix3.Inverse | src/matrix.rs:217-226 | `None` for a zero determinant, otherwise the adjugate over the determinant; `InverseCorrect` states that it is a two-sided inverse |
| Matrix.Matrix4.Inverse | src/matrix.rs:456-465 | `None` for a zero determinant, otherwise the adjugate over the determinant; `InverseCorrect` states that it is a two-sided inverse |
| Matrix.Matrix2.SingularHasNoInverse | src/matrix.rs:150-159 | a matrix with a right inverse has a nonzero determinant, so `None` is never wrong |
| Matrix.Matrix3.SingularHasNoInverse | src/matrix.rs:217-226 | a matrix with a right inverse has a nonzero determinant, so `None` is never wrong |
| Matrix.Matrix2.EqualColumnsSingular | src/matrix.rs:141-159 | a matrix whose two columns are equal has determinant 0, and `inverse` returns `None` |
| Matrix.Matrix3.EqualColumnsSingular | src/matrix.rs:202-226 | a matrix with two equal columns has determinant 0, and `inverse` returns `None` |
| Matrix.Matrix4.EqualColumnsSingular | src/matrix.rs:316-465 | a matrix with two equal columns has determinant 0, and `inverse` returns `None` |
| Matrix.Matrix4.ZeroRowSingular | src/matrix.rs:316-465 | a matrix with a zero row has determinant 0, and `inverse` returns `None` |
| Matrix.Matrix3.Translate | src/matrix.rs:229-235 | the homogeneous 2D translation; `TranslateMovesPoints` states its action |
| Matrix.Matrix4.Translate | src/matrix.rs:468-475 | the homogeneous 3D translation; `TranslateMovesPoints` states its action |
| Matrix.Matrix3.Scale | src/matrix.rs:247-253 | the homogeneous 2D scaling; `ScaleScales` states its action |
| Matrix.Matrix4.Scale | src/matrix.rs:505-512 | the homogeneous 3D scaling; `ScaleScales` states its action |
| Matrix.Matrix3.Rotate | src/matrix.rs:237-244 | the planar rotation for a given sine and cosine; `RotateTurns`, `RotateOrthogonal` and `RotateDeterminant` state its action and that it is a rotation |
| Matrix.Matrix4.Rotate | src/matrix.rs:477-502 | Rodrigues' rotation about a unit axis for a given sine and cosine; `RotateAboutX`, `RotateAboutY` and `RotateAboutZ` state its action about the coordinate axes |
| Matrix.Matrix3.Ortho | src/matrix.rs:255-262 | the crate's 2D `ortho`, a scaling by `2 / (right - left)` and `2 / (top - bottom)` that negates `w`, with no translation; `OrthoExtent` states its action |
| Matrix.Matrix4.Ortho | src/matrix.rs:514-542 | the orthographic projection of a box; `OrthoMapsBox` states that the box goes to the cube `[-1, 1]^3` |
| Matrix.Matrix4.PerspectiveAsWritten | src/matrix.rs:544-558 | `perspective` as the crate builds it; `PerspectiveAsWrittenTransposed` and `PerspectiveAsWrittenNearPlane` state that it is transposed (see Findings) |
| Matrix.Matrix4.Perspective | src/matrix.rs:544-558 | the corrected perspective projection; `PerspectiveDepthRange` states that the near and far planes go to depths -1 and 1 |
| Matrix.Matrix3.TranslateMovesPoints | src/matrix.rs:229-235 | `translate(v)` adds `v` to points (`w == 1`) and leaves directions (`w == 0`) alone |
| Matrix.Matrix4.TranslateMovesPoints | src/matrix.rs:468-475 | `translate(v)` adds `v` to points (`w == 1`) and leaves directions (`w == 0`) alone |
| Matrix.Matrix3.ScaleScales | src/matrix.rs:247-253 | `scale(v)` multiplies each coordinate by `v` and keeps the homogeneous one |
| Matrix.Matrix4.ScaleScales | src/matrix.rs:505-512 | `scale(v)` multiplies each coordinate by `v` and keeps the homogeneous one |
| Matrix.Matrix3.RotateTurns | src/matrix.rs:237-244 | `rotate` sends `(x, y, w)` to `(c x - s y, s x + c y, w)` |
| Matrix.Matrix3.RotateOrthogonal | src/matrix.rs:237-244 | when `s^2 + c^2 == 1`, `R^T R == I` |
| Matrix.Matrix3.RotateDeterminant | src/matrix.rs:237-244 | when `s^2 + c^2 == 1`, `det(R) == 1` |
| Matrix.Matrix4.RotateAboutX | src/matrix.rs:477-502 | about the x axis, `rotate` turns the y-z plane by the angle and keeps x and w |
| Matrix.Matrix4.RotateAboutY | src/matrix.rs:477-502 | about the y axis, `rotate` turns the z-x plane by the angle and keeps y and w |
| Matrix.Matrix4.RotateAboutZ | src/matrix.rs:477-502 | about the z axis, `rotate` turns the x-y plane by the angle and keeps z and w |
| Matrix.Matrix3.OrthoExtent | src/matrix.rs:255-262 | `ortho` maps the box extent `(right - left, top - bottom)` to 2 and negates `w` |
| Matrix.Matrix4.OrthoMapsBox | src/matrix.rs:514-542 | `ortho` maps the near corner of its box to `(-1,-1,-1)` and the far corner to `(1,1,1)` |
| Matrix.Matrix4.PerspectiveDepthRange | src/matrix.rs:544-558 | the corrected projection copies `-z` into `w` and sends the near and far planes to depths -1 and 1 |
| Matrix.Matrix4.PerspectiveAsWrittenTransposed | src/matrix.rs:544-558 | the matrix `perspective` builds is the transpose of the corrected projection |
| Matrix.Matrix4.PerspectiveAsWrittenNearPlane | src/matrix.rs:544-558 | with `near = 1`, `far = 3`, the built matrix sends `(0, 0, -1, 1)` to `(0, 0, 1, 3)` |
| Matrix.Matrix2.Examples | src/matrix.rs:608-661 | the product, matrix-vector product, transpose, determinant and inverse of the crate's `Matrix2` tests |
| Matrix.Matrix3.ProductExamples | src/matrix.rs:754-819 | the products and the transpose of the crate's `Matrix3` tests |
| Matrix.Matrix3.DeterminantExamples | src/matrix.rs:822-837 | the determinants of the crate's `Matrix3` tests |
| Matrix.Matrix3.InverseExample | src/matrix.rs:840-851 | the inverse of the crate's `Matrix3` test, which undoes the matrix |
| Matrix.Matrix3.AffineExamples | src/matrix.rs:853-878 | the translations and scalings of the crate's `Matrix3` tests |
| Matrix.Matrix4.MulMatrixExample | src/matrix.rs:931-953 | the product of the crate's `Matrix4` test |
| Matrix.Matrix4.MulVectorTransposeExamples | src/matrix.rs:956-1004 | the matrix-vector product and the transpose of the crate's `Matrix4` tests |
| Matrix.Matrix4.DeterminantSingularExample | src/matrix.rs:1007-1024 | the matrix with entries 1 to 16 is singular |
| Matrix.Matrix4.DeterminantInvertibleExample | src/matrix.rs:1027-1039 | the matrix the crate's inverse test uses has determinant 2 |
| Matrix.Matrix4.ComatrixExample | src/matrix.rs:1027-1039 | the comatrix of that matrix |
| Matrix.Matrix4.AdjugateExample | src/matrix.rs:1027-1039 | its adjugate, which `inverse` halves |
| Matrix.Matrix4.AffineExamples | src/matrix.rs:1041-1084 | the translations and scalings of the crate's `Matrix4` tests |
| Matrix.Matrix2Cell.AddAssign | src/matrix.rs:85-90 | `+=` replaces the value by `old + rhs` |
| Matrix.Matrix2Cell.SubAssign | src/matrix.rs:92-97 | `-=` replaces the value by `old - rhs` |
| Matrix.Matrix2Cell.MulAssign | src/matrix.rs:99-103 | `*=` by a matrix replaces the value by `old * rhs` |
| Matrix.Matrix2Cell.MulAssignScalar | src/matrix.rs:105-110 | `*=` by a scalar replaces the value by `old * s` |
| Matrix.Matrix3Cell.AddAssign | src/matrix.rs:85-90 | `+=` replaces the value by `old + rhs` |
| Matrix.Matrix3Cell.SubAssign | src/matrix.rs:92-97 | `-=` replaces the value by `old - rhs` |
| Matrix.Matrix3Cell.MulAssign | src/matrix.rs:99-103 | `*=` by a matrix replaces the value by `old * rhs` |
| Matrix.Matrix3Cell.MulAssignScalar | src/matrix.rs:105-110 | `*=` by a scalar replaces the value by `old * s` |
| Matrix.Matrix4Cell.AddAssign | src/matrix.rs:85-90 | `+=` replaces the value by `old + rhs` |
| Matrix.Matrix4Cell.SubAssign | src/matrix.rs:92-97 | `-=` replaces the value by `old - rhs` |
| Matrix.Matrix4Cell.MulAssign | src/matrix.rs:99-103 | `*=` by a matrix replaces the value by `old * rhs` |
| Matrix.Matrix4Cell.MulAssignScalar | src/matrix.rs:105-110 | `*=` by a scalar replaces the value by `old * s` |
| Matrix.CompoundAssignExamples | src/matrix.rs:576-605 | the crate's `+=` and `-=` tests on `Matrix2` |
| LinMath.Vector2.Add | src/linmath.rs:42-44 | each component of the sum is the sum of the components |
| LinMath.Vector3.Add | src/linmath.rs:42-44 | each component of the sum is the sum of the components |
| LinMath.Vector4.Add | src/linmath.rs:42-44 | each component of the sum is the sum of the components |
| LinMath.Vector2.Sub | src/linmath.rs:46-48 | each component of the difference is the difference of the components |
| LinMath.Vector3.Sub | src/linmath.rs:46-48 | each component of the difference is the difference of the components |
| LinMath.Vector4.Sub | src/linmath.rs:46-48 | each component of the difference is the difference of the components |
| LinMath.Vector2.Mul | src/linmath.rs:50-52 | each component of the product is the product of the components |
| LinMath.Vector3.Mul | src/linmath.rs:50-52 | each component of the product is the product of the components |
| LinMath.Vector4.Mul | src/linmath.rs:50-52 | each component of the product is the product of the components |
| LinMath.Vector2.Div | src/linmath.rs:54-56 | each component of the quotient times the divisor's component gives back the dividend's |
| LinMath.Vector3.Div | src/linmath.rs:54-56 | each component of the quotient times the divisor's component gives back the dividend's |
| LinMath.Vector4.Div | src/linmath.rs:54-56 | each component of the quotient times the divisor's component gives back the dividend's |
| LinMath.Vector2.From | src/linmath.rs:72-76 | every component is the scalar |
| LinMath.Vector3.From | src/linmath.rs:72-76 | every component is the scalar |
| LinMath.Vector4.From | src/linmath.rs:72-76 | every component is the scalar |
| LinMath.Vector2.Dot | src/linmath.rs:58-60 | the sum of the products of the components; `AgreesWithGeneric`, `DotIsSumOfMul` and `DotSelfNonNegative` state its relation to the generic dot and `*` |
| LinMath.Vector3.Dot | src/linmath.rs:58-60 | the sum of the products of the components; `AgreesWithGeneric`, `DotIsSumOfMul` and `DotSelfNonNegative` state its relation to the generic dot and `*` |
| LinMath.Vector4.Dot | src/linmath.rs:58-60 | the sum of the products of the components; `AgreesWithGeneric`, `DotIsSumOfMul` and `DotSelfNonNegative` state its relation to the generic dot and `*` |
| LinMath.Vector2.AddSubInverse | src/linmath.rs:42-48 | `(a + b) - b == a` |
| LinMath.Vector3.AddSubInverse | src/linmath.rs:42-48 | `(a + b) - b == a` |
| LinMath.Vector4.AddSubInverse | src/linmath.rs:42-48 | `(a + b) - b == a` |
| LinMath.Vector2.MulDivInverse | src/linmath.rs:50-56 | with no zero component in `b`, `(a * b) / b == a` and `(a / b) * b == a` |
| LinMath.Vector3.MulDivInverse | src/linmath.rs:50-56 | with no zero component in `b`, `(a * b) / b == a` and `(a / b) * b == a` |
| LinMath.Vector4.MulDivInverse | src/linmath.rs:50-56 | with no zero component in `b`, `(a * b) / b == a` and `(a / b) * b == a` |
| LinMath.Vector2.AgreesWithGeneric | src/linmath.rs:42-60 | `add`, `sub` and `dot` agree with those of the generic `Vector2` |
| LinMath.Vector3.AgreesWithGeneric | src/linmath.rs:42-60 | `add`, `sub` and `dot` agree with those of the generic `Vector3` |
| LinMath.Vector4.AgreesWithGeneric | src/linmath.rs:42-60 | `add`, `sub` and `dot` agree with those of the generic `Vector4` |
| LinMath.Vector2.MulFromIsScalarMul | src/linmath.rs:50-76 | `a * From(s)` is the generic scaling of `a` by `s` |
| LinMath.Vector3.MulFromIsScalarMul | src/linmath.rs:50-76 | `a * From(s)` is the generic scaling of `a` by `s` |
| LinMath.Vector4.MulFromIsScalarMul | src/linmath.rs:50-76 | `a * From(s)` is the generic scaling of `a` by `s` |
| LinMath.Vector2.DotIsSumOfMul | src/linmath.rs:50-76 | `dot(a, b)` is the sum of the components of `a * b` |
| LinMath.Vector3.DotIsSumOfMul | src/linmath.rs:50-76 | `dot(a, b)` is the sum of the components of `a * b` |
| LinMath.Vector4.DotIsSumOfMul | src/linmath.rs:50-76 | `dot(a, b)` is the sum of the components of `a * b` |
| LinMath.Vector2.DotSelfNonNegative | src/linmath.rs:58-60 | `dot(v, v) >= 0` |
| LinMath.Vector3.DotSelfNonNegative | src/linmath.rs:58-60 | `dot(v, v) >= 0` |
| LinMath.Vector4.DotSelfNonNegative | src/linmath.rs:58-60 | `dot(v, v) >= 0` |
| LinMath.Vector3.Cross | src/linmath.rs:84-92 | the `f64` cross product is the generic cross product |
| LinMath.Vector3.CrossOrthogonal | src/linmath.rs:84-92 | `a x b` is orthogonal to `a` and to `b` |
| LinMath.Vector2Cell.AddAssign | src/linmath.rs:20-28 | `+=` replaces the value by `old + rhs` |
| LinMath.Vector2Cell.SubAssign | src/linmath.rs:20-28 | `-=` replaces the value by `old - rhs` |
| LinMath.Vector2Cell.MulAssign | src/linmath.rs:20-28 | `*=` replaces the value by the componentwise product |
| LinMath.Vector2Cell.DivAssign | src/linmath.rs:20-28 | `/=` replaces the value by the componentwise quotient |
| LinMath.Vector3Cell.AddAssign | src/linmath.rs:20-28 | `+=` replaces the value by `old + rhs` |
| LinMath.Vector3Cell.SubAssign | src/linmath.rs:20-28 | `-=` replaces the value by `old - rhs` |
| LinMath.Vector3Cell.MulAssign | src/linmath.rs:20-28 | `*=` replaces the value by the componentwise product |
| LinMath.Vector3Cell.DivAssign | src/linmath.rs:20-28 | `/=` replaces the value by the componentwise quotient |
| LinMath.Vector4Cell.AddAssign | src/linmath.rs:20-28 | `+=` replaces the value by `old + rhs` |
| LinMath.Vector4Cell.SubAssign | src/linmath.rs:20-28 | `-=` replaces the value by `old - rhs` |
| LinMath.Vector4Cell.MulAssign | src/linmath.rs:20-28 | `*=` replaces the value by the componentwise product |
| LinMath.Vector4Cell.DivAssign | src/linmath.rs:20-28 | `/=` replaces the value by the componentwise quotient |

## Left out

- Floating point: rounding, NaN and infinities are not modelled; scalars are exact `real`s.
- `inverse` tests `det == 0` exactly. Over `real` this is the exact singularity test. Over `f64` a tiny nonzero determinant passes it, and that case is not modelled.
- `length` and `normalize` (src/vector.rs:45-52) take a square root, which has no exact counterpart here. Only `dot(v, v) >= 0`, the quantity under the root, is proved.
- Matrix.Matrix3.Rotate, Matrix.Matrix4.Rotate: the sine and cosine of the angle are parameters `s` and `c`, since `sin_cos` is not modelled. Matrix4's `rotate` normalizes its axis first; the model takes the axis as already normalized.
- Matrix.Matrix4.Rotate: only the rotations about the three coordinate axes (`RotateAboutX`, `RotateAboutY`, `RotateAboutZ`) are proved. That a rotation about a general unit axis fixes the axis is not proved.
- Matrix.Matrix4.Perspective: the focal factor `f`, the reciprocal of the tangent of half the field of view, is a parameter, since `tan` is not modelled.
- Matrix.Matrix3.Ortho, Matrix.Matrix4.Ortho: require `right != left`, `top != bottom` and (for 4x4) `far != near`. With equal bounds the source divides by zero and yields infinities.
- Matrix.Matrix4.PerspectiveAsWritten, Matrix.Matrix4.Perspective: require `aspect != 0` and `near != far`, for the same reason.
- LinMath.Vector2.Div, LinMath.Vector3.Div, LinMath.Vector4.Div: require every component of the divisor to be nonzero. The source divides anyway and yields infinities or NaN.
- LinMath.Vector2Cell.DivAssign, LinMath.Vector3Cell.DivAssign, LinMath.Vector4Cell.DivAssign: require a divisor with no zero component, for the same reason.
- Matrix.Matrix4.AddSubInverse, LinMath.Vector2.AddSubInverse, LinMath.Vector3.AddSubInverse, LinMath.Vector4.AddSubInverse: state only `(a + b) - b == a`, not the other order.
- The 4x4 product rule for determinants is not stated. `det(a b) == det(a) det(b)` is proved for 2x2 and 3x3 only. For 4x4, `InverseCorrect` still shows that `inverse` is two-sided.
- That a singular 4x4 matrix has no inverse at all is not stated, for the same reason. For 4x4, `InverseCorrect` proves `inverse` correct in both directions, but not that no other matrix inverts a singular one.
- The exact value of the 4x4 test inverse is not stated. Its determinant, comatrix and adjugate are, and `InverseCorrect` connects them to `inverse`.
- The rotation tests' quarter turns appear only through the general `RotateTurns` and `RotateAboutX/Y/Z`, at `s = 1`, `c = 0`; the concrete literal instances are not stated separately.
- The approximate-equality impls `AbsDiffEq`, `RelativeEq` and `UlpsEq` (src/vector.rs:103-148) are left out; they are used only by tests.
- The operator macros of src/macros.rs and the module wiring of src/lib.rs are left out: they contain no logic. The `Add`/`Sub`/`Mul`/`Div` operator impls forward to the modelled helpers.
- The derives (`Copy`, `Clone`, `Debug`, `PartialEq`) and `#[repr(C)]` layout are left out; Dafny datatypes have structural equality.
- The `*Assign` impls overwrite a `&mut` place. They are modelled as methods of a cell object holding that place, so aliasing between two places is not modelled.

## Findings

| source | as written | input that shows it | evidently intended | confidence | as-written member | corrected member |
|---|---|---|---|---|---|---|
| src/matrix.rs:544-558 | `perspective` puts `2 far near / (near - far)` in row w of column z and `-1` in row z of column w. This is the transpose of the projection in the crate's own column convention, which `translate` and `ortho` follow. | `f = 1`, `aspect = 1`, `near = 1`, `far = 3`, point `(0, 0, -1, 1)` on the near plane: the result is `(0, 0, 1, 3)`, at depth `1/3` instead of -1 | column z ends in `-1` and column w carries the depth offset, so the near and far planes map to depths -1 and 1 | medium, not executed | Matrix.Matrix4.PerspectiveAsWrittenNearPlane | Matrix.Matrix4.PerspectiveDepthRange |
