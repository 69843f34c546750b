/** Fixed-size vectors with 2, 3 and 4 components over the reals.

    Each Rust struct `VectorN<T: Float>` becomes a datatype whose constructor plays the
    part of `VectorN::new`; the private helpers behind the `+`, `-` and `* scalar`
    operators and the public `dot` and `cross` become static functions. The compound
    assignment operators, which overwrite a `&mut` place, are the `VectorNCell` classes.
 */
module Vector {

  /** The square of a real is never negative; the step behind `dot(v, v) >= 0`. */
  lemma SquareNonNegative(r: real)
    ensures r * r >= 0.0
  {
    if r < 0.0 {
      assert r * r == (-r) * (-r);
    }
  }

  datatype Vector2 = Vector2(x: real, y: real) {

    /** Component `i`, counting the fields in declaration order. */
    function At(i: nat): real
      requires i < 2
    {
      if i == 0 then x else y
    }

    /** `a + b`, component by component. */
    static function Add(a: Vector2, b: Vector2): (r: Vector2)
      ensures forall i :: 0 <= i < 2 ==> r.At(i) == a.At(i) + b.At(i)
    {
      Vector2(a.x + b.x, a.y + b.y)
    }

    /** `a - b`, component by component. */
    static function Sub(a: Vector2, b: Vector2): (r: Vector2)
      ensures forall i :: 0 <= i < 2 ==> r.At(i) == a.At(i) - b.At(i)
    {
      Vector2(a.x - b.x, a.y - b.y)
    }

    /** `a * s` for a scalar `s`: every component scaled by `s`. */
    static function MulScalar(a: Vector2, s: real): (r: Vector2)
      ensures forall i :: 0 <= i < 2 ==> r.At(i) == a.At(i) * s
    {
      Vector2(a.x * s, a.y * s)
    }

    /** The sum of the componentwise products. */
    static function Dot(a: Vector2, b: Vector2): real
    {
      a.x * b.x + a.y * b.y
    }

    /** Adding `b` and then subtracting it again gives back `a`, and the other way round. */
    static lemma AddSubInverse(a: Vector2, b: Vector2)
      ensures Sub(Add(a, b), b) == a
      ensures Add(Sub(a, b), b) == a
    {
    }

    /** The dot product is symmetric. */
    static lemma DotSymmetric(a: Vector2, b: Vector2)
      ensures Dot(a, b) == Dot(b, a)
    {
    }

    /** The dot product distributes over a sum in its first argument. */
    static lemma DotAdditive(a: Vector2, b: Vector2, c: Vector2)
      ensures Dot(Add(a, b), c) == Dot(a, c) + Dot(b, c)
    {
    }

    /** A scalar factor on either argument can be taken out of the dot product. */
    static lemma DotScale(a: Vector2, b: Vector2, s: real)
      ensures Dot(MulScalar(a, s), b) == Dot(a, b) * s
      ensures Dot(a, MulScalar(b, s)) == Dot(a, b) * s
    {
    }

    /** `dot(v, v)` is never negative, which is what a length computed from it relies on. */
    static lemma DotSelfNonNegative(v: Vector2)
      ensures Dot(v, v) >= 0.0
    {
      SquareNonNegative(v.x); SquareNonNegative(v.y);
    }

    /** The values the crate's own tests expect for `(1,2)` and `(3,4)`. */
    static lemma Examples()
      ensures Add(Vector2(1.0, 2.0), Vector2(3.0, 4.0)) == Vector2(4.0, 6.0)
      ensures Sub(Vector2(1.0, 2.0), Vector2(3.0, 4.0)) == Vector2(-2.0, -2.0)
      ensures MulScalar(Vector2(1.0, 2.0), 2.0) == Vector2(2.0, 4.0)
      ensures Dot(Vector2(1.0, 2.0), Vector2(3.0, 4.0)) == 11.0
    {
    }
  }

  datatype Vector3 = Vector3(x: real, y: real, z: real) {

    /** Component `i`, counting the fields in declaration order. */
    function At(i: nat): real
      requires i < 3
    {
      if i == 0 then x else if i == 1 then y else z
    }

    /** `a + b`, component by component. */
    static function Add(a: Vector3, b: Vector3): (r: Vector3)
      ensures forall i :: 0 <= i < 3 ==> r.At(i) == a.At(i) + b.At(i)
    {
      Vector3(a.x + b.x, a.y + b.y, a.z + b.z)
    }

    /** `a - b`, component by component. */
    static function Sub(a: Vector3, b: Vector3): (r: Vector3)
      ensures forall i :: 0 <= i < 3 ==> r.At(i) == a.At(i) - b.At(i)
    {
      Vector3(a.x - b.x, a.y - b.y, a.z - b.z)
    }

    /** `a * s` for a scalar `s`: every component scaled by `s`. */
    static function MulScalar(a: Vector3, s: real): (r: Vector3)
      ensures forall i :: 0 <= i < 3 ==> r.At(i) == a.At(i) * s
    {
      Vector3(a.x * s, a.y * s, a.z * s)
    }

    /** The sum of the componentwise products. */
    static function Dot(a: Vector3, b: Vector3): real
    {
      a.x * b.x + a.y * b.y + a.z * b.z
    }

    /** The cross product `a x b`. */
    static function Cross(a: Vector3, b: Vector3): Vector3
    {
      Vector3(
        a.y * b.z - a.z * b.y,
        a.z * b.x - a.x * b.z,
        a.x * b.y - a.y * b.x)
    }

    /** Adding `b` and then subtracting it again gives back `a`, and the other way round. */
    static lemma AddSubInverse(a: Vector3, b: Vector3)
      ensures Sub(Add(a, b), b) == a
      ensures Add(Sub(a, b), b) == a
    {
    }

    /** The dot product is symmetric. */
    static lemma DotSymmetric(a: Vector3, b: Vector3)
      ensures Dot(a, b) == Dot(b, a)
    {
    }

    /** The dot product distributes over a sum in its first argument. */
    static lemma DotAdditive(a: Vector3, b: Vector3, c: Vector3)
      ensures Dot(Add(a, b), c) == Dot(a, c) + Dot(b, c)
    {
    }

    /** A scalar factor on either argument can be taken out of the dot product. */
    static lemma DotScale(a: Vector3, b: Vector3, s: real)
      ensures Dot(MulScalar(a, s), b) == Dot(a, b) * s
      ensures Dot(a, MulScalar(b, s)) == Dot(a, b) * s
    {
    }

    /** `dot(v, v)` is never negative, which is what a length computed from it relies on. */
    static lemma DotSelfNonNegative(v: Vector3)
      ensures Dot(v, v) >= 0.0
    {
      SquareNonNegative(v.x); SquareNonNegative(v.y); SquareNonNegative(v.z);
    }

    /** `cross` is anti-commutative, so `cross(a, a)` is the zero vector. */
    static lemma CrossAntiCommutes(a: Vector3, b: Vector3)
      ensures Cross(a, b) == MulScalar(Cross(b, a), -1.0)
      ensures Cross(a, a) == Vector3(0.0, 0.0, 0.0)
    {
    }

    /** Lagrange's identity: `|a x b|^2 == |a|^2 |b|^2 - (a . b)^2`. */
    static lemma CrossLagrange(a: Vector3, b: Vector3)
      ensures Dot(Cross(a, b), Cross(a, b)) == Dot(a, a) * Dot(b, b) - Dot(a, b) * Dot(a, b)
    {
    }

    /** `a x b` is orthogonal to `a`. */
    static lemma CrossOrthogonalLeft(a: Vector3, b: Vector3)
      ensures Dot(a, Cross(a, b)) == 0.0
    {
    }

    /** `a x b` is orthogonal to `b`. */
    static lemma CrossOrthogonalRight(a: Vector3, b: Vector3)
      ensures Dot(b, Cross(a, b)) == 0.0
    {
    }

    /** In the scalar triple product the dot and the cross may be exchanged: `a . (b x c) == (a x b) . c`. */
    static lemma DotCrossInterchange(a: Vector3, b: Vector3, c: Vector3)
      ensures Dot(a, Cross(b, c)) == Dot(Cross(a, b), c)
    {
    }

    /** The scalar triple product `(a x b) . c` is invariant under cyclic rotation of its operands. */
    static lemma TripleProductCycles(a: Vector3, b: Vector3, c: Vector3)
      ensures Dot(Cross(a, b), c) == Dot(Cross(b, c), a)
    {
    }

    /** The values the crate's own tests expect for `(1,2,3)` and `(4,5,6)`. */
    static lemma Examples()
      ensures Add(Vector3(1.0, 2.0, 3.0), Vector3(4.0, 5.0, 6.0)) == Vector3(5.0, 7.0, 9.0)
      ensures Sub(Vector3(1.0, 2.0, 3.0), Vector3(4.0, 5.0, 6.0)) == Vector3(-3.0, -3.0, -3.0)
      ensures MulScalar(Vector3(1.0, 2.0, 3.0), 2.0) == Vector3(2.0, 4.0, 6.0)
      ensures Dot(Vector3(1.0, 2.0, 3.0), Vector3(4.0, 5.0, 6.0)) == 32.0
      ensures Cross(Vector3(1.0, 2.0, 3.0), Vector3(4.0, 5.0, 6.0)) == Vector3(-3.0, 6.0, -3.0)
    {
    }
  }

  datatype Vector4 = Vector4(x: real, y: real, z: real, w: real) {

    /** Component `i`, counting the fields in declaration order. */
    function At(i: nat): real
      requires i < 4
    {
      if i == 0 then x else if i == 1 then y else if i == 2 then z else w
    }

    /** `a + b`, component by component. */
    static function Add(a: Vector4, b: Vector4): (r: Vector4)
      ensures forall i :: 0 <= i < 4 ==> r.At(i) == a.At(i) + b.At(i)
    {
      Vector4(a.x + b.x, a.y + b.y, a.z + b.z, a.w + b.w)
    }

    /** `a - b`, component by component. */
    static function Sub(a: Vector4, b: Vector4): (r: Vector4)
      ensures forall i :: 0 <= i < 4 ==> r.At(i) == a.At(i) - b.At(i)
    {
      Vector4(a.x - b.x, a.y - b.y, a.z - b.z, a.w - b.w)
    }

    /** `a * s` for a scalar `s`: every component scaled by `s`. */
    static function MulScalar(a: Vector4, s: real): (r: Vector4)
      ensures forall i :: 0 <= i < 4 ==> r.At(i) == a.At(i) * s
    {
      Vector4(a.x * s, a.y * s, a.z * s, a.w * s)
    }

    /** The sum of the componentwise products. */
    static function Dot(a: Vector4, b: Vector4): real
    {
      a.x * b.x + a.y * b.y + a.z * b.z + a.w * b.w
    }

    /** Adding `b` and then subtracting it again gives back `a`, and the other way round. */
    static lemma AddSubInverse(a: Vector4, b: Vector4)
      ensures Sub(Add(a, b), b) == a
      ensures Add(Sub(a, b), b) == a
    {
    }

    /** The dot product is symmetric. */
    static lemma DotSymmetric(a: Vector4, b: Vector4)
      ensures Dot(a, b) == Dot(b, a)
    {
    }

    /** The dot product distributes over a sum in its first argument. */
    static lemma DotAdditive(a: Vector4, b: Vector4, c: Vector4)
      ensures Dot(Add(a, b), c) == Dot(a, c) + Dot(b, c)
    {
    }

    /** A scalar factor on either argument can be taken out of the dot product. */
    static lemma DotScale(a: Vector4, b: Vector4, s: real)
      ensures Dot(MulScalar(a, s), b) == Dot(a, b) * s
      ensures Dot(a, MulScalar(b, s)) == Dot(a, b) * s
    {
    }

    /** The dot product of a vector given by its components. */
    static lemma DotOfComponents(a0: real, a1: real, a2: real, a3: real, v: Vector4)
      ensures Dot(Vector4(a0, a1, a2, a3), v) == a0 * v.x + a1 * v.y + a2 * v.z + a3 * v.w
    {
    }

    /** Dotting `r` with a combination of `c0 .. c3` weighted by `v` is dotting the row of
        the `r . ck` with `v`. */
    static lemma DotCombination(r: Vector4, c0: Vector4, c1: Vector4, c2: Vector4, c3: Vector4, v: Vector4)
      ensures Dot(r, Add(Add(Add(MulScalar(c0, v.x), MulScalar(c1, v.y)), MulScalar(c2, v.z)), MulScalar(c3, v.w)))
        == Dot(Vector4(Dot(r, c0), Dot(r, c1), Dot(r, c2), Dot(r, c3)), v)
    {
      var d0, d1, d2, d3 := MulScalar(c0, v.x), MulScalar(c1, v.y), MulScalar(c2, v.z), MulScalar(c3, v.w);
      DotSymmetric(r, Add(Add(Add(d0, d1), d2), d3));
      DotAdditive(Add(Add(d0, d1), d2), d3, r);
      DotAdditive(Add(d0, d1), d2, r);
      DotAdditive(d0, d1, r);
      DotSymmetric(d0, r); DotSymmetric(d1, r); DotSymmetric(d2, r); DotSymmetric(d3, r);
      DotScale(r, c0, v.x); DotScale(r, c1, v.y); DotScale(r, c2, v.z); DotScale(r, c3, v.w);
      DotOfComponents(Dot(r, c0), Dot(r, c1), Dot(r, c2), Dot(r, c3), v);
    }

    /** `dot(v, v)` is never negative, which is what a length computed from it relies on. */
    static lemma DotSelfNonNegative(v: Vector4)
      ensures Dot(v, v) >= 0.0
    {
      SquareNonNegative(v.x); SquareNonNegative(v.y); SquareNonNegative(v.z); SquareNonNegative(v.w);
    }

    /** The values the crate's own tests expect for `(1,2,3,4)` and `(5,6,7,8)`. */
    static lemma Examples()
      ensures Add(Vector4(1.0, 2.0, 3.0, 4.0), Vector4(5.0, 6.0, 7.0, 8.0)) == Vector4(6.0, 8.0, 10.0, 12.0)
      ensures Sub(Vector4(1.0, 2.0, 3.0, 4.0), Vector4(5.0, 6.0, 7.0, 8.0)) == Vector4(-4.0, -4.0, -4.0, -4.0)
      ensures MulScalar(Vector4(1.0, 2.0, 3.0, 4.0), 2.0) == Vector4(2.0, 4.0, 6.0, 8.0)
      ensures Dot(Vector4(1.0, 2.0, 3.0, 4.0), Vector4(5.0, 6.0, 7.0, 8.0)) == 70.0
    {
    }
  }

  /** A mutable `Vector2` place, the `&mut self` of the compound assignment operators. */
  class Vector2Cell {
    var value: Vector2

    constructor (v: Vector2)
      ensures value == v
    {
      value := v;
    }

    /** `self += rhs` */
    method AddAssign(rhs: Vector2)
      modifies this
      ensures value == Vector2.Add(old(value), rhs)
    {
      value := Vector2.Add(value, rhs);
    }

    /** `self -= rhs` */
    method SubAssign(rhs: Vector2)
      modifies this
      ensures value == Vector2.Sub(old(value), rhs)
    {
      value := Vector2.Sub(value, rhs);
    }

    /** `self *= s` */
    method MulAssign(s: real)
      modifies this
      ensures value == Vector2.MulScalar(old(value), s)
    {
      value := Vector2.MulScalar(value, s);
    }
  }

  /** A mutable `Vector3` place, the `&mut self` of the compound assignment operators. */
  class Vector3Cell {
    var value: Vector3

    constructor (v: Vector3)
      ensures value == v
    {
      value := v;
    }

    /** `self += rhs` */
    method AddAssign(rhs: Vector3)
      modifies this
      ensures value == Vector3.Add(old(value), rhs)
    {
      value := Vector3.Add(value, rhs);
    }

    /** `self -= rhs` */
    method SubAssign(rhs: Vector3)
      modifies this
      ensures value == Vector3.Sub(old(value), rhs)
    {
      value := Vector3.Sub(value, rhs);
    }

    /** `self *= s` */
    method MulAssign(s: real)
      modifies this
      ensures value == Vector3.MulScalar(old(value), s)
    {
      value := Vector3.MulScalar(value, s);
    }
  }

  /** A mutable `Vector4` place, the `&mut self` of the compound assignment operators. */
  class Vector4Cell {
    var value: Vector4

    constructor (v: Vector4)
      ensures value == v
    {
      value := v;
    }

    /** `self += rhs` */
    method AddAssign(rhs: Vector4)
      modifies this
      ensures value == Vector4.Add(old(value), rhs)
    {
      value := Vector4.Add(value, rhs);
    }

    /** `self -= rhs` */
    method SubAssign(rhs: Vector4)
      modifies this
      ensures value == Vector4.Sub(old(value), rhs)
    {
      value := Vector4.Sub(value, rhs);
    }

    /** `self *= s` */
    method MulAssign(s: real)
      modifies this
      ensures value == Vector4.MulScalar(old(value), s)
    {
      value := Vector4.MulScalar(value, s);
    }
  }

  /** The crate's `+=`, `-=` and `*=` tests, run through the cells: each starts from
      `(1, 2, ...)`, and the right-hand side is the next N integers or the scalar 2. */
  method CompoundAssignExamples() returns (sum2: Vector2, difference2: Vector2, scaled2: Vector2,
      sum3: Vector3, difference3: Vector3, scaled3: Vector3,
      sum4: Vector4, difference4: Vector4, scaled4: Vector4)
    ensures sum2 == Vector2(4.0, 6.0) && difference2 == Vector2(-2.0, -2.0) && scaled2 == Vector2(2.0, 4.0)
    ensures sum3 == Vector3(5.0, 7.0, 9.0) && difference3 == Vector3(-3.0, -3.0, -3.0) && scaled3 == Vector3(2.0, 4.0, 6.0)
    ensures sum4 == Vector4(6.0, 8.0, 10.0, 12.0) && difference4 == Vector4(-4.0, -4.0, -4.0, -4.0)
    ensures scaled4 == Vector4(2.0, 4.0, 6.0, 8.0)
  {
    var a2 := new Vector2Cell(Vector2(1.0, 2.0));
    a2.AddAssign(Vector2(3.0, 4.0));
    sum2 := a2.value;
    var b2 := new Vector2Cell(Vector2(1.0, 2.0));
    b2.SubAssign(Vector2(3.0, 4.0));
    difference2 := b2.value;
    var c2 := new Vector2Cell(Vector2(1.0, 2.0));
    c2.MulAssign(2.0);
    scaled2 := c2.value;

    var a3 := new Vector3Cell(Vector3(1.0, 2.0, 3.0));
    a3.AddAssign(Vector3(4.0, 5.0, 6.0));
    sum3 := a3.value;
    var b3 := new Vector3Cell(Vector3(1.0, 2.0, 3.0));
    b3.SubAssign(Vector3(4.0, 5.0, 6.0));
    difference3 := b3.value;
    var c3 := new Vector3Cell(Vector3(1.0, 2.0, 3.0));
    c3.MulAssign(2.0);
    scaled3 := c3.value;

    var a4 := new Vector4Cell(Vector4(1.0, 2.0, 3.0, 4.0));
    a4.AddAssign(Vector4(5.0, 6.0, 7.0, 8.0));
    sum4 := a4.value;
    var b4 := new Vector4Cell(Vector4(1.0, 2.0, 3.0, 4.0));
    b4.SubAssign(Vector4(5.0, 6.0, 7.0, 8.0));
    difference4 := b4.value;
    var c4 := new Vector4Cell(Vector4(1.0, 2.0, 3.0, 4.0));
    c4.MulAssign(2.0);
    scaled4 := c4.value;
  }
}
