/** The older `f64`-only vectors of `src/linmath.rs`, with `f64` modelled as `real`.

    Besides `add`, `sub` and `dot` they have a componentwise `mul` and `div` (two vectors,
    not a vector and a scalar) and a broadcast `From<f64>`. The compound assignment
    operators become methods of mutable cells, as in module `Vector`. Each vector is
    related to the generic vector of the same size so that the facts proved there carry
    over. */
module LinMath {
  import Vector

  datatype Vector2 = Vector2(x: real, y: real) {

    /** Component `i`, in field order. */
    function At(i: nat): real
      requires i < 2
    {
      if i == 0 then x else y
    }

    /** The same components as a generic `Vector2`. */
    function AsGeneric(): (g: Vector.Vector2)
      ensures forall i :: 0 <= i < 2 ==> g.At(i) == At(i)
    {
      Vector.Vector2(x, y)
    }

    /** No component is zero: what `div` needs of its divisor to stay finite. */
    predicate NonZero()
    {
      x != 0.0 && y != 0.0
    }

    /** `a + b`, component by component. */
    static function Add(a: Vector2, b: Vector2): (r: Vector2)
      ensures forall i :: 0 <= i < 2 ==> r.At(i) == a.At(i) + b.At(i)
    {
      Vector2(a.x + b.x, a.y + b.y)
    }

    /** `a - b`, component by component. */
    static function Sub(a: Vector2, b: Vector2): (r: Vector2)
      ensures forall i :: 0 <= i < 2 ==> r.At(i) == a.At(i) - b.At(i)
    {
      Vector2(a.x - b.x, a.y - b.y)
    }

    /** `a * b`, component by component (not a dot product). */
    static function Mul(a: Vector2, b: Vector2): (r: Vector2)
      ensures forall i :: 0 <= i < 2 ==> r.At(i) == a.At(i) * b.At(i)
    {
      Vector2(a.x * b.x, a.y * b.y)
    }

    /** `a / b`, component by component; every divisor component must be nonzero. */
    static function Div(a: Vector2, b: Vector2): (r: Vector2)
      requires b.NonZero()
      ensures forall i :: 0 <= i < 2 ==> r.At(i) * b.At(i) == a.At(i)
    {
      Vector2(a.x / b.x, a.y / b.y)
    }

    /** The sum of the componentwise products. */
    static function Dot(a: Vector2, b: Vector2): real
    {
      a.x * b.x + a.y * b.y
    }

    /** `From<f64>`: every component is the scalar. */
    static function From(s: real): (r: Vector2)
      ensures forall i :: 0 <= i < 2 ==> r.At(i) == s
    {
      Vector2(s, s)
    }

    /** Subtracting what was added gives the vector back. */
    static lemma AddSubInverse(a: Vector2, b: Vector2)
      ensures Sub(Add(a, b), b) == a
    {
    }

    /** Dividing by a vector with no zero component undoes multiplying by it, and the
        other way round. */
    static lemma MulDivInverse(a: Vector2, b: Vector2)
      requires b.NonZero()
      ensures Div(Mul(a, b), b) == a
      ensures Mul(Div(a, b), b) == a
    {
      DivideCancels(a.x, b.x);
      DivideCancels(a.y, b.y);
    }

    /** `add`, `sub` and `dot` compute what the generic vector operations compute. */
    static lemma AgreesWithGeneric(a: Vector2, b: Vector2)
      ensures Add(a, b).AsGeneric() == Vector.Vector2.Add(a.AsGeneric(), b.AsGeneric())
      ensures Sub(a, b).AsGeneric() == Vector.Vector2.Sub(a.AsGeneric(), b.AsGeneric())
      ensures Dot(a, b) == Vector.Vector2.Dot(a.AsGeneric(), b.AsGeneric())
    {
    }

    /** Multiplying by the broadcast of `s` is the generic multiplication by the scalar `s`. */
    static lemma MulFromIsScalarMul(a: Vector2, s: real)
      ensures Mul(a, From(s)).AsGeneric() == Vector.Vector2.MulScalar(a.AsGeneric(), s)
    {
    }

    /** `dot` adds up the components of the componentwise product. */
    static lemma DotIsSumOfMul(a: Vector2, b: Vector2)
      ensures Dot(a, b) == Dot(Mul(a, b), From(1.0))
    {
    }

    /** `dot(v, v)` is never negative. */
    static lemma DotSelfNonNegative(v: Vector2)
      ensures Dot(v, v) >= 0.0
    {
      AgreesWithGeneric(v, v);
      Vector.Vector2.DotSelfNonNegative(v.AsGeneric());
    }
  }

  datatype Vector3 = Vector3(x: real, y: real, z: real) {

    /** Component `i`, in field order. */
    function At(i: nat): real
      requires i < 3
    {
      if i == 0 then x else if i == 1 then y else z
    }

    /** The same components as a generic `Vector3`. */
    function AsGeneric(): (g: Vector.Vector3)
      ensures forall i :: 0 <= i < 3 ==> g.At(i) == At(i)
    {
      Vector.Vector3(x, y, z)
    }

    /** No component is zero: what `div` needs of its divisor to stay finite. */
    predicate NonZero()
    {
      x != 0.0 && y != 0.0 && z != 0.0
    }

    /** `a + b`, component by component. */
    static function Add(a: Vector3, b: Vector3): (r: Vector3)
      ensures forall i :: 0 <= i < 3 ==> r.At(i) == a.At(i) + b.At(i)
    {
      Vector3(a.x + b.x, a.y + b.y, a.z + b.z)
    }

    /** `a - b`, component by component. */
    static function Sub(a: Vector3, b: Vector3): (r: Vector3)
      ensures forall i :: 0 <= i < 3 ==> r.At(i) == a.At(i) - b.At(i)
    {
      Vector3(a.x - b.x, a.y - b.y, a.z - b.z)
    }

    /** `a * b`, component by component (not a dot product). */
    static function Mul(a: Vector3, b: Vector3): (r: Vector3)
      ensures forall i :: 0 <= i < 3 ==> r.At(i) == a.At(i) * b.At(i)
    {
      Vector3(a.x * b.x, a.y * b.y, a.z * b.z)
    }

    /** `a / b`, component by component; every divisor component must be nonzero. */
    static function Div(a: Vector3, b: Vector3): (r: Vector3)
      requires b.NonZero()
      ensures forall i :: 0 <= i < 3 ==> r.At(i) * b.At(i) == a.At(i)
    {
      Vector3(a.x / b.x, a.y / b.y, a.z / b.z)
    }

    /** The sum of the componentwise products. */
    static function Dot(a: Vector3, b: Vector3): real
    {
      a.x * b.x + a.y * b.y + a.z * b.z
    }

    /** `From<f64>`: every component is the scalar. */
    static function From(s: real): (r: Vector3)
      ensures forall i :: 0 <= i < 3 ==> r.At(i) == s
    {
      Vector3(s, s, s)
    }

    /** Subtracting what was added gives the vector back. */
    static lemma AddSubInverse(a: Vector3, b: Vector3)
      ensures Sub(Add(a, b), b) == a
    {
    }

    /** Dividing by a vector with no zero component undoes multiplying by it, and the
        other way round. */
    static lemma MulDivInverse(a: Vector3, b: Vector3)
      requires b.NonZero()
      ensures Div(Mul(a, b), b) == a
      ensures Mul(Div(a, b), b) == a
    {
      DivideCancels(a.x, b.x);
      DivideCancels(a.y, b.y);
      DivideCancels(a.z, b.z);
    }

    /** `add`, `sub` and `dot` compute what the generic vector operations compute. */
    static lemma AgreesWithGeneric(a: Vector3, b: Vector3)
      ensures Add(a, b).AsGeneric() == Vector.Vector3.Add(a.AsGeneric(), b.AsGeneric())
      ensures Sub(a, b).AsGeneric() == Vector.Vector3.Sub(a.AsGeneric(), b.AsGeneric())
      ensures Dot(a, b) == Vector.Vector3.Dot(a.AsGeneric(), b.AsGeneric())
    {
    }

    /** Multiplying by the broadcast of `s` is the generic multiplication by the scalar `s`. */
    static lemma MulFromIsScalarMul(a: Vector3, s: real)
      ensures Mul(a, From(s)).AsGeneric() == Vector.Vector3.MulScalar(a.AsGeneric(), s)
    {
    }

    /** `dot` adds up the components of the componentwise product. */
    static lemma DotIsSumOfMul(a: Vector3, b: Vector3)
      ensures Dot(a, b) == Dot(Mul(a, b), From(1.0))
    {
    }

    /** `dot(v, v)` is never negative. */
    static lemma DotSelfNonNegative(v: Vector3)
      ensures Dot(v, v) >= 0.0
    {
      AgreesWithGeneric(v, v);
      Vector.Vector3.DotSelfNonNegative(v.AsGeneric());
    }

    /** The cross product, by the same formula as the generic `cross`. */
    static function Cross(a: Vector3, b: Vector3): (r: Vector3)
      ensures r.AsGeneric() == Vector.Vector3.Cross(a.AsGeneric(), b.AsGeneric())
    {
      Vector3(a.y * b.z - a.z * b.y, a.z * b.x - a.x * b.z, a.x * b.y - a.y * b.x)
    }

    /** The cross product is perpendicular to both operands. */
    static lemma CrossOrthogonal(a: Vector3, b: Vector3)
      ensures Dot(Cross(a, b), a) == 0.0
      ensures Dot(Cross(a, b), b) == 0.0
    {
      AgreesWithGeneric(Cross(a, b), a);
      AgreesWithGeneric(Cross(a, b), b);
      Vector.Vector3.CrossOrthogonalLeft(a.AsGeneric(), b.AsGeneric());
      Vector.Vector3.CrossOrthogonalRight(a.AsGeneric(), b.AsGeneric());
    }
  }

  datatype Vector4 = Vector4(x: real, y: real, z: real, w: real) {

    /** Component `i`, in field order. */
    function At(i: nat): real
      requires i < 4
    {
      if i == 0 then x else if i == 1 then y else if i == 2 then z else w
    }

    /** The same components as a generic `Vector4`. */
    function AsGeneric(): (g: Vector.Vector4)
      ensures forall i :: 0 <= i < 4 ==> g.At(i) == At(i)
    {
      Vector.Vector4(x, y, z, w)
    }

    /** No component is zero: what `div` needs of its divisor to stay finite. */
    predicate NonZero()
    {
      x != 0.0 && y != 0.0 && z != 0.0 && w != 0.0
    }

    /** `a + b`, component by component. */
    static function Add(a: Vector4, b: Vector4): (r: Vector4)
      ensures forall i :: 0 <= i < 4 ==> r.At(i) == a.At(i) + b.At(i)
    {
      Vector4(a.x + b.x, a.y + b.y, a.z + b.z, a.w + b.w)
    }

    /** `a - b`, component by component. */
    static function Sub(a: Vector4, b: Vector4): (r: Vector4)
      ensures forall i :: 0 <= i < 4 ==> r.At(i) == a.At(i) - b.At(i)
    {
      Vector4(a.x - b.x, a.y - b.y, a.z - b.z, a.w - b.w)
    }

    /** `a * b`, component by component (not a dot product). */
    static function Mul(a: Vector4, b: Vector4): (r: Vector4)
      ensures forall i :: 0 <= i < 4 ==> r.At(i) == a.At(i) * b.At(i)
    {
      Vector4(a.x * b.x, a.y * b.y, a.z * b.z, a.w * b.w)
    }

    /** `a / b`, component by component; every divisor component must be nonzero. */
    static function Div(a: Vector4, b: Vector4): (r: Vector4)
      requires b.NonZero()
      ensures forall i :: 0 <= i < 4 ==> r.At(i) * b.At(i) == a.At(i)
    {
      Vector4(a.x / b.x, a.y / b.y, a.z / b.z, a.w / b.w)
    }

    /** The sum of the componentwise products. */
    static function Dot(a: Vector4, b: Vector4): real
    {
      a.x * b.x + a.y * b.y + a.z * b.z + a.w * b.w
    }

    /** `From<f64>`: every component is the scalar. */
    static function From(s: real): (r: Vector4)
      ensures forall i :: 0 <= i < 4 ==> r.At(i) == s
    {
      Vector4(s, s, s, s)
    }

    /** Subtracting what was added gives the vector back. */
    static lemma AddSubInverse(a: Vector4, b: Vector4)
      ensures Sub(Add(a, b), b) == a
    {
    }

    /** Dividing by a vector with no zero component undoes multiplying by it, and the
        other way round. */
    static lemma MulDivInverse(a: Vector4, b: Vector4)
      requires b.NonZero()
      ensures Div(Mul(a, b), b) == a
      ensures Mul(Div(a, b), b) == a
    {
      DivideCancels(a.x, b.x);
      DivideCancels(a.y, b.y);
      DivideCancels(a.z, b.z);
      DivideCancels(a.w, b.w);
    }

    /** `add`, `sub` and `dot` compute what the generic vector operations compute. */
    static lemma AgreesWithGeneric(a: Vector4, b: Vector4)
      ensures Add(a, b).AsGeneric() == Vector.Vector4.Add(a.AsGeneric(), b.AsGeneric())
      ensures Sub(a, b).AsGeneric() == Vector.Vector4.Sub(a.AsGeneric(), b.AsGeneric())
      ensures Dot(a, b) == Vector.Vector4.Dot(a.AsGeneric(), b.AsGeneric())
    {
    }

    /** Multiplying by the broadcast of `s` is the generic multiplication by the scalar `s`. */
    static lemma MulFromIsScalarMul(a: Vector4, s: real)
      ensures Mul(a, From(s)).AsGeneric() == Vector.Vector4.MulScalar(a.AsGeneric(), s)
    {
    }

    /** `dot` adds up the components of the componentwise product. */
    static lemma DotIsSumOfMul(a: Vector4, b: Vector4)
      ensures Dot(a, b) == Dot(Mul(a, b), From(1.0))
    {
    }

    /** `dot(v, v)` is never negative. */
    static lemma DotSelfNonNegative(v: Vector4)
      ensures Dot(v, v) >= 0.0
    {
      AgreesWithGeneric(v, v);
      Vector.Vector4.DotSelfNonNegative(v.AsGeneric());
    }
  }

  /** Dividing by a nonzero `b` and multiplying by it cancel, in either order. */
  lemma DivideCancels(a: real, b: real)
    requires b != 0.0
    ensures (a * b) / b == a
    ensures (a / b) * b == a
  {
  }

  /** A mutable `Vector2` place, the `&mut self` of the compound assignment operators. */
  class Vector2Cell {
    var value: Vector2

    constructor (v: Vector2)
      ensures value == v
    {
      value := v;
    }

    /** `self += rhs` */
    method AddAssign(rhs: Vector2)
      modifies this
      ensures value == Vector2.Add(old(value), rhs)
    {
      value := Vector2.Add(value, rhs);
    }

    /** `self -= rhs` */
    method SubAssign(rhs: Vector2)
      modifies this
      ensures value == Vector2.Sub(old(value), rhs)
    {
      value := Vector2.Sub(value, rhs);
    }

    /** `self *= rhs`, component by component. */
    method MulAssign(rhs: Vector2)
      modifies this
      ensures value == Vector2.Mul(old(value), rhs)
    {
      value := Vector2.Mul(value, rhs);
    }

    /** `self /= rhs`, component by component. */
    method DivAssign(rhs: Vector2)
      requires rhs.NonZero()
      modifies this
      ensures value == Vector2.Div(old(value), rhs)
    {
      value := Vector2.Div(value, rhs);
    }
  }

  /** A mutable `Vector3` place, the `&mut self` of the compound assignment operators. */
  class Vector3Cell {
    var value: Vector3

    constructor (v: Vector3)
      ensures value == v
    {
      value := v;
    }

    /** `self += rhs` */
    method AddAssign(rhs: Vector3)
      modifies this
      ensures value == Vector3.Add(old(value), rhs)
    {
      value := Vector3.Add(value, rhs);
    }

    /** `self -= rhs` */
    method SubAssign(rhs: Vector3)
      modifies this
      ensures value == Vector3.Sub(old(value), rhs)
    {
      value := Vector3.Sub(value, rhs);
    }

    /** `self *= rhs`, component by component. */
    method MulAssign(rhs: Vector3)
      modifies this
      ensures value == Vector3.Mul(old(value), rhs)
    {
      value := Vector3.Mul(value, rhs);
    }

    /** `self /= rhs`, component by component. */
    method DivAssign(rhs: Vector3)
      requires rhs.NonZero()
      modifies this
      ensures value == Vector3.Div(old(value), rhs)
    {
      value := Vector3.Div(value, rhs);
    }
  }

  /** A mutable `Vector4` place, the `&mut self` of the compound assignment operators. */
  class Vector4Cell {
    var value: Vector4

    constructor (v: Vector4)
      ensures value == v
    {
      value := v;
    }

    /** `self += rhs` */
    method AddAssign(rhs: Vector4)
      modifies this
      ensures value == Vector4.Add(old(value), rhs)
    {
      value := Vector4.Add(value, rhs);
    }

    /** `self -= rhs` */
    method SubAssign(rhs: Vector4)
      modifies this
      ensures value == Vector4.Sub(old(value), rhs)
    {
      value := Vector4.Sub(value, rhs);
    }

    /** `self *= rhs`, component by component. */
    method MulAssign(rhs: Vector4)
      modifies this
      ensures value == Vector4.Mul(old(value), rhs)
    {
      value := Vector4.Mul(value, rhs);
    }

    /** `self /= rhs`, component by component. */
    method DivAssign(rhs: Vector4)
      requires rhs.NonZero()
      modifies this
      ensures value == Vector4.Div(old(value), rhs)
    {
      value := Vector4.Div(value, rhs);
    }
  }
}
