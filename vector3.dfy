/** The engine's own three-component vector (Vector3.cs), a C# struct: a value type. */
module Vectors {
  import Mathf

  datatype Vector3 = Vector3(x: real, y: real, z: real)

  /** default(Vector3): all components zero. */
  const Zero: Vector3 := Vector3(0.0, 0.0, 0.0)

  const Up: Vector3 := Vector3(0.0, 1.0, 0.0)

  /** The private isZero helper: |value| below the tolerance 10^-6. */
  predicate IsZero(value: real)
    ensures IsZero(value) <==> Mathf.IsZero(value)
  {
    Mathf.Abs(value) < Mathf.ZeroTolerance
  }

  function Dot(left: Vector3, right: Vector3): (r: real)
    ensures left == right ==> r >= 0.0
  {
    SumOfSquares(left);
    left.x * right.x + left.y * right.y + left.z * right.z
  }

  /** A sum of three squares is non-negative. */
  lemma SumOfSquares(v: Vector3)
    ensures v.x * v.x + v.y * v.y + v.z * v.z >= 0.0
  {
    Square(v.x);
    Square(v.y);
    Square(v.z);
  }

  lemma Square(a: real)
    ensures a * a >= 0.0
  {
    if a < 0.0 {
      var b := -a;
      assert b * b > 0.0;
      assert a * a == b * b;
    }
  }

  /** Euclidean length; the square root is a parameter of the model, applied to the squared length. */
  function Magnitude(v: Vector3, sqrt: real -> real): (r: real)
    ensures r == sqrt(Dot(v, v))
  {
    assert Dot(v, v) == v.x * v.x + v.y * v.y + v.z * v.z;
    sqrt(v.x * v.x + v.y * v.y + v.z * v.z)
  }

  function Scale(v: Vector3, k: real): Vector3
  {
    Vector3(v.x * k, v.y * k, v.z * k)
  }

  /** The value of a vector after Normalize(): unchanged when its magnitude is within the zero
      tolerance, otherwise every component multiplied by one and the same factor 1/magnitude. */
  function Normalized(v: Vector3, sqrt: real -> real): (r: Vector3)
    ensures IsZero(Magnitude(v, sqrt)) ==> r == v
    ensures !IsZero(Magnitude(v, sqrt)) ==>
      Magnitude(v, sqrt) != 0.0 && r == Scale(v, 1.0 / Magnitude(v, sqrt))
  {
    var magnitude := Magnitude(v, sqrt);
    if IsZero(magnitude) then v
    else
      var inverseMagnitude := 1.0 / magnitude;
      Vector3(v.x * inverseMagnitude, v.y * inverseMagnitude, v.z * inverseMagnitude)
  }

  /** Normalize() updates the struct's three fields in place, one after the other; the
      model returns the updated struct value. */
  method Normalize(v: Vector3, sqrt: real -> real) returns (r: Vector3)
    ensures r == Normalized(v, sqrt)
  {
    r := v;
    var magnitude := Magnitude(r, sqrt);
    if !IsZero(magnitude) {
      var inverseMagnitude := 1.0 / magnitude;
      r := r.(x := r.x * inverseMagnitude);
      r := r.(y := r.y * inverseMagnitude);
      r := r.(z := r.z * inverseMagnitude);
    }
  }

  /** Zero normalizes to Zero whatever the square root: either it is left unchanged, or each of
      its zero components is scaled. */
  lemma NormalizedZero(sqrt: real -> real)
    ensures Normalized(Zero, sqrt) == Zero
  {
  }

  /** With the true square root, a vector whose magnitude is above the tolerance is normalised
      to unit length. */
  lemma {:induction false} NormalizedIsUnit(v: Vector3, sqrt: real -> real)
    requires sqrt(Dot(v, v)) >= 0.0 && sqrt(Dot(v, v)) * sqrt(Dot(v, v)) == Dot(v, v)
    requires !IsZero(Magnitude(v, sqrt))
    ensures Dot(Normalized(v, sqrt), Normalized(v, sqrt)) == 1.0
  {
    var m := Magnitude(v, sqrt);
    var k := 1.0 / m;
    var r := Normalized(v, sqrt);
    assert r == Scale(v, k);
    calc {
      Dot(r, r);
      (v.x * k) * (v.x * k) + (v.y * k) * (v.y * k) + (v.z * k) * (v.z * k);
      { assert (v.x * k) * (v.x * k) == (v.x * v.x) * (k * k);
        assert (v.y * k) * (v.y * k) == (v.y * v.y) * (k * k);
        assert (v.z * k) * (v.z * k) == (v.z * v.z) * (k * k); }
      Dot(v, v) * (k * k);
      m * m * (k * k);
      (m * k) * (m * k);
      { assert m * k == 1.0; }
      1.0;
    }
  }

  function Cross(left: Vector3, right: Vector3): (r: Vector3)
    ensures Dot(r, left) == 0.0 && Dot(r, right) == 0.0
  {
    Vector3(left.y * right.z - left.z * right.y,
            left.z * right.x - left.x * right.z,
            left.x * right.y - left.y * right.x)
  }

  /** operator -: component-wise difference. */
  function Sub(left: Vector3, right: Vector3): (r: Vector3)
    ensures left == right ==> r == Zero
    ensures Add(r, right) == left
  {
    Vector3(left.x - right.x, left.y - right.y, left.z - right.z)
  }

  function Add(left: Vector3, right: Vector3): Vector3
  {
    Vector3(left.x + right.x, left.y + right.y, left.z + right.z)
  }

  function Neg(v: Vector3): Vector3
  {
    Vector3(-v.x, -v.y, -v.z)
  }

  lemma DotSymmetric(a: Vector3, b: Vector3)
    ensures Dot(a, b) == Dot(b, a)
  {
  }

  lemma CrossAntiSymmetric(a: Vector3, b: Vector3)
    ensures Cross(a, b) == Neg(Cross(b, a))
    ensures Cross(a, a) == Zero
  {
  }

  lemma ConstantsValues()
    ensures Zero.x == 0.0 && Zero.y == 0.0 && Zero.z == 0.0
    ensures Up.x == 0.0 && Up.y == 1.0 && Up.z == 0.0
    ensures Dot(Up, Up) == 1.0
  {
  }
}
