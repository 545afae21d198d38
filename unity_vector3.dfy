/** UnityVector3 (UnityVector3.cs): a second struct with the same members as Vector3, the
    element type of Mesh's vertex array. */
module UnityVectors {
  import Mathf
  import Vectors

  datatype UnityVector3 = UnityVector3(x: real, y: real, z: real)

  const Zero: UnityVector3 := UnityVector3(0.0, 0.0, 0.0)

  const Up: UnityVector3 := UnityVector3(0.0, 1.0, 0.0)

  predicate IsZero(value: real)
    ensures IsZero(value) <==> Mathf.IsZero(value)
  {
    Mathf.Abs(value) < Mathf.ZeroTolerance
  }

  function Dot(left: UnityVector3, right: UnityVector3): (r: real)
    ensures left == right ==> r >= 0.0
  {
    Vectors.SumOfSquares(ToVector3(left));
    left.x * right.x + left.y * right.y + left.z * right.z
  }

  function Magnitude(v: UnityVector3, sqrt: real -> real): (r: real)
    ensures r == sqrt(Dot(v, v))
  {
    assert Dot(v, v) == v.x * v.x + v.y * v.y + v.z * v.z;
    sqrt(v.x * v.x + v.y * v.y + v.z * v.z)
  }

  /** The value after Normalize(): unchanged within the zero tolerance, otherwise every
      component scaled by the same factor 1/magnitude. */
  function Normalized(v: UnityVector3, sqrt: real -> real): (r: UnityVector3)
    ensures IsZero(Magnitude(v, sqrt)) ==> r == v
    ensures !IsZero(Magnitude(v, sqrt)) ==>
      var k := 1.0 / Magnitude(v, sqrt);
      r == UnityVector3(v.x * k, v.y * k, v.z * k)
  {
    var magnitude := Magnitude(v, sqrt);
    if IsZero(magnitude) then v
    else
      var inverseMagnitude := 1.0 / magnitude;
      UnityVector3(v.x * inverseMagnitude, v.y * inverseMagnitude, v.z * inverseMagnitude)
  }

  /** Normalize() rewrites the struct's fields in place; the model returns the new value. */
  method Normalize(v: UnityVector3, sqrt: real -> real) returns (r: UnityVector3)
    ensures r == Normalized(v, sqrt)
  {
    r := v;
    var magnitude := Magnitude(r, sqrt);
    if !IsZero(magnitude) {
      var inverseMagnitude := 1.0 / magnitude;
      r := r.(x := r.x * inverseMagnitude);
      r := r.(y := r.y * inverseMagnitude);
      r := r.(z := r.z * inverseMagnitude);
    }
  }

  function Cross(left: UnityVector3, right: UnityVector3): (r: UnityVector3)
    ensures Dot(r, left) == 0.0 && Dot(r, right) == 0.0
    ensures left == right ==> r == Zero
  {
    UnityVector3(left.y * right.z - left.z * right.y,
                 left.z * right.x - left.x * right.z,
                 left.x * right.y - left.y * right.x)
  }

  function Sub(left: UnityVector3, right: UnityVector3): (r: UnityVector3)
    ensures left == right ==> r == Zero
    ensures UnityVector3(r.x + right.x, r.y + right.y, r.z + right.z) == left
  {
    UnityVector3(left.x - right.x, left.y - right.y, left.z - right.z)
  }

  lemma DotSymmetric(a: UnityVector3, b: UnityVector3)
    ensures Dot(a, b) == Dot(b, a)
  {
  }

  lemma CrossAntiSymmetric(a: UnityVector3, b: UnityVector3)
    ensures Cross(a, b) == FromVector3(Vectors.Neg(ToVector3(Cross(b, a))))
  {
  }

  /** The component-preserving correspondence between the two vector structs. */
  function ToVector3(v: UnityVector3): (r: Vectors.Vector3)
    ensures FromVector3(r) == v
  {
    Vectors.Vector3(v.x, v.y, v.z)
  }

  function FromVector3(v: Vectors.Vector3): UnityVector3
  {
    UnityVector3(v.x, v.y, v.z)
  }

  /** Every member of UnityVector3 computes what the same member of Vector3 computes. */
  lemma AgreesWithVector3(a: UnityVector3, b: UnityVector3, sqrt: real -> real)
    ensures ToVector3(Zero) == Vectors.Zero && ToVector3(Up) == Vectors.Up
    ensures Dot(a, b) == Vectors.Dot(ToVector3(a), ToVector3(b))
    ensures Magnitude(a, sqrt) == Vectors.Magnitude(ToVector3(a), sqrt)
    ensures ToVector3(Cross(a, b)) == Vectors.Cross(ToVector3(a), ToVector3(b))
    ensures ToVector3(Sub(a, b)) == Vectors.Sub(ToVector3(a), ToVector3(b))
  {
    MagnitudeAgrees(a, sqrt);
  }

  lemma MagnitudeAgrees(a: UnityVector3, sqrt: real -> real)
    ensures Magnitude(a, sqrt) == Vectors.Magnitude(ToVector3(a), sqrt)
  {
    var v := ToVector3(a);
    assert v.x == a.x && v.y == a.y && v.z == a.z;
    assert Dot(a, a) == Vectors.Dot(v, v);
  }

  lemma NormalizedAgreesWithVector3(a: UnityVector3, sqrt: real -> real)
    ensures ToVector3(Normalized(a, sqrt)) == Vectors.Normalized(ToVector3(a), sqrt)
  {
    MagnitudeAgrees(a, sqrt);
  }
}
