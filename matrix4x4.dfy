/** The engine's row-major 4x4 homogeneous transform (Matrix4x4.cs). Points are row vectors
    multiplied on the left: p * M, so in A * B the transform A applies first. */
module Matrices {
  import opened Vectors

  /** Quaternion components; only their use by CreateRotation is modelled. */
  datatype Quaternion = Quaternion(x: real, y: real, z: real, w: real)

  /** An intermediate homogeneous point. */
  datatype Vector4 = Vector4(x: real, y: real, z: real, w: real)

  datatype Matrix4x4 = Matrix4x4(
    m00: real, m01: real, m02: real, m03: real,
    m10: real, m11: real, m12: real, m13: real,
    m20: real, m21: real, m22: real, m23: real,
    m30: real, m31: real, m32: real, m33: real)

  /** new Matrix4x4(): every entry zero. */
  const ZeroMatrix: Matrix4x4 := Matrix4x4(
    0.0, 0.0, 0.0, 0.0,
    0.0, 0.0, 0.0, 0.0,
    0.0, 0.0, 0.0, 0.0,
    0.0, 0.0, 0.0, 0.0)

  const Identity: Matrix4x4 := ZeroMatrix.(m00 := 1.0, m11 := 1.0, m22 := 1.0, m33 := 1.0)

  /** Row i of a matrix, as a homogeneous vector. */
  function Row(m: Matrix4x4, i: nat): Vector4
    requires i < 4
  {
    if i == 0 then Vector4(m.m00, m.m01, m.m02, m.m03)
    else if i == 1 then Vector4(m.m10, m.m11, m.m12, m.m13)
    else if i == 2 then Vector4(m.m20, m.m21, m.m22, m.m23)
    else Vector4(m.m30, m.m31, m.m32, m.m33)
  }

  /** A matrix is determined by its four rows. */
  lemma RowsDetermine(a: Matrix4x4, b: Matrix4x4)
    requires Row(a, 0) == Row(b, 0) && Row(a, 1) == Row(b, 1)
    requires Row(a, 2) == Row(b, 2) && Row(a, 3) == Row(b, 3)
    ensures a == b
  {
  }

  /** The fourth column is (0, 0, 0, 1): the matrix is affine and its divisor is always 1. */
  predicate IsAffine(m: Matrix4x4)
  {
    m.m03 == 0.0 && m.m13 == 0.0 && m.m23 == 0.0 && m.m33 == 1.0
  }

  /** The row vector v times m. */
  function Transform(v: Vector4, m: Matrix4x4): Vector4
  {
    Vector4(v.x * m.m00 + v.y * m.m10 + v.z * m.m20 + v.w * m.m30,
            v.x * m.m01 + v.y * m.m11 + v.z * m.m21 + v.w * m.m31,
            v.x * m.m02 + v.y * m.m12 + v.z * m.m22 + v.w * m.m32,
            v.x * m.m03 + v.y * m.m13 + v.z * m.m23 + v.w * m.m33)
  }

  function Point(p: Vector3): Vector4
  {
    Vector4(p.x, p.y, p.z, 1.0)
  }

  /** The number MultiplyPoint takes the reciprocal of. */
  function Divisor(m: Matrix4x4, p: Vector3): real
  {
    p.x * m.m03 + p.y * m.m13 + p.z * m.m23 + m.m33
  }

  /** Transform with perspective divide: the three affine components, each multiplied by the
      reciprocal of the homogeneous divisor. */
  function MultiplyPoint(m: Matrix4x4, point: Vector3): (r: Vector3)
    requires Divisor(m, point) != 0.0
    ensures var h := Transform(Point(point), m);
      h.w == Divisor(m, point) && r == Vector3(h.x / h.w, h.y / h.w, h.z / h.w)
  {
    var x := (point.x * m.m00) + (point.y * m.m10) + (point.z * m.m20) + m.m30;
    var y := (point.x * m.m01) + (point.y * m.m11) + (point.z * m.m21) + m.m31;
    var z := (point.x * m.m02) + (point.y * m.m12) + (point.z * m.m22) + m.m32;
    var w := 1.0 / ((point.x * m.m03) + (point.y * m.m13) + (point.z * m.m23) + m.m33);
    Vector3(x * w, y * w, z * w)
  }


  /** The rotation matrix of a quaternion (Identity with the upper 3x3 block overwritten). */
  function CreateRotation(q: Quaternion): (r: Matrix4x4)
    ensures IsAffine(r) && r.m30 == 0.0 && r.m31 == 0.0 && r.m32 == 0.0
    ensures q == Quaternion(0.0, 0.0, 0.0, 1.0) ==> r == Identity
  {
    Identity.(
      m00 := 1.0 - (2.0 * (q.y * q.y + q.z * q.z)),
      m01 := 2.0 * (q.x * q.y + q.z * q.w),
      m02 := 2.0 * (q.x * q.z - q.y * q.w),
      m10 := 2.0 * (q.x * q.y - q.z * q.w),
      m11 := 1.0 - (2.0 * (q.x * q.x + q.z * q.z)),
      m12 := 2.0 * (q.y * q.z + q.x * q.w),
      m20 := 2.0 * (q.x * q.z + q.y * q.w),
      m21 := 2.0 * (q.y * q.z - q.x * q.w),
      m22 := 1.0 - (2.0 * (q.x * q.x + q.y * q.y)))
  }

  /** Row i of the upper 3x3 block. */
  function Row3(m: Matrix4x4, i: nat): Vector3
    requires i < 3
  {
    if i == 0 then Vector3(m.m00, m.m01, m.m02)
    else if i == 1 then Vector3(m.m10, m.m11, m.m12)
    else Vector3(m.m20, m.m21, m.m22)
  }

  /** A unit quaternion gives a rotation: the rows of the upper 3x3 block are unit vectors and
      pairwise orthogonal. */
  lemma {:induction false} RotationOrthonormal(q: Quaternion)
    requires q.x * q.x + q.y * q.y + q.z * q.z + q.w * q.w == 1.0
    ensures var r := CreateRotation(q);
      Dot(Row3(r, 0), Row3(r, 0)) == 1.0 && Dot(Row3(r, 1), Row3(r, 1)) == 1.0 &&
      Dot(Row3(r, 2), Row3(r, 2)) == 1.0
    ensures var r := CreateRotation(q);
      Dot(Row3(r, 0), Row3(r, 1)) == 0.0 && Dot(Row3(r, 0), Row3(r, 2)) == 0.0 &&
      Dot(Row3(r, 1), Row3(r, 2)) == 0.0
  {
    RotationRowUnit0(q);
    RotationRowUnit1(q);
    RotationRowUnit2(q);
    RotationRowsOrthogonal01(q);
    RotationRowsOrthogonal02(q);
    RotationRowsOrthogonal12(q);
  }

  lemma {:induction false} RotationRowUnit0(q: Quaternion)
    requires q.x * q.x + q.y * q.y + q.z * q.z + q.w * q.w == 1.0
    ensures Dot(Row3(CreateRotation(q), 0), Row3(CreateRotation(q), 0)) == 1.0
  {
    RotationSquares0(q);
    UnitRowCombine(q.y * q.y + q.z * q.z, q.x * q.x + q.w * q.w, q.x * q.y + q.z * q.w, q.x * q.z - q.y * q.w);
  }

  lemma RotationSquares0(q: Quaternion)
    ensures (q.x * q.y + q.z * q.w) * (q.x * q.y + q.z * q.w) + (q.x * q.z - q.y * q.w) * (q.x * q.z - q.y * q.w) == (q.x * q.x + q.w * q.w) * (q.y * q.y + q.z * q.z)
  {
  }

  lemma {:induction false} RotationRowUnit1(q: Quaternion)
    requires q.x * q.x + q.y * q.y + q.z * q.z + q.w * q.w == 1.0
    ensures Dot(Row3(CreateRotation(q), 1), Row3(CreateRotation(q), 1)) == 1.0
  {
    RotationSquares1(q);
    UnitRowCombine(q.x * q.x + q.z * q.z, q.y * q.y + q.w * q.w, q.x * q.y - q.z * q.w, q.y * q.z + q.x * q.w);
  }

  lemma RotationSquares1(q: Quaternion)
    ensures (q.x * q.y - q.z * q.w) * (q.x * q.y - q.z * q.w) + (q.y * q.z + q.x * q.w) * (q.y * q.z + q.x * q.w) == (q.y * q.y + q.w * q.w) * (q.x * q.x + q.z * q.z)
  {
  }

  lemma {:induction false} RotationRowUnit2(q: Quaternion)
    requires q.x * q.x + q.y * q.y + q.z * q.z + q.w * q.w == 1.0
    ensures Dot(Row3(CreateRotation(q), 2), Row3(CreateRotation(q), 2)) == 1.0
  {
    RotationSquares2(q);
    UnitRowCombine(q.x * q.x + q.y * q.y, q.z * q.z + q.w * q.w, q.x * q.z + q.y * q.w, q.y * q.z - q.x * q.w);
  }

  lemma RotationSquares2(q: Quaternion)
    ensures (q.x * q.z + q.y * q.w) * (q.x * q.z + q.y * q.w) + (q.y * q.z - q.x * q.w) * (q.y * q.z - q.x * q.w) == (q.z * q.z + q.w * q.w) * (q.x * q.x + q.y * q.y)
  {
  }

  lemma {:induction false} RotationRowsOrthogonal01(q: Quaternion)
    requires q.x * q.x + q.y * q.y + q.z * q.z + q.w * q.w == 1.0
    ensures Dot(Row3(CreateRotation(q), 0), Row3(CreateRotation(q), 1)) == 0.0
  {
    RotationCross01(q);
    OrthogonalRowCombine(q.y * q.y + q.z * q.z, q.x * q.x + q.z * q.z, q.x * q.y - q.z * q.w, q.x * q.y + q.z * q.w, q.x * q.z - q.y * q.w, q.y * q.z + q.x * q.w, q.x * q.y);
  }

  lemma RotationCross01(q: Quaternion)
    ensures (q.y * q.y + q.z * q.z) * (q.x * q.y - q.z * q.w) + (q.x * q.y + q.z * q.w) * (q.x * q.x + q.z * q.z) - (q.x * q.z - q.y * q.w) * (q.y * q.z + q.x * q.w) == q.x * q.y * (q.x * q.x + q.y * q.y + q.z * q.z + q.w * q.w)
  {
  }

  lemma {:induction false} RotationRowsOrthogonal02(q: Quaternion)
    requires q.x * q.x + q.y * q.y + q.z * q.z + q.w * q.w == 1.0
    ensures Dot(Row3(CreateRotation(q), 0), Row3(CreateRotation(q), 2)) == 0.0
  {
    RotationCross02(q);
    OrthogonalRowCombine(q.y * q.y + q.z * q.z, q.x * q.x + q.y * q.y, q.x * q.z + q.y * q.w, q.x * q.z - q.y * q.w, q.x * q.y + q.z * q.w, q.y * q.z - q.x * q.w, q.x * q.z);
  }

  lemma RotationCross02(q: Quaternion)
    ensures (q.y * q.y + q.z * q.z) * (q.x * q.z + q.y * q.w) + (q.x * q.z - q.y * q.w) * (q.x * q.x + q.y * q.y) - (q.x * q.y + q.z * q.w) * (q.y * q.z - q.x * q.w) == q.x * q.z * (q.x * q.x + q.y * q.y + q.z * q.z + q.w * q.w)
  {
  }

  lemma {:induction false} RotationRowsOrthogonal12(q: Quaternion)
    requires q.x * q.x + q.y * q.y + q.z * q.z + q.w * q.w == 1.0
    ensures Dot(Row3(CreateRotation(q), 1), Row3(CreateRotation(q), 2)) == 0.0
  {
    RotationCross12(q);
    OrthogonalRowCombine(q.x * q.x + q.z * q.z, q.x * q.x + q.y * q.y, q.y * q.z - q.x * q.w, q.y * q.z + q.x * q.w, q.x * q.y - q.z * q.w, q.x * q.z + q.y * q.w, q.y * q.z);
  }

  lemma RotationCross12(q: Quaternion)
    ensures (q.x * q.x + q.z * q.z) * (q.y * q.z - q.x * q.w) + (q.y * q.z + q.x * q.w) * (q.x * q.x + q.y * q.y) - (q.x * q.y - q.z * q.w) * (q.x * q.z + q.y * q.w) == q.y * q.z * (q.x * q.x + q.y * q.y + q.z * q.z + q.w * q.w)
  {
  }

  /** The scalar step of a unit row: (1 - 2s)^2 + (2p)^2 + (2r)^2 == 1 when s + t == 1 and
      p^2 + r^2 == t * s. */
  lemma UnitRowCombine(s: real, t: real, p: real, r: real)
    requires s + t == 1.0 && p * p + r * r == t * s
    ensures (1.0 - 2.0 * s) * (1.0 - 2.0 * s) + (2.0 * p) * (2.0 * p) + (2.0 * r) * (2.0 * r) == 1.0
  {
  }

  /** The scalar step of two orthogonal rows. */
  lemma OrthogonalRowCombine(s: real, t: real, p: real, q: real, r: real, u: real, k: real)
    requires p + q == 2.0 * k && s * p + q * t - r * u == k
    ensures (1.0 - 2.0 * s) * (2.0 * p) + (2.0 * q) * (1.0 - 2.0 * t) + (2.0 * r) * (2.0 * u) == 0.0
  {
  }

  /** Identity with the translation row set to the position. */
  function CreateTranslation(position: Vector3): (r: Matrix4x4)
    ensures IsAffine(r)
    ensures Row3(r, 0) == Vector3(1.0, 0.0, 0.0) && Row3(r, 1) == Vector3(0.0, 1.0, 0.0)
    ensures Row3(r, 2) == Vector3(0.0, 0.0, 1.0)
    ensures r.m30 == position.x && r.m31 == position.y && r.m32 == position.z
  {
    Identity.(m30 := position.x, m31 := position.y, m32 := position.z)
  }

  /** operator *: the row-times-column product. */
  function Mul(left: Matrix4x4, right: Matrix4x4): (r: Matrix4x4)
    ensures IsAffine(left) && IsAffine(right) ==> IsAffine(r)
  {
    Matrix4x4(
      (left.m00 * right.m00) + (left.m01 * right.m10) + (left.m02 * right.m20) + (left.m03 * right.m30),
      (left.m00 * right.m01) + (left.m01 * right.m11) + (left.m02 * right.m21) + (left.m03 * right.m31),
      (left.m00 * right.m02) + (left.m01 * right.m12) + (left.m02 * right.m22) + (left.m03 * right.m32),
      (left.m00 * right.m03) + (left.m01 * right.m13) + (left.m02 * right.m23) + (left.m03 * right.m33),
      (left.m10 * right.m00) + (left.m11 * right.m10) + (left.m12 * right.m20) + (left.m13 * right.m30),
      (left.m10 * right.m01) + (left.m11 * right.m11) + (left.m12 * right.m21) + (left.m13 * right.m31),
      (left.m10 * right.m02) + (left.m11 * right.m12) + (left.m12 * right.m22) + (left.m13 * right.m32),
      (left.m10 * right.m03) + (left.m11 * right.m13) + (left.m12 * right.m23) + (left.m13 * right.m33),
      (left.m20 * right.m00) + (left.m21 * right.m10) + (left.m22 * right.m20) + (left.m23 * right.m30),
      (left.m20 * right.m01) + (left.m21 * right.m11) + (left.m22 * right.m21) + (left.m23 * right.m31),
      (left.m20 * right.m02) + (left.m21 * right.m12) + (left.m22 * right.m22) + (left.m23 * right.m32),
      (left.m20 * right.m03) + (left.m21 * right.m13) + (left.m22 * right.m23) + (left.m23 * right.m33),
      (left.m30 * right.m00) + (left.m31 * right.m10) + (left.m32 * right.m20) + (left.m33 * right.m30),
      (left.m30 * right.m01) + (left.m31 * right.m11) + (left.m32 * right.m21) + (left.m33 * right.m31),
      (left.m30 * right.m02) + (left.m31 * right.m12) + (left.m32 * right.m22) + (left.m33 * right.m32),
      (left.m30 * right.m03) + (left.m31 * right.m13) + (left.m32 * right.m23) + (left.m33 * right.m33))
  }

  /** Row i of left * right is row i of left, as a row vector, times right. */
  lemma MulRows(left: Matrix4x4, right: Matrix4x4)
    ensures Row(Mul(left, right), 0) == Transform(Row(left, 0), right)
    ensures Row(Mul(left, right), 1) == Transform(Row(left, 1), right)
    ensures Row(Mul(left, right), 2) == Transform(Row(left, 2), right)
    ensures Row(Mul(left, right), 3) == Transform(Row(left, 3), right)
  {
    MulRow0(left, right);
    MulRow1(left, right);
    MulRow2(left, right);
    MulRow3(left, right);
  }

  lemma MulRow0(left: Matrix4x4, right: Matrix4x4)
    ensures Row(Mul(left, right), 0) == Transform(Row(left, 0), right)
  {
  }

  lemma MulRow1(left: Matrix4x4, right: Matrix4x4)
    ensures Row(Mul(left, right), 1) == Transform(Row(left, 1), right)
  {
  }

  lemma MulRow2(left: Matrix4x4, right: Matrix4x4)
    ensures Row(Mul(left, right), 2) == Transform(Row(left, 2), right)
  {
  }

  lemma MulRow3(left: Matrix4x4, right: Matrix4x4)
    ensures Row(Mul(left, right), 3) == Transform(Row(left, 3), right)
  {
  }

  lemma IdentityIsUnit(m: Matrix4x4)
    ensures Mul(Identity, m) == m
    ensures Mul(m, Identity) == m
  {
  }

  lemma IdentityMultiplyPoint(p: Vector3)
    ensures Divisor(Identity, p) == 1.0
    ensures MultiplyPoint(Identity, p) == p
  {
  }

  /** CreateTranslation(t).MultiplyPoint(p) is p + t. */
  lemma TranslationMultiplyPoint(t: Vector3, p: Vector3)
    ensures Divisor(CreateTranslation(t), p) == 1.0
    ensures MultiplyPoint(CreateTranslation(t), p) == Add(p, t)
  {
  }

  lemma TranslationsCompose(a: Vector3, b: Vector3)
    ensures Mul(CreateTranslation(a), CreateTranslation(b)) == CreateTranslation(Add(a, b))
  {
  }

  /** Transforming by a product is transforming by each factor in turn. */
  lemma {:induction false} TransformMul(v: Vector4, a: Matrix4x4, b: Matrix4x4)
    ensures Transform(v, Mul(a, b)) == Transform(Transform(v, a), b)
  {
    TransformColumn(v, a, Vector4(b.m00, b.m10, b.m20, b.m30));
    TransformColumn(v, a, Vector4(b.m01, b.m11, b.m21, b.m31));
    TransformColumn(v, a, Vector4(b.m02, b.m12, b.m22, b.m32));
    TransformColumn(v, a, Vector4(b.m03, b.m13, b.m23, b.m33));
  }

  /** The row vector v times a, dotted with a column c, is v dotted with a times c. */
  lemma {:induction false} TransformColumn(v: Vector4, a: Matrix4x4, c: Vector4)
    ensures Dot4(Transform(v, a), c) == Dot4(v, Vector4(Dot4(Row(a, 0), c), Dot4(Row(a, 1), c), Dot4(Row(a, 2), c), Dot4(Row(a, 3), c)))
  {
    ColumnSideExpanded(v, a, c);
    RowSideExpanded(v, a, c);
    Regroup(v.x, v.y, v.z, v.w, c.x, c.y, c.z, c.w,
            a.m00, a.m01, a.m02, a.m03, a.m10, a.m11, a.m12, a.m13,
            a.m20, a.m21, a.m22, a.m23, a.m30, a.m31, a.m32, a.m33);
  }

  lemma ColumnSideExpanded(v: Vector4, a: Matrix4x4, c: Vector4)
    ensures Dot4(Transform(v, a), c) ==
      (v.x * a.m00 + v.y * a.m10 + v.z * a.m20 + v.w * a.m30) * c.x +
      (v.x * a.m01 + v.y * a.m11 + v.z * a.m21 + v.w * a.m31) * c.y +
      (v.x * a.m02 + v.y * a.m12 + v.z * a.m22 + v.w * a.m32) * c.z +
      (v.x * a.m03 + v.y * a.m13 + v.z * a.m23 + v.w * a.m33) * c.w
  {
  }

  lemma RowSideExpanded(v: Vector4, a: Matrix4x4, c: Vector4)
    ensures Dot4(v, Vector4(Dot4(Row(a, 0), c), Dot4(Row(a, 1), c), Dot4(Row(a, 2), c), Dot4(Row(a, 3), c))) ==
      v.x * (a.m00 * c.x + a.m01 * c.y + a.m02 * c.z + a.m03 * c.w) +
      v.y * (a.m10 * c.x + a.m11 * c.y + a.m12 * c.z + a.m13 * c.w) +
      v.z * (a.m20 * c.x + a.m21 * c.y + a.m22 * c.z + a.m23 * c.w) +
      v.w * (a.m30 * c.x + a.m31 * c.y + a.m32 * c.z + a.m33 * c.w)
  {
  }

  /** The sum of v_i * a_ij * c_j grouped by column equals it grouped by row. */
  lemma Regroup(v0: real, v1: real, v2: real, v3: real, c0: real, c1: real, c2: real, c3: real,
                a00: real, a01: real, a02: real, a03: real, a10: real, a11: real, a12: real, a13: real,
                a20: real, a21: real, a22: real, a23: real, a30: real, a31: real, a32: real, a33: real)
    ensures (v0 * a00 + v1 * a10 + v2 * a20 + v3 * a30) * c0 +
            (v0 * a01 + v1 * a11 + v2 * a21 + v3 * a31) * c1 +
            (v0 * a02 + v1 * a12 + v2 * a22 + v3 * a32) * c2 +
            (v0 * a03 + v1 * a13 + v2 * a23 + v3 * a33) * c3 ==
            v0 * (a00 * c0 + a01 * c1 + a02 * c2 + a03 * c3) +
            v1 * (a10 * c0 + a11 * c1 + a12 * c2 + a13 * c3) +
            v2 * (a20 * c0 + a21 * c1 + a22 * c2 + a23 * c3) +
            v3 * (a30 * c0 + a31 * c1 + a32 * c2 + a33 * c3)
  {
  }

  function Dot4(a: Vector4, b: Vector4): real
  {
    a.x * b.x + a.y * b.y + a.z * b.z + a.w * b.w
  }

  /** Matrix product is associative, so world * view * projection needs no parentheses. */
  lemma {:induction false} MulAssociative(a: Matrix4x4, b: Matrix4x4, c: Matrix4x4)
    ensures Mul(Mul(a, b), c) == Mul(a, Mul(b, c))
  {
    TransformMul(Row(a, 0), b, c);
    TransformMul(Row(a, 1), b, c);
    TransformMul(Row(a, 2), b, c);
    TransformMul(Row(a, 3), b, c);
    MulRows(a, b);
    MulRows(Mul(a, b), c);
    MulRows(b, c);
    MulRows(a, Mul(b, c));
    RowsDetermine(Mul(Mul(a, b), c), Mul(a, Mul(b, c)));
  }

  /** With an affine first factor, (A * B).MultiplyPoint(p) is B.MultiplyPoint(A.MultiplyPoint(p)). */
  lemma {:induction false} MultiplyPointMul(a: Matrix4x4, b: Matrix4x4, p: Vector3)
    requires IsAffine(a)
    requires Divisor(Mul(a, b), p) != 0.0
    ensures Divisor(a, p) == 1.0
    ensures Divisor(b, MultiplyPoint(a, p)) == Divisor(Mul(a, b), p)
    ensures MultiplyPoint(Mul(a, b), p) == MultiplyPoint(b, MultiplyPoint(a, p))
  {
    var q := MultiplyPoint(a, p);
    var h := Transform(Point(p), a);
    assert h.w == 1.0;
    assert h == Point(q);
    TransformMul(Point(p), a, b);
    var hab := Transform(Point(p), Mul(a, b));
    assert hab == Transform(Point(q), b);
    DivisorIsW(Mul(a, b), p);
    DivisorIsW(b, q);
  }

  /** The divisor is the w component of the transformed point. */
  lemma DivisorIsW(m: Matrix4x4, p: Vector3)
    ensures Transform(Point(p), m).w == Divisor(m, p)
  {
  }
}
