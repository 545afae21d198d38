/** The camera of the engine's own pipeline (Camera.cs): a record of settable properties and
    the two matrices derived from it. */
module Cameras {
  import opened Vectors
  import opened Matrices

  datatype Camera = Camera(
    fieldOfView: real,
    aspect: real,
    nearClipPlane: real,
    farClipPlane: real,
    position: Vector3,
    target: Vector3)

  /** What the divisions in CreateProjectionMatrix need: tan(fov/2), the aspect and far - near
      are non-zero (the tangent is a parameter of the model). */
  predicate ProjectionDefined(camera: Camera, tan: real -> real)
  {
    tan(camera.fieldOfView * 0.5) != 0.0 && camera.aspect != 0.0 &&
    camera.farClipPlane != camera.nearClipPlane
  }

  /** A zero matrix with the five perspective entries filled in. */
  function CreateProjectionMatrix(camera: Camera, tan: real -> real): (r: Matrix4x4)
    requires ProjectionDefined(camera, tan)
    ensures r.m01 == 0.0 && r.m02 == 0.0 && r.m03 == 0.0
    ensures r.m10 == 0.0 && r.m12 == 0.0 && r.m13 == 0.0
    ensures r.m20 == 0.0 && r.m21 == 0.0
    ensures r.m30 == 0.0 && r.m31 == 0.0 && r.m33 == 0.0
    ensures r.m23 == 1.0
    ensures r.m11 * tan(camera.fieldOfView * 0.5) == 1.0
    ensures r.m00 * camera.aspect == r.m11
    ensures r.m22 * (camera.farClipPlane - camera.nearClipPlane) == camera.farClipPlane
    ensures r.m32 == -r.m22 * camera.nearClipPlane
  {
    var yScale := 1.0 / tan(camera.fieldOfView * 0.5);
    var q := camera.farClipPlane / (camera.farClipPlane - camera.nearClipPlane);
    ZeroMatrix.(m00 := yScale / camera.aspect, m11 := yScale, m22 := q, m23 := 1.0,
                m32 := -q * camera.nearClipPlane)
  }

  /** A camera-space point on the near plane gets depth 0, one on the far plane depth 1. */
  lemma {:induction false} ProjectionDepthRange(camera: Camera, tan: real -> real, x: real, y: real)
    requires ProjectionDefined(camera, tan)
    requires camera.nearClipPlane != 0.0 && camera.farClipPlane != 0.0
    ensures var p := CreateProjectionMatrix(camera, tan);
      var near, far := Vector3(x, y, camera.nearClipPlane), Vector3(x, y, camera.farClipPlane);
      Divisor(p, near) == camera.nearClipPlane && Divisor(p, far) == camera.farClipPlane &&
      MultiplyPoint(p, near).z == 0.0 && MultiplyPoint(p, far).z == 1.0
  {
    var p := CreateProjectionMatrix(camera, tan);
    var n, f := camera.nearClipPlane, camera.farClipPlane;
    var near, far := Vector3(x, y, n), Vector3(x, y, f);
    ProjectedDepth(camera, tan, near);
    ProjectedDepth(camera, tan, far);
    assert Transform(Point(near), p).z == 0.0;
    assert Transform(Point(far), p).z == f;
  }

  /** The divisor of a projected point is its camera-space depth, and its z component is the
      depth's distance from the near plane scaled by the m22 entry. */
  lemma ProjectedDepth(camera: Camera, tan: real -> real, v: Vector3)
    requires ProjectionDefined(camera, tan)
    ensures var p := CreateProjectionMatrix(camera, tan);
      Divisor(p, v) == v.z && Transform(Point(v), p).z == p.m22 * (v.z - camera.nearClipPlane)
  {
  }

  /** The orthonormal camera basis and the camera-space axes as matrix columns. */
  function ZAxis(camera: Camera, sqrt: real -> real): Vector3
  {
    Normalized(Sub(camera.target, camera.position), sqrt)
  }

  function XAxis(camera: Camera, sqrt: real -> real): Vector3
  {
    Normalized(Cross(Up, ZAxis(camera, sqrt)), sqrt)
  }

  function Column(m: Matrix4x4, j: nat): Vector3
    requires j < 3
  {
    if j == 0 then Vector3(m.m00, m.m10, m.m20)
    else if j == 1 then Vector3(m.m01, m.m11, m.m21)
    else Vector3(m.m02, m.m12, m.m22)
  }

  /** Identity with the three axes as the first three columns and the translation row holding
      the negated dot product of each axis with the camera position. */
  function CreateWorldToCameraMatrix(camera: Camera, sqrt: real -> real): (r: Matrix4x4)
    ensures IsAffine(r)
    ensures r.m30 == -Dot(Column(r, 0), camera.position)
    ensures r.m31 == -Dot(Column(r, 1), camera.position)
    ensures r.m32 == -Dot(Column(r, 2), camera.position)
    ensures Column(r, 2) == ZAxis(camera, sqrt) && Column(r, 0) == XAxis(camera, sqrt)
    ensures Column(r, 1) == Cross(Column(r, 2), Column(r, 0))
  {
    var zAxis := Normalized(Sub(camera.target, camera.position), sqrt);
    var xAxis := Normalized(Cross(Up, zAxis), sqrt);
    var yAxis := Cross(zAxis, xAxis);
    Identity.(
      m00 := xAxis.x, m01 := yAxis.x, m02 := zAxis.x,
      m10 := xAxis.y, m11 := yAxis.y, m12 := zAxis.y,
      m20 := xAxis.z, m21 := yAxis.z, m22 := zAxis.z,
      m30 := -Dot(xAxis, camera.position),
      m31 := -Dot(yAxis, camera.position),
      m32 := -Dot(zAxis, camera.position))
  }

  /** An affine matrix whose translation row is the negated dot product of each column with p
      sends p to the origin. */
  lemma {:induction false} AffineSendsToOrigin(m: Matrix4x4, p: Vector3)
    requires IsAffine(m)
    requires m.m30 == -Dot(Column(m, 0), p) && m.m31 == -Dot(Column(m, 1), p)
    requires m.m32 == -Dot(Column(m, 2), p)
    ensures Divisor(m, p) == 1.0 && MultiplyPoint(m, p) == Zero
  {
    TransformByColumns(m, p);
    assert Transform(Point(p), m) == Vector4(0.0, 0.0, 0.0, 1.0);
  }

  /** Each affine component of p * m is the dot product of p with a column plus the translation. */
  lemma TransformByColumns(m: Matrix4x4, p: Vector3)
    ensures Transform(Point(p), m).x == Dot(Column(m, 0), p) + m.m30
    ensures Transform(Point(p), m).y == Dot(Column(m, 1), p) + m.m31
    ensures Transform(Point(p), m).z == Dot(Column(m, 2), p) + m.m32
  {
    TransformColumnX(m, p);
    TransformColumnY(m, p);
    TransformColumnZ(m, p);
  }

  lemma TransformColumnX(m: Matrix4x4, p: Vector3)
    ensures Transform(Point(p), m).x == Dot(Column(m, 0), p) + m.m30
  {
  }

  lemma TransformColumnY(m: Matrix4x4, p: Vector3)
    ensures Transform(Point(p), m).y == Dot(Column(m, 1), p) + m.m31
  {
  }

  lemma TransformColumnZ(m: Matrix4x4, p: Vector3)
    ensures Transform(Point(p), m).z == Dot(Column(m, 2), p) + m.m32
  {
  }

  /** The camera position is the origin of camera space. */
  lemma {:induction false} WorldToCameraMapsPositionToOrigin(camera: Camera, sqrt: real -> real)
    ensures var v := CreateWorldToCameraMatrix(camera, sqrt);
      Divisor(v, camera.position) == 1.0 && MultiplyPoint(v, camera.position) == Zero
  {
    AffineSendsToOrigin(CreateWorldToCameraMatrix(camera, sqrt), camera.position);
  }

  /** Scaling a vector scales its dot products by the same factor. */
  lemma DotScale(a: Vector3, k: real, b: Vector3)
    ensures Dot(Scale(a, k), b) == k * Dot(a, b)
    ensures Dot(b, Scale(a, k)) == k * Dot(b, a)
  {
  }

  /** Normalizing keeps a vector orthogonal to whatever it was orthogonal to. */
  lemma NormalizedKeepsOrthogonal(a: Vector3, b: Vector3, sqrt: real -> real)
    requires Dot(a, b) == 0.0
    ensures Dot(Normalized(a, sqrt), b) == 0.0
  {
    if !IsZero(Magnitude(a, sqrt)) {
      DotScale(a, 1.0 / Magnitude(a, sqrt), b);
    }
  }

  /** The three axes are pairwise orthogonal. */
  lemma {:induction false} WorldToCameraAxesOrthogonal(camera: Camera, sqrt: real -> real)
    ensures var v := CreateWorldToCameraMatrix(camera, sqrt);
      Dot(Column(v, 0), Column(v, 2)) == 0.0 &&
      Dot(Column(v, 1), Column(v, 0)) == 0.0 &&
      Dot(Column(v, 1), Column(v, 2)) == 0.0
  {
    var z := ZAxis(camera, sqrt);
    NormalizedKeepsOrthogonal(Cross(Up, z), z, sqrt);
  }

  /** The camera looks along its z axis: the target lands on the camera-space z axis. */
  lemma {:induction false} WorldToCameraTargetOnZAxis(camera: Camera, sqrt: real -> real)
    ensures var v := CreateWorldToCameraMatrix(camera, sqrt);
      Divisor(v, camera.target) == 1.0 &&
      MultiplyPoint(v, camera.target).x == 0.0 && MultiplyPoint(v, camera.target).y == 0.0
  {
    var v := CreateWorldToCameraMatrix(camera, sqrt);
    SightOrthogonalToSideAxes(camera, sqrt);
    AffineKillsOrthogonal(v, camera.position, camera.target);
  }

  /** The x and y axes are orthogonal to the line of sight target - position. */
  lemma {:induction false} SightOrthogonalToSideAxes(camera: Camera, sqrt: real -> real)
    ensures var v := CreateWorldToCameraMatrix(camera, sqrt);
      var d := Sub(camera.target, camera.position);
      Dot(Column(v, 0), d) == 0.0 && Dot(Column(v, 1), d) == 0.0
  {
    var v := CreateWorldToCameraMatrix(camera, sqrt);
    var d := Sub(camera.target, camera.position);
    WorldToCameraAxesOrthogonal(camera, sqrt);
    OrthogonalToNormalized(Column(v, 0), d, sqrt);
    OrthogonalToNormalized(Column(v, 1), d, sqrt);
  }

  /** A vector orthogonal to the normalized d is orthogonal to d itself. */
  lemma OrthogonalToNormalized(x: Vector3, d: Vector3, sqrt: real -> real)
    requires Dot(x, Normalized(d, sqrt)) == 0.0
    ensures Dot(x, d) == 0.0
  {
    if !IsZero(Magnitude(d, sqrt)) {
      var k := 1.0 / Magnitude(d, sqrt);
      assert k != 0.0;
      DotScale(d, k, x);
      assert k * Dot(x, d) == 0.0;
    }
  }

  /** An affine matrix translated by -p whose first two columns are orthogonal to t - p sends t
      onto the z axis. */
  lemma {:induction false} AffineKillsOrthogonal(m: Matrix4x4, p: Vector3, t: Vector3)
    requires IsAffine(m)
    requires m.m30 == -Dot(Column(m, 0), p) && m.m31 == -Dot(Column(m, 1), p)
    requires Dot(Column(m, 0), Sub(t, p)) == 0.0 && Dot(Column(m, 1), Sub(t, p)) == 0.0
    ensures Divisor(m, t) == 1.0 && MultiplyPoint(m, t).x == 0.0 && MultiplyPoint(m, t).y == 0.0
  {
    TransformColumnX(m, t);
    TransformColumnY(m, t);
    DotSplits(Column(m, 0), t, p);
    DotSplits(Column(m, 1), t, p);
  }

  /** Dot is additive in its second argument: c . t == c . (t - p) + c . p. */
  lemma DotSplits(c: Vector3, t: Vector3, p: Vector3)
    ensures Dot(c, t) == Dot(c, Sub(t, p)) + Dot(c, p)
  {
  }
}
