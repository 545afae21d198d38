/** The second rendering device (UnityDevice.cs): the same back buffer operations as Device,
    plus its own point projection and look-at and perspective builders over SharpDX matrices. */
module UnityDevices {
  import opened FrameBuffers
  import opened Vectors
  import opened Matrices
  import Cameras

  /** A SharpDX Matrix: row-major with 1-based entries M11 .. M44. */
  datatype DxMatrix = DxMatrix(
    M11: real, M12: real, M13: real, M14: real,
    M21: real, M22: real, M23: real, M24: real,
    M31: real, M32: real, M33: real, M34: real,
    M41: real, M42: real, M43: real, M44: real)

  /** new Matrix(): every entry zero. */
  const DxZero: DxMatrix := DxMatrix(
    0.0, 0.0, 0.0, 0.0,
    0.0, 0.0, 0.0, 0.0,
    0.0, 0.0, 0.0, 0.0,
    0.0, 0.0, 0.0, 0.0)

  const DxIdentity: DxMatrix := DxZero.(M11 := 1.0, M22 := 1.0, M33 := 1.0, M44 := 1.0)

  /** The same matrix in the engine's 0-based naming: Mij becomes m(i-1)(j-1). */
  function AsMatrix4x4(m: DxMatrix): (r: Matrix4x4)
    ensures FromMatrix4x4(r) == m
  {
    Matrix4x4(m.M11, m.M12, m.M13, m.M14,
              m.M21, m.M22, m.M23, m.M24,
              m.M31, m.M32, m.M33, m.M34,
              m.M41, m.M42, m.M43, m.M44)
  }

  function FromMatrix4x4(m: Matrix4x4): DxMatrix
  {
    DxMatrix(m.m00, m.m01, m.m02, m.m03,
             m.m10, m.m11, m.m12, m.m13,
             m.m20, m.m21, m.m22, m.m23,
             m.m30, m.m31, m.m32, m.m33)
  }

  /** The renaming is one to one and sends SharpDX's identity to the engine's. */
  lemma NamingsCorrespond(m: Matrix4x4)
    ensures AsMatrix4x4(FromMatrix4x4(m)) == m
    ensures AsMatrix4x4(DxIdentity) == Identity && AsMatrix4x4(DxZero) == ZeroMatrix
  {
  }

  /** project's inline transform of p by m with the perspective divide: the three affine
      components, each multiplied by the reciprocal of the fourth; it is MultiplyPoint of the
      matrix in the engine's naming (InlineTransformIsMultiplyPoint). */
  function InlineTransform(p: Vector3, m: DxMatrix): Vector3
    requires Divisor(AsMatrix4x4(m), p) != 0.0
  {
    var vx := (p.x * m.M11) + (p.y * m.M21) + (p.z * m.M31) + m.M41;
    var vy := (p.x * m.M12) + (p.y * m.M22) + (p.z * m.M32) + m.M42;
    var vz := (p.x * m.M13) + (p.y * m.M23) + (p.z * m.M33) + m.M43;
    var vw := 1.0 / ((p.x * m.M14) + (p.y * m.M24) + (p.z * m.M34) + m.M44);
    Vector3(vx * vw, vy * vw, vz * vw)
  }

  lemma InlineTransformIsMultiplyPoint(p: Vector3, m: DxMatrix)
    requires Divisor(AsMatrix4x4(m), p) != 0.0
    ensures InlineTransform(p, m) == MultiplyPoint(AsMatrix4x4(m), p)
  {
  }

  class UnityDevice {
    const pixelWidth: nat
    const pixelHeight: nat
    const backBuffer: array<byte>

    predicate Valid()
    {
      backBuffer.Length == pixelWidth * pixelHeight * 4
    }

    constructor (pixelWidth: nat, pixelHeight: nat)
      ensures Valid() && fresh(backBuffer)
      ensures this.pixelWidth == pixelWidth && this.pixelHeight == pixelHeight
      ensures forall k :: 0 <= k < backBuffer.Length ==> backBuffer[k] == 0
    {
      this.pixelWidth := pixelWidth;
      this.pixelHeight := pixelHeight;
      backBuffer := new byte[pixelWidth * pixelHeight * 4](_ => 0);
    }

    method Clear(r: byte, g: byte, b: byte, a: byte)
      requires Valid()
      modifies backBuffer
      ensures backBuffer[..] == Filled(backBuffer.Length, Color(r, g, b, a))
    {
      SizeIsWholePixels(pixelWidth, pixelHeight);
      var index := 0;
      while index < backBuffer.Length
        invariant 0 <= index <= backBuffer.Length && index % 4 == 0
        invariant forall k :: 0 <= k < index ==> backBuffer[k] == Channel(Color(r, g, b, a), k % 4)
      {
        AlignedOffset(index, 0);
        AlignedOffset(index, 1);
        AlignedOffset(index, 2);
        AlignedOffset(index, 3);
        backBuffer[index] := b;
        backBuffer[index + 1] := g;
        backBuffer[index + 2] := r;
        backBuffer[index + 3] := a;
        index := index + 4;
      }
      FilledByChannels(backBuffer[..], Color(r, g, b, a));
    }

    method PutPixel(x: int, y: int, color: Color)
      requires Valid() && 0 <= x < pixelWidth && 0 <= y < pixelHeight
      modifies backBuffer
      ensures PixelIndex(pixelWidth, x, y) + 3 < backBuffer.Length
      ensures backBuffer[..] == WritePixel(old(backBuffer[..]), PixelIndex(pixelWidth, x, y), color)
    {
      PixelIndexInBounds(pixelWidth, pixelHeight, x, y);
      var index := (x + y * pixelWidth) * 4;
      backBuffer[index] := color.b;
      backBuffer[index + 1] := color.g;
      backBuffer[index + 2] := color.r;
      backBuffer[index + 3] := color.a;
    }

    method DrawPoint(point: Vector2)
      requires Valid()
      modifies backBuffer
      ensures backBuffer[..] == Plot(pixelWidth, pixelHeight, old(backBuffer[..]), point)
    {
      if point.x >= 0.0 && point.y >= 0.0 && point.x < pixelWidth as real && point.y < pixelHeight as real {
        TruncInTarget(pixelWidth, pixelHeight, point);
        PutPixel(Trunc(point.x), Trunc(point.y), Yellow);
      }
    }

    /** The inline transform with perspective divide, then the offset to the top-left corner:
        exactly MultiplyPoint of the renamed matrix followed by the screen mapping. */
    function Project(pointCoordinates: Vector3, transformationMatrix: DxMatrix): (r: Vector2)
      requires Divisor(AsMatrix4x4(transformationMatrix), pointCoordinates) != 0.0
      ensures r == ScreenPoint(pixelWidth, pixelHeight,
                               MultiplyPoint(AsMatrix4x4(transformationMatrix), pointCoordinates))
    {
      var point := InlineTransform(pointCoordinates, transformationMatrix);
      InlineTransformIsMultiplyPoint(pointCoordinates, transformationMatrix);
      ScreenPoint(pixelWidth, pixelHeight, point)
    }

    /** The left-handed view matrix: the normalized axes as the upper 3x3 columns and the
        negated dot products of the axes with the camera position in the fourth row. */
    static function CreateLHLookAt(cameraPosition: Vector3, target: Vector3, up: Vector3,
                                   sqrt: real -> real): (r: DxMatrix)
      ensures r.M14 == 0.0 && r.M24 == 0.0 && r.M34 == 0.0 && r.M44 == 1.0
      ensures Vector3(r.M13, r.M23, r.M33) == Normalized(Sub(target, cameraPosition), sqrt)
      ensures Vector3(r.M11, r.M21, r.M31) == Normalized(Cross(up, Vector3(r.M13, r.M23, r.M33)), sqrt)
      ensures Vector3(r.M12, r.M22, r.M32) == Cross(Vector3(r.M13, r.M23, r.M33), Vector3(r.M11, r.M21, r.M31))
      ensures r.M41 == -Dot(Vector3(r.M11, r.M21, r.M31), cameraPosition)
      ensures r.M42 == -Dot(Vector3(r.M12, r.M22, r.M32), cameraPosition)
      ensures r.M43 == -Dot(Vector3(r.M13, r.M23, r.M33), cameraPosition)
    {
      var zaxis := Normalized(Sub(target, cameraPosition), sqrt);
      var xaxis := Normalized(Cross(up, zaxis), sqrt);
      var yaxis := Cross(zaxis, xaxis);
      var lhLookAt := DxIdentity.(
        M11 := xaxis.x, M21 := xaxis.y, M31 := xaxis.z,
        M12 := yaxis.x, M22 := yaxis.y, M32 := yaxis.z,
        M13 := zaxis.x, M23 := zaxis.y, M33 := zaxis.z);
      lhLookAt.(M41 := -Dot(xaxis, cameraPosition),
                M42 := -Dot(yaxis, cameraPosition),
                M43 := -Dot(zaxis, cameraPosition))
    }

    /** The left-handed perspective matrix: zero except for five entries. */
    static function CreateLHPerspective(fieldOfView: real, aspect: real, nearClipPlane: real,
                                        farClipPlane: real, tan: real -> real): (r: DxMatrix)
      requires tan(fieldOfView * 0.5) != 0.0 && aspect != 0.0 && farClipPlane != nearClipPlane
      ensures r.M12 == 0.0 && r.M13 == 0.0 && r.M14 == 0.0
      ensures r.M21 == 0.0 && r.M23 == 0.0 && r.M24 == 0.0
      ensures r.M31 == 0.0 && r.M32 == 0.0
      ensures r.M41 == 0.0 && r.M42 == 0.0 && r.M44 == 0.0
      ensures r.M34 == 1.0
      ensures r.M22 * tan(fieldOfView * 0.5) == 1.0
      ensures r.M11 * aspect == r.M22
      ensures r.M33 * (farClipPlane - nearClipPlane) == farClipPlane
      ensures r.M43 == -r.M33 * nearClipPlane
    {
      var yScale := 1.0 / tan(fieldOfView * 0.5);
      var q := farClipPlane / (farClipPlane - nearClipPlane);
      DxZero.(M11 := yScale / aspect, M22 := yScale, M33 := q, M34 := 1.0,
              M43 := -q * nearClipPlane)
    }
  }

  /** The view matrix sends the camera position to the origin. */
  lemma {:induction false} LookAtMapsCameraToOrigin(cameraPosition: Vector3, target: Vector3,
                                                    up: Vector3, sqrt: real -> real)
    ensures var v := AsMatrix4x4(UnityDevice.CreateLHLookAt(cameraPosition, target, up, sqrt));
      Divisor(v, cameraPosition) == 1.0 && MultiplyPoint(v, cameraPosition) == Zero
  {
    var v := AsMatrix4x4(UnityDevice.CreateLHLookAt(cameraPosition, target, up, sqrt));
    assert Cameras.Column(v, 0) == Vector3(v.m00, v.m10, v.m20);
    Cameras.AffineSendsToOrigin(v, cameraPosition);
  }

  /** For any up vector the three axis columns of the view matrix are pairwise orthogonal. */
  lemma {:induction false} LookAtAxesOrthogonal(cameraPosition: Vector3, target: Vector3,
                                                up: Vector3, sqrt: real -> real)
    ensures var v := AsMatrix4x4(UnityDevice.CreateLHLookAt(cameraPosition, target, up, sqrt));
      Dot(Cameras.Column(v, 0), Cameras.Column(v, 2)) == 0.0 &&
      Dot(Cameras.Column(v, 1), Cameras.Column(v, 0)) == 0.0 &&
      Dot(Cameras.Column(v, 1), Cameras.Column(v, 2)) == 0.0
  {
    var z := Normalized(Sub(target, cameraPosition), sqrt);
    Cameras.NormalizedKeepsOrthogonal(Cross(up, z), z, sqrt);
  }

  /** With the up vector (0, 1, 0) the view matrix is the engine camera's world-to-camera matrix. */
  lemma LookAtAgreesWithCamera(camera: Cameras.Camera, sqrt: real -> real)
    ensures AsMatrix4x4(UnityDevice.CreateLHLookAt(camera.position, camera.target, Up, sqrt)) ==
      Cameras.CreateWorldToCameraMatrix(camera, sqrt)
  {
  }

  /** The perspective matrix is the engine camera's projection matrix. */
  lemma PerspectiveAgreesWithCamera(camera: Cameras.Camera, tan: real -> real)
    requires Cameras.ProjectionDefined(camera, tan)
    ensures AsMatrix4x4(UnityDevice.CreateLHPerspective(camera.fieldOfView, camera.aspect,
                          camera.nearClipPlane, camera.farClipPlane, tan)) ==
      Cameras.CreateProjectionMatrix(camera, tan)
  {
  }
}
