# Soft3DEngine core, modelled in Dafny

Soft3DEngine is a small software 3D renderer written in C#. The model covers the parts of it
that compute exactly:

- the two rendering devices (`Device`, `UnityDevice`). Each clears a BGRA back buffer of
  `width * height * 4` bytes in place, writes single pixels, and culls and plots screen points.
  `Device`'s Render loop over every vertex of every mesh is modelled too;
- the homogeneous-transform algebra of `Matrix4x4`, `Camera` and the matrix builders of
  `UnityDevice`, over the reals;
- the scalar helpers (`Mathf`) and the two identical vector structs (`Vector3`, `UnityVector3`);
- the flat-array mesh decoder inside `MainWindow.loadModelJSON`;
- the two mesh containers (`Mesh`, `UnityMesh`).

Modelling choices:

- `float` is `real`. The square root and the tangent are function parameters (`sqrt`, `tan`).
- The C# structs (`Vector3`, `Matrix4x4`) are datatypes. `Normalize`, which rewrites a struct's
  fields in place, is a method. It is specified by the function `Normalized`, which the camera
  code uses.
- The classes whose state changes in place (`Device`, `UnityDevice`, `Mesh`, `UnityMesh`) are
  Dafny classes, and their methods name what they modify. An array held in a private field assigned
  only in the constructor (the back buffers), or in a property with a private setter (`Mesh`'s
  two arrays and `UnityMesh`'s vertices), is a `const` array field. `UnityMesh.Faces` has a public setter, so it is a `var` field.
- Every buffer operation is proved against a function on the byte sequence:
  - `Filled` for `Clear`;
  - `WritePixel` for `putPixel`;
  - `Plot` for `drawPoint`;
  - `PlotAll` for `Render`.
  Lemmas about those functions give the properties: every pixel holds b, g, r, a; nothing else
  changes; only yellow pixels are written.
- Points are row vectors multiplied on the left (`p * M`), so in `A * B` the transform `A`
  applies first.

Device.cs and UnityDevice.cs have no depth buffer and do not rasterise triangles: Render
plots each projected vertex as a single yellow point. The model follows that.

Files: `mathf.dfy`, `vector3.dfy`, `unity_vector3.dfy`, `matrix4x4.dfy`, `camera.dfy`,
`frame_buffer.dfy` (the buffer arithmetic shared by both devices), `arithmetic.dfy` (integer
facts), `device.dfy`,
`unity_device.dfy`, `mesh.dfy`, `unity_mesh.dfy`, `model_loader.dfy`.

## Model

| member | source | states |
|---|---|---|
| Mathf.Clamp | Mathf.cs:9-12 | with min <= max the result lies in [min, max]; with min > max it is min; a value inside the range is returned unchanged; below or above it, the nearer bound |
| Mathf.Clamp01 | Mathf.cs:14-17 | the result lies in [0, 1]; it is the value inside [0, 1], 0 below and 1 above |
| Mathf.IsZero | Mathf.cs:19-22 | the tolerance test Abs(v) < 10^-6; IsZeroInterval gives its meaning |
| Mathf.IsZeroInterval | Mathf.cs:7-22 | IsZero(v) holds exactly when -10^-6 < v < 10^-6; IsZero(0) holds |
| Mathf.Lerp | Mathf.cs:24-27 | beta <= 0 gives start, beta >= 1 gives end, and the result always lies between start and end |
| Mathf.LerpAffine | Mathf.cs:24-27 | for beta in [0, 1] the result is (1 - beta) * start + beta * end |
| Vectors.IsZero | Vector3.cs:24-27 | the private isZero of Vector3 is the same test as Mathf.IsZero |
| Vectors.Dot | Vector3.cs:53-56 | Dot(v, v) >= 0 |
| Vectors.DotSymmetric | Vector3.cs:53-56 | Dot(a, b) == Dot(b, a) |
| Vectors.Magnitude | Vector3.cs:29-32 | the magnitude is sqrt of Dot(v, v) |
| Vectors.Normalized | Vector3.cs:24-46 | a vector whose magnitude is within the 10^-6 tolerance is unchanged; otherwise every component is multiplied by the same factor 1 / magnitude |
| Vectors.Normalize | Vector3.cs:34-46 | the three in-place compound assignments leave the struct equal to Normalized(v) |
| Vectors.NormalizedZero | Vector3.cs:20-46 | Zero normalizes to Zero under any square root |
| Vectors.NormalizedIsUnit | Vector3.cs:29-46 | with a true square root, a vector above the tolerance normalizes to unit length |
| Vectors.Cross | Vector3.cs:48-56 | Cross(a, b) is orthogonal to a and to b |
| Vectors.CrossAntiSymmetric | Vector3.cs:48-51 | Cross(a, b) == -Cross(b, a) and Cross(a, a) == Zero |
| Vectors.Sub | Vector3.cs:58-61 | a - a == Zero, and (a - b) + b == a, component by component |
| Vectors.ConstantsValues | Vector3.cs:20-22 | Zero == (0, 0, 0), Up == (0, 1, 0), and Up has unit length |
| UnityVectors.IsZero | UnityVector3.cs:24-27 | the private isZero of UnityVector3 is the same test as Mathf.IsZero |
| UnityVectors.Dot | UnityVector3.cs:53-56 | Dot(v, v) >= 0 |
| UnityVectors.DotSymmetric | UnityVector3.cs:53-56 | Dot(a, b) == Dot(b, a) |
| UnityVectors.Magnitude | UnityVector3.cs:29-32 | the magnitude is sqrt of Dot(v, v) |
| UnityVectors.Normalized | UnityVector3.cs:24-46 | no change within the tolerance; otherwise every component is scaled by 1 / magnitude |
| UnityVectors.Normalize | UnityVector3.cs:34-46 | the in-place updates leave the struct equal to Normalized(v) |
| UnityVectors.Cross | UnityVector3.cs:48-56 | the cross product is orthogonal to both arguments, and Cross(a, a) == Zero |
| UnityVectors.CrossAntiSymmetric | UnityVector3.cs:48-51 | Cross(a, b) is the negation of Cross(b, a) |
| UnityVectors.Sub | UnityVector3.cs:58-61 | a - a == Zero, and subtraction is undone by adding b back |
| UnityVectors.AgreesWithVector3 | UnityVector3.cs:20-61 | Zero, Up, Dot, Magnitude, Cross and subtraction compute what Vector3's members compute on the same components |
| UnityVectors.NormalizedAgreesWithVector3 | UnityVector3.cs:34-46 | Normalize gives the same components as Vector3's Normalize |
| Matrices.MultiplyPoint | Matrix4x4.cs:25-37 | the result is the row vector (p, 1) times m, with its three affine components divided by the homogeneous divisor |
| Matrices.Identity | Matrix4x4.cs:23 | ones on the diagonal and zero elsewhere; IdentityIsUnit and IdentityMultiplyPoint give its meaning |
| Matrices.Mul | Matrix4x4.cs:73-97 | the product of two affine matrices is affine; MulRows, TransformMul and MulAssociative give its meaning |
| Matrices.IdentityIsUnit | Matrix4x4.cs:23-97 | Identity * M == M and M * Identity == M |
| Matrices.IdentityMultiplyPoint | Matrix4x4.cs:23-37 | Identity has divisor 1 and maps every point to itself |
| Matrices.CreateRotation | Matrix4x4.cs:45-57 | the fourth column is (0, 0, 0, 1) and the fourth row is (0, 0, 0, 1); the quaternion (0, 0, 0, 1) gives exactly Identity |
| Matrices.RotationOrthonormal | Matrix4x4.cs:45-57 | for a unit quaternion the rows of the upper 3x3 block are unit vectors and pairwise orthogonal |
| Matrices.CreateTranslation | Matrix4x4.cs:60-71 | affine, with the identity as its upper 3x3 block and the position as its fourth row |
| Matrices.TranslationMultiplyPoint | Matrix4x4.cs:25-71 | CreateTranslation(t).MultiplyPoint(p) == p + t |
| Matrices.TranslationsCompose | Matrix4x4.cs:60-97 | CreateTranslation(a) * CreateTranslation(b) == CreateTranslation(a + b) |
| Matrices.MulRows | Matrix4x4.cs:73-97 | row i of A * B is row i of A transformed by B |
| Matrices.TransformMul | Matrix4x4.cs:73-97 | transforming by A * B is transforming by A, then by B |
| Matrices.MulAssociative | Matrix4x4.cs:73-97 | (A * B) * C == A * (B * C) |
| Matrices.MultiplyPointMul | Matrix4x4.cs:25-97 | for an affine A, (A * B).MultiplyPoint(p) == B.MultiplyPoint(A.MultiplyPoint(p)), and the divisors agree |
| Cameras.CreateProjectionMatrix | Camera.cs:14-28 | zero except M00, M11, M22, M23 and M32; M23 == 1, M33 == 0, M11 * tan(fov/2) == 1, M00 * aspect == M11, M22 * (far - near) == far, M32 == -M22 * near |
| Cameras.ProjectionDepthRange | Camera.cs:14-28 | a camera-space point at the near plane projects to depth 0 and one at the far plane to depth 1; the divisor is the depth |
| Cameras.CreateWorldToCameraMatrix | Camera.cs:30-63 | the fourth column is (0, 0, 0, 1); the columns are the normalized axes; y is z cross x; the translation row is the negated dot product of each axis with Position |
| Cameras.WorldToCameraMapsPositionToOrigin | Camera.cs:30-63 | the world-to-camera matrix has divisor 1 at Position and maps Position to the origin |
| Cameras.WorldToCameraAxesOrthogonal | Camera.cs:34-52 | the three axis columns are pairwise orthogonal |
| Cameras.WorldToCameraTargetOnZAxis | Camera.cs:30-63 | the target lands on the camera-space z axis (camera x and y both 0) |
| Cameras.AffineSendsToOrigin | Camera.cs:54-60 | any affine matrix whose translation row is the negated dot product of its columns with p sends p to the origin |
| FrameBuffers.PixelIndexInBounds | Device.cs:53-56 | for 0 <= x < W and 0 <= y < H, the index (x + y * W) * 4 is a multiple of 4 and its four bytes lie inside W * H * 4 |
| FrameBuffers.PixelIndexInverse | Device.cs:55 | the pixel is recovered from its index, so distinct pixels own disjoint bytes |
| FrameBuffers.Filled | Device.cs:18-27 | the buffer Clear leaves, of the given length; FilledIffEveryPixel gives its meaning |
| FrameBuffers.FilledIffEveryPixel | Device.cs:18-27 | a buffer is the cleared pattern exactly when every pixel p holds b, g, r, a at bytes 4p .. 4p + 3 |
| FrameBuffers.WritePixel | Device.cs:53-61 | the four bytes from the index are b, g, r, a; every other byte and the length are unchanged |
| FrameBuffers.Trunc | Device.cs:67 | the (int) cast truncates toward zero |
| FrameBuffers.TruncInTarget | Device.cs:66-67 | a point that passes the culling test truncates to a pixel inside the target |
| FrameBuffers.Plot | Device.cs:63-68 | drawPoint's effect: the buffer keeps its size, and a culled point leaves it unchanged; PlotEffect gives the visible case |
| FrameBuffers.PlotAll | Device.cs:34-44 | drawPoint for each point in turn keeps the buffer's size; PlotAllAppend and PlotAllEffect give its meaning |
| FrameBuffers.PlotEffect | Device.cs:63-68 | drawPoint gives the buffer yellow bytes (0, 255, 255, 255) at the pixel of the truncated point when it passes the culling test; every other byte is unchanged, and a culled point changes nothing |
| FrameBuffers.PlotAllAppend | Device.cs:34-44 | drawing a + b is drawing a, then drawing b on the result |
| FrameBuffers.PlotAllEffect | Device.cs:34-44 | after a sequence of points, a byte is yellow when some point covers it, and otherwise holds its old value |
| FrameBuffers.PlotAllOnlyYellow | Device.cs:34-44 | drawing points changes only bytes of yellow pixels |
| FrameBuffers.ScreenPoint | Device.cs:75-76 | project's offset from NDC to screen; ScreenCentre, ScreenMonotone, ScreenRoundTrip and VisibleWindow give its meaning |
| FrameBuffers.ScreenCentre | Device.cs:75-76 | NDC (0, 0) lands at (W / 2, H / 2) |
| FrameBuffers.ScreenMonotone | Device.cs:75-76 | screen x grows with NDC x; screen y shrinks as NDC y grows |
| FrameBuffers.ScreenRoundTrip | Device.cs:75-76 | the offset is inverted by ScreenToNdc: only the depth is lost |
| FrameBuffers.VisibleWindow | Device.cs:63-76 | a projected point passes the culling test exactly when its NDC x is in [-1/2, 1/2) and y in (-1/2, 1/2] |
| Devices.Device.constructor | Device.cs:12-16 | the buffer has W * H * 4 bytes, all zero |
| Devices.Device.Clear | Device.cs:18-27 | the loop leaves the buffer equal to Filled(length, colour) |
| Devices.Device.PutPixel | Device.cs:53-61 | the four bytes are in bounds; the new buffer is WritePixel(old buffer, (x + y * W) * 4, colour) |
| Devices.Device.DrawPoint | Device.cs:63-68 | the new buffer is Plot(old buffer, point) |
| Devices.Device.MeshPoints | Device.cs:39-76 | the definition of the screen points the inner foreach draws: one per vertex, in array order, each the offset of the vertex's projection; DrawMesh and Render are proved against it |
| Devices.Device.Render | Device.cs:29-45 | the new buffer is PlotAll(old buffer, the screen points of every mesh's vertices, meshes in order, vertices in order) |
| Devices.Device.DrawMesh | Device.cs:39-43 | the inner loop over one mesh's vertices leaves PlotAll(old buffer, that mesh's screen points) |
| Devices.Device.RenderPointsNext | Device.cs:34-44 | the points of the first i + 1 meshes are those of the first i followed by mesh i's |
| UnityDevices.NamingsCorrespond | UnityDevice.cs:95-116 | the 1-based renaming to Matrix4x4 is one to one and sends SharpDX's identity and zero matrices to the engine's |
| UnityDevices.InlineTransform | UnityDevice.cs:73-79 | project's inline transform with the perspective divide; InlineTransformIsMultiplyPoint gives its meaning |
| UnityDevices.InlineTransformIsMultiplyPoint | UnityDevice.cs:73-79 | project's inline transform computes Matrix4x4.MultiplyPoint of the renamed matrix |
| UnityDevices.UnityDevice.constructor | UnityDevice.cs:13-17 | the buffer has W * H * 4 bytes, all zero |
| UnityDevices.UnityDevice.Clear | UnityDevice.cs:19-28 | the loop leaves the buffer equal to Filled(length, colour) |
| UnityDevices.UnityDevice.PutPixel | UnityDevice.cs:54-62 | the four bytes are in bounds; the buffer is WritePixel(old buffer, (x + y * W) * 4, colour) |
| UnityDevices.UnityDevice.DrawPoint | UnityDevice.cs:64-69 | the new buffer is Plot(old buffer, point) |
| UnityDevices.UnityDevice.Project | UnityDevice.cs:71-86 | project is the screen offset of MultiplyPoint of the renamed matrix |
| UnityDevices.UnityDevice.CreateLHLookAt | UnityDevice.cs:88-109 | for any up vector: the third axis column is the normalized target - position, the first is the normalized up x z, the second is z x x; the fourth column is (0, 0, 0, 1); the fourth row is the negated dot of each axis column with the camera position |
| UnityDevices.LookAtAxesOrthogonal | UnityDevice.cs:88-109 | for any up vector the three axis columns are pairwise orthogonal |
| UnityDevices.LookAtMapsCameraToOrigin | UnityDevice.cs:88-109 | the look-at matrix maps the camera position to the origin, with divisor 1 |
| UnityDevices.LookAtAgreesWithCamera | UnityDevice.cs:88-109 | with the up vector (0, 1, 0), createLHLookAt is Camera's world-to-camera matrix |
| UnityDevices.UnityDevice.CreateLHPerspective | UnityDevice.cs:111-124 | zero except M11, M22, M33, M34 and M43; M34 == 1, M43 == -M33 * near, M11 * aspect == M22, M22 * tan(fov/2) == 1, M33 * (far - near) == far |
| UnityDevices.PerspectiveAgreesWithCamera | UnityDevice.cs:111-124 | createLHPerspective is Camera's projection matrix under the renaming |
| Meshes.Mesh.constructor | Mesh.cs:5-16 | the name is stored; the arrays are fresh with vertexCount and faceCount slots; every vertex, Position and Rotation start as the zero vector |
| UnityMeshes.UnityMesh.constructor | UnityMesh.cs:7-16 | the arrays are fresh with vertexCount and faceCount slots; every vertex, Position and Rotation start at zero |
| ModelLoader.VertexStep | MainWindow.xaml.cs:80-94 | the stride is 6, 8 or 10 for uvCount 0, 1 or 2, and 1 for any other value |
| ModelLoader.Decode | MainWindow.xaml.cs:80-123 | the result of decoding one entry; DecodeFailsExactly, DecodedLayout and DecodeEncode give its meaning |
| ModelLoader.DecodeFailsExactly | MainWindow.xaml.cs:96-123 | the decode fails exactly when the stride is 1 and there is vertex data, or when the position array has fewer than three entries |
| ModelLoader.DecodedLayout | MainWindow.xaml.cs:96-123 | a decoded mesh has length / stride vertices and length / 3 faces; vertex i comes from the floats at i * stride .. i * stride + 5, face f from the ints at 3f .. 3f + 2, the position from the first three entries |
| ModelLoader.DecodeEncode | MainWindow.xaml.cs:96-123 | encoding a mesh into flat arrays with 0 to 2 zero texture sets and decoding gives back the mesh |
| ModelLoader.DecodeMesh | MainWindow.xaml.cs:80-123 | the decoding body returns exactly Decode(entry) |
| ModelLoader.ReadVertices | MainWindow.xaml.cs:100-111 | slot i holds the vertex from the floats at i * stride; it reports failure exactly when some vertex's reads pass the end |
| ModelLoader.ReadFaces | MainWindow.xaml.cs:113-120 | slot f holds the face (faces[3f], faces[3f + 1], faces[3f + 2]), always in bounds |
| ModelLoader.LoadModel | MainWindow.xaml.cs:70-128 | succeeds exactly when every entry decodes; then one mesh per entry, in entry order |

## Left out

- Present: it copies the buffer into a WPF bitmap, which is I/O.
- The SharpDX library calls are foreign code: `Matrix.LookAtLH`, `Matrix.PerspectiveFovRH`,
  `Matrix.RotationYawPitchRoll`, `Matrix.Translation`, the SharpDX matrix product and
  `Vector3.TransformCoordinate`. Devices.Device.Render takes the whole projection of a vertex as
  the function parameter `toNdc`.
- The SharpDX `Vector3` that `UnityDevice` and `UnityMesh` use is taken to behave like the
  engine's `Vector3.cs`. Its `Subtract`, `Cross`, `Dot` and `Normalize` are modelled by those
  of `Vectors`.
- UnityDevice.Render is not modelled. Its loop is `Device.Render`'s. Its view and projection
  matrices come from the modelled CreateLHLookAt and CreateLHPerspective, and each vertex goes
  through the modelled Project. Only the world matrix (`RotationYawPitchRoll`, `Translation`) and
  the matrix products are SharpDX calls.
- Quaternion.Euler is left out because it needs sine and cosine. `CreateRotation` takes the
  quaternion's components. `UnityQuaternion` and `UnityVector4` only store their fields, and are
  not part of this model.
- UnityCamera.cs and Face.cs are not part of this model. A face is a triple of `int`s.
- The JSON and file reading of `loadModelJSON`, the UI handlers, the per-frame rotation
  accumulation and `initializeComponents` are left out. The decoder starts from the parsed arrays.
- The decoder stores `Vertex` records, which do not fit `Mesh.Vertices` (a `UnityVector3[]`).
  So ModelLoader.DecodeMesh returns the vertices, faces and position as a `DecodedMesh` value
  instead of filling a `Mesh` object.
- ModelLoader.DecodeMesh: the vertex and face loops are the methods `ReadVertices` and
  `ReadFaces`. The vertex loop is cut short at the first read past the end, where the source
  throws. The model allocates the face slots after the vertex loop, not before it; this makes no
  difference to the result.
- Floating point: IEEE rounding, NaN and infinity are not modelled. `Color4` to byte conversion
  `(byte)(c * 255)` is not modelled either; colours are passed as bytes.
- Matrices.MultiplyPoint requires a non-zero divisor. So do UnityDevices.UnityDevice.Project and
  InlineTransform. The source divides anyway and gets infinity.
- Cameras.CreateProjectionMatrix and UnityDevices.UnityDevice.CreateLHPerspective require
  tan(fov/2) != 0, aspect != 0 and far != near. The source divides anyway.
- Vectors.Magnitude and UnityVectors.Magnitude take the square root as a parameter. Unit length
  after normalisation is proved only for a parameter that is a true square root.
- Devices.Device.PutPixel and UnityDevices.UnityDevice.PutPixel require 0 <= x < W and
  0 <= y < H. The source method is private, and its only caller, `drawPoint`, guarantees this.
- Meshes.Mesh.constructor and UnityMeshes.UnityMesh.constructor take natural-number counts. A
  negative count makes the C# array allocation throw.
- Meshes.Mesh.constructor and UnityMeshes.UnityMesh.constructor do not state the initial
  contents of the face slots. `Face` is a
  struct whose default value is not part of this model.
- Devices.Device.Render states the new buffer as `PlotAll` of the rendered points. The fact that
  only yellow pixels change is proved about `PlotAll` by FrameBuffers.PlotAllOnlyYellow, not
  repeated as a postcondition.
- C# `int` arithmetic is 32-bit and wraps. The model's buffer size `W * H * 4` (Device.cs:15,
  UnityDevice.cs:16) and pixel index `(x + y * W) * 4` are unbounded integers. This agrees with
  the source whenever `W * H * 4 < 2^31`. Beyond that, a size that wraps negative makes the constructor
  throw (OverflowException). A size that wraps to a non-negative value allocates a shorter
  buffer, and putPixel can then throw IndexOutOfRangeException.
- Device and UnityDevice keep the buffer length `W * H * 4` because the array is a `const` field
  and an array's length is fixed. `Valid()` states it and reads only constants.
