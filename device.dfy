/** The engine's own rendering device (Device.cs): a BGRA back buffer sized for the render
    target, cleared and written in place, on which Render plots every projected mesh vertex. */
module Devices {
  import opened FrameBuffers
  import Vectors
  import UnityVectors
  import Cameras
  import Meshes

  class Device {
    /** The render target's pixel size, fixed for the device's lifetime. */
    const pixelWidth: nat
    const pixelHeight: nat
    /** The back buffer is allocated once, in the constructor. */
    const backBuffer: array<byte>

    predicate Valid()
    {
      backBuffer.Length == pixelWidth * pixelHeight * 4
    }

    /** Allocates width * height * 4 bytes, all zero. */
    constructor (pixelWidth: nat, pixelHeight: nat)
      ensures Valid() && fresh(backBuffer)
      ensures this.pixelWidth == pixelWidth && this.pixelHeight == pixelHeight
      ensures forall k :: 0 <= k < backBuffer.Length ==> backBuffer[k] == 0
    {
      this.pixelWidth := pixelWidth;
      this.pixelHeight := pixelHeight;
      backBuffer := new byte[pixelWidth * pixelHeight * 4](_ => 0);
    }

    /** Steps through the buffer four bytes at a time, storing b, g, r, a. */
    method Clear(r: byte, g: byte, b: byte, a: byte)
      requires Valid()
      modifies backBuffer
      ensures backBuffer[..] == Filled(backBuffer.Length, Color(r, g, b, a))
    {
      SizeIsWholePixels(pixelWidth, pixelHeight);
      var index := 0;
      while index < backBuffer.Length
        invariant 0 <= index <= backBuffer.Length && index % 4 == 0
        invariant forall k :: 0 <= k < index ==> backBuffer[k] == Channel(Color(r, g, b, a), k % 4)
      {
        AlignedOffset(index, 0);
        AlignedOffset(index, 1);
        AlignedOffset(index, 2);
        AlignedOffset(index, 3);
        backBuffer[index] := b;
        backBuffer[index + 1] := g;
        backBuffer[index + 2] := r;
        backBuffer[index + 3] := a;
        index := index + 4;
      }
      FilledByChannels(backBuffer[..], Color(r, g, b, a));
    }

    /** Stores the colour's blue, green, red and alpha bytes at pixel (x, y); no other byte is
        touched. */
    method PutPixel(x: int, y: int, color: Color)
      requires Valid() && 0 <= x < pixelWidth && 0 <= y < pixelHeight
      modifies backBuffer
      ensures PixelIndex(pixelWidth, x, y) + 3 < backBuffer.Length
      ensures backBuffer[..] == WritePixel(old(backBuffer[..]), PixelIndex(pixelWidth, x, y), color)
    {
      PixelIndexInBounds(pixelWidth, pixelHeight, x, y);
      var index := (x + y * pixelWidth) * 4;
      backBuffer[index] := color.b;
      backBuffer[index + 1] := color.g;
      backBuffer[index + 2] := color.r;
      backBuffer[index + 3] := color.a;
    }

    /** Culls points outside the target and writes a yellow pixel at the truncated position of
        the others. */
    method DrawPoint(point: Vector2)
      requires Valid()
      modifies backBuffer
      ensures backBuffer[..] == Plot(pixelWidth, pixelHeight, old(backBuffer[..]), point)
    {
      if point.x >= 0.0 && point.y >= 0.0 && point.x < pixelWidth as real && point.y < pixelHeight as real {
        TruncInTarget(pixelWidth, pixelHeight, point);
        PutPixel(Trunc(point.x), Trunc(point.y), Yellow);
      }
    }

    /** The screen points of one mesh's vertices, in array order. */
    function MeshPoints(camera: Cameras.Camera, rotation: UnityVectors.UnityVector3,
                        position: UnityVectors.UnityVector3, vertices: seq<UnityVectors.UnityVector3>,
                        toNdc: (Cameras.Camera, UnityVectors.UnityVector3, UnityVectors.UnityVector3,
                                UnityVectors.UnityVector3) -> Vectors.Vector3): (r: seq<Vector2>)
      ensures |r| == |vertices|
      ensures forall j :: 0 <= j < |vertices| ==>
        r[j] == ScreenPoint(pixelWidth, pixelHeight, toNdc(camera, rotation, position, vertices[j]))
    {
      seq(|vertices|, j requires 0 <= j < |vertices| =>
        ScreenPoint(pixelWidth, pixelHeight, toNdc(camera, rotation, position, vertices[j])))
    }

    /** The screen points Render draws: the meshes in order, each mesh's vertices in order. */
    ghost function RenderPoints(camera: Cameras.Camera, meshes: seq<Meshes.Mesh>,
                                toNdc: (Cameras.Camera, UnityVectors.UnityVector3, UnityVectors.UnityVector3,
                                        UnityVectors.UnityVector3) -> Vectors.Vector3): seq<Vector2>
      reads meshes, set m | m in meshes :: m.vertices
      decreases |meshes|
    {
      if meshes == [] then []
      else
        var last := meshes[|meshes| - 1];
        RenderPoints(camera, meshes[..|meshes| - 1], toNdc) +
        MeshPoints(camera, last.rotation, last.position, last.vertices[..], toNdc)
    }

    /** For every mesh, every vertex is projected and drawn as a point. toNdc stands for the
        foreign SharpDX part of the projection: the view, perspective and world matrices built
        from the camera, the target's aspect ratio and the mesh's rotation and position, and the
        coordinate transform of the vertex. */
    method Render(camera: Cameras.Camera, meshes: seq<Meshes.Mesh>,
                  toNdc: (Cameras.Camera, UnityVectors.UnityVector3, UnityVectors.UnityVector3,
                          UnityVectors.UnityVector3) -> Vectors.Vector3)
      requires Valid()
      modifies backBuffer
      ensures backBuffer[..] ==
        PlotAll(pixelWidth, pixelHeight, old(backBuffer[..]), RenderPoints(camera, meshes, toNdc))
    {
      ghost var start := backBuffer[..];
      var i := 0;
      while i < |meshes|
        invariant 0 <= i <= |meshes|
        invariant backBuffer[..] ==
          PlotAll(pixelWidth, pixelHeight, start, RenderPoints(camera, meshes[..i], toNdc))
      {
        DrawMesh(camera, meshes[i], toNdc);
        RenderPointsNext(camera, meshes, i, toNdc);
        PlotAllAppend(pixelWidth, pixelHeight, start, RenderPoints(camera, meshes[..i], toNdc),
                      MeshPoints(camera, meshes[i].rotation, meshes[i].position, meshes[i].vertices[..], toNdc));
        i := i + 1;
      }
      assert meshes[..i] == meshes;
    }

    /** The inner loop of Render: every vertex of one mesh, in order. */
    method DrawMesh(camera: Cameras.Camera, mesh: Meshes.Mesh,
                    toNdc: (Cameras.Camera, UnityVectors.UnityVector3, UnityVectors.UnityVector3,
                            UnityVectors.UnityVector3) -> Vectors.Vector3)
      requires Valid()
      modifies backBuffer
      ensures backBuffer[..] == PlotAll(pixelWidth, pixelHeight, old(backBuffer[..]),
                                        MeshPoints(camera, mesh.rotation, mesh.position, mesh.vertices[..], toNdc))
    {
      ghost var start := backBuffer[..];
      ghost var points := MeshPoints(camera, mesh.rotation, mesh.position, mesh.vertices[..], toNdc);
      var j := 0;
      while j < mesh.vertices.Length
        invariant 0 <= j <= mesh.vertices.Length
        invariant SizedFor(backBuffer[..], pixelWidth, pixelHeight)
        invariant backBuffer[..] == PlotAll(pixelWidth, pixelHeight, start, points[..j])
      {
        var point := ScreenPoint(pixelWidth, pixelHeight,
                                 toNdc(camera, mesh.rotation, mesh.position, mesh.vertices[j]));
        assert point == points[j];
        DrawPoint(point);
        PlotAllSnoc(pixelWidth, pixelHeight, start, points[..j], point);
        assert points[..j + 1] == points[..j] + [point];
        j := j + 1;
      }
      assert points[..j] == points;
    }

    /** The points of the first i + 1 meshes are those of the first i followed by mesh i's. */
    lemma RenderPointsNext(camera: Cameras.Camera, meshes: seq<Meshes.Mesh>, i: nat,
                           toNdc: (Cameras.Camera, UnityVectors.UnityVector3, UnityVectors.UnityVector3,
                                   UnityVectors.UnityVector3) -> Vectors.Vector3)
      requires i < |meshes|
      ensures RenderPoints(camera, meshes[..i + 1], toNdc) ==
        RenderPoints(camera, meshes[..i], toNdc) +
        MeshPoints(camera, meshes[i].rotation, meshes[i].position, meshes[i].vertices[..], toNdc)
    {
      assert meshes[..i + 1][..i] == meshes[..i];
    }
  }
}
