/** The decoding body of MainWindow.loadModelJSON (MainWindow.xaml.cs): already-parsed mesh
    entries (a flat float array of vertex data, a flat int array of triangle indices, the number
    of texture-coordinate sets and a position array) become mesh records. */
module ModelLoader {
  import opened Vectors
  import opened Meshes
  import Arithmetic

  /** One entry of the model's mesh list, after JSON parsing. */
  datatype MeshRecord = MeshRecord(
    name: string,
    vertices: seq<real>,
    indices: seq<int>,
    uvCount: int,
    position: seq<real>)

  /** The record the decoder stores per vertex: coordinates and normal. */
  datatype Vertex = Vertex(coordinates: Vector3, normal: Vector3)

  /** A decoded mesh: its name, vertex and face slots, and position. */
  datatype DecodedMesh = DecodedMesh(
    name: string,
    vertices: seq<Vertex>,
    faces: seq<Face>,
    position: Vector3)

  /** The IndexOutOfRangeException an array read past the end throws. */
  datatype DecodeError = IndexOutOfRange

  datatype Result<T> = Ok(value: T) | Err(error: DecodeError)

  /** The floats per vertex: three coordinates and three normal components, then two per
      texture-coordinate set for 0, 1 or 2 sets; any other count leaves the initial step 1. */
  function VertexStep(uvCount: int): (s: nat)
    ensures 0 <= uvCount <= 2 ==> s == 6 + 2 * uvCount
    ensures !(0 <= uvCount <= 2) ==> s == 1
  {
    var vertexStep := 1;
    match uvCount
    case 0 => 6
    case 1 => 8
    case 2 => 10
    case _ => vertexStep
  }

  /** The vertex whose six floats start at offset base. */
  function VertexAt(vertices: seq<real>, base: nat): Vertex
    requires base + 5 < |vertices|
  {
    Vertex(Vector3(vertices[base], vertices[base + 1], vertices[base + 2]),
           Vector3(vertices[base + 3], vertices[base + 4], vertices[base + 5]))
  }

  /** The face whose three indices start at offset base. */
  function FaceAt(indices: seq<int>, base: nat): Face
    requires base + 2 < |indices|
  {
    Face(indices[base], indices[base + 1], indices[base + 2])
  }

  /** The read of the last vertex's normal z, at (count - 1) * step + 5, is past the end. */
  predicate LastVertexReadFails(vertices: seq<real>, step: nat)
    requires step > 0
  {
    var count := |vertices| / step;
    count > 0 && (count - 1) * step + 5 >= |vertices|
  }

  /** What the decoding body produces for one entry: an IndexOutOfRange error when a vertex read
      or the position read passes the end of its array; otherwise vertices[i] from the floats at
      i * step, faces[f] from the ints at 3 * f, trailing partial records ignored, and the
      position from the first three entries. */
  function Decode(rec: MeshRecord): Result<DecodedMesh>
  {
    var step := VertexStep(rec.uvCount);
    var vertexCount := |rec.vertices| / step;
    var faceCount := |rec.indices| / 3;
    if LastVertexReadFails(rec.vertices, step) || |rec.position| < 3 then Err(IndexOutOfRange)
    else
      Ok(DecodedMesh(
        rec.name,
        seq(vertexCount, i requires 0 <= i < vertexCount =>
          StrideBound(i, vertexCount, step, |rec.vertices|);
          VertexAt(rec.vertices, i * step)),
        seq(faceCount, f requires 0 <= f < faceCount => FaceAt(rec.indices, 3 * f)),
        Vector3(rec.position[0], rec.position[1], rec.position[2])))
  }

  /** When the last vertex's reads are in bounds, so are every earlier vertex's. */
  lemma StrideBound(i: nat, count: nat, step: nat, length: nat)
    requires i < count && (count - 1) * step + 5 < length
    ensures i * step + 5 < length
  {
    Arithmetic.MulMonotone(i, count - 1, step);
  }

  /** The decoder fails exactly when the stride is 1 and there is vertex data (the first vertex
      already reads past the end), or when the position array is shorter than three. */
  lemma {:induction false} DecodeFailsExactly(rec: MeshRecord)
    ensures Decode(rec).Err? <==>
      (!(0 <= rec.uvCount <= 2) && |rec.vertices| > 0) || |rec.position| < 3
  {
    var step := VertexStep(rec.uvCount);
    if 0 <= rec.uvCount <= 2 {
      WholeRecordsFit(|rec.vertices|, step);
    }
  }

  /** With a stride of at least 6, the last whole record's six reads stay inside the array. */
  lemma WholeRecordsFit(length: nat, step: nat)
    requires step >= 6
    ensures length / step == 0 || (length / step - 1) * step + 5 < length
  {
    var count := length / step;
    assert count * step <= length;
    if count > 0 {
      assert (count - 1) * step == count * step - step;
    }
  }

  /** A successful decode keeps the name, has length / step vertices and length / 3 faces, and
      takes vertex i, face f and the position from the offsets the loops read. */
  lemma {:induction false} DecodedLayout(rec: MeshRecord)
    requires Decode(rec).Ok?
    ensures var m, step := Decode(rec).value, VertexStep(rec.uvCount);
      m.name == rec.name &&
      |m.vertices| == |rec.vertices| / step && |m.faces| == |rec.indices| / 3 &&
      (forall i :: 0 <= i < |m.vertices| ==>
        i * step + 5 < |rec.vertices| &&
        m.vertices[i].coordinates == Vector3(rec.vertices[i * step], rec.vertices[i * step + 1], rec.vertices[i * step + 2]) &&
        m.vertices[i].normal == Vector3(rec.vertices[i * step + 3], rec.vertices[i * step + 4], rec.vertices[i * step + 5])) &&
      (forall f :: 0 <= f < |m.faces| ==>
        3 * f + 2 < |rec.indices| &&
        m.faces[f] == Face(rec.indices[3 * f], rec.indices[3 * f + 1], rec.indices[3 * f + 2])) &&
      |rec.position| >= 3 &&
      m.position == Vector3(rec.position[0], rec.position[1], rec.position[2])
  {
    var m, step := Decode(rec).value, VertexStep(rec.uvCount);
    forall i | 0 <= i < |m.vertices|
      ensures i * step + 5 < |rec.vertices| && m.vertices[i] == VertexAt(rec.vertices, i * step)
    {
      StrideBound(i, |rec.vertices| / step, step, |rec.vertices|);
    }
  }

  /** The float at offset j of an encoded vertex: coordinates, normal, then zero texture
      coordinates. */
  function VertexFloat(v: Vertex, j: nat): real
  {
    if j == 0 then v.coordinates.x else if j == 1 then v.coordinates.y
    else if j == 2 then v.coordinates.z else if j == 3 then v.normal.x
    else if j == 4 then v.normal.y else if j == 5 then v.normal.z else 0.0
  }

  function FaceIndex(face: Face, j: nat): int
  {
    if j == 0 then face.a else if j == 1 then face.b else face.c
  }

  /** The inverse of Decode: a mesh written out as the flat arrays the decoder reads, with
      uvCount texture-coordinate sets of zeros per vertex. */
  function Encode(m: DecodedMesh, uvCount: int): (rec: MeshRecord)
    requires 0 <= uvCount <= 2
    ensures |rec.vertices| == |m.vertices| * VertexStep(uvCount)
    ensures |rec.indices| == 3 * |m.faces|
  {
    var step := VertexStep(uvCount);
    MeshRecord(
      m.name,
      seq(|m.vertices| * step, k requires 0 <= k < |m.vertices| * step =>
        DivBelow(k, |m.vertices|, step);
        VertexFloat(m.vertices[k / step], k % step)),
      seq(3 * |m.faces|, k requires 0 <= k < 3 * |m.faces| => FaceIndex(m.faces[k / 3], k % 3)),
      uvCount,
      [m.position.x, m.position.y, m.position.z])
  }

  lemma DivBelow(k: nat, count: nat, step: nat)
    requires step > 0 && k < count * step
    ensures k / step < count
  {
    var q := k / step;
    assert q * step <= k;
    if q >= count {
      Arithmetic.MulMonotone(count, q, step);
    }
  }

  /** Encoding and then decoding gives back the mesh. */
  lemma {:induction false} DecodeEncode(m: DecodedMesh, uvCount: int)
    requires 0 <= uvCount <= 2
    ensures Decode(Encode(m, uvCount)) == Ok(m)
  {
    var rec := Encode(m, uvCount);
    var step := VertexStep(uvCount);
    Arithmetic.DivModUnique(|rec.vertices|, step, |m.vertices|, 0);
    Arithmetic.DivModUnique(|rec.indices|, 3, |m.faces|, 0);
    DecodeFailsExactly(rec);
    var d := Decode(rec).value;
    assert |d.vertices| == |m.vertices| && |d.faces| == |m.faces|;
    forall i | 0 <= i < |m.vertices|
      ensures d.vertices[i] == m.vertices[i]
    {
      EncodedVertex(m, uvCount, i);
    }
    forall f | 0 <= f < |m.faces|
      ensures d.faces[f] == m.faces[f]
    {
      EncodedFace(m, uvCount, f);
    }
    assert d.vertices == m.vertices && d.faces == m.faces;
  }

  /** Vertex i of the mesh is what the decoder reads at offset i * step of the encoding. */
  lemma {:induction false} EncodedVertex(m: DecodedMesh, uvCount: int, i: nat)
    requires 0 <= uvCount <= 2 && i < |m.vertices|
    ensures var rec, step := Encode(m, uvCount), VertexStep(uvCount);
      i * step + 5 < |rec.vertices| && VertexAt(rec.vertices, i * step) == m.vertices[i]
  {
    var rec, step := Encode(m, uvCount), VertexStep(uvCount);
    var base, v := i * step, m.vertices[i];
    EncodedFloat(m, uvCount, i, 0);
    EncodedFloat(m, uvCount, i, 1);
    EncodedFloat(m, uvCount, i, 2);
    EncodedFloat(m, uvCount, i, 3);
    EncodedFloat(m, uvCount, i, 4);
    EncodedFloat(m, uvCount, i, 5);
    assert rec.vertices[base] == v.coordinates.x && rec.vertices[base + 1] == v.coordinates.y;
    assert rec.vertices[base + 2] == v.coordinates.z && rec.vertices[base + 3] == v.normal.x;
    assert rec.vertices[base + 4] == v.normal.y && rec.vertices[base + 5] == v.normal.z;
  }

  /** Float j of vertex i sits at offset i * step + j of the encoding. */
  lemma {:induction false} EncodedFloat(m: DecodedMesh, uvCount: int, i: nat, j: nat)
    requires 0 <= uvCount <= 2 && i < |m.vertices| && j < VertexStep(uvCount)
    ensures var rec, step := Encode(m, uvCount), VertexStep(uvCount);
      i * step + j < |rec.vertices| && rec.vertices[i * step + j] == VertexFloat(m.vertices[i], j)
  {
    var step := VertexStep(uvCount);
    var n := |m.vertices|;
    Arithmetic.MulMonotone(i + 1, n, step);
    assert (i + 1) * step == i * step + step;
    Arithmetic.DivModUnique(i * step + j, step, i, j);
  }

  /** Face f of the mesh is what the decoder reads at offset 3 * f of the encoding. */
  lemma {:induction false} EncodedFace(m: DecodedMesh, uvCount: int, f: nat)
    requires 0 <= uvCount <= 2 && f < |m.faces|
    ensures var rec := Encode(m, uvCount);
      3 * f + 2 < |rec.indices| && FaceAt(rec.indices, 3 * f) == m.faces[f]
  {
    var rec := Encode(m, uvCount);
    forall j | 0 <= j < 3
      ensures rec.indices[3 * f + j] == FaceIndex(m.faces[f], j)
    {
      Arithmetic.DivModUnique(3 * f + j, 3, f, j);
    }
  }

  /** A vertex whose reads pass the end makes the whole decode fail. */
  lemma DecodeFailsAt(rec: MeshRecord, i: nat)
    requires i < |rec.vertices| / VertexStep(rec.uvCount)
    requires i * VertexStep(rec.uvCount) + 5 >= |rec.vertices|
    ensures Decode(rec) == Err(IndexOutOfRange)
  {
    var step := VertexStep(rec.uvCount);
    Arithmetic.MulMonotone(i, |rec.vertices| / step - 1, step);
  }

  /** Slots holding exactly the records at the loops' offsets, with a readable position, are
      what Decode returns. */
  lemma DecodeSucceeds(rec: MeshRecord, vertices: seq<Vertex>, faces: seq<Face>)
    requires |vertices| == |rec.vertices| / VertexStep(rec.uvCount)
    requires forall i :: 0 <= i < |vertices| ==>
      i * VertexStep(rec.uvCount) + 5 < |rec.vertices| &&
      vertices[i] == VertexAt(rec.vertices, i * VertexStep(rec.uvCount))
    requires |faces| == |rec.indices| / 3
    requires forall f :: 0 <= f < |faces| ==> faces[f] == FaceAt(rec.indices, 3 * f)
    requires |rec.position| >= 3
    ensures Decode(rec) ==
      Ok(DecodedMesh(rec.name, vertices, faces, Vector3(rec.position[0], rec.position[1], rec.position[2])))
  {
    var step := VertexStep(rec.uvCount);
    var n := |vertices|;
    if n > 0 {
      assert (n - 1) * step + 5 < |rec.vertices|;
    }
    var decoded := Decode(rec).value;
    forall i | 0 <= i < n
      ensures vertices[i] == decoded.vertices[i]
    {
      assert decoded.vertices[i] == VertexAt(rec.vertices, i * step);
    }
    assert vertices == decoded.vertices;
    assert faces == decoded.faces;
  }

  /** The decoding body for one mesh entry: select the step, allocate and fill the vertex and
      face slots, then read the position. A read past the end of an array ends the decode with
      IndexOutOfRange. */
  method DecodeMesh(rec: MeshRecord) returns (r: Result<DecodedMesh>)
    ensures r == Decode(rec)
  {
    var vertexStep := 1;
    if rec.uvCount == 0 {
      vertexStep := 6;
    } else if rec.uvCount == 1 {
      vertexStep := 8;
    } else if rec.uvCount == 2 {
      vertexStep := 10;
    }
    assert vertexStep == VertexStep(rec.uvCount);
    var vertexCount := |rec.vertices| / vertexStep;
    var faceCount := |rec.indices| / 3;
    var vertices, complete := ReadVertices(rec.vertices, vertexStep, vertexCount);
    if !complete {
      ghost var i :| 0 <= i < vertexCount && i * vertexStep + 5 >= |rec.vertices|;
      DecodeFailsAt(rec, i);
      return Err(IndexOutOfRange);
    }
    var faces := ReadFaces(rec.indices, faceCount);
    if |rec.position| < 3 {
      return Err(IndexOutOfRange);
    }
    DecodeSucceeds(rec, vertices[..], faces[..]);
    r := Ok(DecodedMesh(rec.name, vertices[..], faces[..],
                        Vector3(rec.position[0], rec.position[1], rec.position[2])));
  }

  /** The vertex loop: slot i takes the six floats at i * step. complete is false when some
      vertex's reads pass the end of the data; the loop stops at the first such vertex. */
  method ReadVertices(data: seq<real>, step: nat, count: nat) returns (vertices: array<Vertex>, complete: bool)
    requires step > 0
    ensures fresh(vertices) && vertices.Length == count
    ensures !complete <==> exists i :: 0 <= i < count && i * step + 5 >= |data|
    ensures complete ==> forall i :: 0 <= i < count ==>
      i * step + 5 < |data| && vertices[i] == VertexAt(data, i * step)
  {
    vertices := new Vertex[count];
    var vertexIndex := 0;
    while vertexIndex < count
      invariant 0 <= vertexIndex <= count
      invariant forall i :: 0 <= i < vertexIndex ==>
        i * step + 5 < |data| && vertices[i] == VertexAt(data, i * step)
    {
      if vertexIndex * step + 5 >= |data| {
        return vertices, false;
      }
      var base := vertexIndex * step;
      vertices[vertexIndex] := VertexAt(data, base);
      vertexIndex := vertexIndex + 1;
    }
    complete := true;
  }

  /** The face loop: slot f takes the three indices at 3 * f. */
  method ReadFaces(indices: seq<int>, count: nat) returns (faces: array<Face>)
    requires count == |indices| / 3
    ensures fresh(faces) && faces.Length == count
    ensures forall f :: 0 <= f < count ==> 3 * f + 2 < |indices| && faces[f] == FaceAt(indices, 3 * f)
  {
    faces := new Face[count];
    var faceIndex := 0;
    while faceIndex < count
      invariant 0 <= faceIndex <= count
      invariant forall f :: 0 <= f < faceIndex ==> 3 * f + 2 < |indices| && faces[f] == FaceAt(indices, 3 * f)
    {
      faces[faceIndex] := FaceAt(indices, 3 * faceIndex);
      faceIndex := faceIndex + 1;
    }
  }

  /** The loop over the model's mesh list: one decoded mesh per entry, in entry order; the first
      entry that fails ends the whole load with its error. */
  method LoadModel(records: seq<MeshRecord>) returns (r: Result<seq<DecodedMesh>>)
    ensures r.Ok? <==> forall i :: 0 <= i < |records| ==> Decode(records[i]).Ok?
    ensures r.Ok? ==> |r.value| == |records| &&
                      (forall i :: 0 <= i < |records| ==> Decode(records[i]) == Ok(r.value[i]))
  {
    var meshes: seq<DecodedMesh> := [];
    var index := 0;
    while index < |records|
      invariant 0 <= index <= |records| && |meshes| == index
      invariant forall i :: 0 <= i < index ==> Decode(records[i]) == Ok(meshes[i])
    {
      var mesh := DecodeMesh(records[index]);
      if mesh.Err? {
        return Err(mesh.error);
      }
      meshes := meshes + [mesh.value];
      index := index + 1;
    }
    r := Ok(meshes);
  }
}
