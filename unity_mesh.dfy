/** The mesh container of the SharpDX-based pipeline (UnityMesh.cs): a fixed vertex array of
    SharpDX vectors and a face array that, unlike Mesh's, may be replaced. */
module UnityMeshes {
  import opened Vectors
  import opened Meshes

  class UnityMesh {
    /** Private setter: the vertex array object is fixed, only its slots change. */
    const vertices: array<Vector3>
    /** Public setter: callers may assign a different face array. */
    var faces: array<Face>
    var position: Vector3
    var rotation: Vector3

    constructor (vertexCount: nat, faceCount: nat)
      ensures vertices.Length == vertexCount && faces.Length == faceCount
      ensures fresh(vertices) && fresh(faces)
      ensures forall i :: 0 <= i < vertices.Length ==> vertices[i] == Zero
      ensures position == Zero && rotation == Zero
    {
      vertices := new Vector3[vertexCount](_ => Zero);
      faces := new Face[faceCount];
      position := Zero;
      rotation := Zero;
    }
  }
}
