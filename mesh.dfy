/** The engine's mesh container (Mesh.cs): a name, fixed-capacity vertex and face arrays
    allocated by the constructor and filled slot by slot by callers, and a freely assignable
    position and rotation. */
module Meshes {
  import opened UnityVectors

  /** A triangle as three indices into the vertex array (Face.cs is not part of this model). */
  datatype Face = Face(a: int, b: int, c: int)

  class Mesh {
    var name: string
    /** The arrays have private setters: the array objects are fixed, only their slots change. */
    const vertices: array<UnityVector3>
    const faces: array<Face>
    var position: UnityVector3
    var rotation: UnityVector3

    /** The counts are the capacities of the two arrays; every vertex slot, position and rotation
        start as the default UnityVector3, the zero vector. */
    constructor (name: string, vertexCount: nat, faceCount: nat)
      ensures this.name == name
      ensures vertices.Length == vertexCount && faces.Length == faceCount
      ensures fresh(vertices) && fresh(faces)
      ensures forall i :: 0 <= i < vertices.Length ==> vertices[i] == Zero
      ensures position == Zero && rotation == Zero
    {
      this.name := name;
      vertices := new UnityVector3[vertexCount](_ => Zero);
      faces := new Face[faceCount];
      position := Zero;
      rotation := Zero;
    }
  }
}
