/**
  The vertex record of the mesh pipeline: a homogeneous position, a texture
  coordinate, a normal and a colour. The OBJ loader fills all four and the
  Phong material reads the texture coordinate and the normal; the snapshot
  of src/vertex.h in the repository lacks the normal, which those two files
  use, so it is included here.
 */
module Vertices {
  import opened Vectors
  import opened Colors

  datatype Vertex = Vertex(position: Vector4, uv: Vector2, normal: Vector3, color: Color)
}
