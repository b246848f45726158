/** The mesh container the affine pipeline writes into: four ordered lists
    that the viewer fills while reading a mesh and that its methods extend
    one element at a time. */
module Mesh {

  /** A vertex position or a normal. */
  datatype Vec3 = Vec3(x: real, y: real, z: real)

  /** A texture coordinate. */
  datatype Vec2 = Vec2(x: real, y: real)

  /** A face, given by the indices of its vertices in the vertex list. */
  datatype Polygon = Polygon(vertexIndices: seq<int>)

  class Model {
    var vertices: seq<Vec3>
    var textureVertices: seq<Vec2>
    var normals: seq<Vec3>
    var polygons: seq<Polygon>

    /** A new mesh holds no geometry at all. */
    constructor ()
      ensures vertices == [] && textureVertices == [] && normals == [] && polygons == []
    {
      vertices := [];
      textureVertices := [];
      normals := [];
      polygons := [];
    }

    /** Appends the position (x, y, z) to the vertex list. */
    method AddVertex(x: real, y: real, z: real)
      modifies this
      ensures vertices == old(vertices) + [Vec3(x, y, z)]
      ensures textureVertices == old(textureVertices) && normals == old(normals) && polygons == old(polygons)
    {
      vertices := vertices + [Vec3(x, y, z)];
    }

    /** Appends the normal (x, y, z) to the normal list. */
    method AddNormal(x: real, y: real, z: real)
      modifies this
      ensures normals == old(normals) + [Vec3(x, y, z)]
      ensures vertices == old(vertices) && textureVertices == old(textureVertices) && polygons == old(polygons)
    {
      normals := normals + [Vec3(x, y, z)];
    }

    /** Appends one face whose vertex indices are `args`, in order. */
    method AddPolygon(args: seq<int>)
      modifies this
      ensures polygons == old(polygons) + [Polygon(args)]
      ensures vertices == old(vertices) && textureVertices == old(textureVertices) && normals == old(normals)
    {
      var polygon := Polygon(args);
      polygons := polygons + [polygon];
    }
  }
}
