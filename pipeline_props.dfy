/** What modelTransform promises for a whole mesh: the new lists index by index,
    the identity parameters, the cube of AffineTransformationTest, and the
    normal loop that reads the position list. */
module PipelineProperties {
  import opened LinearAlgebra
  import opened MatrixShapes
  import opened Mesh
  import opened AffineTransformation
  import opened AffineProperties

  /** The parameters that ask for nothing: no offset, no rotation, unit factors. */
  const NoTranslation: Vector3 := [0.0, 0.0, 0.0]
  const NoScaling: Vector3 := [1.0, 1.0, 1.0]

  /** The position path with the identity parameters moves nothing. */
  lemma TransformVertexIdentity(vertex: Vector3, trig: Trig)
    ensures TransformVertex(vertex, NoTranslation, NoRotation, NoScaling, trig) == vertex
  {
    VertexScalingByOnes(vertex);
    VertexRotationNone(vertex, trig);
    VertexTranslationByZero(vertex);
  }

  /** Dividing by unit factors changes nothing. */
  lemma DivideByUnitFactors(v: Vector3)
    ensures [v[0] / 1.0, v[1] / 1.0, v[2] / 1.0] == v
  {
    SameCoordinates(v[0] / 1.0, v[1] / 1.0, v[2] / 1.0, v[0], v[1], v[2]);
    ByCoordinates(v);
  }

  /** The normal path with the identity parameters moves nothing either. */
  lemma TransformNormalIdentity(normal: Vector3, trig: Trig)
    ensures TransformNormal(normal, NoTranslation, NoRotation, NoScaling, trig) == normal
  {
    DivideByUnitFactors(normal);
    VertexRotationNone(normal, trig);
  }

  /** Scaling, a quarter turn about x, then an offset, one after the other:
      (x, y, z) goes to (x*s0 + t0, -(z*s2) + t1, y*s1 + t2). */
  lemma QuarterTurnStages(vertex: Vector3, scaling: Vector3, translation: Vector3, trig: Trig)
    requires RightAngleFacts(trig)
    ensures var moved := VertexTranslation(VertexRotation(VertexScaling(vertex, scaling), [90.0, 0.0, 0.0], trig), translation);
            && moved[0] == vertex[0] * scaling[0] + translation[0]
            && moved[1] == -(vertex[2] * scaling[2]) + translation[1]
            && moved[2] == vertex[1] * scaling[1] + translation[2]
  {
    VertexRotationQuarterX(VertexScaling(vertex, scaling), trig);
  }

  /** The parameters of AffineTransformationTest.modelTransformTest: factors
      2, a quarter turn about x, offsets (2, 3, 4). */
  const CubeTranslation: Vector3 := [2.0, 3.0, 4.0]
  const QuarterTurnX: Vector3 := [90.0, 0.0, 0.0]
  const CubeScaling: Vector3 := [2.0, 2.0, 2.0]

  /** Where the cube test expects the point (x, y, z) to land:
      (2x + 2, -2z + 3, 2y + 4). */
  function CubeImage(p: Vec3): Vec3
  {
    Vec3(p.x * 2.0 + 2.0, -p.z * 2.0 + 3.0, p.y * 2.0 + 4.0)
  }

  /** With those parameters the position path sends (x, y, z) to
      (2x + 2, -2z + 3, 2y + 4). */
  lemma TransformVertexCubeParameters(p: Vec3, trig: Trig)
    requires RightAngleFacts(trig)
    ensures Point(TransformVertex(Coords(p), CubeTranslation, QuarterTurnX, CubeScaling, trig))
         == CubeImage(p)
  {
    var vertex := Coords(p);
    QuarterTurnStages(vertex, CubeScaling, CubeTranslation, trig);
    CubeArithmetic(p, vertex, TransformVertex(vertex, CubeTranslation, QuarterTurnX, CubeScaling, trig));
  }

  /** The arithmetic of the cube parameters, on its own. */
  lemma CubeArithmetic(p: Vec3, vertex: Vector3, moved: Vector3)
    requires vertex == Coords(p)
    requires moved[0] == vertex[0] * CubeScaling[0] + CubeTranslation[0]
    requires moved[1] == -(vertex[2] * CubeScaling[2]) + CubeTranslation[1]
    requires moved[2] == vertex[1] * CubeScaling[1] + CubeTranslation[2]
    ensures Point(moved) == CubeImage(p)
  {
  }

  /** With those parameters every point of a list, whatever its length,
      lands on (2x + 2, -2z + 3, 2y + 4). */
  lemma CubeVertices(points: seq<Vec3>, trig: Trig)
    requires RightAngleFacts(trig)
    ensures forall i :: 0 <= i < |points| ==>
              TransformedVertices(points, CubeTranslation, QuarterTurnX, CubeScaling, trig)[i]
              == CubeImage(points[i])
  {
    forall i | 0 <= i < |points|
      ensures TransformedVertices(points, CubeTranslation, QuarterTurnX, CubeScaling, trig)[i]
              == CubeImage(points[i])
    {
      TransformVertexCubeParameters(points[i], trig);
    }
  }

  /** The mesh of AffineTransformationTest.modelTransformTest: the eight
      corners of the unit cube and its six faces, with 1-based indices. */
  method BuildCube() returns (model: Model)
    ensures fresh(model)
    ensures model.vertices
         == [Vec3(0.0, 0.0, 0.0), Vec3(0.0, 0.0, 1.0), Vec3(1.0, 0.0, 1.0), Vec3(1.0, 0.0, 0.0),
             Vec3(0.0, 1.0, 0.0), Vec3(0.0, 1.0, 1.0), Vec3(1.0, 1.0, 1.0), Vec3(1.0, 1.0, 0.0)]
    ensures model.polygons
         == [Polygon([1, 2, 3, 4]), Polygon([5, 6, 7, 8]), Polygon([1, 2, 6, 5]),
             Polygon([2, 3, 7, 6]), Polygon([3, 4, 8, 7]), Polygon([1, 4, 8, 5])]
    ensures model.textureVertices == [] && model.normals == []
  {
    model := new Model();
    model.AddVertex(0.0, 0.0, 0.0);
    model.AddVertex(0.0, 0.0, 1.0);
    model.AddVertex(1.0, 0.0, 1.0);
    model.AddVertex(1.0, 0.0, 0.0);
    model.AddVertex(0.0, 1.0, 0.0);
    model.AddVertex(0.0, 1.0, 1.0);
    model.AddVertex(1.0, 1.0, 1.0);
    model.AddVertex(1.0, 1.0, 0.0);
    model.AddPolygon([1, 2, 3, 4]);
    model.AddPolygon([5, 6, 7, 8]);
    model.AddPolygon([1, 2, 6, 5]);
    model.AddPolygon([2, 3, 7, 6]);
    model.AddPolygon([3, 4, 8, 7]);
    model.AddPolygon([1, 4, 8, 5]);
  }

  /** ModelTransform with the parameters of the cube test, on any mesh:
      every position lands on (2x + 2, -2z + 3, 2y + 4), and the faces and
      texture coordinates are carried over. */
  method TransformWithCubeParameters(model: Model, trig: Trig) returns (result: Model)
    requires RightAngleFacts(trig) && |model.normals| <= |model.vertices|
    ensures |result.vertices| == |model.vertices|
    ensures forall i :: 0 <= i < |model.vertices| ==>
              result.vertices[i]
              == CubeImage(model.vertices[i])
    ensures result.polygons == model.polygons && result.textureVertices == model.textureVertices
  {
    result := ModelTransform(model, CubeTranslation, QuarterTurnX, CubeScaling, trig);
    CubeVertices(model.vertices, trig);
  }

  /** AffineTransformationTest.modelTransformTest: the unit cube through
      ModelTransform; every corner lands on (2x + 2, -2z + 3, 2y + 4) and the
      faces and texture coordinates are carried over. */
  method CubeTransformExample(trig: Trig) returns (model: Model, result: Model)
    requires RightAngleFacts(trig)
    ensures |model.vertices| == 8 && |result.vertices| == 8
    ensures forall i :: 0 <= i < 8 ==>
              result.vertices[i]
              == CubeImage(model.vertices[i])
    ensures |result.polygons| == |model.polygons| == 6
    ensures |result.textureVertices| == |model.textureVertices| == 0
  {
    model := BuildCube();
    result := TransformWithCubeParameters(model, trig);
  }

  /** The normal loop of ModelTransform as written: with the identity
      parameters, a mesh with the position (0, 0, 0) and the normal (0, 0, 1)
      comes back with the normal (0, 0, 0), the position run through the
      normal path, instead of its own normal. */
  method NormalsFromPositionsExample(trig: Trig) returns (normalsIn: seq<Vec3>, normalsOut: seq<Vec3>)
    ensures normalsIn == [Vec3(0.0, 0.0, 1.0)]
    ensures normalsOut == [Vec3(0.0, 0.0, 0.0)]
  {
    var model := new Model();
    model.AddVertex(0.0, 0.0, 0.0);
    model.AddNormal(0.0, 0.0, 1.0);
    normalsIn := model.normals;
    var result := ModelTransform(model, NoTranslation, NoRotation, NoScaling, trig);
    normalsOut := result.normals;
    AsWrittenNormalsUnderIdentity(model.vertices, 1, trig, 0);
    assert normalsOut == [normalsOut[0]];
  }

  /** The corrected loop on the same mesh keeps the normal (0, 0, 1). */
  method NormalsFromNormalsExample(trig: Trig) returns (normalsIn: seq<Vec3>, normalsOut: seq<Vec3>)
    ensures normalsIn == [Vec3(0.0, 0.0, 1.0)]
    ensures normalsOut == normalsIn
  {
    var model := new Model();
    model.AddVertex(0.0, 0.0, 0.0);
    model.AddNormal(0.0, 0.0, 1.0);
    normalsIn := model.normals;
    var result := ModelTransformCorrected(model, NoTranslation, NoRotation, NoScaling, trig);
    normalsOut := result.normals;
    CorrectedNormalsUnderIdentity(normalsIn, trig, 0);
    assert |normalsOut| == 1 && normalsOut[0] == normalsIn[0];
  }

  /** With the identity parameters, the corrected mesh has the normals it
      was given, index by index. */
  lemma CorrectedNormalsUnderIdentity(normals: seq<Vec3>, trig: Trig, i: nat)
    requires i < |normals|
    ensures TransformedNormals(normals, NoTranslation, NoRotation, NoScaling, trig)[i] == normals[i]
  {
    TransformNormalIdentity(Coords(normals[i]), trig);
  }

  /** As written, under the identity parameters the new normal i is vertex i. */
  lemma AsWrittenNormalsUnderIdentity(vertices: seq<Vec3>, normalCount: nat, trig: Trig, i: nat)
    requires i < normalCount <= |vertices|
    ensures TransformedNormals(vertices[..normalCount], NoTranslation, NoRotation, NoScaling, trig)[i] == vertices[i]
  {
    TransformNormalIdentity(Coords(vertices[i]), trig);
  }
}
