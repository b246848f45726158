/** What the affine pipeline promises, stated over the model and proved:
    the snapping function, the builders against the expectations of the
    test suite, the rotation step at the angles the tests use, and why the
    normal path takes the inverse-transpose. */
module AffineProperties {
  import opened LinearAlgebra
  import opened LinearAlgebraFacts
  import opened MatrixShapes
  import opened AffineTransformation

  /** Snapping a snapped value changes nothing. */
  lemma RoundByAccuracyIdempotent(value: real)
    ensures RoundByAccuracy(RoundByAccuracy(value)) == RoundByAccuracy(value)
  {
    var r := RoundByAccuracy(value);
    if Abs(value) < Accuracy {
      assert r == 0.0;
    } else if 1.0 - Abs(value) < Accuracy {
      assert Abs(r) == 1.0;
    } else {
      assert r == value;
    }
  }

  /** Unit factors leave a vertex where it is. */
  lemma VertexScalingByOnes(vertex: Vector3)
    ensures VertexScaling(vertex, [1.0, 1.0, 1.0]) == vertex
  {
  }

  /** A zero offset leaves a vertex where it is. */
  lemma VertexTranslationByZero(vertex: Vector3)
    ensures VertexTranslation(vertex, [0.0, 0.0, 0.0]) == vertex
  {
  }

  /** AffineTransformationTest.vertexScalingTest and vertexTranslationTest. */
  lemma ScalingAndTranslationExamples()
    ensures VertexScaling([2.0, 3.0, 4.0], [2.0, 3.0, 5.0]) == [4.0, 9.0, 20.0]
    ensures VertexTranslation([2.0, 3.0, 4.0], [2.0, 3.0, 5.0]) == [4.0, 6.0, 9.0]
  {
  }

  /** AffineTransformationTest.createScalingMatrixTest and createTranslationMatrixTest. */
  lemma BuilderExamples()
    ensures CreateScalingMatrix([2.0, 3.0, 5.0]).e == [2.0, 0.0, 0.0, 0.0, 3.0, 0.0, 0.0, 0.0, 5.0]
    ensures CreateTranslationMatrix([2.0, 3.0, 5.0]).e
         == [1.0, 0.0, 0.0, 2.0, 0.0, 1.0, 0.0, 3.0, 0.0, 0.0, 1.0, 5.0, 0.0, 0.0, 0.0, 1.0]
  {
  }

  /** The snapped values at the two angles the tests use. */
  lemma RightAngleSnaps(trig: Trig)
    requires RightAngleFacts(trig)
    ensures SnappedCos(0.0, trig) == 1.0 && SnappedSin(0.0, trig) == 0.0
    ensures SnappedCos(90.0, trig) == 0.0 && SnappedSin(90.0, trig) == 1.0
  {
    assert Abs(trig.sinDeg(90.0)) >= 1.0 - Accuracy;
  }

  /** AffineTransformationTest.createRotationMatrixTest: quarter turns about all three axes. */
  lemma RotationMatricesAtRightAngles(trig: Trig)
    requires RightAngleFacts(trig)
    ensures RotationMatrices([90.0, 90.0, 90.0], trig)
         == [Matrix3([1.0, 0.0, 0.0, 0.0, 0.0, -1.0, 0.0, 1.0, 0.0]),
             Matrix3([0.0, 0.0, 1.0, 0.0, 1.0, 0.0, -1.0, 0.0, 0.0]),
             Matrix3([0.0, -1.0, 0.0, 1.0, 0.0, 0.0, 0.0, 0.0, 1.0])]
  {
    RightAngleSnaps(trig);
    RotationMatricesLayout([90.0, 90.0, 90.0], trig);
  }

  /** An axis matrix at angle 0 (cosine 1, sine 0) moves nothing. */
  lemma ZeroAngleApplies(v: Vector3)
    ensures Apply3(AboutX(1.0, 0.0), v) == v && Apply3(AboutY(1.0, 0.0), v) == v && Apply3(AboutZ(1.0, 0.0), v) == v
  {
  }

  /** The parameters NoRotation leave a vertex where it is. */
  lemma VertexRotationNone(vertex: Vector3, trig: Trig)
    ensures VertexRotation(vertex, NoRotation, trig) == vertex
  {
    RotationMatricesLayout(NoRotation, trig);
    ZeroAngleApplies(vertex);
  }

  /** AffineTransformationTest.vertexRotationEmptyTest: zero angles leave a vertex where it is. */
  lemma VertexRotationByZero(vertex: Vector3, trig: Trig)
    requires RightAngleFacts(trig)
    ensures VertexRotation(vertex, [0.0, 0.0, 0.0], trig) == vertex
  {
    RightAngleSnaps(trig);
    RotationMatricesLayout([0.0, 0.0, 0.0], trig);
    ZeroAngleApplies(vertex);
  }

  /** AffineTransformationTest.vertexRotationTest: a quarter turn about x
      sends (x, y, z) to (x, -z, y). */
  lemma VertexRotationQuarterX(vertex: Vector3, trig: Trig)
    requires RightAngleFacts(trig)
    ensures VertexRotation(vertex, [90.0, 0.0, 0.0], trig) == [vertex[0], -vertex[2], vertex[1]]
  {
    RightAngleSnaps(trig);
    RotationMatricesLayout([90.0, 0.0, 0.0], trig);
    var turned := Apply3(AboutX(0.0, 1.0), vertex);
    assert turned[0] == vertex[0] && turned[1] == -vertex[2] && turned[2] == vertex[1];
    ZeroAngleApplies(turned);
  }

  /** Angles 0 and 90 keep c * c + s * s == 1 after snapping, so the test
      angles meet OrthonormalRotation. */
  lemma RightAnglesAreUnit(trig: Trig)
    requires RightAngleFacts(trig)
    ensures UnitAngle(0.0, trig) && UnitAngle(90.0, trig)
  {
    RightAngleSnaps(trig);
  }

  /** Dividing by a factor undoes multiplying by it. */
  lemma QuotientTimesProduct(x: real, y: real, d: real)
    requires d != 0.0
    ensures (x / d) * (y * d) == x * y
  {
    assert (x / d) * d == x;
    assert (x / d) * (y * d) == ((x / d) * d) * y;
  }

  function Dot(u: Vector3, v: Vector3): real
  {
    u[0] * v[0] + u[1] * v[1] + u[2] * v[2]
  }

  /** Dividing one vector and multiplying the other by the same nonzero
      factors leaves their dot product alone. */
  lemma QuotientsAgainstProducts(u: Vector3, v: Vector3, d: Vector3)
    requires d[0] != 0.0 && d[1] != 0.0 && d[2] != 0.0
    ensures Dot([u[0] / d[0], u[1] / d[1], u[2] / d[2]], [v[0] * d[0], v[1] * d[1], v[2] * d[2]]) == Dot(u, v)
  {
    QuotientTimesProduct(u[0], v[0], d[0]);
    QuotientTimesProduct(u[1], v[1], d[1]);
    QuotientTimesProduct(u[2], v[2], d[2]);
  }

  /** Why normals take the inverse-transpose: after scaling by nonzero
      factors, a normal keeps its dot product with every scaled direction,
      so it stays perpendicular to the faces it was perpendicular to. */
  lemma NormalScalingKeepsDot(normal: Vector3, direction: Vector3, scaling: Vector3)
    requires scaling[0] != 0.0 && scaling[1] != 0.0 && scaling[2] != 0.0
    ensures Dot(NormalScaling(normal, scaling), VertexScaling(direction, scaling)) == Dot(normal, direction)
  {
    QuotientsAgainstProducts(normal, direction, scaling);
  }
}
