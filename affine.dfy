/** The affine-transformation pipeline of the viewer: it builds a scaling
    matrix, three per-axis rotation matrices and a homogeneous translation
    matrix from three parameter vectors, applies them to vertex positions
    directly and to normals through the inverse-transpose, and builds a new
    mesh from the results. Every per-element transform falls back to its
    input when the matrix kernel fails. */
module AffineTransformation {
  import opened LinearAlgebra
  import opened LinearAlgebraFacts
  import opened MatrixShapes
  import opened Mesh

  /** Snapping tolerance of RoundByAccuracy, the literal 10e-10 (that is, 1e-9). */
  const Accuracy: real := 0.000000001

  /** The rotation parameters that mean "no rotation at all". */
  const NoRotation: Vector3 := [1.0, 1.0, 1.0]

  const Identity3: Matrix := Matrix3([1.0, 0.0, 0.0, 0.0, 1.0, 0.0, 0.0, 0.0, 1.0])

  function Abs(x: real): real
  {
    if x < 0.0 then -x else x
  }

  /** The sign of x as -1, 0 or 1. */
  function Signum(x: real): real
  {
    if x > 0.0 then 1.0 else if x < 0.0 then -1.0 else 0.0
  }

  /** Snaps a value within Accuracy of 0 to 0, and a value within Accuracy of
      1 in absolute value, or beyond 1, to its sign; other values pass. */
  function RoundByAccuracy(value: real): (r: real)
    ensures -1.0 <= r <= 1.0
    ensures r == 0.0 <==> Abs(value) < Accuracy
    ensures 1.0 - Abs(value) < Accuracy ==> r == Signum(value)
    ensures Abs(value) <= 1.0 ==> Abs(r - value) < Accuracy
    ensures Accuracy <= Abs(value) <= 1.0 - Accuracy ==> r == value
    ensures r == 0.0 || Signum(r) == Signum(value)
  {
    if Abs(value) < Accuracy then 0.0
    else if 1.0 - Abs(value) < Accuracy then Signum(value)
    else value
  }

  /** Cosine and sine of an angle given in degrees, as the platform computes
      them: the conversion to radians, the floating-point evaluation and the
      cast to single precision are all inside these two functions. */
  datatype Trig = Trig(cosDeg: real -> real, sinDeg: real -> real)

  /** What the viewer's tests rely on about the platform: cos 0 = 1 and
      sin 0 = 0 exactly, while cos 90 and sin 90 only come within Accuracy of
      0 and 1 (the double nearest to pi/2 is not pi/2). */
  predicate RightAngleFacts(trig: Trig)
  {
    && trig.cosDeg(0.0) == 1.0 && trig.sinDeg(0.0) == 0.0
    && Abs(trig.cosDeg(90.0)) < Accuracy && Abs(trig.sinDeg(90.0) - 1.0) < Accuracy
  }

  /** Diagonal matrix with the three scaling factors on the diagonal. */
  function CreateScalingMatrix(scaling: Vector3): (m: Matrix)
    ensures m.Matrix3? && m.Valid()
    ensures forall i, j :: 0 <= i < 3 && 0 <= j < 3 ==> m.At(i, j) == if i == j then scaling[i] else 0.0
  {
    Diagonal(scaling[0], scaling[1], scaling[2])
  }

  /** Homogeneous 4x4 matrix: the identity with the offsets in the last column. */
  function CreateTranslationMatrix(translation: Vector3): (m: Matrix)
    ensures m.Matrix4? && m.Valid()
    ensures forall i, j :: 0 <= i < 4 && 0 <= j < 4 ==>
              m.At(i, j) == if i == j then 1.0 else if j == 3 then translation[i] else 0.0
  {
    Homogeneous(translation[0], translation[1], translation[2])
  }

  /** Rotation about the x axis by `angle` degrees, every trigonometric entry snapped. */
  function RotationAboutX(angle: real, trig: Trig): (m: Matrix)
    ensures m.Matrix3? && m.Valid()
  {
    Matrix3([1.0, 0.0, 0.0,
             0.0, RoundByAccuracy(trig.cosDeg(angle)), RoundByAccuracy(-trig.sinDeg(angle)),
             0.0, RoundByAccuracy(trig.sinDeg(angle)), RoundByAccuracy(trig.cosDeg(angle))])
  }

  /** Rotation about the y axis by `angle` degrees, every trigonometric entry snapped. */
  function RotationAboutY(angle: real, trig: Trig): (m: Matrix)
    ensures m.Matrix3? && m.Valid()
  {
    Matrix3([RoundByAccuracy(trig.cosDeg(angle)), 0.0, RoundByAccuracy(trig.sinDeg(angle)),
             0.0, 1.0, 0.0,
             RoundByAccuracy(-trig.sinDeg(angle)), 0.0, RoundByAccuracy(trig.cosDeg(angle))])
  }

  /** Rotation about the z axis by `angle` degrees, every trigonometric entry snapped. */
  function RotationAboutZ(angle: real, trig: Trig): (m: Matrix)
    ensures m.Matrix3? && m.Valid()
  {
    Matrix3([RoundByAccuracy(trig.cosDeg(angle)), RoundByAccuracy(-trig.sinDeg(angle)), 0.0,
             RoundByAccuracy(trig.sinDeg(angle)), RoundByAccuracy(trig.cosDeg(angle)), 0.0,
             0.0, 0.0, 1.0])
  }

  /** The three rotation matrices, x then y then z; the parameters
      NoRotation give three identities instead. */
  function RotationMatrices(rotation: Vector3, trig: Trig): (ms: seq<Matrix>)
    ensures |ms| == 3 && forall k :: 0 <= k < 3 ==> ms[k].Matrix3? && ms[k].Valid()
  {
    if rotation == NoRotation then [Identity3, Identity3, Identity3]
    else [RotationAboutX(rotation[0], trig), RotationAboutY(rotation[1], trig), RotationAboutZ(rotation[2], trig)]
  }

  /** Fills a fresh three-slot array with the rotation matrices. */
  method CreateRotationMatrix(rotation: Vector3, trig: Trig) returns (matrices: array<Matrix>)
    ensures fresh(matrices)
    ensures matrices[..] == RotationMatrices(rotation, trig)
  {
    matrices := new Matrix[3];
    if rotation == NoRotation {
      var identityMatrix := Identity3;
      for i := 0 to 3
        invariant forall k :: 0 <= k < i ==> matrices[k] == identityMatrix
      {
        matrices[i] := identityMatrix;
      }
      return;
    }
    matrices[0] := RotationAboutX(rotation[0], trig);
    matrices[1] := RotationAboutY(rotation[1], trig);
    matrices[2] := RotationAboutZ(rotation[2], trig);
  }

  /** Multiplies the vector held by `attempt` by m; a failure passes through. */
  function MulThen(attempt: Result<Vector>, m: Matrix): (r: Result<Vector>)
    requires m.Valid()
    ensures r.Ok? <==> attempt.Ok? && |attempt.value| == m.Size()
    ensures r.Ok? ==> |r.value| == m.Size()
  {
    match attempt
    case Err(e) => Err(e)
    case Ok(v) => MulVec(m, v)
  }

  /** Multiplies the vector held by `attempt` by the transpose of the inverse
      of m; a failure, or a matrix without inverse, gives a failure. */
  function InverseTransposeThen(attempt: Result<Vector>, m: Matrix): (r: Result<Vector>)
    requires m.Valid()
    ensures r.Ok? <==> attempt.Ok? && Det(m) != 0.0 && |attempt.value| == m.Size()
    ensures r.Ok? ==> |r.value| == m.Size()
  {
    match attempt
    case Err(e) => Err(e)
    case Ok(v) =>
      var inverse :- Inverse(m);
      MulVec(Transpose(inverse), v)
  }

  /** Snapping commutes with negation, so the snapped -sin entry of the
      rotation matrices is the negated snapped sine. */
  lemma RoundByAccuracyOdd(value: real)
    ensures RoundByAccuracy(-value) == -RoundByAccuracy(value)
  {
    assert Abs(-value) == Abs(value);
  }

  function SnappedCos(angle: real, trig: Trig): real
  {
    RoundByAccuracy(trig.cosDeg(angle))
  }

  function SnappedSin(angle: real, trig: Trig): real
  {
    RoundByAccuracy(trig.sinDeg(angle))
  }

  /** A snapped angle whose cosine and sine are still on the unit circle. */
  predicate UnitAngle(angle: real, trig: Trig)
  {
    OnUnitCircle(SnappedCos(angle, trig), SnappedSin(angle, trig))
  }

  /** Rotation parameters whose three matrices are inverted by their
      transposes: no rotation at all, or three angles that stay on the unit
      circle after snapping. */
  predicate OrthonormalRotation(rotation: Vector3, trig: Trig)
  {
    rotation == NoRotation
    || (UnitAngle(rotation[0], trig) && UnitAngle(rotation[1], trig) && UnitAngle(rotation[2], trig))
  }

  /** Each axis matrix has the textbook layout in the snapped cosine and sine. */
  lemma AxisRotationLayouts(angle: real, trig: Trig)
    ensures RotationAboutX(angle, trig) == AboutX(SnappedCos(angle, trig), SnappedSin(angle, trig))
    ensures RotationAboutY(angle, trig) == AboutY(SnappedCos(angle, trig), SnappedSin(angle, trig))
    ensures RotationAboutZ(angle, trig) == AboutZ(SnappedCos(angle, trig), SnappedSin(angle, trig))
  {
    RoundByAccuracyOdd(trig.sinDeg(angle));
  }

  /** The rotation parameters NoRotation give three identities; any other
      parameters give the x, y and z axis matrices of their three angles. */
  lemma RotationMatricesLayout(rotation: Vector3, trig: Trig)
    ensures rotation == NoRotation ==> RotationMatrices(rotation, trig) == [AboutX(1.0, 0.0), AboutY(1.0, 0.0), AboutZ(1.0, 0.0)]
    ensures rotation != NoRotation ==>
              RotationMatrices(rotation, trig)
              == [AboutX(SnappedCos(rotation[0], trig), SnappedSin(rotation[0], trig)),
                  AboutY(SnappedCos(rotation[1], trig), SnappedSin(rotation[1], trig)),
                  AboutZ(SnappedCos(rotation[2], trig), SnappedSin(rotation[2], trig))]
  {
    AxisRotationLayouts(rotation[0], trig);
    AxisRotationLayouts(rotation[1], trig);
    AxisRotationLayouts(rotation[2], trig);
  }

  /** Under OrthonormalRotation every rotation matrix has its transpose as inverse. */
  lemma RotationMatricesOrthonormal(rotation: Vector3, trig: Trig)
    requires OrthonormalRotation(rotation, trig)
    ensures var ms := RotationMatrices(rotation, trig);
            && Inverse(ms[0]) == Ok(Transpose(ms[0]))
            && Inverse(ms[1]) == Ok(Transpose(ms[1]))
            && Inverse(ms[2]) == Ok(Transpose(ms[2]))
  {
    RotationMatricesLayout(rotation, trig);
    if rotation == NoRotation {
      AboutXInverse(1.0, 0.0);
      AboutYInverse(1.0, 0.0);
      AboutZInverse(1.0, 0.0);
    } else {
      AboutXInverse(SnappedCos(rotation[0], trig), SnappedSin(rotation[0], trig));
      AboutYInverse(SnappedCos(rotation[1], trig), SnappedSin(rotation[1], trig));
      AboutZInverse(SnappedCos(rotation[2], trig), SnappedSin(rotation[2], trig));
    }
  }

  /** When the inverse is the transpose, the transpose of the inverse is the
      matrix itself, so the normal step is the position step. */
  lemma InverseTransposeOfOrthonormal(attempt: Result<Vector>, m: Matrix)
    requires m.Valid() && Inverse(m) == Ok(Transpose(m))
    ensures InverseTransposeThen(attempt, m) == MulThen(attempt, m)
  {
    TransposeInvolutive(m);
  }

  /** Multiplying by one 3x3 matrix is the row-by-row product. */
  lemma MulThenApplies(v: Vector3, m: Matrix)
    requires m.Matrix3? && m.Valid()
    ensures MulThen(Ok(v), m).Ok? && MulThen(Ok(v), m).value == Apply3(m, v)
  {
    MulVec3Layout(m, v);
  }

  /** Once the inverse is known, the normal step multiplies by its transpose. */
  lemma InverseTransposeThenKnown(v: Vector, m: Matrix, inverse: Matrix)
    requires m.Valid() && Inverse(m) == Ok(inverse)
    ensures InverseTransposeThen(Ok(v), m) == MulVec(Transpose(inverse), v)
  {
  }

  /** The normal-path product with the scaling matrix divides by nonzero
      factors; a zero factor makes the kernel refuse. */
  lemma ScaledNormalProduct(normal: Vector3, scaling: Vector3)
    ensures scaling[0] != 0.0 && scaling[1] != 0.0 && scaling[2] != 0.0 ==>
              InverseTransposeThen(Ok(normal), CreateScalingMatrix(scaling))
              == Ok([normal[0] / scaling[0], normal[1] / scaling[1], normal[2] / scaling[2]])
    ensures scaling[0] == 0.0 || scaling[1] == 0.0 || scaling[2] == 0.0 ==>
              InverseTransposeThen(Ok(normal), CreateScalingMatrix(scaling)).Err?
  {
    DiagonalInverse(scaling[0], scaling[1], scaling[2]);
    if scaling[0] != 0.0 && scaling[1] != 0.0 && scaling[2] != 0.0 {
      var d := Reciprocals(scaling);
      DiagonalSymmetric(d[0], d[1], d[2]);
      DiagonalTimes(d, normal);
      HadamardReciprocals(normal, scaling);
      InverseTransposeThenKnown(normal, CreateScalingMatrix(scaling), Diagonal(d[0], d[1], d[2]));
    }
  }

  /** Under OrthonormalRotation the three normal-path products are the three
      position-path products. */
  lemma RotatedNormalProduct(normal: Vector3, rotation: Vector3, trig: Trig)
    ensures var ms := RotationMatrices(rotation, trig);
            OrthonormalRotation(rotation, trig) ==>
              InverseTransposeThen(InverseTransposeThen(InverseTransposeThen(Ok(normal), ms[0]), ms[1]), ms[2])
              == MulThen(MulThen(MulThen(Ok(normal), ms[0]), ms[1]), ms[2])
  {
    if OrthonormalRotation(rotation, trig) {
      RotationMatricesOrthonormal(rotation, trig);
      var ms := RotationMatrices(rotation, trig);
      var first := InverseTransposeThen(Ok(normal), ms[0]);
      InverseTransposeOfOrthonormal(Ok(normal), ms[0]);
      var second := InverseTransposeThen(first, ms[1]);
      InverseTransposeOfOrthonormal(first, ms[1]);
      InverseTransposeOfOrthonormal(second, ms[2]);
    }
  }

  /** The normal-path product with the translation matrix keeps the first
      three coordinates of the lifted normal. */
  lemma TranslatedNormalProduct(normal: Vector3, translation: Vector3)
    ensures var w := InverseTransposeThen(Ok([normal[0], normal[1], normal[2], 1.0]), CreateTranslationMatrix(translation));
            w.Ok? && |w.value| == 4 && w.value[0] == normal[0] && w.value[1] == normal[1] && w.value[2] == normal[2]
  {
    var t0, t1, t2 := translation[0], translation[1], translation[2];
    var m, lifted := CreateTranslationMatrix(translation), [normal[0], normal[1], normal[2], 1.0];
    var kept := MulVec(Transpose(Homogeneous(-t0, -t1, -t2)), lifted);
    assert kept.Ok? && |kept.value| == 4 && kept.value[0] == normal[0] && kept.value[1] == normal[1] && kept.value[2] == normal[2] by {
      HomogeneousTransposeKeeps(-t0, -t1, -t2, normal[0], normal[1], normal[2]);
    }
    assert InverseTransposeThen(Ok(lifted), m) == kept by {
      assert m == Homogeneous(t0, t1, t2);
      HomogeneousInverse(t0, t1, t2);
      InverseTransposeThenKnown(lifted, m, Homogeneous(-t0, -t1, -t2));
    }
  }

  /** Multiplies the scaling matrix by the vertex: the kernel never refuses,
      and each coordinate is multiplied by its own factor. */
  function VertexScaling(vertex: Vector3, scaling: Vector3): (r: Vector3)
    ensures r == [vertex[0] * scaling[0], vertex[1] * scaling[1], vertex[2] * scaling[2]]
  {
    DiagonalTimes(scaling, vertex);
    match MulVec(CreateScalingMatrix(scaling), vertex)
    case Ok(result) => result
    case Err(_) => vertex
  }

  /** Multiplies the vertex by the x, then the y, then the z rotation matrix;
      none of the three products fails. */
  function VertexRotation(vertex: Vector3, rotation: Vector3, trig: Trig): (r: Vector3)
    ensures var ms := RotationMatrices(rotation, trig);
            r == Apply3(ms[2], Apply3(ms[1], Apply3(ms[0], vertex)))
  {
    var matrices := RotationMatrices(rotation, trig);
    MulThenApplies(vertex, matrices[0]);
    MulThenApplies(Apply3(matrices[0], vertex), matrices[1]);
    MulThenApplies(Apply3(matrices[1], Apply3(matrices[0], vertex)), matrices[2]);
    match MulThen(MulThen(MulThen(Ok(vertex), matrices[0]), matrices[1]), matrices[2])
    case Ok(result) => result
    case Err(_) => vertex
  }

  /** Lifts the vertex to (x, y, z, 1), multiplies it by the translation
      matrix and drops the fourth component: the offsets are added. */
  function VertexTranslation(vertex: Vector3, translation: Vector3): (r: Vector3)
    ensures r == [vertex[0] + translation[0], vertex[1] + translation[1], vertex[2] + translation[2]]
  {
    var translationMatrix := CreateTranslationMatrix(translation);
    MulVec4Layout(translationMatrix, [vertex[0], vertex[1], vertex[2], 1.0]);
    match MulVec(translationMatrix, [vertex[0], vertex[1], vertex[2], 1.0])
    case Ok(temp) => [temp[0], temp[1], temp[2]]
    case Err(_) => vertex
  }

  /** Multiplies the normal by the transpose of the inverse scaling matrix:
      nonzero factors divide the coordinates, and a zero factor leaves no
      inverse, so the normal comes back as it was. */
  function NormalScaling(normal: Vector3, scaling: Vector3): (r: Vector3)
    ensures scaling[0] != 0.0 && scaling[1] != 0.0 && scaling[2] != 0.0 ==>
              r == [normal[0] / scaling[0], normal[1] / scaling[1], normal[2] / scaling[2]]
    ensures scaling[0] == 0.0 || scaling[1] == 0.0 || scaling[2] == 0.0 ==> r == normal
  {
    var scalingMatrix := CreateScalingMatrix(scaling);
    ScaledNormalProduct(normal, scaling);
    match InverseTransposeThen(Ok(normal), scalingMatrix)
    case Ok(result) => result
    case Err(_) => normal
  }

  /** Multiplies the normal by the transpose of the inverse of the x, then
      the y, then the z rotation matrix: under OrthonormalRotation a normal
      turns exactly like a position. */
  function NormalRotation(normal: Vector3, rotation: Vector3, trig: Trig): (r: Vector3)
    ensures OrthonormalRotation(rotation, trig) ==> r == VertexRotation(normal, rotation, trig)
  {
    var matrices := RotationMatrices(rotation, trig);
    RotatedNormalProduct(normal, rotation, trig);
    match InverseTransposeThen(InverseTransposeThen(InverseTransposeThen(Ok(normal), matrices[0]), matrices[1]), matrices[2])
    case Ok(result) => result
    case Err(_) => normal
  }

  /** Lifts the normal to (x, y, z, 1), multiplies it by the transpose of the
      inverse translation matrix and drops the fourth component: the offsets
      only reach the dropped component, so the normal never moves. */
  function NormalTranslation(normal: Vector3, translation: Vector3): (r: Vector3)
    ensures r == normal
  {
    var translationMatrix := CreateTranslationMatrix(translation);
    TranslatedNormalProduct(normal, translation);
    match InverseTransposeThen(Ok([normal[0], normal[1], normal[2], 1.0]), translationMatrix)
    case Ok(temp) =>
      SameCoordinates(temp[0], temp[1], temp[2], normal[0], normal[1], normal[2]);
      ByCoordinates(normal);
      [temp[0], temp[1], temp[2]]
    case Err(_) => normal
  }

  /** The whole position path: scale, then rotate, then translate. */
  function TransformVertex(vertex: Vector3, translation: Vector3, rotation: Vector3, scaling: Vector3, trig: Trig): Vector3
  {
    VertexTranslation(VertexRotation(VertexScaling(vertex, scaling), rotation, trig), translation)
  }

  /** The whole normal path, in the same order. */
  function TransformNormal(normal: Vector3, translation: Vector3, rotation: Vector3, scaling: Vector3, trig: Trig): Vector3
  {
    NormalTranslation(NormalRotation(NormalScaling(normal, scaling), rotation, trig), translation)
  }

  /** The position path never falls back: the vertex is multiplied by the
      factors, turned by the x, y and z matrices and moved by the offsets. */
  lemma TransformVertexClosedForm(vertex: Vector3, translation: Vector3, rotation: Vector3, scaling: Vector3, trig: Trig)
    ensures var ms := RotationMatrices(rotation, trig);
            var turned := Apply3(ms[2], Apply3(ms[1], Apply3(ms[0], [vertex[0] * scaling[0], vertex[1] * scaling[1], vertex[2] * scaling[2]])));
            TransformVertex(vertex, translation, rotation, scaling, trig)
            == [turned[0] + translation[0], turned[1] + translation[1], turned[2] + translation[2]]
  {
    var ms := RotationMatrices(rotation, trig);
    var scaled := VertexScaling(vertex, scaling);
    var turned := VertexRotation(scaled, rotation, trig);
    assert turned == Apply3(ms[2], Apply3(ms[1], Apply3(ms[0], [vertex[0] * scaling[0], vertex[1] * scaling[1], vertex[2] * scaling[2]])));
  }

  /** The offsets never reach a normal; under OrthonormalRotation a normal
      is divided by nonzero factors, or kept when a factor is zero, and then
      turned like a position. */
  lemma TransformNormalClosedForm(normal: Vector3, translation: Vector3, rotation: Vector3, scaling: Vector3, trig: Trig)
    ensures TransformNormal(normal, translation, rotation, scaling, trig) == NormalRotation(NormalScaling(normal, scaling), rotation, trig)
    ensures OrthonormalRotation(rotation, trig) && scaling[0] != 0.0 && scaling[1] != 0.0 && scaling[2] != 0.0 ==>
              TransformNormal(normal, translation, rotation, scaling, trig)
              == VertexRotation([normal[0] / scaling[0], normal[1] / scaling[1], normal[2] / scaling[2]], rotation, trig)
    ensures OrthonormalRotation(rotation, trig) && (scaling[0] == 0.0 || scaling[1] == 0.0 || scaling[2] == 0.0) ==>
              TransformNormal(normal, translation, rotation, scaling, trig) == VertexRotation(normal, rotation, trig)
  {
  }

  function Coords(p: Vec3): Vector3
  {
    [p.x, p.y, p.z]
  }

  function Point(v: Vector3): Vec3
  {
    Vec3(v[0], v[1], v[2])
  }

  /** The position path applied to every point of the list, in order. */
  function TransformedVertices(points: seq<Vec3>, translation: Vector3, rotation: Vector3, scaling: Vector3, trig: Trig): (vs: seq<Vec3>)
  {
    seq(|points|, i requires 0 <= i < |points| => Point(TransformVertex(Coords(points[i]), translation, rotation, scaling, trig)))
  }

  /** The normal path applied to every point of the list, in order. */
  function TransformedNormals(points: seq<Vec3>, translation: Vector3, rotation: Vector3, scaling: Vector3, trig: Trig): (ns: seq<Vec3>)
  {
    seq(|points|, i requires 0 <= i < |points| => Point(TransformNormal(Coords(points[i]), translation, rotation, scaling, trig)))
  }

  /** One more point of the list adds its image at the end. */
  lemma TransformedVerticesSnoc(points: seq<Vec3>, i: nat, translation: Vector3, rotation: Vector3, scaling: Vector3, trig: Trig)
    requires i < |points|
    ensures TransformedVertices(points[..i + 1], translation, rotation, scaling, trig)
         == TransformedVertices(points[..i], translation, rotation, scaling, trig)
            + [Point(TransformVertex(Coords(points[i]), translation, rotation, scaling, trig))]
  {
    var longer := TransformedVertices(points[..i + 1], translation, rotation, scaling, trig);
    var shorter := TransformedVertices(points[..i], translation, rotation, scaling, trig);
    assert forall j :: 0 <= j < i ==> longer[j] == shorter[j];
  }

  /** The same for the normal path. */
  lemma TransformedNormalsSnoc(points: seq<Vec3>, i: nat, translation: Vector3, rotation: Vector3, scaling: Vector3, trig: Trig)
    requires i < |points|
    ensures TransformedNormals(points[..i + 1], translation, rotation, scaling, trig)
         == TransformedNormals(points[..i], translation, rotation, scaling, trig)
            + [Point(TransformNormal(Coords(points[i]), translation, rotation, scaling, trig))]
  {
    var longer := TransformedNormals(points[..i + 1], translation, rotation, scaling, trig);
    var shorter := TransformedNormals(points[..i], translation, rotation, scaling, trig);
    assert forall j :: 0 <= j < i ==> longer[j] == shorter[j];
  }

  /** One pass of the vertex loop's body: scale, rotate and translate one
      vertex, each step on the result of the previous one. */
  method RunVertexSteps(vertex: Vector3, translation: Vector3, rotation: Vector3, scaling: Vector3, trig: Trig)
    returns (result: Vector3)
    ensures result == TransformVertex(vertex, translation, rotation, scaling, trig)
  {
    result := VertexScaling(vertex, scaling);
    result := VertexRotation(result, rotation, trig);
    result := VertexTranslation(result, translation);
  }

  /** One pass of the normal loop's body: the three normal steps in order. */
  method RunNormalSteps(normal: Vector3, translation: Vector3, rotation: Vector3, scaling: Vector3, trig: Trig)
    returns (result: Vector3)
    ensures result == TransformNormal(normal, translation, rotation, scaling, trig)
  {
    result := NormalScaling(normal, scaling);
    result := NormalRotation(result, rotation, trig);
    result := NormalTranslation(result, translation);
  }

  /** The vertex loop of modelTransform: every point through the position
      path, appended in order to the empty position list of `result`. */
  method AddTransformedVertices(result: Model, points: seq<Vec3>, translation: Vector3, rotation: Vector3, scaling: Vector3, trig: Trig)
    requires result.vertices == []
    modifies result
    ensures result.vertices == TransformedVertices(points, translation, rotation, scaling, trig)
    ensures result.normals == old(result.normals)
    ensures result.textureVertices == old(result.textureVertices) && result.polygons == old(result.polygons)
  {
    for i := 0 to |points|
      invariant result.vertices == TransformedVertices(points[..i], translation, rotation, scaling, trig)
      invariant result.normals == old(result.normals)
      invariant result.textureVertices == old(result.textureVertices) && result.polygons == old(result.polygons)
    {
      var vertex := RunVertexSteps(Coords(points[i]), translation, rotation, scaling, trig);
      TransformedVerticesSnoc(points, i, translation, rotation, scaling, trig);
      result.AddVertex(vertex[0], vertex[1], vertex[2]);
    }
    assert points[..|points|] == points;
  }

  /** The normal loop of modelTransform: every point it is given through the
      normal path, appended in order to the empty normal list of `result`. */
  method AddTransformedNormals(result: Model, points: seq<Vec3>, translation: Vector3, rotation: Vector3, scaling: Vector3, trig: Trig)
    requires result.normals == []
    modifies result
    ensures result.normals == TransformedNormals(points, translation, rotation, scaling, trig)
    ensures result.vertices == old(result.vertices)
    ensures result.textureVertices == old(result.textureVertices) && result.polygons == old(result.polygons)
  {
    for i := 0 to |points|
      invariant result.normals == TransformedNormals(points[..i], translation, rotation, scaling, trig)
      invariant result.vertices == old(result.vertices)
      invariant result.textureVertices == old(result.textureVertices) && result.polygons == old(result.polygons)
    {
      var normal := RunNormalSteps(Coords(points[i]), translation, rotation, scaling, trig);
      TransformedNormalsSnoc(points, i, translation, rotation, scaling, trig);
      result.AddNormal(normal[0], normal[1], normal[2]);
    }
    assert points[..|points|] == points;
  }

  /** The body of modelTransform once the list that feeds the normal loop
      is chosen: a new mesh holding the images of `vertices` under the
      position path, the images of `normalSources` under the normal path,
      and copies of the texture coordinates and faces. */
  method TransformParts(vertices: seq<Vec3>, normalSources: seq<Vec3>, textureVertices: seq<Vec2>, polygons: seq<Polygon>,
                        translation: Vector3, rotation: Vector3, scaling: Vector3, trig: Trig)
    returns (result: Model)
    ensures fresh(result)
    ensures result.vertices == TransformedVertices(vertices, translation, rotation, scaling, trig)
    ensures result.normals == TransformedNormals(normalSources, translation, rotation, scaling, trig)
    ensures result.textureVertices == textureVertices
    ensures result.polygons == polygons
  {
    result := new Model();
    AddTransformedVertices(result, vertices, translation, rotation, scaling, trig);
    AddTransformedNormals(result, normalSources, translation, rotation, scaling, trig);
    result.textureVertices := result.textureVertices + textureVertices;
    result.polygons := result.polygons + polygons;
  }

  /** Builds a new mesh: every vertex through the position path and, as the
      loop over the normals is written, the vertex with the same index
      through the normal path; texture coordinates and faces are copied. */
  method ModelTransform(model: Model, translation: Vector3, rotation: Vector3, scaling: Vector3, trig: Trig)
    returns (result: Model)
    requires |model.normals| <= |model.vertices|
    ensures fresh(result)
    ensures result.vertices == TransformedVertices(model.vertices, translation, rotation, scaling, trig)
    ensures result.normals == TransformedNormals(model.vertices[..|model.normals|], translation, rotation, scaling, trig)
    ensures result.textureVertices == model.textureVertices
    ensures result.polygons == model.polygons
  {
    // the normal loop reads the position list, not the normal list
    result := TransformParts(model.vertices, model.vertices[..|model.normals|], model.textureVertices, model.polygons,
                             translation, rotation, scaling, trig);
  }

  /** ModelTransform with the normal loop reading the normal list: every
      normal goes through the normal path, whatever the two list lengths. */
  method ModelTransformCorrected(model: Model, translation: Vector3, rotation: Vector3, scaling: Vector3, trig: Trig)
    returns (result: Model)
    ensures fresh(result)
    ensures result.vertices == TransformedVertices(model.vertices, translation, rotation, scaling, trig)
    ensures result.normals == TransformedNormals(model.normals, translation, rotation, scaling, trig)
    ensures result.textureVertices == model.textureVertices
    ensures result.polygons == model.polygons
  {
    result := TransformParts(model.vertices, model.normals, model.textureVertices, model.polygons,
                             translation, rotation, scaling, trig);
  }
}
