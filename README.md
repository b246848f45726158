# Affine transformations of the Simple3DViewer mesh

This project models the affine-transformation pipeline of Simple3DViewer, a
small 3D mesh viewer, in Dafny and proves properties of that model.

- **The mesh.** The `Model` class holds four lists: vertex positions, texture
  coordinates, normals and polygons. It gains elements one at a time through
  `addVertex`, `addNormal` and `addPolygon`.
- **The pipeline.** `AffineTransformation` builds three kinds of matrix from
  three parameter vectors:
  - a diagonal scaling matrix;
  - three per-axis rotation matrices, with every trigonometric entry snapped
    by `roundByAccuracy`;
  - a homogeneous 4x4 translation matrix.
- **Positions and normals.** Positions go through the scaling, rotation and
  translation matrices directly. Normals go through the transpose of each
  matrix's inverse. Every per-element step falls back to its input when the
  matrix kernel throws.
- **The whole mesh.** `modelTransform` builds a new mesh from the transformed
  vertices and normals. It copies over the texture coordinates and the
  polygons.

The files:

- `matrix.dfy`
  - Module `LinearAlgebra` models the part of the matrix kernel
    (`io.github.annusshka.Math`) that the pipeline calls: transpose,
    matrix-by-vector product, determinant and inverse.
  - It has two failure values:
    - `DimensionMismatch` for a product whose sizes differ;
    - `SingularMatrix` for an inverse whose determinant is zero.
  - Module `LinearAlgebraFacts` proves layout lemmas and the kernel's own
    test expectations.
- `shapes.dfy`: module `MatrixShapes`, the reference shapes of the matrices
  the pipeline builds (diagonal, homogeneous translation, axis rotations)
  with their determinants, adjugates, inverses and products.
- `model.dfy`: module `Mesh`, the `Model` class with its four list fields
  and its three `add` methods.
- `affine.dfy`: module `AffineTransformation`, which contains:
  - the snapping function;
  - the matrix builders;
  - the six per-element steps, each with its closed form;
  - why the normal steps take the inverse-transpose of each matrix;
  - the whole per-element paths and the two loops;
  - `ModelTransform`, the imperative two-loop method, as written;
  - its corrected twin (see Findings).
- `affine_props.dfy`: module `AffineProperties`, with the steps under the
  parameters the tests use, snapping at right angles, and the dot product
  that normal scaling preserves.
- `pipeline_props.dfy`: module `PipelineProperties`, with the properties of
  whole meshes:
  - identity parameters;
  - the cube of `modelTransformTest`;
  - the normal-loop finding.

Single-precision arithmetic is modelled as exact real arithmetic.

Cosine and sine of an angle in degrees are not computed. They are a parameter
`Trig` holding two functions. The only facts assumed about them are what the
tests rely on, and they appear as the requirement `RightAngleFacts`:

- cos 0 = 1 and sin 0 = 0 exactly;
- cos 90 and sin 90 come within `Accuracy` of 0 and 1.

## Model

| member | source | states |
|---|---|---|
| AffineTransformation.RoundByAccuracy | Simple3DViewer/src/main/java/com/cgvsu/affinetransformation/AffineTransformation.java:13-20 | The snapped value lies in [-1, 1]. It is 0 exactly when the input is within 1e-9 of 0. An input whose magnitude is within 1e-9 of 1, or beyond 1, snaps to its sign. An input in [-1, 1] moves by less than 1e-9, and not at all when it is at least 1e-9 away from 0 and from magnitude 1. A nonzero result keeps the input's sign. |
| AffineProperties.RoundByAccuracyIdempotent | Simple3DViewer/src/main/java/com/cgvsu/affinetransformation/AffineTransformation.java:13-20 | Snapping an already snapped value changes nothing. |
| AffineTransformation.RoundByAccuracyOdd | Simple3DViewer/src/main/java/com/cgvsu/affinetransformation/AffineTransformation.java:13-20 | Snapping commutes with negation, so the snapped `-sin` entry is the negated snapped `sin`. |
| AffineTransformation.CreateScalingMatrix | Simple3DViewer/src/main/java/com/cgvsu/affinetransformation/AffineTransformation.java:226-232 | A valid 3x3 matrix with the factors on the diagonal and 0 elsewhere. |
| AffineTransformation.CreateTranslationMatrix | Simple3DViewer/src/main/java/com/cgvsu/affinetransformation/AffineTransformation.java:169-176 | A valid 4x4 matrix: the identity with the three offsets in the last column. |
| AffineProperties.ScalingAndTranslationExamples | Simple3DViewer/src/test/java/com/cgvsu/affinetransformation/AffineTransformationTest.java:20-41 | The vertex cases of the tests: (2,3,4) scaled by (2,3,5) is (4,9,20), and (2,3,4) translated by (2,3,5) is (4,6,9). |
| AffineProperties.BuilderExamples | Simple3DViewer/src/test/java/com/cgvsu/affinetransformation/AffineTransformationTest.java:149-168 | The scaling and translation matrices for (2,3,5), flat and row-major, as the tests expect. |
| AffineTransformation.RotationAboutX | Simple3DViewer/src/main/java/com/cgvsu/affinetransformation/AffineTransformation.java:195-201 | A valid 3x3 matrix, the rotation about x built from snapped entries. |
| AffineTransformation.RotationAboutY | Simple3DViewer/src/main/java/com/cgvsu/affinetransformation/AffineTransformation.java:203-209 | A valid 3x3 matrix, the rotation about y built from snapped entries. |
| AffineTransformation.RotationAboutZ | Simple3DViewer/src/main/java/com/cgvsu/affinetransformation/AffineTransformation.java:211-217 | A valid 3x3 matrix, the rotation about z built from snapped entries. |
| AffineTransformation.RotationMatrices | Simple3DViewer/src/main/java/com/cgvsu/affinetransformation/AffineTransformation.java:183-219 | Three valid 3x3 matrices, in the order x, y, z. |
| AffineTransformation.CreateRotationMatrix | Simple3DViewer/src/main/java/com/cgvsu/affinetransformation/AffineTransformation.java:183-219 | Fills a fresh three-slot array whose contents are exactly `RotationMatrices`. |
| AffineTransformation.AxisRotationLayouts | Simple3DViewer/src/main/java/com/cgvsu/affinetransformation/AffineTransformation.java:194-217 | Each axis matrix is the textbook rotation in the snapped cosine and sine. |
| AffineTransformation.RotationMatricesLayout | Simple3DViewer/src/main/java/com/cgvsu/affinetransformation/AffineTransformation.java:183-219 | Both branches of the builder: three identities for (1,1,1), otherwise the x, y and z axis rotations by the three angles. |
| AffineProperties.RightAngleSnaps | Simple3DViewer/src/main/java/com/cgvsu/affinetransformation/AffineTransformation.java:13-20 | At 0 and 90 degrees the snapped cosine and sine are exactly 1, 0 and 0, 1. This is why the tests can compare exact matrices. |
| AffineProperties.RotationMatricesAtRightAngles | Simple3DViewer/src/test/java/com/cgvsu/affinetransformation/AffineTransformationTest.java:171-181 | Quarter turns about all three axes give the three exact matrices the test expects. |
| AffineTransformation.MulThen | Simple3DViewer/src/main/java/com/cgvsu/affinetransformation/AffineTransformation.java:138-140 | The chained product succeeds exactly when the input succeeded and has the matrix's size. |
| AffineTransformation.InverseTransposeThen | Simple3DViewer/src/main/java/com/cgvsu/affinetransformation/AffineTransformation.java:83-85 | The chained normal product succeeds exactly when the input succeeded, the matrix is invertible and the sizes match. |
| AffineTransformation.MulThenApplies | Simple3DViewer/src/main/java/com/cgvsu/affinetransformation/AffineTransformation.java:138-140 | Multiplying a 3-vector by a valid 3x3 matrix succeeds and gives the row-by-row product. |
| AffineTransformation.InverseTransposeThenKnown | Simple3DViewer/src/main/java/com/cgvsu/affinetransformation/AffineTransformation.java:102 | Once the inverse is known, the normal product is the product with the transpose of that inverse. |
| AffineTransformation.VertexScaling | Simple3DViewer/src/main/java/com/cgvsu/affinetransformation/AffineTransformation.java:153-162 | The kernel never refuses, so the catch branch is dead: each coordinate is multiplied by its own factor. |
| AffineProperties.VertexScalingByOnes | Simple3DViewer/src/test/java/com/cgvsu/affinetransformation/AffineTransformationTest.java:28-33 | Unit factors leave any vertex unchanged. |
| AffineTransformation.VertexRotation | Simple3DViewer/src/main/java/com/cgvsu/affinetransformation/AffineTransformation.java:134-145 | None of the three products fails, so the catch branch is dead: the vertex goes through the x, then the y, then the z matrix. |
| AffineProperties.ZeroAngleApplies | Simple3DViewer/src/main/java/com/cgvsu/affinetransformation/AffineTransformation.java:185-217 | An axis matrix with cosine 1 and sine 0 moves nothing. |
| AffineProperties.VertexRotationNone | Simple3DViewer/src/main/java/com/cgvsu/affinetransformation/AffineTransformation.java:185-193 | The parameters (1,1,1) leave any vertex unchanged. |
| AffineProperties.VertexRotationByZero | Simple3DViewer/src/test/java/com/cgvsu/affinetransformation/AffineTransformationTest.java:60-65 | Zero angles leave any vertex unchanged. |
| AffineProperties.VertexRotationQuarterX | Simple3DViewer/src/test/java/com/cgvsu/affinetransformation/AffineTransformationTest.java:52-57 | A quarter turn about x sends (x, y, z) to (x, -z, y). For (2,3,4) that is (2,-4,3). |
| AffineTransformation.VertexTranslation | Simple3DViewer/src/main/java/com/cgvsu/affinetransformation/AffineTransformation.java:115-126 | Lifting to (x, y, z, 1), multiplying and dropping the fourth coordinate adds the offsets; the catch branch is dead. |
| AffineProperties.VertexTranslationByZero | Simple3DViewer/src/test/java/com/cgvsu/affinetransformation/AffineTransformationTest.java:44-49 | A zero offset leaves any vertex unchanged. |
| AffineTransformation.ScaledNormalProduct | Simple3DViewer/src/main/java/com/cgvsu/affinetransformation/AffineTransformation.java:98-103 | With nonzero factors, the inverse-transpose product succeeds and divides each coordinate by its factor. With a zero factor the kernel refuses. |
| AffineTransformation.NormalScaling | Simple3DViewer/src/main/java/com/cgvsu/affinetransformation/AffineTransformation.java:98-107 | With nonzero factors, each coordinate is divided by its factor. With a zero factor there is no inverse, the kernel throws and the normal comes back unchanged (the catch branch). |
| AffineProperties.NormalScalingKeepsDot | Simple3DViewer/src/main/java/com/cgvsu/affinetransformation/AffineTransformation.java:98-107 | With nonzero factors, the scaled normal and the scaled direction have the same dot product as before. Normals stay perpendicular to the surface. |
| AffineTransformation.RotationMatricesOrthonormal | Simple3DViewer/src/main/java/com/cgvsu/affinetransformation/AffineTransformation.java:183-219 | For (1,1,1), or when every snapped angle stays on the unit circle, each rotation matrix is inverted by its transpose. |
| AffineTransformation.InverseTransposeOfOrthonormal | Simple3DViewer/src/main/java/com/cgvsu/affinetransformation/AffineTransformation.java:83-85 | When a matrix's inverse is its transpose, the normal product is the position product, failures included. |
| AffineTransformation.RotatedNormalProduct | Simple3DViewer/src/main/java/com/cgvsu/affinetransformation/AffineTransformation.java:82-86 | Under the same conditions the three normal products are the three position products. |
| AffineTransformation.NormalRotation | Simple3DViewer/src/main/java/com/cgvsu/affinetransformation/AffineTransformation.java:79-90 | Under the same conditions, a normal turns exactly as `VertexRotation` turns a position. |
| AffineProperties.RightAnglesAreUnit | Simple3DViewer/src/main/java/com/cgvsu/affinetransformation/AffineTransformation.java:194-217 | At 0 and 90 degrees the snapped cosine and sine still satisfy c*c + s*s = 1, so the tests' angles meet that condition. |
| AffineTransformation.TranslatedNormalProduct | Simple3DViewer/src/main/java/com/cgvsu/affinetransformation/AffineTransformation.java:63-66 | The inverse-transpose product with the translation matrix always succeeds and keeps the first three coordinates of (x, y, z, 1). |
| AffineTransformation.NormalTranslation | Simple3DViewer/src/main/java/com/cgvsu/affinetransformation/AffineTransformation.java:60-71 | Normal translation returns every normal unchanged, whatever the offsets. |
| AffineTransformation.TransformVertexClosedForm | Simple3DViewer/src/main/java/com/cgvsu/affinetransformation/AffineTransformation.java:36-39 | The vertex loop body never falls back: the position is multiplied by the factors, turned by the x, y and z matrices, and moved by the offsets. |
| AffineTransformation.TransformNormalClosedForm | Simple3DViewer/src/main/java/com/cgvsu/affinetransformation/AffineTransformation.java:43-46 | The normal loop body ignores the offsets. When the rotation is orthonormal, a normal is divided by nonzero factors (kept as is when a factor is 0) and then turned like a position. |
| AffineTransformation.RunVertexSteps | Simple3DViewer/src/main/java/com/cgvsu/affinetransformation/AffineTransformation.java:36-39 | The vertex loop body: scaling, rotation and translation in turn give `TransformVertex`. |
| AffineTransformation.RunNormalSteps | Simple3DViewer/src/main/java/com/cgvsu/affinetransformation/AffineTransformation.java:43-46 | The normal loop body: the three normal steps in turn give `TransformNormal`. |
| AffineTransformation.TransformedVerticesSnoc | Simple3DViewer/src/main/java/com/cgvsu/affinetransformation/AffineTransformation.java:35-41 | One more position adds its image at the end of the new list. |
| AffineTransformation.TransformedNormalsSnoc | Simple3DViewer/src/main/java/com/cgvsu/affinetransformation/AffineTransformation.java:42-48 | One more point adds its image at the end of the new normal list. |
| AffineTransformation.AddTransformedVertices | Simple3DViewer/src/main/java/com/cgvsu/affinetransformation/AffineTransformation.java:35-41 | The vertex loop: the empty position list of the new mesh becomes every given point through the position path, in order. The other lists do not change. |
| AffineTransformation.AddTransformedNormals | Simple3DViewer/src/main/java/com/cgvsu/affinetransformation/AffineTransformation.java:42-48 | The normal loop: the empty normal list of the new mesh becomes every given point through the normal path, in order. The other lists do not change. |
| AffineTransformation.TransformParts | Simple3DViewer/src/main/java/com/cgvsu/affinetransformation/AffineTransformation.java:34-51 | A fresh mesh holding the two loops' lists, with the texture coordinates and polygons copied. |
| AffineTransformation.ModelTransform | Simple3DViewer/src/main/java/com/cgvsu/affinetransformation/AffineTransformation.java:30-52 | As written. The result is fresh. Its positions are every vertex through the position path. Its normals are the first `|normals|` VERTICES through the normal path. Texture coordinates and polygons are copied. It requires no more normals than vertices, where the code would throw. |
| AffineTransformation.ModelTransformCorrected | Simple3DViewer/src/main/java/com/cgvsu/affinetransformation/AffineTransformation.java:30-52 | The same, except that its normals are the mesh's own normals through the normal path. |
| Mesh.Model.constructor | Simple3DViewer/src/main/java/com/cgvsu/model/Model.java:21-24 | A new mesh has four empty lists. |
| Mesh.Model.AddVertex | Simple3DViewer/src/main/java/com/cgvsu/model/Model.java:8-10 | Appends (x, y, z) to the vertices. Nothing else changes. |
| Mesh.Model.AddNormal | Simple3DViewer/src/main/java/com/cgvsu/model/Model.java:11-13 | Appends (x, y, z) to the normals. Nothing else changes. |
| Mesh.Model.AddPolygon | Simple3DViewer/src/main/java/com/cgvsu/model/Model.java:14-20 | Appends one polygon whose vertex indices are the arguments in order. Nothing else changes. |
| PipelineProperties.TransformVertexIdentity | Simple3DViewer/src/main/java/com/cgvsu/affinetransformation/AffineTransformation.java:36-39 | With offsets 0, rotation (1,1,1) and factors 1, the position path changes nothing. |
| PipelineProperties.TransformNormalIdentity | Simple3DViewer/src/main/java/com/cgvsu/affinetransformation/AffineTransformation.java:43-46 | With the same parameters, the normal path changes nothing. |
| PipelineProperties.QuarterTurnStages | Simple3DViewer/src/main/java/com/cgvsu/affinetransformation/AffineTransformation.java:36-39 | Scaling by s, a quarter turn about x and an offset t send (x, y, z) to (x*s0 + t0, -(z*s2) + t1, y*s1 + t2). |
| PipelineProperties.TransformVertexCubeParameters | Simple3DViewer/src/test/java/com/cgvsu/affinetransformation/AffineTransformationTest.java:201-209 | With factors 2, a quarter turn about x and offsets (2,3,4), the position path sends (x, y, z) to (2x+2, -2z+3, 2y+4). |
| PipelineProperties.CubeVertices | Simple3DViewer/src/test/java/com/cgvsu/affinetransformation/AffineTransformationTest.java:204-209 | With those parameters, every entry of the new positions is its vertex mapped that way, for a list of any length. |
| PipelineProperties.BuildCube | Simple3DViewer/src/test/java/com/cgvsu/affinetransformation/AffineTransformationTest.java:185-199 | The test's mesh: the eight cube corners and six faces in the order added, with no texture coordinates and no normals. |
| PipelineProperties.TransformWithCubeParameters | Simple3DViewer/src/test/java/com/cgvsu/affinetransformation/AffineTransformationTest.java:201-212 | `ModelTransform` with the test's parameters on any mesh: every position lands on (2x+2, -2z+3, 2y+4), and faces and texture coordinates are carried over. |
| PipelineProperties.CubeTransformExample | Simple3DViewer/src/test/java/com/cgvsu/affinetransformation/AffineTransformationTest.java:184-212 | The whole test. Every corner i lands on (2x+2, -2z+3, 2y+4). The polygon and texture counts are carried over. |
| PipelineProperties.AsWrittenNormalsUnderIdentity | Simple3DViewer/src/main/java/com/cgvsu/affinetransformation/AffineTransformation.java:42-48 | As written, under the identity parameters, new normal i is vertex i. |
| PipelineProperties.CorrectedNormalsUnderIdentity | Simple3DViewer/src/main/java/com/cgvsu/affinetransformation/AffineTransformation.java:42-48 | Corrected, under the identity parameters, new normal i is normal i. |
| PipelineProperties.NormalsFromPositionsExample | Simple3DViewer/src/main/java/com/cgvsu/affinetransformation/AffineTransformation.java:42-48 | As written, under the identity parameters, the normal (0,0,1) comes back as (0,0,0): the first vertex. |
| PipelineProperties.NormalsFromNormalsExample | Simple3DViewer/src/main/java/com/cgvsu/affinetransformation/AffineTransformation.java:42-48 | Corrected, the same mesh keeps its normal (0,0,1). |
| MatrixShapes.DiagonalDeterminant | Simple3DViewer/src/main/java/com/cgvsu/affinetransformation/AffineTransformation.java:226-232 | The determinant of the scaling matrix's shape is the product of the diagonal. |
| MatrixShapes.DiagonalAdjugate | Simple3DViewer/src/main/java/com/cgvsu/affinetransformation/AffineTransformation.java:226-232 | The adjugate of diag(a, b, c) is diag(bc, ac, ab). |
| MatrixShapes.DiagonalInverse | Simple3DViewer/src/main/java/com/cgvsu/affinetransformation/AffineTransformation.java:98-107 | With nonzero entries, a diagonal matrix is inverted by the reciprocals. With a zero entry the kernel refuses with SingularMatrix. |
| MatrixShapes.DiagonalSymmetric | Simple3DViewer/src/main/java/com/cgvsu/affinetransformation/AffineTransformation.java:226-232 | A diagonal matrix is its own transpose. |
| MatrixShapes.DiagonalTimes | Simple3DViewer/src/main/java/com/cgvsu/affinetransformation/AffineTransformation.java:153-157 | A diagonal matrix multiplies each coordinate by its own entry. |
| MatrixShapes.AboutXAdjugate | Simple3DViewer/src/main/java/com/cgvsu/affinetransformation/AffineTransformation.java:195-201 | The adjugate of the x-axis rotation, entry by entry. |
| MatrixShapes.AboutXInverse | Simple3DViewer/src/main/java/com/cgvsu/affinetransformation/AffineTransformation.java:195-201 | On the unit circle, the x-axis rotation has determinant 1 and its transpose as inverse. |
| MatrixShapes.AboutYAdjugate | Simple3DViewer/src/main/java/com/cgvsu/affinetransformation/AffineTransformation.java:203-209 | The adjugate of the y-axis rotation, entry by entry. |
| MatrixShapes.AboutYInverse | Simple3DViewer/src/main/java/com/cgvsu/affinetransformation/AffineTransformation.java:203-209 | On the unit circle, the y-axis rotation has determinant 1 and its transpose as inverse. |
| MatrixShapes.AboutZAdjugate | Simple3DViewer/src/main/java/com/cgvsu/affinetransformation/AffineTransformation.java:211-217 | The adjugate of the z-axis rotation, entry by entry. |
| MatrixShapes.AboutZInverse | Simple3DViewer/src/main/java/com/cgvsu/affinetransformation/AffineTransformation.java:211-217 | On the unit circle, the z-axis rotation has determinant 1 and its transpose as inverse. |
| MatrixShapes.HomogeneousDeterminant | Simple3DViewer/src/main/java/com/cgvsu/affinetransformation/AffineTransformation.java:169-176 | A homogeneous translation matrix has determinant 1. |
| MatrixShapes.HomogeneousAdjugate | Simple3DViewer/src/main/java/com/cgvsu/affinetransformation/AffineTransformation.java:169-176 | Its adjugate is the translation by the opposite offsets. |
| MatrixShapes.HomogeneousInverse | Simple3DViewer/src/main/java/com/cgvsu/affinetransformation/AffineTransformation.java:60-65 | Its inverse always exists and is the translation by the opposite offsets. |
| MatrixShapes.HomogeneousTransposeKeeps | Simple3DViewer/src/main/java/com/cgvsu/affinetransformation/AffineTransformation.java:64-66 | The transpose of a homogeneous translation keeps the first three coordinates of (x, y, z, 1). |
| LinearAlgebra.Transpose | Simple3DViewer/src/test/java/io/github/annusshka/MatrixTest.java:53-59 | Same size, and entry (i, j) of the result is entry (j, i) of the input. |
| LinearAlgebraFacts.TransposeInvolutive | Simple3DViewer/src/test/java/io/github/annusshka/MatrixTest.java:53-59 | Transposing twice gives the matrix back. |
| LinearAlgebraFacts.TransposeExamples | Simple3DViewer/src/test/java/io/github/annusshka/MatrixTest.java:53-59 | The 3x3 and 4x4 transposes of the kernel's test. |
| LinearAlgebra.MulVec | Simple3DViewer/src/test/java/io/github/annusshka/MatrixTest.java:137-156 | Succeeds exactly when the vector length is the matrix size, and then entry i is row i times the vector. Otherwise it fails with DimensionMismatch. |
| LinearAlgebraFacts.MulVec3Layout | Simple3DViewer/src/test/java/io/github/annusshka/MatrixTest.java:137-141 | A 3x3 product always succeeds and is the row-by-row product of the three coordinates. |
| LinearAlgebraFacts.MulVec4Layout | Simple3DViewer/src/test/java/io/github/annusshka/MatrixTest.java:143-147 | A 4x4 product by a 4-vector, written out coordinate by coordinate. |
| LinearAlgebraFacts.MulVecExamples | Simple3DViewer/src/test/java/io/github/annusshka/MatrixTest.java:137-156 | The kernel's test products, including the refused 4x4-by-3 product. |
| LinearAlgebraFacts.Determinant3Examples | Simple3DViewer/src/test/java/io/github/annusshka/MatrixTest.java:184-202 | The 3x3 determinants of the kernel's tests: 204, 0, -1 and 0. |
| LinearAlgebraFacts.Determinant4Example | Simple3DViewer/src/test/java/io/github/annusshka/MatrixTest.java:184-193 | The 4x4 determinant of the kernel's test, -50. |
| LinearAlgebraFacts.DeterminantOfTranspose3 | Simple3DViewer/src/test/java/io/github/annusshka/MatrixTest.java:184-202 | Transposing a 3x3 matrix keeps its determinant. |
| LinearAlgebra.Adjugate | Simple3DViewer/src/test/java/io/github/annusshka/MatrixTest.java:205-220 | The adjugate has the shape and size of its matrix. |
| LinearAlgebra.DivideBy | Simple3DViewer/src/test/java/io/github/annusshka/MatrixTest.java:205-220 | Dividing every entry by a nonzero value keeps the shape and size. |
| LinearAlgebra.Inverse | Simple3DViewer/src/test/java/io/github/annusshka/MatrixTest.java:205-220 | Fails, with SingularMatrix, exactly when the determinant is 0. Otherwise it gives a valid matrix of the same size. |
| LinearAlgebraFacts.InverseExamples | Simple3DViewer/src/test/java/io/github/annusshka/MatrixTest.java:205-220 | The inverse of the test's invertible 3x3 matrix, and SingularMatrix for the singular one. |
| LinearAlgebraFacts.DivideByUndoes | Simple3DViewer/src/test/java/io/github/annusshka/MatrixTest.java:205-220 | Multiplying an entry of the quotient by the divisor gives back the original entry. |
| LinearAlgebraFacts.DivideByOne | Simple3DViewer/src/test/java/io/github/annusshka/MatrixTest.java:205-220 | Dividing by 1 changes nothing. |

## Left out

- IEEE single-precision rounding: every float is an exact real. Results such as 4.1 in the kernel's product test hold exactly here, while the Java test compares them within a tolerance.
- `Math.cos`, `Math.sin` and `Math.toRadians`: cosine and sine in degrees are the parameter `Trig`. Only `RightAngleFacts` is assumed about them, so rotations by angles other than 0 and 90 degrees are stated only under `UnitAngle`.
- `isEqual` of the rotation parameters with (1,1,1) compares with a tolerance in the kernel. Here it is exact equality.
- The matrix kernel (`io.github.annusshka.Math`) is not part of this model. Its transpose, matrix-by-vector product, determinant and adjugate-based inverse are modelled from the calls and from the kernel's tests. Its other operations are not modelled: scalar operations, matrix products, Gauss elimination, dot and cross products, lengths and `isIdentity`.
- Exceptions are the `Result` failures `DimensionMismatch` and `SingularMatrix`. Other runtime exceptions of the Java code are not modelled.
- LinearAlgebra.Det: carries no `ensures`. The kernel's determinant tests are stated by Determinant3Examples and Determinant4Example, and its properties by DeterminantOfTranspose3, DiagonalDeterminant, HomogeneousDeterminant and the About*Inverse lemmas. Any `ensures` on Det would be instantiated in every cofactor expansion of the 4x4 proofs.
- AffineTransformation.ModelTransform: requires no more normals than vertices. With more normals, line 43 throws `IndexOutOfBoundsException`, and that exception path is not modelled.
- Aliasing: `addAll` in `modelTransform` shares the texture-coordinate and polygon objects between the two meshes. Here they are immutable values that are copied.
- `Polygon` internals: only the vertex indices set by `addPolygon` are modelled. Texture and normal indices are not part of this model.
- The normal tests in the test suite build their normals from three collinear points, so every normal there is the zero vector. Instead of those cases, the general properties NormalScaling, NormalScalingKeepsDot, NormalRotation and NormalTranslation are proved.
- AffineTransformation.NormalRotation: its equality with VertexRotation is proved only for (1,1,1) or when every snapped angle stays on the unit circle. Snapping alone does not keep c*c + s*s = 1 for other angles.

## Findings

| source | as written | input that shows it | evidently intended | confidence | as-written member | corrected member |
|---|---|---|---|---|---|---|
| Simple3DViewer/src/main/java/com/cgvsu/affinetransformation/AffineTransformation.java:43 | The normal loop reads `model.vertices.get(i)`, so the i-th new normal is the i-th vertex position run through the normal path. | A mesh with vertex (0,0,0) and normal (0,0,1), with no translation, parameters (1,1,1) and unit factors: the new normal is (0,0,0). With more normals than vertices the loop throws. | Read `model.normals.get(i)`, so each normal goes through the normal path: the same mesh keeps the normal (0,0,1). | not executed | PipelineProperties.NormalsFromPositionsExample | PipelineProperties.NormalsFromNormalsExample |
