/** Reference shapes of the matrices the affine pipeline builds, and what
    the kernel computes for them: the diagonal matrix, the homogeneous 4x4
    translation and the textbook rotations about the three axes. */
module MatrixShapes {
  import opened LinearAlgebra
  import opened LinearAlgebraFacts

  /** The 3x3 matrix with a, b and c on the diagonal. */
  function Diagonal(a: real, b: real, c: real): Matrix
  {
    Matrix3([a, 0.0, 0.0, 0.0, b, 0.0, 0.0, 0.0, c])
  }

  /** The homogeneous translation by (a, b, c): the 4x4 identity with the
      offsets in the last column, row-major. */
  function Homogeneous(a: real, b: real, c: real): Matrix
  {
    Matrix4([1.0, 0.0, 0.0, a, 0.0, 1.0, 0.0, b, 0.0, 0.0, 1.0, c, 0.0, 0.0, 0.0, 1.0])
  }

  /** The rotation with cosine c and sine s about the x axis ... */
  function AboutX(c: real, s: real): Matrix
  {
    Matrix3([1.0, 0.0, 0.0, 0.0, c, -s, 0.0, s, c])
  }

  /** ... about the y axis ... */
  function AboutY(c: real, s: real): Matrix
  {
    Matrix3([c, 0.0, s, 0.0, 1.0, 0.0, -s, 0.0, c])
  }

  /** ... and about the z axis. */
  function AboutZ(c: real, s: real): Matrix
  {
    Matrix3([c, -s, 0.0, s, c, 0.0, 0.0, 0.0, 1.0])
  }

  /** A cosine and sine pair on the unit circle. */
  predicate OnUnitCircle(c: real, s: real)
  {
    c * c + s * s == 1.0
  }

  /** The coordinate-wise product of two 3-vectors. */
  function Hadamard(d: Vector3, v: Vector3): (h: Vector)
    ensures |h| == 3
  {
    [d[0] * v[0], d[1] * v[1], d[2] * v[2]]
  }

  /** The reciprocals of nonzero factors. */
  function Reciprocals(d: Vector3): Vector3
    requires d[0] != 0.0 && d[1] != 0.0 && d[2] != 0.0
  {
    [1.0 / d[0], 1.0 / d[1], 1.0 / d[2]]
  }

  /** Vectors with equal coordinates are equal; stated over plain names so
      that no arithmetic is in sight when it is used. */
  lemma SameCoordinates(a0: real, a1: real, a2: real, b0: real, b1: real, b2: real)
    requires a0 == b0 && a1 == b1 && a2 == b2
    ensures [a0, a1, a2] == [b0, b1, b2]
  {
  }

  /** A 3-vector is the display of its own coordinates. */
  lemma ByCoordinates(v: Vector3)
    ensures v == [v[0], v[1], v[2]]
  {
  }

  /** Dividing a common nonzero factor out of a quotient. */
  lemma CancelCommonFactor(a: real, x: real, d: real)
    requires a != 0.0 && x != 0.0 && d == a * x
    ensures x / d == 1.0 / a
  {
    assert d != 0.0;
    assert (x / d) * d == x;
  }

  /** Multiplying by a reciprocal is dividing. */
  lemma TimesReciprocal(x: real, d: real)
    requires d != 0.0
    ensures (1.0 / d) * x == x / d
  {
    assert (1.0 / d) * d == 1.0;
    assert (x / d) * d == x;
    assert ((1.0 / d) * x) * d == x;
  }

  /** A diagonal matrix has the product of its diagonal as determinant. */
  lemma DiagonalDeterminant(a: real, b: real, c: real)
    ensures Det(Diagonal(a, b, c)) == a * b * c
  {
  }

  /** The adjugate of a diagonal matrix is diagonal, with the products of
      the other two entries. */
  lemma DiagonalAdjugate(a: real, b: real, c: real)
    ensures Adjugate(Diagonal(a, b, c)) == Diagonal(b * c, a * c, a * b)
  {
    Adjugate3Layout(Diagonal(a, b, c));
    var e := Adjugate(Diagonal(a, b, c)).e;
    assert e[0] == b * c && e[1] == 0.0 && e[2] == 0.0;
    assert e[3] == 0.0 && e[4] == a * c && e[5] == 0.0;
    assert e[6] == 0.0 && e[7] == 0.0 && e[8] == a * b;
  }

  /** Dividing a diagonal matrix divides each diagonal entry. */
  lemma DivideDiagonal(a: real, b: real, c: real, d: real)
    requires d != 0.0
    ensures DivideBy(Diagonal(a, b, c), d) == Diagonal(a / d, b / d, c / d)
  {
    assert DivideBy(Diagonal(a, b, c), d).e == Diagonal(a / d, b / d, c / d).e;
  }

  /** A diagonal matrix with nonzero entries has the reciprocals as inverse;
      one with a zero entry is refused as singular. */
  lemma DiagonalInverse(a: real, b: real, c: real)
    ensures a != 0.0 && b != 0.0 && c != 0.0 ==>
              Inverse(Diagonal(a, b, c)) == Ok(Diagonal(1.0 / a, 1.0 / b, 1.0 / c))
    ensures a == 0.0 || b == 0.0 || c == 0.0 ==> Inverse(Diagonal(a, b, c)) == Err(SingularMatrix)
  {
    DiagonalDeterminant(a, b, c);
    if a != 0.0 && b != 0.0 && c != 0.0 {
      assert b * c != 0.0 && a * c != 0.0 && a * b != 0.0;
      var d := a * b * c;
      assert d == a * (b * c) == b * (a * c) == c * (a * b);
      DiagonalAdjugate(a, b, c);
      DivideDiagonal(b * c, a * c, a * b, d);
      CancelCommonFactor(a, b * c, d);
      CancelCommonFactor(b, a * c, d);
      CancelCommonFactor(c, a * b, d);
      assert Inverse(Diagonal(a, b, c)) == Ok(DivideBy(Diagonal(b * c, a * c, a * b), d));
    } else {
      assert a * b * c == 0.0;
    }
  }

  /** A diagonal matrix is its own transpose. */
  lemma DiagonalSymmetric(a: real, b: real, c: real)
    ensures Transpose(Diagonal(a, b, c)) == Diagonal(a, b, c)
  {
    Transpose3Layout(Diagonal(a, b, c));
  }

  /** A diagonal matrix multiplies each coordinate by its own entry. */
  lemma DiagonalTimes(d: Vector3, v: Vector3)
    ensures MulVec(Diagonal(d[0], d[1], d[2]), v) == Ok(Hadamard(d, v))
  {
    var m := Diagonal(d[0], d[1], d[2]);
    MulVec3Layout(m, v);
    var r := MulVec(m, v).value;
    assert r[0] == d[0] * v[0] by {
      assert r[0] == m.e[0] * v[0] + m.e[1] * v[1] + m.e[2] * v[2];
    }
    assert r[1] == d[1] * v[1] by {
      assert r[1] == m.e[3] * v[0] + m.e[4] * v[1] + m.e[5] * v[2];
    }
    assert r[2] == d[2] * v[2] by {
      assert r[2] == m.e[6] * v[0] + m.e[7] * v[1] + m.e[8] * v[2];
    }
    SameCoordinates(r[0], r[1], r[2], d[0] * v[0], d[1] * v[1], d[2] * v[2]);
    ByCoordinates(r);
  }

  /** Multiplying by the reciprocals is dividing by the factors. */
  lemma HadamardReciprocals(v: Vector3, d: Vector3)
    requires d[0] != 0.0 && d[1] != 0.0 && d[2] != 0.0
    ensures Hadamard(Reciprocals(d), v) == [v[0] / d[0], v[1] / d[1], v[2] / d[2]]
  {
    TimesReciprocal(v[0], d[0]);
    TimesReciprocal(v[1], d[1]);
    TimesReciprocal(v[2], d[2]);
    var h := Hadamard(Reciprocals(d), v);
    assert h[0] == v[0] / d[0];
    assert h[1] == v[1] / d[1];
    assert h[2] == v[2] / d[2];
    SameCoordinates(h[0], h[1], h[2], v[0] / d[0], v[1] / d[1], v[2] / d[2]);
    ByCoordinates(h);
  }

  /** The adjugate of the x-axis matrix. */
  lemma AboutXAdjugate(c: real, s: real)
    ensures Adjugate(AboutX(c, s)).e == [c * c + s * s, 0.0, 0.0, 0.0, c, s, 0.0, -s, c]
  {
    var m := AboutX(c, s);
    Adjugate3Layout(m);
    var a := Adjugate(m).e;
    assert a[0] == c * c + s * s && a[1] == 0.0 && a[2] == 0.0;
    assert a[3] == 0.0 && a[4] == c && a[5] == s;
    assert a[6] == 0.0 && a[7] == -s && a[8] == c;
  }

  /** With c * c + s * s == 1 the x-axis matrix has determinant 1 and its
      transpose as inverse. */
  lemma AboutXInverse(c: real, s: real)
    requires OnUnitCircle(c, s)
    ensures Det(AboutX(c, s)) == 1.0
    ensures Inverse(AboutX(c, s)) == Ok(Transpose(AboutX(c, s)))
  {
    var m := AboutX(c, s);
    assert Det(m) == c * c + s * s;
    Transpose3Layout(m);
    AboutXAdjugate(c, s);
    assert Adjugate(m) == Transpose(m);
    DivideByOne(Adjugate(m));
  }

  /** The adjugate of the y-axis matrix. */
  lemma AboutYAdjugate(c: real, s: real)
    ensures Adjugate(AboutY(c, s)).e == [c, 0.0, -s, 0.0, c * c + s * s, 0.0, s, 0.0, c]
  {
    var m := AboutY(c, s);
    Adjugate3Layout(m);
    var a := Adjugate(m).e;
    assert a[0] == c && a[1] == 0.0 && a[2] == -s;
    assert a[3] == 0.0 && a[4] == c * c + s * s && a[5] == 0.0;
    assert a[6] == s && a[7] == 0.0 && a[8] == c;
  }

  /** The same for the y-axis matrix. */
  lemma AboutYInverse(c: real, s: real)
    requires OnUnitCircle(c, s)
    ensures Det(AboutY(c, s)) == 1.0
    ensures Inverse(AboutY(c, s)) == Ok(Transpose(AboutY(c, s)))
  {
    var m := AboutY(c, s);
    assert Det(m) == c * c + s * s;
    Transpose3Layout(m);
    AboutYAdjugate(c, s);
    assert Adjugate(m) == Transpose(m);
    DivideByOne(Adjugate(m));
  }

  /** The adjugate of the z-axis matrix. */
  lemma AboutZAdjugate(c: real, s: real)
    ensures Adjugate(AboutZ(c, s)).e == [c, s, 0.0, -s, c, 0.0, 0.0, 0.0, c * c + s * s]
  {
    var m := AboutZ(c, s);
    Adjugate3Layout(m);
    var a := Adjugate(m).e;
    assert a[0] == c && a[1] == s && a[2] == 0.0;
    assert a[3] == -s && a[4] == c && a[5] == 0.0;
    assert a[6] == 0.0 && a[7] == 0.0 && a[8] == c * c + s * s;
  }

  /** The same for the z-axis matrix. */
  lemma AboutZInverse(c: real, s: real)
    requires OnUnitCircle(c, s)
    ensures Det(AboutZ(c, s)) == 1.0
    ensures Inverse(AboutZ(c, s)) == Ok(Transpose(AboutZ(c, s)))
  {
    var m := AboutZ(c, s);
    assert Det(m) == c * c + s * s;
    Transpose3Layout(m);
    AboutZAdjugate(c, s);
    assert Adjugate(m) == Transpose(m);
    DivideByOne(Adjugate(m));
  }

  /** m holds the entries of Homogeneous(a, b, c), stated one by one. */
  predicate HasHomogeneousEntries(m: Matrix, a: real, b: real, c: real)
  {
    && m.Matrix4? && |m.e| == 16
    && m.e[0] == 1.0 && m.e[1] == 0.0 && m.e[2] == 0.0 && m.e[3] == a
    && m.e[4] == 0.0 && m.e[5] == 1.0 && m.e[6] == 0.0 && m.e[7] == b
    && m.e[8] == 0.0 && m.e[9] == 0.0 && m.e[10] == 1.0 && m.e[11] == c
    && m.e[12] == 0.0 && m.e[13] == 0.0 && m.e[14] == 0.0 && m.e[15] == 1.0
  }

  /** The cofactors in the first column of a homogeneous translation. */
  lemma HomogeneousCofactorsColumn0(m: Matrix, a: real, b: real, c: real)
    requires HasHomogeneousEntries(m, a, b, c)
    ensures Cofactor(m, 0, 0) == 1.0 && Cofactor(m, 1, 0) == 0.0
    ensures Cofactor(m, 2, 0) == 0.0 && Cofactor(m, 3, 0) == -a
  {
    assert Cofactor(m, 0, 0) == 1.0 by { Cofactor4Expansion(m, 0, 0); }
    assert Cofactor(m, 1, 0) == 0.0 by { Cofactor4Expansion(m, 1, 0); }
    assert Cofactor(m, 2, 0) == 0.0 by { Cofactor4Expansion(m, 2, 0); }
    assert Cofactor(m, 3, 0) == -a by { Cofactor4Expansion(m, 3, 0); }
  }

  /** The cofactors in the second column of a homogeneous translation. */
  lemma HomogeneousCofactorsColumn1(m: Matrix, a: real, b: real, c: real)
    requires HasHomogeneousEntries(m, a, b, c)
    ensures Cofactor(m, 0, 1) == 0.0 && Cofactor(m, 1, 1) == 1.0
    ensures Cofactor(m, 2, 1) == 0.0 && Cofactor(m, 3, 1) == -b
  {
    assert Cofactor(m, 0, 1) == 0.0 by { Cofactor4Expansion(m, 0, 1); }
    assert Cofactor(m, 1, 1) == 1.0 by { Cofactor4Expansion(m, 1, 1); }
    assert Cofactor(m, 2, 1) == 0.0 by { Cofactor4Expansion(m, 2, 1); }
    assert Cofactor(m, 3, 1) == -b by { Cofactor4Expansion(m, 3, 1); }
  }

  /** The cofactors in the third column of a homogeneous translation. */
  lemma HomogeneousCofactorsColumn2(m: Matrix, a: real, b: real, c: real)
    requires HasHomogeneousEntries(m, a, b, c)
    ensures Cofactor(m, 0, 2) == 0.0 && Cofactor(m, 1, 2) == 0.0
    ensures Cofactor(m, 2, 2) == 1.0 && Cofactor(m, 3, 2) == -c
  {
    assert Cofactor(m, 0, 2) == 0.0 by { Cofactor4Expansion(m, 0, 2); }
    assert Cofactor(m, 1, 2) == 0.0 by { Cofactor4Expansion(m, 1, 2); }
    assert Cofactor(m, 2, 2) == 1.0 by { Cofactor4Expansion(m, 2, 2); }
    assert Cofactor(m, 3, 2) == -c by { Cofactor4Expansion(m, 3, 2); }
  }

  /** The cofactors in the fourth column of a homogeneous translation. */
  lemma HomogeneousCofactorsColumn3(m: Matrix, a: real, b: real, c: real)
    requires HasHomogeneousEntries(m, a, b, c)
    ensures Cofactor(m, 0, 3) == 0.0 && Cofactor(m, 1, 3) == 0.0
    ensures Cofactor(m, 2, 3) == 0.0 && Cofactor(m, 3, 3) == 1.0
  {
    assert Cofactor(m, 0, 3) == 0.0 by { Cofactor4Expansion(m, 0, 3); }
    assert Cofactor(m, 1, 3) == 0.0 by { Cofactor4Expansion(m, 1, 3); }
    assert Cofactor(m, 2, 3) == 0.0 by { Cofactor4Expansion(m, 2, 3); }
    assert Cofactor(m, 3, 3) == 1.0 by { Cofactor4Expansion(m, 3, 3); }
  }

  /** The first row of the adjugate of a homogeneous translation. */
  lemma HomogeneousAdjugateRow0(m: Matrix, a: real, b: real, c: real)
    requires HasHomogeneousEntries(m, a, b, c)
    ensures AdjugateFrom(m, 0) == [1.0, 0.0, 0.0, -a] + AdjugateFrom(m, 4)
  {
    HomogeneousCofactorsColumn0(m, a, b, c);
    assert AdjugateFrom(m, 0) == [Cofactor(m, 0, 0)] + AdjugateFrom(m, 1);
    assert AdjugateFrom(m, 1) == [Cofactor(m, 1, 0)] + AdjugateFrom(m, 2);
    assert AdjugateFrom(m, 2) == [Cofactor(m, 2, 0)] + AdjugateFrom(m, 3);
    assert AdjugateFrom(m, 3) == [Cofactor(m, 3, 0)] + AdjugateFrom(m, 4);
  }

  /** The second row of the adjugate of a homogeneous translation. */
  lemma HomogeneousAdjugateRow1(m: Matrix, a: real, b: real, c: real)
    requires HasHomogeneousEntries(m, a, b, c)
    ensures AdjugateFrom(m, 4) == [0.0, 1.0, 0.0, -b] + AdjugateFrom(m, 8)
  {
    HomogeneousCofactorsColumn1(m, a, b, c);
    assert AdjugateFrom(m, 4) == [Cofactor(m, 0, 1)] + AdjugateFrom(m, 5);
    assert AdjugateFrom(m, 5) == [Cofactor(m, 1, 1)] + AdjugateFrom(m, 6);
    assert AdjugateFrom(m, 6) == [Cofactor(m, 2, 1)] + AdjugateFrom(m, 7);
    assert AdjugateFrom(m, 7) == [Cofactor(m, 3, 1)] + AdjugateFrom(m, 8);
  }

  /** The third row of the adjugate of a homogeneous translation. */
  lemma HomogeneousAdjugateRow2(m: Matrix, a: real, b: real, c: real)
    requires HasHomogeneousEntries(m, a, b, c)
    ensures AdjugateFrom(m, 8) == [0.0, 0.0, 1.0, -c] + AdjugateFrom(m, 12)
  {
    HomogeneousCofactorsColumn2(m, a, b, c);
    assert AdjugateFrom(m, 8) == [Cofactor(m, 0, 2)] + AdjugateFrom(m, 9);
    assert AdjugateFrom(m, 9) == [Cofactor(m, 1, 2)] + AdjugateFrom(m, 10);
    assert AdjugateFrom(m, 10) == [Cofactor(m, 2, 2)] + AdjugateFrom(m, 11);
    assert AdjugateFrom(m, 11) == [Cofactor(m, 3, 2)] + AdjugateFrom(m, 12);
  }

  /** The fourth row of the adjugate of a homogeneous translation. */
  lemma HomogeneousAdjugateRow3(m: Matrix, a: real, b: real, c: real)
    requires HasHomogeneousEntries(m, a, b, c)
    ensures AdjugateFrom(m, 12) == [0.0, 0.0, 0.0, 1.0] + AdjugateFrom(m, 16)
  {
    HomogeneousCofactorsColumn3(m, a, b, c);
    assert AdjugateFrom(m, 12) == [Cofactor(m, 0, 3)] + AdjugateFrom(m, 13);
    assert AdjugateFrom(m, 13) == [Cofactor(m, 1, 3)] + AdjugateFrom(m, 14);
    assert AdjugateFrom(m, 14) == [Cofactor(m, 2, 3)] + AdjugateFrom(m, 15);
    assert AdjugateFrom(m, 15) == [Cofactor(m, 3, 3)] + AdjugateFrom(m, 16);
  }

  /** A homogeneous translation has determinant 1. */
  lemma HomogeneousDeterminant(m: Matrix, a: real, b: real, c: real)
    requires HasHomogeneousEntries(m, a, b, c)
    ensures Det(m) == 1.0
  {
    HomogeneousCofactorsColumn0(m, a, b, c);
    HomogeneousCofactorsColumn1(m, a, b, c);
    HomogeneousCofactorsColumn2(m, a, b, c);
    HomogeneousCofactorsColumn3(m, a, b, c);
  }

  /** The adjugate of a homogeneous translation is the opposite translation. */
  lemma HomogeneousAdjugate(m: Matrix, a: real, b: real, c: real)
    requires HasHomogeneousEntries(m, a, b, c)
    ensures Adjugate(m) == Homogeneous(-a, -b, -c)
  {
    HomogeneousAdjugateRow0(m, a, b, c);
    HomogeneousAdjugateRow1(m, a, b, c);
    HomogeneousAdjugateRow2(m, a, b, c);
    HomogeneousAdjugateRow3(m, a, b, c);
    assert AdjugateFrom(m, 16) == [];
    assert AdjugateFrom(m, 0) == Homogeneous(-a, -b, -c).e;
  }

  /** A matrix with determinant 1 is inverted by its adjugate. */
  lemma UnitDeterminantInverse(m: Matrix, adjugate: Matrix)
    requires m.Valid() && Det(m) == 1.0 && Adjugate(m) == adjugate
    ensures Inverse(m) == Ok(adjugate)
  {
    DivideByOne(adjugate);
  }

  /** The homogeneous translation by (a, b, c) is inverted by the one by
      (-a, -b, -c). */
  lemma HomogeneousInverse(a: real, b: real, c: real)
    ensures Inverse(Homogeneous(a, b, c)) == Ok(Homogeneous(-a, -b, -c))
  {
    var m := Homogeneous(a, b, c);
    assert HasHomogeneousEntries(m, a, b, c);
    HomogeneousDeterminant(m, a, b, c);
    HomogeneousAdjugate(m, a, b, c);
    UnitDeterminantInverse(m, Homogeneous(-a, -b, -c));
  }

  /** The transpose of a homogeneous translation keeps the first three
      coordinates of a point lifted to (x, y, z, 1): the offsets only reach
      the fourth. */
  lemma HomogeneousTransposeKeeps(a: real, b: real, c: real, x: real, y: real, z: real)
    ensures var r := MulVec(Transpose(Homogeneous(a, b, c)), [x, y, z, 1.0]);
            r.Ok? && |r.value| == 4 && r.value[0] == x && r.value[1] == y && r.value[2] == z
  {
    var m := Homogeneous(a, b, c);
    Transpose4Layout(m);
    MulVec4Layout(Transpose(m), [x, y, z, 1.0]);
  }
}
