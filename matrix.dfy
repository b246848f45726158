/** The part of the fixed-size matrix kernel that the affine pipeline calls:
    transpose, matrix-by-vector multiplication, determinant and the
    adjugate-based inverse. A matrix is a 3x3 or 4x4 grid stored row-major,
    so that entry (i, j) of an n x n matrix sits at flat index i * n + j. */
module LinearAlgebra {

  /** The failures the kernel signals to its caller instead of a value. */
  datatype MathError =
    | DimensionMismatch   // "Different sizes can't be multiplicated"
    | SingularMatrix      // "Matrix hasn't inverse matrix"

  datatype Result<T> = Ok(value: T) | Err(error: MathError) {
    predicate IsFailure() { Err? }
    function PropagateFailure<U>(): Result<U> requires Err? { Err(error) }
    function Extract(): T requires Ok? { value }
  }

  type Vector = seq<real>

  /** A vector of exactly three components, as the kernel's 3-vector class. */
  type Vector3 = v: seq<real> | |v| == 3 witness [0.0, 0.0, 0.0]

  /** A square matrix of size 3 or 4; `e` holds its entries row by row. */
  datatype Matrix = Matrix3(e: seq<real>) | Matrix4(e: seq<real>) {
    function Size(): nat { if Matrix3? then 3 else 4 }

    predicate Valid() { |e| == if Matrix3? then 9 else 16 }

    function At(i: nat, j: nat): real
      requires Valid() && i < Size() && j < Size()
    {
      if Matrix3? then e[3 * i + j] else e[4 * i + j]
    }
  }

  /** Swaps entry (i, j) with entry (j, i). */
  function Transpose(m: Matrix): (t: Matrix)
    requires m.Valid()
    ensures t.Valid() && t.Size() == m.Size()
    ensures forall i, j :: 0 <= i < m.Size() && 0 <= j < m.Size() ==> t.At(i, j) == m.At(j, i)
  {
    match m
    case Matrix3(_) => Matrix3(seq(9, k requires 0 <= k < 9 => m.At(k % 3, k / 3)))
    case Matrix4(_) => Matrix4(seq(16, k requires 0 <= k < 16 => m.At(k % 4, k / 4)))
  }

  /** Row i of m times v: the sum over j of m(i, j) * v[j]. */
  function RowTimes(m: Matrix, i: nat, v: Vector): real
    requires m.Valid() && i < m.Size() && |v| == m.Size()
  {
    var first3 := m.At(i, 0) * v[0] + m.At(i, 1) * v[1] + m.At(i, 2) * v[2];
    if m.Matrix3? then first3 else first3 + m.At(i, 3) * v[3]
  }

  /** Matrix-by-vector product; a vector whose length is not the matrix size
      is refused with DimensionMismatch. */
  function MulVec(m: Matrix, v: Vector): (r: Result<Vector>)
    requires m.Valid()
    ensures r.Ok? <==> |v| == m.Size()
    ensures r.Ok? ==> |r.value| == m.Size()
    ensures r.Ok? ==> forall i :: 0 <= i < m.Size() ==> r.value[i] == RowTimes(m, i, v)
  {
    if |v| != m.Size() then Err(DimensionMismatch)
    else Ok(seq(m.Size(), i requires 0 <= i < m.Size() => RowTimes(m, i, v)))
  }

  function Det2(a: seq<real>): real
    requires |a| == 4
  {
    a[0] * a[3] - a[1] * a[2]
  }

  function Det3(a: seq<real>): real
    requires |a| == 9
  {
    a[0] * (a[4] * a[8] - a[5] * a[7])
    - a[1] * (a[3] * a[8] - a[5] * a[6])
    + a[2] * (a[3] * a[7] - a[4] * a[6])
  }

  /** Index r of the minor corresponds to index Skip(r, x) of the matrix
      from which line x was removed. */
  function Skip(r: nat, x: nat): nat
  {
    if r < x then r else r + 1
  }

  /** The entries, row-major, of m with row `row` and column `col` removed. */
  function Minor(m: Matrix, row: nat, col: nat): (a: seq<real>)
    requires m.Valid() && row < m.Size() && col < m.Size()
    ensures |a| == (m.Size() - 1) * (m.Size() - 1)
  {
    var r0, r1, r2 := Skip(0, row), Skip(1, row), Skip(2, row);
    var c0, c1, c2 := Skip(0, col), Skip(1, col), Skip(2, col);
    if m.Matrix3? then
      [m.At(r0, c0), m.At(r0, c1),
       m.At(r1, c0), m.At(r1, c1)]
    else
      [m.At(r0, c0), m.At(r0, c1), m.At(r0, c2),
       m.At(r1, c0), m.At(r1, c1), m.At(r1, c2),
       m.At(r2, c0), m.At(r2, c1), m.At(r2, c2)]
  }

  /** The signed minor of entry (i, j): the determinant of what is left
      once row i and column j are removed, negated when i + j is odd. */
  function Cofactor(m: Matrix, i: nat, j: nat): real
    requires m.Valid() && i < m.Size() && j < m.Size()
    decreases m.Size(), 0
  {
    var minor := Minor(m, i, j);
    var d := if m.Matrix3? then Det2(minor) else Det(Matrix3(minor));
    if (i + j) % 2 == 0 then d else -d
  }

  /** Determinant: the closed formula for 3x3, cofactor expansion along the
      first row for 4x4. */
  function Det(m: Matrix): real
    requires m.Valid()
    decreases m.Size(), 1
  {
    if m.Matrix3? then Det3(m.e)
    else m.At(0, 0) * Cofactor(m, 0, 0) + m.At(0, 1) * Cofactor(m, 0, 1)
         + m.At(0, 2) * Cofactor(m, 0, 2) + m.At(0, 3) * Cofactor(m, 0, 3)
  }

  /** The transposed matrix of cofactors: its entry (i, j) is Cofactor(m, j, i). */
  function Adjugate(m: Matrix): (a: Matrix)
    requires m.Valid()
    ensures a.Valid() && a.Size() == m.Size()
  {
    if m.Matrix3? then Adjugate3(m) else Adjugate4(m)
  }

  /** The 3x3 adjugate, entry by entry. */
  function Adjugate3(m: Matrix): (a: Matrix)
    requires m.Matrix3? && m.Valid()
    ensures a.Matrix3? && a.Valid()
  {
    Matrix3([Cofactor(m, 0, 0), Cofactor(m, 1, 0), Cofactor(m, 2, 0),
             Cofactor(m, 0, 1), Cofactor(m, 1, 1), Cofactor(m, 2, 1),
             Cofactor(m, 0, 2), Cofactor(m, 1, 2), Cofactor(m, 2, 2)])
  }

  /** The entries of the 4x4 adjugate from flat index k on; index k is
      row k / 4 and column k % 4, which holds Cofactor(m, k % 4, k / 4). */
  function AdjugateFrom(m: Matrix, k: nat): (r: seq<real>)
    requires m.Matrix4? && m.Valid() && k <= 16
    ensures |r| == 16 - k
    decreases 16 - k
  {
    if k == 16 then [] else [Cofactor(m, k % 4, k / 4)] + AdjugateFrom(m, k + 1)
  }

  /** The 4x4 adjugate. */
  function Adjugate4(m: Matrix): (a: Matrix)
    requires m.Matrix4? && m.Valid()
    ensures a.Matrix4? && a.Valid()
  {
    Matrix4(AdjugateFrom(m, 0))
  }

  /** Every entry of m divided by d (the kernel's divide-on-value, called
      only with d != 0). */
  function DivideBy(m: Matrix, d: real): (r: Matrix)
    requires m.Valid() && d != 0.0
    ensures r.Valid() && r.Size() == m.Size()
  {
    match m
    case Matrix3(_) => Matrix3(seq(9, k requires 0 <= k < 9 => m.e[k] / d))
    case Matrix4(_) => Matrix4(seq(16, k requires 0 <= k < 16 => m.e[k] / d))
  }

  /** Inverse as adjugate divided by determinant; a matrix whose
      determinant is zero has none and is refused with SingularMatrix. */
  function Inverse(m: Matrix): (r: Result<Matrix>)
    requires m.Valid()
    ensures r.Err? <==> Det(m) == 0.0
    ensures r.Err? ==> r.error == SingularMatrix
    ensures r.Ok? ==> r.value.Valid() && r.value.Size() == m.Size()
  {
    var d := Det(m);
    if d == 0.0 then Err(SingularMatrix) else Ok(DivideBy(Adjugate(m), d))
  }
}

/** Properties of the kernel, including the expectations its own test suite
    pins down. */
module LinearAlgebraFacts {
  import opened LinearAlgebra

  /** Two matrices of the same shape that agree at every (i, j) are equal. */
  lemma EqualByEntries(a: Matrix, b: Matrix)
    requires a.Valid() && b.Valid() && a.Matrix3? == b.Matrix3?
    requires forall i, j :: 0 <= i < a.Size() && 0 <= j < a.Size() ==> a.At(i, j) == b.At(i, j)
    ensures a == b
  {
    var n := a.Size();
    forall k | 0 <= k < |a.e|
      ensures a.e[k] == b.e[k]
    {
      assert a.At(k / n, k % n) == b.At(k / n, k % n);
    }
  }

  lemma TransposeInvolutive(m: Matrix)
    requires m.Valid()
    ensures Transpose(Transpose(m)) == m
  {
    EqualByEntries(Transpose(Transpose(m)), m);
  }

  /** The flat layout of a transposed 3x3 matrix. */
  lemma Transpose3Layout(m: Matrix)
    requires m.Matrix3? && m.Valid()
    ensures Transpose(m).e == [m.e[0], m.e[3], m.e[6], m.e[1], m.e[4], m.e[7], m.e[2], m.e[5], m.e[8]]
  {
    var t := Transpose(m);
    assert t.e[0] == m.e[0] && t.e[1] == m.e[3] && t.e[2] == m.e[6];
    assert t.e[3] == m.e[1] && t.e[4] == m.e[4] && t.e[5] == m.e[7];
    assert t.e[6] == m.e[2] && t.e[7] == m.e[5] && t.e[8] == m.e[8];
  }

  /** The flat layout of a transposed 4x4 matrix. */
  lemma Transpose4Layout(m: Matrix)
    requires m.Matrix4? && m.Valid()
    ensures Transpose(m).e == [m.e[0], m.e[4], m.e[8], m.e[12], m.e[1], m.e[5], m.e[9], m.e[13],
                               m.e[2], m.e[6], m.e[10], m.e[14], m.e[3], m.e[7], m.e[11], m.e[15]]
  {
    var t := Transpose(m);
    assert t.e[0] == m.e[0] && t.e[1] == m.e[4] && t.e[2] == m.e[8] && t.e[3] == m.e[12];
    assert t.e[4] == m.e[1] && t.e[5] == m.e[5] && t.e[6] == m.e[9] && t.e[7] == m.e[13];
    assert t.e[8] == m.e[2] && t.e[9] == m.e[6] && t.e[10] == m.e[10] && t.e[11] == m.e[14];
    assert t.e[12] == m.e[3] && t.e[13] == m.e[7] && t.e[14] == m.e[11] && t.e[15] == m.e[15];
  }

  /** The cofactors along the first row of a 3x3 matrix. */
  lemma Cofactors3Row0(m: Matrix)
    requires m.Matrix3? && m.Valid()
    ensures Cofactor(m, 0, 0) == m.e[4] * m.e[8] - m.e[5] * m.e[7]
    ensures Cofactor(m, 0, 1) == -(m.e[3] * m.e[8] - m.e[5] * m.e[6])
    ensures Cofactor(m, 0, 2) == m.e[3] * m.e[7] - m.e[4] * m.e[6]
  {
  }

  /** The cofactors along the second row of a 3x3 matrix. */
  lemma Cofactors3Row1(m: Matrix)
    requires m.Matrix3? && m.Valid()
    ensures Cofactor(m, 1, 0) == -(m.e[1] * m.e[8] - m.e[2] * m.e[7])
    ensures Cofactor(m, 1, 1) == m.e[0] * m.e[8] - m.e[2] * m.e[6]
    ensures Cofactor(m, 1, 2) == -(m.e[0] * m.e[7] - m.e[1] * m.e[6])
  {
  }

  /** The cofactors along the third row of a 3x3 matrix. */
  lemma Cofactors3Row2(m: Matrix)
    requires m.Matrix3? && m.Valid()
    ensures Cofactor(m, 2, 0) == m.e[1] * m.e[5] - m.e[2] * m.e[4]
    ensures Cofactor(m, 2, 1) == -(m.e[0] * m.e[5] - m.e[2] * m.e[3])
    ensures Cofactor(m, 2, 2) == m.e[0] * m.e[4] - m.e[1] * m.e[3]
  {
  }

  /** The adjugate of a 3x3 matrix, written out entry by entry. */
  lemma Adjugate3Layout(m: Matrix)
    requires m.Matrix3? && m.Valid()
    ensures Adjugate(m).e
         == [m.e[4] * m.e[8] - m.e[5] * m.e[7], -(m.e[1] * m.e[8] - m.e[2] * m.e[7]), m.e[1] * m.e[5] - m.e[2] * m.e[4],
             -(m.e[3] * m.e[8] - m.e[5] * m.e[6]), m.e[0] * m.e[8] - m.e[2] * m.e[6], -(m.e[0] * m.e[5] - m.e[2] * m.e[3]),
             m.e[3] * m.e[7] - m.e[4] * m.e[6], -(m.e[0] * m.e[7] - m.e[1] * m.e[6]), m.e[0] * m.e[4] - m.e[1] * m.e[3]]
  {
    Cofactors3Row0(m);
    Cofactors3Row1(m);
    Cofactors3Row2(m);
  }

  /** Transposing a 3x3 matrix keeps its determinant. */
  lemma DeterminantOfTranspose3(m: Matrix)
    requires m.Matrix3? && m.Valid()
    ensures Det(Transpose(m)) == Det(m)
  {
    var t := Transpose(m);
    assert t.e == [m.e[0], m.e[3], m.e[6], m.e[1], m.e[4], m.e[7], m.e[2], m.e[5], m.e[8]] by {
      Transpose3Layout(m);
    }
    Det3Symmetric(m.e);
  }

  /** The closed 3x3 formula gives the same value on the transposed entries. */
  lemma Det3Symmetric(a: seq<real>)
    requires |a| == 9
    ensures Det3([a[0], a[3], a[6], a[1], a[4], a[7], a[2], a[5], a[8]]) == Det3(a)
  {
    var t := [a[0], a[3], a[6], a[1], a[4], a[7], a[2], a[5], a[8]];
    assert Det3(t) == a[0] * (a[4] * a[8] - a[7] * a[5]) - a[3] * (a[1] * a[8] - a[7] * a[2])
                      + a[6] * (a[1] * a[5] - a[4] * a[2]);
  }

  /** A cofactor of a 4x4 matrix is the signed closed-form determinant of its minor. */
  lemma Cofactor4Expansion(m: Matrix, i: nat, j: nat)
    requires m.Matrix4? && m.Valid() && i < 4 && j < 4
    ensures Cofactor(m, i, j) == if (i + j) % 2 == 0 then Det3(Minor(m, i, j)) else -Det3(Minor(m, i, j))
  {
  }

  /** Multiplying each entry of the quotient by the divisor gives back the
      entry of the matrix that was divided. */
  lemma DivideByUndoes(m: Matrix, d: real, k: nat)
    requires m.Valid() && d != 0.0 && k < |m.e|
    ensures DivideBy(m, d).e[k] * d == m.e[k]
  {
  }

  /** Dividing by one changes no entry. */
  lemma DivideByOne(m: Matrix)
    requires m.Valid()
    ensures DivideBy(m, 1.0) == m
  {
    assert DivideBy(m, 1.0).e == m.e;
  }

  /** MatrixTest.transposeMatrix. */
  lemma TransposeExamples()
    ensures Transpose(Matrix3([0.0, 1.1, -3.0, 0.0, -4.5, 7.3, 6.0, 0.78, 1.0]))
         == Matrix3([0.0, 0.0, 6.0, 1.1, -4.5, 0.78, -3.0, 7.3, 1.0])
    ensures Transpose(Matrix4([0.0, 1.0, 2.0, 3.0, 4.0, 5.0, 6.0, 7.0, 8.0, 9.0, 10.0, 11.0, 12.0, 13.0, 14.0, 15.0]))
         == Matrix4([0.0, 4.0, 8.0, 12.0, 1.0, 5.0, 9.0, 13.0, 2.0, 6.0, 10.0, 14.0, 3.0, 7.0, 11.0, 15.0])
  {
    Transpose3Layout(Matrix3([0.0, 1.1, -3.0, 0.0, -4.5, 7.3, 6.0, 0.78, 1.0]));
    Transpose4Layout(Matrix4([0.0, 1.0, 2.0, 3.0, 4.0, 5.0, 6.0, 7.0, 8.0, 9.0, 10.0, 11.0, 12.0, 13.0, 14.0, 15.0]));
  }

  /** A 3x3 matrix applied to a 3-vector, written out row by row. */
  function Apply3(m: Matrix, v: Vector3): Vector3
    requires m.Matrix3? && m.Valid()
  {
    [m.e[0] * v[0] + m.e[1] * v[1] + m.e[2] * v[2],
     m.e[3] * v[0] + m.e[4] * v[1] + m.e[5] * v[2],
     m.e[6] * v[0] + m.e[7] * v[1] + m.e[8] * v[2]]
  }

  /** The kernel's product of a 3x3 matrix and a 3-vector never fails and
      is the row-by-row product. */
  lemma MulVec3Layout(m: Matrix, v: Vector3)
    requires m.Matrix3? && m.Valid()
    ensures MulVec(m, v).Ok? && MulVec(m, v).value == Apply3(m, v)
  {
    var r := MulVec(m, v).value;
    assert r[0] == RowTimes(m, 0, v) == m.e[0] * v[0] + m.e[1] * v[1] + m.e[2] * v[2];
    assert r[1] == RowTimes(m, 1, v) == m.e[3] * v[0] + m.e[4] * v[1] + m.e[5] * v[2];
    assert r[2] == RowTimes(m, 2, v) == m.e[6] * v[0] + m.e[7] * v[1] + m.e[8] * v[2];
    var a := Apply3(m, v);
    assert r[0] == a[0] && r[1] == a[1] && r[2] == a[2];
    assert r == a;
  }

  /** A 4x4 matrix times a 4-vector, written out row by row. */
  lemma MulVec4Layout(m: Matrix, v: Vector)
    requires m.Matrix4? && m.Valid() && |v| == 4
    ensures MulVec(m, v) == Ok([m.e[0] * v[0] + m.e[1] * v[1] + m.e[2] * v[2] + m.e[3] * v[3],
                                m.e[4] * v[0] + m.e[5] * v[1] + m.e[6] * v[2] + m.e[7] * v[3],
                                m.e[8] * v[0] + m.e[9] * v[1] + m.e[10] * v[2] + m.e[11] * v[3],
                                m.e[12] * v[0] + m.e[13] * v[1] + m.e[14] * v[2] + m.e[15] * v[3]])
  {
    var r := MulVec(m, v).value;
    assert r[0] == RowTimes(m, 0, v) == m.e[0] * v[0] + m.e[1] * v[1] + m.e[2] * v[2] + m.e[3] * v[3];
    assert r[1] == RowTimes(m, 1, v) == m.e[4] * v[0] + m.e[5] * v[1] + m.e[6] * v[2] + m.e[7] * v[3];
    assert r[2] == RowTimes(m, 2, v) == m.e[8] * v[0] + m.e[9] * v[1] + m.e[10] * v[2] + m.e[11] * v[3];
    assert r[3] == RowTimes(m, 3, v) == m.e[12] * v[0] + m.e[13] * v[1] + m.e[14] * v[2] + m.e[15] * v[3];
    assert r == [r[0], r[1], r[2], r[3]];
  }

  /** MatrixTest.multiplicateOnVector, including the refused 4x4-by-3 product. */
  lemma MulVecExamples()
    ensures MulVec(Matrix3([1.0, 2.0, 3.0, 4.0, 5.0, 6.0, 7.0, 8.0, 9.0]), [0.0, -0.5, 1.7]) == Ok([4.1, 7.7, 11.3])
    ensures MulVec(Matrix4([0.0, 1.0, 2.0, 3.0, 4.0, 5.0, 6.0, 7.0, 8.0, 9.0, 10.0, 11.0, 12.0, 13.0, 14.0, 15.0]), [0.0, 1.0, 2.0, 3.0])
         == Ok([14.0, 38.0, 62.0, 86.0])
    ensures MulVec(Matrix4([0.0, 1.0, 2.0, 3.0, 4.0, 5.0, 6.0, 7.0, 8.0, 9.0, 10.0, 11.0, 12.0, 13.0, 14.0, 15.0]), [0.0, 0.0, 0.0, 0.0])
         == Ok([0.0, 0.0, 0.0, 0.0])
    ensures MulVec(Matrix4([0.0, 1.0, 2.0, 3.0, 4.0, 5.0, 6.0, 7.0, 8.0, 9.0, 10.0, 11.0, 12.0, 13.0, 14.0, 15.0]), [0.0, -0.5, 1.7])
         == Err(DimensionMismatch)
  {
    MulVec3Layout(Matrix3([1.0, 2.0, 3.0, 4.0, 5.0, 6.0, 7.0, 8.0, 9.0]), [0.0, -0.5, 1.7]);
    var m4 := Matrix4([0.0, 1.0, 2.0, 3.0, 4.0, 5.0, 6.0, 7.0, 8.0, 9.0, 10.0, 11.0, 12.0, 13.0, 14.0, 15.0]);
    MulVec4Layout(m4, [0.0, 1.0, 2.0, 3.0]);
    MulVec4Layout(m4, [0.0, 0.0, 0.0, 0.0]);
  }

  /** MatrixTest.getMatrixDeterminant and MatrixTest.getDeterminant, 3x3 cases. */
  lemma Determinant3Examples()
    ensures Det(Matrix3([1.0, -2.0, 3.0, 4.0, 0.0, 6.0, -7.0, 8.0, 9.0])) == 204.0
    ensures Det(Matrix3([1.0, 0.0, 3.0, 4.0, 0.0, 6.0, -7.0, 0.0, 9.0])) == 0.0
    ensures Det(Matrix3([2.0, 5.0, 7.0, 6.0, 3.0, 4.0, 5.0, -2.0, -3.0])) == -1.0
    ensures Det(Matrix3([2.0, 0.0, 7.0, 6.0, 0.0, 4.0, 5.0, 0.0, -3.0])) == 0.0
  {
  }

  /** MatrixTest.getMatrixDeterminant, 4x4 case: only the first cofactor
      of the first row has a nonzero coefficient. */
  lemma Determinant4Example()
    ensures Det(Matrix4([10.0, 0.0, 0.0, 0.0, 0.0, 4.0, 5.0, 2.0, 6.0, 2.0, 3.0, 3.0, 4.0, 1.0, 2.0, 1.0])) == -50.0
  {
    var m4 := Matrix4([10.0, 0.0, 0.0, 0.0, 0.0, 4.0, 5.0, 2.0, 6.0, 2.0, 3.0, 3.0, 4.0, 1.0, 2.0, 1.0]);
    assert Minor(m4, 0, 0) == [4.0, 5.0, 2.0, 2.0, 3.0, 3.0, 1.0, 2.0, 1.0];
    assert Det(Matrix3(Minor(m4, 0, 0))) == -5.0;
    assert Det(m4) == 10.0 * Cofactor(m4, 0, 0);
  }

  /** MatrixTest.getInverseMatrix: an invertible 3x3 matrix and a singular one. */
  lemma InverseExamples()
    ensures Inverse(Matrix3([2.0, 5.0, 7.0, 6.0, 3.0, 4.0, 5.0, -2.0, -3.0]))
         == Ok(Matrix3([1.0, -1.0, 1.0, -38.0, 41.0, -34.0, 27.0, -29.0, 24.0]))
    ensures Inverse(Matrix3([2.0, 0.0, 7.0, 6.0, 0.0, 4.0, 5.0, 0.0, -3.0])) == Err(SingularMatrix)
  {
    var m := Matrix3([2.0, 5.0, 7.0, 6.0, 3.0, 4.0, 5.0, -2.0, -3.0]);
    assert Det(m) == -1.0;
    var adj := Adjugate(m);
    assert adj.e == [-1.0, 1.0, -1.0, 38.0, -41.0, 34.0, -27.0, 29.0, -24.0];
    var inv := DivideBy(adj, -1.0);
    assert inv.e == [inv.e[0], inv.e[1], inv.e[2], inv.e[3], inv.e[4], inv.e[5], inv.e[6], inv.e[7], inv.e[8]];
  }
}
