/** `is_diagonally_dominant(A)` of main.py: strict row diagonal dominance of a
    dense or CSC sparse square matrix, `None` for any other input. */
module DiagonalDominance {

  import opened Wrappers
  import opened Vectors
  import opened NumArrays

  /** Every row has as many entries as the matrix has rows. */
  predicate IsSquare(m: seq<seq<real>>)
  {
    forall i :: 0 <= i < |m| ==> |m[i]| == |m|
  }

  /** `np.abs(A)` */
  function AbsMatrix(m: seq<seq<real>>): (r: seq<seq<real>>)
    ensures |r| == |m|
    ensures forall i :: 0 <= i < |m| ==> r[i] == AbsAll(m[i])
  {
    seq(|m|, i requires 0 <= i < |m| => AbsAll(m[i]))
  }

  /** `np.diagonal(A)` of a square matrix. */
  function Diagonal(m: seq<seq<real>>): (d: seq<real>)
    requires IsSquare(m)
    ensures |d| == |m|
    ensures forall i :: 0 <= i < |m| ==> d[i] == m[i][i]
  {
    seq(|m|, i requires 0 <= i < |m| => m[i][i])
  }

  /** `np.sum(A, axis=1)` */
  function RowSums(m: seq<seq<real>>): (s: seq<real>)
    ensures |s| == |m|
    ensures forall i :: 0 <= i < |m| ==> s[i] == Sum(m[i])
  {
    seq(|m|, i requires 0 <= i < |m| => Sum(m[i]))
  }

  /** Element-wise `u > v`. */
  function Greater(u: seq<real>, v: seq<real>): (r: seq<bool>)
    requires |u| == |v|
    ensures |r| == |u|
    ensures forall i :: 0 <= i < |r| ==> r[i] == (u[i] > v[i])
  {
    seq(|u|, i requires 0 <= i < |u| => u[i] > v[i])
  }

  /** `np.all`: true of the empty vector. */
  predicate All(b: seq<bool>)
  {
    forall i :: 0 <= i < |b| ==> b[i]
  }

  /** The whole-array computation of main.py:35-41 on a square matrix:
      `diag > row_sums - diag` on `abs_A`, reduced with `np.all`. */
  predicate DominanceTest(m: seq<seq<real>>)
    requires IsSquare(m)
    ensures |m| == 0 ==> DominanceTest(m)
  {
    var absA := AbsMatrix(m);
    assert IsSquare(absA);
    var diag := Diagonal(absA);
    var rowSums := RowSums(absA);
    var offDiagSums := Sub(rowSums, diag);
    All(Greater(diag, offDiagSums))
  }

  /** `Σ_{j ≠ i} |row[j]|`: the absolute values of a row except the one at
      column i, added up. Defined on its own, without subtraction. */
  function OffDiagonalAbsSum(row: seq<real>, i: nat): (r: real)
    ensures r >= 0.0
  {
    if |row| == 0 then 0.0
    else
      OffDiagonalAbsSum(row[..|row| - 1], i)
      + (if |row| - 1 == i then 0.0 else Abs(row[|row| - 1]))
  }

  /** Strict row diagonal dominance as the textbook states it: in every row
      the diagonal entry outweighs all other entries of the row together. */
  predicate StrictlyDiagonallyDominant(m: seq<seq<real>>)
    requires IsSquare(m)
  {
    forall i :: 0 <= i < |m| ==> Abs(m[i][i]) > OffDiagonalAbsSum(m[i], i)
  }

  lemma {:induction false} OffDiagonalPastEnd(row: seq<real>, i: nat)
    requires i >= |row|
    ensures OffDiagonalAbsSum(row, i) == Sum(AbsAll(row))
  {
    if |row| > 0 {
      var front := row[..|row| - 1];
      OffDiagonalPastEnd(front, i);
      assert AbsAll(row)[..|row| - 1] == AbsAll(front);
    }
  }

  /** A row's absolute sum is its diagonal part plus its off-diagonal part. */
  lemma {:induction false} RowAbsSumSplits(row: seq<real>, i: nat)
    requires i < |row|
    ensures Sum(AbsAll(row)) == Abs(row[i]) + OffDiagonalAbsSum(row, i)
  {
    var front := row[..|row| - 1];
    assert AbsAll(row)[..|row| - 1] == AbsAll(front);
    if i == |row| - 1 {
      OffDiagonalPastEnd(front, i);
    } else {
      RowAbsSumSplits(front, i);
    }
  }

  /** The whole-array computation decides exactly strict diagonal dominance. */
  lemma DominanceTestCorrect(m: seq<seq<real>>)
    requires IsSquare(m)
    ensures DominanceTest(m) <==> StrictlyDiagonallyDominant(m)
  {
    var absA := AbsMatrix(m);
    assert IsSquare(absA);
    var diag := Diagonal(absA);
    var offDiagSums := Sub(RowSums(absA), diag);
    forall i | 0 <= i < |m|
      ensures (diag[i] > offDiagSums[i]) <==> Abs(m[i][i]) > OffDiagonalAbsSum(m[i], i)
    {
      RowAbsSumSplits(m[i], i);
    }
  }

  /** main.py:14-41. `None` for an argument that is neither a dense array nor
      a CSC array, or whose dense form is not a square two-dimensional array;
      otherwise whether the matrix is strictly diagonally dominant. */
  function IsDiagonallyDominant(A: Value): (r: Option<bool>)
    ensures A.Other? ==> r == None
    ensures !A.Other? ==> (r.Some? <==> Densify(A).IsSquareMatrix())
    ensures r.Some? ==> !A.Other? && Densify(A).Matrix?
                        && (r.value <==> StrictlyDiagonallyDominant(Densify(A).rows))
  {
    if A.Other? then None
    else
      var a := Densify(A);
      if a.Ndim() != 2 || |a.rows| != a.cols then None
      else
        DominanceTestCorrect(a.rows);
        Some(DominanceTest(a.rows))
  }
}

/** Properties of `is_diagonally_dominant` stated over all inputs. */
module DiagonalDominanceProperties {

  import opened Wrappers
  import opened Vectors
  import opened NumArrays
  import opened DiagonalDominance

  /** A CSC array and a dense matrix holding the same values get the same
      answer: the sparse input is converted before any check (main.py:29-30). */
  lemma SparseAgreesWithDense(s: CscArray, d: NdArray)
    requires d.Matrix? && |d.rows| == s.nrows && d.cols == s.ncols
    requires forall i, j :: 0 <= i < s.nrows && 0 <= j < s.ncols ==> d.rows[i][j] == Entry(s, i, j)
    ensures IsDiagonallyDominant(Sparse(s)) == IsDiagonallyDominant(Dense(d))
  {
    ToDenseUnique(s, d);
  }

  /** Any array whose number of dimensions is not two is rejected (main.py:32-33). */
  lemma NotTwoDimensionalIsInvalid(a: NdArray)
    requires a.Ndim() != 2
    ensures IsDiagonallyDominant(Dense(a)) == None
  {
  }

  /** A rectangular matrix that is not square is rejected, dense or sparse (main.py:32-33). */
  lemma NonSquareIsInvalid(A: Value)
    requires A.Dense? || A.Sparse?
    requires A.Dense? ==> A.a.Matrix? && |A.a.rows| != A.a.cols
    requires A.Sparse? ==> A.s.nrows != A.s.ncols
    ensures IsDiagonallyDominant(A) == None
  {
  }

  /** The 0×0 matrix is dominant: `np.all` of nothing is true. A matrix of
      shape (0, n) with n > 0 is not square and is rejected. */
  lemma EmptyMatrices(n: nat)
    requires n > 0
    ensures IsDiagonallyDominant(Dense(Matrix(0, []))) == Some(true)
    ensures IsDiagonallyDominant(Sparse(Csc(0, 0, [0], [], []))) == Some(true)
    ensures IsDiagonallyDominant(Dense(Matrix(n, []))) == None
  {
  }

  /** A strictly dominant matrix has no zero on its diagonal. */
  lemma DominantDiagonalIsNonzero(A: Value)
    requires IsDiagonallyDominant(A) == Some(true)
    ensures !A.Other?
    ensures forall i :: 0 <= i < |Densify(A).rows| ==> Densify(A).rows[i][i] != 0.0
  {
  }

  /** A 1×1 matrix is dominant exactly when its one entry is not zero. */
  lemma {:induction false} OneByOne(x: real)
    ensures IsDiagonallyDominant(Dense(Matrix(1, [[x]]))) == Some(x != 0.0)
  {
    var row := [x];
    assert row[..0] == [];
    assert OffDiagonalAbsSum(row, 0) == 0.0;
    var m := [row];
    assert m[0][0] == x;
    assert StrictlyDiagonallyDominant(m) <==> Abs(m[0][0]) > OffDiagonalAbsSum(m[0], 0);
  }

  /** [[4, 1], [1, 3]] is dominant; [[1, 2], [1, 1]] is not (its first row fails). */
  lemma TwoByTwoExamples()
    ensures IsDiagonallyDominant(Dense(Matrix(2, [[4.0, 1.0], [1.0, 3.0]]))) == Some(true)
    ensures IsDiagonallyDominant(Dense(Matrix(2, [[1.0, 2.0], [1.0, 1.0]]))) == Some(false)
  {
    var good := [[4.0, 1.0], [1.0, 3.0]];
    var bad := [[1.0, 2.0], [1.0, 1.0]];
    OffDiagonalTwo(good[0], 0);
    OffDiagonalTwo(good[1], 1);
    OffDiagonalTwo(bad[0], 0);
  }

  lemma OffDiagonalTwo(row: seq<real>, i: nat)
    requires |row| == 2 && i < 2
    ensures OffDiagonalAbsSum(row, i) == Abs(row[1 - i])
  {
    var first := row[..1];
    assert first[..0] == [];
    assert OffDiagonalAbsSum(first, i) == if i == 0 then 0.0 else Abs(row[0]);
  }
}
