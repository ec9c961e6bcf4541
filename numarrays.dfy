/** The argument kinds main.py distinguishes: dense numpy arrays (by number of
    dimensions), scipy CSC sparse arrays, and every other Python object. */
module NumArrays {

  /** A dense `np.ndarray` of reals, classified by `ndim`. */
  datatype RawNdArray =
    | Scalar(x: real)                          // ndim 0
    | Vector(v: seq<real>)                     // ndim 1, shape (|v|,)
    | Matrix(cols: nat, rows: seq<seq<real>>)  // ndim 2, shape (|rows|, cols)
    | Higher(shape: seq<nat>)                  // ndim >= 3; its elements are never read
  {
    /** A numpy array is rectangular: every row of a matrix has `cols`
        entries, and `Higher` really has three or more dimensions. */
    predicate WellFormed()
    {
      match this
      case Matrix(cols, rows) => forall i :: 0 <= i < |rows| ==> |rows[i]| == cols
      case Higher(shape) => |shape| >= 3
      case _ => true
    }

    /** `A.ndim` */
    function Ndim(): (d: nat)
      ensures d == 2 <==> Matrix?
      ensures d == 1 <==> Vector?
    {
      match this
      case Scalar(_) => 0
      case Vector(_) => 1
      case Matrix(_, _) => 2
      case Higher(shape) => if |shape| < 3 then 3 else |shape|  // a well-formed Higher has |shape| >= 3
    }

    /** `A.ndim == 2 and A.shape[0] == A.shape[1]` */
    predicate IsSquareMatrix()
    {
      Matrix? && |rows| == cols
    }
  }

  type NdArray = a: RawNdArray | a.WellFormed() witness Scalar(0.0)

  /** A `scipy.sparse.csc_array` of shape (nrows, ncols): the row indices and
      values of column j are stored at positions indptr[j] .. indptr[j+1]-1.
      Duplicate (row, column) pairs are allowed and add up. */
  datatype RawCsc = Csc(nrows: nat, ncols: nat, indptr: seq<nat>, indices: seq<nat>, data: seq<real>)
  {
    predicate WellFormed()
    {
      && |indptr| == ncols + 1
      && indptr[0] == 0
      && (forall j, j' :: 0 <= j <= j' <= ncols ==> indptr[j] <= indptr[j'])
      && indptr[ncols] == |indices| == |data|
      && (forall k :: 0 <= k < |indices| ==> indices[k] < nrows)
    }
  }

  type CscArray = s: RawCsc | s.WellFormed() witness Csc(0, 0, [0], [], [])

  /** Sum of the stored values at positions lo .. hi-1 whose row index is i. */
  function StoredSum(s: CscArray, i: nat, lo: nat, hi: nat): real
    requires lo <= hi <= |s.indices|
    decreases hi - lo
  {
    if lo == hi then 0.0
    else (if s.indices[lo] == i then s.data[lo] else 0.0) + StoredSum(s, i, lo + 1, hi)
  }

  /** The value at (i, j) that `toarray` writes: all stored values of column
      j in row i, added up (zero when nothing is stored there). */
  function Entry(s: CscArray, i: nat, j: nat): real
    requires j < s.ncols
  {
    StoredSum(s, i, s.indptr[j], s.indptr[j + 1])
  }

  /** `A.toarray()`: the dense two-dimensional array with the same shape and
      values. */
  function ToDense(s: CscArray): (d: NdArray)
    ensures d.Matrix? && |d.rows| == s.nrows && d.cols == s.ncols
    ensures forall i, j :: 0 <= i < s.nrows && 0 <= j < s.ncols ==> d.rows[i][j] == Entry(s, i, j)
  {
    Matrix(s.ncols, seq(s.nrows, i requires 0 <= i < s.nrows =>
                          seq(s.ncols, j requires 0 <= j < s.ncols => Entry(s, i, j))))
  }

  /** A Python argument as main.py's `isinstance` tests see it. */
  datatype Value =
    | Dense(a: NdArray)     // np.ndarray
    | Sparse(s: CscArray)   // scipy.sparse.csc_array
    | Other                 // anything else: a list, None, a sparse array in another layout, ...

  /** The dense array an accepted argument stands for (main.py:29-30). */
  function Densify(A: Value): (d: NdArray)
    requires !A.Other?
    ensures A.Dense? ==> d == A.a
    ensures A.Sparse? ==> d.Matrix? && |d.rows| == A.s.nrows && d.cols == A.s.ncols
    ensures A.Sparse? ==> forall i, j :: 0 <= i < A.s.nrows && 0 <= j < A.s.ncols ==>
                            d.rows[i][j] == Entry(A.s, i, j)
  {
    if A.Sparse? then ToDense(A.s) else A.a
  }

  lemma {:induction false} StoredSumAbsent(s: CscArray, i: nat, lo: nat, hi: nat)
    requires lo <= hi <= |s.indices|
    requires forall k :: lo <= k < hi ==> s.indices[k] != i
    ensures StoredSum(s, i, lo, hi) == 0.0
    decreases hi - lo
  {
    if lo < hi {
      StoredSumAbsent(s, i, lo + 1, hi);
    }
  }

  lemma {:induction false} StoredSumSingle(s: CscArray, i: nat, lo: nat, hi: nat, k: nat)
    requires lo <= k < hi <= |s.indices|
    requires s.indices[k] == i
    requires forall k' :: lo <= k' < hi && k' != k ==> s.indices[k'] != i
    ensures StoredSum(s, i, lo, hi) == s.data[k]
    decreases hi - lo
  {
    if lo == k {
      StoredSumAbsent(s, i, lo + 1, hi);
    } else {
      StoredSumSingle(s, i, lo + 1, hi, k);
    }
  }

  /** `toarray` places a value stored once in its column at its (row, column). */
  lemma ToDenseStoredEntry(s: CscArray, j: nat, k: nat)
    requires j < s.ncols
    requires s.indptr[j] <= k < s.indptr[j + 1]
    requires forall k' :: s.indptr[j] <= k' < s.indptr[j + 1] && k' != k ==> s.indices[k'] != s.indices[k]
    ensures ToDense(s).rows[s.indices[k]][j] == s.data[k]
  {
    assert s.indptr[j + 1] <= s.indptr[s.ncols];
    StoredSumSingle(s, s.indices[k], s.indptr[j], s.indptr[j + 1], k);
  }

  /** `toarray` fills every position with no stored value with zero. */
  lemma ToDenseUnstoredIsZero(s: CscArray, i: nat, j: nat)
    requires i < s.nrows && j < s.ncols
    requires forall k :: s.indptr[j] <= k < s.indptr[j + 1] ==> s.indices[k] != i
    ensures ToDense(s).rows[i][j] == 0.0
  {
    assert s.indptr[j + 1] <= s.indptr[s.ncols];
    StoredSumAbsent(s, i, s.indptr[j], s.indptr[j + 1]);
  }

  /** A dense matrix holding the same values as a CSC array is its `toarray`. */
  lemma ToDenseUnique(s: CscArray, d: NdArray)
    requires d.Matrix? && |d.rows| == s.nrows && d.cols == s.ncols
    requires forall i, j :: 0 <= i < s.nrows && 0 <= j < s.ncols ==> d.rows[i][j] == Entry(s, i, j)
    ensures ToDense(s) == d
  {
    var t := ToDense(s);
    forall i | 0 <= i < s.nrows
      ensures t.rows[i] == d.rows[i]
    {
      assert |t.rows[i]| == |d.rows[i]| == s.ncols;
    }
    assert t.rows == d.rows;
  }
}
