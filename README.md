# Diagonal dominance and residual norm, modelled in Dafny

`main.py` provides two stateless checks used when validating iterative
linear solvers:

- `is_diagonally_dominant(A)` accepts a dense `numpy.ndarray` or a
  `scipy.sparse.csc_array`, converts a sparse argument to dense, rejects
  anything that is not a square two-dimensional array with `None`, and
  otherwise answers whether every row satisfies
  `|a_ii| > Σ_j |a_ij| − |a_ii|` (strict row diagonal dominance).
- `residual_norm(A, x, b)` accepts three dense arrays, `A` of shape (m, n),
  `x` of length n and `b` of length m, and returns the Euclidean norm of the
  residual `A·x − b`; any other argument gives `None`.

The model is pure, like the source: datatypes for the arguments, functions
for the two entry points, and lemmas for what they promise.

- `wrappers.dfy` (`Wrappers`): `Option`, where `None` is the source's invalid
  marker.
- `vectors.dfy` (`Vectors`): exact-real versions of `np.abs`, `np.sum`,
  element-wise subtraction, inner product and the squared norm.
- `numarrays.dfy` (`NumArrays`): a Python argument is `Dense(a)` (an
  `ndarray`, classified by `ndim` as `Scalar`, `Vector`, `Matrix(cols, rows)`
  or `Higher(shape)`), `Sparse(s)` (a CSC array given by `indptr`, `indices`,
  `data` and its shape) or `Other` (anything else, including sparse arrays
  in other layouts and the older `csc_matrix` class, which is not a
  `csc_array`). `ToDense` is `toarray`: it sums the stored values of each
  (row, column) and fills the rest with zero. Subset types keep every array
  rectangular, as numpy's are. A matrix carries its column count, so the
  shape (0, n) exists and is not square unless n = 0.
- `diagonal_dominance.dfy` (`DiagonalDominance`,
  `DiagonalDominanceProperties`): `IsDiagonallyDominant` follows the source
  step by step. It rejects `Other`, densifies, checks `ndim` and the shape,
  and then evaluates `all(diag > row_sums - diag)` on `|A|` as whole-vector
  operations. `DominanceTestCorrect` proves that this computation decides the
  textbook definition, which uses the off-diagonal sum `Σ_{j≠i} |a_ij|`
  defined on its own, without subtraction.
- `residual_norm.dfy` (`ResidualNorm`, `ResidualNormProperties`):
  `ResidualNormSquared` follows the source's three validation steps and
  computes `‖A·x − b‖²`. The properties are stated on the squared norm:
  it is never negative, and it is zero exactly when `A·x = b`.

Inputs are never modified: every value in the model is immutable. This
matches the source, where the sparse conversion only rebinds the local name
(main.py:30) and `abs_A` is a fresh array (main.py:35).

The 0×0 matrix is dominant (`Some(true)`), as in the code, where `np.all`
over no rows is true.

## Model

| member | source | states |
|---|---|---|
| `DiagonalDominance.IsDiagonallyDominant` | main.py:14-41 | `None` for an argument that is neither dense nor CSC; otherwise a result exactly when the dense form is a square 2-D array, and then `true` iff every row has `abs(a_ii) > Σ_{j≠i} abs(a_ij)` |
| `DiagonalDominance.DominanceTestCorrect` | main.py:35-41 | the whole-array test `all(diag > row_sums - diag)` on `abs(A)` holds iff every row is strictly dominated by its diagonal entry |
| `DiagonalDominance.RowAbsSumSplits` | main.py:37-39 | a row's sum of absolute values is its diagonal part plus its off-diagonal part, so `row_sums - diag` is the off-diagonal sum |
| `DiagonalDominance.OffDiagonalAbsSum` | main.py:39 | the off-diagonal sum of absolute values is never negative |
| `NumArrays.ToDenseStoredEntry` | main.py:30 | `toarray` puts a value stored once in its column at that (row, column) |
| `NumArrays.ToDenseUnstoredIsZero` | main.py:30 | `toarray` puts zero wherever nothing is stored |
| `NumArrays.ToDenseUnique` | main.py:30 | a dense matrix with the same shape and entries as a CSC array is its `toarray` |
| `DiagonalDominanceProperties.SparseAgreesWithDense` | main.py:29-30 | a CSC array and a dense matrix holding the same values give the same answer |
| `DiagonalDominanceProperties.NotTwoDimensionalIsInvalid` | main.py:32-33 | a dense array whose `ndim` is not 2 gives `None` |
| `DiagonalDominanceProperties.NonSquareIsInvalid` | main.py:32-33 | a dense or sparse matrix with `rows != cols` gives `None` |
| `DiagonalDominanceProperties.EmptyMatrices` | main.py:41 | the 0×0 matrix, dense or sparse, gives `true`; shape (0, n) with n > 0 gives `None` |
| `DiagonalDominanceProperties.DominantDiagonalIsNonzero` | main.py:35-41 | a matrix found dominant has no zero on its diagonal |
| `DiagonalDominanceProperties.OneByOne` | main.py:35-41 | `[[x]]` is dominant iff `x != 0` |
| `DiagonalDominanceProperties.TwoByTwoExamples` | main.py:35-41 | `[[4,1],[1,3]]` gives `true`, `[[1,2],[1,1]]` gives `false` |
| `ResidualNorm.ResidualNormSquared` | main.py:46-70 | a result exactly when all three arguments are dense, `A` is 2-D, `x` and `b` are 1-D, `len(x) == n` and `len(b) == m`; the result is never negative and is zero iff `A·x == b` |
| `ResidualNorm.ResidualIsSquaredError` | main.py:68 | the squared norm of `A·x − b` equals `Σ_i (Σ_j a_ij·x_j − b_i)²` written out row by row |
| `ResidualNormProperties.ValidResultIsSquaredError` | main.py:65-68 | on valid arguments the result is `Σ_i (Σ_j a_ij·x_j − b_i)²` |
| `ResidualNormProperties.NonDenseArgumentIsInvalid` | main.py:61-62 | any argument that is not a dense array, a CSC array included, gives `None` |
| `ResidualNormProperties.WrongDimensionsAreInvalid` | main.py:63-64 | `A.ndim != 2`, `x.ndim != 1` or `b.ndim != 1` gives `None` |
| `ResidualNormProperties.MismatchedLengthsAreInvalid` | main.py:65-67 | `len(x) != n` or `len(b) != m` for `A` of shape (m, n) gives `None` |
| `ResidualNormProperties.ZeroExactlyForSolutions` | main.py:68 | on valid arguments the norm is zero iff every row satisfies `a_i·x == b_i` |
| `ResidualNormProperties.ShapeMismatchExample` | main.py:65-67 | `A` of shape (2, 3) with `x` of length 2 gives `None` |
| `ResidualNormProperties.ExactSolutionExample` | main.py:68 | `A = 2I`, `x = [1, 1]`, `b = [2, 2]` gives 0 |
| `ResidualNormProperties.ThreeFourFiveExample` | main.py:68 | `A = I`, `x = [0, 0]`, `b = [3, 4]` gives squared norm 25, that is norm 5 |
| `NumArrays.ToDense` | main.py:30 | `toarray` gives a 2-D array of the CSC array's shape whose (i, j) entry is the sum of the values stored at row i in column j, zero where none is stored |
| `NumArrays.Densify` | main.py:29-30 | a dense argument is used as it is; a CSC argument is replaced by its `toarray`: a 2-D array of the same shape whose (i, j) entry is the sum of the values stored at row i in column j |
| `DiagonalDominance.DominanceTest` | main.py:35-41 | `np.all(diag > row_sums - diag)` on `abs(A)` is true on the 0×0 matrix (`np.all` over no rows); `DominanceTestCorrect` proves it decides strict row dominance |
| `ResidualNorm.MatVec` | main.py:68 | `A @ x` has one entry per row of `A`, and entry i is the inner product of row i with `x` |
| `ResidualNorm.Conformable` | main.py:61-67 | when all of main.py's checks pass, the arguments are dense, `A` is 2-D, `x` and `b` are 1-D, every row of `A` has the length of `x`, and `A @ x` has the length of `b` |
| `Vectors.SumOfSquares` | main.py:68 | the squared Euclidean norm is never negative |
| `Vectors.SumOfSquaresZero` | main.py:68 | the squared Euclidean norm is zero exactly for the zero vector |

## Left out

- ResidualNormSquared: returns ‖A·x − b‖², not its square root, which is left out. The properties are stated on the square. They carry over to the norm because the square root is monotone and is zero only at zero.
- Floating point: the model uses exact reals. It does not model rounding in `row_sums - diag` (main.py:39) or in `np.linalg.norm` (main.py:68), nor NaN and infinity. This is also why the source's tests compare norms only approximately.
- Element types: only real-valued arrays are modelled. Integer arrays behave like real ones, up to overflow. Complex, boolean and object arrays are not covered.
- The catch-all `except Exception` (main.py:69-70): the validation is complete, and exact arithmetic cannot fail, so no exception path remains. Arrays whose elements make numpy raise, such as object arrays, are not modelled.
- The second `return` (main.py:71) is unreachable and is not modelled.
- `ndarray` subclasses that override reductions, such as `np.matrix` and masked arrays, are not modelled. For `np.matrix`, `np.sum(abs_A, axis=1)` (main.py:38) keeps the shape (n, 1) while `np.diagonal` (main.py:37) is 1-D. `row_sums - diag` (main.py:39) then broadcasts to an n×n array, so main.py:41 tests `2·abs(a_jj) > rowsum_i` for every pair i, j. For example, `np.matrix([[10, 0], [0, 1]])` gives `False` in the source, whereas the model treats every argument as a plain `ndarray` and answers `true` for that matrix.
- Arrays of three or more dimensions carry only their shape. Both functions reject them before reading any element.
- Only the parts of scipy's CSC format that `toarray` reads are modelled: shape, `indptr`, `indices` and `data`. The sorted-indices and canonical-format flags and the index and value dtypes are not.
- The test harness, test_main.py, loads fixtures from a pickle file and runs them. It is I/O and is not modelled.
