/** `residual_norm(A, x, b)` of main.py: the Euclidean norm of `A·x − b` for a
    dense matrix A of shape (m, n) and dense vectors x of length n and b of
    length m, `None` for anything else. The norm is represented by its square
    (see README). */
module ResidualNorm {

  import opened Wrappers
  import opened Vectors
  import opened NumArrays

  /** `A @ x`: entry i is row i of A times x. */
  function MatVec(m: seq<seq<real>>, x: seq<real>): (r: seq<real>)
    requires forall i :: 0 <= i < |m| ==> |m[i]| == |x|
    ensures |r| == |m|
    ensures forall i :: 0 <= i < |m| ==> r[i] == Dot(m[i], x)
  {
    seq(|m|, i requires 0 <= i < |m| => Dot(m[i], x))
  }

  /** The argument checks of main.py:61-67 all pass: three dense arrays, A
      two-dimensional with shape (m, n), x of length n and b of length m. */
  predicate Conformable(A: Value, x: Value, b: Value)
    ensures Conformable(A, x, b) ==>
              && A.Dense? && x.Dense? && b.Dense?
              && A.a.Matrix? && x.a.Vector? && b.a.Vector?
              && (forall i :: 0 <= i < |A.a.rows| ==> |A.a.rows[i]| == |x.a.v|)
              && |MatVec(A.a.rows, x.a.v)| == |b.a.v|
  {
    && A.Dense? && x.Dense? && b.Dense?
    && A.a.Matrix? && x.a.Vector? && b.a.Vector?
    && |x.a.v| == A.a.cols
    && |b.a.v| == |A.a.rows|
  }

  /** main.py:46-70, squared: `None` unless the arguments are conformable;
      otherwise ‖A·x − b‖², which is never negative and is zero exactly when
      x solves A·x = b. */
  function ResidualNormSquared(A: Value, x: Value, b: Value): (r: Option<real>)
    ensures r.Some? <==> Conformable(A, x, b)
    ensures r.Some? ==> r.value >= 0.0
    ensures r.Some? ==> (r.value == 0.0 <==> MatVec(A.a.rows, x.a.v) == b.a.v)
  {
    if !A.Dense? || !x.Dense? || !b.Dense? then None
    else if A.a.Ndim() != 2 || x.a.Ndim() != 1 || b.a.Ndim() != 1 then None
    else
      var m, n := |A.a.rows|, A.a.cols;
      if |x.a.v| != n || |b.a.v| != m then None
      else
        var residual := Sub(MatVec(A.a.rows, x.a.v), b.a.v);
        SumOfSquaresZero(residual);
        Some(SumOfSquares(residual))
  }

  /** `Σ_i (Σ_j m[i][j]·x[j] − b[i])²`, added up row by row from the first:
      the squared residual written out directly. */
  function SquaredError(m: seq<seq<real>>, x: seq<real>, b: seq<real>): (r: real)
    requires forall i :: 0 <= i < |m| ==> |m[i]| == |x|
    requires |b| == |m|
    ensures r >= 0.0
  {
    if |m| == 0 then 0.0
    else
      SquareSign(Dot(m[0], x) - b[0]);
      Square(Dot(m[0], x) - b[0]) + SquaredError(m[1..], x, b[1..])
  }

  lemma {:induction false} SumOfSquaresFirst(v: seq<real>)
    requires |v| > 0
    ensures SumOfSquares(v) == Square(v[0]) + SumOfSquares(v[1..])
  {
    if |v| > 1 {
      var front := v[..|v| - 1];
      SumOfSquaresFirst(front);
      assert front[1..] == v[1..][..|v[1..]| - 1];
    } else {
      assert v[..0] == [] && v[1..] == [];
    }
  }

  /** A valid call computes exactly the written-out squared residual. */
  lemma {:induction false} ResidualIsSquaredError(m: seq<seq<real>>, x: seq<real>, b: seq<real>)
    requires forall i :: 0 <= i < |m| ==> |m[i]| == |x|
    requires |b| == |m|
    ensures SumOfSquares(Sub(MatVec(m, x), b)) == SquaredError(m, x, b)
  {
    if |m| > 0 {
      var r := Sub(MatVec(m, x), b);
      SumOfSquaresFirst(r);
      ResidualIsSquaredError(m[1..], x, b[1..]);
      assert r[1..] == Sub(MatVec(m[1..], x), b[1..]);
    }
  }
}

/** Properties of `residual_norm` stated over all inputs and on the examples
    its documentation gives. */
module ResidualNormProperties {

  import opened Wrappers
  import opened Vectors
  import opened NumArrays
  import opened ResidualNorm

  /** On valid arguments the result is ‖A·x − b‖² as the formula writes it. */
  lemma ValidResultIsSquaredError(A: Value, x: Value, b: Value)
    requires Conformable(A, x, b)
    ensures ResidualNormSquared(A, x, b) == Some(SquaredError(A.a.rows, x.a.v, b.a.v))
  {
    ResidualIsSquaredError(A.a.rows, x.a.v, b.a.v);
  }

  /** Any argument that is not a dense array, a CSC array included, makes
      the result `None` (main.py:61-62). */
  lemma NonDenseArgumentIsInvalid(A: Value, x: Value, b: Value)
    requires !A.Dense? || !x.Dense? || !b.Dense?
    ensures ResidualNormSquared(A, x, b) == None
  {
  }

  /** Wrong numbers of dimensions make the result `None` (main.py:63-64). */
  lemma WrongDimensionsAreInvalid(A: NdArray, x: NdArray, b: NdArray)
    requires A.Ndim() != 2 || x.Ndim() != 1 || b.Ndim() != 1
    ensures ResidualNormSquared(Dense(A), Dense(x), Dense(b)) == None
  {
  }

  /** Lengths that do not match A's shape make the result `None`
      (main.py:65-67). */
  lemma MismatchedLengthsAreInvalid(cols: nat, rows: seq<seq<real>>, x: seq<real>, b: seq<real>)
    requires forall i :: 0 <= i < |rows| ==> |rows[i]| == cols
    requires |x| != cols || |b| != |rows|
    ensures ResidualNormSquared(Dense(Matrix(cols, rows)), Dense(Vector(x)), Dense(Vector(b))) == None
  {
  }

  /** An exact solution has residual norm zero, and only an exact solution. */
  lemma ZeroExactlyForSolutions(A: Value, x: Value, b: Value)
    requires Conformable(A, x, b)
    ensures ResidualNormSquared(A, x, b) == Some(0.0)
            <==> forall i :: 0 <= i < |b.a.v| ==> Dot(A.a.rows[i], x.a.v) == b.a.v[i]
  {
  }

  /** A of shape (2, 3) with x of length 2 is rejected. */
  lemma ShapeMismatchExample()
    ensures ResidualNormSquared(Dense(Matrix(3, [[1.0, 2.0, 3.0], [4.0, 5.0, 6.0]])),
                                Dense(Vector([1.0, 1.0])), Dense(Vector([1.0, 1.0]))) == None
  {
  }

  /** A = 2·I, x = [1, 1], b = [2, 2]: x solves the system, the norm is 0. */
  lemma ExactSolutionExample()
    ensures ResidualNormSquared(Dense(Matrix(2, [[2.0, 0.0], [0.0, 2.0]])),
                                Dense(Vector([1.0, 1.0])), Dense(Vector([2.0, 2.0]))) == Some(0.0)
  {
    var m := [[2.0, 0.0], [0.0, 2.0]];
    var x := [1.0, 1.0];
    DotTwo(m[0], x);
    DotTwo(m[1], x);
    assert MatVec(m, x) == [2.0, 2.0];
  }

  /** A = I, x = [0, 0], b = [3, 4]: the residual is [-3, -4], of norm 5,
      that is of squared norm 25. */
  lemma ThreeFourFiveExample()
    ensures ResidualNormSquared(Dense(Matrix(2, [[1.0, 0.0], [0.0, 1.0]])),
                                Dense(Vector([0.0, 0.0])), Dense(Vector([3.0, 4.0]))) == Some(25.0)
  {
    var m := [[1.0, 0.0], [0.0, 1.0]];
    var x := [0.0, 0.0];
    DotTwo(m[0], x);
    DotTwo(m[1], x);
    var r := Sub(MatVec(m, x), [3.0, 4.0]);
    assert r == [-3.0, -4.0];
    assert r[..1] == [-3.0] && r[..1][..0] == [];
    assert Square(-3.0) == 9.0 && Square(-4.0) == 16.0;
    assert SumOfSquares(r[..1]) == 9.0;
  }

  lemma DotTwo(u: seq<real>, v: seq<real>)
    requires |u| == 2 && |v| == 2
    ensures Dot(u, v) == u[0] * v[0] + u[1] * v[1]
  {
    var u1, v1 := u[..1], v[..1];
    assert u1[..0] == [] && v1[..0] == [];
    assert u1[0] == u[0] && v1[0] == v[0];
    assert Dot(u1, v1) == u[0] * v[0];
  }
}
