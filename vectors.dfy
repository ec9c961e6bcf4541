/** Element-wise and reducing operations on real vectors: the exact-arithmetic
    counterparts of the numpy operations main.py applies to whole arrays. */
module Vectors {

  /** `np.abs` on one element. */
  function Abs(x: real): (r: real)
    ensures r >= 0.0
    ensures r == x || r == -x
  {
    if x < 0.0 then -x else x
  }

  /** `np.abs` on a vector. */
  function AbsAll(v: seq<real>): (r: seq<real>)
    ensures |r| == |v|
    ensures forall i :: 0 <= i < |v| ==> r[i] == Abs(v[i])
  {
    seq(|v|, i requires 0 <= i < |v| => Abs(v[i]))
  }

  /** `np.sum` of a vector, added up from the first entry to the last. */
  function Sum(v: seq<real>): real
  {
    if |v| == 0 then 0.0 else Sum(v[..|v| - 1]) + v[|v| - 1]
  }

  /** Element-wise difference `u - v` of two vectors of equal length. */
  function Sub(u: seq<real>, v: seq<real>): (r: seq<real>)
    requires |u| == |v|
    ensures |r| == |u|
    ensures forall i :: 0 <= i < |r| ==> r[i] == u[i] - v[i]
  {
    seq(|u|, i requires 0 <= i < |u| => u[i] - v[i])
  }

  /** Inner product, one row of the matrix-vector product `A @ x`. */
  function Dot(u: seq<real>, v: seq<real>): real
    requires |u| == |v|
  {
    if |u| == 0 then 0.0 else Dot(u[..|u| - 1], v[..|v| - 1]) + u[|u| - 1] * v[|v| - 1]
  }

  /** A product of two reals. Squares are taken through it, so that their
      sign follows from the two lemmas below instead of from non-linear
      reasoning inside every proof that mentions a square. */
  function Mul(a: real, b: real): real
  {
    a * b
  }

  lemma MulPositive(a: real, b: real)
    requires a > 0.0 && b > 0.0
    ensures Mul(a, b) > 0.0
  {
  }

  lemma MulNegative(a: real, b: real)
    requires a < 0.0 && b < 0.0
    ensures Mul(a, b) > 0.0
  {
  }

  function Square(x: real): real
  {
    Mul(x, x)
  }

  /** A square is never negative, and zero only for zero. */
  lemma SquareSign(x: real)
    ensures Square(x) >= 0.0
    ensures Square(x) == 0.0 <==> x == 0.0
  {
    if x > 0.0 {
      MulPositive(x, x);
    } else if x < 0.0 {
      MulNegative(x, x);
    }
  }

  /** The squared Euclidean norm `Σ v[i]²`; never negative. */
  function SumOfSquares(v: seq<real>): (r: real)
    ensures r >= 0.0
  {
    if |v| == 0 then 0.0
    else
      SquareSign(v[|v| - 1]);
      SumOfSquares(v[..|v| - 1]) + Square(v[|v| - 1])
  }

  /** The squared norm is zero exactly for the zero vector. */
  lemma {:induction false} SumOfSquaresZero(v: seq<real>)
    ensures SumOfSquares(v) == 0.0 <==> forall i :: 0 <= i < |v| ==> v[i] == 0.0
  {
    if |v| > 0 {
      var front := v[..|v| - 1];
      SumOfSquaresZero(front);
      SquareSign(v[|v| - 1]);
      assert forall i :: 0 <= i < |front| ==> front[i] == v[i];
    }
  }
}
