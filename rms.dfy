/** `_calculate_rms`: the root of the mean of the squared samples. Arithmetic
    is exact (`real`); `math.sqrt` is a parameter, and what is proved about the
    result holds whenever that parameter is a square root. */
module Rms {
  import opened Results
  import opened Common

  /** `sum([value ** 2 for value in values])` */
  function SumOfSquares(values: seq<real>): (s: real)
    ensures 0.0 <= s
  {
    if values == [] then 0.0 else values[0] * values[0] + SumOfSquares(values[1..])
  }

  /** `square_sum / len(values)` */
  function MeanSquare(values: seq<real>): (m: real)
    requires values != []
    ensures 0.0 <= m
    ensures m * |values| as real == SumOfSquares(values)
  {
    SumOfSquares(values) / |values| as real
  }

  /** `sqrt` answers every non-negative number with its non-negative root. */
  ghost predicate IsSquareRoot(sqrt: real -> real)
  {
    forall x: real :: 0.0 <= x ==> 0.0 <= sqrt(x) && sqrt(x) * sqrt(x) == x
  }

  /** The RMS of the samples; no samples divides by zero, raised as is. */
  function CalculateRms(values: seq<real>, sqrt: real -> real): (r: Result<real, Error>)
    ensures r.Failure? <==> values == []
    ensures r.Failure? ==> r.error == ZeroDivisionError
    ensures IsSquareRoot(sqrt) && r.Success? ==>
      0.0 <= r.value && r.value * r.value == MeanSquare(values)
  {
    if values == [] then Failure(ZeroDivisionError) else Success(sqrt(MeanSquare(values)))
  }

  /** A lemma of its own so that `RootUnique` stays small for the solver. */
  lemma ZeroProduct(x: real, y: real)
    requires x * y == 0.0
    ensures x == 0.0 || y == 0.0
  {
  }

  /** A lemma of its own so that `SquareMonotone` stays small for the solver. */
  lemma PositiveProduct(x: real, y: real)
    requires 0.0 < x && 0.0 < y
    ensures 0.0 < x * y
  {
  }

  lemma SquareMonotone(a: real, b: real)
    requires 0.0 <= a && 0.0 <= b && a * a <= b * b
    ensures a <= b
  {
    if a > b {
      assert (a - b) * (a + b) == a * a - b * b;
      PositiveProduct(a - b, a + b);
    }
  }

  /** A non-negative root is unique. */
  lemma RootUnique(r: real, m: real)
    requires 0.0 <= r && 0.0 <= m && r * r == m * m
    ensures r == m
  {
    assert (r - m) * (r + m) == r * r - m * m;
    ZeroProduct(r - m, r + m);
  }

  /** A lemma of its own so that `RmsOfConstant` and `RmsBoundedByPeak` stay
      small for the solver. */
  lemma DivideOut(n: real, q: real)
    requires 0.0 < n
    ensures n * q / n == q
  {
    assert (n * q / n) * n == n * q;
  }

  lemma {:induction false} SumOfSquaresConstant(values: seq<real>, c: real)
    requires forall i :: 0 <= i < |values| ==> values[i] == c
    ensures SumOfSquares(values) == |values| as real * (c * c)
  {
    if values != [] {
      SumOfSquaresConstant(values[1..], c);
    }
  }

  /** A constant burst of `c` has RMS `|c|`. */
  lemma RmsOfConstant(values: seq<real>, c: real, sqrt: real -> real)
    requires IsSquareRoot(sqrt)
    requires values != []
    requires forall i :: 0 <= i < |values| ==> values[i] == c
    ensures CalculateRms(values, sqrt) == Success(if c < 0.0 then -c else c)
  {
    SumOfSquaresConstant(values, c);
    var n := |values| as real;
    DivideOut(n, c * c);
    var a := if c < 0.0 then -c else c;
    var r := CalculateRms(values, sqrt).value;
    assert SumOfSquares(values) == n * (c * c);
    assert MeanSquare(values) == n * (c * c) / n == c * c;
    assert a * a == c * c;
    RootUnique(r, a);
  }

  lemma {:induction false} SumOfSquaresBounded(values: seq<real>, peak: real)
    requires 0.0 <= peak
    requires forall i :: 0 <= i < |values| ==> -peak <= values[i] <= peak
    ensures SumOfSquares(values) <= |values| as real * (peak * peak)
  {
    if values != [] {
      var v := values[0];
      assert (peak - v) * (peak + v) >= 0.0;
      assert v * v <= peak * peak;
      SumOfSquaresBounded(values[1..], peak);
    }
  }

  /** The RMS of a burst never exceeds its peak magnitude. */
  lemma RmsBoundedByPeak(values: seq<real>, peak: real, sqrt: real -> real)
    requires IsSquareRoot(sqrt)
    requires values != [] && 0.0 <= peak
    requires forall i :: 0 <= i < |values| ==> -peak <= values[i] <= peak
    ensures CalculateRms(values, sqrt).Success?
    ensures CalculateRms(values, sqrt).value <= peak
  {
    SumOfSquaresBounded(values, peak);
    var n := |values| as real;
    var r := CalculateRms(values, sqrt).value;
    DivideOut(n, peak * peak);
    assert SumOfSquares(values) / n <= n * (peak * peak) / n;
    assert MeanSquare(values) == SumOfSquares(values) / n <= peak * peak;
    SquareMonotone(r, peak);
  }
}
