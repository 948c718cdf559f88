/** Real-number helpers shared by the sizing engine: `Math.min`/`Math.max`, sums and minima of series. */
module Numeric {

  function Min(a: real, b: real): (r: real)
    ensures r <= a && r <= b
    ensures r == a || r == b
  {
    if a <= b then a else b
  }

  function Max(a: real, b: real): (r: real)
    ensures r >= a && r >= b
    ensures r == a || r == b
  {
    if a >= b then a else b
  }

  function Abs(a: real): (r: real)
    ensures r >= 0.0
    ensures r == a || r == -a
  {
    if a >= 0.0 then a else -a
  }

  lemma MulNonNegative(a: real, b: real)
    requires a >= 0.0 && b >= 0.0
    ensures a * b >= 0.0
  {
  }

  lemma MulMonotone(a: real, b: real, c: real)
    requires a <= b && c >= 0.0
    ensures a * c <= b * c
  {
    MulNonNegative(b - a, c);
  }

  /** Truncation toward zero, as Python's `int()` of a float. */
  function Trunc(x: real): (r: int)
    ensures x >= 0.0 ==> r as real <= x < r as real + 1.0
    ensures x < 0.0 ==> r as real - 1.0 < x <= r as real
  {
    if x >= 0.0 then x.Floor else -((-x).Floor)
  }

  /** Smallest integer not below `x`, as Python's `math.ceil`. */
  function Ceil(x: real): (r: int)
    ensures r as real - 1.0 < x <= r as real
  {
    -((-x).Floor)
  }

  /** `reduce((sum, e) => sum + e, 0)` / `np.sum`: the sum of a series, added from the front. */
  function Sum(s: seq<real>): real
  {
    if s == [] then 0.0 else Sum(s[..|s| - 1]) + s[|s| - 1]
  }

  lemma {:induction false} SumNonNegative(s: seq<real>)
    requires forall t :: 0 <= t < |s| ==> s[t] >= 0.0
    ensures Sum(s) >= 0.0
  {
    if s != [] {
      SumNonNegative(s[..|s| - 1]);
    }
  }

  /** `Math.min(...s)` / `np.min(s)` of a non-empty series: attained, and below every element. */
  function MinOf(s: seq<real>): (m: real)
    requires |s| > 0
    ensures exists t :: 0 <= t < |s| && s[t] == m
    ensures forall t :: 0 <= t < |s| ==> m <= s[t]
  {
    if |s| == 1 then s[0] else Min(s[0], MinOf(s[1..]))
  }

  /** The minimum is below a threshold exactly when some element is. */
  lemma MinOfBelow(s: seq<real>, threshold: real)
    requires |s| > 0
    ensures MinOf(s) < threshold <==> exists t :: 0 <= t < |s| && s[t] < threshold
  {
  }
}
