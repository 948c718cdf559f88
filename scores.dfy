/**
 * Objective values handled by the optimizer. The penalized cost is a finite real or
 * positive infinity; comparisons follow the host languages' `<` on numbers, where
 * `Infinity < Infinity` is false and `Infinity - Infinity` is not a number.
 */
module Scores {
  import opened Numeric

  datatype Score = Fin(value: real) | Inf

  /**
   * `a < b` on numbers that may be `Infinity`: infinity is below nothing, every finite
   * score is below infinity, and finite scores compare as reals.
   */
  function Below(a: Score, b: Score): (r: bool)
    ensures a.Inf? ==> !r
    ensures a.Fin? && b.Inf? ==> r
    ensures a.Fin? && b.Fin? ==> (r <==> a.value < b.value)
  {
    match (a, b)
    case (Fin(x), Fin(y)) => x < y
    case (Fin(_), Inf) => true
    case (Inf, _) => false
  }

  lemma BelowIsStrictTotalOrder(a: Score, b: Score, c: Score)
    ensures !Below(a, a)
    ensures Below(a, b) ==> !Below(b, a)
    ensures Below(a, b) && Below(b, c) ==> Below(a, c)
    ensures a == b || Below(a, b) || Below(b, a)
  {
  }

  /** `Math.min(...scores)` / Python's `min(scores)`. */
  function Smallest(s: seq<Score>): (m: Score)
    requires |s| > 0
    ensures m in s
    ensures forall k :: 0 <= k < |s| ==> !Below(s[k], m)
  {
    if |s| == 1 then s[0]
    else
      var rest := Smallest(s[1..]);
      if Below(s[0], rest) then s[0] else rest
  }

  /** `Math.max(...scores)` / Python's `max(scores)`. */
  function Largest(s: seq<Score>): (m: Score)
    requires |s| > 0
    ensures m in s
    ensures forall k :: 0 <= k < |s| ==> !Below(m, s[k])
  {
    if |s| == 1 then s[0]
    else
      var rest := Largest(s[1..]);
      if Below(rest, s[0]) then s[0] else rest
  }

  /** `scores.indexOf(x)` / `scores.index(x)` for a value that occurs: its first position. */
  function FirstIndexOf(s: seq<Score>, x: Score): (k: nat)
    requires x in s
    ensures k < |s| && s[k] == x
    ensures forall j :: 0 <= j < k ==> s[j] != x
  {
    if s[0] == x then 0 else 1 + FirstIndexOf(s[1..], x)
  }

  /** Every score is finite and any two differ by less than `tol`. */
  ghost predicate WithinTolerance(scores: seq<Score>, tol: real)
  {
    && (forall k :: 0 <= k < |scores| ==> scores[k].Fin?)
    && (forall i, j :: 0 <= i < |scores| && 0 <= j < |scores| ==> Abs(scores[i].value - scores[j].value) < tol)
  }

  /**
   * The early-stopping test `abs(max(scores) - min(scores)) < tol`. With an infinite
   * score the difference is `Infinity` or `NaN`, and neither compares below `tol`; with
   * finite scores the extremes differ by less than `tol` exactly when any two scores do.
   */
  function Converged(scores: seq<Score>, tol: real): (r: bool)
    requires |scores| > 0
    ensures r <==> WithinTolerance(scores, tol)
  {
    var worst, best := Largest(scores), Smallest(scores);
    assert WithinTolerance(scores, tol) ==> worst.Fin? && best.Fin? && Abs(worst.value - best.value) < tol by {
      if WithinTolerance(scores, tol) {
        var i :| 0 <= i < |scores| && scores[i] == worst;
        var j :| 0 <= j < |scores| && scores[j] == best;
        assert Abs(scores[i].value - scores[j].value) < tol;
      }
    }
    assert worst.Fin? && best.Fin? && Abs(worst.value - best.value) < tol ==> WithinTolerance(scores, tol) by {
      if worst.Fin? && best.Fin? && Abs(worst.value - best.value) < tol {
        forall k | 0 <= k < |scores|
          ensures scores[k].Fin? && best.value <= scores[k].value <= worst.value
        {
          assert !Below(worst, scores[k]) && !Below(scores[k], best);
        }
      }
    }
    match (worst, best)
    case (Fin(w), Fin(b)) => Abs(w - b) < tol
    case _ => false
  }

  /** A population that still holds an infinite score never stops early. */
  lemma InfiniteScoreNeverConverges(scores: seq<Score>, tol: real)
    requires Inf in scores
    ensures !Converged(scores, tol)
  {
    var k :| 0 <= k < |scores| && scores[k] == Inf;
    assert !Below(Largest(scores), scores[k]);
  }
}
