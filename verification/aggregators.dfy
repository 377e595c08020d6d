/** Reductions of a slice of the weight vector to one value: the sum and the
    maximum numpy computes, the clamped sum (eq. 12 of Henzgen and
    Hüllermeier) and the maximum (eq. 11), and the closed choice between the
    two that the correlation engine is parameterised by.
 */
module Aggregators {
  import opened Results

  /** The two interval aggregators of the engine. */
  datatype Aggregator = Max | ClampedSum

  predicate NonNegative(s: seq<real>) {
    forall k :: 0 <= k < |s| ==> 0.0 <= s[k]
  }

  predicate InUnit(s: seq<real>) {
    forall k :: 0 <= k < |s| ==> 0.0 <= s[k] <= 1.0
  }

  /** Sum of a slice (numpy's `sum`, exact here). */
  function Sum(s: seq<real>): real
  {
    if |s| == 0 then 0.0 else Sum(s[..|s| - 1]) + s[|s| - 1]
  }

  /** Largest element of a non-empty slice (Python's `max`). */
  function SeqMax(s: seq<real>): (m: real)
    requires |s| > 0
    ensures m in s
    ensures forall k :: 0 <= k < |s| ==> s[k] <= m
  {
    if |s| == 1 then s[0]
    else
      var front := s[..|s| - 1];
      var m0 := SeqMax(front);
      assert forall k :: 0 <= k < |front| ==> front[k] == s[k];
      if m0 >= s[|s| - 1] then m0 else s[|s| - 1]
  }

  /** `agg_clamped_sum` and `weight_agg_clamped_sum`: the slice's sum, capped at 1. */
  function AggClampedSum(s: seq<real>): (r: real)
    ensures r <= 1.0
    ensures Sum(s) <= 1.0 ==> r == Sum(s)
    ensures 1.0 <= Sum(s) ==> r == 1.0
    ensures NonNegative(s) ==> 0.0 <= r
  {
    SumNonNegative(s);
    if Sum(s) <= 1.0 then Sum(s) else 1.0
  }

  /** `agg_max`: numpy's `max` without an initial value, which fails on an empty slice. */
  function AggMax(s: seq<real>): (r: Result<real>)
    ensures r.Failure? <==> |s| == 0
    ensures r.Failure? ==> r.error == EmptyMax
    ensures r.Success? ==> r.value in s && forall k :: 0 <= k < |s| ==> s[k] <= r.value
  {
    if |s| == 0 then Failure(EmptyMax) else Success(SeqMax(s))
  }

  /** `weight_agg_max`: numpy's `max(initial=0)`, the maximum of the slice and 0. */
  function WeightAggMax(s: seq<real>): (r: real)
    ensures 0.0 <= r
    ensures forall k :: 0 <= k < |s| ==> s[k] <= r
    ensures r == 0.0 || r in s
    ensures |s| == 0 ==> r == 0.0
  {
    if |s| == 0 then 0.0
    else
      var m := SeqMax(s);
      if m >= 0.0 then m else 0.0
  }

  /** The aggregator the engine applies to the weights between two ranks.
      The maximum is only ever taken over a non-empty interval. */
  function Aggregate(agg: Aggregator, s: seq<real>): (r: real)
    requires agg == ClampedSum || |s| > 0
    ensures agg == Max ==> AggMax(s) == Success(r)
    ensures agg == ClampedSum ==> r <= 1.0 && (Sum(s) <= 1.0 ==> r == Sum(s)) && (1.0 <= Sum(s) ==> r == 1.0)
    ensures NonNegative(s) ==> 0.0 <= r
    ensures InUnit(s) ==> r <= 1.0
  {
    match agg
    case Max => SeqMax(s)
    case ClampedSum => AggClampedSum(s)
  }

  lemma {:induction false} SumNonNegative(s: seq<real>)
    ensures NonNegative(s) ==> 0.0 <= Sum(s)
    decreases |s|
  {
    if |s| > 0 && NonNegative(s) {
      SumNonNegative(s[..|s| - 1]);
    }
  }

  /** The sum of a concatenation is the sum of the parts. */
  lemma {:induction false} SumAppend(s: seq<real>, t: seq<real>)
    ensures Sum(s + t) == Sum(s) + Sum(t)
    decreases |t|
  {
    if |t| == 0 {
      assert s + t == s;
    } else {
      var t' := t[..|t| - 1];
      assert (s + t)[..|s + t| - 1] == s + t';
      SumAppend(s, t');
    }
  }

  /** Every element of a non-negative slice is at most its sum. */
  lemma {:induction false} ElementAtMostSum(s: seq<real>, k: nat)
    requires NonNegative(s)
    requires k < |s|
    ensures s[k] <= Sum(s)
    decreases |s|
  {
    var front := s[..|s| - 1];
    if k == |s| - 1 {
      SumNonNegative(front);
    } else {
      ElementAtMostSum(front, k);
      assert s[|s| - 1] >= 0.0;
    }
  }

  /** A slice of ones sums to its length. */
  lemma {:induction false} SumOfOnes(s: seq<real>)
    requires forall k :: 0 <= k < |s| ==> s[k] == 1.0
    ensures Sum(s) == |s| as real
    decreases |s|
  {
    if |s| > 0 {
      SumOfOnes(s[..|s| - 1]);
    }
  }

  /** For weights in [0,1] the maximum never exceeds the clamped sum. */
  lemma MaxAtMostClampedSum(s: seq<real>)
    requires |s| > 0
    requires InUnit(s)
    ensures SeqMax(s) <= AggClampedSum(s)
    ensures AggMax(s).value <= AggClampedSum(s)
  {
    var m := SeqMax(s);
    var k :| 0 <= k < |s| && s[k] == m;
    ElementAtMostSum(s, k);
  }

  /** On a non-empty slice of non-negative weights the three maxima coincide. */
  lemma MaximaAgree(s: seq<real>)
    requires |s| > 0
    requires NonNegative(s)
    ensures WeightAggMax(s) == SeqMax(s)
    ensures AggMax(s) == Success(SeqMax(s))
  {
    assert 0.0 <= s[0] <= SeqMax(s);
  }

  /** Widening the slice `w[lo..hi]` to `w[lo'..hi']` never decreases either
      aggregate, provided the weights are non-negative. */
  lemma WiderSliceNeverDecreases(w: seq<real>, lo': nat, lo: nat, hi: nat, hi': nat)
    requires lo' <= lo <= hi <= hi' <= |w|
    requires NonNegative(w)
    ensures AggClampedSum(w[lo..hi]) <= AggClampedSum(w[lo'..hi'])
    ensures WeightAggMax(w[lo..hi]) <= WeightAggMax(w[lo'..hi'])
    ensures lo < hi ==> SeqMax(w[lo..hi]) <= SeqMax(w[lo'..hi'])
  {
    var left, mid, right := w[lo'..lo], w[lo..hi], w[hi..hi'];
    assert w[lo'..hi'] == left + mid + right;
    SumAppend(left, mid);
    SumAppend(left + mid, right);
    SumNonNegative(left);
    SumNonNegative(right);
    if lo < hi {
      var k :| 0 <= k < |mid| && mid[k] == SeqMax(mid);
      assert w[lo'..hi'][lo - lo' + k] == mid[k];
    }
  }
}
