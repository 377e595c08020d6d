/** The pseudo-metrics of eq. (11) and eq. (12) of Henzgen and Hüllermeier
    over the rank interval between two items, and the strict fuzzy order
    relation R built from them.

    Ranks are one-based. The weights between ranks `x` and `y` are the slice
    `w[min(x,y)-1 .. max(x,y)-1]`: weight `k` sits in the gap between ranks
    `k+1` and `k+2`.
 */
module Distances {
  import opened Results
  import opened Aggregators

  function MinInt(x: int, y: int): int {
    if x <= y then x else y
  }

  function MaxInt(x: int, y: int): int {
    if x >= y then x else y
  }

  /** Ranks that index into a weight vector `w` (dense ranks 1..|w|+1). */
  predicate RanksFit(ranks: seq<int>, w: seq<real>) {
    forall k :: 0 <= k < |ranks| ==> 1 <= ranks[k] <= |w| + 1
  }

  /** The weights of the gaps between ranks `x` and `y`, in either order. */
  function Interval(w: seq<real>, x: int, y: int): (s: seq<real>)
    requires 1 <= x <= |w| + 1 && 1 <= y <= |w| + 1
    ensures |s| == MaxInt(x, y) - MinInt(x, y)
    ensures forall k :: 0 <= k < |s| ==> s[k] == w[MinInt(x, y) - 1 + k]
  {
    w[MinInt(x, y) - 1 .. MaxInt(x, y) - 1]
  }

  /** `d_max` (eq. 11): the largest weight between the ranks of items `i` and
      `j`; Python's `max` fails when the ranks are equal and the slice empty. */
  function DMax(ranks: seq<int>, i: nat, j: nat, w: seq<real>): (r: Result<real>)
    requires i < |ranks| && j < |ranks| && RanksFit(ranks, w)
    ensures r.Failure? <==> ranks[i] == ranks[j]
    ensures r.Failure? ==> r.error == EmptyMax
    ensures r.Success? ==> forall k :: MinInt(ranks[i], ranks[j]) - 1 <= k < MaxInt(ranks[i], ranks[j]) - 1 ==> w[k] <= r.value
    ensures r.Success? ==> exists k :: MinInt(ranks[i], ranks[j]) - 1 <= k < MaxInt(ranks[i], ranks[j]) - 1 && w[k] == r.value
  {
    MaxOverInterval(w, ranks[i], ranks[j]);
    AggMax(Interval(w, ranks[i], ranks[j]))
  }

  /** The maximum of a non-empty interval bounds, and is one of, its weights. */
  lemma MaxOverInterval(w: seq<real>, x: int, y: int)
    requires 1 <= x <= |w| + 1 && 1 <= y <= |w| + 1
    ensures x != y ==> forall k :: MinInt(x, y) - 1 <= k < MaxInt(x, y) - 1 ==> w[k] <= SeqMax(Interval(w, x, y))
    ensures x != y ==> exists k :: MinInt(x, y) - 1 <= k < MaxInt(x, y) - 1 && w[k] == SeqMax(Interval(w, x, y))
  {
    if x == y {
      return;
    }
    var s, lo := Interval(w, x, y), MinInt(x, y) - 1;
    var m :| 0 <= m < |s| && s[m] == SeqMax(s);
    assert w[lo + m] == SeqMax(s);
    forall k | lo <= k < MaxInt(x, y) - 1
      ensures w[k] <= SeqMax(s)
    {
      assert s[k - lo] == w[k];
    }
  }

  /** `d_sum` (eq. 12): the sum of the weights between the ranks of items `i`
      and `j`, clamped at 1. */
  function DSum(ranks: seq<int>, i: nat, j: nat, w: seq<real>): (r: real)
    requires i < |ranks| && j < |ranks| && RanksFit(ranks, w)
    ensures Sum(Interval(w, ranks[i], ranks[j])) <= 1.0 ==> r == Sum(Interval(w, ranks[i], ranks[j]))
    ensures 1.0 <= Sum(Interval(w, ranks[i], ranks[j])) ==> r == 1.0
    ensures r <= 1.0
    ensures ranks[i] == ranks[j] ==> r == 0.0
    ensures NonNegative(w) ==> 0.0 <= r
  {
    var s := Interval(w, ranks[i], ranks[j]);
    assert NonNegative(w) ==> NonNegative(s);
    AggClampedSum(s)
  }

  /** The gaps between ranks `x` and `y` are those between `x` and `m`
      followed by those between `m` and `y`, so the unclamped sums add up. */
  lemma {:induction false} IntervalSplit(w: seq<real>, x: int, m: int, y: int)
    requires 1 <= x <= m <= y <= |w| + 1
    ensures Interval(w, x, y) == Interval(w, x, m) + Interval(w, m, y)
    ensures Sum(Interval(w, x, y)) == Sum(Interval(w, x, m)) + Sum(Interval(w, m, y))
  {
    assert Interval(w, x, y) == Interval(w, x, m) + Interval(w, m, y);
    SumAppend(Interval(w, x, m), Interval(w, m, y));
  }

  /** `min(1, A + B) <= min(1, A) + min(1, B)` for non-negative `A`, `B`. */
  lemma ClampSubadditive(s: seq<real>, t: seq<real>)
    requires NonNegative(s) && NonNegative(t)
    ensures AggClampedSum(s + t) <= AggClampedSum(s) + AggClampedSum(t)
  {
    SumAppend(s, t);
    SumNonNegative(s);
    SumNonNegative(t);
  }

  /** A wider rank interval has at least the clamped sum of a narrower one. */
  lemma ClampedWider(w: seq<real>, lo': int, lo: int, hi: int, hi': int)
    requires 1 <= lo' <= lo <= hi <= hi' <= |w| + 1
    requires NonNegative(w)
    ensures AggClampedSum(Interval(w, lo, hi)) <= AggClampedSum(Interval(w, lo', hi'))
  {
    IntervalSplit(w, lo', lo, hi');
    IntervalSplit(w, lo, hi, hi');
    var front, back := Interval(w, lo', lo), Interval(w, hi, hi');
    assert NonNegative(front) && NonNegative(back);
    SumNonNegative(front);
    SumNonNegative(back);
  }

  /** The triangle inequality of the clamped sum, for ranks `x <= y` and any
      third rank `m`. */
  lemma OrderedTriangle(w: seq<real>, x: int, m: int, y: int)
    requires 1 <= x <= y <= |w| + 1 && 1 <= m <= |w| + 1
    requires NonNegative(w)
    ensures AggClampedSum(Interval(w, x, y)) <=
      AggClampedSum(Interval(w, x, m)) + AggClampedSum(Interval(w, m, y))
  {
    var left, right := Interval(w, x, m), Interval(w, m, y);
    assert NonNegative(left) && NonNegative(right);
    if m < x {
      ClampedWider(w, m, x, y, y);
    } else if y < m {
      ClampedWider(w, x, x, y, m);
    } else {
      IntervalSplit(w, x, m, y);
      ClampSubadditive(left, right);
    }
  }

  /** `d_sum` satisfies the triangle inequality over any third item `k`:
      it is the pseudo-metric of eq. (12) for non-negative weights. */
  lemma DSumTriangle(ranks: seq<int>, i: nat, k: nat, j: nat, w: seq<real>)
    requires i < |ranks| && k < |ranks| && j < |ranks| && RanksFit(ranks, w)
    requires NonNegative(w)
    ensures DSum(ranks, i, j, w) <= DSum(ranks, i, k, w) + DSum(ranks, k, j, w)
  {
    var x, m, y := ranks[i], ranks[k], ranks[j];
    DSumClamps(ranks, i, j, w);
    DSumClamps(ranks, i, k, w);
    DSumClamps(ranks, k, j, w);
    if x <= y {
      OrderedTriangle(w, x, m, y);
    } else {
      OrderedTriangle(w, y, m, x);
      IntervalSymmetric(w, x, y);
      IntervalSymmetric(w, x, m);
      IntervalSymmetric(w, m, y);
    }
  }

  lemma DSumClamps(ranks: seq<int>, i: nat, j: nat, w: seq<real>)
    requires i < |ranks| && j < |ranks| && RanksFit(ranks, w)
    ensures DSum(ranks, i, j, w) == AggClampedSum(Interval(w, ranks[i], ranks[j]))
  {
  }

  lemma IntervalSymmetric(w: seq<real>, x: int, y: int)
    requires 1 <= x <= |w| + 1 && 1 <= y <= |w| + 1
    ensures Interval(w, x, y) == Interval(w, y, x)
  {
  }

  /** The strict fuzzy order relation R: zero unless rank `x` strictly
      precedes rank `y`, otherwise the chosen aggregate of the weights
      between them. */
  function R(agg: Aggregator, w: seq<real>, x: int, y: int): (r: real)
    requires 1 <= x <= |w| + 1 && 1 <= y <= |w| + 1
    ensures r != 0.0 ==> x < y
    ensures NonNegative(w) ==> 0.0 <= r
    ensures (agg == ClampedSum || InUnit(w)) ==> r <= 1.0
  {
    if x >= y then 0.0
    else
      var s := Interval(w, x, y);
      assert NonNegative(w) ==> NonNegative(s);
      assert InUnit(w) ==> InUnit(s);
      Aggregate(agg, s)
  }

  /** At most one direction of R is non-zero, and R of tied ranks is zero. */
  lemma Antisymmetric(agg: Aggregator, w: seq<real>, x: int, y: int)
    requires 1 <= x <= |w| + 1 && 1 <= y <= |w| + 1
    ensures R(agg, w, x, y) == 0.0 || R(agg, w, y, x) == 0.0
    ensures x == y ==> R(agg, w, x, y) == 0.0
  {
  }

  /** With positive weights R is positive exactly when the first rank is smaller. */
  lemma PositiveWhenOrdered(agg: Aggregator, w: seq<real>, x: int, y: int)
    requires 1 <= x <= |w| + 1 && 1 <= y <= |w| + 1
    requires forall k :: 0 <= k < |w| ==> 0.0 < w[k]
    ensures 0.0 < R(agg, w, x, y) <==> x < y
  {
    if x < y {
      var s := Interval(w, x, y);
      assert 0.0 < s[0];
      match agg
      case Max =>
      case ClampedSum =>
        assert NonNegative(s[1..]) by {
          forall k | 0 <= k < |s[1..]| ensures 0.0 <= s[1..][k] { assert s[1..][k] == s[k + 1]; }
        }
        SumAppend([s[0]], s[1..]);
        assert [s[0]] + s[1..] == s;
        SumNonNegative(s[1..]);
        assert Sum([s[0]]) == s[0] by { assert [s[0]][..0] == []; }
    }
  }

  /** R is the item-level distance of the engine's aggregator whenever the
      first item's rank is the smaller one. */
  lemma RIsDistance(agg: Aggregator, ranks: seq<int>, i: nat, j: nat, w: seq<real>)
    requires i < |ranks| && j < |ranks| && RanksFit(ranks, w)
    requires ranks[i] < ranks[j]
    ensures agg == Max ==> R(agg, w, ranks[i], ranks[j]) == DMax(ranks, i, j, w).value
    ensures agg == ClampedSum ==> R(agg, w, ranks[i], ranks[j]) == DSum(ranks, i, j, w)
  {
  }

  /** Both distances are symmetric in the two items. */
  lemma DistancesSymmetric(ranks: seq<int>, i: nat, j: nat, w: seq<real>)
    requires i < |ranks| && j < |ranks| && RanksFit(ranks, w)
    ensures DMax(ranks, i, j, w) == DMax(ranks, j, i, w)
    ensures DSum(ranks, i, j, w) == DSum(ranks, j, i, w)
  {
  }

  /** Both distances read only the weights of the gaps between the two ranks. */
  lemma DistancesReadOnlyInterval(ranks: seq<int>, i: nat, j: nat, w: seq<real>, w': seq<real>)
    requires i < |ranks| && j < |ranks| && RanksFit(ranks, w) && RanksFit(ranks, w')
    requires forall k :: MinInt(ranks[i], ranks[j]) - 1 <= k < MaxInt(ranks[i], ranks[j]) - 1 ==> w[k] == w'[k]
    ensures DMax(ranks, i, j, w) == DMax(ranks, i, j, w')
    ensures DSum(ranks, i, j, w) == DSum(ranks, i, j, w')
  {
    assert Interval(w, ranks[i], ranks[j]) == Interval(w', ranks[i], ranks[j]);
  }

  /** For adjacent ranks `r` and `r+1` both distances are the single weight
      `w[r-1]`, clamped at 1 for the sum. */
  lemma AdjacentRanks(ranks: seq<int>, i: nat, j: nat, w: seq<real>)
    requires i < |ranks| && j < |ranks| && RanksFit(ranks, w)
    requires ranks[j] == ranks[i] + 1
    ensures DMax(ranks, i, j, w) == Success(w[ranks[i] - 1])
    ensures DSum(ranks, i, j, w) == (if w[ranks[i] - 1] <= 1.0 then w[ranks[i] - 1] else 1.0)
  {
    var s := Interval(w, ranks[i], ranks[j]);
    assert s == [w[ranks[i] - 1]];
    assert Sum(s) == w[ranks[i] - 1] by { assert s[..0] == []; }
  }

  /** For weights in [0,1], `d_max <= d_sum`. */
  lemma MaxAtMostSum(ranks: seq<int>, i: nat, j: nat, w: seq<real>)
    requires i < |ranks| && j < |ranks| && RanksFit(ranks, w)
    requires ranks[i] != ranks[j]
    requires InUnit(w)
    ensures DMax(ranks, i, j, w).value <= DSum(ranks, i, j, w)
  {
    var s := Interval(w, ranks[i], ranks[j]);
    assert InUnit(s);
    MaxAtMostClampedSum(s);
  }

  /** Name under which the selector knows each aggregator. */
  function DistanceName(agg: Aggregator): string {
    match agg
    case Max => "max"
    case ClampedSum => "sum"
  }

  /** `distance_selector`: 'max' picks eq. 11, 'sum' eq. 12, anything else is an error. */
  function DistanceSelector(distance: string): (r: Result<Aggregator>)
    ensures r.Success? ==> DistanceName(r.value) == distance
    ensures r.Failure? ==> r.error == UnknownDistance(distance)
    ensures r.Failure? <==> (forall agg: Aggregator :: DistanceName(agg) != distance)
  {
    if distance == "max" then Success(Max)
    else if distance == "sum" then Success(ClampedSum)
    else Failure(UnknownDistance(distance))
  }

  lemma DistanceSelectorRoundTrip(agg: Aggregator)
    ensures DistanceSelector(DistanceName(agg)) == Success(agg)
  {
  }
}
