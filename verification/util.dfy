/** Conversion between orderings and rankings, row by row. An ordering lists
    item numbers best first; a ranking gives each item its 1-based position.
    Both directions are `argsort(., axis=1) + 1`: the indices of a row in
    ascending order of its values, shifted to start at 1.
 */
module Util {
  import opened Rankings

  /** Index `x` sorts before index `y`: a smaller value, or an equal value
      at a smaller index. On distinct indices exactly one of `Before(p, x, y)`
      and `Before(p, y, x)` holds. */
  predicate Before(p: seq<int>, x: int, y: int)
    requires 0 <= x < |p| && 0 <= y < |p|
  {
    p[x] < p[y] || (p[x] == p[y] && x < y)
  }

  predicate Indices(p: seq<int>, idx: seq<int>) {
    forall i :: 0 <= i < |idx| ==> 0 <= idx[i] < |p|
  }

  /** `idx` lists indices of `p` in strictly ascending `Before` order. */
  predicate SortedBy(p: seq<int>, idx: seq<int>)
    requires Indices(p, idx)
  {
    forall i, j :: 0 <= i < j < |idx| ==> Before(p, idx[i], idx[j])
  }

  /** Insert index `k` into an index list sorted by `Before`. */
  function Insert(p: seq<int>, idx: seq<int>, k: int): (r: seq<int>)
    requires Indices(p, idx) && 0 <= k < |p|
    ensures Indices(p, r) && |r| == |idx| + 1
    ensures forall y :: y in r <==> y in idx || y == k
  {
    if |idx| == 0 then [k]
    else if Before(p, idx[0], k) then
      assert idx == [idx[0]] + idx[1..];
      [idx[0]] + Insert(p, idx[1..], k)
    else
      [k] + idx
  }

  /** Insertion keeps the list sorted. */
  lemma {:induction false} InsertSorted(p: seq<int>, idx: seq<int>, k: int)
    requires Indices(p, idx) && 0 <= k < |p| && SortedBy(p, idx) && k !in idx
    ensures SortedBy(p, Insert(p, idx, k))
  {
    var r := Insert(p, idx, k);
    if |idx| == 0 {
    } else if Before(p, idx[0], k) {
      var rest := Insert(p, idx[1..], k);
      SortedTail(p, idx);
      InsertSorted(p, idx[1..], k);
      assert r == [idx[0]] + rest;
      forall j | 0 < j < |r| ensures Before(p, r[0], r[j]) {
        assert r[j] == rest[j - 1];
        assert r[j] in rest;
        if r[j] != k {
          assert r[j] in idx[1..];
          var t :| 0 <= t < |idx| - 1 && idx[1..][t] == r[j];
          assert Before(p, idx[0], idx[t + 1]);
        }
      }
      forall i, j | 0 < i < j < |r| ensures Before(p, r[i], r[j]) {
        assert r[i] == rest[i - 1] && r[j] == rest[j - 1];
      }
    } else {
      assert r == [k] + idx;
      forall j | 0 < j < |r| ensures Before(p, r[0], r[j]) {
        assert r[j] == idx[j - 1];
        if 1 < j {
          assert Before(p, idx[0], idx[j - 1]);
        }
      }
      forall i, j | 0 < i < j < |r| ensures Before(p, r[i], r[j]) {
        assert r[i] == idx[i - 1] && r[j] == idx[j - 1];
      }
    }
  }

  lemma SortedTail(p: seq<int>, idx: seq<int>)
    requires Indices(p, idx) && SortedBy(p, idx) && 0 < |idx|
    ensures Indices(p, idx[1..]) && SortedBy(p, idx[1..])
  {
    forall i, j | 0 <= i < j < |idx| - 1 ensures Before(p, idx[1..][i], idx[1..][j]) {
      assert Before(p, idx[i + 1], idx[j + 1]);
    }
  }

  /** The indices `0 .. k-1` of `p` in ascending `Before` order. */
  function SortPrefix(p: seq<int>, k: nat): (r: seq<int>)
    requires k <= |p|
    ensures Indices(p, r) && |r| == k
    ensures forall x :: x in r <==> 0 <= x < k
  {
    if k == 0 then [] else Insert(p, SortPrefix(p, k - 1), k - 1)
  }

  lemma {:induction false} SortPrefixSorted(p: seq<int>, k: nat)
    requires k <= |p|
    ensures SortedBy(p, SortPrefix(p, k))
  {
    if 0 < k {
      SortPrefixSorted(p, k - 1);
      InsertSorted(p, SortPrefix(p, k - 1), k - 1);
    }
  }

  /** `np.argsort(p)`: every index of `p` once, in ascending order of value,
      equal values in index order. */
  function ArgSort(p: seq<int>): (r: seq<int>)
    ensures |r| == |p| && Indices(p, r)
    ensures forall x :: x in r <==> 0 <= x < |p|
    ensures SortedBy(p, r)
  {
    SortPrefixSorted(p, |p|);
    SortPrefix(p, |p|)
  }

  /** One row of `to_ranking` / `to_ordering`: `argsort(p) + 1`, a
      permutation of `1 .. n` whatever the row holds. */
  function ConvertRow(p: seq<int>): (r: seq<int>)
    ensures IsRanking(r, |p|) && Distinct(r)
  {
    var idx := ArgSort(p);
    var r := seq(|idx|, m requires 0 <= m < |idx| => idx[m] + 1);
    assert forall m, l :: 0 <= m < l < |r| ==> Before(p, idx[m], idx[l]);
    r
  }

  /** The converted row lists positions in ascending order of the values
      held there. */
  lemma ConvertSorts(p: seq<int>)
    ensures forall m, l :: 0 <= m < l < |p| ==> p[ConvertRow(p)[m] - 1] <= p[ConvertRow(p)[l] - 1]
  {
    var idx := ArgSort(p);
    assert forall m, l :: 0 <= m < l < |p| ==> Before(p, idx[m], idx[l]);
  }

  /** `to_ranking`: each row converted on its own. */
  function ToRanking(m: seq<seq<int>>): (r: seq<seq<int>>)
    ensures |r| == |m|
    ensures forall i :: 0 <= i < |m| ==> IsRanking(r[i], |m[i]|) && Distinct(r[i])
  {
    seq(|m|, i requires 0 <= i < |m| => ConvertRow(m[i]))
  }

  /** `to_ordering`: the same computation. */
  function ToOrdering(m: seq<seq<int>>): (r: seq<seq<int>>)
    ensures |r| == |m|
    ensures forall i :: 0 <= i < |m| ==> IsRanking(r[i], |m[i]|) && Distinct(r[i])
  {
    seq(|m|, i requires 0 <= i < |m| => ConvertRow(m[i]))
  }

  predicate IsPermutation(p: seq<int>) {
    IsRanking(p, |p|) && Distinct(p)
  }

  /** A strictly increasing sequence of `n` values from `1 .. n` is `1 .. n`. */
  lemma {:induction false} IncreasingFills(v: seq<int>)
    requires forall i :: 0 <= i < |v| ==> 1 <= v[i] <= |v|
    requires forall i, j :: 0 <= i < j < |v| ==> v[i] < v[j]
    ensures forall m :: 0 <= m < |v| ==> v[m] == m + 1
  {
    forall m | 0 <= m < |v| ensures v[m] == m + 1 {
      AtLeastPosition(v, m);
      AtMostPosition(v, m);
    }
  }

  lemma {:induction false} AtLeastPosition(v: seq<int>, m: nat)
    requires m < |v|
    requires forall i :: 0 <= i < |v| ==> 1 <= v[i]
    requires forall i, j :: 0 <= i < j < |v| ==> v[i] < v[j]
    ensures m + 1 <= v[m]
  {
    if 0 < m {
      AtLeastPosition(v, m - 1);
    }
  }

  lemma {:induction false} AtMostPosition(v: seq<int>, m: nat)
    requires m < |v|
    requires forall i :: 0 <= i < |v| ==> v[i] <= |v|
    requires forall i, j :: 0 <= i < j < |v| ==> v[i] < v[j]
    ensures v[m] <= m + 1
    decreases |v| - m
  {
    if m + 1 < |v| {
      AtMostPosition(v, m + 1);
    }
  }

  /** On a permutation of `1 .. n`, the `m`-th entry of the converted row
      names the position holding `m+1`: the values it lists are increasing,
      distinct and drawn from `1 .. n`, so they are `1, 2, ..., n`. */
  lemma {:induction false} ConvertListsValues(p: seq<int>)
    requires IsPermutation(p)
    ensures forall m :: 0 <= m < |p| ==> p[ConvertRow(p)[m] - 1] == m + 1
  {
    var r := ConvertRow(p);
    ConvertSorts(p);
    var v := seq(|p|, m requires 0 <= m < |p| => p[r[m] - 1]);
    forall i, j | 0 <= i < j < |v| ensures v[i] < v[j] {
      assert v[i] <= v[j];
      assert r[i] != r[j];
      if r[i] < r[j] {
        assert p[r[i] - 1] != p[r[j] - 1];
      } else {
        assert p[r[j] - 1] != p[r[i] - 1];
      }
    }
    IncreasingFills(v);
    forall m | 0 <= m < |p| ensures p[r[m] - 1] == m + 1 {
      assert v[m] == m + 1;
    }
  }

  /** On a permutation the converted row is again a permutation, and it is
      the inverse permutation in both directions. */
  lemma {:induction false} ConvertInverts(p: seq<int>)
    requires IsPermutation(p)
    ensures IsPermutation(ConvertRow(p))
    ensures forall m :: 0 <= m < |p| ==> p[ConvertRow(p)[m] - 1] == m + 1
    ensures forall k :: 0 <= k < |p| ==> ConvertRow(p)[p[k] - 1] == k + 1
  {
    var r := ConvertRow(p);
    ConvertListsValues(p);
    forall k | 0 <= k < |p| ensures r[p[k] - 1] == k + 1 {
      var m := p[k] - 1;
      SameValueSamePosition(p, r[m] - 1, k);
    }
  }

  /** In a row without repeated values, equal values sit at one position. */
  lemma SameValueSamePosition(p: seq<int>, x: int, y: int)
    requires Distinct(p) && 0 <= x < |p| && 0 <= y < |p| && p[x] == p[y]
    ensures x == y
  {
  }

  /** `to_ordering(to_ranking(p)) == p` on a permutation row. */
  lemma {:induction false} ConvertRoundTrip(p: seq<int>)
    requires IsPermutation(p)
    ensures ConvertRow(ConvertRow(p)) == p
  {
    var q := ConvertRow(p);
    ConvertInverts(p);
    ConvertInverts(q);
    var pp := ConvertRow(q);
    forall m | 0 <= m < |p| ensures pp[m] == p[m] {
      SameValueSamePosition(q, pp[m] - 1, p[m] - 1);
    }
  }

  predicate Permutations(m: seq<seq<int>>) {
    forall i :: 0 <= i < |m| ==> IsPermutation(m[i])
  }

  /** Row by row, `to_ordering` undoes `to_ranking` and `to_ranking` undoes
      `to_ordering` on matrices of permutations. */
  lemma {:induction false} RoundTrip(m: seq<seq<int>>)
    requires Permutations(m)
    ensures ToOrdering(ToRanking(m)) == m
    ensures ToRanking(ToOrdering(m)) == m
  {
    forall i | 0 <= i < |m| ensures ToOrdering(ToRanking(m))[i] == m[i] && ToRanking(ToOrdering(m))[i] == m[i] {
      ConvertRoundTrip(m[i]);
    }
  }

  /** Each output row depends on its input row alone. */
  lemma {:induction false} RowWise(m: seq<seq<int>>, m': seq<seq<int>>, i: nat)
    requires i < |m| && i < |m'| && m[i] == m'[i]
    ensures ToRanking(m)[i] == ToRanking(m')[i]
    ensures ToOrdering(m)[i] == ToOrdering(m')[i]
  {
  }
}
