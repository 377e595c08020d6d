/** Rankings of `n` items: one rank in `1..n` per item. Shared by the
    correlation engine and by the conversions between orderings and
    rankings.
 */
module Rankings {
  /** `r` holds `n` dense ranks in 1..n (ties allowed). */
  predicate IsRanking(r: seq<int>, n: nat) {
    |r| == n && forall k :: 0 <= k < |r| ==> 1 <= r[k] <= n
  }

  /** No value is repeated: `r` is a permutation when it is also a ranking. */
  predicate Distinct(r: seq<int>) {
    forall i, j :: 0 <= i < j < |r| ==> r[i] != r[j]
  }
}
