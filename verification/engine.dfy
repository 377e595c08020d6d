/** The correlation engine shared by every revision of `gamma_corr` /
    `scaled_gamma`: for each unordered pair of items it evaluates R in both
    directions for both rankings, adds t-norm combinations of the four values
    to a concordance and a discordance sum, and finally normalises
    `(con - dis) / (con + dis)`, which is undefined when both sums vanish.

    Pairs are visited in the order of `itertools.combinations(range(n), 2)`:
    `(0,1), (0,2), ..., (0,n-1), (1,2), ...`; the sums below are left folds
    in that order.
 */
module Engine {
  import opened Results
  import opened Aggregators
  import opened TNorms
  import opened Distances
  import opened Rankings

  /** The two running sums of one computation. */
  datatype Tally = Tally(con: real, dis: real)

  const Zero: Tally := Tally(0.0, 0.0)

  function Plus(x: Tally, y: Tally): Tally {
    Tally(x.con + y.con, x.dis + y.dis)
  }

  /** Everything a run of the engine is parameterised by: the t-norm, the
      aggregator, the resolved weight vector, and whether pairs tied in either
      ranking are skipped (the legacy engine skips them). */
  datatype Setup = Setup(t: TNorm, agg: Aggregator, w: seq<real>, skipTies: bool)

  /** Two rankings of the same items, and a weight vector covering every gap. */
  predicate Fits(s: Setup, a: seq<int>, b: seq<int>) {
    IsRanking(a, |a|) && IsRanking(b, |a|) && |a| <= |s.w| + 1
  }

  predicate Tied(a: seq<int>, b: seq<int>, i: nat, j: nat)
    requires i < |a| && j < |a| && |b| == |a|
  {
    a[i] == a[j] || b[i] == b[j]
  }

  /** What the pair of items `i`, `j` adds to the two sums. */
  function PairTally(s: Setup, a: seq<int>, b: seq<int>, i: nat, j: nat): (r: Tally)
    requires Fits(s, a, b) && i < |a| && j < |a|
    ensures NonNegative(s.w) ==> 0.0 <= r.con && 0.0 <= r.dis
    ensures s.skipTies && Tied(a, b, i, j) ==> r == Zero
  {
    if s.skipTies && Tied(a, b, i, j) then Zero
    else
      var aij, aji := R(s.agg, s.w, a[i], a[j]), R(s.agg, s.w, a[j], a[i]);
      var bij, bji := R(s.agg, s.w, b[i], b[j]), R(s.agg, s.w, b[j], b[i]);
      Tally(Norm(s.t, aij, bij) + Norm(s.t, aji, bji),
            Norm(s.t, aij, bji) + Norm(s.t, aji, bij))
  }

  /** A table of per-pair contributions for `n` items (only `P[i][j]` with
      `i < j` is ever read). */
  predicate Square(P: seq<seq<Tally>>, n: nat) {
    |P| == n && forall i :: 0 <= i < n ==> |P[i]| == n
  }

  /** Sum of `P[i][k]` over `i < k < j`, in increasing `k`. */
  function RowSum(P: seq<seq<Tally>>, n: nat, i: nat, j: nat): Tally
    requires Square(P, n) && i < j <= n
    decreases j
  {
    if j == i + 1 then Zero
    else Plus(RowSum(P, n, i, j - 1), P[i][j - 1])
  }

  /** Sum of `P[i][k]` over `i < m`, `i < k < n`, row by row. */
  function RowsSum(P: seq<seq<Tally>>, n: nat, m: nat): Tally
    requires Square(P, n) && m <= n
  {
    if m == 0 then Zero
    else Plus(RowsSum(P, n, m - 1), RowSum(P, n, m - 1, n))
  }

  /** Sum over all unordered pairs, in `combinations` order. */
  function SumPairs(P: seq<seq<Tally>>, n: nat): Tally
    requires Square(P, n)
  {
    RowsSum(P, n, n)
  }

  /** The contribution of every pair of items. */
  function PairTable(s: Setup, a: seq<int>, b: seq<int>): (P: seq<seq<Tally>>)
    requires Fits(s, a, b)
    ensures Square(P, |a|)
    ensures forall i, j :: 0 <= i < |a| && 0 <= j < |a| ==> P[i][j] == PairTally(s, a, b, i, j)
  {
    seq(|a|, i requires 0 <= i < |a| => seq(|a|, j requires 0 <= j < |a| => PairTally(s, a, b, i, j)))
  }

  /** The final values of `con` and `dis`. */
  function Total(s: Setup, a: seq<int>, b: seq<int>): (r: Tally)
    requires Fits(s, a, b)
    ensures NonNegative(s.w) ==> 0.0 <= r.con && 0.0 <= r.dis
    ensures |a| < 2 ==> r == Zero
  {
    var P := PairTable(s, a, b);
    SumZero(P, |a|);
    if PairsNonNegative(P, |a|) then
      PairSumNonNegative(P, |a|);
      SumPairs(P, |a|)
    else
      SumPairs(P, |a|)
  }

  /** `(con - dis) / (con + dis)`, undefined (NaN in the Python code) when the
      denominator is zero. */
  function Ratio(t: Tally): (r: Option<real>)
    ensures r.None? <==> t.con + t.dis == 0.0
    ensures r.Some? ==> r.value * (t.con + t.dis) == t.con - t.dis
  {
    if t.con + t.dis == 0.0 then None
    else Some((t.con - t.dis) / (t.con + t.dis))
  }

  /** The coefficient computed by the engine. */
  function Gamma(s: Setup, a: seq<int>, b: seq<int>): (r: Option<real>)
    requires Fits(s, a, b)
    ensures r.None? <==> Total(s, a, b).con + Total(s, a, b).dis == 0.0
    ensures r.Some? ==> r.value * (Total(s, a, b).con + Total(s, a, b).dis) == Total(s, a, b).con - Total(s, a, b).dis
    ensures |a| < 2 ==> r.None?
  {
    Ratio(Total(s, a, b))
  }

  // ---------------------------------------------------------------------
  // Generic facts about the pair sum: what holds of every pair holds of the
  // sum.

  /** Tables that agree on every pair have equal sums. */
  lemma {:induction false} SumsAgree(P: seq<seq<Tally>>, Q: seq<seq<Tally>>, n: nat)
    requires Square(P, n) && Square(Q, n)
    requires forall i, j :: 0 <= i < j < n ==> P[i][j] == Q[i][j]
    ensures SumPairs(P, n) == SumPairs(Q, n)
  {
    RowsAgree(P, Q, n, n);
  }

  lemma {:induction false} RowsAgree(P: seq<seq<Tally>>, Q: seq<seq<Tally>>, n: nat, m: nat)
    requires Square(P, n) && Square(Q, n) && m <= n
    requires forall i, j :: 0 <= i < j < n ==> P[i][j] == Q[i][j]
    ensures RowsSum(P, n, m) == RowsSum(Q, n, m)
  {
    if m > 0 {
      RowsAgree(P, Q, n, m - 1);
      RowAgrees(P, Q, n, m - 1, n);
    }
  }

  lemma {:induction false} RowAgrees(P: seq<seq<Tally>>, Q: seq<seq<Tally>>, n: nat, i: nat, j: nat)
    requires Square(P, n) && Square(Q, n) && i < j <= n
    requires forall i, j :: 0 <= i < j < n ==> P[i][j] == Q[i][j]
    ensures RowSum(P, n, i, j) == RowSum(Q, n, i, j)
    decreases j
  {
    if j > i + 1 {
      RowAgrees(P, Q, n, i, j - 1);
    }
  }

  predicate PairsNonNegative(P: seq<seq<Tally>>, n: nat)
    requires Square(P, n)
  {
    forall i, j :: 0 <= i < j < n ==> 0.0 <= P[i][j].con && 0.0 <= P[i][j].dis
  }

  /** Non-negative contributions give non-negative sums. */
  lemma {:induction false} PairSumNonNegative(P: seq<seq<Tally>>, n: nat)
    requires Square(P, n) && PairsNonNegative(P, n)
    ensures 0.0 <= SumPairs(P, n).con && 0.0 <= SumPairs(P, n).dis
  {
    RowsNonNegative(P, n, n);
  }

  lemma {:induction false} RowsNonNegative(P: seq<seq<Tally>>, n: nat, m: nat)
    requires Square(P, n) && PairsNonNegative(P, n) && m <= n
    ensures 0.0 <= RowsSum(P, n, m).con && 0.0 <= RowsSum(P, n, m).dis
  {
    if m > 0 {
      RowsNonNegative(P, n, m - 1);
      RowNonNegative(P, n, m - 1, n);
    }
  }

  lemma {:induction false} RowNonNegative(P: seq<seq<Tally>>, n: nat, i: nat, j: nat)
    requires Square(P, n) && PairsNonNegative(P, n) && i < j <= n
    ensures 0.0 <= RowSum(P, n, i, j).con && 0.0 <= RowSum(P, n, i, j).dis
    decreases j
  {
    if j > i + 1 {
      RowNonNegative(P, n, i, j - 1);
    }
  }

  /** If no pair adds to `dis` (resp. `con`), that sum is zero. */
  lemma {:induction false} SumZero(P: seq<seq<Tally>>, n: nat)
    requires Square(P, n)
    ensures (forall i, j :: 0 <= i < j < n ==> P[i][j].dis == 0.0) ==> SumPairs(P, n).dis == 0.0
    ensures (forall i, j :: 0 <= i < j < n ==> P[i][j].con == 0.0) ==> SumPairs(P, n).con == 0.0
  {
    RowsZero(P, n, n);
  }

  lemma {:induction false} RowsZero(P: seq<seq<Tally>>, n: nat, m: nat)
    requires Square(P, n) && m <= n
    ensures (forall i, j :: 0 <= i < j < n ==> P[i][j].dis == 0.0) ==> RowsSum(P, n, m).dis == 0.0
    ensures (forall i, j :: 0 <= i < j < n ==> P[i][j].con == 0.0) ==> RowsSum(P, n, m).con == 0.0
  {
    if m > 0 {
      RowsZero(P, n, m - 1);
      RowZero(P, n, m - 1, n);
    }
  }

  lemma {:induction false} RowZero(P: seq<seq<Tally>>, n: nat, i: nat, j: nat)
    requires Square(P, n) && i < j <= n
    ensures (forall i, j :: 0 <= i < j < n ==> P[i][j].dis == 0.0) ==> RowSum(P, n, i, j).dis == 0.0
    ensures (forall i, j :: 0 <= i < j < n ==> P[i][j].con == 0.0) ==> RowSum(P, n, i, j).con == 0.0
    decreases j
  {
    if j > i + 1 {
      RowZero(P, n, i, j - 1);
    }
  }

  /** With non-negative contributions, one pair with a positive `con` (or
      `dis`) makes that sum positive. */
  lemma {:induction false} SumPositive(P: seq<seq<Tally>>, n: nat, i0: nat, j0: nat)
    requires Square(P, n) && PairsNonNegative(P, n) && i0 < j0 < n
    ensures 0.0 < P[i0][j0].con ==> 0.0 < SumPairs(P, n).con
    ensures 0.0 < P[i0][j0].dis ==> 0.0 < SumPairs(P, n).dis
  {
    RowsPositive(P, n, i0, j0, n);
  }

  lemma {:induction false} RowsPositive(P: seq<seq<Tally>>, n: nat, i0: nat, j0: nat, m: nat)
    requires Square(P, n) && PairsNonNegative(P, n) && i0 < j0 < n && i0 < m <= n
    ensures 0.0 < P[i0][j0].con ==> 0.0 < RowsSum(P, n, m).con
    ensures 0.0 < P[i0][j0].dis ==> 0.0 < RowsSum(P, n, m).dis
  {
    if m == i0 + 1 {
      RowsNonNegative(P, n, m - 1);
      RowPositive(P, n, i0, j0, n);
    } else {
      RowsPositive(P, n, i0, j0, m - 1);
      RowNonNegative(P, n, m - 1, n);
    }
  }

  lemma {:induction false} RowPositive(P: seq<seq<Tally>>, n: nat, i0: nat, j0: nat, j: nat)
    requires Square(P, n) && PairsNonNegative(P, n) && i0 < j0 < j <= n
    ensures 0.0 < P[i0][j0].con ==> 0.0 < RowSum(P, n, i0, j).con
    ensures 0.0 < P[i0][j0].dis ==> 0.0 < RowSum(P, n, i0, j).dis
    decreases j
  {
    if j == j0 + 1 {
      RowNonNegative(P, n, i0, j - 1);
    } else {
      RowPositive(P, n, i0, j0, j - 1);
    }
  }

  /** If every pair adds exactly 1 to `con + dis`, the two sums together count
      the `n(n-1)/2` pairs. */
  lemma {:induction false} SumCountsPairs(P: seq<seq<Tally>>, n: nat)
    requires Square(P, n)
    requires forall i, j :: 0 <= i < j < n ==> P[i][j].con + P[i][j].dis == 1.0
    ensures 2.0 * (SumPairs(P, n).con + SumPairs(P, n).dis) == (n * (n - 1)) as real
  {
    RowsCountPairs(P, n, n);
  }

  lemma {:induction false} RowsCountPairs(P: seq<seq<Tally>>, n: nat, m: nat)
    requires Square(P, n) && m <= n
    requires forall i, j :: 0 <= i < j < n ==> P[i][j].con + P[i][j].dis == 1.0
    ensures 2.0 * (RowsSum(P, n, m).con + RowsSum(P, n, m).dis) == (m * (2 * n - m - 1)) as real
  {
    if m > 0 {
      RowsCountPairs(P, n, m - 1);
      RowCountsPairs(P, n, m - 1, n);
      assert (m - 1) * (2 * n - (m - 1) - 1) + 2 * (n - m) == m * (2 * n - m - 1);
    }
  }

  lemma {:induction false} RowCountsPairs(P: seq<seq<Tally>>, n: nat, i: nat, j: nat)
    requires Square(P, n) && i < j <= n
    requires forall i, j :: 0 <= i < j < n ==> P[i][j].con + P[i][j].dis == 1.0
    ensures RowSum(P, n, i, j).con + RowSum(P, n, i, j).dis == (j - i - 1) as real
    decreases j
  {
    if j > i + 1 {
      RowCountsPairs(P, n, i, j - 1);
    }
  }
}
