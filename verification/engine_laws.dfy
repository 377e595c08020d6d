/** Laws of the correlation engine: the coefficient's range, its symmetry in
    the two rankings, which weights it reads, why skipping tied pairs is
    invisible, and the value on identical rankings.
 */
module EngineLaws {
  import opened Results
  import opened Aggregators
  import opened TNorms
  import opened Distances
  import opened Engine
  import opened Rankings

  lemma SignOfQuotient(q: real, d: real, e: real)
    requires 0.0 < d && q * d == e
    ensures 0.0 <= e ==> 0.0 <= q
  {
    if q < 0.0 {
      assert q * d < 0.0;
    }
  }

  /** With non-negative sums the normalised value lies in [-1,1]; it is 1 when
      nothing is discordant and -1 when nothing is concordant. */
  lemma RatioBounded(t: Tally)
    requires 0.0 <= t.con && 0.0 <= t.dis
    ensures Ratio(t).None? <==> t.con == 0.0 && t.dis == 0.0
    ensures Ratio(t).Some? ==> -1.0 <= Ratio(t).value <= 1.0
    ensures t.dis == 0.0 && 0.0 < t.con ==> Ratio(t) == Some(1.0)
    ensures t.con == 0.0 && 0.0 < t.dis ==> Ratio(t) == Some(-1.0)
  {
    var r := Ratio(t);
    if r.Some? {
      var q, d := r.value, t.con + t.dis;
      assert (1.0 - q) * d == 2.0 * t.dis;
      SignOfQuotient(1.0 - q, d, 2.0 * t.dis);
      assert (1.0 + q) * d == 2.0 * t.con;
      SignOfQuotient(1.0 + q, d, 2.0 * t.con);
    }
  }

  /** Non-negative weights make every contribution non-negative. */
  lemma PairNonNegative(s: Setup, a: seq<int>, b: seq<int>)
    requires Fits(s, a, b) && NonNegative(s.w)
    ensures PairsNonNegative(PairTable(s, a, b), |a|)
  {
  }

  /** With non-negative weights and either t-norm, the coefficient is
      undefined exactly when both sums are zero, and otherwise lies in [-1,1]. */
  lemma GammaBounded(s: Setup, a: seq<int>, b: seq<int>)
    requires Fits(s, a, b) && NonNegative(s.w)
    ensures 0.0 <= Total(s, a, b).con && 0.0 <= Total(s, a, b).dis
    ensures Gamma(s, a, b).None? <==> Total(s, a, b).con == 0.0 && Total(s, a, b).dis == 0.0
    ensures Gamma(s, a, b).Some? ==> -1.0 <= Gamma(s, a, b).value <= 1.0
  {
    PairNonNegative(s, a, b);
    PairSumNonNegative(PairTable(s, a, b), |a|);
    RatioBounded(Total(s, a, b));
  }

  /** `GammaBounded` as an implication, for use inside expressions. */
  lemma GammaInRange(s: Setup, a: seq<int>, b: seq<int>)
    requires Fits(s, a, b)
    ensures NonNegative(s.w) ==> Gamma(s, a, b).None? || -1.0 <= Gamma(s, a, b).value <= 1.0
  {
    if NonNegative(s.w) {
      GammaBounded(s, a, b);
    }
  }

  /** Swapping the two rankings leaves both sums, hence the coefficient,
      unchanged (both t-norms are commutative). */
  lemma SwapRankings(s: Setup, a: seq<int>, b: seq<int>)
    requires Fits(s, a, b)
    ensures Fits(s, b, a)
    ensures Total(s, b, a) == Total(s, a, b)
    ensures Gamma(s, b, a) == Gamma(s, a, b)
  {
    var n := |a|;
    forall i, j | 0 <= i < j < n
      ensures PairTally(s, a, b, i, j) == PairTally(s, b, a, i, j)
    {
      var aij, aji := R(s.agg, s.w, a[i], a[j]), R(s.agg, s.w, a[j], a[i]);
      var bij, bji := R(s.agg, s.w, b[i], b[j]), R(s.agg, s.w, b[j], b[i]);
      Commutative(s.t, aij, bij);
      Commutative(s.t, aji, bji);
      Commutative(s.t, aij, bji);
      Commutative(s.t, aji, bij);
    }
    SumsAgree(PairTable(s, a, b), PairTable(s, b, a), n);
  }

  /** Only the weights of the first `n-1` gaps are read: any vector agreeing
      with `w` there gives the same sums. This is why the package's
      `np.ones(n)` for "uniform" and `np.ones(n-1)` elsewhere agree. */
  lemma OnlyGapWeightsRead(s: Setup, w': seq<real>, a: seq<int>, b: seq<int>)
    requires Fits(s, a, b) && |a| <= |w'| + 1
    requires forall k :: 0 <= k < |a| - 1 ==> s.w[k] == w'[k]
    ensures Fits(s.(w := w'), a, b)
    ensures Total(s.(w := w'), a, b) == Total(s, a, b)
  {
    var n, s' := |a|, s.(w := w');
    forall i, j | 0 <= i < j < n
      ensures PairTally(s, a, b, i, j) == PairTally(s', a, b, i, j)
    {
      SameInterval(s.w, w', n, a[i], a[j]);
      SameInterval(s.w, w', n, a[j], a[i]);
      SameInterval(s.w, w', n, b[i], b[j]);
      SameInterval(s.w, w', n, b[j], b[i]);
    }
    SumsAgree(PairTable(s, a, b), PairTable(s', a, b), n);
  }

  lemma SameInterval(w: seq<real>, w': seq<real>, n: nat, x: int, y: int)
    requires 1 <= x <= n && 1 <= y <= n && n <= |w| + 1 && n <= |w'| + 1
    requires forall k :: 0 <= k < n - 1 ==> w[k] == w'[k]
    ensures Interval(w, x, y) == Interval(w', x, y)
  {
  }

  /** When a tied pair contributes nothing anyway: the product t-norm, or
      relation values at most 1 (clamped sum, or weights in [0,1]). */
  predicate TiesNeutral(s: Setup) {
    s.t == Prod || s.agg == ClampedSum || InUnit(s.w)
  }

  /** A pair tied in either ranking contributes zero even when it is not
      skipped: one ranking gives 0 in both directions, and the t-norm of 0
      and a value at most 1 is 0. */
  lemma TiedPairContributesNothing(s: Setup, a: seq<int>, b: seq<int>, i: nat, j: nat)
    requires Fits(s, a, b) && i < |a| && j < |a|
    requires Tied(a, b, i, j) && TiesNeutral(s)
    ensures PairTally(s.(skipTies := false), a, b, i, j) == Zero
  {
    var aij, aji := R(s.agg, s.w, a[i], a[j]), R(s.agg, s.w, a[j], a[i]);
    var bij, bji := R(s.agg, s.w, b[i], b[j]), R(s.agg, s.w, b[j], b[i]);
    if a[i] == a[j] {
      NormOfZero(s.t, bij);
      NormOfZero(s.t, bji);
    } else {
      NormOfZero(s.t, aij);
      NormOfZero(s.t, aji);
    }
  }

  /** The t-norm of 0 and a value at most 1 is 0 (for the product, of 0 and
      anything). */
  lemma NormOfZero(t: TNorm, x: real)
    requires t == Prod || x <= 1.0
    ensures Norm(t, 0.0, x) == 0.0 && Norm(t, x, 0.0) == 0.0
  {
  }

  /** A pair contributes the same whichever of its two items is listed
      first, so the result does not depend on how items are numbered within a
      pair. */
  lemma PairSymmetric(s: Setup, a: seq<int>, b: seq<int>, i: nat, j: nat)
    requires Fits(s, a, b) && i < |a| && j < |a|
    ensures PairTally(s, a, b, i, j) == PairTally(s, a, b, j, i)
  {
  }

  /** Hence the legacy engine's tie skipping never changes the result. */
  lemma SkippingTiesChangesNothing(s: Setup, a: seq<int>, b: seq<int>)
    requires Fits(s, a, b) && TiesNeutral(s)
    ensures Total(s.(skipTies := true), a, b) == Total(s.(skipTies := false), a, b)
    ensures Gamma(s.(skipTies := true), a, b) == Gamma(s.(skipTies := false), a, b)
  {
    var skip, keep := s.(skipTies := true), s.(skipTies := false);
    forall i, j | 0 <= i < j < |a|
      ensures PairTally(skip, a, b, i, j) == PairTally(keep, a, b, i, j)
    {
      if Tied(a, b, i, j) {
        TiedPairContributesNothing(s, a, b, i, j);
      }
    }
    SumsAgree(PairTable(skip, a, b), PairTable(keep, a, b), |a|);
  }

  /** A ranking compared with itself has no discordance, so the coefficient
      is 1 or undefined. */
  lemma IdenticalRankings(s: Setup, a: seq<int>)
    requires Fits(s, a, a) && TiesNeutral(s)
    ensures Total(s, a, a).dis == 0.0
    ensures Gamma(s, a, a) == None || Gamma(s, a, a) == Some(1.0)
  {
    var P: seq<seq<Tally>> := PairTable(s, a, a);
    forall i, j | 0 <= i < j < |a|
      ensures P[i][j].dis == 0.0
    {
      Antisymmetric(s.agg, s.w, a[i], a[j]);
    }
    SumZero(P, |a|);
    RatioWithoutDiscordance(Total(s, a, a));
  }

  lemma RatioWithoutDiscordance(t: Tally)
    ensures t.dis == 0.0 ==> Ratio(t) == None || Ratio(t) == Some(1.0)
  {
    if t.dis == 0.0 && t.con != 0.0 {
      assert (t.con - t.dis) / (t.con + t.dis) == t.con / t.con == 1.0;
    }
  }

  /** With the product t-norm and positive weights, a permutation of at least
      two items compared with itself gives exactly 1. */
  lemma IdenticalPositiveWeights(s: Setup, a: seq<int>)
    requires Fits(s, a, a) && s.t == Prod && 2 <= |a| && Distinct(a)
    requires forall k :: 0 <= k < |s.w| ==> 0.0 < s.w[k]
    ensures Gamma(s, a, a) == Some(1.0)
  {
    var P: seq<seq<Tally>> := PairTable(s, a, a);
    IdenticalRankings(s, a);
    assert NonNegative(s.w);
    PairNonNegative(s, a, a);
    FirstPairConcordant(s, a);
    SumPositive(P, |a|, 0, 1);
    RatioBounded(Total(s, a, a));
  }

  /** Items 0 and 1 of a permutation, compared with themselves under the
      product t-norm and positive weights, are strictly concordant. */
  lemma FirstPairConcordant(s: Setup, a: seq<int>)
    requires Fits(s, a, a) && s.t == Prod && 2 <= |a| && a[0] != a[1]
    requires forall k :: 0 <= k < |s.w| ==> 0.0 < s.w[k]
    ensures 0.0 < PairTally(s, a, a, 0, 1).con
  {
    var x, y := R(s.agg, s.w, a[0], a[1]), R(s.agg, s.w, a[1], a[0]);
    PositiveWhenOrdered(s.agg, s.w, a[0], a[1]);
    PositiveWhenOrdered(s.agg, s.w, a[1], a[0]);
    assert NonNegative(s.w);
    assert 0.0 < Norm(Prod, x, x) || 0.0 < Norm(Prod, y, y);
    assert !Tied(a, a, 0, 1);
  }

  /** `b` ranks the items in the reverse order of `a`. */
  predicate Reverses(a: seq<int>, b: seq<int>) {
    |b| == |a| && forall k :: 0 <= k < |a| ==> b[k] == |a| + 1 - a[k]
  }

  lemma RatioWithoutConcordance(t: Tally)
    ensures t.con == 0.0 ==> Ratio(t) == None || Ratio(t) == Some(-1.0)
  {
    if t.con == 0.0 && t.dis != 0.0 {
      assert (t.con - t.dis) / (t.con + t.dis) == -t.dis / t.dis == -1.0;
    }
  }

  /** A ranking compared with its reverse has no concordance, so the
      coefficient is -1 or undefined. */
  lemma ReversedRankings(s: Setup, a: seq<int>, b: seq<int>)
    requires Fits(s, a, b) && Reverses(a, b) && TiesNeutral(s)
    ensures Total(s, a, b).con == 0.0
    ensures Gamma(s, a, b) == None || Gamma(s, a, b) == Some(-1.0)
  {
    var P: seq<seq<Tally>> := PairTable(s, a, b);
    forall i, j | 0 <= i < j < |a|
      ensures P[i][j].con == 0.0
    {
      ReversedPairNotConcordant(s, a, b, i, j);
    }
    SumZero(P, |a|);
    RatioWithoutConcordance(Total(s, a, b));
  }

  /** One pair of a ranking and its reverse: whichever direction `a` orders
      the two items, `b` orders them the other way, so each t-norm term of
      `con` has a zero argument. */
  lemma ReversedPairNotConcordant(s: Setup, a: seq<int>, b: seq<int>, i: nat, j: nat)
    requires Fits(s, a, b) && Reverses(a, b) && TiesNeutral(s) && i < |a| && j < |a|
    ensures PairTally(s, a, b, i, j).con == 0.0
  {
    var aij, aji := R(s.agg, s.w, a[i], a[j]), R(s.agg, s.w, a[j], a[i]);
    var bij, bji := R(s.agg, s.w, b[i], b[j]), R(s.agg, s.w, b[j], b[i]);
    if a[i] < a[j] {
      assert aji == 0.0 && bij == 0.0;
      NormOfZero(s.t, aij);
      NormOfZero(s.t, bji);
    } else {
      assert aij == 0.0 && bji == 0.0;
      NormOfZero(s.t, bij);
      NormOfZero(s.t, aji);
    }
  }

  /** With the product t-norm and positive weights, a permutation of at least
      two items compared with its reverse gives exactly -1. */
  lemma ReversedPositiveWeights(s: Setup, a: seq<int>, b: seq<int>)
    requires Fits(s, a, b) && Reverses(a, b) && s.t == Prod && 2 <= |a| && Distinct(a)
    requires forall k :: 0 <= k < |s.w| ==> 0.0 < s.w[k]
    ensures Gamma(s, a, b) == Some(-1.0)
  {
    var P: seq<seq<Tally>> := PairTable(s, a, b);
    ReversedRankings(s, a, b);
    assert NonNegative(s.w);
    PairNonNegative(s, a, b);
    FirstPairDiscordant(s, a, b);
    SumPositive(P, |a|, 0, 1);
    RatioBounded(Total(s, a, b));
  }

  lemma FirstPairDiscordant(s: Setup, a: seq<int>, b: seq<int>)
    requires Fits(s, a, b) && Reverses(a, b) && s.t == Prod && 2 <= |a| && a[0] != a[1]
    requires forall k :: 0 <= k < |s.w| ==> 0.0 < s.w[k]
    ensures 0.0 < PairTally(s, a, b, 0, 1).dis
  {
    PositiveWhenOrdered(s.agg, s.w, a[0], a[1]);
    PositiveWhenOrdered(s.agg, s.w, a[1], a[0]);
    PositiveWhenOrdered(s.agg, s.w, b[0], b[1]);
    PositiveWhenOrdered(s.agg, s.w, b[1], b[0]);
    assert NonNegative(s.w);
    assert !Tied(a, b, 0, 1);
  }
}
