/** The fixed cases of the repository's test suite, as exact values of the
    model: five-item rankings, the default product t-norm and `d_max`.
 */
module Fixtures {
  import opened Results
  import opened Aggregators
  import opened TNorms
  import opened Weights
  import opened Distances
  import opened Engine
  import opened Rankings
  import opened EngineLaws
  import opened Revisions

  const Ascending: seq<int> := [1, 2, 3, 4, 5]
  const Descending: seq<int> := [5, 4, 3, 2, 1]
  const Shuffled: seq<int> := [1, 2, 5, 4, 3]
  const Falling: seq<real> := [1.0, 0.75, 0.5, 0.25]

  /** `test_uncorrelated`: a ranking against its reverse gives -1. */
  lemma Uncorrelated()
    ensures GammaCorr(Ascending, Descending, Named("uniform"), Prod, Max) == Success(Some(-1.0))
  {
    var s := Setup(Prod, Max, Ones(5), false);
    assert Reverses(Ascending, Descending);
    assert Distinct(Ascending);
    ReversedPositiveWeights(s, Ascending, Descending);
  }

  /** `test_identical`: a ranking against itself gives 1. */
  lemma Identical()
    ensures GammaCorr(Ascending, Ascending, Named("uniform"), Prod, Max) == Success(Some(1.0))
  {
    var s := Setup(Prod, Max, Ones(5), false);
    assert Distinct(Ascending);
    IdenticalPositiveWeights(s, Ascending);
  }

  /** `test_identical2`: the same for any four positive weights. */
  lemma IdenticalWeighted(w: seq<real>)
    requires |w| == 4 && forall k :: 0 <= k < 4 ==> 0.0 < w[k]
    ensures GammaCorr(Ascending, Ascending, Vector(w), Prod, Max) == Success(Some(1.0))
  {
    var s := Setup(Prod, Max, w, false);
    assert Distinct(Ascending);
    IdenticalPositiveWeights(s, Ascending);
  }

  /** The setup of `test_1`: product t-norm, `d_max`, `linspace(1, .25, 4)`. */
  const Test1: Setup := Setup(Prod, Max, Falling, false)

  /** `test_1`: the sums are 91/16 and 1/2, so the coefficient is exactly
      83/99 (about 0.838383). */
  lemma Weighted()
    ensures GammaCorr(Shuffled, Ascending, Vector(Falling), Prod, Max) == Success(Some(83.0 / 99.0))
  {
    WeightedSums(Test1, Shuffled, Ascending);
    WeightedRatio(Total(Test1, Shuffled, Ascending));
    VectorRun(Shuffled, Ascending, Falling, Prod, Max);
  }

  lemma WeightedRatio(t: Tally)
    requires t == Tally(91.0 / 16.0, 0.5)
    ensures Ratio(t) == Some(83.0 / 99.0)
  {
    assert (t.con - t.dis) / (t.con + t.dis) == 83.0 / 99.0;
  }

  /** With `n-1` explicit weights the package entry point runs the engine on
      exactly those weights. */
  lemma VectorRun(a: seq<int>, b: seq<int>, w: seq<real>, t: TNorm, agg: Aggregator)
    requires IsRanking(a, |a|) && IsRanking(b, |a|) && |w| + 1 == |a|
    ensures GammaCorr(a, b, Vector(w), t, agg) == Success(Gamma(Setup(t, agg, w, false), a, b))
  {
  }

  lemma WeightedSums(s: Setup, a: seq<int>, b: seq<int>)
    requires s == Test1 && a == Shuffled && b == Ascending
    ensures Fits(s, a, b)
    ensures Total(s, a, b) == Tally(91.0 / 16.0, 0.5)
  {
    var P := PairTable(s, a, b);
    WeightedPair01(s, a, b);
    WeightedPair02(s, a, b);
    WeightedPair03(s, a, b);
    WeightedPair04(s, a, b);
    WeightedPair12(s, a, b);
    WeightedPair13(s, a, b);
    WeightedPair14(s, a, b);
    WeightedPair23(s, a, b);
    WeightedPair24(s, a, b);
    WeightedPair34(s, a, b);
    WeightedRow0(P);
    WeightedRow1(P);
    WeightedRow2(P);
    WeightedRow3(P);
    WeightedTableSum(P);
  }

  /** Row by row, the contributions of `test_1` sum to 91/16 and 1/2. */
  lemma WeightedTableSum(P: seq<seq<Tally>>)
    requires Square(P, 5)
    requires RowSum(P, 5, 0, 5) == Tally(4.0, 0.0)
    requires RowSum(P, 5, 1, 5) == Tally(1.6875, 0.0)
    requires RowSum(P, 5, 2, 5) == Tally(0.0, 0.375)
    requires RowSum(P, 5, 3, 5) == Tally(0.0, 0.125)
    ensures SumPairs(P, 5) == Tally(91.0 / 16.0, 0.5)
  {
    var s0 := RowsSum(P, 5, 0);
    assert s0 == Zero;
    var s1 := RowsSum(P, 5, 1);
    assert s1 == Plus(s0, RowSum(P, 5, 0, 5));
    var s2 := RowsSum(P, 5, 2);
    assert s2 == Plus(s1, RowSum(P, 5, 1, 5));
    var s3 := RowsSum(P, 5, 3);
    assert s3 == Plus(s2, RowSum(P, 5, 2, 5));
    var s4 := RowsSum(P, 5, 4);
    assert s4 == Plus(s3, RowSum(P, 5, 3, 5));
    assert RowSum(P, 5, 4, 5) == Zero;
    assert SumPairs(P, 5) == Plus(s4, RowSum(P, 5, 4, 5));
  }

  /** One step of a row sum of the five-item table: if the row up to `j`
      sums to `before`, adding `P[i][j]` gives `after`. The first step
      starts from the empty row. */
  lemma RowStep(P: seq<seq<Tally>>, i: nat, j: nat, before: Tally, after: Tally)
    requires Square(P, 5) && i < j < 5
    requires j == i + 1 ==> before == Zero
    requires j > i + 1 ==> RowSum(P, 5, i, j) == before
    requires Plus(before, P[i][j]) == after
    ensures RowSum(P, 5, i, j + 1) == after
  {
    assert RowSum(P, 5, i, j + 1) == Plus(RowSum(P, 5, i, j), P[i][j]);
  }

  /** Item 0 (rank 1 in both rankings) is concordant with every other item. */
  lemma WeightedRow0(P: seq<seq<Tally>>)
    requires Square(P, 5)
    requires P[0][1] == Tally(1.0, 0.0) && P[0][2] == Tally(1.0, 0.0)
    requires P[0][3] == Tally(1.0, 0.0) && P[0][4] == Tally(1.0, 0.0)
    ensures RowSum(P, 5, 0, 5) == Tally(4.0, 0.0)
  {
    RowStep(P, 0, 1, Zero, Tally(1.0, 0.0));
    RowStep(P, 0, 2, Tally(1.0, 0.0), Tally(2.0, 0.0));
    RowStep(P, 0, 3, Tally(2.0, 0.0), Tally(3.0, 0.0));
    RowStep(P, 0, 4, Tally(3.0, 0.0), Tally(4.0, 0.0));
  }

  lemma WeightedRow1(P: seq<seq<Tally>>)
    requires Square(P, 5)
    requires P[1][2] == Tally(0.5625, 0.0) && P[1][3] == Tally(0.5625, 0.0) && P[1][4] == Tally(0.5625, 0.0)
    ensures RowSum(P, 5, 1, 5) == Tally(1.6875, 0.0)
  {
    RowStep(P, 1, 2, Zero, Tally(0.5625, 0.0));
    RowStep(P, 1, 3, Tally(0.5625, 0.0), Tally(1.125, 0.0));
    RowStep(P, 1, 4, Tally(1.125, 0.0), Tally(1.6875, 0.0));
  }

  lemma WeightedRow2(P: seq<seq<Tally>>)
    requires Square(P, 5)
    requires P[2][3] == Tally(0.0, 0.125) && P[2][4] == Tally(0.0, 0.25)
    ensures RowSum(P, 5, 2, 5) == Tally(0.0, 0.375)
  {
    RowStep(P, 2, 3, Zero, Tally(0.0, 0.125));
    RowStep(P, 2, 4, Tally(0.0, 0.125), Tally(0.0, 0.375));
  }

  lemma WeightedRow3(P: seq<seq<Tally>>)
    requires Square(P, 5)
    requires P[3][4] == Tally(0.0, 0.125)
    ensures RowSum(P, 5, 3, 5) == Tally(0.0, 0.125)
  {
    RowStep(P, 3, 4, Zero, Tally(0.0, 0.125));
  }

  /** `Falling` decreases, so `d_max` over an interval is its first weight. */
  lemma FallingRelation(w: seq<real>, x: int, y: int)
    requires w == Falling && 1 <= x <= 5 && 1 <= y <= 5
    ensures R(Max, w, x, y) == if x < y then w[x - 1] else 0.0
  {
    if x < y {
      var s := Interval(w, x, y);
      assert s[0] == w[x - 1];
      assert forall k :: 0 <= k < |s| ==> s[k] <= s[0];
      assert SeqMax(s) in s;
    }
  }

  /** A pair's contribution under the product t-norm, from its four R values. */
  lemma PairFromRelations(s: Setup, a: seq<int>, b: seq<int>, i: nat, j: nat, aij: real, aji: real, bij: real, bji: real)
    requires Fits(s, a, b) && i < |a| && j < |a| && s.t == Prod && !s.skipTies
    requires R(s.agg, s.w, a[i], a[j]) == aij && R(s.agg, s.w, a[j], a[i]) == aji
    requires R(s.agg, s.w, b[i], b[j]) == bij && R(s.agg, s.w, b[j], b[i]) == bji
    ensures PairTally(s, a, b, i, j) == Tally(aij * bij + aji * bji, aij * bji + aji * bij)
  {
  }

  lemma WeightedPair01(s: Setup, a: seq<int>, b: seq<int>)
    requires s == Test1 && a == Shuffled && b == Ascending
    ensures PairTally(s, a, b, 0, 1) == Tally(1.0, 0.0)
  {
    FallingRelation(s.w, 1, 2);
    FallingRelation(s.w, 2, 1);
    PairFromRelations(s, a, b, 0, 1, 1.0, 0.0, 1.0, 0.0);
  }

  lemma WeightedPair02(s: Setup, a: seq<int>, b: seq<int>)
    requires s == Test1 && a == Shuffled && b == Ascending
    ensures PairTally(s, a, b, 0, 2) == Tally(1.0, 0.0)
  {
    FallingRelation(s.w, 1, 5);
    FallingRelation(s.w, 5, 1);
    FallingRelation(s.w, 1, 3);
    FallingRelation(s.w, 3, 1);
    PairFromRelations(s, a, b, 0, 2, 1.0, 0.0, 1.0, 0.0);
  }

  lemma WeightedPair03(s: Setup, a: seq<int>, b: seq<int>)
    requires s == Test1 && a == Shuffled && b == Ascending
    ensures PairTally(s, a, b, 0, 3) == Tally(1.0, 0.0)
  {
    FallingRelation(s.w, 1, 4);
    FallingRelation(s.w, 4, 1);
    PairFromRelations(s, a, b, 0, 3, 1.0, 0.0, 1.0, 0.0);
  }

  lemma WeightedPair04(s: Setup, a: seq<int>, b: seq<int>)
    requires s == Test1 && a == Shuffled && b == Ascending
    ensures PairTally(s, a, b, 0, 4) == Tally(1.0, 0.0)
  {
    FallingRelation(s.w, 1, 3);
    FallingRelation(s.w, 3, 1);
    FallingRelation(s.w, 1, 5);
    FallingRelation(s.w, 5, 1);
    PairFromRelations(s, a, b, 0, 4, 1.0, 0.0, 1.0, 0.0);
  }

  lemma WeightedPair12(s: Setup, a: seq<int>, b: seq<int>)
    requires s == Test1 && a == Shuffled && b == Ascending
    ensures PairTally(s, a, b, 1, 2) == Tally(0.5625, 0.0)
  {
    FallingRelation(s.w, 2, 5);
    FallingRelation(s.w, 5, 2);
    FallingRelation(s.w, 2, 3);
    FallingRelation(s.w, 3, 2);
    PairFromRelations(s, a, b, 1, 2, 0.75, 0.0, 0.75, 0.0);
  }

  lemma WeightedPair13(s: Setup, a: seq<int>, b: seq<int>)
    requires s == Test1 && a == Shuffled && b == Ascending
    ensures PairTally(s, a, b, 1, 3) == Tally(0.5625, 0.0)
  {
    FallingRelation(s.w, 2, 4);
    FallingRelation(s.w, 4, 2);
    PairFromRelations(s, a, b, 1, 3, 0.75, 0.0, 0.75, 0.0);
  }

  lemma WeightedPair14(s: Setup, a: seq<int>, b: seq<int>)
    requires s == Test1 && a == Shuffled && b == Ascending
    ensures PairTally(s, a, b, 1, 4) == Tally(0.5625, 0.0)
  {
    FallingRelation(s.w, 2, 3);
    FallingRelation(s.w, 3, 2);
    FallingRelation(s.w, 2, 5);
    FallingRelation(s.w, 5, 2);
    PairFromRelations(s, a, b, 1, 4, 0.75, 0.0, 0.75, 0.0);
  }

  lemma WeightedPair23(s: Setup, a: seq<int>, b: seq<int>)
    requires s == Test1 && a == Shuffled && b == Ascending
    ensures PairTally(s, a, b, 2, 3) == Tally(0.0, 0.125)
  {
    FallingRelation(s.w, 5, 4);
    FallingRelation(s.w, 4, 5);
    FallingRelation(s.w, 3, 4);
    FallingRelation(s.w, 4, 3);
    PairFromRelations(s, a, b, 2, 3, 0.0, 0.25, 0.5, 0.0);
  }

  lemma WeightedPair24(s: Setup, a: seq<int>, b: seq<int>)
    requires s == Test1 && a == Shuffled && b == Ascending
    ensures PairTally(s, a, b, 2, 4) == Tally(0.0, 0.25)
  {
    FallingRelation(s.w, 5, 3);
    FallingRelation(s.w, 3, 5);
    PairFromRelations(s, a, b, 2, 4, 0.0, 0.5, 0.5, 0.0);
  }

  lemma WeightedPair34(s: Setup, a: seq<int>, b: seq<int>)
    requires s == Test1 && a == Shuffled && b == Ascending
    ensures PairTally(s, a, b, 3, 4) == Tally(0.0, 0.125)
  {
    FallingRelation(s.w, 4, 3);
    FallingRelation(s.w, 3, 4);
    FallingRelation(s.w, 4, 5);
    FallingRelation(s.w, 5, 4);
    PairFromRelations(s, a, b, 3, 4, 0.0, 0.5, 0.25, 0.0);
  }
}
