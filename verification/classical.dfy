/** Classical Goodman–Kruskal gamma, defined independently of the weighted
    engine by the signs of rank differences, and the reduction of the
    weighted coefficient to it under uniform weights.
 */
module Classical {
  import opened Results
  import opened Aggregators
  import opened TNorms
  import opened Distances
  import opened Engine
  import opened Rankings
  import opened EngineLaws

  /** A pair counts once as concordant when both rankings order it the same
      way, once as discordant when they disagree, and not at all when tied. */
  function ClassicalPair(a: seq<int>, b: seq<int>, i: nat, j: nat): Tally
    requires i < |a| && j < |a| && |b| == |a|
  {
    if a[i] == a[j] || b[i] == b[j] then Zero
    else if (a[i] < a[j]) == (b[i] < b[j]) then Tally(1.0, 0.0)
    else Tally(0.0, 1.0)
  }

  function ClassicalTable(a: seq<int>, b: seq<int>): (P: seq<seq<Tally>>)
    requires |b| == |a|
    ensures Square(P, |a|)
    ensures forall i, j :: 0 <= i < |a| && 0 <= j < |a| ==> P[i][j] == ClassicalPair(a, b, i, j)
  {
    seq(|a|, i requires 0 <= i < |a| => seq(|a|, j requires 0 <= j < |a| => ClassicalPair(a, b, i, j)))
  }

  /** The numbers of concordant and discordant pairs. */
  function ClassicalTotal(a: seq<int>, b: seq<int>): Tally
    requires |b| == |a|
  {
    SumPairs(ClassicalTable(a, b), |a|)
  }

  /** `(C - D) / (C + D)`, undefined when every pair is tied. */
  function ClassicalGamma(a: seq<int>, b: seq<int>): Option<real>
    requires |b| == |a|
  {
    Ratio(ClassicalTotal(a, b))
  }

  predicate AllOnes(w: seq<real>) {
    forall k :: 0 <= k < |w| ==> w[k] == 1.0
  }

  /** With all-one weights, R is the crisp strict order: 1 when the first rank
      is smaller, 0 otherwise, for either aggregator. */
  lemma UniformRelation(agg: Aggregator, w: seq<real>, x: int, y: int)
    requires AllOnes(w) && 1 <= x <= |w| + 1 && 1 <= y <= |w| + 1
    ensures R(agg, w, x, y) == if x < y then 1.0 else 0.0
  {
    if x < y {
      var s := Interval(w, x, y);
      assert AllOnes(s);
      match agg
      case Max =>
        assert SeqMax(s) in s;
      case ClampedSum =>
        SumOfOnes(s);
    }
  }

  /** Under all-one weights each pair contributes exactly its classical count,
      whatever the t-norm, aggregator or tie handling. */
  lemma UniformPair(s: Setup, a: seq<int>, b: seq<int>, i: nat, j: nat)
    requires Fits(s, a, b) && AllOnes(s.w) && i < |a| && j < |a|
    ensures PairTally(s, a, b, i, j) == ClassicalPair(a, b, i, j)
  {
    UniformRelation(s.agg, s.w, a[i], a[j]);
    UniformRelation(s.agg, s.w, a[j], a[i]);
    UniformRelation(s.agg, s.w, b[i], b[j]);
    UniformRelation(s.agg, s.w, b[j], b[i]);
  }

  /** Uniform weights reduce the weighted coefficient to classical gamma. */
  lemma UniformIsClassical(s: Setup, a: seq<int>, b: seq<int>)
    requires Fits(s, a, b) && AllOnes(s.w)
    ensures Total(s, a, b) == ClassicalTotal(a, b)
    ensures Gamma(s, a, b) == ClassicalGamma(a, b)
  {
    forall i, j | 0 <= i < j < |a|
      ensures PairTable(s, a, b)[i][j] == ClassicalTable(a, b)[i][j]
    {
      UniformPair(s, a, b, i, j);
    }
    SumsAgree(PairTable(s, a, b), ClassicalTable(a, b), |a|);
  }

  /** For two permutations every pair is concordant or discordant, so the two
      counts add up to `n(n-1)/2`. */
  lemma PermutationsCountPairs(a: seq<int>, b: seq<int>)
    requires |b| == |a| && Distinct(a) && Distinct(b)
    ensures 2.0 * (ClassicalTotal(a, b).con + ClassicalTotal(a, b).dis) == (|a| * (|a| - 1)) as real
  {
    SumCountsPairs(ClassicalTable(a, b), |a|);
  }

  /** For two permutations of at least two items classical gamma is defined
      and lies in [-1,1]. */
  lemma ClassicalGammaDefined(a: seq<int>, b: seq<int>)
    requires |b| == |a| && Distinct(a) && Distinct(b) && 2 <= |a|
    ensures ClassicalGamma(a, b).Some?
    ensures -1.0 <= ClassicalGamma(a, b).value <= 1.0
  {
    var P := ClassicalTable(a, b);
    PermutationsCountPairs(a, b);
    assert 2 <= |a| * (|a| - 1) by {
      assert 1 <= |a| - 1;
    }
    assert PairsNonNegative(P, |a|);
    PairSumNonNegative(P, |a|);
    RatioBounded(ClassicalTotal(a, b));
  }
}
