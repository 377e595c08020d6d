/** The three revisions of the entry point, each a thin layer over the shared
    engine that differs only in how it resolves weights, which errors it
    raises, and whether it skips tied pairs:

    - the package `gamma_corr`: `weights` is a mode name or an explicit
      vector of `n-1` weights; "uniform" means all ones;
    - the `main` revision of `gamma_corr`: `weights` is a vector or `None`,
      and `None` means `n-1` ones;
    - the legacy `scaled_gamma`: a keyword configuration naming the
      weighting, t-norm and distance, with preset weights computed pointwise
      by `weighter`, and tied pairs skipped.

    The t-norm and aggregator of the package revisions are the closed
    datatypes; the legacy revision selects them by name.
 */
module Revisions {
  import opened Results
  import opened Aggregators
  import opened TNorms
  import opened Weights
  import opened Distances
  import opened Engine
  import opened Rankings
  import opened EngineLaws
  import opened Classical

  // ---------------------------------------------------------------------
  // Package `gamma_corr`

  /** The `weights` argument: a mode name or an explicit vector. */
  datatype WeightArg = Named(mode: string) | Vector(values: seq<real>)

  /** Weight resolution at the top of the package `gamma_corr`. */
  function ResolveWeights(arg: WeightArg, n: nat): (r: Result<seq<real>>)
    ensures r.Failure? <==>
      (arg.Named? && arg.mode != "uniform" && ParseMode(arg.mode).None?) ||
      (arg.Vector? && |arg.values| + 1 != n)
    ensures r.Failure? && arg.Named? ==> r.error == UnknownMode(arg.mode)
    ensures r.Failure? && arg.Vector? ==> r.error == WrongWeightLength(n - 1, |arg.values|)
    ensures r.Success? ==> n <= |r.value| + 1
    ensures r.Success? && arg.Named? ==> InUnit(r.value)
    ensures r.Success? && arg.Vector? ==> r.value == arg.values
    ensures arg == Named("uniform") ==> r == Success(Ones(n))
    ensures arg.Named? && arg.mode != "uniform" ==> r == GenWeights(arg.mode, n)
  {
    match arg
    case Named(mode) =>
      if mode == "uniform" then Success(Ones(n)) else GenWeights(mode, n)
    case Vector(values) =>
      if |values| != n - 1 then Failure(WrongWeightLength(n - 1, |values|))
      else Success(values)
  }

  /** The package `gamma_corr`; tied pairs are evaluated, not skipped. */
  function GammaCorr(a: seq<int>, b: seq<int>, arg: WeightArg, t: TNorm, agg: Aggregator): (r: Result<Option<real>>)
    requires IsRanking(a, |a|) && IsRanking(b, |a|)
    ensures r.Failure? <==> ResolveWeights(arg, |a|).Failure?
    ensures r.Failure? ==> r.error == ResolveWeights(arg, |a|).error
    ensures r.Success? && (arg.Named? || NonNegative(arg.values)) ==>
      r.value.None? || -1.0 <= r.value.value <= 1.0
    ensures r.Success? ==> r.value == Gamma(Setup(t, agg, ResolveWeights(arg, |a|).value, false), a, b)
  {
    match ResolveWeights(arg, |a|)
    case Failure(e) => Failure(e)
    case Success(w) =>
      var s := Setup(t, agg, w, false);
      assert arg.Named? ==> NonNegative(w);
      GammaInRange(s, a, b);
      Success(Gamma(s, a, b))
  }

  /** Exchanging the two rankings leaves the result unchanged. */
  lemma GammaCorrSymmetric(a: seq<int>, b: seq<int>, arg: WeightArg, t: TNorm, agg: Aggregator)
    requires IsRanking(a, |a|) && IsRanking(b, |a|)
    ensures IsRanking(b, |b|) && IsRanking(a, |b|)
    ensures GammaCorr(a, b, arg, t, agg) == GammaCorr(b, a, arg, t, agg)
  {
    var rw := ResolveWeights(arg, |a|);
    if rw.Success? {
      SwapRankings(Setup(t, agg, rw.value, false), a, b);
    }
  }

  /** The default "uniform" weighting gives the classical Goodman-Kruskal
      gamma, whichever t-norm and aggregator are chosen. */
  lemma UniformGammaCorr(a: seq<int>, b: seq<int>, t: TNorm, agg: Aggregator)
    requires IsRanking(a, |a|) && IsRanking(b, |a|)
    ensures GammaCorr(a, b, Named("uniform"), t, agg) == Success(ClassicalGamma(a, b))
  {
    UniformIsClassical(Setup(t, agg, Ones(|a|), false), a, b);
  }

  // ---------------------------------------------------------------------
  // `main` revision of `gamma_corr`

  /** The `main` revision: `None` stands for `np.ones(n - 1)`, which numpy
      rejects for `n = 0`; explicit weights are used as given. */
  function GammaCorrMain(a: seq<int>, b: seq<int>, weights: Option<seq<real>>, t: TNorm, agg: Aggregator): (r: Result<Option<real>>)
    requires IsRanking(a, |a|) && IsRanking(b, |a|)
    requires weights.Some? ==> |a| <= |weights.value| + 1
    ensures r.Failure? <==> weights.None? && |a| == 0
    ensures r.Failure? ==> r.error == NegativeDimension(-1)
    ensures r.Success? && (weights.None? || NonNegative(weights.value)) ==>
      r.value.None? || -1.0 <= r.value.value <= 1.0
    ensures r.Success? && weights.Some? ==> r.value == Gamma(Setup(t, agg, weights.value, false), a, b)
    ensures r.Success? && weights.None? ==> r.value == ClassicalGamma(a, b)
  {
    match weights
    case None =>
      if |a| == 0 then Failure(NegativeDimension(|a| - 1))
      else
        var s := Setup(t, agg, Ones(|a| - 1), false);
        GammaBounded(s, a, b);
        UniformIsClassical(s, a, b);
        Success(Gamma(s, a, b))
    case Some(w) =>
      var s := Setup(t, agg, w, false);
      GammaInRange(s, a, b);
      Success(Gamma(s, a, b))
  }

  /** Given the same `n-1` weights, the two `gamma_corr` revisions agree. */
  lemma RevisionsAgreeOnVectors(a: seq<int>, b: seq<int>, w: seq<real>, t: TNorm, agg: Aggregator)
    requires IsRanking(a, |a|) && IsRanking(b, |a|) && |w| + 1 == |a|
    ensures GammaCorr(a, b, Vector(w), t, agg) == GammaCorrMain(a, b, Some(w), t, agg)
    ensures GammaCorr(a, b, Vector(w), t, agg).Success?
  {
  }

  /** The package default ("uniform", `n` ones) and the `main` default
      (`None`, `n-1` ones) agree, because the last weight is never read;
      they differ only for empty rankings, where `main` fails. */
  lemma RevisionsAgreeOnDefaults(a: seq<int>, b: seq<int>, t: TNorm, agg: Aggregator)
    requires IsRanking(a, |a|) && IsRanking(b, |a|)
    ensures 0 < |a| ==> GammaCorr(a, b, Named("uniform"), t, agg) == GammaCorrMain(a, b, None, t, agg)
    ensures |a| == 0 ==> GammaCorr(a, b, Named("uniform"), t, agg) == Success(None)
    ensures |a| == 0 ==> GammaCorrMain(a, b, None, t, agg).Failure?
  {
    var n := |a|;
    if 0 < n {
      var long := Setup(t, agg, Ones(n), false);
      OnlyGapWeightsRead(long, Ones(n - 1), a, b);
      assert long.(w := Ones(n - 1)) == Setup(t, agg, Ones(n - 1), false);
    } else {
      var s := Setup(t, agg, Ones(0), false);
      assert Total(s, a, b) == Zero;
    }
  }

  // ---------------------------------------------------------------------
  // Legacy `scaled_gamma`

  /** The legacy keyword arguments (after merging with the defaults). */
  datatype Config = Config(weighting: string, tnorm: string, distance: string, weights: seq<real>)

  /** `default_configuration`. */
  const DefaultConfiguration: Config := Config("uniform", "product", "max", [])

  /** The weight logic of `data_prep` for `n` items given as permutations,
      where the `k`-th smallest rank is `k+1` and `weighter` sees
      `x = (k+1)/n`. `Some(w)` gives the weights of the gaps; `None` stands
      for the all-NaN weights an unknown mode leaves behind (`weighter` only
      prints a message and returns `None`). An explicit vector must have
      `n-1` entries. */
  function LegacyWeights(weighting: string, weights: seq<real>, n: nat): (r: Result<Option<seq<real>>>)
    ensures r.Failure? <==> |weights| != 0 && |weights| + 1 != n
    ensures r.Failure? ==> r.error == WrongWeightLength(n - 1, |weights|)
    ensures r.Success? && r.value.Some? ==> n <= |r.value.value| + 1
    ensures r.Success? && r.value.None? <==>
      |weights| == 0 && weighting != "uniform" && ParseMode(weighting).None?
    ensures |weights| == 0 && weighting == "uniform" ==> r == Success(Some(Ones(n)))
    ensures |weights| == 0 && ParseMode(weighting).Some? ==>
      r == Success(Some(GenWeights(weighting, n).value))
    ensures |weights| != 0 && r.Success? ==> r == Success(Some(weights))
  {
    if |weights| == 0 then
      if weighting == "uniform" then Success(Some(Ones(n)))
      else if ParseMode(weighting).None? then Success(None)
      else
        var v := seq(GapCount(n), k requires 0 <= k < GapCount(n) => Weighter(weighting, GapPoint(k, n)).value);
        assert v == GenWeights(weighting, n).value;
        Success(Some(v))
    else if |weights| == n - 1 then Success(Some(weights))
    else Failure(WrongWeightLength(n - 1, |weights|))
  }

  /** The legacy `scaled_gamma`: weights are prepared first, then the t-norm
      and the distance are selected, each step failing on a bad argument;
      tied pairs are skipped.

      With all-NaN weights the two distances part ways. `d_max` returns NaN
      for every untied pair, which makes both sums and the coefficient NaN.
      `d_sum` returns `min(1, nan)`, which is 1 (Python's `min` keeps its
      first argument when the comparison with NaN fails), so every strict
      order value is crisp: the engine runs as with all-one weights.

      The legacy code ranks its inputs with `rankdata`, which gives tied
      items their average rank: fractional for a tie group of even size, an
      integer for one of odd size. On tied ranks the legacy `weighter` is
      evaluated at each row's own rank rather than at the gap points
      `(k+1)/n`, so its weights differ from the ones used here. This
      function is therefore a model of the legacy revision only for
      permutations. On tied ranks it describes the shared engine with tied
      pairs skipped, not what the legacy code computes, and the same holds
      for the lemmas below that relate it to the package revision. */
  function ScaledGamma(a: seq<int>, b: seq<int>, cfg: Config): (r: Result<Option<real>>)
    requires IsRanking(a, |a|) && IsRanking(b, |a|)
    ensures r.Failure? <==>
      LegacyWeights(cfg.weighting, cfg.weights, |a|).Failure? ||
      TNormSelector(cfg.tnorm).Failure? || DistanceSelector(cfg.distance).Failure?
    ensures LegacyWeights(cfg.weighting, cfg.weights, |a|).Failure? ==>
      r == Failure(WrongWeightLength(|a| - 1, |cfg.weights|))
    ensures LegacyWeights(cfg.weighting, cfg.weights, |a|).Success? && TNormSelector(cfg.tnorm).Failure? ==>
      r == Failure(UnknownTNorm(cfg.tnorm))
    ensures (LegacyWeights(cfg.weighting, cfg.weights, |a|).Success? && TNormSelector(cfg.tnorm).Success? &&
             DistanceSelector(cfg.distance).Failure?) ==> r == Failure(UnknownDistance(cfg.distance))
    ensures r.Success? && NonNegative(cfg.weights) ==> r.value.None? || -1.0 <= r.value.value <= 1.0
    ensures r.Success? && LegacyWeights(cfg.weighting, cfg.weights, |a|).value.Some? ==>
      r.value == Gamma(Setup(TNormSelector(cfg.tnorm).value, DistanceSelector(cfg.distance).value,
                             LegacyWeights(cfg.weighting, cfg.weights, |a|).value.value, true), a, b)
    ensures r.Success? && LegacyWeights(cfg.weighting, cfg.weights, |a|).value.None? ==>
      r.value == if DistanceSelector(cfg.distance).value == ClampedSum then ClassicalGamma(a, b) else None
  {
    match LegacyWeights(cfg.weighting, cfg.weights, |a|)
    case Failure(e) => Failure(e)
    case Success(ow) =>
      match TNormSelector(cfg.tnorm)
      case Failure(e) => Failure(e)
      case Success(t) =>
        match DistanceSelector(cfg.distance)
        case Failure(e) => Failure(e)
        case Success(agg) =>
          match ow
          case None =>
            if agg == ClampedSum then
              var s := Setup(t, ClampedSum, Ones(|a|), true);
              GammaBounded(s, a, b);
              UniformIsClassical(s, a, b);
              Success(Gamma(s, a, b))
            else
              Success(None)
          case Some(w) =>
            var s := Setup(t, agg, w, true);
            assert NonNegative(cfg.weights) ==> NonNegative(w);
            GammaInRange(s, a, b);
            Success(Gamma(s, a, b))
  }

  /** With no explicit weights and a known mode (or "uniform"), the legacy
      revision computes exactly what the package revision computes for the
      same mode: its pointwise weights equal `gen_weights`, and skipping tied
      pairs is invisible because every such weight lies in [0,1]. */
  lemma LegacyAgreesOnModes(a: seq<int>, b: seq<int>, cfg: Config, t: TNorm, agg: Aggregator)
    requires IsRanking(a, |a|) && IsRanking(b, |a|)
    requires cfg.weights == [] && (cfg.weighting == "uniform" || ParseMode(cfg.weighting).Some?)
    requires TNormSelector(cfg.tnorm) == Success(t) && DistanceSelector(cfg.distance) == Success(agg)
    ensures ScaledGamma(a, b, cfg) == GammaCorr(a, b, Named(cfg.weighting), t, agg)
    ensures ScaledGamma(a, b, cfg).Success?
  {
    var w := ResolveWeights(Named(cfg.weighting), |a|).value;
    assert LegacyWeights(cfg.weighting, cfg.weights, |a|) == Success(Some(w));
    SkippingTiesChangesNothing(Setup(t, agg, w, false), a, b);
  }

  /** With an explicit vector of `n-1` weights, the legacy and package
      revisions agree whenever skipping ties is invisible (product t-norm,
      clamped sum, or weights in [0,1]). */
  lemma LegacyAgreesOnVectors(a: seq<int>, b: seq<int>, cfg: Config, t: TNorm, agg: Aggregator)
    requires IsRanking(a, |a|) && IsRanking(b, |a|)
    requires |cfg.weights| != 0 && |cfg.weights| + 1 == |a|
    requires TNormSelector(cfg.tnorm) == Success(t) && DistanceSelector(cfg.distance) == Success(agg)
    requires TiesNeutral(Setup(t, agg, cfg.weights, false))
    ensures ScaledGamma(a, b, cfg) == GammaCorr(a, b, Vector(cfg.weights), t, agg)
  {
    SkippingTiesChangesNothing(Setup(t, agg, cfg.weights, false), a, b);
  }

  /** An unknown weighting mode is an error in the package revision. The
      legacy revision carries on with NaN weights: under `d_max` the
      coefficient is undefined (NaN), under `d_sum` it is the classical
      gamma. */
  lemma UnknownModeDiverges(a: seq<int>, b: seq<int>, cfg: Config, t: TNorm, agg: Aggregator)
    requires IsRanking(a, |a|) && IsRanking(b, |a|)
    requires cfg.weights == [] && cfg.weighting != "uniform" && ParseMode(cfg.weighting).None?
    requires TNormSelector(cfg.tnorm) == Success(t) && DistanceSelector(cfg.distance) == Success(agg)
    ensures agg == Max ==> ScaledGamma(a, b, cfg) == Success(None)
    ensures agg == ClampedSum ==> ScaledGamma(a, b, cfg) == Success(ClassicalGamma(a, b))
    ensures GammaCorr(a, b, Named(cfg.weighting), t, agg) == Failure(UnknownMode(cfg.weighting))
  {
  }

  /** The defaults of the legacy revision are the package defaults: uniform
      weights, the product t-norm and `d_max`. */
  lemma LegacyDefaults(a: seq<int>, b: seq<int>)
    requires IsRanking(a, |a|) && IsRanking(b, |a|)
    ensures ScaledGamma(a, b, DefaultConfiguration) == GammaCorr(a, b, Named("uniform"), Prod, Max)
  {
    LegacyAgreesOnModes(a, b, DefaultConfiguration, Prod, Max);
  }
}
