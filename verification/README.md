# Weighted fuzzy Goodman–Kruskal gamma, in Dafny

This project models the weighted rank correlation of Henzgen and Hüllermeier
("Weighted Rank Correlation: A Flexible Approach Based on Fuzzy Order
Relations", ECML PKDD 2015) as the `gamma_correlation` repository computes it.
It then proves properties of the model.

Two rankings of `n` items are compared pair by pair. A weight vector `w` has
one entry per gap between adjacent ranks. The strict fuzzy order relation
`R(x, y)` is 0 unless rank `x` precedes rank `y`. Otherwise it aggregates the
gap weights between the two ranks, either as their maximum (`d_max`,
eq. 11) or as their sum clamped at 1 (`d_sum`, eq. 12). For every pair, a
t-norm (product or Łukasiewicz) combines the four relation values into a
concordance sum and a discordance sum. The coefficient is
`(con - dis) / (con + dis)`, undefined (NaN) when both sums are zero.

The modules follow the repository:

- `Results`: `Option`, `Result` and the error conditions.
- `Aggregators`: the slice aggregators of `weights.py` and `weights_slice_aggregators.py`.
- `TNorms`: `tnorms.py`, `norms.py`, the legacy t-norm functions and `tnorm_selector`.
- `Weights`: `gen_weights`, its cropped `linspace`, and the legacy pointwise `weighter`.
- `Distances`: `d_max`, `d_sum`, R and `distance_selector`.
- `Rankings`: what a ranking of `n` items is, shared by the engine and `Util`.
- `Engine` and `EngineLaws`: the pair loop shared by every revision, and its laws.
- `Classical`: classical gamma, used as an independent reference definition.
- `Revisions`: three entry points and the lemmas that relate them.
  - `gamma_corr` of the package (`Revisions.GammaCorr`);
  - `gamma_corr` of `main.py` (`Revisions.GammaCorrMain`);
  - the legacy root `scaled_gamma` (`Revisions.ScaledGamma`).
- `Accumulate`: the in-place double loop as a method.
- `Fixtures`: the fixed cases of the test suite, as exact values.
- `Util`: `to_ranking` and `to_ordering`.

Numbers are exact `real`s. Ranks are the integers 1..n, and ties are allowed.
A NaN result is `None`. A raised exception or a `sys.exit` is a `Failure`
that carries the reason.

## Model

| member | source | states |
|---|---|---|
| Aggregators.AggClampedSum | gamma_correlation/weights_slice_aggregators.py:4-11 | never above 1; equals the slice's sum when that is at most 1 and 1 otherwise; non-negative for non-negative weights (`weight_agg_clamped_sum` in weights.py:23-30 is the same function) |
| Aggregators.AggMax | gamma_correlation/weights_slice_aggregators.py:14-21 | fails exactly on an empty slice; otherwise returns an element of the slice that bounds every element |
| Aggregators.WeightAggMax | gamma_correlation/weights.py:33-40 | `max(initial=0)`: non-negative, bounds every element, is 0 or an element, and is 0 on an empty slice |
| Aggregators.Aggregate | gamma_correlation/weights_slice_aggregators.py:4-21 | under the maximum, the value `agg_max` returns; under the clamped sum, the slice's sum when that is at most 1 and 1 otherwise; non-negative for non-negative weights and at most 1 for weights in [0,1] |
| Aggregators.MaxAtMostClampedSum | gamma_correlation/weights_slice_aggregators.py:4-21 | for weights in [0,1], the maximum of a non-empty slice never exceeds its clamped sum |
| Aggregators.MaximaAgree | gamma_correlation/weights.py:33-40 | on a non-empty slice of non-negative weights, `max(initial=0)`, plain `max` and `agg_max` give the same value |
| Aggregators.WiderSliceNeverDecreases | gamma_correlation/weights.py:23-40 | with non-negative weights, widening the slice never lowers the clamped sum or either maximum |
| TNorms.Norm | gamma_correlation/tnorms.py:1-13 | the t-norm is non-negative on non-negative arguments (Łukasiewicz always); the product of two positive values is positive |
| TNorms.Conorm | scaled_gamma.py:106-131 | the co-norm `a+b-ab` or `min(a+b, 1)`: on [0,1] it lies between the larger argument and 1; the Łukasiewicz co-norm is at most 1 everywhere and non-negative on non-negative arguments (the product co-norm is not: `3+3-9 < 0`) |
| TNorms.ProductConormNegative | scaled_gamma.py:106-117 | outside [0,1] the product co-norm can be negative (`3+3-9`), while the Łukasiewicz co-norm stays capped at 1 |
| TNorms.TNormSelector | scaled_gamma.py:133-148 | selects the family whose name is `mode`; fails with `UnknownTNorm(mode)` exactly when no family has that name |
| TNorms.SelectorRoundTrip | scaled_gamma.py:133-148 | selecting a family by its own name gives that family back |
| TNorms.Commutative | gamma_correlation/norms.py:1-10 | t-norm and co-norm are symmetric in their arguments |
| TNorms.Boundary | gamma_correlation/norms.py:1-10 | on [0,1], 1 is neutral and 0 absorbing for the t-norm, and 0 is neutral for the co-norm |
| TNorms.ClosedOnUnit | gamma_correlation/norms.py:1-10 | both t-norms and both co-norms map [0,1]² into [0,1] |
| TNorms.Monotone | scaled_gamma.py:97-131 | on [0,1] the t-norm and the co-norm are non-decreasing in each argument |
| TNorms.Associative | gamma_correlation/tnorms.py:1-13 | on [0,1] both t-norms are associative; the Łukasiewicz triple is `max(a+b+c-2, 0)` |
| TNorms.NormsOrdered | gamma_correlation/tnorms.py:1-13 | on [0,1], Łukasiewicz ≤ product ≤ minimum |
| TNorms.DeMorgan | gamma_correlation/norms.py:1-10 | each co-norm is the De Morgan dual of its t-norm under `x ↦ 1-x`, in both directions |
| TNorms.NormBelowConorm | scaled_gamma.py:97-131 | on [0,1], t-norm ≤ min ≤ max ≤ co-norm |
| Weights.ParseMode | gamma_correlation/scaled_gamma.py:14-26 | a recognised mode string names the preset whose name it is; otherwise no preset has that name |
| Weights.ParseModeName | gamma_correlation/scaled_gamma.py:14-24 | parsing a preset's own name gives that preset back |
| Weights.CroppedLinspace | gamma_correlation/scaled_gamma.py:11-12 | `n-1` points (none for `n = 0`); point `k` is `start + (stop-start)(k+1)/n` |
| Weights.GenWeights | gamma_correlation/scaled_gamma.py:10-26 | fails with `UnknownMode` exactly for an unknown mode; otherwise `n-1` weights in [0,1], where weight `k` is the preset's closed form at `(k+1)/n` |
| Weights.PresetVector | gamma_correlation/weights.py:8-18 | each preset vector has `n-1` entries in [0,1] and matches its closed form at every gap |
| Weights.GenWeightsOfPreset | gamma_correlation/weights.py:4-20 | `gen_weights` of a preset's own name succeeds with that preset's vector |
| Weights.PresetInUnit | gamma_correlation/scaled_gamma.py:14-24 | every preset maps (0,1) into [0,1] |
| Weights.TopMirrorsBottom | gamma_correlation/scaled_gamma.py:15-18 | "top" plus "bottom" is 1 at every gap, and "top" is "bottom" reversed |
| Weights.MiddleComplementsTopBottom | gamma_correlation/scaled_gamma.py:19-22 | "middle" is 1 minus "top bottom" at every gap |
| Weights.ExpSquaresTopBottom | gamma_correlation/scaled_gamma.py:19-24 | "top bottom exp" is the square of "top bottom" at every gap |
| Weights.Weighter | scaled_gamma.py:6-39 | the branches give a weight exactly for a known mode and `x < 1`, and that weight is the same closed form `gen_weights` uses |
| Weights.WeighterComplements | scaled_gamma.py:15-37 | below 1, "top" and "bottom" add up to 1, as do "top bottom" and "middle"; the last rank (`x = 1`) has no weight in any mode |
| Weights.Ones | gamma_correlation/scaled_gamma.py:35 | `np.ones(n)`, the "uniform" weights of the package and the default of `main.py`: `n` entries, each 1 |
| Distances.DMax | gamma_correlation/distances.py:1-12 | fails (empty `max`) exactly when the two ranks are equal; otherwise bounds every weight between the ranks and equals one of them |
| Distances.DSum | gamma_correlation/distances.py:15-27 | `min(1, s)` where `s` sums the gap weights between the two ranks: `s` when at most 1, 1 otherwise; 0 for equal ranks; non-negative for non-negative weights |
| Distances.IntervalSplit | gamma_correlation/distances.py:24-27 | the gaps from rank `x` to rank `y` are those from `x` to `m` followed by those from `m` to `y`, so their sums add |
| Distances.DSumTriangle | gamma_correlation/distances.py:15-27 | with non-negative weights `d_sum` obeys the triangle inequality through any third item, as a pseudo-metric (eq. 12) must |
| Distances.R | scaled_gamma.py:41-57 | non-zero only when the first rank is smaller; non-negative for non-negative weights; at most 1 under the clamped sum or weights in [0,1] |
| Distances.Antisymmetric | scaled_gamma.py:41-57 | at most one direction of R is non-zero, and R of equal ranks is 0 |
| Distances.PositiveWhenOrdered | scaled_gamma.py:41-57 | with positive weights, R is positive exactly when the first rank is smaller |
| Distances.RIsDistance | gamma_correlation/main.py:21-22 | when the first rank is smaller, R is `d_max` or `d_sum` of the two items |
| Distances.DistancesSymmetric | gamma_correlation/distances.py:1-27 | both distances are symmetric in the two items |
| Distances.DistancesReadOnlyInterval | gamma_correlation/distances.py:1-27 | both distances depend only on the weights of the gaps between the two ranks |
| Distances.AdjacentRanks | gamma_correlation/distances.py:1-27 | for adjacent ranks both distances are the single gap weight, clamped at 1 for the sum |
| Distances.MaxAtMostSum | gamma_correlation/distances.py:1-27 | for weights in [0,1], `d_max ≤ d_sum` |
| Distances.DistanceSelector | scaled_gamma.py:83-95 | 'max' selects eq. 11 and 'sum' eq. 12; any other name fails with `UnknownDistance` |
| Distances.DistanceSelectorRoundTrip | scaled_gamma.py:83-95 | selecting an aggregator by its own name gives it back |
| Engine.PairTally | gamma_correlation/scaled_gamma.py:41-47 | with non-negative weights a pair adds non-negative amounts to `con` and `dis`; when tied pairs are skipped, a tied pair adds nothing |
| Engine.Total | gamma_correlation/scaled_gamma.py:39-47 | with non-negative weights the final `con` and `dis` are non-negative; with fewer than two items both are 0 |
| Engine.Ratio | gamma_correlation/scaled_gamma.py:49-52 | undefined exactly when `con + dis = 0`; otherwise the value times `con + dis` is `con - dis` |
| Engine.Gamma | gamma_correlation/scaled_gamma.py:49-52 | undefined exactly when the final `con + dis` is 0, otherwise the value times `con + dis` is `con - dis`; undefined for fewer than two items |
| Engine.SumsAgree | gamma_correlation/scaled_gamma.py:39-47 | tables that agree on every pair `i < j` have equal sums |
| Engine.PairSumNonNegative | gamma_correlation/scaled_gamma.py:39-47 | non-negative per-pair contributions give non-negative `con` and `dis` |
| Engine.SumZero | gamma_correlation/scaled_gamma.py:39-47 | if no pair adds to `dis` (or to `con`), that sum is 0 |
| Engine.SumPositive | gamma_correlation/scaled_gamma.py:39-47 | with non-negative contributions, one pair with positive `con` (or `dis`) makes that sum positive |
| Engine.SumCountsPairs | gamma_correlation/scaled_gamma.py:40-47 | if every pair adds exactly 1 to `con + dis`, the sums count the `n(n-1)/2` pairs |
| EngineLaws.RatioBounded | gamma_correlation/scaled_gamma.py:49-52 | for non-negative sums: undefined exactly when both are 0, otherwise in [-1,1]; exactly 1 without discordance and -1 without concordance |
| EngineLaws.GammaBounded | gamma_correlation/scaled_gamma.py:39-52 | with non-negative weights, both sums are non-negative and the coefficient is undefined exactly when both are 0, otherwise in [-1,1] |
| EngineLaws.SwapRankings | gamma_correlation/scaled_gamma.py:39-52 | swapping the two rankings changes neither sum nor the coefficient |
| EngineLaws.OnlyGapWeightsRead | gamma_correlation/scaled_gamma.py:34-47 | two weight vectors that agree on the `n-1` gaps give the same sums, so the extra last weight of `np.ones(n)` is never read |
| EngineLaws.TiedPairContributesNothing | scaled_gamma.py:225-230 | under the product t-norm, the clamped sum or weights in [0,1], a pair tied in either ranking adds nothing even when it is evaluated |
| EngineLaws.PairSymmetric | gamma_correlation/scaled_gamma.py:40-47 | a pair contributes the same whichever item is listed first |
| EngineLaws.SkippingTiesChangesNothing | scaled_gamma.py:222-234 | under the same conditions, skipping tied pairs leaves the sums and the coefficient unchanged |
| EngineLaws.IdenticalRankings | gamma_correlation/scaled_gamma.py:39-52 | a ranking against itself has no discordance, so the coefficient is undefined or 1 |
| EngineLaws.IdenticalPositiveWeights | gamma_correlation/scaled_gamma.py:39-52 | with the product t-norm and positive weights, a permutation of at least two items against itself gives exactly 1 |
| EngineLaws.ReversedRankings | gamma_correlation/scaled_gamma.py:39-52 | a ranking against its reverse has no concordance (when ties are neutral), so the coefficient is undefined or -1 |
| EngineLaws.ReversedPairNotConcordant | gamma_correlation/scaled_gamma.py:41-46 | for a ranking and its reverse, every pair adds nothing to `con` (when ties are neutral) |
| EngineLaws.ReversedPositiveWeights | gamma_correlation/scaled_gamma.py:39-52 | with the product t-norm and positive weights, a permutation against its reverse gives exactly -1 |
| Classical.UniformIsClassical | gamma_correlation/scaled_gamma.py:34-52 | with all-one weights the sums and the coefficient are those of classical Goodman–Kruskal gamma, for every t-norm and aggregator |
| Classical.PermutationsCountPairs | gamma_correlation/scaled_gamma.py:40 | for two permutations, concordant plus discordant pairs number `n(n-1)/2` |
| Classical.ClassicalGammaDefined | gamma_correlation/scaled_gamma.py:49-52 | for two permutations of at least two items, classical gamma is defined and in [-1,1] |
| Revisions.ResolveWeights | gamma_correlation/scaled_gamma.py:34-37 | fails exactly for an unknown mode name or a vector whose length is not `n-1`, with the matching error; "uniform" gives `n` ones; another name gives `gen_weights` of that mode, in [0,1] and covering every gap; a vector is used as given |
| Revisions.GammaCorr | gamma_correlation/scaled_gamma.py:29-52 | fails exactly when weight resolution fails, with its error; otherwise returns the engine's coefficient for the resolved weights with tied pairs evaluated, which is undefined or in [-1,1] for named or non-negative weights |
| Revisions.GammaCorrSymmetric | gamma_correlation/scaled_gamma.py:29-52 | swapping the two rankings leaves the result unchanged, error or value |
| Revisions.UniformGammaCorr | gamma_correlation/scaled_gamma.py:29-35 | the default "uniform" weighting gives classical Goodman–Kruskal gamma for every t-norm and distance |
| Revisions.GammaCorrMain | gamma_correlation/main.py:11-30 | fails exactly when weights are defaulted and `n = 0` (`np.ones(-1)`); defaulted weights give classical gamma; explicit weights give the engine's coefficient for them; undefined or in [-1,1] for defaulted or non-negative weights |
| Revisions.RevisionsAgreeOnVectors | gamma_correlation/main.py:11-30 | given the same `n-1` weights, the package and `main.py` revisions return the same result |
| Revisions.RevisionsAgreeOnDefaults | gamma_correlation/main.py:16-17 | the default `np.ones(n)` and `np.ones(n-1)` give the same result for `n > 0`; for `n = 0` the package returns NaN and `main.py` fails |
| Revisions.LegacyWeights | scaled_gamma.py:177-190 | fails exactly for an explicit vector whose length is not `n-1`; all-NaN weights exactly for an unknown mode; ones for "uniform"; `gen_weights` of the mode for a known mode; the explicit vector otherwise |
| Revisions.ScaledGamma | scaled_gamma.py:193-234 | fails exactly when the weights, the t-norm or the distance is rejected, with the first stage's error; otherwise the engine's coefficient for the prepared weights with tied pairs skipped, except that NaN weights give NaN under `d_max` and classical gamma under `d_sum` (whose `min(1, nan)` is 1); undefined or in [-1,1] for non-negative explicit weights |
| Revisions.LegacyAgreesOnModes | scaled_gamma.py:177-184 | with no explicit weights and a known mode or "uniform", the legacy result equals the package's for the same mode |
| Revisions.LegacyAgreesOnVectors | scaled_gamma.py:185-187 | with `n-1` explicit weights and neutral ties, the legacy result equals the package's |
| Revisions.UnknownModeDiverges | scaled_gamma.py:35-81 | an unknown mode is an `UnknownMode` error in the package; the legacy revision gives NaN under `d_max` and classical gamma under `d_sum` |
| Revisions.LegacyDefaults | scaled_gamma.py:150-156 | the legacy defaults compute the package default: uniform weights, product t-norm, `d_max` |
| Accumulate.SumInOrder | gamma_correlation/scaled_gamma.py:39-47 | the nested loop in `combinations` order ends with exactly the pair sums |
| Accumulate.Correlate | gamma_correlation/scaled_gamma.py:39-52 | the loop's `con` and `dis` are the engine's sums; the result is undefined exactly when `con + dis = 0` and otherwise solves `r (con + dis) = con - dis` |
| Fixtures.Uncorrelated | tests/test_scaled_gamma.py:14-18 | `[1..5]` against `[5..1]` with defaults gives exactly -1 |
| Fixtures.Identical | tests/test_scaled_gamma.py:21-23 | `[1..5]` against itself with defaults gives exactly 1 |
| Fixtures.IdenticalWeighted | tests/test_scaled_gamma.py:26-28 | `[1..5]` against itself gives exactly 1 for any four positive weights |
| Fixtures.WeightedSums | tests/test_scaled_gamma.py:31-35 | `[1,2,5,4,3]` against `[1..5]` with weights `linspace(1, .25, 4)` gives `con = 91/16` and `dis = 1/2` |
| Fixtures.Weighted | tests/test_scaled_gamma.py:31-35 | the same call returns exactly `83/99` (0.838383…) |
| Util.ArgSort | gamma_correlation/util.py:4-5 | lists every index of the row once, in ascending order of value, equal values by index |
| Util.InsertSorted | gamma_correlation/util.py:4-5 | inserting an index into a sorted index list keeps it sorted |
| Util.ConvertRow | gamma_correlation/util.py:4-9 | `argsort + 1` of any row is a permutation of `1..n` |
| Util.ToRanking | gamma_correlation/util.py:4-5 | one output row per input row, each a permutation of `1..n` for that row's length |
| Util.ToOrdering | gamma_correlation/util.py:8-9 | one output row per input row, each a permutation of `1..n` for that row's length |
| Util.ConvertSorts | gamma_correlation/util.py:4-9 | the converted row lists positions in ascending order of the values held there |
| Util.ConvertListsValues | gamma_correlation/util.py:4-5 | on a permutation, entry `m` of the converted row is the position holding `m+1` |
| Util.ConvertInverts | gamma_correlation/util.py:4-5 | on a permutation, the result is again a permutation and is its inverse, in both directions |
| Util.ConvertRoundTrip | gamma_correlation/util.py:4-9 | converting a permutation row twice gives it back |
| Util.RoundTrip | gamma_correlation/util.py:4-9 | on matrices of permutation rows, `to_ordering` undoes `to_ranking` and `to_ranking` undoes `to_ordering` |
| Util.RowWise | gamma_correlation/util.py:4-9 | each output row depends only on the input row with the same index |

## Left out

- Floating point: every quantity is an exact real.
  - `approx` in the test is replaced by the exact value 83/99.
  - `con + dis = 0` with `con ≠ 0` is possible only with negative weights. The model gives `None` there, as for 0/0, in every revision.
    - The legacy `scaled_gamma` guards only the 0/0 case. Its numba-compiled distances return Python floats, so this division raises `ZeroDivisionError`, which nothing catches.
    - The package `gamma_corr` catches `ZeroDivisionError` and returns NaN. Whether the division raises or gives ±inf depends on the numeric type its `R` returns, and `R` is not defined in the repository.
- `scipy.stats.rankdata` and the row sorting in the legacy `data_prep` are not modelled. The model takes dense integer ranks as given.
  - The row reordering only renumbers items. `EngineLaws.PairSymmetric` shows that a pair's contribution does not depend on the order of its two items.
  - Re-indexing the whole pair sum under a relabelling of items is not proved.
  - Under ties, `rankdata` gives tied items their average rank. That rank is fractional for a tie group of even size, and the legacy code truncates it with `int`. It is an integer for a group of odd size: `[5,5,5,9]` ranks as `[2,2,2,4]`.
  - On tied input the legacy `weighter` is evaluated at each row's own rank, so its weights differ from the gap-point weights. The model of the legacy revision therefore covers permutations only.
- The legacy `weighter` is evaluated at `x = (k+1)/n` for gap `k`. This is what it sees on permutation input after `data_prep` sorts the rows. The weight of the last row (`x = 1`, NaN) is never read, so it is left out.
- The legacy `data_prep` appends NaN to the caller's list (an in-place mutation). It also builds a second weight column from the second ranking, which equals the first on permutation input. Both are left out.
- The legacy `ties` counter and its co-norm term are computed but never returned, so they are not modelled.
- Printed messages, `sys.exit` codes, the `__main__` blocks, `numba.jit`, `pytest` seeding and the randomised tests (`test_2` onward) are not modelled.
- Inconsistent module wiring (imports of names the repository's modules do not define) is not modelled. Each revision is modelled from its own body.
- The preconditions (`IsRanking`) exclude rankings of different lengths and ranks outside `1..n`.
  - Indexing a second ranking shorter than the first raises `IndexError`.
  - numpy clamps a slice end beyond the weight vector, so a rank above `n` silently reads a shorter slice of weights. An empty slice then fails in `max`.
  - A rank below 1 gives a negative slice start, which counts from the end of the vector.
- `GammaCorrMain`: explicit weights must cover every gap (`|a| ≤ |w| + 1`). `main.py` checks no length, and it calls `d` with an argument list that no distance function in the repository accepts, so a short vector's outcome is not determined by the code.
- `Accumulate.Correlate`: computes the table of pair contributions first and then runs the in-order loop over it, instead of evaluating R inside the loop.
- `Util.ArgSort`: models a stable sort. numpy's default `argsort` kind does not promise any order among equal values. On rows without repeated values (the intended input) the result is the same.
