/** Weight vectors: one weight per gap between adjacent ranks.

    The package's `gen_weights` builds the named presets from a cropped
    `linspace`; the legacy `weighter` computes the same shapes pointwise with
    explicit branches. Both are modelled here and related through one closed
    form per preset, `PresetValue`, evaluated at the interior point
    `x = (k+1)/n` of gap `k`.
 */
module Weights {
  import opened Results
  import opened Aggregators
  import TNorms

  /** The named weighting presets (all but "uniform", which callers handle). */
  datatype Preset = Top | Bottom | TopBottom | Middle | TopBottomExp

  /** The mode string each preset is selected by. */
  function ModeName(p: Preset): string {
    match p
    case Top => "top"
    case Bottom => "bottom"
    case TopBottom => "top bottom"
    case Middle => "middle"
    case TopBottomExp => "top bottom exp"
  }

  /** The preset a mode string names, if any. */
  function ParseMode(mode: string): (r: Option<Preset>)
    ensures r.Some? ==> ModeName(r.value) == mode
    ensures r.None? ==> forall p: Preset :: ModeName(p) != mode
  {
    if mode == "top" then Some(Top)
    else if mode == "bottom" then Some(Bottom)
    else if mode == "top bottom" then Some(TopBottom)
    else if mode == "middle" then Some(Middle)
    else if mode == "top bottom exp" then Some(TopBottomExp)
    else None
  }

  lemma ParseModeName(p: Preset)
    ensures ParseMode(ModeName(p)) == Some(p)
  {
  }

  function Abs(x: real): real {
    if x < 0.0 then -x else x
  }

  /** Number of gaps between `n` ranks: `len(linspace(.., n+1)[1:-1])`. */
  function GapCount(n: nat): nat {
    if n == 0 then 0 else n - 1
  }

  /** The interior point `(k+1)/n` of gap `k`. */
  function GapPoint(k: nat, n: nat): (x: real)
    requires k + 1 < n
    ensures 0.0 < x < 1.0
  {
    (k + 1) as real / n as real
  }

  /** The closed form of each preset at a point `x` of (0,1). */
  function PresetValue(p: Preset, x: real): real {
    match p
    case Top => 1.0 - x
    case Bottom => x
    case TopBottom => Abs(1.0 - 2.0 * x)
    case Middle => 1.0 - Abs(1.0 - 2.0 * x)
    case TopBottomExp => 4.0 * (x - 0.5) * (x - 0.5)
  }

  /** `np.linspace(start, stop, n + 1)[1:-1]`: the `n-1` interior points. */
  function CroppedLinspace(start: real, stop: real, n: nat): (r: seq<real>)
    ensures |r| == GapCount(n)
    ensures forall k :: 0 <= k < |r| ==> r[k] == start + (stop - start) * GapPoint(k, n)
  {
    var step := if n == 0 then 0.0 else (stop - start) / n as real;
    var r := seq(GapCount(n), k => (k + 1) as real * step + start);
    assert forall k :: 0 <= k < |r| ==> r[k] == start + (stop - start) * GapPoint(k, n) by {
      forall k | 0 <= k < |r|
        ensures r[k] == start + (stop - start) * GapPoint(k, n)
      {
        ScaledStep(k + 1, stop - start, n);
      }
    }
    r
  }

  lemma ScaledStep(m: nat, d: real, n: nat)
    requires 0 < n
    ensures m as real * (d / n as real) == d * (m as real / n as real)
  {
  }

  /** The body of `gen_weights` for a recognised preset, from the cropped
      `linspace`. */
  function PresetLinspace(p: Preset, n: nat): (r: seq<real>)
    ensures |r| == GapCount(n)
  {
    match p
    case Top => CroppedLinspace(1.0, 0.0, n)
    case Bottom => CroppedLinspace(0.0, 1.0, n)
    case TopBottom =>
      var l := CroppedLinspace(1.0, -1.0, n);
      seq(|l|, k requires 0 <= k < |l| => Abs(l[k]))
    case Middle =>
      var l := CroppedLinspace(1.0, -1.0, n);
      seq(|l|, k requires 0 <= k < |l| => 1.0 - Abs(l[k]))
    case TopBottomExp =>
      var l := CroppedLinspace(0.0, 1.0, n);
      seq(|l|, k requires 0 <= k < |l| => 4.0 * (l[k] - 0.5) * (l[k] - 0.5))
  }

  lemma PresetLinspaceAt(p: Preset, n: nat, k: nat)
    requires k < GapCount(n)
    ensures PresetLinspace(p, n)[k] == PresetValue(p, GapPoint(k, n))
  {
  }

  /** The weights `gen_weights` returns for a recognised preset: the
      preset's closed form at every gap point, a weight in [0,1]. */
  function PresetVector(p: Preset, n: nat): (r: seq<real>)
    ensures |r| == GapCount(n)
    ensures forall k :: 0 <= k < |r| ==> r[k] == PresetValue(p, GapPoint(k, n))
    ensures InUnit(r)
  {
    var v := PresetLinspace(p, n);
    assert forall k :: 0 <= k < |v| ==> v[k] == PresetValue(p, GapPoint(k, n)) && 0.0 <= v[k] <= 1.0 by {
      forall k | 0 <= k < |v|
        ensures v[k] == PresetValue(p, GapPoint(k, n)) && 0.0 <= v[k] <= 1.0
      {
        PresetLinspaceAt(p, n, k);
        PresetInUnit(p, GapPoint(k, n));
      }
    }
    v
  }

  /** Every preset maps (0,1) into [0,1]. */
  lemma PresetInUnit(p: Preset, x: real)
    requires 0.0 < x < 1.0
    ensures 0.0 <= PresetValue(p, x) <= 1.0
  {
    if p == TopBottomExp {
      var y := 2.0 * x - 1.0;
      assert 4.0 * (x - 0.5) * (x - 0.5) == y * y;
      if y >= 0.0 {
        TNorms.MulBounds(y, y);
      } else {
        TNorms.MulBounds(-y, -y);
      }
    }
  }

  /** `gen_weights(mode, n)`: the `n-1` preset weights, or an error naming an
      unknown mode ("uniform" included: callers resolve it themselves). */
  function GenWeights(mode: string, n: nat): (r: Result<seq<real>>)
    ensures r.Failure? <==> ParseMode(mode).None?
    ensures r.Failure? ==> r.error == UnknownMode(mode)
    ensures r.Success? ==> |r.value| == GapCount(n) && InUnit(r.value)
    ensures r.Success? ==> forall k :: 0 <= k < |r.value| ==>
      r.value[k] == PresetValue(ParseMode(mode).value, GapPoint(k, n))
  {
    match ParseMode(mode)
    case None => Failure(UnknownMode(mode))
    case Some(p) =>
      Success(PresetVector(p, n))
  }

  /** `top[k] + bottom[k] = 1`, and `top` is `bottom` read backwards. */
  lemma TopMirrorsBottom(n: nat)
    ensures GenWeights("top", n).Success? && GenWeights("bottom", n).Success?
    ensures var top, bottom := GenWeights("top", n).value, GenWeights("bottom", n).value;
      |top| == |bottom| &&
      (forall k :: 0 <= k < |top| ==> top[k] + bottom[k] == 1.0) &&
      (forall k :: 0 <= k < |top| ==> top[k] == bottom[|bottom| - 1 - k])
  {
    var top, bottom := GenWeights("top", n).value, GenWeights("bottom", n).value;
    forall k | 0 <= k < |top|
      ensures top[k] == bottom[|bottom| - 1 - k]
    {
      MirrorPoint(k, n);
    }
  }

  lemma MirrorPoint(k: nat, n: nat)
    requires k + 1 < n
    ensures GapPoint(n - 2 - k, n) == 1.0 - GapPoint(k, n)
  {
    var nr, m := n as real, (k + 1) as real;
    assert GapPoint(n - 2 - k, n) == (nr - m) / nr;
    assert (nr - m) / nr == nr / nr - m / nr;
    assert nr / nr == 1.0;
  }

  /** `middle[k] = 1 - top_bottom[k]`. */
  lemma MiddleComplementsTopBottom(n: nat)
    ensures GenWeights("middle", n).Success? && GenWeights("top bottom", n).Success?
    ensures var middle, tb := GenWeights("middle", n).value, GenWeights("top bottom", n).value;
      |middle| == |tb| && forall k :: 0 <= k < |middle| ==> middle[k] == 1.0 - tb[k]
  {
  }

  /** `top_bottom_exp[k] = top_bottom[k]^2`, since `4(x-1/2)^2 = (1-2x)^2`. */
  lemma ExpSquaresTopBottom(n: nat)
    ensures GenWeights("top bottom exp", n).Success? && GenWeights("top bottom", n).Success?
    ensures var e, tb := GenWeights("top bottom exp", n).value, GenWeights("top bottom", n).value;
      |e| == |tb| && forall k :: 0 <= k < |e| ==> e[k] == tb[k] * tb[k]
  {
    ExpSquaresPresets(n);
    GenWeightsOfPreset(TopBottomExp, n);
    GenWeightsOfPreset(TopBottom, n);
    assert ModeName(TopBottomExp) == "top bottom exp" && ModeName(TopBottom) == "top bottom";
    assert GenWeights("top bottom exp", n).value == PresetVector(TopBottomExp, n);
    assert GenWeights("top bottom", n).value == PresetVector(TopBottom, n);
  }

  /** `gen_weights` of a preset's own name is that preset's vector. */
  lemma GenWeightsOfPreset(p: Preset, n: nat)
    ensures GenWeights(ModeName(p), n) == Success(PresetVector(p, n))
  {
    ParseModeName(p);
  }

  lemma ExpSquaresPresets(n: nat)
    ensures var e, tb := PresetVector(TopBottomExp, n), PresetVector(TopBottom, n);
      |e| == |tb| && forall k :: 0 <= k < |e| ==> e[k] == tb[k] * tb[k]
  {
    var e, tb := PresetVector(TopBottomExp, n), PresetVector(TopBottom, n);
    forall k | 0 <= k < |e|
      ensures e[k] == tb[k] * tb[k]
    {
      ExpSquaresTopBottomAt(GapPoint(k, n));
    }
  }

  lemma ExpSquaresTopBottomAt(x: real)
    ensures PresetValue(TopBottomExp, x) == PresetValue(TopBottom, x) * PresetValue(TopBottom, x)
  {
    var y := 1.0 - 2.0 * x;
    assert 4.0 * (x - 0.5) * (x - 0.5) == y * y;
    assert Abs(y) * Abs(y) == y * y;
  }

  /** The legacy `weighter` after it has computed `x = rank / n`: `None` for
      the last rank (x = 1), for x beyond 1, and for an unknown mode (which it
      reports with a message); otherwise the preset's value, written as the
      Python code's explicit branches. */
  function Weighter(mode: string, x: real): (r: Option<real>)
    ensures r.Some? <==> ParseMode(mode).Some? && x < 1.0
    ensures r.Some? ==> r.value == PresetValue(ParseMode(mode).value, x)
  {
    if x == 1.0 then None
    else if mode == "top bottom" then
      if x <= 0.5 then Some(1.0 - 2.0 * x)
      else if x < 1.0 && x > 0.5 then Some(2.0 * x - 1.0)
      else None
    else if mode == "top" then
      if x < 1.0 then Some(1.0 - x) else None
    else if mode == "bottom" then
      if x < 1.0 then Some(x) else None
    else if mode == "middle" then
      if x <= 0.5 then Some(2.0 * x)
      else if x < 1.0 && x > 0.5 then Some(2.0 - 2.0 * x)
      else None
    else if mode == "top bottom exp" then
      if x < 1.0 then Some(4.0 * (x - 0.5) * (x - 0.5)) else None
    else None
  }

  /** `top` and `bottom` sum to 1, as do `top bottom` and `middle`; the last
      rank has no weight. */
  lemma WeighterComplements(x: real)
    requires x < 1.0
    ensures Weighter("top", x).value + Weighter("bottom", x).value == 1.0
    ensures Weighter("top bottom", x).value + Weighter("middle", x).value == 1.0
    ensures forall mode :: Weighter(mode, 1.0) == None
  {
  }

  /** `np.ones(n)`. */
  function Ones(n: nat): (r: seq<real>)
    ensures |r| == n
    ensures forall k :: 0 <= k < n ==> r[k] == 1.0
  {
    seq(n, _ => 1.0)
  }
}
