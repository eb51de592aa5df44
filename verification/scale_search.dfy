/** `_compute_best_scale`: a 20-point grid over the exponent `ratio`. Each
    point builds per-channel scales from the activation and weight means,
    fake-quantizes the scaled weights of every layer, scores the module with
    them and reloads the weights from a snapshot taken before the loop. The
    scales with the strictly smallest finite loss win. `x.pow(e)`, `sqrt`
    and the scored forward pass are parameters: their floating-point
    behaviour is not modelled, and the scored pass may raise. Whether the
    snapshot is a copy depends on the device the block lives on. */
module ScaleSearch {
  import opened Wrappers
  import opened Rounding
  import opened Seqs
  import opened Selection
  import opened PseudoQuant
  import RealArith

  /** `n_grid`. */
  const GridPoints: nat := 20

  /** The exponent tried at grid point `k`: `k / n_grid`. */
  function Ratio(k: nat): (r: real)
    requires k < GridPoints
    ensures 0.0 <= r < 1.0 && r * GridPoints as real == k as real
  {
    k as real / GridPoints as real
  }

  /** The floor both pre-scale formulas clamp to (`clamp(min=1e-4)`), also
      the offset added to the weight term. */
  const MinScale: real := 0.0001

  /** `x_mean.pow(ratio) / (w_mean.pow(1 - ratio) + 1e-4)` with duo scaling,
      `x_mean.pow(ratio)` without, clamped below at 1e-4. An infinite or NaN
      power stays non-finite through the clamp. */
  function PreScale(duo: bool, x: real, w: real, ratio: real, pow: (real, real) -> Float): (s: Float)
    ensures s.Finite? ==> s.v >= MinScale
    ensures !duo ==> (s.Finite? <==> pow(x, ratio).Finite?)
    ensures !duo && s.Finite? ==> s.v == ClampBelow(pow(x, ratio).v, MinScale)
  {
    if duo then
      match (pow(x, ratio), pow(w, 1.0 - ratio))
      case (Finite(a), Finite(b)) =>
        if b + MinScale == 0.0 then NonFinite else Finite(ClampBelow(a / (b + MinScale), MinScale))
      case _ => NonFinite
    else
      match pow(x, ratio)
      case Finite(a) => Finite(ClampBelow(a, MinScale))
      case NonFinite => NonFinite
  }

  /** `sqrt` returns a positive root of a positive argument. */
  ghost predicate PositiveRoot(sqrt: real -> real) {
    forall x :: x > 0.0 ==> sqrt(x) > 0.0
  }

  predicate AllFinite(s: seq<Float>) {
    forall c :: 0 <= c < |s| ==> s[c].Finite?
  }

  /** The finite pre-scales as reals. */
  function Values(s: seq<Float>): (v: seq<real>)
    requires AllFinite(s)
    ensures |v| == |s| && forall c :: 0 <= c < |s| ==> v[c] == s[c].v
  {
    seq(|s|, c requires 0 <= c < |s| => s[c].v)
  }

  /** The normalising divisor `sqrt(scales.max() * scales.min())`. */
  function Divisor(v: seq<real>, sqrt: real -> real): (d: real)
    requires |v| > 0 && PositiveRoot(sqrt)
    requires forall c :: 0 <= c < |v| ==> v[c] >= MinScale
    ensures d > 0.0
  {
    MinAtLeast(v, MinScale);
    assert Max(v) >= v[0] >= MinScale;
    RealArith.PositiveProduct(Max(v), Min(v));
    sqrt(Max(v) * Min(v))
  }

  /** `scales / (scales.max() * scales.min()).sqrt()`. No channels fails the
      reduction. A non-finite pre-scale makes the maximum non-finite, and the
      whole vector is then treated as non-finite. */
  function Normalise(pre: seq<Float>, sqrt: real -> real): (r: Result<seq<Float>>)
    requires PositiveRoot(sqrt)
    requires forall c :: 0 <= c < |pre| && pre[c].Finite? ==> pre[c].v >= MinScale
    ensures r.Err? <==> |pre| == 0
    ensures r.Ok? ==> |r.value| == |pre|
    ensures r.Ok? ==> (AllFinite(r.value) <==> AllFinite(pre))
    ensures r.Ok? && AllFinite(pre) ==> forall c :: 0 <= c < |pre| ==> r.value[c].v > 0.0
  {
    if |pre| == 0 then Err(EmptyTensor)
    else if !AllFinite(pre) then
      var all := NonFiniteVector(|pre|);
      assert all[0].NonFinite?;
      Ok(all)
    else
      var v := Values(pre);
      var d := Divisor(v, sqrt);
      Ok(seq(|pre|, c requires 0 <= c < |pre| => Finite(v[c] / d)))
  }

  /** With finite pre-scales, normalising divides each one by the divisor. */
  lemma NormaliseDivides(pre: seq<Float>, sqrt: real -> real)
    requires PositiveRoot(sqrt)
    requires |pre| > 0 && AllFinite(pre) && forall c :: 0 <= c < |pre| ==> pre[c].v >= MinScale
    ensures Normalise(pre, sqrt).Ok? && AllFinite(Normalise(pre, sqrt).value)
    ensures Values(Normalise(pre, sqrt).value) == Divided(Values(pre), Divisor(Values(pre), sqrt))
  {
  }

  /** With an exact square root the normalised scales are balanced around 1:
      their largest times their smallest is 1. */
  lemma NormaliseBalanced(pre: seq<Float>, sqrt: real -> real)
    requires PositiveRoot(sqrt)
    requires |pre| > 0 && AllFinite(pre) && forall c :: 0 <= c < |pre| ==> pre[c].v >= MinScale
    requires var v := Values(pre); RealArith.SquareOf(Divisor(v, sqrt), Max(v), Min(v))
    ensures Normalise(pre, sqrt).Ok? && AllFinite(Normalise(pre, sqrt).value)
    ensures var out := Values(Normalise(pre, sqrt).value); RealArith.Reciprocal(Max(out), Min(out))
  {
    NormaliseDivides(pre, sqrt);
    var v := Values(pre);
    assert forall c :: 0 <= c < |v| ==> v[c] >= MinScale;
    Balanced(v, Divisor(v, sqrt));
  }

  lemma Balanced(v: seq<real>, d: real)
    requires |v| > 0 && d > 0.0 && RealArith.SquareOf(d, Max(v), Min(v))
    ensures RealArith.Reciprocal(Max(Divided(v, d)), Min(Divided(v, d)))
  {
    DividedExtremes(v, d);
    RealArith.UnitProduct(Max(v), Min(v), d, Max(Divided(v, d)), Min(Divided(v, d)));
  }

  function NonFiniteVector(n: nat): (r: seq<Float>)
    ensures |r| == n && forall c :: 0 <= c < n ==> r[c].NonFinite?
  {
    if n == 0 then [] else NonFiniteVector(n - 1) + [NonFinite]
  }

  /** `scales[isinf] = 1; scales[isnan] = 1`. */
  function ResetNonFinite(s: seq<Float>): (r: seq<real>)
    ensures |r| == |s|
    ensures forall c :: 0 <= c < |s| ==> (s[c].Finite? ==> r[c] == s[c].v) && (s[c].NonFinite? ==> r[c] == 1.0)
  {
    seq(|s|, c requires 0 <= c < |s| => if s[c].Finite? then s[c].v else 1.0)
  }

  /** The scales tried at grid point `k`; every one of them is positive. */
  function CandidateScales(duo: bool, xMean: seq<real>, wMean: seq<real>, k: nat,
                           pow: (real, real) -> Float, sqrt: real -> real): (r: Result<seq<real>>)
    requires |xMean| == |wMean| && k < GridPoints && PositiveRoot(sqrt)
    ensures r.Ok? <==> |xMean| > 0
    ensures r.Ok? ==> |r.value| == |xMean| && forall c :: 0 <= c < |xMean| ==> r.value[c] > 0.0
  {
    var pre := seq(|xMean|, c requires 0 <= c < |xMean| => PreScale(duo, xMean[c], wMean[c], Ratio(k), pow));
    var n :- Normalise(pre, sqrt);
    Ok(ResetNonFinite(n))
  }

  /** `fc.weight.mul_(scales)`: column `c` times `s[c]`. */
  function ScaleColumns(w: seq<seq<real>>, s: seq<real>): (r: seq<seq<real>>)
    requires Shaped(w, |s|)
    ensures |r| == |w| && Shaped(r, |s|)
    ensures forall i, c :: 0 <= i < |w| && 0 <= c < |s| ==> r[i][c] == w[i][c] * s[c]
  {
    seq(|w|, i requires 0 <= i < |w| => seq(|s|, c requires 0 <= c < |s| => w[i][c] * s[c]))
  }

  /** `w / scales`: column `c` divided by `s[c]`. */
  function UnscaleColumns(w: seq<seq<real>>, s: seq<real>): (r: seq<seq<real>>)
    requires Shaped(w, |s|) && forall c :: 0 <= c < |s| ==> s[c] != 0.0
    ensures |r| == |w| && Shaped(r, |s|)
    ensures forall i, c :: 0 <= i < |w| && 0 <= c < |s| ==> r[i][c] == w[i][c] / s[c]
  {
    seq(|w|, i requires 0 <= i < |w| => seq(|s|, c requires 0 <= c < |s| => w[i][c] / s[c]))
  }

  /** Scaling is undone exactly by the division: a trial differs from the
      original weight only by what quantization changes. */
  lemma UnscaleScale(w: seq<seq<real>>, s: seq<real>)
    requires Shaped(w, |s|) && forall c :: 0 <= c < |s| ==> s[c] != 0.0
    ensures UnscaleColumns(ScaleColumns(w, s), s) == w
  {
    var r := UnscaleColumns(ScaleColumns(w, s), s);
    forall i | 0 <= i < |w|
      ensures r[i] == w[i]
    {
      forall c | 0 <= c < |s|
        ensures r[i][c] == w[i][c]
      {
        RealArith.DivThenMul(w[i][c], s[c]);
        assert (w[i][c] * s[c]) / s[c] == w[i][c];
      }
    }
  }

  /** `Q(W * s) / s` for one layer. */
  function TrialLayer(cfg: Config, w: seq<seq<real>>, s: seq<real>): (r: Result<seq<seq<real>>>)
    requires ValidBits(cfg) && Shaped(w, |s|) && forall c :: 0 <= c < |s| ==> s[c] > 0.0
    ensures r.Ok? <==> Accepts(cfg, |w|, |s|)
    ensures r.Ok? ==> |r.value| == |w| && Shaped(r.value, |s|)
  {
    var q :- PseudoQuantize(cfg, ScaleColumns(w, s), |s|);
    Ok(UnscaleColumns(q.w, s))
  }

  /** Every layer's trial weight, in order; the first failure aborts. */
  function TrialLayers(cfg: Config, layers: seq<seq<seq<real>>>, s: seq<real>): (r: Result<seq<seq<seq<real>>>>)
    requires ValidBits(cfg) && forall c :: 0 <= c < |s| ==> s[c] > 0.0
    requires forall l :: 0 <= l < |layers| ==> Shaped(layers[l], |s|)
    ensures r.Ok? <==> forall l :: 0 <= l < |layers| ==> Accepts(cfg, |layers[l]|, |s|)
    ensures r.Ok? ==> |r.value| == |layers|
    ensures r.Ok? ==> forall l :: 0 <= l < |layers| ==> r.value[l] == TrialLayer(cfg, layers[l], s).value
  {
    if |layers| == 0 then Ok([])
    else
      var init :- TrialLayers(cfg, layers[..|layers| - 1], s);
      var last :- TrialLayer(cfg, layers[|layers| - 1], s);
      Ok(init + [last])
  }

  /** The trial weights of grid point `k` starting from `base`, when the
      scales exist and every layer's shape is accepted. */
  function TrialWeights(cfg: Config, duo: bool, xMean: seq<real>, wMean: seq<real>,
                        base: seq<seq<seq<real>>>, k: nat,
                        pow: (real, real) -> Float, sqrt: real -> real): Result<seq<seq<seq<real>>>>
    requires ValidBits(cfg) && |xMean| == |wMean| && k < GridPoints && PositiveRoot(sqrt)
    requires forall l :: 0 <= l < |base| ==> Shaped(base[l], |xMean|)
  {
    var s :- CandidateScales(duo, xMean, wMean, k, pow, sqrt);
    TrialLayers(cfg, base, s)
  }

  /** The loss observed at grid point `k` starting from `base`. `score` is the
      forward pass of the block with the trial weights followed by
      `_compute_loss` against the full-precision output; either can raise. */
  function TrialLoss(cfg: Config, duo: bool, xMean: seq<real>, wMean: seq<real>,
                     base: seq<seq<seq<real>>>, k: nat,
                     pow: (real, real) -> Float, sqrt: real -> real,
                     score: seq<seq<seq<real>>> -> Result<Float>): Result<Float>
    requires ValidBits(cfg) && |xMean| == |wMean| && k < GridPoints && PositiveRoot(sqrt)
    requires forall l :: 0 <= l < |base| ==> Shaped(base[l], |xMean|)
  {
    var t :- TrialWeights(cfg, duo, xMean, wMean, base, k, pow, sqrt);
    score(t)
  }

  /** Whether the trials can be built at all: the scales exist and every
      layer's shape is one `pseudo_quantize_tensor` accepts. */
  predicate TrialsBuild(cfg: Config, xMean: seq<real>, layers: seq<seq<seq<real>>>)
    requires ValidBits(cfg)
  {
    |xMean| > 0 && forall l :: 0 <= l < |layers| ==> Accepts(cfg, |layers[l]|, |xMean|)
  }

  /** A grid point yields a loss exactly when its trial can be built and the
      scored forward pass on the trial weights does not raise; once the trial
      is built, the outcome is the scored pass's. */
  lemma TrialLossOk(cfg: Config, duo: bool, xMean: seq<real>, wMean: seq<real>,
                    base: seq<seq<seq<real>>>, k: nat,
                    pow: (real, real) -> Float, sqrt: real -> real,
                    score: seq<seq<seq<real>>> -> Result<Float>)
    requires ValidBits(cfg) && |xMean| == |wMean| && k < GridPoints && PositiveRoot(sqrt)
    requires forall l :: 0 <= l < |base| ==> Shaped(base[l], |xMean|)
    ensures TrialWeights(cfg, duo, xMean, wMean, base, k, pow, sqrt).Ok? <==> TrialsBuild(cfg, xMean, base)
    ensures TrialsBuild(cfg, xMean, base) ==>
      TrialLoss(cfg, duo, xMean, wMean, base, k, pow, sqrt, score)
      == score(TrialWeights(cfg, duo, xMean, wMean, base, k, pow, sqrt).value)
    ensures TrialLoss(cfg, duo, xMean, wMean, base, k, pow, sqrt, score).Ok? <==>
      TrialsBuild(cfg, xMean, base) && score(TrialWeights(cfg, duo, xMean, wMean, base, k, pow, sqrt).value).Ok?
  {
  }

  /** `fc.weight.mul_(scales)` for every layer. */
  function ScaleLayers(layers: seq<seq<seq<real>>>, s: seq<real>): (r: seq<seq<seq<real>>>)
    requires forall l :: 0 <= l < |layers| ==> Shaped(layers[l], |s|)
    ensures |r| == |layers|
    ensures forall l :: 0 <= l < |layers| ==> |r[l]| == |layers[l]| && Shaped(r[l], |s|)
    ensures forall l :: 0 <= l < |layers| ==> r[l] == ScaleColumns(layers[l], s)
  {
    seq(|layers|, l requires 0 <= l < |layers| => ScaleColumns(layers[l], s))
  }

  /** How `org_sd` holds the weights. `state_dict()` hands out tensors that
      share storage with the parameters, and `.cpu()` copies a tensor held on
      an accelerator but returns a tensor already on the CPU unchanged: the
      snapshot of a block on an accelerator is a copy, that of a block on the
      CPU is the weights' own storage. */
  datatype Snapshot = Copied | Shared

  /** The weights grid point `k` starts from. `load_state_dict(org_sd)`
      reloads the snapshot after every trial. A shared snapshot was scaled
      in place by the `mul_` of point 0, before `.data` was rebound to the
      quantized weight, so from point 1 on the trials start from the
      weights times the scales `s0` of point 0. */
  function GridBase(snap: Snapshot, duo: bool, xMean: seq<real>, wMean: seq<real>,
                    layers: seq<seq<seq<real>>>, k: nat,
                    pow: (real, real) -> Float, sqrt: real -> real): (b: seq<seq<seq<real>>>)
    requires |xMean| == |wMean| && PositiveRoot(sqrt)
    requires forall l :: 0 <= l < |layers| ==> Shaped(layers[l], |xMean|)
    ensures |b| == |layers|
    ensures forall l :: 0 <= l < |layers| ==> |b[l]| == |layers[l]| && Shaped(b[l], |xMean|)
  {
    if k == 0 || snap == Copied then layers
    else match CandidateScales(duo, xMean, wMean, 0, pow, sqrt)
      case Err(_) => layers
      case Ok(s0) => ScaleLayers(layers, s0)
  }

  /** The loss of grid point `k` as the search observes it. */
  function GridLoss(cfg: Config, snap: Snapshot, duo: bool, xMean: seq<real>, wMean: seq<real>,
                    layers: seq<seq<seq<real>>>, k: nat,
                    pow: (real, real) -> Float, sqrt: real -> real,
                    score: seq<seq<seq<real>>> -> Result<Float>): Result<Float>
    requires ValidBits(cfg) && |xMean| == |wMean| && k < GridPoints && PositiveRoot(sqrt)
    requires forall l :: 0 <= l < |layers| ==> Shaped(layers[l], |xMean|)
  {
    TrialLoss(cfg, duo, xMean, wMean, GridBase(snap, duo, xMean, wMean, layers, k, pow, sqrt), k, pow, sqrt, score)
  }

  /** The trial weights of grid point `k` as the search builds them. */
  function GridTrial(cfg: Config, snap: Snapshot, duo: bool, xMean: seq<real>, wMean: seq<real>,
                     layers: seq<seq<seq<real>>>, k: nat,
                     pow: (real, real) -> Float, sqrt: real -> real): Result<seq<seq<seq<real>>>>
    requires ValidBits(cfg) && |xMean| == |wMean| && k < GridPoints && PositiveRoot(sqrt)
    requires forall l :: 0 <= l < |layers| ==> Shaped(layers[l], |xMean|)
  {
    TrialWeights(cfg, duo, xMean, wMean, GridBase(snap, duo, xMean, wMean, layers, k, pow, sqrt), k, pow, sqrt)
  }

  /** With a copied snapshot every grid point is scored on the original
      weights, and the original weights are what the search leaves behind. */
  lemma CopiedSnapshotRestores(cfg: Config, duo: bool, xMean: seq<real>, wMean: seq<real>,
                               layers: seq<seq<seq<real>>>,
                               pow: (real, real) -> Float, sqrt: real -> real,
                               score: seq<seq<seq<real>>> -> Result<Float>)
    requires ValidBits(cfg) && |xMean| == |wMean| && PositiveRoot(sqrt)
    requires forall l :: 0 <= l < |layers| ==> Shaped(layers[l], |xMean|)
    ensures GridBase(Copied, duo, xMean, wMean, layers, GridPoints, pow, sqrt) == layers
    ensures forall k :: 0 <= k < GridPoints ==>
      GridLoss(cfg, Copied, duo, xMean, wMean, layers, k, pow, sqrt, score)
      == TrialLoss(cfg, duo, xMean, wMean, layers, k, pow, sqrt, score)
  {
  }

  /** On the CPU the search does not give the weights back. With duo
      scaling, activation means `[1, 1]` and weight means `[0, 1/2]`, the
      pre-scales of point 0 are `1 / 1e-4` and `1 / (1/2 + 1e-4)`; they
      differ, so the normalised `s0` is not all ones and the layer `[[1, 1]]`
      is left scaled, whatever the square root. */
  lemma SharedSnapshotCounterexample(pow: (real, real) -> Float, sqrt: real -> real)
    requires PositiveRoot(sqrt)
    requires pow(1.0, 0.0) == Finite(1.0) && pow(0.0, 1.0) == Finite(0.0) && pow(0.5, 1.0) == Finite(0.5)
    ensures GridBase(Copied, true, [1.0, 1.0], [0.0, 0.5], [[[1.0, 1.0]]], GridPoints, pow, sqrt) == [[[1.0, 1.0]]]
    ensures GridBase(Shared, true, [1.0, 1.0], [0.0, 0.5], [[[1.0, 1.0]]], GridPoints, pow, sqrt) != [[[1.0, 1.0]]]
  {
    var xMean, wMean := [1.0, 1.0], [0.0, 0.5];
    assert Ratio(0) == 0.0;
    var pre := seq(2, c requires 0 <= c < 2 => PreScale(true, xMean[c], wMean[c], Ratio(0), pow));
    assert pre[0] == Finite(10000.0);
    assert pre[1] == Finite(1.0 / 0.5001);
    NormaliseDivides(pre, sqrt);
    var d := Divisor(Values(pre), sqrt);
    var s0 := CandidateScales(true, xMean, wMean, 0, pow, sqrt).value;
    assert s0[0] == 10000.0 / d && s0[1] == (1.0 / 0.5001) / d;
    assert s0[0] != 1.0 || s0[1] != 1.0;
    var g := GridBase(Shared, true, xMean, wMean, [[[1.0, 1.0]]], GridPoints, pow, sqrt);
    assert g[0][0][0] == s0[0] && g[0][0][1] == s0[1];
  }

  /** Without duo scaling point 0 raises every activation mean to the power
      0, so with `x ** 0 == 1` and an exact `sqrt(1)` the scales of point 0
      are all ones, and even a shared snapshot reloads the original weights. */
  lemma SharedSnapshotHarmlessWithoutDuo(xMean: seq<real>, wMean: seq<real>,
                                          layers: seq<seq<seq<real>>>,
                                          pow: (real, real) -> Float, sqrt: real -> real)
    requires |xMean| == |wMean| && PositiveRoot(sqrt) && sqrt(1.0) == 1.0
    requires forall c :: 0 <= c < |xMean| ==> pow(xMean[c], 0.0) == Finite(1.0)
    requires forall l :: 0 <= l < |layers| ==> Shaped(layers[l], |xMean|)
    ensures forall k :: GridBase(Shared, false, xMean, wMean, layers, k, pow, sqrt) == layers
  {
    if |xMean| > 0 {
      assert Ratio(0) == 0.0;
      var pre := seq(|xMean|, c requires 0 <= c < |xMean| => PreScale(false, xMean[c], wMean[c], Ratio(0), pow));
      assert forall c :: 0 <= c < |pre| ==> pre[c] == Finite(1.0);
      NormaliseDivides(pre, sqrt);
      var v := Values(pre);
      MinAtLeast(v, 1.0);
      MaxAtMost(v, 1.0);
      assert Max(v) == 1.0 && Min(v) == 1.0;
      var s0 := CandidateScales(false, xMean, wMean, 0, pow, sqrt).value;
      assert forall c :: 0 <= c < |xMean| ==> s0[c] == 1.0;
      forall l | 0 <= l < |layers|
        ensures ScaleColumns(layers[l], s0) == layers[l]
      {
        UnitScale(layers[l], s0);
      }
    }
  }

  /** Scaling by all ones changes nothing. */
  lemma UnitScale(w: seq<seq<real>>, s: seq<real>)
    requires Shaped(w, |s|) && forall c :: 0 <= c < |s| ==> s[c] == 1.0
    ensures ScaleColumns(w, s) == w
  {
    var r := ScaleColumns(w, s);
    forall i | 0 <= i < |w|
      ensures r[i] == w[i]
    {
    }
  }

  /** One trial in place: each layer's weight is multiplied by the scales,
      fake-quantized and divided by them again, in order. When a layer's
      quantization fails, that layer is left multiplied, the ones before it
      hold their trial weights and the ones after it are untouched. */
  method ApplyTrial(cfg: Config, layers: seq<seq<seq<real>>>, s: seq<real>)
    returns (r: Result<seq<seq<seq<real>>>>, state: seq<seq<seq<real>>>)
    requires ValidBits(cfg) && forall c :: 0 <= c < |s| ==> s[c] > 0.0
    requires forall l :: 0 <= l < |layers| ==> Shaped(layers[l], |s|)
    ensures r == TrialLayers(cfg, layers, s)
    ensures r.Ok? ==> state == r.value
    ensures r.Err? ==> r.error in {GroupSizeMismatch, EmptyTensor, NonFiniteResult}
    ensures r.Err? ==> |state| == |layers| && exists l :: 0 <= l < |layers| && FailedAt(cfg, layers, s, state, l)
  {
    state := layers;
    var l := 0;
    while l < |layers|
      invariant 0 <= l <= |layers| && |state| == |layers|
      invariant forall i :: 0 <= i < l ==> Accepts(cfg, |layers[i]|, |s|)
      invariant forall i :: 0 <= i < l ==> state[i] == TrialLayer(cfg, layers[i], s).value
      invariant forall i :: l <= i < |layers| ==> state[i] == layers[i]
    {
      state := state[l := ScaleColumns(state[l], s)];
      var q := PseudoQuantize(cfg, state[l], |s|);
      if q.Err? {
        TrialLayersFailure(cfg, layers, s, l);
        assert FailedAt(cfg, layers, s, state, l);
        return Err(q.error), state;
      }
      state := state[l := UnscaleColumns(q.value.w, s)];
      l := l + 1;
    }
    var all := TrialLayers(cfg, layers, s);
    assert all.Ok? && |all.value| == |state|;
    assert all.value == state;
    r := Ok(state);
  }

  /** The trials stop at the first layer whose shape quantization rejects. */
  lemma {:induction false} TrialLayersFailure(cfg: Config, layers: seq<seq<seq<real>>>, s: seq<real>, l: nat)
    requires ValidBits(cfg) && forall c :: 0 <= c < |s| ==> s[c] > 0.0
    requires forall i :: 0 <= i < |layers| ==> Shaped(layers[i], |s|)
    requires l < |layers| && !Accepts(cfg, |layers[l]|, |s|)
    requires forall i :: 0 <= i < l ==> Accepts(cfg, |layers[i]|, |s|)
    ensures TrialLayers(cfg, layers, s) == Err(TrialLayer(cfg, layers[l], s).error)
    decreases |layers|
  {
    var init := layers[..|layers| - 1];
    if l < |layers| - 1 {
      TrialLayersFailure(cfg, init, s, l);
    }
  }

  /** The state a failure at layer `l` leaves behind. */
  predicate FailedAt(cfg: Config, layers: seq<seq<seq<real>>>, s: seq<real>, state: seq<seq<seq<real>>>, l: nat)
    requires ValidBits(cfg) && forall c :: 0 <= c < |s| ==> s[c] > 0.0
    requires forall i :: 0 <= i < |layers| ==> Shaped(layers[i], |s|)
    requires l < |layers| == |state|
  {
    && !Accepts(cfg, |layers[l]|, |s|)
    && state[l] == ScaleColumns(layers[l], s)
    && (forall i :: 0 <= i < l ==> TrialLayer(cfg, layers[i], s).Ok? && state[i] == TrialLayer(cfg, layers[i], s).value)
    && (forall i :: l < i < |layers| ==> state[i] == layers[i])
  }

  /** Grid point `k` from the weights `base`: build the scales, apply the
      trial and score it. The trial weights stay in place; reloading the
      snapshot is the caller's step. */
  method RunTrial(cfg: Config, duo: bool, xMean: seq<real>, wMean: seq<real>,
                  base: seq<seq<seq<real>>>, k: nat,
                  pow: (real, real) -> Float, sqrt: real -> real,
                  score: seq<seq<seq<real>>> -> Result<Float>)
    returns (loss: Result<Float>, s: seq<real>, state: seq<seq<seq<real>>>)
    requires ValidBits(cfg) && |xMean| == |wMean| && k < GridPoints && PositiveRoot(sqrt)
    requires forall l :: 0 <= l < |base| ==> Shaped(base[l], |xMean|)
    ensures loss == TrialLoss(cfg, duo, xMean, wMean, base, k, pow, sqrt, score)
    ensures |state| == |base|
    ensures |xMean| == 0 ==> state == base
    ensures |xMean| > 0 ==> Ok(s) == CandidateScales(duo, xMean, wMean, k, pow, sqrt)
    ensures TrialsBuild(cfg, xMean, base) ==> Ok(state) == TrialWeights(cfg, duo, xMean, wMean, base, k, pow, sqrt)
    ensures !TrialsBuild(cfg, xMean, base) ==> loss.Err? && loss.error in {GroupSizeMismatch, EmptyTensor, NonFiniteResult}
    ensures |xMean| > 0 && !TrialsBuild(cfg, xMean, base) ==>
      exists l :: 0 <= l < |base| && FailedAt(cfg, base, s, state, l)
  {
    TrialLossOk(cfg, duo, xMean, wMean, base, k, pow, sqrt, score);
    state := base;
    var scales := CandidateScales(duo, xMean, wMean, k, pow, sqrt);
    if scales.Err? {
      return Err(scales.error), [], state;
    }
    s := scales.value;
    var trial;
    trial, state := ApplyTrial(cfg, base, s);
    if trial.Err? {
      return Err(trial.error), s, state;
    }
    loss := score(state);
  }

  /** The twenty trials in grid order, stopping at the first that raises:
      their losses, the scales of the running best, and the layers' weights
      afterwards. After each trial the snapshot is reloaded; on the CPU the
      snapshot itself was scaled by the first trial. */
  method GridLosses(cfg: Config, snap: Snapshot, duo: bool, xMean: seq<real>, wMean: seq<real>,
                    layers: seq<seq<seq<real>>>,
                    pow: (real, real) -> Float, sqrt: real -> real,
                    score: seq<seq<seq<real>>> -> Result<Float>)
    returns (history: seq<Float>, bestIndex: Option<nat>, bestScales: seq<real>,
             state: seq<seq<seq<real>>>, err: Option<Error>)
    requires ValidBits(cfg) && |xMean| == |wMean| && PositiveRoot(sqrt)
    requires forall l :: 0 <= l < |layers| ==> Shaped(layers[l], |xMean|)
    ensures |history| <= GridPoints && (err.None? <==> |history| == GridPoints)
    ensures forall k :: 0 <= k < |history| ==>
      Ok(history[k]) == GridLoss(cfg, snap, duo, xMean, wMean, layers, k, pow, sqrt, score)
    ensures err.Some? ==>
      Err(err.value) == GridLoss(cfg, snap, duo, xMean, wMean, layers, |history|, pow, sqrt, score)
    ensures err.Some? && TrialsBuild(cfg, xMean, layers) ==>
      Ok(state) == GridTrial(cfg, snap, duo, xMean, wMean, layers, |history|, pow, sqrt)
    ensures err.Some? && !TrialsBuild(cfg, xMean, layers) ==>
      |history| == 0 && err.value in {GroupSizeMismatch, EmptyTensor, NonFiniteResult}
    ensures err.None? ==> state == GridBase(snap, duo, xMean, wMean, layers, GridPoints, pow, sqrt)
    ensures err.None? ==> bestIndex == Scan(history, NonFinite).index
    ensures err.None? && bestIndex.Some? ==>
      && bestIndex.value < GridPoints
      && Ok(bestScales) == CandidateScales(duo, xMean, wMean, bestIndex.value, pow, sqrt)
  {
    history := [];
    state := layers;
    var org := layers;
    bestIndex := None;
    var bestError := NonFinite;
    bestScales := [];
    var k := 0;
    while k < GridPoints
      invariant 0 <= k <= GridPoints && |history| == k
      invariant org == state == GridBase(snap, duo, xMean, wMean, layers, k, pow, sqrt)
      invariant k > 0 ==> TrialsBuild(cfg, xMean, layers)
      invariant forall j {:trigger history[j]} :: 0 <= j < k ==>
        Ok(history[j]) == GridLoss(cfg, snap, duo, xMean, wMean, layers, j, pow, sqrt, score)
      invariant Best(bestIndex, bestError) == Scan(history, NonFinite)
      invariant bestIndex.Some? ==>
        (bestIndex.value < GridPoints
         && Ok(bestScales) == CandidateScales(duo, xMean, wMean, bestIndex.value, pow, sqrt))
    {
      var loss, s;
      BaseBuilds(cfg, snap, duo, xMean, wMean, layers, k, pow, sqrt);
      loss, s, state := RunTrial(cfg, duo, xMean, wMean, org, k, pow, sqrt, score);
      if loss.Err? {
        return history, bestIndex, bestScales, state, Some(loss.error);
      }
      RecordLoss(cfg, snap, duo, xMean, wMean, layers, pow, sqrt, score, history, loss.value);
      history := history + [loss.value];
      if Less(loss.value, bestError) {
        bestIndex, bestError, bestScales := Some(k), loss.value, s;
      }
      if k == 0 && snap == Shared {
        org := ScaleLayers(layers, s);
      }
      NextBase(snap, duo, xMean, wMean, layers, k, pow, sqrt, s);
      state := org;
      k := k + 1;
    }
    err := None;
  }

  /** Reloading after point `k` gives the weights point `k + 1` starts from. */
  lemma NextBase(snap: Snapshot, duo: bool, xMean: seq<real>, wMean: seq<real>,
                 layers: seq<seq<seq<real>>>, k: nat,
                 pow: (real, real) -> Float, sqrt: real -> real, s: seq<real>)
    requires |xMean| == |wMean| && PositiveRoot(sqrt) && k < GridPoints
    requires forall l :: 0 <= l < |layers| ==> Shaped(layers[l], |xMean|)
    requires Ok(s) == CandidateScales(duo, xMean, wMean, k, pow, sqrt)
    ensures GridBase(snap, duo, xMean, wMean, layers, k + 1, pow, sqrt)
      == if k == 0 && snap == Shared then ScaleLayers(layers, s)
         else GridBase(snap, duo, xMean, wMean, layers, k, pow, sqrt)
  {
  }

  /** The trials from every grid point's starting weights build exactly when
      those from the original weights do: scaling keeps every shape. */
  lemma BaseBuilds(cfg: Config, snap: Snapshot, duo: bool, xMean: seq<real>, wMean: seq<real>,
                   layers: seq<seq<seq<real>>>, k: nat,
                   pow: (real, real) -> Float, sqrt: real -> real)
    requires ValidBits(cfg) && |xMean| == |wMean| && PositiveRoot(sqrt)
    requires forall l :: 0 <= l < |layers| ==> Shaped(layers[l], |xMean|)
    ensures TrialsBuild(cfg, xMean, GridBase(snap, duo, xMean, wMean, layers, k, pow, sqrt))
      <==> TrialsBuild(cfg, xMean, layers)
  {
  }

  /** Appending the loss of the next grid point keeps the history in grid
      order and advances the running minimum by one step. */
  lemma RecordLoss(cfg: Config, snap: Snapshot, duo: bool, xMean: seq<real>, wMean: seq<real>,
                   layers: seq<seq<seq<real>>>,
                   pow: (real, real) -> Float, sqrt: real -> real,
                   score: seq<seq<seq<real>>> -> Result<Float>, history: seq<Float>, loss: Float)
    requires ValidBits(cfg) && |xMean| == |wMean| && PositiveRoot(sqrt)
    requires forall l :: 0 <= l < |layers| ==> Shaped(layers[l], |xMean|)
    requires |history| < GridPoints
    requires forall j {:trigger history[j]} :: 0 <= j < |history| ==>
      Ok(history[j]) == GridLoss(cfg, snap, duo, xMean, wMean, layers, j, pow, sqrt, score)
    requires Ok(loss) == GridLoss(cfg, snap, duo, xMean, wMean, layers, |history|, pow, sqrt, score)
    ensures forall j {:trigger (history + [loss])[j]} :: 0 <= j < |history| + 1 ==>
      Ok((history + [loss])[j]) == GridLoss(cfg, snap, duo, xMean, wMean, layers, j, pow, sqrt, score)
    ensures Scan(history + [loss], NonFinite) == Update(Scan(history, NonFinite), |history|, loss)
  {
    forall j | 0 <= j < |history| + 1 {
      LossRecorded(cfg, snap, duo, xMean, wMean, layers, pow, sqrt, score, history, loss, j);
    }
    ScanAppend(history, loss, NonFinite);
  }

  lemma LossRecorded(cfg: Config, snap: Snapshot, duo: bool, xMean: seq<real>, wMean: seq<real>,
                     layers: seq<seq<seq<real>>>,
                     pow: (real, real) -> Float, sqrt: real -> real,
                     score: seq<seq<seq<real>>> -> Result<Float>, history: seq<Float>, loss: Float, j: nat)
    requires ValidBits(cfg) && |xMean| == |wMean| && PositiveRoot(sqrt)
    requires forall l :: 0 <= l < |layers| ==> Shaped(layers[l], |xMean|)
    requires j <= |history| < GridPoints
    requires forall i {:trigger history[i]} :: 0 <= i < |history| ==>
      Ok(history[i]) == GridLoss(cfg, snap, duo, xMean, wMean, layers, i, pow, sqrt, score)
    requires Ok(loss) == GridLoss(cfg, snap, duo, xMean, wMean, layers, |history|, pow, sqrt, score)
    ensures Ok((history + [loss])[j]) == GridLoss(cfg, snap, duo, xMean, wMean, layers, j, pow, sqrt, score)
  {
    if j < |history| {
      assert (history + [loss])[j] == history[j];
    } else {
      assert (history + [loss])[j] == loss;
    }
  }

  /** The search. `best` is the chosen grid point (`best_ratio * n_grid`),
      `history` the losses in grid order, `state` the layers' weights
      afterwards. An exception inside the loop escapes with the failing
      trial's weights in place; after a full grid the weights are the
      reloaded snapshot, and the search raises when no loss compared below
      infinity. */
  method ComputeBestScale(cfg: Config, snap: Snapshot, duo: bool, xMean: seq<real>, wMean: seq<real>,
                          layers: seq<seq<seq<real>>>,
                          pow: (real, real) -> Float, sqrt: real -> real,
                          score: seq<seq<seq<real>>> -> Result<Float>)
    returns (r: Result<seq<real>>, best: nat, history: seq<Float>, state: seq<seq<seq<real>>>)
    requires ValidBits(cfg) && |xMean| == |wMean| && PositiveRoot(sqrt)
    requires forall l :: 0 <= l < |layers| ==> Shaped(layers[l], |xMean|)
    ensures |history| <= GridPoints
    ensures forall k :: 0 <= k < |history| ==>
      Ok(history[k]) == GridLoss(cfg, snap, duo, xMean, wMean, layers, k, pow, sqrt, score)
    ensures |history| == GridPoints <==>
      forall k :: 0 <= k < GridPoints ==> GridLoss(cfg, snap, duo, xMean, wMean, layers, k, pow, sqrt, score).Ok?
    ensures |history| < GridPoints ==>
      r.Err? && Err(r.error) == GridLoss(cfg, snap, duo, xMean, wMean, layers, |history|, pow, sqrt, score)
    ensures |history| < GridPoints && TrialsBuild(cfg, xMean, layers) ==>
      Ok(state) == GridTrial(cfg, snap, duo, xMean, wMean, layers, |history|, pow, sqrt)
    ensures |history| == GridPoints ==> state == GridBase(snap, duo, xMean, wMean, layers, GridPoints, pow, sqrt)
    ensures |history| == GridPoints ==>
      (r.Err? <==> forall k :: 0 <= k < GridPoints ==> history[k].NonFinite?)
    ensures |history| == GridPoints && r.Err? ==> r.error == SearchFailed
    ensures r.Ok? ==> |history| == GridPoints && EarliestMinimum(history, NonFinite, best)
    ensures r.Ok? ==> Ok(r.value) == CandidateScales(duo, xMean, wMean, best, pow, sqrt)
    ensures r.Ok? ==> forall c :: 0 <= c < |r.value| ==> r.value[c] > 0.0
  {
    var bestIndex, bestScales, err;
    history, bestIndex, bestScales, state, err := GridLosses(cfg, snap, duo, xMean, wMean, layers, pow, sqrt, score);
    best := 0;
    if err.Some? {
      return Err(err.value), best, history, state;
    }
    ScanSelects(history, NonFinite);
    if bestIndex.None? {
      return Err(SearchFailed), best, history, state;
    }
    best := bestIndex.value;
    r := Ok(bestScales);
  }
}
