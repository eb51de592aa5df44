/** `_compute_best_clip`: for every group of every output channel, try ten
    shrinking clipping bounds, pseudo-quantize the clipped group, and keep
    the bound whose output error over a subsample of the calibration tokens
    is smallest. The output channels are processed in blocks of 256 or 64
    rows, and the blocks' results are concatenated. */
module ClipSearch {
  import opened Wrappers
  import opened Rounding
  import opened Seqs
  import opened Selection
  import opened PseudoQuant
  import Loss
  import Arith

  /** `n_sample_token`: the number of tokens the stride aims to keep. */
  const SampleTokens: nat := 512

  /** `n_grid`. */
  const ClipGrid: nat := 20

  /** `int(max_shrink * n_grid)` with `max_shrink = 0.5`: the number of bounds tried. */
  const ShrinkSteps: nat := 10

  /** The starting value of `min_errs`. */
  const InitialError: real := 1000000000.0

  // ---------------------------------------------------------------------
  // Token subsampling

  /** The token stride `max(1, n_token // n_sample_token)`. */
  function Stride(tokens: nat): (s: nat)
    ensures s >= 1
    ensures tokens < 2 * SampleTokens ==> s == 1
    ensures tokens >= SampleTokens ==> s * SampleTokens <= tokens < (s + 1) * SampleTokens
  {
    if tokens / SampleTokens >= 1 then tokens / SampleTokens else 1
  }

  /** `x[::stride]`: the first token, then every `stride`-th one after it. */
  function Subsample<T>(x: seq<T>, stride: nat): (r: seq<T>)
    requires stride > 0
    ensures |r| <= |x|
    ensures |x| > 0 ==> |r| > 0 && r[0] == x[0]
    decreases |x|
  {
    if |x| == 0 then []
    else if |x| <= stride then [x[0]]
    else [x[0]] + Subsample(x[stride..], stride)
  }

  /** `ceil(n / stride)` tokens are kept. */
  lemma {:induction false} SubsampleCount<T>(x: seq<T>, stride: nat)
    requires stride > 0
    ensures |Subsample(x, stride)| == (|x| + stride - 1) / stride
    decreases |x|
  {
    if 0 < |x| <= stride {
      Arith.CeilOne(|x|, stride);
    } else if |x| > stride {
      var rest := x[stride..];
      SubsampleCount(rest, stride);
      assert |rest| + stride - 1 == |x| - 1;
      Arith.CeilSucc(|x|, stride);
    }
  }

  /** The `k`-th token kept is token `k * stride`. */
  lemma {:induction false} SubsampleAt<T>(x: seq<T>, stride: nat)
    requires stride > 0
    ensures forall k :: 0 <= k < |Subsample(x, stride)| ==>
      k * stride < |x| && Subsample(x, stride)[k] == x[k * stride]
    decreases |x|
  {
    if |x| > stride {
      var rest := x[stride..];
      SubsampleAt(rest, stride);
      var r := Subsample(x, stride);
      forall k | 1 <= k < |r|
        ensures k * stride < |x| && r[k] == x[k * stride]
      {
        Arith.MulSucc(k, stride);
        assert r[k] == Subsample(rest, stride)[k - 1];
      }
    }
  }

  /** With stride 1 every token is kept. */
  lemma SubsampleUnit<T>(x: seq<T>)
    ensures Subsample(x, 1) == x
  {
    SubsampleCount(x, 1);
    SubsampleAt(x, 1);
  }

  /** `input_feat[:, ::step_size]`: the tokens the errors are measured on. */
  function SampledTokens(x: seq<seq<real>>, cols: nat): (xs: seq<seq<real>>)
    requires Shaped(x, cols)
    ensures Shaped(xs, cols) && |xs| <= |x| && (|x| > 0 ==> |xs| > 0)
  {
    SubsampleAt(x, Stride(|x|));
    Subsample(x, Stride(|x|))
  }

  // ---------------------------------------------------------------------
  // One group

  /** `torch.clamp(x, lo, hi)`: `min(max(x, lo), hi)`. */
  function ClampReal(x: real, lo: real, hi: real): real {
    var y := if x < lo then lo else x;
    if y > hi then hi else y
  }

  /** `torch.clamp(w, -m, m)` on one group. */
  function ClampGroup(g: seq<real>, m: real): (c: seq<real>)
    ensures |c| == |g|
    ensures m >= 0.0 ==> forall e :: 0 <= e < |g| ==> Abs(c[e]) <= m
    ensures forall e :: 0 <= e < |g| && Abs(g[e]) <= m ==> c[e] == g[e]
  {
    seq(|g|, e requires 0 <= e < |g| => ClampReal(g[e], -m, m))
  }

  /** The `i`-th bound tried: `org_max * (1 - i / n_grid)`. */
  function Threshold(orgMax: real, i: nat): real {
    orgMax * (1.0 - i as real / ClipGrid as real)
  }

  /** Every bound tried lies between 55% of the group's largest magnitude
      and that magnitude; the first one is the magnitude itself. */
  lemma ThresholdRange(orgMax: real, i: nat)
    requires orgMax >= 0.0 && i < ShrinkSteps
    ensures 0.55 * orgMax <= Threshold(orgMax, i) <= orgMax
    ensures i == 0 ==> Threshold(orgMax, i) == orgMax
  {
    var f := 1.0 - i as real / ClipGrid as real;
    assert 0.55 <= f <= 1.0;
    RealArith.MulMonotoneReal(0.55, f, orgMax);
    RealArith.MulMonotoneReal(f, 1.0, orgMax);
  }

  /** The first bound clips nothing: the group comes back unchanged. */
  lemma FirstTrialUnclipped(g: seq<real>)
    requires |g| > 0
    ensures ClampGroup(g, Threshold(MaxAbs(g), 0)) == g
  {
    var m := MaxAbs(g);
    ThresholdRange(m, 0);
    var c := ClampGroup(g, m);
    assert forall e :: 0 <= e < |g| ==> c[e] == g[e];
  }

  /** Every token row of the group holds one value per weight of the group. */
  predicate Aligned(xg: seq<seq<real>>, n: nat) {
    forall t :: 0 <= t < |xg| ==> |xg[t]| == n
  }

  /** `((input_feat * q_w).sum(-1) - (input_feat * w).sum(-1)).pow(2)`,
      summed over the tokens. */
  function OutputError(xg: seq<seq<real>>, wg: seq<real>, qg: seq<real>): (e: real)
    requires |wg| == |qg| && Aligned(xg, |wg|)
    ensures e >= 0.0
    ensures qg == wg ==> e == 0.0
  {
    if |xg| == 0 then 0.0
    else
      var init, t := xg[..|xg| - 1], xg[|xg| - 1];
      assert Aligned(init, |wg|) by {
        assert forall k :: 0 <= k < |init| ==> init[k] == xg[k];
      }
      OutputError(init, wg, qg) + Loss.Sq(Dot(t, qg) - Dot(t, wg))
  }

  /** `.mean(dim=1)` of the squared output change over the sampled tokens. */
  function GroupError(xg: seq<seq<real>>, wg: seq<real>, qg: seq<real>): (e: real)
    requires |xg| > 0 && |wg| == |qg| && Aligned(xg, |wg|)
    ensures e >= 0.0
    ensures qg == wg ==> e == 0.0
  {
    OutputError(xg, wg, qg) / |xg| as real
  }

  /** The error of bound `i`: the group clipped to it, pseudo-quantized, and
      compared with the unclipped group on the sampled tokens. */
  function TrialError(cfg: Config, xg: seq<seq<real>>, wg: seq<real>, i: nat): (e: Float)
    requires Quantizable(cfg) && |wg| > 0 && |xg| > 0 && Aligned(xg, |wg|)
    ensures e.Finite? && e.v >= 0.0
  {
    Finite(GroupError(xg, wg, QuantizeGroup(cfg, ClampGroup(wg, Threshold(MaxAbs(wg), i)))))
  }

  /** The errors of all ten bounds, in the order tried. */
  function TrialErrors(cfg: Config, xg: seq<seq<real>>, wg: seq<real>): (errs: seq<Float>)
    requires Quantizable(cfg) && |wg| > 0 && |xg| > 0 && Aligned(xg, |wg|)
    ensures |errs| == ShrinkSteps
    ensures forall i :: 0 <= i < ShrinkSteps ==> errs[i] == TrialError(cfg, xg, wg, i)
  {
    seq(ShrinkSteps, i requires 0 <= i < ShrinkSteps => TrialError(cfg, xg, wg, i))
  }

  // ---------------------------------------------------------------------
  // Per-entry bookkeeping

  /** One entry of `best_max_val` and `min_errs`. */
  datatype Entry = Entry(bound: real, err: Float)

  /** Before any bound is tried: the unclipped bound and an error of `1e9`. */
  function Start(orgMax: real): Entry {
    Entry(orgMax, Finite(InitialError))
  }

  /** `cur_best_idx = err < min_errs`, and the masked updates of both tensors. */
  function StepEntry(e: Entry, threshold: real, err: Float): (r: Entry)
    ensures Less(err, e.err) ==> r == Entry(threshold, err)
    ensures !Less(err, e.err) ==> r == e
  {
    if Less(err, e.err) then Entry(threshold, err) else e
  }

  /** The entry after trying the bounds whose errors are `errs`, in order. */
  function Settle(orgMax: real, errs: seq<Float>): Entry {
    if |errs| == 0 then Start(orgMax)
    else StepEntry(Settle(orgMax, errs[..|errs| - 1]), Threshold(orgMax, |errs| - 1), errs[|errs| - 1])
  }

  /** The bound the running minimum `b` stands for. */
  function BoundOf(orgMax: real, b: Best): real {
    if b.index.Some? then Threshold(orgMax, b.index.value) else orgMax
  }

  /** The masked updates are the running minimum of the selection: the entry
      holds the bound of the selected index and its error. */
  lemma {:induction false} SettleScan(orgMax: real, errs: seq<Float>)
    ensures var b := Scan(errs, Finite(InitialError));
      Settle(orgMax, errs) == Entry(BoundOf(orgMax, b), b.error)
    decreases |errs|
  {
    if |errs| > 0 {
      SettleScan(orgMax, errs[..|errs| - 1]);
    }
  }

  /** Trying one more bound extends the entry by one step. */
  lemma SettleStep(orgMax: real, errs: seq<Float>, i: nat)
    requires i < |errs|
    ensures Settle(orgMax, errs[..i + 1]) == StepEntry(Settle(orgMax, errs[..i]), Threshold(orgMax, i), errs[i])
  {
    assert errs[..i + 1][..i] == errs[..i];
  }

  /** The chosen bound: the bound with the earliest smallest error when some
      error is below `1e9`, and the unclipped bound otherwise. */
  lemma SettleSelects(orgMax: real, errs: seq<Float>)
    ensures (forall k :: 0 <= k < |errs| ==> !Less(errs[k], Finite(InitialError)))
      ==> Settle(orgMax, errs) == Start(orgMax)
    ensures forall i: nat :: (EarliestMinimum(errs, Finite(InitialError), i)
      ==> Settle(orgMax, errs) == Entry(Threshold(orgMax, i), errs[i]))
  {
    SettleScan(orgMax, errs);
    ScanSelects(errs, Finite(InitialError));
    forall i: nat | EarliestMinimum(errs, Finite(InitialError), i)
      ensures Settle(orgMax, errs) == Entry(Threshold(orgMax, i), errs[i])
    {
      var b := Scan(errs, Finite(InitialError));
      assert b.index.Some?;
      EarliestUnique(errs, Finite(InitialError), b.index.value, i);
    }
  }

  /** There is only one earliest smallest error. */
  lemma EarliestUnique(errs: seq<Float>, init: Float, i: nat, j: nat)
    requires EarliestMinimum(errs, init, i) && EarliestMinimum(errs, init, j)
    ensures i == j
  {
  }

  /** `min_errs` never increases: after more bounds the recorded error is
      no larger than before. */
  lemma SettleNonIncreasing(orgMax: real, errs: seq<Float>, j: nat)
    requires j <= |errs| && forall k :: 0 <= k < |errs| ==> errs[k].Finite?
    ensures Settle(orgMax, errs).err.Finite? && Settle(orgMax, errs[..j]).err.Finite?
    ensures Settle(orgMax, errs).err.v <= Settle(orgMax, errs[..j]).err.v
  {
    SettleScan(orgMax, errs);
    SettleScan(orgMax, errs[..j]);
    ScanSelects(errs, Finite(InitialError));
    ScanSelects(errs[..j], Finite(InitialError));
    ScanNonIncreasing(errs, Finite(InitialError), j);
  }

  /** The chosen bound lies between 55% of the group's largest magnitude and
      that magnitude. */
  lemma SettleBound(orgMax: real, errs: seq<Float>)
    requires orgMax >= 0.0 && |errs| <= ShrinkSteps
    ensures 0.55 * orgMax <= Settle(orgMax, errs).bound <= orgMax
  {
    SettleScan(orgMax, errs);
    var b := Scan(errs, Finite(InitialError));
    ScanSelects(errs, Finite(InitialError));
    if b.index.Some? {
      ThresholdRange(orgMax, b.index.value);
    }
  }

  /** The sampled tokens' slice for group `g`. */
  function TokenGroups(xs: seq<seq<real>>, n: nat, g: nat): (xg: seq<seq<real>>)
    requires n > 0 && forall t :: 0 <= t < |xs| ==> |xs[t]| % n == 0 && g < |xs[t]| / n
    ensures |xg| == |xs| && Aligned(xg, n)
    ensures forall t :: 0 <= t < |xs| ==> xg[t] == GroupOf(xs[t], n, g)
  {
    seq(|xs|, t requires 0 <= t < |xs| => GroupOf(xs[t], n, g))
  }

  /** The entry of group `g` of one output channel after the first `i` bounds. */
  function EntryAfter(cfg: Config, xs: seq<seq<real>>, row: seq<real>, n: nat, g: nat, i: nat): Entry
    requires Quantizable(cfg) && n > 0 && |row| % n == 0 && g < |row| / n
    requires |xs| > 0 && Shaped(xs, |row|) && i <= ShrinkSteps
  {
    var wg := GroupOf(row, n, g);
    Settle(MaxAbs(wg), TrialErrors(cfg, TokenGroups(xs, n, g), wg)[..i])
  }

  /** Trying bound `i` takes the entry from `i` bounds to `i + 1`. */
  lemma EntryStep(cfg: Config, xs: seq<seq<real>>, row: seq<real>, n: nat, g: nat, i: nat)
    requires Quantizable(cfg) && n > 0 && |row| % n == 0 && g < |row| / n
    requires |xs| > 0 && Shaped(xs, |row|) && i < ShrinkSteps
    ensures var wg := GroupOf(row, n, g);
      EntryAfter(cfg, xs, row, n, g, i + 1)
      == StepEntry(EntryAfter(cfg, xs, row, n, g, i), Threshold(MaxAbs(wg), i),
                   TrialErrors(cfg, TokenGroups(xs, n, g), wg)[i])
  {
    var wg := GroupOf(row, n, g);
    SettleStep(MaxAbs(wg), TrialErrors(cfg, TokenGroups(xs, n, g), wg), i);
  }

  /** The chosen bound of every group of one output channel. */
  function RowClip(cfg: Config, xs: seq<seq<real>>, row: seq<real>, n: nat): (r: seq<real>)
    requires Quantizable(cfg) && n > 0 && |row| % n == 0
    requires |xs| > 0 && Shaped(xs, |row|)
    ensures |r| == |row| / n
  {
    seq(|row| / n, g requires 0 <= g < |row| / n => EntryAfter(cfg, xs, row, n, g, ShrinkSteps).bound)
  }

  // ---------------------------------------------------------------------
  // Whole weight

  /** `oc_batch_size`: 256 when it divides the output channels, else 64. */
  function Block(rows: nat): (b: nat)
    ensures b == 256 || b == 64
    ensures rows % 256 == 0 <==> b == 256
  {
    if rows % 256 == 0 then 256 else 64
  }

  /** The shape failures raised before any bound is tried, in the order the
      source meets them: `view(-1, 0)` of features without channels; the
      reshape of an empty token list; a group size that does not divide the
      channels; the reshape of a weight without rows; the block assertion. */
  function ShapeError(cfg: Config, rows: nat, cols: nat, tokens: nat): (e: Option<Error>)
    ensures e.None? <==>
      cols > 0 && tokens > 0 && cols % EffGroup(cfg, cols) == 0 && rows > 0 && rows % Block(rows) == 0
  {
    if cols == 0 || tokens == 0 then Some(EmptyTensor)
    else if cols % EffGroup(cfg, cols) != 0 then Some(ShapeMismatch)
    else if rows == 0 then Some(EmptyTensor)
    else if rows % Block(rows) != 0 then Some(BlockMismatch)
    else None
  }

  /** The chosen bounds of every output channel. */
  function AllRows(cfg: Config, w: seq<seq<real>>, cols: nat, xs: seq<seq<real>>): (r: seq<seq<real>>)
    requires Quantizable(cfg) && cols > 0 && cols % EffGroup(cfg, cols) == 0
    requires Shaped(w, cols) && |xs| > 0 && Shaped(xs, cols)
    ensures |r| == |w| && Shaped(r, cols / EffGroup(cfg, cols))
  {
    seq(|w|, o requires 0 <= o < |w| => RowClip(cfg, xs, w[o], EffGroup(cfg, cols)))
  }

  /** `_compute_best_clip` on a `rows x cols` weight and `tokens x cols`
      input features, with one group per row when `group_size <= 0`: the
      best bound of every group of every output channel. */
  function BestClip(cfg: Config, w: seq<seq<real>>, cols: nat, x: seq<seq<real>>): (r: Result<seq<seq<real>>>)
    requires ValidBits(cfg) && Shaped(w, cols) && Shaped(x, cols)
    ensures r.Ok? <==> ShapeError(cfg, |w|, cols, |x|).None? && Quantizable(cfg)
    ensures ShapeError(cfg, |w|, cols, |x|).Some? ==> r == Err(ShapeError(cfg, |w|, cols, |x|).value)
    ensures r.Ok? ==> |r.value| == |w| && Shaped(r.value, cols / EffGroup(cfg, cols))
  {
    var shape := ShapeError(cfg, |w|, cols, |x|);
    if shape.Some? then Err(shape.value)
    else if !Quantizable(cfg) then Err(NonFiniteResult)
    else Ok(AllRows(cfg, w, cols, SampledTokens(x, cols)))
  }

  /** Every chosen bound is one of the bounds tried for its group: the one
      with the earliest smallest error on the sampled tokens, or the
      unclipped bound when no error beats `1e9`; it lies in
      `[0.55 * org_max, org_max]`. */
  lemma BestClipSelects(cfg: Config, w: seq<seq<real>>, cols: nat, x: seq<seq<real>>, o: nat, g: nat)
    requires ValidBits(cfg) && Shaped(w, cols) && Shaped(x, cols)
    requires BestClip(cfg, w, cols, x).Ok? && o < |w| && g < cols / EffGroup(cfg, cols)
    ensures var n := EffGroup(cfg, cols);
      var wg := GroupOf(w[o], n, g);
      var errs := TrialErrors(cfg, TokenGroups(SampledTokens(x, cols), n, g), wg);
      var bound := BestClip(cfg, w, cols, x).value[o][g];
      && 0.55 * MaxAbs(wg) <= bound <= MaxAbs(wg)
      && ((forall k :: 0 <= k < ShrinkSteps ==> !Less(errs[k], Finite(InitialError))) ==> bound == MaxAbs(wg))
      && (forall i: nat :: EarliestMinimum(errs, Finite(InitialError), i) ==> bound == Threshold(MaxAbs(wg), i))
  {
    var n := EffGroup(cfg, cols);
    var xs := SampledTokens(x, cols);
    var wg := GroupOf(w[o], n, g);
    var errs := TrialErrors(cfg, TokenGroups(xs, n, g), wg);
    assert BestClip(cfg, w, cols, x).value[o] == RowClip(cfg, xs, w[o], n);
    assert errs[..ShrinkSteps] == errs;
    assert BestClip(cfg, w, cols, x).value[o][g] == Settle(MaxAbs(wg), errs).bound;
    SettleBound(MaxAbs(wg), errs);
    SettleSelects(MaxAbs(wg), errs);
  }

  /** The source as written: with `group_size <= 0` the clipped weight is
      still four-dimensional when it reaches `pseudo_quantize_tensor`,
      whose `w.dim() == 2` assertion fails before anything is quantized. */
  function ClipAsWritten(cfg: Config, w: seq<seq<real>>, cols: nat, x: seq<seq<real>>): (r: Result<seq<seq<real>>>)
    requires ValidBits(cfg) && Shaped(w, cols) && Shaped(x, cols)
    ensures cfg.groupSize <= 0 ==> r.Err?
  {
    var shape := ShapeError(cfg, |w|, cols, |x|);
    if shape.Some? then Err(shape.value)
    else if cfg.groupSize <= 0 then Err(ShapeMismatch)
    else BestClip(cfg, w, cols, x)
  }

  /** With a positive group size the written code and the corrected one
      agree; with a non-positive one every search the corrected code
      completes fails in the written one. */
  lemma ClipMatches(cfg: Config, w: seq<seq<real>>, cols: nat, x: seq<seq<real>>)
    requires ValidBits(cfg) && Shaped(w, cols) && Shaped(x, cols)
    ensures cfg.groupSize > 0 ==> ClipAsWritten(cfg, w, cols, x) == BestClip(cfg, w, cols, x)
    ensures cfg.groupSize <= 0 && BestClip(cfg, w, cols, x).Ok? ==> ClipAsWritten(cfg, w, cols, x) == Err(ShapeMismatch)
  {
  }

  /** 64 output channels of one weight each, one token, `group_size = -1`:
      the quantizer accepts the weight, the corrected search succeeds, and
      the written search fails. */
  lemma ClipCounterexample()
    ensures var cfg := Config(8, -1, false);
      var w := seq(64, o => [1.0]);
      && Shaped(w, 1)
      && PseudoQuantize(cfg, w, 1).Ok?
      && BestClip(cfg, w, 1, [[1.0]]).Ok?
      && ClipAsWritten(cfg, w, 1, [[1.0]]) == Err(ShapeMismatch)
  {
    var cfg := Config(8, -1, false);
    assert MaxInt(cfg) == 127;
  }

  // ---------------------------------------------------------------------
  // The block loop

  /** Bound `i` tried on one entry whose state is that after `i` bounds. */
  function NextEntry(cfg: Config, xs: seq<seq<real>>, row: seq<real>, n: nat, g: nat, e: Entry, i: nat): (r: Entry)
    requires Quantizable(cfg) && n > 0 && |row| % n == 0 && g < |row| / n
    requires |xs| > 0 && Shaped(xs, |row|) && i < ShrinkSteps
    requires e == EntryAfter(cfg, xs, row, n, g, i)
    ensures r == EntryAfter(cfg, xs, row, n, g, i + 1)
  {
    EntryStep(cfg, xs, row, n, g, i);
    var wg := GroupOf(row, n, g);
    StepEntry(e, Threshold(MaxAbs(wg), i), TrialErrors(cfg, TokenGroups(xs, n, g), wg)[i])
  }

  /** One bound tried on every entry of a block: the masked updates of
      `min_errs` and `best_max_val`. */
  function ShrinkStep(cfg: Config, xs: seq<seq<real>>, block: seq<seq<real>>, cols: nat, n: nat,
                      state: seq<seq<Entry>>, i: nat): (next: seq<seq<Entry>>)
    requires Quantizable(cfg) && n > 0 && cols % n == 0 && Shaped(block, cols)
    requires |xs| > 0 && Shaped(xs, cols) && i < ShrinkSteps
    requires |state| == |block| && Shaped(state, cols / n)
    requires forall o, g :: 0 <= o < |block| && 0 <= g < cols / n ==>
      state[o][g] == EntryAfter(cfg, xs, block[o], n, g, i)
    ensures |next| == |block| && Shaped(next, cols / n)
    ensures forall o, g :: 0 <= o < |block| && 0 <= g < cols / n ==>
      next[o][g] == EntryAfter(cfg, xs, block[o], n, g, i + 1)
  {
    seq(|block|, o requires 0 <= o < |block| =>
      seq(cols / n, g requires 0 <= g < cols / n =>
        NextEntry(cfg, xs, block[o], n, g, state[o][g], i)))
  }

  /** The ten-bound search over one block of output channels. */
  method SearchBlock(cfg: Config, xs: seq<seq<real>>, block: seq<seq<real>>, cols: nat, n: nat)
    returns (best: seq<seq<real>>)
    requires Quantizable(cfg) && n > 0 && cols % n == 0 && Shaped(block, cols)
    requires |xs| > 0 && Shaped(xs, cols)
    ensures |best| == |block|
    ensures forall o :: 0 <= o < |block| ==> best[o] == RowClip(cfg, xs, block[o], n)
  {
    var groups := cols / n;
    var state := seq(|block|, o requires 0 <= o < |block| =>
      seq(groups, g requires 0 <= g < groups => Start(MaxAbs(GroupOf(block[o], n, g)))));
    var i := 0;
    while i < ShrinkSteps
      invariant 0 <= i <= ShrinkSteps
      invariant |state| == |block| && Shaped(state, groups)
      invariant forall o, g :: 0 <= o < |block| && 0 <= g < groups ==>
        state[o][g] == EntryAfter(cfg, xs, block[o], n, g, i)
    {
      state := ShrinkStep(cfg, xs, block, cols, n, state, i);
      i := i + 1;
    }
    best := seq(|block|, o requires 0 <= o < |block| => seq(groups, g requires 0 <= g < groups => state[o][g].bound));
  }

  /** The output channels searched `size` at a time, in order, and the
      blocks' bounds concatenated. */
  method SearchBlocks(cfg: Config, xs: seq<seq<real>>, w: seq<seq<real>>, cols: nat, n: nat, size: nat)
    returns (out: seq<seq<real>>)
    requires Quantizable(cfg) && n > 0 && cols % n == 0 && Shaped(w, cols)
    requires |xs| > 0 && Shaped(xs, cols) && size > 0 && |w| % size == 0
    ensures |out| == |w|
    ensures forall o :: 0 <= o < |w| ==> out[o] == RowClip(cfg, xs, w[o], n)
  {
    out := [];
    var b := 0;
    while b < |w| / size
      invariant 0 <= b <= |w| / size
      invariant |out| == b * size
      invariant forall o :: 0 <= o < |out| ==> out[o] == RowClip(cfg, xs, w[o], n)
    {
      Arith.GroupInRow(b, size, |w|);
      var lo := b * size;
      var block := w[lo .. lo + size];
      var best := SearchBlock(cfg, xs, block, cols, n);
      ExtendClipped(cfg, xs, w, cols, n, out, block, best, lo);
      out := out + best;
      Arith.MulSucc(b + 1, size);
      b := b + 1;
    }
    Arith.DivUnique(|w|, size, |w| / size, 0);
  }

  /** The bounds of the next block extend the bounds of the rows before it. */
  lemma ExtendClipped(cfg: Config, xs: seq<seq<real>>, w: seq<seq<real>>, cols: nat, n: nat,
                      out: seq<seq<real>>, block: seq<seq<real>>, best: seq<seq<real>>, lo: nat)
    requires Quantizable(cfg) && n > 0 && cols % n == 0 && Shaped(w, cols)
    requires |xs| > 0 && Shaped(xs, cols)
    requires |out| == lo && lo + |block| <= |w| && block == w[lo .. lo + |block|]
    requires forall o :: 0 <= o < lo ==> out[o] == RowClip(cfg, xs, w[o], n)
    requires |best| == |block| && forall k :: 0 <= k < |block| ==> best[k] == RowClip(cfg, xs, block[k], n)
    ensures forall o :: 0 <= o < |out + best| ==> (out + best)[o] == RowClip(cfg, xs, w[o], n)
  {
    var next := out + best;
    forall o | lo <= o < |next|
      ensures next[o] == RowClip(cfg, xs, w[o], n)
    {
      assert next[o] == best[o - lo] && block[o - lo] == w[o];
    }
  }

  /** `_compute_best_clip`: the shape checks, then the blocks of output
      channels searched in order and concatenated. */
  method ComputeBestClip(cfg: Config, w: seq<seq<real>>, cols: nat, x: seq<seq<real>>)
    returns (r: Result<seq<seq<real>>>)
    requires ValidBits(cfg) && Shaped(w, cols) && Shaped(x, cols)
    ensures r == BestClip(cfg, w, cols, x)
  {
    var shape := ShapeError(cfg, |w|, cols, |x|);
    if shape.Some? {
      return Err(shape.value);
    }
    if !Quantizable(cfg) {
      return Err(NonFiniteResult);
    }
    var n := EffGroup(cfg, cols);
    var xs := SampledTokens(x, cols);
    var out := SearchBlocks(cfg, xs, w, cols, n, Block(|w|));
    assert out == AllRows(cfg, w, cols, xs);
    r := Ok(out);
  }

  // ---------------------------------------------------------------------
  // `_search_best_clip`

  /** `avoid_clipping`: layers whose name contains one of these are not
      clipped, because the query-key product makes clipping them imprecise. */
  const AvoidClipping: seq<string> := ["q_", "k_", "query", "key", "Wqkv"]

  /** `sub` occurs in `s` starting at position `i`. */
  predicate Occurs(s: string, sub: string, i: nat) {
    i + |sub| <= |s| && s[i..i + |sub|] == sub
  }

  /** Python's `sub in s` on strings. */
  predicate Contains(s: string, sub: string) {
    exists i: nat | i <= |s| :: Occurs(s, sub, i)
  }

  /** A string whose first character never occurs in `s` is not part of `s`. */
  lemma AbsentHead(s: string, sub: string)
    requires |sub| > 0 && forall i :: 0 <= i < |s| ==> s[i] != sub[0]
    ensures !Contains(s, sub)
  {
    forall i: nat | i + |sub| <= |s|
      ensures !Occurs(s, sub, i)
    {
      assert s[i..i + |sub|][0] == s[i];
    }
  }

  /** `any(_ in name for _ in avoid_clipping)`. */
  predicate Avoided(name: string) {
    exists k :: 0 <= k < |AvoidClipping| && Contains(name, AvoidClipping[k])
  }

  /** A linear layer as the search sees it: its name in `named_linears`,
      its `rows x inFeatures` weight. */
  datatype Linear = Linear(name: string, weight: seq<seq<real>>, inFeatures: nat)

  /** Every weight is a matrix, and every captured input feature has the
      layer's input width. */
  predicate Consistent(linears: seq<Linear>, feats: map<string, seq<seq<real>>>) {
    forall k :: 0 <= k < |linears| ==>
      && Shaped(linears[k].weight, linears[k].inFeatures)
      && (linears[k].name in feats ==> Shaped(feats[linears[k].name], linears[k].inFeatures))
  }

  /** The names of the layers that are clipped, in order. */
  function KeptNames(linears: seq<Linear>): (r: seq<string>)
    ensures |r| <= |linears|
  {
    if |linears| == 0 then []
    else
      var l := linears[|linears| - 1];
      KeptNames(linears[..|linears| - 1]) + (if Avoided(l.name) then [] else [l.name])
  }

  /** The kept names are exactly the layer names that avoid every pattern. */
  lemma {:induction false} KeptNamesContents(linears: seq<Linear>)
    ensures forall k :: 0 <= k < |linears| && !Avoided(linears[k].name) ==> linears[k].name in KeptNames(linears)
    ensures forall j :: 0 <= j < |KeptNames(linears)| ==>
      !Avoided(KeptNames(linears)[j]) && exists k :: 0 <= k < |linears| && linears[k].name == KeptNames(linears)[j]
    decreases |linears|
  {
    if |linears| > 0 {
      var init := linears[..|linears| - 1];
      KeptNamesContents(init);
      var prev := KeptNames(init);
      var r := KeptNames(linears);
      assert forall k :: 0 <= k < |init| ==> init[k] == linears[k];
      forall j | 0 <= j < |r|
        ensures !Avoided(r[j]) && exists k :: 0 <= k < |linears| && linears[k].name == r[j]
      {
        if j < |prev| {
          assert r[j] == prev[j];
          var k :| 0 <= k < |init| && init[k].name == prev[j];
          assert linears[k].name == r[j];
        } else {
          assert r[j] == linears[|linears| - 1].name;
        }
      }
    }
  }

  /** `_search_best_clip`: the `(name, best bounds)` list over the layers in
      order, skipping the avoided names. The first layer without a captured
      input raises `KeyError`; the first failing search raises its error. */
  function ClipAll(cfg: Config, linears: seq<Linear>, feats: map<string, seq<seq<real>>>)
    : (r: Result<seq<(string, seq<seq<real>>)>>)
    requires ValidBits(cfg) && Consistent(linears, feats)
  {
    if |linears| == 0 then Ok([])
    else
      var init := linears[..|linears| - 1];
      var l := linears[|linears| - 1];
      var prev := ClipAll(cfg, init, feats);
      if prev.Err? then prev
      else if Avoided(l.name) then prev
      else if l.name !in feats then Err(MissingFeature(l.name))
      else
        var best := BestClip(cfg, l.weight, l.inFeatures, feats[l.name]);
        if best.Err? then Err(best.error) else Ok(prev.value + [(l.name, best.value)])
  }

  function Names(pairs: seq<(string, seq<seq<real>>)>): (r: seq<string>)
    ensures |r| == |pairs| && forall k :: 0 <= k < |pairs| ==> r[k] == pairs[k].0
  {
    seq(|pairs|, k requires 0 <= k < |pairs| => pairs[k].0)
  }

  /** On success the list names exactly the kept layers, in their order. */
  lemma {:induction false} ClipAllNames(cfg: Config, linears: seq<Linear>, feats: map<string, seq<seq<real>>>)
    requires ValidBits(cfg) && Consistent(linears, feats)
    ensures ClipAll(cfg, linears, feats).Ok? ==> Names(ClipAll(cfg, linears, feats).value) == KeptNames(linears)
    decreases |linears|
  {
    if |linears| > 0 {
      var init := linears[..|linears| - 1];
      assert Consistent(init, feats);
      ClipAllNames(cfg, init, feats);
    }
  }

  /** On success every entry holds the search result of one of the layers. */
  lemma {:induction false} ClipAllSearched(cfg: Config, linears: seq<Linear>, feats: map<string, seq<seq<real>>>)
    requires ValidBits(cfg) && Consistent(linears, feats)
    ensures ClipAll(cfg, linears, feats).Ok? ==> forall j :: 0 <= j < |ClipAll(cfg, linears, feats).value| ==>
      SearchedAs(cfg, linears, feats, ClipAll(cfg, linears, feats).value[j])
    decreases |linears|
  {
    if |linears| > 0 {
      var init := linears[..|linears| - 1];
      assert Consistent(init, feats);
      ClipAllSearched(cfg, init, feats);
      var r := ClipAll(cfg, linears, feats);
      if r.Ok? {
        var prev := ClipAll(cfg, init, feats).value;
        forall j | 0 <= j < |r.value|
          ensures SearchedAs(cfg, linears, feats, r.value[j])
        {
          if j < |prev| {
            var k :| 0 <= k < |init| && Searched(cfg, init[k], feats, r.value[j]);
            assert linears[k] == init[k];
          } else {
            assert Searched(cfg, linears[|linears| - 1], feats, r.value[j]);
          }
        }
      }
    }
  }

  /** The pair is the name and search result of layer `l`, which is kept and has an input. */
  predicate Searched(cfg: Config, l: Linear, feats: map<string, seq<seq<real>>>, pair: (string, seq<seq<real>>))
    requires ValidBits(cfg)
  {
    && pair.0 == l.name && !Avoided(l.name) && l.name in feats
    && Shaped(l.weight, l.inFeatures) && Shaped(feats[l.name], l.inFeatures)
    && BestClip(cfg, l.weight, l.inFeatures, feats[l.name]) == Ok(pair.1)
  }

  /** Some layer's search produced the pair. */
  predicate SearchedAs(cfg: Config, linears: seq<Linear>, feats: map<string, seq<seq<real>>>, pair: (string, seq<seq<real>>))
    requires ValidBits(cfg)
  {
    exists k :: 0 <= k < |linears| && Searched(cfg, linears[k], feats, pair)
  }

  /** A missing captured input is reported only for a kept layer that has none. */
  lemma {:induction false} ClipAllMissing(cfg: Config, linears: seq<Linear>, feats: map<string, seq<seq<real>>>, name: string)
    requires ValidBits(cfg) && Consistent(linears, feats)
    requires ClipAll(cfg, linears, feats) == Err(MissingFeature(name))
    ensures exists k :: 0 <= k < |linears| && linears[k].name == name && !Avoided(name) && name !in feats
    decreases |linears|
  {
    var init := linears[..|linears| - 1];
    assert Consistent(init, feats);
    if ClipAll(cfg, init, feats).Err? {
      ClipAllMissing(cfg, init, feats, name);
      var k :| 0 <= k < |init| && init[k].name == name && !Avoided(name) && name !in feats;
      assert linears[k] == init[k];
    }
  }

  /** The layer loop of `_search_best_clip`. */
  method SearchBestClip(cfg: Config, linears: seq<Linear>, feats: map<string, seq<seq<real>>>)
    returns (r: Result<seq<(string, seq<seq<real>>)>>)
    requires ValidBits(cfg) && Consistent(linears, feats)
    ensures r == ClipAll(cfg, linears, feats)
  {
    var out: seq<(string, seq<seq<real>>)> := [];
    var k := 0;
    while k < |linears|
      invariant 0 <= k <= |linears|
      invariant Consistent(linears[..k], feats)
      invariant ClipAll(cfg, linears[..k], feats) == Ok(out)
    {
      var l := linears[k];
      assert linears[..k + 1][..k] == linears[..k];
      assert Consistent(linears[..k + 1], feats);
      if !Avoided(l.name) {
        if l.name !in feats {
          assert ClipAll(cfg, linears[..k + 1], feats) == Err(MissingFeature(l.name));
          ClipAllPrefixErr(cfg, linears, feats, k + 1);
          return Err(MissingFeature(l.name));
        }
        var best := ComputeBestClip(cfg, l.weight, l.inFeatures, feats[l.name]);
        if best.Err? {
          ClipAllPrefixErr(cfg, linears, feats, k + 1);
          return Err(best.error);
        }
        out := out + [(l.name, best.value)];
      }
      k := k + 1;
    }
    assert linears[..k] == linears;
    r := Ok(out);
  }

  /** Once a prefix of the layers fails, the whole search fails the same way. */
  lemma {:induction false} ClipAllPrefixErr(cfg: Config, linears: seq<Linear>, feats: map<string, seq<seq<real>>>, j: nat)
    requires ValidBits(cfg) && Consistent(linears, feats) && j <= |linears|
    requires Consistent(linears[..j], feats) && ClipAll(cfg, linears[..j], feats).Err?
    ensures ClipAll(cfg, linears, feats) == ClipAll(cfg, linears[..j], feats)
    decreases |linears| - j
  {
    if j < |linears| {
      var next := linears[..j + 1];
      assert next[..j] == linears[..j];
      assert Consistent(next, feats);
      ClipAllPrefixErr(cfg, linears, feats, j + 1);
    } else {
      assert linears[..j] == linears;
    }
  }

  /** Query and key projections are skipped; the MLP's down projection is not. */
  lemma AvoidedExamples()
    ensures Avoided("self_attn.q_proj") && Avoided("self_attn.k_proj")
    ensures Avoided("attention.self.query") && Avoided("attention.self.key")
    ensures !Avoided("mlp.down_proj")
  {
    assert Occurs("self_attn.q_proj", AvoidClipping[0], 10);
    assert Contains("self_attn.q_proj", AvoidClipping[0]);
    assert Occurs("self_attn.k_proj", AvoidClipping[1], 10);
    assert Contains("self_attn.k_proj", AvoidClipping[1]);
    assert Occurs("attention.self.query", AvoidClipping[2], 15);
    assert Contains("attention.self.query", AvoidClipping[2]);
    assert Occurs("attention.self.key", AvoidClipping[3], 15);
    assert Contains("attention.self.key", AvoidClipping[3]);
    forall k | 0 <= k < |AvoidClipping|
      ensures !Contains("mlp.down_proj", AvoidClipping[k])
    {
      AbsentHead("mlp.down_proj", AvoidClipping[k]);
    }
  }
}
