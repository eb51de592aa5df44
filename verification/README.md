# AWQ quantizer core in Dafny

A model of the activation-aware weight quantizer (`AwqQuantizer` in
`awq/quantize/quantizer.py`). For each decoder block, the quantizer:

- searches per-channel scales that protect the weights the calibration
  activations make important;
- searches per-group clipping bounds;
- fake-quantizes every linear layer group by group to `w_bit`-bit integer
  codes.

The model keeps the quantizer's arithmetic, branching, error conditions and
constants. It uses exact `real`s in place of fp16/fp32 tensors and
`seq<seq<real>>` in place of 2-D tensors. Every Python exception the modelled
code can raise (an `assert`, a torch shape error, a bare `Exception`, a
`ValueError`, a division by zero) becomes an `Err` of the `Wrappers.Error`
datatype. Where the code calls into something the model leaves as a
parameter, that parameter may itself return an `Err`.

| module | file | models |
|---|---|---|
| `Rounding` | rounding.dfy | `torch.round` (ties to even) and `torch.clamp` |
| `PseudoQuant` | pseudo_quant.dfy | `pseudo_quantize_tensor`: groups, scales, zero offsets, codes, error bounds |
| `Dequant` | dequant.dfy | `pseudo_dequantize_tensor` as written, and the grouping its codes need |
| `Chunks` | chunks.dfy | `torch.split` / `torch.cat` along the first axis |
| `Loss` | loss.dfy | `_compute_loss`, the chunked mean squared error |
| `Stats` | stats.dfy | the chunked `x_mean` loop and the `w_mean` statistic of `_search_best_scale` |
| `Selection` | selection.dfy | the strict running minimum both grid searches use |
| `ScaleSearch` | scale_search.dfy | `_compute_best_scale`: the 20-point ratio grid with trial, score and reload |
| `ClipSearch` | clip_search.dfy | `_compute_best_clip` and `_search_best_clip` |
| `Forward` | forward.dfy | `_sanitize_kwargs`, the `use_cache` removal, and `_module_forward` |
| `ApplyQuant` | apply_quant.dfy | the version dispatch of `_apply_quant` |

Some things the code does cannot be computed exactly. These become function
parameters:

- `x.pow(e)` returns a `Float`, which is a real or a non-finite value;
- `sqrt` has only to return a positive root;
- the scored forward pass of the scale search maps trial weights to a
  `Float` loss or an `Err`. It stands for `_module_forward` followed by
  `_compute_loss`, whose own failures `Forward.ModuleForward` and
  `Loss.ComputeLoss` model;
- a module's forward pass on one sample is an opaque function;
- whether the block lives on the CPU or on an accelerator is an input of
  the scale search (`ScaleSearch.Snapshot`), because it decides whether the
  weight snapshot is a copy.

What the code does that a reader may not expect:

- The half-step rounding bound (`|dequant(quant(w)) - w| <= scale / 2`)
  does not hold for every group. In zero-point mode it fails when the
  group's range does not contain 0: the zero offset is clamped, and the
  codes then clamp at the top. `PseudoQuantExamples.ZeroPointCounterexample`
  exhibits this. The model proves the bound only for groups that hold a
  non-positive and a non-negative weight (`PseudoQuant.ZeroPointErrorBound`).
- An unknown kernel version raises only after the layer's weight has been
  overwritten with its fake-quantized value (`ApplyQuant.UnknownVersionOverwrites`).
- `_module_forward` drops the attention mask on the sliced path
  (`Forward.ForwardDropsMask`).
- `_search_best_scale` drops `use_cache` from the keyword arguments and
  sanitizes them for the forward pass that produces the reference output.
  The trial forwards in `_compute_best_scale` receive the same sanitized
  dict. The model takes the forward pass as a parameter, so this difference
  does not show.
- `_compute_best_scale` snapshots the weights with `v.cpu()` of the
  `state_dict()` tensors. For a block on the CPU this is the weights' own
  storage, so the first trial's in-place `mul_` also scales the snapshot,
  and every later reload brings back the weights times the first grid
  point's scales (see "Findings"). With duo scaling off, those scales are
  all ones and nothing changes (`ScaleSearch.SharedSnapshotHarmlessWithoutDuo`).

## Model

| member | source | states |
|---|---|---|
| Rounding.Round | awq/quantize/quantizer.py:90-92 | `torch.round` lands within half a unit of its argument |
| Rounding.Clamp | awq/quantize/quantizer.py:90-92 | the clamped code lies in `[lo, hi]`; a value inside is unchanged, and one outside becomes the nearer end |
| PseudoQuant.MinInt | awq/quantize/quantizer.py:87-99 | the smallest code is 0 with a zero point and `-2^(w_bit-1)` without |
| PseudoQuant.GroupParamsOf | awq/quantize/quantizer.py:84-100 | a group's scale is positive, and its zero offset lies in `[min_int, max_int]` |
| PseudoQuant.GroupStepCovers | awq/quantize/quantizer.py:89-100 | `max_int` steps of the scale are exactly the group's span (zero point) or its largest magnitude (symmetric), floored at 1e-5, so they cover it |
| PseudoQuant.Code | awq/quantize/quantizer.py:90-102 | every integer code lies in `[min_int, max_int]` |
| PseudoQuant.DequantizeInRange | awq/quantize/quantizer.py:91-102 | a code's value lies between the values of the smallest and the largest code |
| PseudoQuant.QuantizeGroup | awq/quantize/quantizer.py:84-102 | one group comes back with its length, each weight mapped to its code's value |
| PseudoQuant.GroupSymmetricBound | awq/quantize/quantizer.py:95-102 | symmetric mode: the clamp never binds, and every weight moves by at most half a step |
| PseudoQuant.GroupZeroPointBound | awq/quantize/quantizer.py:84-93 | zero-point mode, for a group whose range contains 0: every weight moves by at most half a step |
| PseudoQuant.QuantizeRow | awq/quantize/quantizer.py:77-79 | a row is cut into groups of `group_size`, and every element is quantized within its own group |
| PseudoQuant.SingleGroupRow | awq/quantize/quantizer.py:77-80 | with `group_size <= 0` the whole row is one group |
| PseudoQuant.PseudoQuantize | awq/quantize/quantizer.py:75-110 | fails iff the group size does not divide the row, the tensor is empty, or symmetric 1-bit gives NaN; on success the weight keeps its shape, the scales are `rows x groups`, and zeros exist exactly in zero-point mode |
| PseudoQuant.QuantCodes | awq/quantize/quantizer.py:90-102 | the stored integer codes have the weight's shape and lie in `[min_int, max_int]` |
| PseudoQuant.ReportedGroup | awq/quantize/quantizer.py:77-110 | the scale and zero reported for column `j`'s group are those computed from exactly that slice of the row |
| PseudoQuant.QuantizedElement | awq/quantize/quantizer.py:84-110 | every returned weight is `(code - zero) * scale` under the reported scale and zero |
| PseudoQuant.CodeElement | awq/quantize/quantizer.py:84-110 | every returned weight is the stored code, dequantized with the reported parameters |
| PseudoQuant.QuantizedInRange | awq/quantize/quantizer.py:87-102 | every returned weight lies in `[(min_int - zero) * s, (max_int - zero) * s]` for its group |
| PseudoQuant.SymmetricErrorBound | awq/quantize/quantizer.py:95-102 | symmetric mode: each returned weight is within half its group's scale of the original |
| PseudoQuant.ZeroPointErrorBound | awq/quantize/quantizer.py:84-93 | zero-point mode: the same bound for a group that holds a non-positive and a non-negative weight |
| PseudoQuantExamples.SymmetricExample | awq/quantize/quantizer.py:95-102 | 8-bit symmetric `[-5, 3, 127]` as one group has scale 1 and comes back unchanged, with no zeros |
| PseudoQuantExamples.ZeroPointCounterexample | awq/quantize/quantizer.py:84-93 | 4-bit zero-point `[1, 2]`: scale 1/15, zero clamped to 0, both weights come back as 1, and the second moves by more than half a step |
| Dequant.TileRows | awq/quantize/quantizer.py:116-117 | defines `repeat(1, k)`: every row tiled `k` times (its property is `Dequant.ExpandAt`) |
| Dequant.ExpandAt | awq/quantize/quantizer.py:116-117 | after tiling and reshaping, column `j` holds group `j mod groups` |
| Dequant.PseudoDequantize | awq/quantize/quantizer.py:112-126 | fails iff there are no groups, the tiled scales (or zeros) do not fill the weight's shape, or zero-point mode has no zeros; on success it has the weight's shape |
| Dequant.TiledDequantize | awq/quantize/quantizer.py:116-124 | on regular shapes, column `j` is dequantized with the scale and zero of group `j mod groups` |
| Dequant.GroupedDequantize | awq/quantize/quantizer.py:116-124 | the corrected dequantization, with column `j` under group `j / group_size`; succeeds iff the shapes are regular |
| Dequant.DequantizeRoundTrip | awq/quantize/quantizer.py:75-126 | dequantizing the stored codes with the reported scales and zeros, group by group, gives back exactly the quantizer's weights |
| Dequant.TiledMatchesGrouped | awq/quantize/quantizer.py:116-117 | tiling and grouping agree when a row is one group or each group is one column |
| DequantExamples.ExampleQuantize | awq/quantize/quantizer.py:75-110 | symmetric 2-bit `[1, 1, 2, 2]` in groups of 2 comes back unchanged with scales `[1, 2]` |
| DequantExamples.TilingCounterexample | awq/quantize/quantizer.py:116-124 | the tiled dequantization of that row's codes gives `[1, 2, 1, 2]`, not the weights; the grouped one gives them back |
| Chunks.Split | awq/quantize/quantizer.py:451-452 | `torch.split` makes at least one piece, none longer than the chunk size |
| Chunks.SplitCount | awq/quantize/quantizer.py:451-452 | there are `ceil(n / size)` pieces, and one for an empty input |
| Chunks.SplitAt | awq/quantize/quantizer.py:451-452 | piece `k` is the slice `[k * size, min((k + 1) * size, n))` |
| Chunks.SplitFlatten | awq/quantize/quantizer.py:266-277 | concatenating the pieces gives the sequence back, in order |
| Loss.SquaredError | awq/quantize/quantizer.py:462 | the summed squared difference is non-negative |
| Loss.SquaredErrorAppend | awq/quantize/quantizer.py:461-463 | the squared error of two concatenations is the sum of the parts' errors |
| Loss.LossChunk | awq/quantize/quantizer.py:447-448 | the chunk size never exceeds the element count, and is 0 iff there are no elements or the memory budget is below two elements |
| Loss.ChunkStep | awq/quantize/quantizer.py:451-463 | adding chunk `k`'s error to the error before it gives the error up to the end of chunk `k` |
| Loss.ComputeLoss | awq/quantize/quantizer.py:439-469 | the chunked loss equals the unchunked `sum (a - b)^2 / n`; an empty output divides by zero and a zero chunk fails the split |
| Stats.ColumnSumAppend | awq/quantize/quantizer.py:331-334 | column sums of stacked rows add up |
| Stats.MeanChunk | awq/quantize/quantizer.py:325-326 | the token chunk never exceeds the token count, and is 0 iff there are no tokens or the budget is below one row of fp32 |
| Stats.ActivationMean | awq/quantize/quantizer.py:319-336 | the chunked `x_mean` is each channel's mean absolute activation; no channels or a zero chunk fails |
| Stats.Magnitude | awq/quantize/quantizer.py:310 | a weight's magnitude relative to its group's largest (plus 1e-6) lies in `[0, 1)` |
| Stats.WeightScale | awq/quantize/quantizer.py:307-312 | `w_scale` holds every weight's relative magnitude in its flat group |
| Stats.GroupedWeightMeanBounds | awq/quantize/quantizer.py:304-314 | every entry of `w_mean` lies in `[0, 1)` |
| Stats.WeightMeanAsWritten | awq/quantize/quantizer.py:304-314 | the source's `w_mean` exists iff there are layers, the group size is positive and divides the element count, and the weight has rows or no channels (an empty mean then); so it fails for every non-positive group size |
| Stats.WeightMean | awq/quantize/quantizer.py:304-314 | the corrected `w_mean` exists under the same conditions with a non-positive group size read as one group per row, and then has one entry per input channel, each in `[0, 1)` |
| Stats.WeightMeanMatches | awq/quantize/quantizer.py:304-314 | with a positive group size the corrected and the written `w_mean` agree |
| Stats.WeightMeanCounterexample | awq/quantize/quantizer.py:307 | for `group_size = -1` the quantizer accepts a weight whose written `w_mean` fails |
| Selection.Update | awq/quantize/quantizer.py:417-420 | defines one step of the search: a candidate replaces the best only when its error compares strictly smaller (its property is `Selection.ScanSelects`) |
| Selection.ScanSelects | awq/quantize/quantizer.py:416-426 | the running best is the earliest strictly smallest error below the start value, and none iff no error beats it |
| Selection.ScanNonIncreasing | awq/quantize/quantizer.py:417-418 | the best error never gets worse as candidates are added |
| ScaleSearch.Ratio | awq/quantize/quantizer.py:386-389 | grid point `k` tries the exponent `k / 20`, in `[0, 1)` |
| ScaleSearch.PreScale | awq/quantize/quantizer.py:392-395 | a finite pre-normalisation scale is at least 1e-4, and without duo scaling it is finite iff the power is |
| ScaleSearch.Normalise | awq/quantize/quantizer.py:396 | normalising fails only without channels; the result is all finite iff the input was, and then positive |
| ScaleSearch.NormaliseDivides | awq/quantize/quantizer.py:396 | each finite scale is divided by the same positive divisor |
| ScaleSearch.NormaliseBalanced | awq/quantize/quantizer.py:396 | with an exact square root the largest normalised scale times the smallest is 1 |
| ScaleSearch.ResetNonFinite | awq/quantize/quantizer.py:399-401 | defines the reset: infinite or NaN scales become 1, and finite ones are kept |
| ScaleSearch.CandidateScales | awq/quantize/quantizer.py:389-401 | the scales of a grid point exist iff there are channels, and are all positive |
| ScaleSearch.ScaleColumns | awq/quantize/quantizer.py:405 | defines `mul_(scales)`: column `c` multiplied by `s[c]` (its partner is `ScaleSearch.UnscaleScale`) |
| ScaleSearch.UnscaleColumns | awq/quantize/quantizer.py:406-408 | defines the division by the scales: column `c` divided by `s[c]` (its partner is `ScaleSearch.UnscaleScale`) |
| ScaleSearch.UnscaleScale | awq/quantize/quantizer.py:404-408 | scaling then unscaling gives the weight back, so a trial changes a weight only by quantization |
| ScaleSearch.TrialLayer | awq/quantize/quantizer.py:404-408 | a layer's trial weight exists iff its shape is one the quantizer accepts, and keeps that shape |
| ScaleSearch.TrialLayers | awq/quantize/quantizer.py:404-408 | all trial weights exist iff every layer is accepted, each being that layer's own trial |
| ScaleSearch.TrialLayersFailure | awq/quantize/quantizer.py:404-408 | the trials raise the error of the first layer the quantizer rejects |
| ScaleSearch.TrialLossOk | awq/quantize/quantizer.py:389-414 | a grid point's trial weights exist iff the scales exist and every layer is accepted; it yields a loss iff they exist and the scored forward pass on them does not raise, and then the outcome is that pass's |
| ScaleSearch.ApplyTrial | awq/quantize/quantizer.py:404-408 | the in-place trial ends with the trial weights, or after a failure with the earlier layers trialled, the failing one multiplied and the later ones untouched |
| ScaleSearch.RunTrial | awq/quantize/quantizer.py:386-414 | one grid point yields its loss and scales and leaves its trial weights in place; a build failure leaves the state `ApplyTrial` describes, and raises only a quantizer error |
| ScaleSearch.NextBase | awq/quantize/quantizer.py:380-421 | after point 0 a shared snapshot reloads the weights times that point's scales, and otherwise every reload gives the same weights as before |
| ScaleSearch.CopiedSnapshotRestores | awq/quantize/quantizer.py:380-421 | with a copied snapshot every grid point is scored on the original weights, which are what the search leaves behind |
| ScaleSearch.SharedSnapshotCounterexample | awq/quantize/quantizer.py:380-421 | with duo scaling, activation means `[1, 1]` and weight means `[0, 1/2]`, a shared snapshot leaves the layer `[[1, 1]]` scaled, a copied one does not |
| ScaleSearch.SharedSnapshotHarmlessWithoutDuo | awq/quantize/quantizer.py:380-421 | without duo scaling, with `x ** 0 == 1` and `sqrt(1) == 1`, even a shared snapshot reloads the original weights |
| ScaleSearch.RecordLoss | awq/quantize/quantizer.py:416-420 | recording the next loss keeps the history in grid order and advances the running best by one step |
| ScaleSearch.GridLosses | awq/quantize/quantizer.py:380-422 | the trials run in grid order, each from the reloaded snapshot, until the first raise, whose error is returned with that trial's weights in place; a full grid gives twenty losses, the running best's index and its scales, and leaves the reloaded snapshot |
| ScaleSearch.ComputeBestScale | awq/quantize/quantizer.py:374-430 | every grid point yields a loss iff none raises; the first raise escapes with its trial's weights in place; after a full grid it raises iff no loss is finite, and otherwise returns the positive scales of the earliest smallest loss, leaving the reloaded snapshot |
| ClipSearch.Stride | awq/quantize/quantizer.py:508 | the token stride is `max(1, n // 512)` |
| ClipSearch.Subsample | awq/quantize/quantizer.py:509 | `[::stride]` keeps the first token and never more tokens than there are |
| ClipSearch.SubsampleCount | awq/quantize/quantizer.py:508-509 | `ceil(n / stride)` tokens are kept |
| ClipSearch.SubsampleAt | awq/quantize/quantizer.py:509 | the `k`-th kept token is token `k * stride` |
| ClipSearch.SubsampleUnit | awq/quantize/quantizer.py:508-509 | with stride 1 every token is kept |
| ClipSearch.ClampGroup | awq/quantize/quantizer.py:530-531 | clamping to `[-m, m]` bounds every weight by `m` and leaves weights already inside unchanged |
| ClipSearch.ThresholdRange | awq/quantize/quantizer.py:528-529 | every bound tried lies in `[0.55 * org_max, org_max]`, and the first is `org_max` |
| ClipSearch.FirstTrialUnclipped | awq/quantize/quantizer.py:521-531 | the first bound clips nothing |
| ClipSearch.OutputError | awq/quantize/quantizer.py:526-536 | the summed squared output change is non-negative, and zero when the weights are unchanged |
| ClipSearch.GroupError | awq/quantize/quantizer.py:536 | the mean squared output change over the tokens is non-negative, and zero when unchanged |
| ClipSearch.TrialErrors | awq/quantize/quantizer.py:528-536 | ten errors are tried in order, each finite and non-negative |
| ClipSearch.StepEntry | awq/quantize/quantizer.py:539-541 | defines the masked update of one entry: the new bound and error are taken only when the error is strictly smaller (its property is `ClipSearch.SettleSelects`) |
| ClipSearch.SettleScan | awq/quantize/quantizer.py:523-541 | the masked updates of `min_errs` and `best_max_val` are the running minimum of the selection |
| ClipSearch.SettleSelects | awq/quantize/quantizer.py:523-541 | the chosen bound belongs to the earliest smallest error, or is the unclipped bound when no error beats 1e9 |
| ClipSearch.SettleNonIncreasing | awq/quantize/quantizer.py:539-540 | `min_errs` never increases |
| ClipSearch.SettleBound | awq/quantize/quantizer.py:523-541 | the chosen bound lies in `[0.55 * org_max, org_max]` |
| ClipSearch.Block | awq/quantize/quantizer.py:513 | the channel block is 256 exactly when 256 divides the rows, and 64 otherwise |
| ClipSearch.ShapeError | awq/quantize/quantizer.py:503-514 | no shape failure iff there are channels and tokens, the group size divides the channels, and the rows are non-empty and divisible by the block |
| ClipSearch.BestClip | awq/quantize/quantizer.py:491-549 | the search succeeds iff the shapes pass and the bit width is usable; each shape failure is reported as such; the result has one bound per group of every output channel |
| ClipSearch.BestClipSelects | awq/quantize/quantizer.py:518-549 | every chosen bound is the earliest smallest-error bound of its group on the sampled tokens, or `org_max` when none beats 1e9, and lies in `[0.55 * org_max, org_max]` |
| ClipSearch.ClipAsWritten | awq/quantize/quantizer.py:503-532 | the source's search fails for every non-positive group size |
| ClipSearch.ClipMatches | awq/quantize/quantizer.py:503-532 | with a positive group size the written and the corrected search agree; otherwise every corrected success fails as written |
| ClipSearch.ClipCounterexample | awq/quantize/quantizer.py:503-532 | 64 one-weight channels with `group_size = -1` are accepted by the quantizer and the corrected search, and fail as written |
| ClipSearch.ShrinkStep | awq/quantize/quantizer.py:528-541 | one bound tried on a block advances every entry by one step |
| ClipSearch.SearchBlock | awq/quantize/quantizer.py:519-542 | the ten-bound loop over a block gives each channel's chosen bounds |
| ClipSearch.SearchBlocks | awq/quantize/quantizer.py:513-544 | the blocks, searched in order and concatenated, give every channel its own chosen bounds |
| ClipSearch.ComputeBestClip | awq/quantize/quantizer.py:491-549 | the blocked, looped search computes exactly the per-group selection |
| ClipSearch.KeptNamesContents | awq/quantize/quantizer.py:474-479 | the clipped names are exactly the layer names containing none of `q_`, `k_`, `query`, `key`, `Wqkv` |
| ClipSearch.AvoidedExamples | awq/quantize/quantizer.py:474-479 | query and key projections are skipped, and an MLP projection is not |
| ClipSearch.ClipAllNames | awq/quantize/quantizer.py:472-488 | on success the clip list names exactly the kept layers, in input order |
| ClipSearch.ClipAllSearched | awq/quantize/quantizer.py:476-486 | on success every entry holds a kept layer's name and its search result |
| ClipSearch.ClipAllMissing | awq/quantize/quantizer.py:481-484 | a missing captured input is reported only for a kept layer that has none |
| ClipSearch.SearchBestClip | awq/quantize/quantizer.py:472-488 | the layer loop computes the filtered list of searches |
| Forward.KeepKeysContents | awq/quantize/quantizer.py:715-718 | exactly the entries whose key passes are kept |
| Forward.KeepKeysAppend | awq/quantize/quantizer.py:716-718 | filtering commutes with concatenation, so entry order is kept |
| Forward.KeepKeysUnique | awq/quantize/quantizer.py:715-719 | a filtered dict still has unique keys |
| Forward.SanitizeKwargs | awq/quantize/quantizer.py:714-719 | the result holds exactly the entries whose key is a parameter of `forward`, values unchanged |
| Forward.SanitizeIdempotent | awq/quantize/quantizer.py:714-719 | sanitizing twice is sanitizing once |
| Forward.SanitizeOrder | awq/quantize/quantizer.py:715-718 | sanitizing keeps the entries' relative order |
| Forward.DropUseCache | awq/quantize/quantizer.py:296-297 | every entry except `use_cache` is kept, and a dict without it is unchanged |
| Forward.ModuleForward | awq/quantize/quantizer.py:253-277 | the forward fails iff the slice size is 0 and there are samples, and otherwise gives one output per sample |
| Forward.ForwardSplitMatches | awq/quantize/quantizer.py:263-277 | running slices of any positive size and concatenating equals running all samples at once without the mask |
| Forward.ForwardDropsMask | awq/quantize/quantizer.py:255-270 | the sliced path differs from the all-at-once path whenever the mask changes some sample's output |
| ApplyQuant.KernelOf | awq/quantize/quantizer.py:214-230 | `gemm`, `gemv`, `marlin` and `gemv_fast` select their kernels, and any other version none |
| ApplyQuant.Transpose | awq/quantize/quantizer.py:215-217 | defines `.t()`: rows and columns swapped (its property is `ApplyQuant.TransposeTwice`) |
| ApplyQuant.TransposeTwice | awq/quantize/quantizer.py:215-217 | transposing twice gives the matrix back, so the GEMM layout loses nothing |
| ApplyQuant.KernelZeros | awq/quantize/quantizer.py:216-217 | defines the zeros handed to the kernel: transposed for GEMM when present, as-is otherwise |
| ApplyQuant.QuantLayer | awq/quantize/quantizer.py:207-240 | a layer is packed with its fake-quantized weight iff quantization succeeds and the version is known; otherwise it stays dense with the error |
| ApplyQuant.GemmScales | awq/quantize/quantizer.py:214-227 | GEMM gets the scales transposed, one row per group; the other kernels get scales and zeros unchanged |
| ApplyQuant.ApplyQuantization | awq/quantize/quantizer.py:204-245 | the layers are processed in order, keeping their names; a failure stops at the first failing layer, leaving the later ones untouched |
| ApplyQuant.UnknownVersionOverwrites | awq/quantize/quantizer.py:210-230 | an unknown version leaves the fake-quantized weight in a layer that is not packed |

## Left out

- `tqdm`, `clear_memory`, logging, and the `.cpu()`/`.to()` moves of
  activations, means and outputs: they do not change any value. The one
  device effect that does, the weight snapshot of `_compute_best_scale`, is
  modelled through `ScaleSearch.Snapshot`.
- fp16/fp32 rounding, overflow and NaN propagation are not modelled; reals
  are exact. `x.pow`, `sqrt` and the module's forward pass are parameters,
  and `.half()` before quantization is not modelled.
- `init_quant`, the `quantize` and `pack` loops and `_get_input_feat`: they
  load data, place tensors on devices and install forward hooks. The
  captured input features are an input of the clip search instead.
  `apply_scale` and `apply_clip` live in `awq/quantize/scale.py`, which is
  not part of this model.
- The `WQLinear_*` kernels and `from_linear` are not part of this model. A
  packed slot records the arguments the kernel receives.
- A tuple returned by a module is assumed to be reduced to its first element
  already, and the forward pass is a per-sample function.
- `w_bit = 0`, where Python computes a fractional `2 ** -1`, is excluded by
  the `ValidBits` precondition.
- PseudoQuant.PseudoQuantize: the NaN assertion on the input (line 81) is
  not modelled, because reals have no NaN.
- PseudoQuant.ZeroPointErrorBound: the half-step bound is stated only for
  groups whose range contains 0, because it is false otherwise.
- Loss.ComputeLoss: requires outputs of equal length. The source's
  broadcast of unequal chunks is not modelled.
- ScaleSearch.ComputeBestScale: the scores come from one `score` parameter
  per trial, which may return any error; which errors it returns is left to
  `Forward.ModuleForward` and `Loss.ComputeLoss`, not tied to them here. The
  mutable default `kwargs={}` and the keyword plumbing of the forward pass
  are not modelled.
- Stats.WeightMeanAsWritten: a weight with channels but no rows gives NaN
  means in torch; the model reports `EmptyTensor`, because reals have no NaN.
- Stats.WeightMean: the same case is reported as `EmptyTensor`, for the same
  reason.
- ScaleSearch.Normalise: any non-finite pre-scale makes the whole vector
  non-finite, so every scale is reset to 1. In floating point an infinite
  maximum would instead turn the finite scales into 0. The model does not
  tell an infinity from a NaN.
- ScaleSearch.NormaliseBalanced: stated only for a square root that is
  exact on the given product.
- ClipSearch.BestClip: the result is `rows x groups`; the trailing axis of
  size 1 that the source's result keeps is left out.
- ClipSearch.ClipAsWritten: models only the failure at `pseudo_quantize_tensor`'s
  `w.dim() == 2` assertion, not the four-dimensional tensor itself.
- The `Shaped` preconditions take tensors to be rectangular, which torch
  guarantees by construction.

## Findings

| source | as written | input that shows it | evidently intended | confidence | as-written member | corrected member |
|---|---|---|---|---|---|---|
| awq/quantize/quantizer.py:116-117 | `scales.repeat(1, k)` tiles the row of group scales, so column `j` gets group `j mod groups` | symmetric 2-bit, `group_size = 2`, row `[1, 1, 2, 2]`: scales `[1, 2]`, codes `[1, 1, 1, 1]`, dequantized `[1, 2, 1, 2]` (DequantExamples.TilingCounterexample) | `repeat_interleave(k, dim=1)`, so column `j` gets group `j / group_size` and the quantizer's weights come back | high (not executed) | Dequant.PseudoDequantize | Dequant.GroupedDequantize |
| awq/quantize/quantizer.py:307 | `weight.view(-1, self.group_size)` with the configured group size | `group_size = -1` (per-channel), weight `[[1]]`: the quantizer accepts it, but `view(-1, -1)` fails (Stats.WeightMeanCounterexample) | a non-positive group size read as one group per row, as `pseudo_quantize_tensor` reads it | high (not executed) | Stats.WeightMeanAsWritten | Stats.WeightMean |
| awq/quantize/quantizer.py:380-421 | `org_sd` holds `v.cpu()` of the `state_dict()` tensors, which for a block on the CPU share storage with the weights, so the `mul_` of grid point 0 (line 405) scales the snapshot before `.data` is rebound, and `load_state_dict` (line 421) reloads `W * s0` | block on the CPU, duo scaling, activation means `[1, 1]`, weight means `[0, 1/2]`, layer `[[1, 1]]`: `s0` is not all ones, so grid points 1 to 19 are scored on `W * s0` and the layer is left scaled (ScaleSearch.SharedSnapshotCounterexample) | a snapshot that copies (`v.detach().clone()`), so every trial starts from and the search ends with the original weights | medium (not executed) | ScaleSearch.SharedSnapshotCounterexample | ScaleSearch.CopiedSnapshotRestores |
| awq/quantize/quantizer.py:503-532 | the clipped weight stays four-dimensional, which `pseudo_quantize_tensor` accepts only through its reshape for a positive group size | `group_size = -1`, 64 channels of one weight, one token: `w.dim() == 2` fails at line 80 (ClipSearch.ClipCounterexample) | the clipped groups quantized as one group per row | medium (not executed) | ClipSearch.ClipAsWritten | ClipSearch.BestClip |
