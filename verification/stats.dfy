/** The two per-channel statistics `_search_best_scale` feeds into the scale
    grid: the mean activation magnitude `x_mean`, accumulated over chunks of
    tokens, and the mean normalised weight magnitude `w_mean`. */
module Stats {
  import opened Wrappers
  import opened Rounding
  import opened Seqs
  import opened Chunks
  import opened PseudoQuant
  import Arith
  import RealArith

  /** Sum of column `c` over the rows of a matrix (`sum(dim=0)`). */
  function ColumnSum(m: seq<seq<real>>, cols: nat, c: nat): real
    requires Shaped(m, cols) && c < cols
  {
    if |m| == 0 then 0.0 else ColumnSum(m[..|m| - 1], cols, c) + m[|m| - 1][c]
  }

  lemma {:induction false} ColumnSumAppend(m1: seq<seq<real>>, m2: seq<seq<real>>, cols: nat, c: nat)
    requires Shaped(m1, cols) && Shaped(m2, cols) && c < cols
    ensures Shaped(m1 + m2, cols)
    ensures ColumnSum(m1 + m2, cols, c) == ColumnSum(m1, cols, c) + ColumnSum(m2, cols, c)
    decreases |m2|
  {
    var m := m1 + m2;
    if |m2| == 0 {
      assert m == m1;
    } else {
      assert m[..|m| - 1] == m1 + m2[..|m2| - 1];
      ColumnSumAppend(m1, m2[..|m2| - 1], cols, c);
    }
  }

  /** A column of entries in `[0, 1)` sums to less than the row count. */
  lemma {:induction false} ColumnSumBelowCount(m: seq<seq<real>>, cols: nat, c: nat)
    requires Shaped(m, cols) && c < cols
    requires forall r :: 0 <= r < |m| ==> 0.0 <= m[r][c] < 1.0
    ensures 0.0 <= ColumnSum(m, cols, c) <= |m| as real
    ensures |m| > 0 ==> ColumnSum(m, cols, c) < |m| as real
    decreases |m|
  {
    if |m| > 0 {
      ColumnSumBelowCount(m[..|m| - 1], cols, c);
    }
  }

  /** `x.abs()`, entry by entry. */
  function AbsRows(x: seq<seq<real>>, cols: nat): (a: seq<seq<real>>)
    requires Shaped(x, cols)
    ensures |a| == |x| && Shaped(a, cols)
    ensures forall r, c :: 0 <= r < |x| && 0 <= c < cols ==> a[r][c] == Abs(x[r][c])
  {
    seq(|x|, r requires 0 <= r < |x| => seq(cols, c requires 0 <= c < cols => Abs(x[r][c])))
  }

  /** Rows per chunk: `max_chunk_memory // (2 * element_size * channels)`,
      capped at the number of rows. */
  function MeanChunk(rows: nat, channels: nat, maxChunkMemory: nat, elementSize: nat): (c: nat)
    requires elementSize > 0 && channels > 0
    ensures c <= rows
    ensures c == 0 <==> rows == 0 || maxChunkMemory < 2 * elementSize * channels
  {
    Arith.DivZero(maxChunkMemory, elementSize * 2 * channels);
    Cap(maxChunkMemory / (elementSize * 2 * channels), rows)
  }

  /** The `x_mean` loop over the flattened activations `[tokens, channels]`:
      `range(0, n, chunk)` with each chunk's column sums added into a running
      total, then divided by the token count. No channels fails the reshape
      to `(-1, channels)`; a zero chunk (which includes zero tokens) fails
      `range`. */
  method ActivationMean(x: seq<seq<real>>, channels: nat, maxChunkMemory: nat, elementSize: nat)
    returns (r: Result<seq<real>>)
    requires Shaped(x, channels) && elementSize > 0
    ensures channels == 0 ==> r == Err(EmptyTensor)
    ensures channels > 0 && (|x| == 0 || maxChunkMemory < 2 * elementSize * channels) ==> r == Err(ZeroChunk)
    ensures r.Ok? <==> channels > 0 && |x| > 0 && maxChunkMemory >= 2 * elementSize * channels
    ensures r.Ok? ==> |r.value| == channels
    ensures r.Ok? ==> forall c :: 0 <= c < channels ==>
      r.value[c] == ColumnSum(AbsRows(x, channels), channels, c) / |x| as real
  {
    if channels == 0 {
      return Err(EmptyTensor);
    }
    var n := |x|;
    var chunk := MeanChunk(n, channels, maxChunkMemory, elementSize);
    if chunk == 0 {
      return Err(ZeroChunk);
    }
    var a := AbsRows(x, channels);
    var sum := seq(channels, c => 0.0);
    var i := 0;
    while i < n
      invariant 0 <= i <= n && |sum| == channels
      invariant forall c :: 0 <= c < channels ==> sum[c] == ColumnSum(a[..i], channels, c)
    {
      var end := Cap(i + chunk, n);
      var part := a[i..end];
      sum := seq(channels, c requires 0 <= c < channels => sum[c] + ColumnSum(part, channels, c));
      forall c | 0 <= c < channels
        ensures sum[c] == ColumnSum(a[..end], channels, c)
      {
        assert a[..end] == a[..i] + part;
        ColumnSumAppend(a[..i], part, channels, c);
      }
      i := end;
    }
    assert a[..n] == a;
    r := Ok(seq(channels, c requires 0 <= c < channels => sum[c] / n as real));
  }

  /** `w.abs() / (w.abs().amax(group) + 1e-6)` for the weight at position `k`
      of a flat sequence cut into groups of `n`. */
  function Magnitude(flat: seq<real>, n: nat, k: nat): (v: real)
    requires n > 0 && |flat| % n == 0 && k < |flat|
    ensures 0.0 <= v < 1.0
  {
    var g := GroupOf(flat, n, GroupIndex(k, n, |flat|));
    var t := GroupOffset(k, n, |flat|);
    var d := MaxAbs(g) + 0.000001;
    assert Abs(flat[k]) == Abs(g[t]) <= MaxAbs(g);
    RealArith.RatioBelowOne(Abs(flat[k]), d);
    Abs(flat[k]) / d
  }

  /** `w_scale`: every weight's magnitude relative to its group's largest. */
  function WeightScale(flat: seq<real>, n: nat): (r: seq<real>)
    requires n > 0 && |flat| % n == 0
    ensures |r| == |flat|
    ensures forall k :: 0 <= k < |flat| ==> r[k] == Magnitude(flat, n, k)
  {
    seq(|flat|, k requires 0 <= k < |flat| => Magnitude(flat, n, k))
  }

  /** `w_scale.view(rows, cols).mean(0)` for groups of `n` over the flattened weight. */
  function GroupedWeightMean(w: seq<seq<real>>, cols: nat, n: nat): (r: seq<real>)
    requires n > 0 && Shaped(w, cols) && |w| > 0 && (|w| * cols) % n == 0
    ensures |r| == cols
  {
    FlattenLength(w, cols);
    var m := Reshape(WeightScale(Flatten(w), n), |w|, cols);
    seq(cols, c requires 0 <= c < cols => ColumnSum(m, cols, c) / |w| as real)
  }

  /** Every entry of `w_mean` lies in `[0, 1)`. */
  lemma GroupedWeightMeanBounds(w: seq<seq<real>>, cols: nat, n: nat, c: nat)
    requires n > 0 && Shaped(w, cols) && |w| > 0 && (|w| * cols) % n == 0 && c < cols
    ensures 0.0 <= GroupedWeightMean(w, cols, n)[c] < 1.0
  {
    FlattenLength(w, cols);
    var flat := Flatten(w);
    var m := Reshape(WeightScale(flat, n), |w|, cols);
    forall r | 0 <= r < |m|
      ensures 0.0 <= m[r][c] < 1.0
    {
      ReshapeAt(WeightScale(flat, n), |w|, cols, r, c);
    }
    ColumnSumBelowCount(m, cols, c);
    RealArith.RatioBelowOne(ColumnSum(m, cols, c), |w| as real);
  }

  /** The layers' weights concatenated along the output axis (`torch.cat(dim=0)`). */
  function Concat(layers: seq<seq<seq<real>>>, cols: nat): (w: seq<seq<real>>)
    requires forall l :: 0 <= l < |layers| ==> Shaped(layers[l], cols)
    ensures Shaped(w, cols)
  {
    if |layers| == 0 then []
    else
      var init, last := Concat(layers[..|layers| - 1], cols), layers[|layers| - 1];
      assert Shaped(last, cols);
      assert Shaped(init + last, cols) by {
        forall r | 0 <= r < |init + last|
          ensures |(init + last)[r]| == cols
        {
          if r >= |init| {
            assert (init + last)[r] == last[r - |init|];
          }
        }
      }
      init + last
  }

  /** `w_mean` as the source computes it: `weight.view(-1, group_size)` with
      the configured group size, which a non-positive group size makes fail
      even though the quantizer itself reads it as "one group per row". A
      weight with no input channels gives an empty mean; one with no rows
      would give NaN means, reported here as `EmptyTensor`. */
  function WeightMeanAsWritten(groupSize: int, layers: seq<seq<seq<real>>>, cols: nat): (r: Result<seq<real>>)
    requires forall l :: 0 <= l < |layers| ==> Shaped(layers[l], cols)
    ensures groupSize <= 0 ==> r.Err?
    ensures r.Ok? <==> && |layers| > 0 && groupSize > 0
                       && (|Concat(layers, cols)| * cols) % groupSize == 0
                       && (cols == 0 || |Concat(layers, cols)| > 0)
    ensures r.Ok? ==> |r.value| == cols
  {
    var w := Concat(layers, cols);
    if |layers| == 0 then Err(EmptyTensor)
    else if groupSize <= 0 then Err(ShapeMismatch)
    else if (|w| * cols) % groupSize != 0 then Err(ShapeMismatch)
    else if cols == 0 then Ok([])
    else if |w| == 0 then Err(EmptyTensor)
    else Ok(GroupedWeightMean(w, cols, groupSize))
  }

  /** `w_mean` with a non-positive group size read as one group per row, as
      `pseudo_quantize_tensor` and `_compute_best_clip` read it; then a row
      with no input channels is an empty group, whose maximum fails. */
  function WeightMean(cfg: Config, layers: seq<seq<seq<real>>>, cols: nat): (r: Result<seq<real>>)
    requires forall l :: 0 <= l < |layers| ==> Shaped(layers[l], cols)
    ensures r.Ok? <==> && |layers| > 0 && (cfg.groupSize > 0 || cols > 0)
                       && (|Concat(layers, cols)| * cols) % EffGroup(cfg, cols) == 0
                       && (cols == 0 || |Concat(layers, cols)| > 0)
    ensures r.Ok? ==> |r.value| == cols
    ensures r.Ok? ==> forall c :: 0 <= c < cols ==> 0.0 <= r.value[c] < 1.0
  {
    var w := Concat(layers, cols);
    var n := EffGroup(cfg, cols);
    if |layers| == 0 || n == 0 then Err(EmptyTensor)
    else if (|w| * cols) % n != 0 then Err(ShapeMismatch)
    else if cols == 0 then Ok([])
    else if |w| == 0 then Err(EmptyTensor)
    else
      var mean := GroupedWeightMean(w, cols, n);
      assert forall c :: 0 <= c < cols ==> 0.0 <= mean[c] < 1.0 by {
        forall c | 0 <= c < cols {
          GroupedWeightMeanBounds(w, cols, n, c);
        }
      }
      Ok(mean)
  }

  /** With a positive group size the corrected `w_mean` is the source's. */
  lemma WeightMeanMatches(cfg: Config, layers: seq<seq<seq<real>>>, cols: nat)
    requires forall l :: 0 <= l < |layers| ==> Shaped(layers[l], cols)
    requires cfg.groupSize > 0
    ensures WeightMean(cfg, layers, cols) == WeightMeanAsWritten(cfg.groupSize, layers, cols)
  {
  }

  /** Per-channel quantization (`group_size = -1`) of the single weight `1`:
      the quantizer accepts it, the source's `w_mean` fails, the corrected
      one returns `1 / (1 + 1e-6)`. */
  lemma WeightMeanCounterexample()
    ensures PseudoQuantize(Config(8, -1, false), [[1.0]], 1).Ok?
    ensures WeightMeanAsWritten(-1, [[[1.0]]], 1) == Err(ShapeMismatch)
    ensures WeightMean(Config(8, -1, false), [[[1.0]]], 1).Ok?
  {
    var cfg := Config(8, -1, false);
    assert Pow2(7) == 128;
    assert Quantizable(cfg);
    assert Concat([[[1.0]]], 1) == [[1.0]];
  }
}
