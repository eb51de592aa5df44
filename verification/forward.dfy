/** The plumbing around a module's forward pass: `_sanitize_kwargs`, the
    removal of `use_cache` in `_search_best_scale`, and `_module_forward`,
    which runs the calibration samples either all at once or in slices of
    `n_parallel_calib_samples` and concatenates the outputs. */
module Forward {
  import opened Wrappers
  import opened Seqs
  import opened Chunks

  // ---------------------------------------------------------------------
  // Keyword arguments

  /** No key occurs twice: what a Python dict guarantees. */
  predicate UniqueKeys<V>(kw: seq<(string, V)>) {
    forall i, j :: 0 <= i < j < |kw| ==> kw[i].0 != kw[j].0
  }

  /** The entries whose key passes `keep`, in their original order and with
      their values unchanged. */
  function KeepKeys<V>(kw: seq<(string, V)>, keep: string -> bool): (r: seq<(string, V)>)
    ensures |r| <= |kw|
  {
    if |kw| == 0 then []
    else
      var last := kw[|kw| - 1];
      KeepKeys(kw[..|kw| - 1], keep) + (if keep(last.0) then [last] else [])
  }

  /** Exactly the entries whose key passes are kept. */
  lemma {:induction false} KeepKeysContents<V>(kw: seq<(string, V)>, keep: string -> bool)
    ensures forall p :: p in KeepKeys(kw, keep) <==> p in kw && keep(p.0)
    ensures forall i :: 0 <= i < |KeepKeys(kw, keep)| ==>
      KeepKeys(kw, keep)[i] in kw && keep(KeepKeys(kw, keep)[i].0)
    decreases |kw|
  {
    if |kw| > 0 {
      var init := kw[..|kw| - 1];
      KeepKeysContents(init, keep);
      assert kw == init + [kw[|kw| - 1]];
    }
    var r := KeepKeys(kw, keep);
    assert forall i :: 0 <= i < |r| ==> r[i] in r;
  }

  /** Filtering commutes with concatenation, so the order of entries is kept. */
  lemma {:induction false} KeepKeysAppend<V>(a: seq<(string, V)>, b: seq<(string, V)>, keep: string -> bool)
    ensures KeepKeys(a + b, keep) == KeepKeys(a, keep) + KeepKeys(b, keep)
    decreases |b|
  {
    if |b| == 0 {
      assert a + b == a;
    } else {
      var init := b[..|b| - 1];
      assert (a + b)[..|a + b| - 1] == a + init;
      KeepKeysAppend(a, init, keep);
    }
  }

  /** Filtering twice by the same keys filters once. */
  lemma {:induction false} KeepKeysIdempotent<V>(kw: seq<(string, V)>, keep: string -> bool)
    ensures KeepKeys(KeepKeys(kw, keep), keep) == KeepKeys(kw, keep)
    decreases |kw|
  {
    if |kw| > 0 {
      var init := kw[..|kw| - 1];
      var last := kw[|kw| - 1];
      KeepKeysIdempotent(init, keep);
      var tail := if keep(last.0) then [last] else [];
      KeepKeysAppend(KeepKeys(init, keep), tail, keep);
      if keep(last.0) {
        assert KeepKeys(tail, keep) == KeepKeys([], keep) + [last];
      }
    }
  }

  /** A filtered dict is still a dict. */
  lemma KeepKeysUnique<V>(kw: seq<(string, V)>, keep: string -> bool)
    requires UniqueKeys(kw)
    ensures UniqueKeys(KeepKeys(kw, keep))
  {
    var r := KeepKeys(kw, keep);
    KeepKeysContents(kw, keep);
    forall i, j | 0 <= i < j < |r|
      ensures r[i].0 != r[j].0
    {
      KeepKeysOrder(kw, keep, i, j);
    }
  }

  /** Two kept entries come from two positions of the input, in the same order. */
  lemma {:induction false} KeepKeysOrder<V>(kw: seq<(string, V)>, keep: string -> bool, i: nat, j: nat)
    requires UniqueKeys(kw) && i < j < |KeepKeys(kw, keep)|
    ensures KeepKeys(kw, keep)[i].0 != KeepKeys(kw, keep)[j].0
    decreases |kw|
  {
    var init := kw[..|kw| - 1];
    var last := kw[|kw| - 1];
    var prev := KeepKeys(init, keep);
    KeepKeysContents(init, keep);
    if j < |prev| {
      KeepKeysOrder(init, keep, i, j);
    } else {
      assert prev[i] in prev;
      assert prev[i] in init;
      var k :| 0 <= k < |init| && init[k] == prev[i];
      assert kw[k] == init[k];
    }
  }

  /** `_sanitize_kwargs`: the entries whose key is a parameter of the
      module's `forward`, in their original order. */
  function SanitizeKwargs<V>(kw: seq<(string, V)>, signature: set<string>): (r: seq<(string, V)>)
    ensures forall i :: 0 <= i < |r| ==> r[i] in kw && r[i].0 in signature
    ensures forall i :: 0 <= i < |kw| && kw[i].0 in signature ==> kw[i] in r
    ensures UniqueKeys(kw) ==> UniqueKeys(r)
  {
    KeepKeysContents(kw, k => k in signature);
    if UniqueKeys(kw) then
      KeepKeysUnique(kw, k => k in signature);
      KeepKeys(kw, k => k in signature)
    else
      KeepKeys(kw, k => k in signature)
  }

  /** Sanitizing an already sanitized dict changes nothing. */
  lemma SanitizeIdempotent<V>(kw: seq<(string, V)>, signature: set<string>)
    ensures SanitizeKwargs(SanitizeKwargs(kw, signature), signature) == SanitizeKwargs(kw, signature)
  {
    KeepKeysIdempotent(kw, k => k in signature);
  }

  /** Sanitizing the two halves of a dict sanitizes the whole: entries keep
      their relative order. */
  lemma SanitizeOrder<V>(a: seq<(string, V)>, b: seq<(string, V)>, signature: set<string>)
    ensures SanitizeKwargs(a + b, signature) == SanitizeKwargs(a, signature) + SanitizeKwargs(b, signature)
  {
    KeepKeysAppend(a, b, k => k in signature);
  }

  /** `if "use_cache" in kwargs: kwargs.pop("use_cache")`. */
  function DropUseCache<V>(kw: seq<(string, V)>): (r: seq<(string, V)>)
    ensures forall i :: 0 <= i < |r| ==> r[i] in kw && r[i].0 != "use_cache"
    ensures forall i :: 0 <= i < |kw| && kw[i].0 != "use_cache" ==> kw[i] in r
    ensures (forall i :: 0 <= i < |kw| ==> kw[i].0 != "use_cache") ==> r == kw
  {
    KeepKeysContents(kw, k => k != "use_cache");
    if forall i :: 0 <= i < |kw| ==> kw[i].0 != "use_cache" then
      KeepAll(kw, k => k != "use_cache");
      KeepKeys(kw, k => k != "use_cache")
    else
      KeepKeys(kw, k => k != "use_cache")
  }

  /** A filter every key passes keeps everything. */
  lemma {:induction false} KeepAll<V>(kw: seq<(string, V)>, keep: string -> bool)
    requires forall i :: 0 <= i < |kw| ==> keep(kw[i].0)
    ensures KeepKeys(kw, keep) == kw
    decreases |kw|
  {
    if |kw| > 0 {
      var init := kw[..|kw| - 1];
      KeepAll(init, keep);
      assert kw == init + [kw[|kw| - 1]];
    }
  }

  // ---------------------------------------------------------------------
  // `_module_forward`

  /** The module run on the samples `xs` with mask argument `m`. The module
      is given by its output for one sample: samples are processed
      independently, and a tuple output is already reduced to its first
      element. */
  function Apply<S, M, O>(layer: (S, Option<M>) -> O, xs: seq<S>, m: Option<M>): (r: seq<O>)
    ensures |r| == |xs| && forall i :: 0 <= i < |xs| ==> r[i] == layer(xs[i], m)
  {
    seq(|xs|, i requires 0 <= i < |xs| => layer(xs[i], m))
  }

  /** The module run on each slice in turn. */
  function SliceOutputs<S, M, O>(layer: (S, Option<M>) -> O, parts: seq<seq<S>>, m: Option<M>): (r: seq<seq<O>>)
    ensures |r| == |parts| && forall k :: 0 <= k < |parts| ==> r[k] == Apply(layer, parts[k], m)
  {
    seq(|parts|, k requires 0 <= k < |parts| => Apply(layer, parts[k], m))
  }

  /** Concatenating the slices' outputs is running the module on the
      concatenated slices. */
  lemma {:induction false} ApplyFlatten<S, M, O>(layer: (S, Option<M>) -> O, parts: seq<seq<S>>, m: Option<M>)
    ensures Flatten(SliceOutputs(layer, parts, m)) == Apply(layer, Flatten(parts), m)
    decreases |parts|
  {
    if |parts| > 0 {
      var init := parts[..|parts| - 1];
      var outs := SliceOutputs(layer, parts, m);
      assert outs[..|outs| - 1] == SliceOutputs(layer, init, m);
      ApplyFlatten(layer, init, m);
      var a, b := Flatten(init), parts[|parts| - 1];
      assert Apply(layer, a + b, m) == Apply(layer, a, m) + Apply(layer, b, m);
    }
  }

  /** `_module_forward` on the calibration samples `x`. With
      `n_parallel_calib_samples` unset the module sees the attention mask;
      otherwise the samples are split into slices of that many, each slice
      runs without the mask, and the outputs are concatenated. `torch.split`
      rejects a slice size of 0 unless there is nothing to split. */
  function ModuleForward<S, M, O>(parallel: Option<nat>, x: seq<S>, mask: Option<M>,
                                  layer: (S, Option<M>) -> O): (r: Result<seq<O>>)
    ensures r.Err? <==> parallel == Some(0) && |x| > 0
    ensures r.Err? ==> r.error == ZeroChunk
    ensures r.Ok? ==> |r.value| == |x|
  {
    if parallel.None? then Ok(Apply(layer, x, mask))
    else if parallel.value == 0 then
      if |x| == 0 then Ok([]) else Err(ZeroChunk)
    else
      var n := parallel.value;
      ApplyFlatten(layer, Split(x, n), None);
      SplitFlatten(x, n);
      Ok(Flatten(SliceOutputs(layer, Split(x, n), None)))
  }

  /** Running the samples in slices of any positive size gives the output of
      running them all at once without a mask. */
  lemma ForwardSplitMatches<S, M, O>(n: nat, x: seq<S>, mask: Option<M>, layer: (S, Option<M>) -> O)
    requires n > 0
    ensures ModuleForward(Some(n), x, mask, layer) == ModuleForward(None, x, None, layer)
  {
    ApplyFlatten(layer, Split(x, n), None);
    SplitFlatten(x, n);
  }

  /** The sliced path drops the attention mask: whatever mask is given, the
      output is the unmasked one, so it differs from the all-at-once output
      as soon as the mask changes the module's output on some sample. */
  lemma ForwardDropsMask<S, M, O>(n: nat, x: seq<S>, mask: M, layer: (S, Option<M>) -> O, i: nat)
    requires n > 0 && i < |x| && layer(x[i], Some(mask)) != layer(x[i], None)
    ensures ModuleForward(Some(n), x, Some(mask), layer) != ModuleForward(None, x, Some(mask), layer)
  {
    ForwardSplitMatches(n, x, Some(mask), layer);
    assert ModuleForward(None, x, None, layer).value[i] != ModuleForward(None, x, Some(mask), layer).value[i];
  }
}
