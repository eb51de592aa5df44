/** `_apply_quant`: every linear layer of a decoder block, in order, has its
    weight replaced by the pseudo-quantized one and is then handed, with its
    scales and zeros, to the packed-kernel class the configured version
    names. The packing kernels themselves are not part of this model: a
    packed layer records the arguments it was built from. */
module ApplyQuant {
  import opened Wrappers
  import opened Seqs
  import opened PseudoQuant
  import opened PseudoQuantExamples

  /** The packed-kernel classes `WQLinear_GEMM`, `WQLinear_GEMV`,
      `WQLinear_Marlin` and `WQLinear_GEMVFast`. */
  datatype Kernel = Gemm | Gemv | Marlin | GemvFast

  /** The kernel a `version` string selects; any other string is unknown. */
  function KernelOf(version: string): (k: Option<Kernel>)
    ensures k == Some(Gemm) <==> version == "gemm"
    ensures k == Some(Gemv) <==> version == "gemv"
    ensures k == Some(Marlin) <==> version == "marlin"
    ensures k == Some(GemvFast) <==> version == "gemv_fast"
  {
    if version == "gemm" then Some(Gemm)
    else if version == "gemv" then Some(Gemv)
    else if version == "marlin" then Some(Marlin)
    else if version == "gemv_fast" then Some(GemvFast)
    else None
  }

  /** `m.t()` for a matrix with `cols` columns. */
  function Transpose<T>(m: seq<seq<T>>, cols: nat): (t: seq<seq<T>>)
    requires Shaped(m, cols)
    ensures |t| == cols && Shaped(t, |m|)
    ensures forall i, j :: 0 <= i < cols && 0 <= j < |m| ==> t[i][j] == m[j][i]
  {
    seq(cols, i requires 0 <= i < cols => seq(|m|, j requires 0 <= j < |m| => m[j][i]))
  }

  /** Transposing twice gives the matrix back, so the GEMM layout loses
      nothing. */
  lemma TransposeTwice<T>(m: seq<seq<T>>, cols: nat)
    requires Shaped(m, cols)
    ensures Transpose(Transpose(m, cols), |m|) == m
  {
    var t := Transpose(Transpose(m, cols), |m|);
    assert |t| == |m|;
    forall j | 0 <= j < |m|
      ensures t[j] == m[j]
    {
      assert |t[j]| == cols == |m[j]|;
    }
  }

  /** A linear layer: its name in `named_linears` and its `rows x cols` weight. */
  datatype Linear = Linear(name: string, weight: seq<seq<real>>, cols: nat)

  /** What a layer slot of the block holds: the original `nn.Linear`, or the
      packed replacement and the arguments `from_linear` received. */
  datatype Slot =
    | Dense(layer: Linear)
    | Packed(name: string, kernel: Kernel, weight: seq<seq<real>>,
             scales: seq<seq<real>>, zeros: Option<seq<seq<int>>>)
  {
    function Name(): string {
      if Dense? then layer.name else name
    }
  }

  /** The zeros handed to the kernel: transposed for GEMM when present. */
  function KernelZeros(k: Kernel, zeros: Option<seq<seq<int>>>, cols: nat): (z: Option<seq<seq<int>>>)
    requires zeros.Some? ==> Shaped(zeros.value, cols)
    ensures z.Some? <==> zeros.Some?
    ensures zeros.Some? && k == Gemm ==> z.value == Transpose(zeros.value, cols)
    ensures k != Gemm ==> z == zeros
  {
    if zeros.Some? && k == Gemm then Some(Transpose(zeros.value, cols)) else zeros
  }

  /** One layer through the loop body: the slot it leaves behind and the
      error it raises, if any. The weight is overwritten before the version
      is looked at, so an unknown version leaves the pseudo-quantized weight
      in the still-dense layer. */
  function QuantLayer(cfg: Config, version: string, l: Linear): (r: (Slot, Option<Error>))
    requires ValidBits(cfg) && Shaped(l.weight, l.cols)
    ensures r.0.Name() == l.name
    ensures PseudoQuantize(cfg, l.weight, l.cols).Err? ==>
      r == (Dense(l), Some(PseudoQuantize(cfg, l.weight, l.cols).error))
    ensures PseudoQuantize(cfg, l.weight, l.cols).Ok? && KernelOf(version).None? ==>
      r == (Dense(Linear(l.name, PseudoQuantize(cfg, l.weight, l.cols).value.w, l.cols)), Some(UnknownVersion(version)))
    ensures r.1.None? <==> PseudoQuantize(cfg, l.weight, l.cols).Ok? && KernelOf(version).Some?
    ensures r.1.None? ==>
      && r.0.Packed? && r.0.kernel == KernelOf(version).value
      && r.0.weight == PseudoQuantize(cfg, l.weight, l.cols).value.w
  {
    var pq := PseudoQuantize(cfg, l.weight, l.cols);
    if pq.Err? then (Dense(l), Some(pq.error))
    else
      var q := pq.value;
      var kernel := KernelOf(version);
      if kernel.None? then (Dense(Linear(l.name, q.w, l.cols)), Some(UnknownVersion(version)))
      else
        var groups := l.cols / EffGroup(cfg, l.cols);
        var k := kernel.value;
        var scales := if k == Gemm then Transpose(q.scales, groups) else q.scales;
        (Packed(l.name, k, q.w, scales, KernelZeros(k, q.zeros, groups)), None)
  }

  /** The GEMM kernel gets the scales transposed (one row per group), the
      others get them as the quantizer returned them. */
  lemma GemmScales(cfg: Config, version: string, l: Linear)
    requires ValidBits(cfg) && Shaped(l.weight, l.cols)
    requires QuantLayer(cfg, version, l).1.None?
    ensures var q := PseudoQuantize(cfg, l.weight, l.cols).value;
      var groups := l.cols / EffGroup(cfg, l.cols);
      var s := QuantLayer(cfg, version, l).0;
      && (version == "gemm" ==> s.scales == Transpose(q.scales, groups) && Transpose(s.scales, |q.scales|) == q.scales)
      && (version != "gemm" ==> s.scales == q.scales && s.zeros == q.zeros)
  {
    var q := PseudoQuantize(cfg, l.weight, l.cols).value;
    var groups := l.cols / EffGroup(cfg, l.cols);
    if version == "gemm" {
      TransposeTwice(q.scales, groups);
    }
  }

  /** Slots `[0, k)` hold what the loop body left in them, the rest still
      hold the original layers. */
  predicate Progress(cfg: Config, version: string, layers: seq<Linear>, state: seq<Slot>, k: nat)
    requires ValidBits(cfg) && forall i :: 0 <= i < |layers| ==> Shaped(layers[i].weight, layers[i].cols)
  {
    && k <= |layers| == |state|
    && (forall i :: 0 <= i < k ==> state[i] == QuantLayer(cfg, version, layers[i]).0)
    && (forall i :: k <= i < |layers| ==> state[i] == Dense(layers[i]))
  }

  /** `_apply_quant` over the named linears in order. It stops at the first
      error: the layers before it are packed, the failing layer holds what
      the loop body left in it, and the layers after it are untouched. */
  method ApplyQuantization(cfg: Config, version: string, layers: seq<Linear>)
    returns (state: seq<Slot>, err: Option<Error>)
    requires ValidBits(cfg) && forall i :: 0 <= i < |layers| ==> Shaped(layers[i].weight, layers[i].cols)
    ensures |state| == |layers| && forall i :: 0 <= i < |layers| ==> state[i].Name() == layers[i].name
    ensures err.None? <==> forall i :: 0 <= i < |layers| ==> QuantLayer(cfg, version, layers[i]).1.None?
    ensures err.None? ==> Progress(cfg, version, layers, state, |layers|)
    ensures err.Some? ==> exists f ::
      && 0 <= f < |layers|
      && (forall i :: 0 <= i < f ==> QuantLayer(cfg, version, layers[i]).1.None?)
      && err == QuantLayer(cfg, version, layers[f]).1
      && Progress(cfg, version, layers, state, f + 1)
  {
    state := seq(|layers|, i requires 0 <= i < |layers| => Dense(layers[i]));
    var k := 0;
    while k < |layers|
      invariant Progress(cfg, version, layers, state, k)
      invariant forall i :: 0 <= i < k ==> QuantLayer(cfg, version, layers[i]).1.None?
    {
      var r := QuantLayer(cfg, version, layers[k]);
      state := state[k := r.0];
      if r.1.Some? {
        err := r.1;
        return;
      }
      k := k + 1;
    }
    err := None;
  }

  /** With an unknown version the first layer's weight has already been
      replaced when the error is raised: zero-point 4-bit on `[1, 2]` leaves
      `[1, 1]` behind in a layer that is not packed. */
  lemma UnknownVersionOverwrites()
    ensures var l := Linear("fc1", [[1.0, 2.0]], 2);
      QuantLayer(Config(4, 0, true), "exllama", l)
      == (Dense(Linear("fc1", [[1.0, 1.0]], 2)), Some(UnknownVersion("exllama")))
  {
    ZeroPointCounterexample();
    assert KernelOf("exllama").None?;
  }
}
