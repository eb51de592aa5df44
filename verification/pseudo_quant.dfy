/** The group-wise pseudo-quantizer: every group of a weight row gets a
    scale (and, in zero-point mode, an integer zero offset); each weight is
    mapped to a clamped integer code and immediately mapped back to a real,
    so the result carries exactly the rounding error the packed kernel will
    see. Arithmetic is exact; torch's fp16/fp32 rounding is not modelled. */
module PseudoQuant {
  import opened Wrappers
  import opened Rounding
  import opened Seqs
  import Arith
  import opened RealArith

  /** The quantization settings the quantizer reads: `w_bit`, `group_size`
      (non-positive means one group per row) and `zero_point`. */
  datatype Config = Config(wBit: nat, groupSize: int, zeroPoint: bool)

  /** `w_bit = 0` makes Python compute a fractional `2 ** -1`; it is outside the model. */
  predicate ValidBits(cfg: Config) {
    cfg.wBit >= 1
  }

  /** Largest code: `2^w_bit - 1` with a zero point, `2^(w_bit-1) - 1` without. */
  function MaxInt(cfg: Config): int
    requires ValidBits(cfg)
  {
    if cfg.zeroPoint then Pow2(cfg.wBit) - 1 else Pow2(cfg.wBit - 1) - 1
  }

  /** Smallest code: `0` with a zero point, `-2^(w_bit-1)` without. */
  function MinInt(cfg: Config): (r: int)
    requires ValidBits(cfg)
    ensures r <= 0 && r < MaxInt(cfg)
    ensures !cfg.zeroPoint ==> r == -MaxInt(cfg) - 1
  {
    if cfg.zeroPoint then 0 else -(Pow2(cfg.wBit - 1) as int)
  }

  /** Codes are usable only when the range has a positive top; symmetric
      1-bit gives `max_int = 0`, an infinite scale and NaN weights. */
  predicate Quantizable(cfg: Config) {
    ValidBits(cfg) && MaxInt(cfg) >= 1
  }

  /** The floor applied to a group's range before it is divided into steps. */
  const ScaleFloor: real := 0.00001

  datatype GroupParams = GroupParams(scale: real, zero: int)

  /** Scale and zero offset of one group. */
  function GroupParamsOf(cfg: Config, g: seq<real>): (p: GroupParams)
    requires Quantizable(cfg) && |g| > 0
    ensures p.scale > 0.0
    ensures MinInt(cfg) <= p.zero <= MaxInt(cfg)
    ensures !cfg.zeroPoint ==> p.zero == 0
  {
    var n := MaxInt(cfg);
    var s := StepFor(GroupSpan(cfg, g), n);
    GroupParams(s, if cfg.zeroPoint then Clamp(-Round(Min(g) / s), 0, n) else 0)
  }

  /** The step that spreads a span (floored at `ScaleFloor`) over `n` codes. */
  function StepFor(span: real, n: int): (s: real)
    requires n >= 1
    ensures s > 0.0 && s * n as real >= span
  {
    var c := ClampBelow(span, ScaleFloor);
    DivThenMul(c, n as real);
    PositiveQuotient(c, n as real);
    c / n as real
  }

  /** The step covers the group: its span (zero-point) or its largest
      magnitude (symmetric), floored at `ScaleFloor`, is exactly `max_int`
      steps. */
  lemma GroupStepCovers(cfg: Config, g: seq<real>)
    requires Quantizable(cfg) && |g| > 0
    ensures GroupParamsOf(cfg, g).scale * MaxInt(cfg) as real >= GroupSpan(cfg, g)
    ensures GroupParamsOf(cfg, g).scale * MaxInt(cfg) as real == ClampBelow(GroupSpan(cfg, g), ScaleFloor)
  {
    var n := MaxInt(cfg);
    var s := StepFor(GroupSpan(cfg, g), n);
    assert GroupParamsOf(cfg, g).scale == s;
    DivThenMul(ClampBelow(GroupSpan(cfg, g), ScaleFloor), n as real);
  }

  /** `n` steps of size `s` cover a span. */
  predicate Fits(span: real, s: real, n: int) {
    span <= s * n as real
  }

  /** What a group's codes must cover: its range with a zero point, its
      largest magnitude without. */
  function GroupSpan(cfg: Config, g: seq<real>): real
    requires |g| > 0
  {
    if cfg.zeroPoint then Max(g) - Min(g) else MaxAbs(g)
  }

  /** The integer code of `x`: `clamp(round(x / s) + zero, min_int, max_int)`. */
  function Code(cfg: Config, p: GroupParams, x: real): (c: int)
    requires Quantizable(cfg) && p.scale > 0.0
    ensures MinInt(cfg) <= c <= MaxInt(cfg)
  {
    Clamp(Round(x / p.scale) + p.zero, MinInt(cfg), MaxInt(cfg))
  }

  /** The real value a code stands for: `(code - zero) * s`. */
  function Dequantize(p: GroupParams, c: int): real {
    (c - p.zero) as real * p.scale
  }

  /** `v` lies between the values of the smallest and the largest code. */
  predicate InCodeRange(cfg: Config, p: GroupParams, v: real)
    requires ValidBits(cfg)
  {
    (MinInt(cfg) - p.zero) as real * p.scale <= v <= (MaxInt(cfg) - p.zero) as real * p.scale
  }

  lemma DequantizeInRange(cfg: Config, p: GroupParams, c: int)
    requires ValidBits(cfg) && p.scale > 0.0 && MinInt(cfg) <= c <= MaxInt(cfg)
    ensures InCodeRange(cfg, p, Dequantize(p, c))
  {
    var lo, hi := (MinInt(cfg) - p.zero) as real, (MaxInt(cfg) - p.zero) as real;
    var v := (c - p.zero) as real;
    MulMonotoneReal(lo, v, p.scale);
    MulMonotoneReal(v, hi, p.scale);
  }

  /** One group quantized and dequantized. */
  function QuantizeGroup(cfg: Config, g: seq<real>): (q: seq<real>)
    requires Quantizable(cfg) && |g| > 0
    ensures |q| == |g|
    ensures forall i :: 0 <= i < |g| ==> InCodeRange(cfg, GroupParamsOf(cfg, g), q[i])
  {
    var p := GroupParamsOf(cfg, g);
    var q := seq(|g|, i requires 0 <= i < |g| => Dequantize(p, Code(cfg, p, g[i])));
    assert forall i :: 0 <= i < |g| ==> InCodeRange(cfg, p, q[i]) by {
      forall i | 0 <= i < |g| {
        DequantizeInRange(cfg, p, Code(cfg, p, g[i]));
      }
    }
    q
  }

  /** Symmetric mode: every weight moves by at most half a step, because the
      scale covers the largest magnitude and the clamp never binds. */
  lemma GroupSymmetricBound(cfg: Config, g: seq<real>, i: int)
    requires Quantizable(cfg) && !cfg.zeroPoint && 0 <= i < |g|
    ensures Code(cfg, GroupParamsOf(cfg, g), g[i]) == Round(g[i] / GroupParamsOf(cfg, g).scale)
    ensures WithinHalfStep(QuantizeGroup(cfg, g)[i], g[i], GroupParamsOf(cfg, g).scale)
  {
    SymmetricCover(cfg, g, i);
    SymmetricElement(cfg, GroupParamsOf(cfg, g), g[i]);
  }

  /** A weight covered by the scale, with no zero offset. */
  lemma SymmetricElement(cfg: Config, p: GroupParams, x: real)
    requires Quantizable(cfg) && !cfg.zeroPoint && p.zero == 0 && p.scale > 0.0
    requires Abs(x) <= p.scale * MaxInt(cfg) as real
    ensures Code(cfg, p, x) == Round(x / p.scale)
    ensures WithinHalfStep(Dequantize(p, Code(cfg, p, x)), x, p.scale)
  {
    var c := Round(x / p.scale);
    RoundWithinCover(x, p.scale, MaxInt(cfg));
    assert Code(cfg, p, x) == c;
    HalfStepCode(p, c, x);
  }

  /** Zero-point mode, for a group whose range contains 0: the zero offset
      is not clamped, so every weight moves by at most half a step. */
  lemma GroupZeroPointBound(cfg: Config, g: seq<real>, i: int)
    requires Quantizable(cfg) && cfg.zeroPoint && 0 <= i < |g|
    requires Min(g) <= 0.0 <= Max(g)
    ensures GroupParamsOf(cfg, g).zero == -Round(Min(g) / GroupParamsOf(cfg, g).scale)
    ensures WithinHalfStep(QuantizeGroup(cfg, g)[i], g[i], GroupParamsOf(cfg, g).scale)
  {
    ZeroPointGroupValue(cfg, g, g[i]);
    GroupElement(cfg, g, i);
  }

  lemma ZeroPointGroupValue(cfg: Config, g: seq<real>, x: real)
    requires Quantizable(cfg) && cfg.zeroPoint && |g| > 0
    requires Min(g) <= x <= Max(g) && Min(g) <= 0.0 <= Max(g)
    ensures GroupParamsOf(cfg, g).zero == -Round(Min(g) / GroupParamsOf(cfg, g).scale)
    ensures var p := GroupParamsOf(cfg, g);
      WithinHalfStep(Dequantize(p, Code(cfg, p, x)), x, p.scale)
  {
    ZeroPointCover(cfg, g);
    ZeroOfGroup(cfg, g);
    ZeroPointElement(cfg, GroupParamsOf(cfg, g), x, Min(g), Max(g));
  }

  /** Unfolds `QuantizeGroup` at one element, so that callers see the term
      without the whole group's definition in context. */
  lemma GroupElement(cfg: Config, g: seq<real>, i: int)
    requires Quantizable(cfg) && 0 <= i < |g|
    ensures QuantizeGroup(cfg, g)[i] == Dequantize(GroupParamsOf(cfg, g), Code(cfg, GroupParamsOf(cfg, g), g[i]))
  {
  }

  /** Unfolds the zero offset of a zero-point group, for the same reason. */
  lemma ZeroOfGroup(cfg: Config, g: seq<real>)
    requires Quantizable(cfg) && cfg.zeroPoint && |g| > 0
    ensures GroupParamsOf(cfg, g).zero == Clamp(-Round(Min(g) / GroupParamsOf(cfg, g).scale), 0, MaxInt(cfg))
  {
  }

  /** The zero offset `-round(min / s)` already lies in `[0, n]` when the
      range `[lo, hi]` contains 0 and fits in `n` steps. */
  lemma ZeroPointOffset(n: int, s: real, lo: real, hi: real)
    requires n >= 1 && s > 0.0 && lo <= 0.0 <= hi && hi - lo <= s * n as real
    ensures 0 <= -Round(lo / s) <= n
  {
    var m := lo / s;
    NonPositiveQuotient(lo, s);
    QuotientBound(lo, s, n as real);
    RoundMonotone(m, 0.0);
    RoundOfInt(0);
    RoundMonotone(-(n as real), m);
    RoundOfInt(-n);
  }

  /** A weight of a zero-point group whose range `[lo, hi]` contains 0. */
  lemma ZeroPointElement(cfg: Config, p: GroupParams, x: real, lo: real, hi: real)
    requires Quantizable(cfg) && cfg.zeroPoint && p.scale > 0.0
    requires lo <= x <= hi && lo <= 0.0 <= hi && Fits(hi - lo, p.scale, MaxInt(cfg))
    requires p.zero == Clamp(-Round(lo / p.scale), 0, MaxInt(cfg))
    ensures p.zero == -Round(lo / p.scale)
    ensures WithinHalfStep(Dequantize(p, Code(cfg, p, x)), x, p.scale)
  {
    var n := MaxInt(cfg);
    ZeroPointQuotients(n, p.scale, x, lo, hi);
    var c := Code(cfg, p, x);
    CodeOffset(Round(x / p.scale), p.zero, MinInt(cfg), n, lo / p.scale, x / p.scale);
    HalfStepCode(p, c, x);
  }

  /** In units of `s`, the weight lies at most `n` above the group's
      minimum, whose offset lies in `[0, n]`. */
  lemma ZeroPointQuotients(n: int, s: real, x: real, lo: real, hi: real)
    requires n >= 1 && s > 0.0
    requires lo <= x <= hi && lo <= 0.0 <= hi && Fits(hi - lo, s, n)
    ensures 0 <= -Round(lo / s) <= n
    ensures lo / s <= x / s <= lo / s + n as real
  {
    ZeroPointOffset(n, s, lo, hi);
    QuotientShift(lo, x, s, n as real);
  }

  /** A code within half a unit of `x / s` after removing the zero offset. */
  lemma HalfStepCode(p: GroupParams, c: int, x: real)
    requires p.scale > 0.0 && -0.5 <= (c - p.zero) as real - x / p.scale <= 0.5
    ensures WithinHalfStep(Dequantize(p, c), x, p.scale)
  {
    StepError(c - p.zero, x, p.scale);
  }

  /** The clamped code, less the zero offset `-round(m)`, stays within half
      a unit of `y` when `y` lies in `[m, m + hi]`: clamping at the top
      only cuts off codes above `y`. */
  lemma CodeOffset(r: int, z: int, lo: int, hi: int, m: real, y: real)
    requires r == Round(y) && z == -Round(m)
    requires lo <= 0 <= z <= hi && m <= y <= m + hi as real
    ensures -0.5 <= (Clamp(r + z, lo, hi) - z) as real - y <= 0.5
  {
    RoundMonotone(m, y);
  }

  /** `v` stands within half a step `s` of `x`. */
  predicate WithinHalfStep(v: real, x: real, s: real) {
    Abs(v - x) <= s / 2.0
  }

  lemma ZeroPointCover(cfg: Config, g: seq<real>)
    requires Quantizable(cfg) && cfg.zeroPoint && |g| > 0
    ensures Fits(Max(g) - Min(g), GroupParamsOf(cfg, g).scale, MaxInt(cfg))
  {
    GroupStepCovers(cfg, g);
    assert GroupSpan(cfg, g) == Max(g) - Min(g);
  }

  lemma SymmetricCover(cfg: Config, g: seq<real>, i: int)
    requires Quantizable(cfg) && !cfg.zeroPoint && 0 <= i < |g|
    ensures Abs(g[i]) <= GroupParamsOf(cfg, g).scale * MaxInt(cfg) as real
  {
    GroupStepCovers(cfg, g);
    assert GroupSpan(cfg, g) == MaxAbs(g);
    assert Abs(g[i]) <= MaxAbs(g);
  }

  /** A value covered by `n` steps of size `s` rounds to a code in `[-n, n]`
      whose value is within half a step. */
  lemma RoundWithinCover(x: real, s: real, n: int)
    requires s > 0.0 && n >= 1 && Abs(x) <= s * n as real
    ensures -n <= Round(x / s) <= n
    ensures Abs(Round(x / s) as real * s - x) <= s / 2.0
  {
    var y := x / s;
    QuotientBound(x, s, n as real);
    RoundMonotone(y, n as real);
    RoundMonotone(-(n as real), y);
    RoundOfInt(n);
    RoundOfInt(-n);
    RoundErrorScaled(x, s);
  }

  /** Rounding `x / s` and scaling back moves `x` by at most half a step. */
  lemma RoundErrorScaled(x: real, s: real)
    requires s > 0.0
    ensures Abs(Round(x / s) as real * s - x) <= s / 2.0
  {
    var y := x / s;
    var d := Round(y) as real - y;
    assert y * s == x;
    HalfStep(d, s);
    assert Round(x / s) as real * s - x == d * s;
  }

  // ---------------------------------------------------------------------
  // Rows and matrices

  /** Elements per group: `group_size`, or the whole row when it is not positive. */
  function EffGroup(cfg: Config, cols: nat): nat {
    if cfg.groupSize > 0 then cfg.groupSize else cols
  }

  /** Group `k` of a row cut into groups of `n` elements. */
  function GroupOf(row: seq<real>, n: nat, k: nat): (g: seq<real>)
    requires n > 0 && |row| % n == 0 && k < |row| / n
    ensures |g| == n && 0 <= k * n && k * n + n <= |row|
    ensures forall t :: 0 <= t < n ==> g[t] == row[k * n + t]
  {
    var b := k * n;
    Arith.GroupInRow(k, n, |row|);
    row[b .. b + n]
  }

  /** The group that element `j` of a row of `len` elements falls in. */
  function GroupIndex(j: nat, n: nat, len: nat): (k: nat)
    requires n > 0 && len % n == 0 && j < len
    ensures k < len / n && k * n <= j < k * n + n
  {
    Arith.ElementGroup(j, n, len);
    j / n
  }

  /** The position of element `j` inside its group. */
  function GroupOffset(j: nat, n: nat, len: nat): (t: nat)
    requires n > 0 && len % n == 0 && j < len
    ensures t < n && GroupIndex(j, n, len) * n + t == j
  {
    Arith.ElementGroup(j, n, len);
    j % n
  }

  /** Scale and zero of every group of a row, in order. */
  function RowParams(cfg: Config, row: seq<real>, n: nat): (ps: seq<GroupParams>)
    requires Quantizable(cfg) && n > 0 && |row| % n == 0
    ensures |ps| == |row| / n
    ensures forall k :: 0 <= k < |ps| ==> ps[k] == GroupParamsOf(cfg, GroupOf(row, n, k))
  {
    seq(|row| / n, k requires 0 <= k < |row| / n => GroupParamsOf(cfg, GroupOf(row, n, k)))
  }

  /** A row quantized group by group. */
  function QuantizeRow(cfg: Config, row: seq<real>, n: nat): (q: seq<real>)
    requires n > 0 && |row| % n == 0 && (|row| == 0 || Quantizable(cfg))
    ensures |q| == |row|
  {
    seq(|row|, j requires 0 <= j < |row| =>
      QuantizeGroup(cfg, GroupOf(row, n, GroupIndex(j, n, |row|)))[GroupOffset(j, n, |row|)])
  }

  /** A row that is a single group is quantized as that group. */
  lemma SingleGroupRow(cfg: Config, row: seq<real>)
    requires |row| > 0 && Quantizable(cfg)
    ensures |row| % |row| == 0 && QuantizeRow(cfg, row, |row|) == QuantizeGroup(cfg, row)
  {
    var n := |row|;
    SingleGroupIndex(n, 0);
    assert GroupOf(row, n, 0) == row;
    forall j | 0 <= j < n
      ensures QuantizeRow(cfg, row, n)[j] == QuantizeGroup(cfg, row)[j]
    {
      SingleGroupIndex(n, j);
    }
  }

  lemma SingleGroupIndex(n: nat, j: nat)
    requires j < n
    ensures n % n == 0 && n / n == 1
    ensures GroupIndex(j, n, n) == 0 && GroupOffset(j, n, n) == j
  {
    Arith.DivUnique(n, n, 1, 0);
    var k := GroupIndex(j, n, n);
    if k > 0 {
      Arith.MulMonotone(1, k, n);
    }
  }

  /** What `pseudo_quantize_tensor` returns: the fake-quantized weight, the
      per-group scales, and the per-group zeros in zero-point mode. */
  datatype Quantized = Quantized(w: seq<seq<real>>, scales: seq<seq<real>>, zeros: Option<seq<seq<int>>>)

  /** The shape conditions under which the quantizer returns normally. */
  predicate Accepts(cfg: Config, rows: nat, cols: nat)
    requires ValidBits(cfg)
  {
    rows > 0
    && (cfg.groupSize > 0 ==> cols % cfg.groupSize == 0)
    && (cfg.groupSize <= 0 ==> cols > 0)
    && (cols > 0 ==> Quantizable(cfg))
  }

  /** `pseudo_quantize_tensor` on a `rows x cols` weight. */
  function PseudoQuantize(cfg: Config, w: seq<seq<real>>, cols: nat): (r: Result<Quantized>)
    requires ValidBits(cfg) && Shaped(w, cols)
    ensures r.Ok? <==> Accepts(cfg, |w|, cols)
    ensures r == Err(GroupSizeMismatch) <==> cfg.groupSize > 0 && cols % cfg.groupSize != 0
    ensures r == Err(NonFiniteResult) <==>
      ((cfg.groupSize > 0 ==> cols % cfg.groupSize == 0) && |w| > 0 && cols > 0 && !Quantizable(cfg))
    ensures r.Ok? ==> ShapeOk(cfg, r.value, |w|, cols)
    ensures r.Err? ==> r.error in {GroupSizeMismatch, EmptyTensor, NonFiniteResult}
  {
    var n := EffGroup(cfg, cols);
    if cfg.groupSize > 0 && cols % cfg.groupSize != 0 then Err(GroupSizeMismatch)
    else if cfg.groupSize <= 0 && cols == 0 then Err(EmptyTensor)
    else if |w| > 0 && cols > 0 && !Quantizable(cfg) then Err(NonFiniteResult)
    else if |w| == 0 then Err(EmptyTensor)
    else if cols == 0 then
      var empty := seq(|w|, i => []);
      Ok(Quantized(w, empty, if cfg.zeroPoint then Some(seq(|w|, i => [])) else None))
    else
      var ps := MatrixParams(cfg, w, cols);
      Ok(Quantized(QuantizeRows(cfg, w, cols), Scales(ps), if cfg.zeroPoint then Some(Zeros(ps)) else None))
  }

  /** Every row quantized with the group size in force. */
  function QuantizeRows(cfg: Config, w: seq<seq<real>>, cols: nat): (q: seq<seq<real>>)
    requires Quantizable(cfg) && Shaped(w, cols) && EffGroup(cfg, cols) > 0 && cols % EffGroup(cfg, cols) == 0
    ensures |q| == |w| && Shaped(q, cols)
  {
    seq(|w|, i requires 0 <= i < |w| => QuantizeRow(cfg, w[i], EffGroup(cfg, cols)))
  }

  /** The parameters of every group of every row. */
  function MatrixParams(cfg: Config, w: seq<seq<real>>, cols: nat): (ps: seq<seq<GroupParams>>)
    requires Quantizable(cfg) && Shaped(w, cols) && EffGroup(cfg, cols) > 0 && cols % EffGroup(cfg, cols) == 0
    ensures |ps| == |w| && Shaped(ps, cols / EffGroup(cfg, cols))
    ensures forall i :: 0 <= i < |w| ==> ps[i] == RowParams(cfg, w[i], EffGroup(cfg, cols))
  {
    seq(|w|, i requires 0 <= i < |w| => RowParams(cfg, w[i], EffGroup(cfg, cols)))
  }

  function Scales(ps: seq<seq<GroupParams>>): (s: seq<seq<real>>)
    ensures |s| == |ps|
    ensures forall i :: 0 <= i < |ps| ==> |s[i]| == |ps[i]|
    ensures forall i, k :: 0 <= i < |ps| && 0 <= k < |ps[i]| ==> s[i][k] == ps[i][k].scale
  {
    seq(|ps|, i requires 0 <= i < |ps| => seq(|ps[i]|, k requires 0 <= k < |ps[i]| => ps[i][k].scale))
  }

  function Zeros(ps: seq<seq<GroupParams>>): (z: seq<seq<int>>)
    ensures |z| == |ps|
    ensures forall i :: 0 <= i < |ps| ==> |z[i]| == |ps[i]|
    ensures forall i, k :: 0 <= i < |ps| && 0 <= k < |ps[i]| ==> z[i][k] == ps[i][k].zero
  {
    seq(|ps|, i requires 0 <= i < |ps| => seq(|ps[i]|, k requires 0 <= k < |ps[i]| => ps[i][k].zero))
  }

  /** The result has the input's shape, one scale per group, and zeros exactly
      in zero-point mode, with the scales' shape. */
  predicate ShapeOk(cfg: Config, q: Quantized, rows: nat, cols: nat) {
    var n := EffGroup(cfg, cols);
    n > 0 && cols % n == 0
    && |q.w| == rows && Shaped(q.w, cols)
    && |q.scales| == rows && Shaped(q.scales, cols / n)
    && (q.zeros.Some? <==> cfg.zeroPoint)
    && (q.zeros.Some? ==> |q.zeros.value| == rows && Shaped(q.zeros.value, cols / n))
  }

  /** The integer codes behind the result: what the packed kernel stores. */
  function QuantCodes(cfg: Config, w: seq<seq<real>>, cols: nat): (c: seq<seq<int>>)
    requires Quantizable(cfg) && Shaped(w, cols) && EffGroup(cfg, cols) > 0 && cols % EffGroup(cfg, cols) == 0
    ensures |c| == |w| && Shaped(c, cols)
    ensures forall i, j :: 0 <= i < |w| && 0 <= j < cols ==> MinInt(cfg) <= c[i][j] <= MaxInt(cfg)
  {
    var n := EffGroup(cfg, cols);
    seq(|w|, i requires 0 <= i < |w| => seq(cols, j requires 0 <= j < cols =>
      Code(cfg, GroupParamsOf(cfg, GroupOf(w[i], n, GroupIndex(j, n, cols))), w[i][j])))
  }

  /** The scale and zero reported for group `k` of row `i`. */
  function ReportedParams(cfg: Config, q: Quantized, i: nat, k: nat): GroupParams
    requires i < |q.scales| && k < |q.scales[i]|
    requires q.zeros.Some? ==> i < |q.zeros.value| && k < |q.zeros.value[i]|
  {
    GroupParams(q.scales[i][k], if q.zeros.Some? then q.zeros.value[i][k] else 0)
  }

  /** The parameters reported for the group of column `j` are the ones
      computed from exactly that slice of the row, and the returned weight
      is that group's quantized element. */
  lemma ReportedGroup(cfg: Config, w: seq<seq<real>>, cols: nat, i: nat, j: nat)
    requires ValidBits(cfg) && Shaped(w, cols) && PseudoQuantize(cfg, w, cols).Ok?
    requires i < |w| && j < cols
    ensures var q, n := PseudoQuantize(cfg, w, cols).value, EffGroup(cfg, cols);
      var k, t := GroupIndex(j, n, cols), GroupOffset(j, n, cols);
      Quantizable(cfg)
      && GroupOf(w[i], n, k)[t] == w[i][j]
      && ReportedParams(cfg, q, i, k) == GroupParamsOf(cfg, GroupOf(w[i], n, k))
      && q.w[i][j] == QuantizeGroup(cfg, GroupOf(w[i], n, k))[t]
  {
    var q, n := PseudoQuantize(cfg, w, cols).value, EffGroup(cfg, cols);
    var k := GroupIndex(j, n, cols);
    var ps := MatrixParams(cfg, w, cols);
    assert ps[i][k] == GroupParamsOf(cfg, GroupOf(w[i], n, k));
    assert q.scales == Scales(ps);
    assert q.w[i] == QuantizeRow(cfg, w[i], n);
  }

  /** Every returned weight is its group's code under the reported scale and
      zero, mapped back: the reported parameters reproduce the result. */
  lemma QuantizedElement(cfg: Config, w: seq<seq<real>>, cols: nat, i: nat, j: nat)
    requires ValidBits(cfg) && Shaped(w, cols) && PseudoQuantize(cfg, w, cols).Ok?
    requires i < |w| && j < cols
    ensures var q, n := PseudoQuantize(cfg, w, cols).value, EffGroup(cfg, cols);
      var p := ReportedParams(cfg, q, i, GroupIndex(j, n, cols));
      Quantizable(cfg) && p.scale > 0.0 && MinInt(cfg) <= p.zero <= MaxInt(cfg)
      && q.w[i][j] == Dequantize(p, Code(cfg, p, w[i][j]))
  {
    var n := EffGroup(cfg, cols);
    ReportedGroup(cfg, w, cols, i, j);
    GroupElement(cfg, GroupOf(w[i], n, GroupIndex(j, n, cols)), GroupOffset(j, n, cols));
  }

  /** The returned weight is its code, under the reported scale and zero. */
  lemma CodeElement(cfg: Config, w: seq<seq<real>>, cols: nat, i: nat, j: nat)
    requires ValidBits(cfg) && Shaped(w, cols) && PseudoQuantize(cfg, w, cols).Ok?
    requires i < |w| && j < cols
    ensures var q, n := PseudoQuantize(cfg, w, cols).value, EffGroup(cfg, cols);
      var p := ReportedParams(cfg, q, i, GroupIndex(j, n, cols));
      Quantizable(cfg) && q.w[i][j] == Dequantize(p, QuantCodes(cfg, w, cols)[i][j])
  {
    QuantizedElement(cfg, w, cols, i, j);
    ReportedGroup(cfg, w, cols, i, j);
  }

  /** Code ranges: every returned weight lies between the values of the
      smallest and the largest code of its group. */
  lemma QuantizedInRange(cfg: Config, w: seq<seq<real>>, cols: nat, i: nat, j: nat)
    requires ValidBits(cfg) && Shaped(w, cols) && PseudoQuantize(cfg, w, cols).Ok?
    requires i < |w| && j < cols
    ensures var q, n := PseudoQuantize(cfg, w, cols).value, EffGroup(cfg, cols);
      var p := ReportedParams(cfg, q, i, GroupIndex(j, n, cols));
      MinInt(cfg) <= p.zero <= MaxInt(cfg) && InCodeRange(cfg, p, q.w[i][j])
  {
    var q, n := PseudoQuantize(cfg, w, cols).value, EffGroup(cfg, cols);
    QuantizedElement(cfg, w, cols, i, j);
    var p := ReportedParams(cfg, q, i, GroupIndex(j, n, cols));
    DequantizeInRange(cfg, p, Code(cfg, p, w[i][j]));
  }

  /** Symmetric mode: every returned weight is within half of its group's
      scale of the original. */
  lemma SymmetricErrorBound(cfg: Config, w: seq<seq<real>>, cols: nat, i: nat, j: nat)
    requires ValidBits(cfg) && !cfg.zeroPoint && Shaped(w, cols) && PseudoQuantize(cfg, w, cols).Ok?
    requires i < |w| && j < cols
    ensures var q, n := PseudoQuantize(cfg, w, cols).value, EffGroup(cfg, cols);
      WithinHalfStep(q.w[i][j], w[i][j], q.scales[i][GroupIndex(j, n, cols)])
  {
    var n := EffGroup(cfg, cols);
    ReportedGroup(cfg, w, cols, i, j);
    GroupSymmetricBound(cfg, GroupOf(w[i], n, GroupIndex(j, n, cols)), GroupOffset(j, n, cols));
  }

  /** Zero-point mode: the same half-step bound, for a group holding a
      non-positive weight (column `a`) and a non-negative one (column `b`). */
  lemma ZeroPointErrorBound(cfg: Config, w: seq<seq<real>>, cols: nat, i: nat, j: nat, a: nat, b: nat)
    requires ValidBits(cfg) && cfg.zeroPoint && Shaped(w, cols) && PseudoQuantize(cfg, w, cols).Ok?
    requires i < |w| && j < cols && a < cols && b < cols
    requires var n := EffGroup(cfg, cols);
      GroupIndex(a, n, cols) == GroupIndex(j, n, cols) == GroupIndex(b, n, cols)
    requires w[i][a] <= 0.0 <= w[i][b]
    ensures var q, n := PseudoQuantize(cfg, w, cols).value, EffGroup(cfg, cols);
      WithinHalfStep(q.w[i][j], w[i][j], q.scales[i][GroupIndex(j, n, cols)])
  {
    var n := EffGroup(cfg, cols);
    ReportedGroup(cfg, w, cols, i, j);
    ReportedGroup(cfg, w, cols, i, a);
    ReportedGroup(cfg, w, cols, i, b);
    var g := GroupOf(w[i], n, GroupIndex(j, n, cols));
    assert Min(g) <= g[GroupOffset(a, n, cols)] && g[GroupOffset(b, n, cols)] <= Max(g);
    GroupZeroPointBound(cfg, g, GroupOffset(j, n, cols));
  }
}

/** Worked examples of the pseudo-quantizer on concrete weights. */
module PseudoQuantExamples {
  import opened Wrappers
  import opened Rounding
  import opened Seqs
  import opened PseudoQuant

  /** Symmetric 8-bit, one group per row: `[-5, 3, 127]` has scale 1 and
      codes equal to the weights, so the weights come back unchanged. */
  lemma SymmetricExample()
    ensures var cfg := Config(8, 0, false);
      PseudoQuantize(cfg, [[-5.0, 3.0, 127.0]], 3) == Ok(Quantized([[-5.0, 3.0, 127.0]], [[1.0]], None))
  {
    var cfg := Config(8, 0, false);
    var g := [-5.0, 3.0, 127.0];
    var p := GroupParams(1.0, 0);
    SymmetricExampleRow();
    assert Quantizable(cfg);
    assert Shaped([g], 3);
    assert EffGroup(cfg, 3) == 3;
    var rows := QuantizeRows(cfg, [g], 3);
    assert rows[0] == QuantizeRow(cfg, g, 3);
    assert rows == [g];
    var ps := MatrixParams(cfg, [g], 3);
    assert ps[0] == RowParams(cfg, g, 3);
    assert ps == [[p]];
    var sc := Scales(ps);
    assert sc[0] == [1.0];
    assert sc == [[1.0]];
  }

  lemma SymmetricExampleRow()
    ensures var cfg, g := Config(8, 0, false), [-5.0, 3.0, 127.0];
      Quantizable(cfg) && QuantizeRow(cfg, g, 3) == g && RowParams(cfg, g, 3) == [GroupParams(1.0, 0)]
  {
    SymmetricExampleRowValues();
    SymmetricExampleRowParams();
  }

  lemma SymmetricExampleRowValues()
    ensures var cfg, g := Config(8, 0, false), [-5.0, 3.0, 127.0];
      Quantizable(cfg) && QuantizeRow(cfg, g, 3) == g
  {
    var cfg := Config(8, 0, false);
    var g := [-5.0, 3.0, 127.0];
    SymmetricExampleGroup();
    SingleGroupRow(cfg, g);
  }

  lemma SymmetricExampleRowParams()
    ensures var cfg, g := Config(8, 0, false), [-5.0, 3.0, 127.0];
      Quantizable(cfg) && RowParams(cfg, g, 3) == [GroupParams(1.0, 0)]
  {
    var cfg := Config(8, 0, false);
    var g := [-5.0, 3.0, 127.0];
    SymmetricExampleGroup();
    assert GroupOf(g, 3, 0) == g;
  }

  lemma SymmetricExampleGroup()
    ensures var cfg, g := Config(8, 0, false), [-5.0, 3.0, 127.0];
      GroupParamsOf(cfg, g) == GroupParams(1.0, 0) && QuantizeGroup(cfg, g) == g
  {
    var cfg := Config(8, 0, false);
    var g := [-5.0, 3.0, 127.0];
    assert MaxInt(cfg) == 127;
    assert MaxAbs(g) == 127.0;
    var p := GroupParamsOf(cfg, g);
    assert p == GroupParams(1.0, 0);
    RoundOfInt(-5);
    RoundOfInt(3);
    RoundOfInt(127);
    assert QuantizeGroup(cfg, g) == g;
  }

  /** Zero-point 4-bit on `[1, 2]`: the range does not contain 0, the zero
      offset `-15` is clamped to 0, and both weights come back as 1.0, so the
      second one moves by a whole unit, far more than half a step (1/30). */
  lemma ZeroPointCounterexample()
    ensures var cfg := Config(4, 0, true);
      PseudoQuantize(cfg, [[1.0, 2.0]], 2) == Ok(Quantized([[1.0, 1.0]], [[1.0 / 15.0]], Some([[0]])))
      && !WithinHalfStep(1.0, 2.0, 1.0 / 15.0)
  {
    var cfg := Config(4, 0, true);
    var g := [1.0, 2.0];
    var p := GroupParams(1.0 / 15.0, 0);
    ZeroPointExampleRowValues();
    ZeroPointExampleRowParams();
    assert Quantizable(cfg);
    assert Shaped([g], 2);
    assert EffGroup(cfg, 2) == 2;
    var rows := QuantizeRows(cfg, [g], 2);
    assert rows[0] == QuantizeRow(cfg, g, 2);
    assert rows == [[1.0, 1.0]];
    var ps := MatrixParams(cfg, [g], 2);
    assert ps[0] == RowParams(cfg, g, 2);
    assert ps == [[p]];
    var sc := Scales(ps);
    assert sc[0] == [1.0 / 15.0];
    assert sc == [[1.0 / 15.0]];
    var zs := Zeros(ps);
    assert zs[0] == [0];
    assert zs == [[0]];
  }

  lemma ZeroPointExampleRowValues()
    ensures var cfg, g := Config(4, 0, true), [1.0, 2.0];
      Quantizable(cfg) && QuantizeRow(cfg, g, 2) == [1.0, 1.0]
  {
    var cfg := Config(4, 0, true);
    var g := [1.0, 2.0];
    ZeroPointExampleGroup();
    SingleGroupRow(cfg, g);
  }

  lemma ZeroPointExampleRowParams()
    ensures var cfg, g := Config(4, 0, true), [1.0, 2.0];
      Quantizable(cfg) && RowParams(cfg, g, 2) == [GroupParams(1.0 / 15.0, 0)]
  {
    var g := [1.0, 2.0];
    ZeroPointExampleGroup();
    assert GroupOf(g, 2, 0) == g;
  }

  lemma ZeroPointExampleGroup()
    ensures var cfg, g := Config(4, 0, true), [1.0, 2.0];
      GroupParamsOf(cfg, g) == GroupParams(1.0 / 15.0, 0) && QuantizeGroup(cfg, g) == [1.0, 1.0]
  {
    var cfg := Config(4, 0, true);
    var g := [1.0, 2.0];
    assert MaxInt(cfg) == 15;
    assert Max(g) == 2.0 && Min(g) == 1.0;
    var s := 1.0 / 15.0;
    assert GroupSpan(cfg, g) == 1.0;
    assert StepFor(1.0, 15) == s;
    assert 1.0 / s == 15.0 && 2.0 / s == 30.0;
    RoundOfInt(15);
    RoundOfInt(30);
    var p := GroupParamsOf(cfg, g);
    assert p == GroupParams(s, 0);
    assert Code(cfg, p, 1.0) == 15 && Code(cfg, p, 2.0) == 15;
    assert QuantizeGroup(cfg, g) == [1.0, 1.0];
  }
}
