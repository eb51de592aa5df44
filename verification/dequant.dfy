/** Mapping integer codes back to reals with per-group scales and zeros.

    `PseudoDequantize` is the quantizer's own routine: it widens the
    `rows x groups` scale (and zero) matrix to the weight's shape by tiling
    each row (`repeat(1, cols / groups)`) and reading the result row-major.
    Tiling puts group `j mod groups` under column `j`, while the quantizer
    assigns column `j` to group `j / (cols / groups)`; the two agree only
    with one group per row or one column per group. `GroupedDequantize` is
    the grouping the quantizer uses, and the one its results invert. */
module Dequant {
  import opened Wrappers
  import opened Seqs
  import Arith
  import opened PseudoQuant

  /** `m.repeat(1, count).reshape(rows, cols)`. */
  function Expand<T>(m: seq<seq<T>>, k: nat, count: nat, rows: nat, cols: nat): (e: seq<seq<T>>)
    requires Shaped(m, k) && Fills(|m|, k, count, rows, cols)
    ensures |e| == rows && Shaped(e, cols)
  {
    var tiled := TileRows(m, k, count);
    FlattenLength(tiled, k * count);
    Reshape(Flatten(tiled), rows, cols)
  }

  /** Every row of `m` tiled `count` times. */
  function TileRows<T>(m: seq<seq<T>>, k: nat, count: nat): (t: seq<seq<T>>)
    requires Shaped(m, k)
    ensures |t| == |m| && Shaped(t, k * count)
    ensures forall r :: 0 <= r < |m| ==> t[r] == Tile(m[r], count)
  {
    seq(|m|, r requires 0 <= r < |m| => Tile(m[r], count))
  }

  /** A tiled `rowsM x k` matrix has exactly as many elements as the target shape. */
  predicate Fills(rowsM: nat, k: nat, count: nat, rows: nat, cols: nat) {
    rowsM * (k * count) == rows * cols
  }

  /** When the widened matrix has the target's rows and columns, column `j`
      of row `i` holds group `j mod k` of the same row. */
  lemma ExpandAt<T>(m: seq<seq<T>>, k: nat, count: nat, rows: nat, cols: nat, i: nat, j: nat)
    requires Shaped(m, k) && |m| == rows && k * count == cols && i < rows && j < cols
    ensures Fills(|m|, k, count, rows, cols) && k > 0
    ensures Expand(m, k, count, rows, cols)[i][j] == m[i][j % k]
  {
    var tiled := TileRows(m, k, count);
    FlattenLength(tiled, cols);
    ReshapeAt(Flatten(tiled), rows, cols, i, j);
    FlattenAt(tiled, cols, i, j);
    TileAt(m[i], count, j);
  }

  /** `pseudo_dequantize_tensor`: the weight `w` holds codes; `scales` (and
      `zeros` in zero-point mode) are widened by tiling and applied
      elementwise as `(w - zeros) * scales` or `w * scales`. */
  function PseudoDequantize(zeroPoint: bool, w: seq<seq<real>>, cols: nat,
                            scales: seq<seq<real>>, groups: nat,
                            zeros: Option<seq<seq<int>>>, zgroups: nat): (r: Result<seq<seq<real>>>)
    requires Shaped(w, cols) && Shaped(scales, groups)
    requires zeros.Some? ==> Shaped(zeros.value, zgroups)
    ensures r == Err(DivisionByZero) <==> groups == 0
    ensures r == Err(MissingZeros) <==>
      groups > 0 && Fills(|scales|, groups, cols / groups, |w|, cols) && zeroPoint && zeros.None?
    ensures r.Ok? <==>
      groups > 0 && Fills(|scales|, groups, cols / groups, |w|, cols)
      && (zeroPoint ==> zeros.Some? && Fills(|zeros.value|, zgroups, cols / groups, |w|, cols))
    ensures r.Ok? ==> |r.value| == |w| && Shaped(r.value, cols)
  {
    if groups == 0 then Err(DivisionByZero)
    else
      var count := cols / groups;
      if !Fills(|scales|, groups, count, |w|, cols) then Err(ShapeMismatch)
      else
        var s := Expand(scales, groups, count, |w|, cols);
        if !zeroPoint then
          Ok(seq(|w|, i requires 0 <= i < |w| => seq(cols, j requires 0 <= j < cols => w[i][j] * s[i][j])))
        else if zeros.None? then Err(MissingZeros)
        else if !Fills(|zeros.value|, zgroups, count, |w|, cols) then Err(ShapeMismatch)
        else
          var z := Expand(zeros.value, zgroups, count, |w|, cols);
          Ok(seq(|w|, i requires 0 <= i < |w| =>
            seq(cols, j requires 0 <= j < cols => (w[i][j] - z[i][j] as real) * s[i][j])))
  }

  /** Scale and zero matrices with one row per weight row and a group count
      that divides the row: the shapes the quantizer itself produces. */
  predicate Regular(zeroPoint: bool, rows: nat, cols: nat, scales: seq<seq<real>>, groups: nat,
                    zeros: Option<seq<seq<int>>>, zgroups: nat) {
    groups > 0 && cols % groups == 0 && |scales| == rows
    && (zeroPoint ==> zeros.Some? && |zeros.value| == rows && zgroups == groups)
  }

  /** On regular shapes the tiled dequantization succeeds and column `j`
      uses the scale and zero of group `j mod groups`. */
  lemma TiledDequantize(zeroPoint: bool, w: seq<seq<real>>, cols: nat, scales: seq<seq<real>>, groups: nat,
                        zeros: Option<seq<seq<int>>>, zgroups: nat, i: nat, j: nat)
    requires Shaped(w, cols) && Shaped(scales, groups) && (zeros.Some? ==> Shaped(zeros.value, zgroups))
    requires Regular(zeroPoint, |w|, cols, scales, groups, zeros, zgroups)
    requires i < |w| && j < cols
    ensures var r := PseudoDequantize(zeroPoint, w, cols, scales, groups, zeros, zgroups);
      r.Ok? && j % groups < groups
      && r.value[i][j] == (if zeroPoint then w[i][j] - zeros.value[i][j % groups] as real else w[i][j])
                          * scales[i][j % groups]
  {
    var count := cols / groups;
    assert groups * count == cols;
    ExpandAt(scales, groups, count, |w|, cols, i, j);
    if zeroPoint {
      ExpandAt(zeros.value, zgroups, count, |w|, cols, i, j);
    }
  }

  /** The group that column `j` of a row cut into `groups` equal groups falls in. */
  function ColumnGroup(j: nat, cols: nat, groups: nat): (k: nat)
    requires groups > 0 && cols % groups == 0 && j < cols
    ensures k < groups
  {
    Arith.GroupCountInverse(cols, groups);
    GroupIndex(j, cols / groups, cols)
  }

  /** Dequantization with each column under its own group's scale and zero
      (`repeat_interleave` instead of `repeat`). */
  function GroupedDequantize(zeroPoint: bool, w: seq<seq<real>>, cols: nat,
                             scales: seq<seq<real>>, groups: nat,
                             zeros: Option<seq<seq<int>>>, zgroups: nat): (r: Result<seq<seq<real>>>)
    requires Shaped(w, cols) && Shaped(scales, groups)
    requires zeros.Some? ==> Shaped(zeros.value, zgroups)
    ensures r == Err(DivisionByZero) <==> groups == 0
    ensures r.Ok? <==> Regular(zeroPoint, |w|, cols, scales, groups, zeros, zgroups)
    ensures r.Ok? ==> |r.value| == |w| && Shaped(r.value, cols)
  {
    if groups == 0 then Err(DivisionByZero)
    else if cols % groups != 0 || |scales| != |w| then Err(ShapeMismatch)
    else if zeroPoint && zeros.None? then Err(MissingZeros)
    else if zeroPoint && (|zeros.value| != |w| || zgroups != groups) then Err(ShapeMismatch)
    else
      Ok(seq(|w|, i requires 0 <= i < |w| => seq(cols, j requires 0 <= j < cols =>
        var k := ColumnGroup(j, cols, groups);
        (if zeroPoint then w[i][j] - zeros.value[i][k] as real else w[i][j]) * scales[i][k])))
  }

  /** Round trip: dequantizing the quantizer's codes group by group with
      the scales and zeros it reports gives back exactly its weights. */
  lemma {:induction false} DequantizeRoundTrip(cfg: Config, w: seq<seq<real>>, cols: nat)
    requires ValidBits(cfg) && Shaped(w, cols) && PseudoQuantize(cfg, w, cols).Ok? && cols > 0
    ensures var q, groups := PseudoQuantize(cfg, w, cols).value, cols / EffGroup(cfg, cols);
      Quantizable(cfg)
      && GroupedDequantize(cfg.zeroPoint, ToReal(QuantCodes(cfg, w, cols)), cols, q.scales, groups, q.zeros, groups)
         == Ok(q.w)
  {
    var q, n := PseudoQuantize(cfg, w, cols).value, EffGroup(cfg, cols);
    var groups := cols / n;
    Arith.GroupCountInverse(cols, n);
    var codes := ToReal(QuantCodes(cfg, w, cols));
    var r := GroupedDequantize(cfg.zeroPoint, codes, cols, q.scales, groups, q.zeros, groups);
    assert r.Ok? && |r.value| == |q.w|;
    forall i | 0 <= i < |w|
      ensures r.value[i] == q.w[i]
    {
      forall j | 0 <= j < cols
        ensures r.value[i][j] == q.w[i][j]
      {
        RoundTripElement(cfg, w, cols, i, j);
      }
    }
    assert r.value == q.w;
  }

  lemma RoundTripElement(cfg: Config, w: seq<seq<real>>, cols: nat, i: nat, j: nat)
    requires ValidBits(cfg) && Shaped(w, cols) && PseudoQuantize(cfg, w, cols).Ok?
    requires i < |w| && j < cols
    ensures var q, groups := PseudoQuantize(cfg, w, cols).value, cols / EffGroup(cfg, cols);
      Quantizable(cfg)
      && GroupedDequantize(cfg.zeroPoint, ToReal(QuantCodes(cfg, w, cols)), cols, q.scales, groups, q.zeros, groups).Ok?
      && GroupedDequantize(cfg.zeroPoint, ToReal(QuantCodes(cfg, w, cols)), cols, q.scales, groups, q.zeros, groups).value[i][j]
         == q.w[i][j]
  {
    var q, n := PseudoQuantize(cfg, w, cols).value, EffGroup(cfg, cols);
    var groups := cols / n;
    Arith.GroupCountInverse(cols, n);
    var codes := ToReal(QuantCodes(cfg, w, cols));
    var c := QuantCodes(cfg, w, cols)[i][j];
    var k := GroupIndex(j, n, cols);
    assert ColumnGroup(j, cols, groups) == k;
    var p := ReportedParams(cfg, q, i, k);
    CodeElement(cfg, w, cols, i, j);
    GroupedAt(cfg.zeroPoint, codes, cols, q.scales, groups, q.zeros, groups, i, j, k, p, c);
  }

  /** Column `j` of the grouped dequantization is `Dequantize` of its code
      under the scale and zero of group `k`. */
  lemma GroupedAt(zeroPoint: bool, w: seq<seq<real>>, cols: nat, scales: seq<seq<real>>, groups: nat,
                  zeros: Option<seq<seq<int>>>, zgroups: nat, i: nat, j: nat, k: nat, p: GroupParams, c: int)
    requires Shaped(w, cols) && Shaped(scales, groups) && (zeros.Some? ==> Shaped(zeros.value, zgroups))
    requires Regular(zeroPoint, |w|, cols, scales, groups, zeros, zgroups)
    requires i < |w| && j < cols && k == ColumnGroup(j, cols, groups)
    requires w[i][j] == c as real && p.scale == scales[i][k]
    requires p.zero == (if zeroPoint then zeros.value[i][k] else 0)
    ensures var r := GroupedDequantize(zeroPoint, w, cols, scales, groups, zeros, zgroups);
      r.Ok? && r.value[i][j] == Dequantize(p, c)
  {
    var x := if zeroPoint then w[i][j] - zeros.value[i][k] as real else w[i][j];
    assert x == (c - p.zero) as real;
  }

  /** Unfolds `GroupedDequantize` at one element; a helper of `GroupedValue`. */
  lemma GroupedValueAt(zeroPoint: bool, w: seq<seq<real>>, cols: nat, scales: seq<seq<real>>, groups: nat,
                       zeros: Option<seq<seq<int>>>, zgroups: nat, i: nat, j: nat)
    requires Shaped(w, cols) && Shaped(scales, groups) && (zeros.Some? ==> Shaped(zeros.value, zgroups))
    requires Regular(zeroPoint, |w|, cols, scales, groups, zeros, zgroups)
    requires i < |w| && j < cols
    ensures var r, k := GroupedDequantize(zeroPoint, w, cols, scales, groups, zeros, zgroups), ColumnGroup(j, cols, groups);
      r.Ok? && r.value[i][j] == (if zeroPoint then w[i][j] - zeros.value[i][k] as real else w[i][j]) * scales[i][k]
  {
  }

  /** Tiling and grouping coincide with a single group per row or a single
      column per group: then `j mod groups` and `j / (cols / groups)` agree. */
  lemma TiledMatchesGrouped(zeroPoint: bool, w: seq<seq<real>>, cols: nat, scales: seq<seq<real>>, groups: nat,
                            zeros: Option<seq<seq<int>>>, zgroups: nat)
    requires Shaped(w, cols) && Shaped(scales, groups) && (zeros.Some? ==> Shaped(zeros.value, zgroups))
    requires Regular(zeroPoint, |w|, cols, scales, groups, zeros, zgroups)
    requires groups == 1 || groups == cols
    ensures PseudoDequantize(zeroPoint, w, cols, scales, groups, zeros, zgroups)
         == GroupedDequantize(zeroPoint, w, cols, scales, groups, zeros, zgroups)
  {
    var t := PseudoDequantize(zeroPoint, w, cols, scales, groups, zeros, zgroups);
    var g := GroupedDequantize(zeroPoint, w, cols, scales, groups, zeros, zgroups);
    assert t.Ok? && g.Ok?;
    forall i | 0 <= i < |w|
      ensures t.value[i] == g.value[i]
    {
      forall j | 0 <= j < cols
        ensures t.value[i][j] == g.value[i][j]
      {
        TiledMatchesGroupedAt(zeroPoint, w, cols, scales, groups, zeros, zgroups, i, j);
      }
    }
    assert t.value == g.value;
  }

  lemma TiledMatchesGroupedAt(zeroPoint: bool, w: seq<seq<real>>, cols: nat, scales: seq<seq<real>>, groups: nat,
                              zeros: Option<seq<seq<int>>>, zgroups: nat, i: nat, j: nat)
    requires Shaped(w, cols) && Shaped(scales, groups) && (zeros.Some? ==> Shaped(zeros.value, zgroups))
    requires Regular(zeroPoint, |w|, cols, scales, groups, zeros, zgroups)
    requires groups == 1 || groups == cols
    requires i < |w| && j < cols
    ensures var t, g := PseudoDequantize(zeroPoint, w, cols, scales, groups, zeros, zgroups),
                        GroupedDequantize(zeroPoint, w, cols, scales, groups, zeros, zgroups);
      t.Ok? && g.Ok? && t.value[i][j] == g.value[i][j]
  {
    SameGroup(j, cols, groups);
    var k := j % groups;
    TiledValue(zeroPoint, w, cols, scales, groups, zeros, zgroups, i, j, k);
    GroupedValue(zeroPoint, w, cols, scales, groups, zeros, zgroups, i, j, k);
  }

  /** The value of column `j` when it is dequantized with group `k`. */
  function ValueWith(zeroPoint: bool, w: seq<seq<real>>, scales: seq<seq<real>>,
                     zeros: Option<seq<seq<int>>>, i: nat, j: nat, k: nat): real
    requires i < |w| && j < |w[i]| && i < |scales| && k < |scales[i]|
    requires zeroPoint ==> zeros.Some? && i < |zeros.value| && k < |zeros.value[i]|
  {
    (if zeroPoint then w[i][j] - zeros.value[i][k] as real else w[i][j]) * scales[i][k]
  }

  lemma TiledValue(zeroPoint: bool, w: seq<seq<real>>, cols: nat, scales: seq<seq<real>>, groups: nat,
                   zeros: Option<seq<seq<int>>>, zgroups: nat, i: nat, j: nat, k: nat)
    requires Shaped(w, cols) && Shaped(scales, groups) && (zeros.Some? ==> Shaped(zeros.value, zgroups))
    requires Regular(zeroPoint, |w|, cols, scales, groups, zeros, zgroups)
    requires i < |w| && j < cols && k == j % groups
    ensures var t := PseudoDequantize(zeroPoint, w, cols, scales, groups, zeros, zgroups);
      t.Ok? && k < groups && t.value[i][j] == ValueWith(zeroPoint, w, scales, zeros, i, j, k)
  {
    TiledDequantize(zeroPoint, w, cols, scales, groups, zeros, zgroups, i, j);
  }

  lemma GroupedValue(zeroPoint: bool, w: seq<seq<real>>, cols: nat, scales: seq<seq<real>>, groups: nat,
                     zeros: Option<seq<seq<int>>>, zgroups: nat, i: nat, j: nat, k: nat)
    requires Shaped(w, cols) && Shaped(scales, groups) && (zeros.Some? ==> Shaped(zeros.value, zgroups))
    requires Regular(zeroPoint, |w|, cols, scales, groups, zeros, zgroups)
    requires i < |w| && j < cols && k == ColumnGroup(j, cols, groups)
    ensures var g := GroupedDequantize(zeroPoint, w, cols, scales, groups, zeros, zgroups);
      g.Ok? && k < groups && g.value[i][j] == ValueWith(zeroPoint, w, scales, zeros, i, j, k)
  {
    GroupedValueAt(zeroPoint, w, cols, scales, groups, zeros, zgroups, i, j);
  }

  lemma SameGroup(j: nat, cols: nat, groups: nat)
    requires groups > 0 && cols % groups == 0 && j < cols && (groups == 1 || groups == cols)
    ensures ColumnGroup(j, cols, groups) == j % groups
  {
    var k := ColumnGroup(j, cols, groups);
    Arith.GroupCountInverse(cols, groups);
    if groups == cols {
      assert cols / groups == 1;
    }
  }
}
