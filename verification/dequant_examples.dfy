/** The tiling in `pseudo_dequantize_tensor` on a concrete weight: symmetric
    2-bit quantization of the row `[1, 1, 2, 2]` in groups of 2. */
module DequantExamples {
  import opened Wrappers
  import opened Rounding
  import opened Seqs
  import opened PseudoQuant
  import opened Dequant

  function Cfg(): Config {
    Config(2, 2, false)
  }

  function Row(): seq<real> {
    [1.0, 1.0, 2.0, 2.0]
  }

  /** Both groups hit the top code 1: `[1, 1]` with scale 1 and `[2, 2]`
      with scale 2. */
  lemma ExampleGroups()
    ensures Quantizable(Cfg()) && MaxInt(Cfg()) == 1
    ensures GroupParamsOf(Cfg(), [1.0, 1.0]) == GroupParams(1.0, 0)
    ensures GroupParamsOf(Cfg(), [2.0, 2.0]) == GroupParams(2.0, 0)
    ensures QuantizeGroup(Cfg(), [1.0, 1.0]) == [1.0, 1.0]
    ensures QuantizeGroup(Cfg(), [2.0, 2.0]) == [2.0, 2.0]
    ensures Code(Cfg(), GroupParams(1.0, 0), 1.0) == 1
    ensures Code(Cfg(), GroupParams(2.0, 0), 2.0) == 1
  {
    var cfg := Cfg();
    assert MaxInt(cfg) == 1;
    assert MaxAbs([1.0, 1.0]) == 1.0;
    assert MaxAbs([2.0, 2.0]) == 2.0;
    RoundOfInt(1);
  }

  lemma ExampleSlices()
    ensures GroupOf(Row(), 2, 0) == [1.0, 1.0] && GroupOf(Row(), 2, 1) == [2.0, 2.0]
    ensures GroupIndex(0, 2, 4) == 0 && GroupIndex(1, 2, 4) == 0
    ensures GroupIndex(2, 2, 4) == 1 && GroupIndex(3, 2, 4) == 1
    ensures GroupOffset(0, 2, 4) == 0 && GroupOffset(1, 2, 4) == 1
    ensures GroupOffset(2, 2, 4) == 0 && GroupOffset(3, 2, 4) == 1
  {
  }

  lemma ExampleRowValues()
    ensures Quantizable(Cfg()) && QuantizeRow(Cfg(), Row(), 2) == Row()
  {
    ExampleGroups();
    ExampleSlices();
    var q := QuantizeRow(Cfg(), Row(), 2);
    assert q[0] == 1.0 && q[1] == 1.0 && q[2] == 2.0 && q[3] == 2.0;
  }

  lemma ExampleRowParams()
    ensures Quantizable(Cfg()) && RowParams(Cfg(), Row(), 2) == [GroupParams(1.0, 0), GroupParams(2.0, 0)]
  {
    ExampleGroups();
    ExampleSlices();
  }

  /** The quantizer returns the row unchanged, with scales `[1, 2]`. */
  lemma ExampleQuantize()
    ensures PseudoQuantize(Cfg(), [Row()], 4) == Ok(Quantized([Row()], [[1.0, 2.0]], None))
  {
    var cfg := Cfg();
    ExampleRowValues();
    ExampleRowParams();
    assert Shaped([Row()], 4);
    assert EffGroup(cfg, 4) == 2;
    var rows := QuantizeRows(cfg, [Row()], 4);
    assert rows[0] == QuantizeRow(cfg, Row(), 2);
    assert rows == [Row()];
    var ps := MatrixParams(cfg, [Row()], 4);
    assert ps[0] == RowParams(cfg, Row(), 2);
    var sc := Scales(ps);
    assert sc[0] == [1.0, 2.0];
    assert sc == [[1.0, 2.0]];
  }

  /** Every weight of the row is stored as code 1. */
  lemma ExampleCodes()
    ensures Quantizable(Cfg()) && Shaped([Row()], 4) && EffGroup(Cfg(), 4) == 2
    ensures QuantCodes(Cfg(), [Row()], 4) == [[1, 1, 1, 1]]
  {
    var cfg := Cfg();
    ExampleGroups();
    ExampleSlices();
    assert Shaped([Row()], 4);
    var c := QuantCodes(cfg, [Row()], 4);
    assert c[0][0] == 1 && c[0][1] == 1 && c[0][2] == 1 && c[0][3] == 1;
    assert c[0] == [1, 1, 1, 1];
  }

  /** Tiling the scales `[1, 2]` over the codes gives `[1, 2, 1, 2]`. */
  lemma ExampleTiled()
    ensures PseudoDequantize(false, [[1.0, 1.0, 1.0, 1.0]], 4, [[1.0, 2.0]], 2, None, 0)
         == Ok([[1.0, 2.0, 1.0, 2.0]])
  {
    var w := [[1.0, 1.0, 1.0, 1.0]];
    var r := PseudoDequantize(false, w, 4, [[1.0, 2.0]], 2, None, 0);
    TiledDequantize(false, w, 4, [[1.0, 2.0]], 2, None, 0, 0, 0);
    TiledDequantize(false, w, 4, [[1.0, 2.0]], 2, None, 0, 0, 1);
    TiledDequantize(false, w, 4, [[1.0, 2.0]], 2, None, 0, 0, 2);
    TiledDequantize(false, w, 4, [[1.0, 2.0]], 2, None, 0, 0, 3);
    assert r.value[0] == [1.0, 2.0, 1.0, 2.0];
    assert r.value == [[1.0, 2.0, 1.0, 2.0]];
  }

  lemma ExampleCodesAsReals()
    ensures Quantizable(Cfg()) && Shaped([Row()], 4) && EffGroup(Cfg(), 4) == 2
    ensures ToReal(QuantCodes(Cfg(), [Row()], 4)) == [[1.0, 1.0, 1.0, 1.0]]
  {
    ExampleCodes();
    OnesAsReals();
  }

  lemma OnesAsReals()
    ensures ToReal([[1, 1, 1, 1]]) == [[1.0, 1.0, 1.0, 1.0]]
  {
    var codes := ToReal([[1, 1, 1, 1]]);
    assert codes[0] == [1.0, 1.0, 1.0, 1.0];
  }

  /** The quantizer's own tiled dequantization does not give back its
      weights `[1, 1, 2, 2]`: the second and third columns come back as 2
      and 1. Grouped dequantization does give them back. */
  lemma TilingCounterexample()
    ensures var q := PseudoQuantize(Cfg(), [Row()], 4);
      q.Ok?
      && PseudoDequantize(false, ToReal(QuantCodes(Cfg(), [Row()], 4)), 4, q.value.scales, 2, None, 0)
         == Ok([[1.0, 2.0, 1.0, 2.0]])
      && [[1.0, 2.0, 1.0, 2.0]] != q.value.w
      && GroupedDequantize(false, ToReal(QuantCodes(Cfg(), [Row()], 4)), 4, q.value.scales, 2, None, 0)
         == Ok(q.value.w)
  {
    ExampleQuantize();
    ExampleCodesAsReals();
    ExampleTiled();
    DequantizeRoundTrip(Cfg(), [Row()], 4);
    assert [1.0, 2.0, 1.0, 2.0][1] != Row()[1];
  }
}
