/** `_compute_loss`: the mean squared error between the full-precision and
    the quantized module outputs, accumulated chunk by chunk so that at most
    `max_chunk_memory` bytes are materialised at once. */
module Loss {
  import opened Wrappers
  import opened Chunks
  import Arith

  function Sq(x: real): (r: real)
    ensures r >= 0.0 && (x == 0.0 ==> r == 0.0)
  {
    x * x
  }

  /** `((a - b) ** 2).sum()` over two flattened outputs of equal length. */
  function SquaredError(a: seq<real>, b: seq<real>): (r: real)
    requires |a| == |b|
    ensures r >= 0.0
  {
    if |a| == 0 then 0.0
    else SquaredError(a[..|a| - 1], b[..|b| - 1]) + Sq(a[|a| - 1] - b[|b| - 1])
  }

  /** The squared error of two concatenations is the sum of the parts' errors. */
  lemma {:induction false} SquaredErrorAppend(a1: seq<real>, b1: seq<real>, a2: seq<real>, b2: seq<real>)
    requires |a1| == |b1| && |a2| == |b2|
    ensures SquaredError(a1 + a2, b1 + b2) == SquaredError(a1, b1) + SquaredError(a2, b2)
    decreases |a2|
  {
    if |a2| == 0 {
      assert a1 + a2 == a1 && b1 + b2 == b1;
    } else {
      var a, b := a1 + a2, b1 + b2;
      assert a[..|a| - 1] == a1 + a2[..|a2| - 1];
      assert b[..|b| - 1] == b1 + b2[..|b2| - 1];
      SquaredErrorAppend(a1, b1, a2[..|a2| - 1], b2[..|b2| - 1]);
    }
  }

  /** The number of elements per chunk: `max_chunk_memory // (2 * element_size)`,
      capped at the number of elements. */
  function LossChunk(n: nat, maxChunkMemory: nat, elementSize: nat): (c: nat)
    requires elementSize > 0
    ensures c <= n
    ensures c == 0 <==> n == 0 || maxChunkMemory < 2 * elementSize
  {
    Arith.DivZero(maxChunkMemory, elementSize * 2);
    Cap(maxChunkMemory / (elementSize * 2), n)
  }

  /** Adding chunk `k`'s error to the error of the elements before it gives
      the error of the elements up to the end of chunk `k`. */
  lemma ChunkStep(a: seq<real>, b: seq<real>, size: nat, k: nat)
    requires size > 0 && |a| == |b| && k < |Split(a, size)|
    ensures |Split(b, size)| == |Split(a, size)| && |Split(b, size)[k]| == |Split(a, size)[k]|
    ensures Cap(k * size, |a|) <= Cap((k + 1) * size, |a|) <= |a|
    ensures var start, end := Cap(k * size, |a|), Cap((k + 1) * size, |a|);
      SquaredError(a[..end], b[..end])
      == SquaredError(a[..start], b[..start]) + SquaredError(Split(a, size)[k], Split(b, size)[k])
  {
    SplitAligned(a, b, size, k);
    SplitAt(a, size, k);
    SplitAt(b, size, k);
    Arith.MulSucc(k + 1, size);
    PrefixAppend(a, b, k * size, Cap(k * size + size, |a|));
  }

  lemma PrefixAppend(a: seq<real>, b: seq<real>, start: nat, end: nat)
    requires |a| == |b| && start <= end <= |a|
    ensures SquaredError(a[..end], b[..end])
         == SquaredError(a[..start], b[..start]) + SquaredError(a[start..end], b[start..end])
  {
    assert a[..end] == a[..start] + a[start..end];
    assert b[..end] == b[..start] + b[start..end];
    SquaredErrorAppend(a[..start], b[..start], a[start..end], b[start..end]);
  }

  /** The chunked accumulation. An empty output splits into one empty chunk
      and then fails on the division by zero elements; a zero chunk size on a
      non-empty output is rejected by `torch.split`. */
  method ComputeLoss(fp16: seq<real>, quant: seq<real>, maxChunkMemory: nat, elementSize: nat)
    returns (r: Result<real>)
    requires |fp16| == |quant| && elementSize > 0
    ensures |fp16| == 0 ==> r == Err(DivisionByZero)
    ensures |fp16| > 0 && maxChunkMemory < 2 * elementSize ==> r == Err(ZeroChunk)
    ensures r.Ok? <==> |fp16| > 0 && maxChunkMemory >= 2 * elementSize
    ensures r.Ok? ==> r.value == SquaredError(fp16, quant) / |fp16| as real
  {
    var n := |fp16|;
    var chunk := LossChunk(n, maxChunkMemory, elementSize);
    if chunk == 0 {
      if n > 0 {
        return Err(ZeroChunk);
      }
      return Err(DivisionByZero);
    }
    var fp16Chunks := Split(fp16, chunk);
    var quantChunks := Split(quant, chunk);
    SplitCount(fp16, chunk);
    SplitCount(quant, chunk);
    var loss := 0.0;
    var k := 0;
    while k < |fp16Chunks|
      invariant 0 <= k <= |fp16Chunks| == |quantChunks|
      invariant Cap(k * chunk, n) <= n
      invariant loss == SquaredError(fp16[..Cap(k * chunk, n)], quant[..Cap(k * chunk, n)])
    {
      ChunkStep(fp16, quant, chunk, k);
      loss := loss + SquaredError(fp16Chunks[k], quantChunks[k]);
      k := k + 1;
    }
    assert fp16[..n] == fp16 && quant[..n] == quant;
    if n == 0 {
      return Err(DivisionByZero);
    }
    r := Ok(loss / n as real);
  }
}
