/** `torch.split` along the first axis and `torch.cat` of the pieces: the
    chunking behind the memory-bounded loops and the batched forward pass. */
module Chunks {
  import opened Seqs
  import Arith

  /** `min(a, b)`. */
  function Cap(a: int, b: int): int {
    if a <= b then a else b
  }

  /** `torch.split(s, size)`: consecutive pieces of `size` elements, the last
      one possibly shorter. An empty sequence splits into one empty piece. */
  function Split<T>(s: seq<T>, size: nat): (p: seq<seq<T>>)
    requires size > 0
    ensures |p| >= 1
    ensures forall k :: 0 <= k < |p| ==> |p[k]| <= size
    decreases |s|
  {
    if |s| <= size then [s] else [s[..size]] + Split(s[size..], size)
  }

  /** There are `ceil(|s| / size)` pieces (one for the empty sequence). */
  lemma {:induction false} SplitCount<T>(s: seq<T>, size: nat)
    requires size > 0
    ensures |s| <= |Split(s, size)| * size
    ensures |s| == 0 ==> |Split(s, size)| == 1
    ensures |s| > 0 ==> (|Split(s, size)| - 1) * size < |s|
    ensures |s| > 0 ==> |Split(s, size)| == (|s| + size - 1) / size
  {
    var p := Split(s, size);
    if |s| > size {
      SplitCount(s[size..], size);
      assert |p| == 1 + |Split(s[size..], size)|;
      assert |p| * size == size + |Split(s[size..], size)| * size;
      assert (|p| - 1) * size == size + (|Split(s[size..], size)| - 1) * size;
    }
    if |s| > 0 {
      Arith.DivUnique(|s| + size - 1, size, |p|, |s| - 1 - (|p| - 1) * size);
    }
  }

  /** Piece `k` is the slice `[k * size, min(k * size + size, |s|))`. */
  lemma {:induction false} SplitAt<T>(s: seq<T>, size: nat, k: nat)
    requires size > 0 && k < |Split(s, size)|
    ensures k * size <= |s|
    ensures Split(s, size)[k] == s[k * size .. Cap(k * size + size, |s|)]
    decreases |s|
  {
    if k > 0 {
      var rest := s[size..];
      SplitAt(rest, size, k - 1);
      var a := (k - 1) * size;
      Arith.MulSucc(k, size);
      SliceShift(s, size, a, Cap(a + size, |rest|));
    }
  }

  lemma SliceShift<T>(s: seq<T>, size: nat, a: nat, e: nat)
    requires size <= |s| && a <= e <= |s| - size
    ensures s[size..][a .. e] == s[a + size .. e + size]
  {
  }

  /** Cutting a sequence into pieces of equal size gives sequences of equal length the same piece lengths. */
  lemma SplitAligned<T, U>(s: seq<T>, t: seq<U>, size: nat, k: nat)
    requires size > 0 && |s| == |t| && k < |Split(s, size)|
    ensures |Split(t, size)| == |Split(s, size)|
    ensures |Split(t, size)[k]| == |Split(s, size)[k]|
  {
    SplitCount(s, size);
    SplitCount(t, size);
    SplitAt(s, size, k);
    SplitAt(t, size, k);
  }

  lemma {:induction false} FlattenCons<T>(a: seq<T>, m: seq<seq<T>>)
    ensures Flatten([a] + m) == a + Flatten(m)
    decreases |m|
  {
    if |m| > 0 {
      var init := m[..|m| - 1];
      assert ([a] + m)[..|m|] == [a] + init;
      FlattenCons(a, init);
    }
  }

  /** `torch.cat(torch.split(s, size))` gives `s` back: the pieces partition
      the sequence, in order, each element exactly once. */
  lemma {:induction false} SplitFlatten<T>(s: seq<T>, size: nat)
    requires size > 0
    ensures Flatten(Split(s, size)) == s
    decreases |s|
  {
    if |s| <= size {
      FlattenOne(s);
    } else {
      var rest := s[size..];
      SplitFlatten(rest, size);
      calc {
        Flatten(Split(s, size));
        Flatten([s[..size]] + Split(rest, size));
        { FlattenCons(s[..size], Split(rest, size)); }
        s[..size] + rest;
        { TakeDrop(s, size); }
        s;
      }
    }
  }

  lemma TakeDrop<T>(s: seq<T>, n: nat)
    requires n <= |s|
    ensures s[..n] + s[n..] == s
  {
  }

  lemma FlattenOne<T>(a: seq<T>)
    ensures Flatten([a]) == a
  {
    assert [a][..0] == [];
  }
}
