/** Reductions over real sequences and the rectangular-matrix shape that
    stands in for a 2-D tensor. */
module Seqs {
  import opened Rounding
  import Arith
  import RealArith

  /** A row-major matrix with `cols` columns: the shape of a 2-D tensor. */
  predicate Shaped<T>(w: seq<seq<T>>, cols: nat) {
    forall r :: 0 <= r < |w| ==> |w[r]| == cols
  }

  /** `amax` of a non-empty sequence. */
  function Max(s: seq<real>): (r: real)
    requires |s| > 0
    ensures forall i :: 0 <= i < |s| ==> s[i] <= r
  {
    if |s| == 1 then s[0]
    else
      var m := Max(s[1..]);
      assert forall i :: 1 <= i < |s| ==> s[i] == s[1..][i - 1];
      if s[0] >= m then s[0] else m
  }

  /** `amin` of a non-empty sequence. */
  function Min(s: seq<real>): (r: real)
    requires |s| > 0
    ensures forall i :: 0 <= i < |s| ==> r <= s[i]
  {
    if |s| == 1 then s[0]
    else
      var m := Min(s[1..]);
      assert forall i :: 1 <= i < |s| ==> s[i] == s[1..][i - 1];
      if s[0] <= m then s[0] else m
  }

  /** Every element divided by `d`. */
  function Divided(s: seq<real>, d: real): (r: seq<real>)
    requires d != 0.0
    ensures |r| == |s| && forall i :: 0 <= i < |s| ==> r[i] == s[i] / d
  {
    seq(|s|, i requires 0 <= i < |s| => s[i] / d)
  }

  /** Dividing by a positive number divides the maximum and the minimum. */
  lemma {:induction false} DividedExtremes(s: seq<real>, d: real)
    requires |s| > 0 && d > 0.0
    ensures RealArith.Quotient(Max(Divided(s, d)), Max(s), d)
    ensures RealArith.Quotient(Min(Divided(s, d)), Min(s), d)
    decreases |s|
  {
    if |s| > 1 {
      var t := Divided(s, d);
      assert t[1..] == Divided(s[1..], d);
      DividedExtremes(s[1..], d);
      RealArith.DivMonotone(s[0], Max(s[1..]), d);
      RealArith.DivMonotone(Max(s[1..]), s[0], d);
      RealArith.DivMonotone(s[0], Min(s[1..]), d);
      RealArith.DivMonotone(Min(s[1..]), s[0], d);
    }
  }

  /** A lower bound on every element bounds the minimum. */
  lemma {:induction false} MinAtLeast(s: seq<real>, lo: real)
    requires |s| > 0 && forall i :: 0 <= i < |s| ==> s[i] >= lo
    ensures Min(s) >= lo
    decreases |s|
  {
    if |s| > 1 {
      MinAtLeast(s[1..], lo);
    }
  }

  /** An upper bound on every element bounds the maximum. */
  lemma {:induction false} MaxAtMost(s: seq<real>, hi: real)
    requires |s| > 0 && forall i :: 0 <= i < |s| ==> s[i] <= hi
    ensures Max(s) <= hi
    decreases |s|
  {
    if |s| > 1 {
      MaxAtMost(s[1..], hi);
    }
  }

  /** `abs().amax()` of a non-empty sequence. */
  function MaxAbs(s: seq<real>): (r: real)
    requires |s| > 0
    ensures r >= 0.0
    ensures forall i :: 0 <= i < |s| ==> Abs(s[i]) <= r
  {
    if |s| == 1 then Abs(s[0])
    else
      var m := MaxAbs(s[1..]);
      assert forall i :: 1 <= i < |s| ==> s[i] == s[1..][i - 1];
      if Abs(s[0]) >= m then Abs(s[0]) else m
  }

  /** Inner product `sum(a * b)` over the last axis. */
  function Dot(a: seq<real>, b: seq<real>): real
    requires |a| == |b|
  {
    if |a| == 0 then 0.0 else Dot(a[..|a| - 1], b[..|b| - 1]) + a[|a| - 1] * b[|b| - 1]
  }

  /** `row.repeat(count)`: the row written out `count` times. */
  function Tile<T>(row: seq<T>, count: nat): (t: seq<T>)
    ensures |t| == |row| * count
  {
    if count == 0 then [] else Tile(row, count - 1) + row
  }

  /** Position `c` of a tiled row holds element `c mod |row|`. */
  lemma {:induction false} TileAt<T>(row: seq<T>, count: nat, c: nat)
    requires c < |row| * count
    ensures Tile(row, count)[c] == row[c % |row|]
  {
    var prefix := |row| * (count - 1);
    if c < prefix {
      TileAt(row, count - 1, c);
    } else {
      Arith.DivUnique(c, |row|, count - 1, c - prefix);
    }
  }

  /** The row-major concatenation of a matrix's rows (`flatten`). */
  function Flatten<T>(m: seq<seq<T>>): seq<T> {
    if |m| == 0 then [] else Flatten(m[..|m| - 1]) + m[|m| - 1]
  }

  lemma {:induction false} FlattenLength<T>(m: seq<seq<T>>, cols: nat)
    requires Shaped(m, cols)
    ensures |Flatten(m)| == |m| * cols
  {
    if |m| > 0 {
      FlattenLength(m[..|m| - 1], cols);
    }
  }

  /** Element `(r, c)` of a matrix sits at position `r * cols + c` of its flattening. */
  lemma {:induction false} FlattenAt<T>(m: seq<seq<T>>, cols: nat, r: nat, c: nat)
    requires Shaped(m, cols) && r < |m| && c < cols
    ensures |Flatten(m)| == |m| * cols && r * cols + c < |Flatten(m)|
    ensures Flatten(m)[r * cols + c] == m[r][c]
  {
    FlattenLength(m, cols);
    var init := m[..|m| - 1];
    FlattenLength(init, cols);
    Arith.RowBlock(r, |m|, cols);
    if r < |m| - 1 {
      FlattenAt(init, cols, r, c);
    }
  }

  /** `flat.reshape(rows, cols)` for a sequence of exactly `rows * cols` elements. */
  function Reshape<T>(flat: seq<T>, rows: nat, cols: nat): (m: seq<seq<T>>)
    requires |flat| == rows * cols
    ensures |m| == rows && Shaped(m, cols)
  {
    seq(rows, i requires 0 <= i < rows => ReshapeRow(flat, rows, cols, i))
  }

  function ReshapeRow<T>(flat: seq<T>, rows: nat, cols: nat, i: nat): (r: seq<T>)
    requires |flat| == rows * cols && i < rows
    ensures |r| == cols
  {
    var b := i * cols;
    Arith.RowBlock(i, rows, cols);
    flat[b .. b + cols]
  }

  /** Element `(i, j)` of a reshaped sequence is element `i * cols + j` of the sequence. */
  lemma ReshapeAt<T>(flat: seq<T>, rows: nat, cols: nat, i: nat, j: nat)
    requires |flat| == rows * cols && i < rows && j < cols
    ensures i * cols + j < |flat| && Reshape(flat, rows, cols)[i][j] == flat[i * cols + j]
  {
    Arith.RowBlock(i, rows, cols);
    assert Reshape(flat, rows, cols)[i] == ReshapeRow(flat, rows, cols, i);
  }

  /** An integer matrix read as reals. */
  function ToReal(m: seq<seq<int>>): (r: seq<seq<real>>)
    ensures |r| == |m|
    ensures forall i :: 0 <= i < |m| ==> |r[i]| == |m[i]|
    ensures forall i, j :: 0 <= i < |m| && 0 <= j < |m[i]| ==> r[i][j] == m[i][j] as real
  {
    seq(|m|, i requires 0 <= i < |m| => seq(|m[i]|, j requires 0 <= j < |m[i]| => m[i][j] as real))
  }
}
