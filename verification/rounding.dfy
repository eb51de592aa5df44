/** Integer rounding and clamping as torch applies them to quantization
    codes. */
module Rounding {

  /** `torch.round`: to the nearest integer, ties to the even neighbour. */
  function Round(x: real): (n: int)
    ensures n as real - 0.5 <= x <= n as real + 0.5
  {
    var f := x.Floor;
    var d := x - f as real;
    if d < 0.5 then f
    else if d > 0.5 then f + 1
    else if f % 2 == 0 then f
    else f + 1
  }

  lemma RoundOfInt(k: int)
    ensures Round(k as real) == k
  {
  }

  lemma RoundMonotone(x: real, y: real)
    requires x <= y
    ensures Round(x) <= Round(y)
  {
    var fx, fy := x.Floor, y.Floor;
    if fx < fy {
      assert Round(x) <= fx + 1 <= fy <= Round(y);
    }
  }

  /** `torch.clamp(v, lo, hi)` on an integral value. */
  function Clamp(v: int, lo: int, hi: int): (r: int)
    requires lo <= hi
    ensures lo <= r <= hi
    ensures lo <= v <= hi ==> r == v
    ensures v < lo ==> r == lo
    ensures hi < v ==> r == hi
  {
    if v < lo then lo else if hi < v then hi else v
  }

  /** `t.clamp(min = lo)` on a real value. */
  function ClampBelow(x: real, lo: real): (r: real)
    ensures r >= lo && r >= x
    ensures r == x || r == lo
  {
    if x < lo then lo else x
  }

  function Abs(x: real): (r: real)
    ensures r >= 0.0 && (r == x || r == -x)
  {
    if x < 0.0 then -x else x
  }

  function Pow2(n: nat): (r: nat)
    ensures r >= 1
  {
    if n == 0 then 1 else 2 * Pow2(n - 1)
  }
}
