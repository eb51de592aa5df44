/** Index arithmetic for splitting a row into equal groups. */
module Arith {

  /** Group `k` of a row of length `n` cut into groups of `g` lies inside the row. */
  lemma GroupInRow(k: int, g: int, n: int)
    requires g > 0 && n >= 0 && n % g == 0 && 0 <= k < n / g
    ensures 0 <= k * g && k * g + g <= n
  {
    var q := n / g;
    assert n == q * g;
    assert k + 1 <= q;
    assert (k + 1) * g <= q * g;
  }

  /** Element `j` belongs to group `j / g`, at offset `j % g`. */
  lemma ElementGroup(j: int, g: int, n: int)
    requires g > 0 && n >= 0 && n % g == 0 && 0 <= j < n
    ensures 0 <= j / g < n / g
    ensures (j / g) * g <= j < (j / g) * g + g
    ensures j - (j / g) * g == j % g
  {
    var q := n / g;
    assert n == q * g;
    assert j == (j / g) * g + j % g;
    if j / g >= q {
      MulMonotone(q, j / g, g);
    }
  }

  /** Row `i` of a `rows x cols` row-major layout lies inside it. */
  lemma RowBlock(i: int, rows: int, cols: int)
    requires 0 <= i < rows && cols >= 0
    ensures 0 <= i * cols && i * cols + cols <= rows * cols
  {
    if cols > 0 {
      MulMonotone(i + 1, rows, cols);
      MulMonotone(0, i, cols);
    }
  }

  lemma MulSucc(k: int, n: int)
    ensures k * n == (k - 1) * n + n
  {
  }

  /** `ceil(n / d)` is 1 for `0 < n <= d`. */
  lemma CeilOne(n: int, d: int)
    requires 0 < n <= d
    ensures (n + d - 1) / d == 1
  {
    DivUnique(n + d - 1, d, 1, n - 1);
  }

  /** One more block of `d` adds one to `ceil(n / d)`. */
  lemma CeilSucc(n: int, d: int)
    requires 0 < d < n
    ensures (n + d - 1) / d == (n - 1) / d + 1
  {
    var q, r := (n - 1) / d, (n - 1) % d;
    assert n - 1 == q * d + r;
    MulSucc(q + 1, d);
    DivUnique(n + d - 1, d, q + 1, r);
  }

  lemma MulMonotone(a: int, b: int, g: int)
    requires a <= b && g > 0
    ensures a * g <= b * g
  {
  }

  /** Quotient and remainder are the unique pair with `0 <= r < d`. */
  lemma DivUnique(n: int, d: int, q: int, r: int)
    requires d > 0 && n == q * d + r && 0 <= r < d
    ensures n / d == q && n % d == r
  {
    var q0, r0 := n / d, n % d;
    assert n == q0 * d + r0;
    if q0 < q {
      MulMonotone(q0 + 1, q, d);
    } else if q < q0 {
      MulMonotone(q + 1, q0, d);
    }
  }

  /** Floor division by a positive divisor is zero exactly below the divisor. */
  lemma DivZero(m: int, d: int)
    requires m >= 0 && d > 0
    ensures m / d == 0 <==> m < d
  {
    if m < d {
      DivUnique(m, d, 0, m);
    } else {
      MulMonotone(1, m / d + 1, d);
    }
  }

  /** With `k` groups of equal length in a row of `n`, each group has `n / k` elements. */
  lemma GroupCountInverse(n: int, g: int)
    requires g > 0 && n > 0 && n % g == 0
    ensures n / g > 0 && n % (n / g) == 0 && n / (n / g) == g
  {
    var q := n / g;
    assert n == q * g;
    if q <= 0 {
      MulMonotone(q, 0, g);
    }
    DivUnique(n, q, g, 0);
  }
}

/** Facts about exact real division and scaling by a positive step. */
module RealArith {
  import opened Rounding

  lemma DivThenMul(c: real, n: real)
    requires n != 0.0
    ensures (c / n) * n == c
  {
  }

  lemma PositiveQuotient(c: real, n: real)
    requires c > 0.0 && n > 0.0
    ensures c / n > 0.0
  {
  }

  /** Dividing by a positive step `s` keeps a value covered by `s * n` within `[-n, n]`. */
  lemma QuotientBound(x: real, s: real, n: real)
    requires s > 0.0 && -(s * n) <= x <= s * n
    ensures -n <= x / s <= n
  {
  }

  /** An error of at most one half, measured in steps of `s`. */
  lemma HalfStep(d: real, s: real)
    requires s > 0.0 && -0.5 <= d <= 0.5
    ensures Abs(d * s) <= s / 2.0
  {
    MulMonotoneReal(d, 0.5, s);
    MulMonotoneReal(-0.5, d, s);
    var v := d * s;
    assert v <= 0.5 * s;
    assert -0.5 * s <= v;
  }

  /** An integer within half a unit of `x / s` stands for a value within half
      a step of `x`. */
  lemma StepError(k: int, x: real, s: real)
    requires s > 0.0 && -0.5 <= k as real - x / s <= 0.5
    ensures Abs(k as real * s - x) <= s / 2.0
  {
    var y := x / s;
    var d := k as real - y;
    assert y * s == x;
    HalfStep(d, s);
    assert k as real * s - x == d * s;
  }

  /** Dividing an interval `[lo, x]` no wider than `s * n` by `s`. */
  lemma QuotientShift(lo: real, x: real, s: real, n: real)
    requires s > 0.0 && lo <= x && x - lo <= s * n
    ensures lo / s <= x / s <= lo / s + n
  {
    var a, b := lo / s, x / s;
    assert a * s == lo && b * s == x;
    var d := b - a;
    assert d * s == x - lo;
    if d > n {
      MulMonotoneReal(n, d, s);
    }
    if d < 0.0 {
      MulMonotoneReal(d, 0.0, s);
    }
  }

  /** A ratio of a non-negative value to a larger one lies in `[0, 1)`. */
  lemma RatioBelowOne(x: real, d: real)
    requires 0.0 <= x < d
    ensures 0.0 <= x / d < 1.0
  {
    var q := x / d;
    assert q * d == x;
    if q >= 1.0 {
      MulMonotoneReal(1.0, q, d);
    }
  }

  /** Division by a positive number keeps order, in both directions. */
  lemma DivMonotone(a: real, b: real, d: real)
    requires d > 0.0
    ensures a <= b <==> a / d <= b / d
  {
    var p, q := a / d, b / d;
    DivThenMul(a, d);
    DivThenMul(b, d);
    if a <= b && p > q {
      MulMonotoneReal(q, p, d);
    }
    if p <= q {
      MulMonotoneReal(p, q, d);
    }
  }

  /** `d` squared is `x * y`. */
  predicate SquareOf(d: real, x: real, y: real) {
    d * d == x * y
  }

  /** `p` is `x / d`. */
  predicate Quotient(p: real, x: real, d: real) {
    d != 0.0 && p == x / d
  }

  /** `p` and `q` multiply to 1. */
  predicate Reciprocal(p: real, q: real) {
    p * q == 1.0
  }

  /** Dividing both factors by the square root of their product leaves a product of 1. */
  lemma UnitProduct(x: real, y: real, d: real, p: real, q: real)
    requires d > 0.0 && SquareOf(d, x, y) && Quotient(p, x, d) && Quotient(q, y, d)
    ensures Reciprocal(p, q)
  {
    assert p * d == x && q * d == y;
    calc {
      p * q * (d * d);
      (p * d) * (q * d);
      x * y;
      d * d;
    }
    var e := p * q;
    assert (e - 1.0) * (d * d) == 0.0;
    assert d * d > 0.0;
  }

  lemma PositiveProduct(a: real, b: real)
    requires a > 0.0 && b > 0.0
    ensures a * b > 0.0
  {
  }

  lemma NonPositiveQuotient(x: real, s: real)
    requires s > 0.0 && x <= 0.0
    ensures x / s <= 0.0
  {
  }

  lemma MulMonotoneReal(a: real, b: real, s: real)
    requires a <= b && s >= 0.0
    ensures a * s <= b * s
  {
  }
}
