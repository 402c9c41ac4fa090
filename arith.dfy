/** Integer rounding helpers shared by the volume arithmetic of the scripts. */
module Arith {

  /** `math.ceil(a / b)` for a natural numerator and a positive denominator. */
  function CeilDiv(a: nat, b: nat): (q: nat)
    requires b > 0
    ensures q * b >= a
    ensures q == 0 || (q - 1) * b < a
  {
    LemmaCeilDiv(a, b);
    (a + b - 1) / b
  }

  lemma LemmaCeilDiv(a: nat, b: nat)
    requires b > 0
    ensures ((a + b - 1) / b) * b >= a
    ensures (a + b - 1) / b == 0 || ((a + b - 1) / b - 1) * b < a
  {
    var q := (a + b - 1) / b;
    var r := (a + b - 1) % b;
    assert q * b + r == a + b - 1;
    assert 0 <= r < b;
  }

  /** The least multiple of `m` that is at least `a`. */
  function RoundUpTo(a: nat, m: nat): (r: nat)
    requires m > 0
    ensures r % m == 0
    ensures a <= r < a + m
  {
    var q := CeilDiv(a, m);
    assert q * m % m == 0 by { LemmaMultipleMod(q, m); }
    q * m
  }

  lemma LemmaMultipleMod(q: nat, m: nat)
    requires m > 0
    ensures q * m % m == 0
  {
    var n := q * m;
    DivModUnique(n / m, n % m, q, 0, m);
  }

  /** Quotient and remainder are unique: `a*m + b == c*m + d` with both remainders below `m` forces equality. */
  lemma DivModUnique(a: int, b: int, c: int, d: int, m: int)
    requires m > 0 && 0 <= b < m && 0 <= d < m
    requires a * m + b == c * m + d
    ensures a == c && b == d
  {
    if a > c {
      assert (a - c) * m == d - b;
      LemmaMulMono(1, a - c, m);
    } else if a < c {
      assert (c - a) * m == b - d;
      LemmaMulMono(1, c - a, m);
    }
  }

  /** The unique q and the bounds that pin it: the ceiling is the least count of `b`-sized parts that covers `a`. */
  lemma {:induction false} CeilDivLeast(a: nat, b: nat, k: nat)
    requires b > 0
    requires k * b >= a
    ensures CeilDiv(a, b) <= k
  {
    var q := CeilDiv(a, b);
    if q > k {
      assert (q - 1) * b >= k * b by {
        assert q - 1 >= k;
        LemmaMulMono(k, q - 1, b);
      }
      assert false;
    }
  }

  lemma LemmaMulMono(x: nat, y: nat, b: nat)
    requires x <= y
    ensures x * b <= y * b
  {}

  /** The ceiling is pinned by its two bounds. */
  lemma CeilDivIs(a: nat, b: nat, q: nat)
    requires b > 0 && q * b >= a && (q == 0 || (q - 1) * b < a)
    ensures CeilDiv(a, b) == q
  {
    CeilDivLeast(a, b, q);
    var c := CeilDiv(a, b);
    if c < q {
      LemmaMulMono(c, q - 1, b);
    }
  }

  /** Rounding up to a multiple is pinned by the count of multiples. */
  lemma RoundUpToIs(a: nat, m: nat, q: nat)
    requires m > 0 && q * m >= a && (q == 0 || (q - 1) * m < a)
    ensures RoundUpTo(a, m) == q * m
  {
    CeilDivIs(a, m, q);
  }

  /** Python's `math.floor(a / b)` on naturals: the largest count of `b`-sized parts that fits in `a`. */
  function FloorDiv(a: nat, b: nat): (q: nat)
    requires b > 0
    ensures q * b <= a < (q + 1) * b
  {
    a / b
  }

  /** `n` copies of `v` added up: the volume of `n` equal transfers or `n` full columns. */
  function Times(n: nat, v: real): real
  {
    if n == 0 then 0.0 else Times(n - 1, v) + v
  }

  /** Repeated addition is multiplication. */
  lemma {:induction false} TimesIsProduct(n: nat, v: real)
    ensures Times(n, v) == n as real * v
  {
    if n > 0 {
      TimesIsProduct(n - 1, v);
      assert n as real * v == (n - 1) as real * v + v;
    }
  }

  lemma {:induction false} TimesAdd(m: nat, n: nat, v: real)
    ensures Times(m + n, v) == Times(m, v) + Times(n, v)
  {
    if n > 0 {
      TimesAdd(m, n - 1, v);
    }
  }

}
