/**
 * Go's `int64`: two's-complement 64-bit integers whose `+`, `-` and `*`
 * wrap around silently, and whose `/` truncates toward zero.
 */
module Int64 {

  const MinInt64: int := -0x8000_0000_0000_0000
  const MaxInt64: int := 0x7FFF_FFFF_FFFF_FFFF
  /** 2^64, the modulus of the wrap-around. */
  const Modulus: int := 0x1_0000_0000_0000_0000

  predicate InRange(x: int) { MinInt64 <= x <= MaxInt64 }

  type Int64 = x: int | MinInt64 <= x <= MaxInt64

  /** `n / Modulus` is `k` exactly when `n` lies in the k-th block of 2^64 integers. */
  lemma DivModulus(n: int, k: int)
    requires k * Modulus <= n < (k + 1) * Modulus
    ensures n / Modulus == k
  {
    assert n == n / Modulus * Modulus + n % Modulus;
  }

  /** The facts about `x - k * Modulus` that make it the wrapped value of `x`. */
  lemma WrapFacts(x: int)
    ensures var k := (x - MinInt64) / Modulus;
      var r := x - k * Modulus;
      InRange(r) && (x - r) % Modulus == 0
      && (InRange(x) ==> r == x)
      && (MaxInt64 < x <= MaxInt64 + Modulus ==> r == x - Modulus)
      && (MinInt64 - Modulus <= x < MinInt64 ==> r == x + Modulus)
  {
    var k := (x - MinInt64) / Modulus;
    var r := x - k * Modulus;
    assert x - MinInt64 == k * Modulus + (x - MinInt64) % Modulus;
    assert (x - r) / Modulus == k by { DivModulus(x - r, k); }
    if InRange(x) {
      DivModulus(x - MinInt64, 0);
    } else if MaxInt64 < x <= MaxInt64 + Modulus {
      DivModulus(x - MinInt64, 1);
    } else if MinInt64 - Modulus <= x < MinInt64 {
      DivModulus(x - MinInt64, -1);
    }
  }

  /** The one int64 congruent to `x` modulo 2^64: what a Go int64 holds after an overflowing operation. */
  function Wrap(x: int): (r: Int64)
    ensures (x - r) % Modulus == 0
    ensures InRange(x) ==> r == x
    ensures MaxInt64 < x <= MaxInt64 + Modulus ==> r == x - Modulus
    ensures MinInt64 - Modulus <= x < MinInt64 ==> r == x + Modulus
  {
    WrapFacts(x);
    x - (x - MinInt64) / Modulus * Modulus
  }

  /** Two int64 values that agree modulo 2^64 are the same value. */
  lemma CongruentEqual(a: Int64, b: Int64)
    requires (a - b) % Modulus == 0
    ensures a == b
  {
    var k := (a - b) / Modulus;
    assert a - b == k * Modulus;
  }

  /** A sum of two multiples of 2^64 is a multiple of 2^64. */
  lemma ModulusSum(x: int, y: int)
    requires x % Modulus == 0 && y % Modulus == 0
    ensures (x + y) % Modulus == 0
  {
    assert x == x / Modulus * Modulus;
    assert y == y / Modulus * Modulus;
    assert x + y == (x / Modulus + y / Modulus) * Modulus;
    DivModulus(x + y, x / Modulus + y / Modulus);
  }

  /** Go's `a + b` on int64. */
  function Add(a: Int64, b: Int64): (r: Int64)
    ensures InRange(a + b) ==> r == a + b
    ensures a + b > MaxInt64 ==> r == a + b - Modulus
    ensures a + b < MinInt64 ==> r == a + b + Modulus
    ensures (a + b - r) % Modulus == 0
  {
    Wrap(a + b)
  }

  /** Adding to a wrapped number and wrapping again is wrapping the exact sum. */
  lemma AddWrap(x: int, c: Int64)
    ensures Add(Wrap(x), c) == Wrap(x + c)
  {
    var w := Wrap(x);
    var lhs, rhs := Add(w, c), Wrap(x + c);
    // lhs - rhs == (lhs - (w + c)) + (w - x) + ((x + c) - rhs), each a multiple of 2^64
    ModulusNegate(w + c - lhs);
    ModulusNegate(x - w);
    ModulusSum(lhs - (w + c), w - x);
    ModulusSum(lhs - (w + c) + (w - x), (x + c) - rhs);
    CongruentEqual(lhs, rhs);
  }

  /** The negation of a multiple of 2^64 is one. */
  lemma ModulusNegate(x: int)
    requires x % Modulus == 0
    ensures (-x) % Modulus == 0
  {
    assert x == x / Modulus * Modulus;
    assert -x == (-(x / Modulus)) * Modulus;
    DivModulus(-x, -(x / Modulus));
  }

  /** Go's `a - b` on int64. */
  function Sub(a: Int64, b: Int64): (r: Int64)
    ensures InRange(a - b) ==> r == a - b
    ensures a - b > MaxInt64 ==> r == a - b - Modulus
    ensures a - b < MinInt64 ==> r == a - b + Modulus
    ensures (a - b - r) % Modulus == 0
  {
    Wrap(a - b)
  }

  /** Go's `a * b` on int64. */
  function Mul(a: Int64, b: Int64): (r: Int64)
    ensures InRange(a * b) ==> r == a * b
    ensures (a * b - r) % Modulus == 0
  {
    Wrap(a * b)
  }

  /** Multiplying a natural by a positive natural never makes it smaller. */
  lemma {:induction false} MulAtLeast(q: nat, d: nat)
    requires d >= 1
    ensures q * d >= q
  {
    if d > 1 {
      MulAtLeast(q, d - 1);
      assert q * d == q * (d - 1) + q;
    }
  }

  /** Integer division of naturals: quotient and remainder, and the quotient never exceeds the dividend. */
  lemma NatDivision(n: nat, d: nat)
    requires d > 0
    ensures n == (n / d) * d + n % d && 0 <= n % d < d
    ensures 0 <= n / d <= n
  {
    MulAtLeast(n / d, d);
  }

  /** The truncated quotient of `a` by a positive `b` brackets `a` between consecutive multiples of `b`. */
  lemma QuoPositiveDivisor(a: Int64, b: Int64)
    requires b > 0
    ensures var m: int := (if a < 0 then -(a as int) else a as int) / b;
      var q: int := if a < 0 then -m else m;
      InRange(q)
      && (a >= 0 ==> q * b <= a < (q + 1) * b)
      && (a < 0 ==> (q - 1) * b < a <= q * b)
  {
    var n: nat := if a < 0 then -(a as int) else a as int;
    var m := n / b;
    NatDivision(n, b);
    assert (m + 1) * b == m * b + b;
    assert (-m - 1) * b == -(m * b) - b;
    assert (-m) * b == -(m * b);
  }

  /** Dividing `n` by `d` brackets `n` between consecutive multiples of `d`, and likewise of `-d` with the signs flipped. */
  lemma DivisionBracket(n: nat, d: nat)
    requires d > 0
    ensures var m: int := n / d; var p: int := m * d; var e: int := -(d as int);
      p <= n < p + d
      && m * e == -p && (m + 1) * e == -p - d
      && (-m) * e == p && (-m - 1) * e == p + d
  {
    NatDivision(n, d);
    var m := n / d;
    assert (m + 1) * d == m * d + d;
  }

  /** The truncated quotient of `a` by a negative `b` brackets `a` between consecutive multiples of `b`. */
  lemma QuoNegativeDivisor(a: Int64, b: Int64)
    requires b < 0 && !(a == MinInt64 && b == -1)
    ensures var m: int := (if a < 0 then -(a as int) else a as int) / -(b as int);
      var q: int := if a < 0 then m else -m;
      InRange(q)
      && (a >= 0 ==> q * b <= a < (q - 1) * b)
      && (a < 0 ==> (q + 1) * b < a <= q * b)
  {
    var n: nat := if a < 0 then -(a as int) else a as int;
    var d: nat := -(b as int);
    var m := n / d;
    DivisionBracket(n, d);
    NatDivision(n, d);
    if a < 0 && d > 1 {
      // a quotient by at least 2 is at most half the dividend
      MulAtLeast(m, d - 1);
      assert m * d == m * (d - 1) + m;
    }
    assert m <= MaxInt64;
  }

  /**
   * Go's `a / b` on int64: the quotient truncated toward zero; the one
   * overflowing case, MinInt64 / -1, wraps back to MinInt64. Go panics
   * when `b` is zero, hence the precondition.
   */
  function Quo(a: Int64, b: Int64): (q: Int64)
    requires b != 0
    ensures b > 0 && a >= 0 ==> q * b <= a < (q + 1) * b
    ensures b > 0 && a < 0 ==> (q - 1) * b < a <= q * b
    ensures b > 0 ==> (a >= 0 ==> q >= 0) && (a <= 0 ==> q <= 0)
    ensures b < 0 && !(a == MinInt64 && b == -1) ==>
      (a >= 0 ==> q * b <= a < (q - 1) * b) && (a < 0 ==> (q + 1) * b < a <= q * b)
    ensures b < 0 && !(a == MinInt64 && b == -1) ==> (a >= 0 ==> q <= 0) && (a <= 0 ==> q >= 0)
    ensures a == MinInt64 && b == -1 ==> q == MinInt64
  {
    var n: nat, d: nat := if a < 0 then -(a as int) else a as int, if b < 0 then -(b as int) else b as int;
    NatDivision(n, d);
    if b > 0 then QuoPositiveDivisor(a, b); Wrap(if a < 0 then -(n / d) else n / d)
    else if a == MinInt64 && b == -1 then Wrap(n / d)
    else QuoNegativeDivisor(a, b); Wrap(if a < 0 then n / d else -(n / d))
  }
}
