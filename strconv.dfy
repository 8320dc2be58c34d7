/**
 * Go's `strconv.Atoi`: an optional `+` or `-` sign followed by one or more
 * ASCII decimal digits, whose value must fit a 64-bit `int`. Anything else
 * (the empty string, a lone sign, spaces, underscores, a value out of
 * range) is an error, here `None`.
 */
module Strconv {
  import opened Int64
  import opened Wrappers

  predicate IsDigit(c: char) { '0' <= c <= '9' }

  predicate AllDigits(s: string) { forall i :: 0 <= i < |s| ==> IsDigit(s[i]) }

  function DigitValue(c: char): nat
    requires IsDigit(c)
  {
    c as int - '0' as int
  }

  function DigitChar(d: nat): (c: char)
    requires d < 10
    ensures IsDigit(c) && DigitValue(c) == d
  {
    ('0' as int + d) as char
  }

  /** The value of a string of decimal digits, most significant first. */
  function DecimalValue(s: string): nat
    requires AllDigits(s)
  {
    if s == [] then 0 else 10 * DecimalValue(s[..|s| - 1]) + DigitValue(s[|s| - 1])
  }

  /** The digits after an optional leading sign. */
  function Unsigned(s: string): string
  {
    if s != [] && (s[0] == '+' || s[0] == '-') then s[1..] else s
  }

  /** The value the sign and digits of `s` denote, before any range check. */
  function SignedValue(s: string): int
    requires Unsigned(s) != [] && AllDigits(Unsigned(s))
  {
    if s[0] == '-' then -(DecimalValue(Unsigned(s)) as int) else DecimalValue(Unsigned(s))
  }

  /** Go's `strconv.Atoi(s)`: `Some(n)` when it returns `n` and a nil error. */
  function Atoi(s: string): (r: Option<Int64>)
    ensures r.Some? <==> Unsigned(s) != [] && AllDigits(Unsigned(s))
                         && InRange(SignedValue(s))
    ensures r.Some? && s[0] != '-' ==> r.value >= 0
  {
    var digits := Unsigned(s);
    if digits == [] || !AllDigits(digits) then None
    else
      var v := SignedValue(s);
      if InRange(v) then Some(v) else None
  }

  /** The decimal digits of `n`, most significant first, without leading zeros. */
  function Digits(n: nat): (s: string)
    ensures s != [] && AllDigits(s)
    ensures s[0] != '-' && s[0] != '+'
  {
    if n < 10 then [DigitChar(n)] else Digits(n / 10) + [DigitChar(n % 10)]
  }

  /** Go's `strconv.Itoa(n)`: the decimal form of `n`, with a `-` when it is negative. */
  function Itoa(n: Int64): (s: string)
    ensures s != []
  {
    if n < 0 then "-" + Digits(-(n as int)) else Digits(n)
  }

  lemma {:induction false} DecimalValueOfDigits(n: nat)
    ensures DecimalValue(Digits(n)) == n
  {
    if n >= 10 {
      var s := Digits(n);
      assert s[..|s| - 1] == Digits(n / 10);
      DecimalValueOfDigits(n / 10);
    }
  }

  /** Atoi reads back every value Itoa writes. */
  lemma AtoiItoa(n: Int64)
    ensures Atoi(Itoa(n)) == Some(n)
  {
    DecimalValueOfDigits(if n < 0 then -(n as int) else n);
    if n < 0 {
      assert Unsigned(Itoa(n)) == Digits(-(n as int));
    }
  }
}
