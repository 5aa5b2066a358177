/**
 * Go's strconv.Atoi and strconv.Itoa on a 64-bit platform, as the chaincode uses them
 * to turn its string arguments into integer fields and back.
 */
module Strconv {
  import opened Wrappers

  /** Bounds of Go's `int` on the 64-bit peers Fabric runs on. */
  const MinInt: int := -0x8000_0000_0000_0000
  const MaxInt: int := 0x7fff_ffff_ffff_ffff

  predicate IsDigit(c: char) { '0' <= c <= '9' }

  predicate AllDigits(s: string) { forall i :: 0 <= i < |s| ==> IsDigit(s[i]) }

  function DigitValue(c: char): nat
    requires IsDigit(c)
  {
    c as int - '0' as int
  }

  function DigitChar(d: nat): (c: char)
    requires d < 10
    ensures IsDigit(c) && DigitValue(c) == d
  {
    ('0' as int + d) as char
  }

  /** The value of a string of decimal digits, most significant first. */
  function DigitsValue(s: string): nat
    requires AllDigits(s)
  {
    if s == [] then 0 else DigitsValue(s[..|s| - 1]) * 10 + DigitValue(s[|s| - 1])
  }

  /**
   * strconv.Atoi: an optional '+' or '-', then one or more decimal digits, and a value
   * that fits in `int`; anything else is an error (None).
   */
  function Atoi(s: string): (r: Option<int>)
    ensures r.Some? ==> |s| > 0 && MinInt <= r.value <= MaxInt
  {
    if |s| == 0 then None
    else
      var digits := if s[0] == '-' || s[0] == '+' then s[1..] else s;
      if |digits| == 0 || !AllDigits(digits) then None
      else
        var v: int := if s[0] == '-' then 0 - DigitsValue(digits) as int else DigitsValue(digits);
        if MinInt <= v <= MaxInt then Some(v) else None
  }

  /** The shortest decimal spelling of a natural number. */
  function NatDigits(n: nat): (s: string)
    ensures |s| > 0 && AllDigits(s)
    ensures |s| > 1 ==> s[0] != '0'
  {
    if n < 10 then [DigitChar(n)] else NatDigits(n / 10) + [DigitChar(n % 10)]
  }

  /** strconv.Itoa: decimal, with a leading '-' for negative numbers. */
  function Itoa(n: int): (s: string)
  {
    if n < 0 then "-" + NatDigits(-n) else NatDigits(n)
  }

  lemma {:induction false} NatDigitsValue(n: nat)
    ensures DigitsValue(NatDigits(n)) == n
  {
    if n >= 10 {
      NatDigitsValue(n / 10);
      var s := NatDigits(n);
      assert s[..|s| - 1] == NatDigits(n / 10);
    }
  }

  /** Every `int` survives the trip through its decimal spelling: Atoi(Itoa(n)) == n. */
  lemma ItoaAtoi(n: int)
    requires MinInt <= n <= MaxInt
    ensures Atoi(Itoa(n)) == Some(n)
  {
    var s := Itoa(n);
    if n < 0 {
      NatDigitsValue(-n);
      assert s[1..] == NatDigits(-n);
    } else {
      NatDigitsValue(n);
    }
  }

  /** Itoa writes a '-' exactly for negative numbers, and only digits otherwise. */
  lemma ItoaShape(n: int)
    ensures |Itoa(n)| > 0
    ensures Itoa(n)[0] == '-' <==> n < 0
    ensures n >= 0 ==> AllDigits(Itoa(n))
  {
  }

  /** Atoi refuses any character other than a digit, except one leading sign. */
  lemma {:induction false} AtoiRejectsNonDigit(s: string, i: nat)
    requires i < |s| && !IsDigit(s[i])
    requires i > 0 || (s[i] != '-' && s[i] != '+')
    ensures Atoi(s) == None
  {
    if s[0] == '-' || s[0] == '+' {
      assert s[1..][i - 1] == s[i];
    }
  }

  /**
   * A value outside Go's 64-bit `int` is a range error however it is spelt: any digit
   * string, leading zeros allowed, with or without a sign.
   */
  lemma AtoiRejectsOutOfRange(d: string)
    requires |d| > 0 && AllDigits(d)
    ensures DigitsValue(d) > MaxInt ==> Atoi(d) == None && Atoi("+" + d) == None
    ensures DigitsValue(d) > -MinInt ==> Atoi("-" + d) == None
  {
    assert ("+" + d)[1..] == d;
    assert ("-" + d)[1..] == d;
  }
}
