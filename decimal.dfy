/** Decimal numerals as Go's fmt package writes them (verbs %d and %02d), and
    the digit-string reading that Go's time parser does. */
module Decimal {
  import opened Common

  predicate IsDigit(c: char)
  {
    '0' <= c <= '9'
  }

  predicate AllDigits(s: string)
  {
    forall i | 0 <= i < |s| :: IsDigit(s[i])
  }

  function DigitChar(d: int): (c: char)
    requires 0 <= d < 10
    ensures IsDigit(c)
  {
    ('0' as int + d) as char
  }

  function DigitValue(c: char): int
    requires IsDigit(c)
  {
    c as int - '0' as int
  }

  function Pow10(k: nat): (r: nat)
    ensures r >= 1
  {
    if k == 0 then 1 else 10 * Pow10(k - 1)
  }

  /** The digits of a natural number, most significant first, without leading zeros. */
  function NatDigits(n: nat): (s: string)
    ensures |s| >= 1 && AllDigits(s)
    ensures n >= 10 ==> s[0] != '0'
  {
    if n < 10 then [DigitChar(n)] else NatDigits(n / 10) + [DigitChar(n % 10)]
  }

  /** The value of a string of digits, most significant first. */
  function DigitsValue(s: string): nat
    requires AllDigits(s)
  {
    if s == [] then 0
    else
      DigitsValue(s[..|s| - 1]) * 10 + DigitValue(s[|s| - 1])
  }

  /** fmt.Sprintf("%d", n). */
  function FormatInt(n: int): string
  {
    if n < 0 then "-" + NatDigits(-n) else NatDigits(n)
  }

  /** fmt.Sprintf("%02d", n): padded with a zero to width two; a negative
      number or one of two or more digits is written as %d writes it. */
  function FormatInt02(n: int): string
  {
    if 0 <= n < 10 then "0" + NatDigits(n) else FormatInt(n)
  }

  /** Reads back what FormatInt writes: an optional minus sign and then digits. */
  function ParseInt(s: string): Option<int>
  {
    if |s| >= 2 && s[0] == '-' && AllDigits(s[1..]) then Some(0 - DigitsValue(s[1..]) as int)
    else if |s| >= 1 && AllDigits(s) then Some(DigitsValue(s))
    else None
  }

  lemma {:induction false} NatDigitsValue(n: nat)
    ensures DigitsValue(NatDigits(n)) == n
  {
    if n >= 10 {
      NatDigitsValue(n / 10);
      var s := NatDigits(n);
      assert s[..|s| - 1] == NatDigits(n / 10);
    }
  }

  /** A number has at most k digits exactly when it is below 10^k. */
  lemma {:induction false} NatDigitsLength(n: nat, k: nat)
    ensures |NatDigits(n)| <= k <==> (k >= 1 && n < Pow10(k))
  {
    if n >= 10 && k >= 1 {
      NatDigitsLength(n / 10, k - 1);
    } else if n < 10 && k >= 1 {
      assert Pow10(k) == 10 * Pow10(k - 1);
    }
  }

  /** Reading a written number gives it back. */
  lemma FormatIntRoundTrip(n: int)
    ensures ParseInt(FormatInt(n)) == Some(n)
  {
    if n < 0 {
      NatDigitsValue(-n);
      assert FormatInt(n)[1..] == NatDigits(-n);
    } else {
      NatDigitsValue(n);
    }
  }

  /** Distinct numbers are written differently. */
  lemma FormatIntInjective(a: int, b: int)
    ensures FormatInt(a) == FormatInt(b) ==> a == b
  {
    FormatIntRoundTrip(a);
    FormatIntRoundTrip(b);
  }

  /** What %d writes begins with a minus sign or a digit. */
  lemma FormatIntFirst(n: int)
    ensures |FormatInt(n)| >= 1
    ensures FormatInt(n)[0] == '-' || IsDigit(FormatInt(n)[0])
  {
  }
}
