/**
 * Decimal rendering of integers, as Go's strconv.Itoa does it, and the parser
 * strconv.Atoi that reads such a rendering back. Integers are unbounded here;
 * Go's int is 64 bits wide, and no value the bot renders comes near the bound.
 */
module Strconv {
  import opened Wrappers

  predicate IsDigit(c: char) {
    '0' <= c <= '9'
  }

  predicate AllDigits(s: string) {
    forall i :: 0 <= i < |s| ==> IsDigit(s[i])
  }

  function DigitChar(d: nat): (c: char)
    requires d < 10
    ensures IsDigit(c) && c as int - '0' as int == d
  {
    ('0' as int + d) as char
  }

  function DigitValue(c: char): (d: nat)
    requires IsDigit(c)
    ensures d < 10 && DigitChar(d) == c
  {
    c as int - '0' as int
  }

  /** The shortest decimal numeral of n: digits only, no leading zero unless n is 0. */
  function NatToDecimal(n: nat): (s: string)
    ensures |s| >= 1 && AllDigits(s)
    ensures s[0] == '0' ==> n == 0
    decreases n
  {
    if n < 10 then [DigitChar(n)] else NatToDecimal(n / 10) + [DigitChar(n % 10)]
  }

  /** The value of a numeral of decimal digits (the empty numeral has value 0). */
  function DecimalValue(s: string): nat
    requires AllDigits(s)
  {
    if |s| == 0 then 0 else DecimalValue(s[..|s| - 1]) * 10 + DigitValue(s[|s| - 1])
  }

  /** strconv.Itoa: a '-' for negative numbers, then the digits of the magnitude. */
  function Itoa(n: int): (s: string)
    ensures |s| >= 1 && (s[0] == '-' || IsDigit(s[0]))
    ensures (s[0] == '-') <==> n < 0
    ensures forall i :: 1 <= i < |s| ==> IsDigit(s[i])
  {
    if n < 0 then "-" + NatToDecimal(-n) else NatToDecimal(n)
  }

  /** strconv.Atoi: an optional sign, then one or more decimal digits; anything else is an error. */
  function Atoi(s: string): Option<int> {
    if |s| >= 1 && (s[0] == '-' || s[0] == '+') then
      var digits := s[1..];
      if |digits| >= 1 && AllDigits(digits) then
        var v: int := DecimalValue(digits);
        Some(if s[0] == '-' then -v else v)
      else None
    else if |s| >= 1 && AllDigits(s) then Some(DecimalValue(s))
    else None
  }

  lemma {:induction false} DecimalRoundTrip(n: nat)
    ensures DecimalValue(NatToDecimal(n)) == n
    decreases n
  {
    if n >= 10 {
      var s := NatToDecimal(n / 10) + [DigitChar(n % 10)];
      assert s[..|s| - 1] == NatToDecimal(n / 10);
      DecimalRoundTrip(n / 10);
    }
  }

  /** Atoi reads back exactly the number Itoa wrote. */
  lemma ItoaRoundTrip(n: int)
    ensures Atoi(Itoa(n)) == Some(n)
  {
    if n < 0 {
      var digits := NatToDecimal(-n);
      assert Itoa(n) == "-" + digits;
      assert Itoa(n)[1..] == digits;
      DecimalRoundTrip(-n);
      assert DecimalValue(digits) == -n;
    } else {
      var digits := NatToDecimal(n);
      assert Itoa(n) == digits && AllDigits(digits);
      assert digits[0] != '-' && digits[0] != '+';
      DecimalRoundTrip(n);
    }
  }

  /** Distinct numbers have distinct renderings. */
  lemma ItoaInjective(a: int, b: int)
    requires Itoa(a) == Itoa(b)
    ensures a == b
  {
    ItoaRoundTrip(a);
    ItoaRoundTrip(b);
  }

  /** Two positions that are each the first '-' after position 0 coincide. */
  lemma FirstSeparator(s: string, m: nat, n: nat)
    requires 1 <= m < |s| && 1 <= n < |s|
    requires s[m] == '-' && s[n] == '-'
    requires forall i :: 1 <= i < m ==> s[i] != '-'
    requires forall i :: 1 <= i < n ==> s[i] != '-'
    ensures m == n
  {
  }

  /**
   * A rendering followed by a '-' separator can be split off unambiguously:
   * the separator is the first '-' after the sign.
   */
  lemma ItoaThenDash(a: int, b: int, x: string, y: string)
    requires Itoa(a) + "-" + x == Itoa(b) + "-" + y
    ensures a == b && x == y
  {
    var A, B := Itoa(a), Itoa(b);
    var s := A + "-" + x;
    var t := B + "-" + y;
    assert s[|A|] == '-' && t[|B|] == '-';
    assert forall i :: 1 <= i < |A| ==> s[i] == A[i];
    assert forall i :: 1 <= i < |B| ==> t[i] == B[i];
    FirstSeparator(s, |A|, |B|);
    assert A == s[..|A|] == B;
    ItoaInjective(a, b);
    assert x == s[|A| + 1..] == y;
  }
}
