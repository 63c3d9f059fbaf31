/** Decimal rendering of identifiers (strconv.Itoa and strconv.FormatInt with
    base 10), with a parser as its inverse. */
module Strconv {
  import opened Wrappers

  predicate IsDigit(c: char) {
    '0' <= c <= '9'
  }

  predicate AllDigits(s: string) {
    forall i :: 0 <= i < |s| ==> IsDigit(s[i])
  }

  function DigitChar(d: nat): (c: char)
    requires d < 10
    ensures IsDigit(c) && DigitValue(c) == d
  {
    ('0' as int + d) as char
  }

  function DigitValue(c: char): nat
    requires IsDigit(c)
  {
    c as int - '0' as int
  }

  /** Decimal digits of n, most significant first, without leading zeros. */
  function FormatNat(n: nat): (s: string)
    ensures |s| > 0
    decreases n
  {
    if n < 10 then [DigitChar(n)] else FormatNat(n / 10) + [DigitChar(n % 10)]
  }

  /** Base-10 text of an integer, with a leading '-' when it is negative. */
  function FormatInt(n: int): (s: string)
    ensures |s| > 0
  {
    (if n < 0 then "-" else "") + FormatNat(if n < 0 then -n else n)
  }

  function ParseNat(s: string): nat
    requires AllDigits(s)
    decreases |s|
  {
    if s == [] then 0 else ParseNat(s[..|s| - 1]) * 10 + DigitValue(s[|s| - 1])
  }

  /** Reads back what FormatInt writes; None for any other text. */
  function ParseInt(s: string): Option<int> {
    if |s| > 1 && s[0] == '-' && AllDigits(s[1..]) then Some(-(ParseNat(s[1..]) as int))
    else if |s| > 0 && AllDigits(s) then Some(ParseNat(s))
    else None
  }

  /** FormatNat writes only digits, and a leading zero only for zero itself. */
  lemma {:induction false} FormatNatIsDecimal(n: nat)
    ensures AllDigits(FormatNat(n))
    ensures FormatNat(n)[0] == '0' ==> n == 0
    decreases n
  {
    if n >= 10 {
      FormatNatIsDecimal(n / 10);
      var s := FormatNat(n);
      assert s == FormatNat(n / 10) + [DigitChar(n % 10)];
      assert s[0] == FormatNat(n / 10)[0];
    }
  }

  lemma {:induction false} ParseFormatNat(n: nat)
    ensures AllDigits(FormatNat(n)) && ParseNat(FormatNat(n)) == n
    decreases n
  {
    FormatNatIsDecimal(n);
    if n >= 10 {
      var s := FormatNat(n);
      assert s[..|s| - 1] == FormatNat(n / 10);
      ParseFormatNat(n / 10);
    }
  }

  /** FormatInt loses nothing: its text parses back to the same integer. */
  lemma ParseFormatInt(n: int)
    ensures ParseInt(FormatInt(n)) == Some(n)
  {
    var s := FormatInt(n);
    if n < 0 {
      assert s[1..] == FormatNat(-n);
      ParseFormatNat(-n);
    } else {
      assert s == FormatNat(n);
      ParseFormatNat(n);
      assert IsDigit(s[0]);
    }
  }

  /** Distinct identifiers render as distinct text. */
  lemma FormatIntInjective(a: int, b: int)
    ensures FormatInt(a) == FormatInt(b) ==> a == b
  {
    ParseFormatInt(a);
    ParseFormatInt(b);
  }
}
