/** Decimal text, as fmt's `%d` writes a number: used for the simulator's
    transaction ids and IP addresses and for the attempt numbers in the
    retry library's error message. */
module Decimal {
  function DigitChar(d: nat): char
    requires d < 10
  {
    "0123456789"[d]
  }

  predicate IsDigit(c: char) {
    '0' <= c <= '9'
  }

  function NatToString(n: nat): (s: string)
    ensures |s| >= 1 && forall i :: 0 <= i < |s| ==> IsDigit(s[i])
    decreases n
  {
    if n < 10 then [DigitChar(n)] else NatToString(n / 10) + [DigitChar(n % 10)]
  }

  function IntToString(n: int): string {
    if n < 0 then "-" + NatToString(-n) else NatToString(n)
  }

  /** The value of a string of decimal digits. */
  function ParseNat(s: string): nat
    requires forall i :: 0 <= i < |s| ==> IsDigit(s[i])
    decreases |s|
  {
    if s == [] then 0
    else
      assert IsDigit(s[|s| - 1]);
      ParseNat(s[..|s| - 1]) * 10 + (s[|s| - 1] as int - '0' as int) as nat
  }

  /** Decimal text reads back as the number it was made from. */
  lemma {:induction false} ParseNatToString(n: nat)
    ensures ParseNat(NatToString(n)) == n
    decreases n
  {
    if n >= 10 {
      ParseNatToString(n / 10);
      var s := NatToString(n);
      assert s[..|s| - 1] == NatToString(n / 10);
    }
  }

  /** Distinct integers have distinct decimal text: a negative number's text
      starts with '-', a non-negative one's with a digit. */
  lemma IntToStringInjective(m: int, n: int)
    requires m != n
    ensures IntToString(m) != IntToString(n)
  {
    if m >= 0 && n >= 0 {
      ParseNatToString(m);
      ParseNatToString(n);
    } else if m < 0 && n < 0 {
      ParseNatToString(-m);
      ParseNatToString(-n);
      assert IntToString(m)[1..] == NatToString(-m);
      assert IntToString(n)[1..] == NatToString(-n);
    } else if m < 0 {
      assert IntToString(m)[0] == '-' && IsDigit(IntToString(n)[0]);
    } else {
      assert IsDigit(IntToString(m)[0]) && IntToString(n)[0] == '-';
    }
  }
}
