/** Decimal rendering of transaction ids, as Python's str() writes a
    non-negative int, and its inverse. */
module Decimal {
  import opened Wire

  predicate IsDigit(c: char) { '0' <= c <= '9' }

  predicate AllDigits(s: string) { forall i :: 0 <= i < |s| ==> IsDigit(s[i]) }

  /** The form str() gives: at least one digit, no leading zero unless the number is 0. */
  predicate Canonical(s: string) { |s| > 0 && AllDigits(s) && (|s| > 1 ==> s[0] != '0') }

  function DigitChar(d: nat): (c: char)
    requires d < 10
    ensures IsDigit(c)
  {
    (d + '0' as int) as char
  }

  function DigitValue(c: char): nat
    requires IsDigit(c)
  {
    (c as int - '0' as int) as nat
  }

  function FromDigits(s: string): nat
    requires AllDigits(s)
  {
    if |s| == 0 then 0 else FromDigits(s[..|s| - 1]) * 10 + DigitValue(s[|s| - 1])
  }

  /** str(n) for n >= 0. */
  function NatToDecimal(n: nat): (s: string)
    ensures Canonical(s)
  {
    if n < 10 then [DigitChar(n)] else NatToDecimal(n / 10) + [DigitChar(n % 10)]
  }

  /** Reads a canonical decimal numeral; anything else is rejected. */
  function ParseDecimal(s: string): (r: Option<nat>)
    ensures r.Some? <==> Canonical(s)
  {
    if Canonical(s) then Some(FromDigits(s)) else None
  }

  lemma {:induction false} FromDigitsOfDecimal(n: nat)
    ensures FromDigits(NatToDecimal(n)) == n
  {
    var s := NatToDecimal(n);
    if n >= 10 {
      var p := NatToDecimal(n / 10);
      FromDigitsOfDecimal(n / 10);
      assert s[..|s| - 1] == p;
    }
  }

  /** Reading back what was written gives the number written. */
  lemma DecimalRoundTrip(n: nat)
    ensures ParseDecimal(NatToDecimal(n)) == Some(n)
  {
    FromDigitsOfDecimal(n);
  }

  lemma {:induction false} LeadingNonZeroIsPositive(s: string)
    requires |s| > 0 && AllDigits(s) && s[0] != '0'
    ensures FromDigits(s) >= 1
  {
    if |s| > 1 {
      LeadingNonZeroIsPositive(s[..|s| - 1]);
    }
  }

  /** Every canonical numeral is what str() writes for its value. */
  lemma {:induction false} DecimalOfParse(s: string)
    requires Canonical(s)
    ensures NatToDecimal(FromDigits(s)) == s
  {
    if |s| > 1 {
      var p := s[..|s| - 1];
      var m := FromDigits(p);
      var d := DigitValue(s[|s| - 1]);
      LeadingNonZeroIsPositive(p);
      DecimalOfParse(p);
      var n := FromDigits(s);
      assert n == m * 10 + d;
      assert n / 10 == m && n % 10 == d;
      assert DigitChar(d) == s[|s| - 1];
      assert s == p + [s[|s| - 1]];
    }
  }

  /** Two ids are written alike only if they are equal. */
  lemma DecimalInjective(m: nat, n: nat)
    requires NatToDecimal(m) == NatToDecimal(n)
    ensures m == n
  {
    FromDigitsOfDecimal(m);
    FromDigitsOfDecimal(n);
  }
}
