/**
 * Decimal numerals: JavaScript's `parseInt` restricted to strings of decimal
 * digits, and `Number.prototype.toString` on non-negative integers.  Task
 * forms hold project and user ids as strings and convert them with these two.
 */
module Numerals {

  predicate IsDigit(c: char) {
    '0' <= c <= '9'
  }

  predicate AllDigits(s: string) {
    forall i :: 0 <= i < |s| ==> IsDigit(s[i])
  }

  /** A non-empty string of decimal digits, such as the value of an id option. */
  predicate IsNumeral(s: string) {
    |s| > 0 && AllDigits(s)
  }

  /** The numerals `toString` produces: no leading zero except in "0" itself. */
  predicate IsCanonical(s: string) {
    IsNumeral(s) && (s[0] == '0' ==> |s| == 1)
  }

  function DigitValue(c: char): (d: nat)
    requires IsDigit(c)
    ensures d < 10
  {
    c as int - '0' as int
  }

  function DigitChar(d: nat): (c: char)
    requires d < 10
    ensures IsDigit(c) && DigitValue(c) == d
  {
    ('0' as int + d) as char
  }

  /** The value of a digit string read most significant digit first (0 for ""). */
  function ParseDigits(s: string): nat
    requires AllDigits(s)
    decreases |s|
  {
    if |s| == 0 then 0 else ParseDigits(s[..|s| - 1]) * 10 + DigitValue(s[|s| - 1])
  }

  /** `parseInt(s)` for a decimal numeral. */
  function ParseInt(s: string): nat
    requires IsNumeral(s)
  {
    ParseDigits(s)
  }

  /** `n.toString()`: always canonical, and it starts with '0' only for zero. */
  function NatToString(n: nat): (s: string)
    ensures IsCanonical(s)
    ensures s[0] == '0' <==> n == 0
  {
    if n < 10 then [DigitChar(n)] else NatToString(n / 10) + [DigitChar(n % 10)]
  }

  /** `parseInt(n.toString()) == n` for every non-negative integer. */
  lemma {:induction false} ParseOfToString(n: nat)
    ensures ParseInt(NatToString(n)) == n
  {
    if n >= 10 {
      var p := NatToString(n / 10);
      var s := p + [DigitChar(n % 10)];
      assert s[..|s| - 1] == p;
      ParseOfToString(n / 10);
    } else {
      var s := NatToString(n);
      assert s == [DigitChar(n)] && s[..0] == [];
      assert ParseDigits(s) == ParseDigits([]) * 10 + DigitValue(s[0]);
    }
  }

  /** Distinct numbers print as distinct strings. */
  lemma NatToStringInjective()
    ensures forall m: nat, n: nat :: NatToString(m) == NatToString(n) ==> m == n
  {
    forall m: nat, n: nat | NatToString(m) == NatToString(n)
      ensures m == n
    {
      ParseOfToString(m);
      ParseOfToString(n);
    }
  }

  lemma {:induction false} LeadingNonzeroIsPositive(s: string)
    requires IsNumeral(s) && s[0] != '0'
    ensures ParseDigits(s) > 0
  {
    if |s| > 1 {
      var p := s[..|s| - 1];
      assert p[0] == s[0];
      LeadingNonzeroIsPositive(p);
    } else {
      assert s[..0] == [];
    }
  }

  lemma {:induction false} CanonicalRoundTrip(s: string)
    requires IsCanonical(s)
    ensures NatToString(ParseInt(s)) == s
  {
    if |s| == 1 {
      assert s[..0] == [];
      assert s == [s[0]];
    } else {
      var p := s[..|s| - 1];
      var last := s[|s| - 1];
      assert p[0] == s[0];
      LeadingNonzeroIsPositive(p);
      CanonicalRoundTrip(p);
      var n := ParseInt(s);
      assert n == ParseDigits(p) * 10 + DigitValue(last);
      assert n / 10 == ParseDigits(p) && n % 10 == DigitValue(last);
      assert s == p + [last];
    }
  }

  /**
   * `toString(parseInt(s))` gives back `s` exactly when `s` is canonical:
   * a numeral with a leading zero, such as "007", comes back as "7".
   */
  lemma ToStringOfParse(s: string)
    requires IsNumeral(s)
    ensures NatToString(ParseInt(s)) == s <==> IsCanonical(s)
  {
    if IsCanonical(s) {
      CanonicalRoundTrip(s);
    }
  }
}
