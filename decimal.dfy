/** Python's `str(n)` for an `int`: base-10 digits, no leading zeros, a
    leading `-` for negative values. */
module Decimal {

  predicate IsDigit(c: char) {
    '0' <= c <= '9'
  }

  predicate AllDigits(s: string) {
    forall k :: 0 <= k < |s| ==> IsDigit(s[k])
  }

  /** A digit string in canonical form: non-empty, no superfluous leading zero. */
  predicate IsCanonicalDigits(s: string) {
    |s| >= 1 && AllDigits(s) && (s[0] == '0' ==> |s| == 1)
  }

  /** The form `str(n)` produces: an optional `-` and canonical digits,
      with no `-0`. */
  predicate IsDecimalLiteral(s: string) {
    if |s| >= 1 && s[0] == '-' then IsCanonicalDigits(s[1..]) && s[1..] != "0"
    else IsCanonicalDigits(s)
  }

  function DigitChar(d: nat): (c: char)
    requires d < 10
    ensures IsDigit(c)
  {
    ('0' as int + d) as char
  }

  function DigitValue(c: char): (d: nat)
    requires IsDigit(c)
    ensures d < 10
  {
    c as int - '0' as int
  }

  /** The base-10 digits of a natural number, most significant first. */
  function NatToDigits(n: nat): (s: string)
    ensures IsCanonicalDigits(s)
    ensures s == "0" <==> n == 0
    decreases n
  {
    if n < 10 then [DigitChar(n)] else NatToDigits(n / 10) + [DigitChar(n % 10)]
  }

  /** `str(n)`. CPython refuses integers of more than 4300 digits by
      default; this function has no such limit. */
  function IntToString(n: int): (s: string)
    ensures IsDecimalLiteral(s)
    ensures '\n' !in s
  {
    if n < 0 then "-" + NatToDigits(-n) else NatToDigits(n)
  }

  /** Reads a digit string back as a number. */
  function DigitsToNat(s: string): nat
    requires AllDigits(s)
  {
    if s == [] then 0 else DigitsToNat(s[..|s| - 1]) * 10 + DigitValue(s[|s| - 1])
  }

  /** Reads an optionally negative decimal literal back as an `int`. */
  function ParseInt(s: string): int
    requires IsDecimalLiteral(s)
  {
    if |s| >= 1 && s[0] == '-' then -(DigitsToNat(s[1..]) as int) else DigitsToNat(s)
  }

  lemma {:induction false} DigitsRoundTrip(n: nat)
    ensures DigitsToNat(NatToDigits(n)) == n
    decreases n
  {
    var s := NatToDigits(n);
    if n >= 10 {
      DigitsRoundTrip(n / 10);
      assert s[..|s| - 1] == NatToDigits(n / 10);
    }
  }

  /** `int(str(n)) == n` */
  lemma ParseIntToString(n: int)
    ensures ParseInt(IntToString(n)) == n
  {
    if n < 0 {
      var digits := NatToDigits(-n);
      DigitsRoundTrip(-n);
      assert ("-" + digits)[1..] == digits;
      assert ("-" + digits)[0] == '-';
    } else {
      DigitsRoundTrip(n);
    }
  }

  lemma {:induction false} DigitsToNatRoundTrip(s: string)
    requires IsCanonicalDigits(s)
    ensures NatToDigits(DigitsToNat(s)) == s
    decreases |s|
  {
    var n := DigitsToNat(s);
    var init := s[..|s| - 1];
    var d := DigitValue(s[|s| - 1]);
    if |s| == 1 {
      assert init == [];
      assert n == d;
      assert [DigitChar(d)] == s;
    } else {
      assert init[0] == s[0];
      DigitsToNatRoundTrip(init);
      var m := DigitsToNat(init);
      assert m != 0;
      assert n / 10 == m && n % 10 == d;
      assert DigitChar(d) == s[|s| - 1];
      assert s == init + [s[|s| - 1]];
    }
  }

  /** `str(int(s)) == s` for every literal of the form `str` produces. */
  lemma StringToIntRoundTrip(s: string)
    requires IsDecimalLiteral(s)
    ensures IntToString(ParseInt(s)) == s
  {
    if |s| >= 1 && s[0] == '-' {
      DigitsToNatRoundTrip(s[1..]);
      assert s == "-" + s[1..];
    } else {
      DigitsToNatRoundTrip(s);
    }
  }

  lemma IntToStringInjective(a: int, b: int)
    requires IntToString(a) == IntToString(b)
    ensures a == b
  {
    ParseIntToString(a);
    ParseIntToString(b);
  }
}
