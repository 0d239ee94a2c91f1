/** `strconv.FormatInt(i, 10)` from the Go standard library, and the decimal parsing that
    undoes it. */
module Strconv {
  import opened GoTypes

  predicate IsDigit(c: char) {
    '0' <= c <= '9'
  }

  function DigitValue(c: char): int
    requires IsDigit(c)
  {
    c as int - '0' as int
  }

  function DigitChar(d: int): (c: char)
    requires 0 <= d < 10
    ensures IsDigit(c) && DigitValue(c) == d
  {
    ('0' as int + d) as char
  }

  predicate AllDigits(s: string) {
    forall i :: 0 <= i < |s| ==> IsDigit(s[i])
  }

  /** A decimal numeral without sign or leading zeros ("0" itself is allowed). */
  predicate IsCanonicalNat(s: string) {
    |s| >= 1 && AllDigits(s) && (s[0] == '0' ==> |s| == 1)
  }

  /** A decimal numeral as `FormatInt` writes it: an optional `-`, then digits without
      leading zeros, and never "-0". */
  predicate IsCanonicalInt(s: string) {
    IsCanonicalNat(s) || (|s| >= 2 && s[0] == '-' && IsCanonicalNat(s[1..]) && s[1..] != "0")
  }

  /** The digits of `n`, most significant first. */
  function FormatNat(n: nat): (s: string)
    ensures IsCanonicalNat(s)
    ensures s[0] == '0' <==> n == 0
    decreases n
  {
    if n < 10 then [DigitChar(n)] else FormatNat(n / 10) + [DigitChar(n % 10)]
  }

  /** The value of a string of decimal digits. */
  function ParseNat(s: string): nat
    requires AllDigits(s)
    decreases |s|
  {
    if s == [] then 0 else ParseNat(s[..|s| - 1]) * 10 + DigitValue(s[|s| - 1])
  }

  function ParseInt(s: string): int
    requires IsCanonicalInt(s)
  {
    if s[0] == '-' then -(ParseNat(s[1..]) as int) else ParseNat(s)
  }

  lemma {:induction false} ParseFormatNat(n: nat)
    ensures ParseNat(FormatNat(n)) == n
    decreases n
  {
    if n >= 10 {
      var s := FormatNat(n);
      assert s[..|s| - 1] == FormatNat(n / 10);
      ParseFormatNat(n / 10);
    }
  }

  /** A numeral without leading zeros that is not "0" denotes a positive number. */
  lemma {:induction false} ParsePositive(s: string)
    requires IsCanonicalNat(s) && s[0] != '0'
    ensures ParseNat(s) >= 1
    decreases |s|
  {
    if |s| > 1 {
      ParsePositive(s[..|s| - 1]);
    }
  }

  lemma {:induction false} FormatParseNat(s: string)
    requires IsCanonicalNat(s)
    ensures FormatNat(ParseNat(s)) == s
    decreases |s|
  {
    if |s| > 1 {
      var init := s[..|s| - 1];
      assert IsCanonicalNat(init) && init[0] != '0';
      ParsePositive(init);
      FormatParseNat(init);
      var n := ParseNat(s);
      assert n / 10 == ParseNat(init) && n % 10 == DigitValue(s[|s| - 1]);
      assert DigitChar(DigitValue(s[|s| - 1])) == s[|s| - 1];
      assert s == init + [s[|s| - 1]];
    }
  }

  /** `strconv.FormatInt(i, 10)`: the canonical decimal numeral of `i`, from which
      `ParseInt` recovers `i`. */
  function FormatInt(i: Int64): (s: string)
    ensures IsCanonicalInt(s)
    ensures ParseInt(s) == i
  {
    if i < 0 then
      var n: nat := -(i as int);
      ParseFormatNat(n);
      var s := "-" + FormatNat(n);
      assert s[1..] == FormatNat(n);
      s
    else
      ParseFormatNat(i);
      FormatNat(i)
  }

  /** Every canonical numeral in the `int64` range is what `FormatInt` writes for its
      value: `FormatInt` is a bijection onto those numerals. */
  lemma FormatParseInt(s: string)
    requires IsCanonicalInt(s)
    requires MinInt64 <= ParseInt(s) <= MaxInt64
    ensures FormatInt(ParseInt(s)) == s
  {
    if s[0] == '-' {
      FormatParseNat(s[1..]);
      ParsePositive(s[1..]);
      assert s == "-" + s[1..];
    } else {
      FormatParseNat(s);
    }
  }
}
