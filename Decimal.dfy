/** The rendering of a 64-bit count by `Int64.ToString()`: an optional minus
    sign followed by decimal digits without leading zeros, together with an
    independent parser that reads such a text back. The sign is always the
    ASCII `-`, which is what the invariant culture and most cultures use. */
module Decimal {
  import opened Outcomes

  predicate IsDigit(c: char) { '0' <= c <= '9' }

  function DigitChar(d: nat): char
    requires d < 10
  {
    (('0' as int) + d) as char
  }

  function DigitValue(c: char): nat
    requires IsDigit(c)
  {
    (c as int) - ('0' as int)
  }

  /** The decimal digits of `n`, most significant first. */
  function NaturalText(n: nat): (s: string)
    ensures |s| >= 1
    ensures forall i :: 0 <= i < |s| ==> IsDigit(s[i])
    ensures s[0] == '0' ==> n == 0
    decreases n
  {
    if n < 10 then [DigitChar(n)] else NaturalText(n / 10) + [DigitChar(n % 10)]
  }

  /** What `ToString()` yields for a count returned by a query handler. */
  function IntText(n: int): (s: string)
    ensures |s| >= 1
    ensures (s[0] == '-') <==> n < 0
  {
    if n < 0 then "-" + NaturalText(-n) else NaturalText(n)
  }

  /** Reads a non-empty string of decimal digits; anything else is rejected. */
  function ParseNatural(s: string): (r: Option<nat>)
    ensures r.Some? ==> |s| >= 1 && forall i :: 0 <= i < |s| ==> IsDigit(s[i])
    decreases |s|
  {
    if |s| == 0 || !IsDigit(s[|s| - 1]) then None
    else if |s| == 1 then Some(DigitValue(s[0]))
    else match ParseNatural(s[..|s| - 1])
      case None => None
      case Some(m) => Some(m * 10 + DigitValue(s[|s| - 1]))
  }

  /** Reads an optionally signed decimal number. */
  function ParseInt(s: string): (r: Option<int>)
    ensures r.Some? ==> |s| >= 1
  {
    if |s| >= 1 && s[0] == '-' then
      match ParseNatural(s[1..])
      case None => None
      case Some(m) => Some(0 - m as int)
    else
      match ParseNatural(s)
      case None => None
      case Some(m) => Some(m)
  }

  lemma {:induction false} ParseNaturalText(n: nat)
    ensures ParseNatural(NaturalText(n)) == Some(n)
    decreases n
  {
    if n >= 10 {
      var s := NaturalText(n);
      assert s[..|s| - 1] == NaturalText(n / 10);
      ParseNaturalText(n / 10);
    }
  }

  /** Every rendered count reads back as itself, so distinct counts render as
      distinct texts. */
  lemma ParseIntText(n: int)
    ensures ParseInt(IntText(n)) == Some(n)
  {
    if n < 0 {
      var digits := NaturalText(-n);
      var s := "-" + digits;
      assert s == IntText(n);
      assert s[0] == '-' && s[1..] == digits;
      ParseNaturalText(-n);
    } else {
      var digits := NaturalText(n);
      assert IsDigit(digits[0]);
      ParseNaturalText(n);
    }
  }

  lemma IntTextInjective(m: int, n: int)
    ensures IntText(m) == IntText(n) <==> m == n
  {
    ParseIntText(m);
    ParseIntText(n);
  }

  /** A text whose first character is a letter is not a rendered count. */
  lemma LetterIsNotCount(s: string)
    requires |s| >= 1 && ('A' <= s[0] <= 'Z' || 'a' <= s[0] <= 'z')
    ensures ParseInt(s) == None
    ensures forall n :: IntText(n) != s
  {
  }
}
