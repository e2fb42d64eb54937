/**
 * Decimal text of natural numbers, as .NET prints an `int` in a string
 * interpolation (`{i + 1}`) and as the custom date format pads a field
 * (`yyyy`, `MM`, ...), together with the inverse reading.
 */
module Decimal {

  predicate IsDigit(c: char) {
    '0' <= c <= '9'
  }

  predicate AllDigits(s: string) {
    forall k :: 0 <= k < |s| ==> IsDigit(s[k])
  }

  function DigitChar(d: nat): (c: char)
    requires d < 10
    ensures IsDigit(c)
  {
    ('0' as int + d) as char
  }

  function DigitValue(c: char): (d: nat)
    requires IsDigit(c)
    ensures d < 10
  {
    c as int - '0' as int
  }

  function Pow10(w: nat): (p: nat)
    ensures p >= 1
  {
    if w == 0 then 1 else 10 * Pow10(w - 1)
  }

  /** The shortest decimal text of `n`: digits only, no leading zero. */
  function Show(n: nat): (s: string)
    ensures |s| >= 1 && AllDigits(s)
    ensures |s| > 1 ==> s[0] != '0'
    decreases n
  {
    if n < 10 then [DigitChar(n)] else Show(n / 10) + [DigitChar(n % 10)]
  }

  /** The last `width` decimal digits of `n`, padded on the left with zeros. */
  function ShowPadded(n: nat, width: nat): (s: string)
    ensures |s| == width && AllDigits(s)
  {
    if width == 0 then [] else ShowPadded(n / 10, width - 1) + [DigitChar(n % 10)]
  }

  /** The number a digit string denotes. */
  function ValueOf(s: string): nat
    requires AllDigits(s)
  {
    if s == [] then 0 else 10 * ValueOf(s[..|s| - 1]) + DigitValue(s[|s| - 1])
  }

  lemma {:induction false} ShowRoundTrip(n: nat)
    ensures ValueOf(Show(n)) == n
    decreases n
  {
    var s := Show(n);
    if n >= 10 {
      ShowRoundTrip(n / 10);
      assert s[..|s| - 1] == Show(n / 10);
    }
  }

  lemma {:induction false} ShowPaddedRoundTrip(n: nat, width: nat)
    requires n < Pow10(width)
    ensures ValueOf(ShowPadded(n, width)) == n
  {
    var s := ShowPadded(n, width);
    if width > 0 {
      ShowPaddedRoundTrip(n / 10, width - 1);
      assert s[..|s| - 1] == ShowPadded(n / 10, width - 1);
    }
  }

  lemma ShowInjective(a: nat, b: nat)
    requires Show(a) == Show(b)
    ensures a == b
  {
    ShowRoundTrip(a);
    ShowRoundTrip(b);
  }

  /**
   * A run of digits followed by a non-digit is read back unambiguously:
   * if two such texts are equal, so are their digit runs and their rests.
   */
  lemma DigitRunUnique(d1: string, t1: string, d2: string, t2: string)
    requires AllDigits(d1) && AllDigits(d2)
    requires t1 != [] && !IsDigit(t1[0]) && t2 != [] && !IsDigit(t2[0])
    requires d1 + t1 == d2 + t2
    ensures d1 == d2 && t1 == t2
  {
    assert d1 == (d1 + t1)[..|d1|];
    assert d2 == (d2 + t2)[..|d2|];
    assert t1 == (d1 + t1)[|d1|..];
    assert t2 == (d2 + t2)[|d2|..];
  }
}
