/**
 * The two Python string operations the loan encoder relies on:
 * `int(s)` on a decimal numeral and the substring test `pat in s`.
 */
module Strings {

  predicate IsDigit(c: char) {
    '0' <= c <= '9'
  }

  /** Every character of `s` is an ASCII decimal digit (vacuously true of ""). */
  predicate AllDigits(s: string) {
    forall i :: 0 <= i < |s| ==> IsDigit(s[i])
  }

  /**
   * A string that `int()` accepts in this model: a non-empty run of digits.
   * Leading zeros are allowed, as they are in Python.
   */
  predicate IsNumeral(s: string) {
    |s| > 0 && AllDigits(s)
  }

  /** A numeral written without superfluous leading zeros ("0", "7", "42", not "07"). */
  predicate IsCanonical(s: string) {
    IsNumeral(s) && (|s| == 1 || s[0] != '0')
  }

  function DigitValue(c: char): (d: nat)
    requires IsDigit(c)
    ensures d < 10
  {
    (c as int - '0' as int) as nat
  }

  function DigitChar(d: nat): (c: char)
    requires d < 10
    ensures IsDigit(c) && DigitValue(c) == d
  {
    ('0' as int + d) as char
  }

  function Pow10(k: nat): (p: nat)
    ensures p >= 1
  {
    if k == 0 then 1 else 10 * Pow10(k - 1)
  }

  /**
   * The value of a digit string read in base 10, most significant digit
   * first, as `int()` reads it; the empty string reads as 0.
   */
  function ValueOf(s: string): (n: nat)
    requires AllDigits(s)
    ensures n < Pow10(|s|)
  {
    if |s| == 0 then 0 else 10 * ValueOf(s[..|s| - 1]) + DigitValue(s[|s| - 1])
  }

  /** The canonical decimal rendering of `n`: the inverse of `ValueOf`. */
  function ShowNat(n: nat): (s: string)
    ensures IsCanonical(s)
    ensures n > 0 ==> s[0] != '0'
  {
    if n < 10 then [DigitChar(n)] else ShowNat(n / 10) + [DigitChar(n % 10)]
  }

  /** Reading the rendering of `n` gives `n` back. */
  lemma {:induction false} ValueOfShowNat(n: nat)
    ensures ValueOf(ShowNat(n)) == n
  {
    if n >= 10 {
      var s := ShowNat(n);
      var p := ShowNat(n / 10);
      assert s[..|s| - 1] == p;
      ValueOfShowNat(n / 10);
    }
  }

  /** A numeral whose first digit is not 0 has a positive value. */
  lemma {:induction false} NonZeroLeadPositive(s: string)
    requires IsNumeral(s) && s[0] != '0'
    ensures ValueOf(s) > 0
  {
    if |s| > 1 {
      NonZeroLeadPositive(s[..|s| - 1]);
    }
  }

  /** Rendering the value of a canonical numeral gives the numeral back. */
  lemma {:induction false} ShowNatValueOf(s: string)
    requires IsCanonical(s)
    ensures ShowNat(ValueOf(s)) == s
  {
    if |s| > 1 {
      var p := s[..|s| - 1];
      var d := DigitValue(s[|s| - 1]);
      NonZeroLeadPositive(p);
      ShowNatValueOf(p);
      var v := ValueOf(s);
      assert v == 10 * ValueOf(p) + d;
      assert v / 10 == ValueOf(p) && v % 10 == d;
      assert DigitChar(d) == s[|s| - 1];
      assert s == p + [s[|s| - 1]];
    } else {
      assert DigitChar(DigitValue(s[0])) == s[0];
    }
  }

  /** Leading zeros do not change the value: int("01") == int("1"). */
  lemma {:induction false} LeadingZeroIgnored(s: string)
    requires AllDigits(s)
    ensures AllDigits("0" + s) && ValueOf("0" + s) == ValueOf(s)
  {
    var z := "0" + s;
    assert forall i :: 0 <= i < |z| ==> IsDigit(z[i]) by {
      forall i | 0 <= i < |z| ensures IsDigit(z[i]) {
        if i > 0 { assert z[i] == s[i - 1]; }
      }
    }
    if |s| > 0 {
      var p := s[..|s| - 1];
      LeadingZeroIgnored(p);
      assert z[..|z| - 1] == "0" + p;
      assert z[|z| - 1] == s[|s| - 1];
    }
  }

  /** Distinct canonical numerals have distinct values. */
  lemma CanonicalInjective(a: string, b: string)
    requires IsCanonical(a) && IsCanonical(b)
    requires ValueOf(a) == ValueOf(b)
    ensures a == b
  {
    ShowNatValueOf(a);
    ShowNatValueOf(b);
  }

  /** `pat` occurs in `s` starting at index `i`. */
  predicate OccursAt(s: string, pat: string, i: int) {
    0 <= i && i + |pat| <= |s| && s[i..i + |pat|] == pat
  }

  /**
   * Past a non-match at index 0, `pat` occurs in `s` exactly when it occurs
   * in `s` without its first character.
   */
  lemma OccursAfterFirst(s: string, pat: string)
    requires |s| > 0 && !OccursAt(s, pat, 0)
    ensures (exists i :: OccursAt(s, pat, i)) <==> (exists j :: OccursAt(s[1..], pat, j))
  {
    var t := s[1..];
    forall i | OccursAt(s, pat, i) ensures OccursAt(t, pat, i - 1) {
      assert t[i - 1..i - 1 + |pat|] == s[i..i + |pat|];
    }
    if j :| OccursAt(t, pat, j) {
      assert s[j + 1..j + 1 + |pat|] == t[j..j + |pat|];
      assert OccursAt(s, pat, j + 1);
    }
  }

  /**
   * Python's `pat in s` for strings: a left-to-right search for `pat`,
   * which succeeds exactly when `pat` occurs somewhere in `s`.
   */
  function Contains(s: string, pat: string): (b: bool)
    ensures b <==> exists i :: OccursAt(s, pat, i)
    decreases |s|
  {
    if |s| < |pat| then false
    else if s[..|pat|] == pat then
      assert OccursAt(s, pat, 0);
      true
    else
      OccursAfterFirst(s, pat);
      Contains(s[1..], pat)
  }
}
