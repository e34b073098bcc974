/** The two string operations the default URL generator relies on:
    JavaScript's `String.prototype.replace` with a string pattern (only the
    first occurrence is replaced) and the conversion of an integral Number
    to its decimal text. */
module Strings {
  import opened Optional

  /** `pat` occurs in `s` starting at index `j`. */
  predicate OccursAt(s: string, pat: string, j: nat) {
    j + |pat| <= |s| && s[j..j + |pat|] == pat
  }

  /** `i` is the leftmost index at which `pat` occurs in `s`. */
  predicate IsFirstOccurrence(s: string, pat: string, i: nat) {
    OccursAt(s, pat, i) && forall j: nat :: j < i ==> !OccursAt(s, pat, j)
  }

  /** The leftmost occurrence of `pat` in `s` at or after `from`. */
  function FindFrom(s: string, pat: string, from: nat): (r: Option<nat>)
    decreases |s| - from
    ensures r.Some? ==> from <= r.value && OccursAt(s, pat, r.value)
    ensures r.Some? ==> forall j: nat :: from <= j < r.value ==> !OccursAt(s, pat, j)
    ensures r.None? ==> forall j: nat :: from <= j ==> !OccursAt(s, pat, j)
  {
    if from + |pat| > |s| then None
    else if s[from..from + |pat|] == pat then Some(from)
    else FindFrom(s, pat, from + 1)
  }

  /** `s.replace(pat, rep)` for a string pattern `pat` and a replacement
      text without `$` patterns: the first occurrence is replaced, every
      other character is kept, and a string without `pat` is returned as
      it is. */
  function ReplaceFirst(s: string, pat: string, rep: string): (r: string)
    ensures (forall j: nat :: !OccursAt(s, pat, j)) ==> r == s
    ensures forall i: nat :: IsFirstOccurrence(s, pat, i) ==>
              r == s[..i] + rep + s[i + |pat|..]
  {
    match FindFrom(s, pat, 0)
    case None => s
    case Some(i) => s[..i] + rep + s[i + |pat|..]
  }

  /** Replacing the first occurrence with two different texts gives two
      different strings: the substituted text can be read back. */
  lemma ReplaceFirstInjective(s: string, pat: string, a: string, b: string, i: nat)
    requires IsFirstOccurrence(s, pat, i)
    requires ReplaceFirst(s, pat, a) == ReplaceFirst(s, pat, b)
    ensures a == b
  {
    var ra, rb := ReplaceFirst(s, pat, a), ReplaceFirst(s, pat, b);
    assert ra == s[..i] + a + s[i + |pat|..];
    assert rb == s[..i] + b + s[i + |pat|..];
    assert |a| == |b|;
    assert a == ra[i..i + |a|];
    assert b == rb[i..i + |b|];
  }

  predicate IsDigit(c: char) {
    '0' <= c <= '9'
  }

  function DigitChar(d: nat): (c: char)
    requires d < 10
    ensures IsDigit(c) && DigitValue(c) == d
  {
    (d + '0' as int) as char
  }

  function DigitValue(c: char): (d: nat)
    requires IsDigit(c)
    ensures d < 10
  {
    c as int - '0' as int
  }

  /** The decimal text of a natural number, most significant digit first. */
  function NatToString(n: nat): (s: string)
    ensures |s| >= 1
    ensures forall k :: 0 <= k < |s| ==> IsDigit(s[k])
    ensures (s[0] == '0') == (n == 0)
    ensures n == 0 ==> s == "0"
  {
    if n < 10 then [DigitChar(n)]
    else NatToString(n / 10) + [DigitChar(n % 10)]
  }

  /** The text JavaScript produces for an integral Number (a leading `-`
      for negative values). */
  function IntToString(i: int): (s: string)
    ensures |s| >= 1
    ensures forall k :: 0 <= k < |s| ==> IsDigit(s[k]) || s[k] == '-'
    ensures (s[0] == '-') == (i < 0)
    ensures i < 0 ==> |s| >= 2 && IsDigit(s[1]) && s[1] != '0'
    ensures i >= 0 ==> (s[0] == '0') == (i == 0)
    ensures i == 0 ==> s == "0"
    ensures Canonical(s)
  {
    if i < 0 then "-" + NatToString(-i) else NatToString(i)
  }

  /** A run of decimal digits without a leading zero (other than "0"
      itself). */
  predicate CanonicalNat(s: string) {
    && |s| >= 1
    && (forall k :: 0 <= k < |s| ==> IsDigit(s[k]))
    && (s[0] == '0' ==> |s| == 1)
  }

  /** The form of an integer's decimal text: canonical digits, with a `-`
      in front only when the digits are not "0". */
  predicate Canonical(s: string) {
    if |s| >= 1 && s[0] == '-' then CanonicalNat(s[1..]) && s[1] != '0'
    else CanonicalNat(s)
  }

  /** Reads a run of decimal digits back as a number. */
  function ParseNat(s: string): nat
    requires forall k :: 0 <= k < |s| ==> IsDigit(s[k])
  {
    if s == [] then 0 else ParseNat(s[..|s| - 1]) * 10 + DigitValue(s[|s| - 1])
  }

  /** Reads an optionally negative decimal number back. */
  function ParseInt(s: string): int
    requires forall k :: 0 <= k < |s| ==> IsDigit(s[k]) || (k == 0 && s[k] == '-')
  {
    if |s| > 0 && s[0] == '-' then var n: int := ParseNat(s[1..]); -n else ParseNat(s)
  }

  lemma {:induction false} NatRoundTrip(n: nat)
    ensures ParseNat(NatToString(n)) == n
  {
    if n >= 10 {
      var s := NatToString(n);
      assert s[..|s| - 1] == NatToString(n / 10);
      NatRoundTrip(n / 10);
    }
  }

  /** The decimal text of an integer reads back as that integer. */
  lemma IntRoundTrip(i: int)
    ensures forall k :: 0 <= k < |IntToString(i)| ==>
              IsDigit(IntToString(i)[k]) || (k == 0 && IntToString(i)[k] == '-')
    ensures ParseInt(IntToString(i)) == i
  {
    var s := IntToString(i);
    if i < 0 {
      assert s[1..] == NatToString(-i);
      NatRoundTrip(-i);
    } else {
      NatRoundTrip(i);
    }
  }

  /** A canonical run of digits is the decimal text of the number it reads
      as: the text of a number is the only canonical text for it. */
  lemma {:induction false} NatCanonicalUnique(s: string)
    requires CanonicalNat(s)
    ensures NatToString(ParseNat(s)) == s
  {
    var d := DigitValue(s[|s| - 1]);
    if |s| == 1 {
      assert ParseNat(s) == d;
      assert DigitChar(d) == s[0];
    } else {
      var p := s[..|s| - 1];
      assert p[0] == s[0];
      NatCanonicalUnique(p);
      var m := ParseNat(p);
      assert m != 0;
      var n := m * 10 + d;
      assert ParseNat(s) == n;
      assert n / 10 == m && n % 10 == d;
      assert DigitChar(d) == s[|s| - 1];
      assert NatToString(n) == p + [s[|s| - 1]];
      assert p + [s[|s| - 1]] == s;
    }
  }

  /** A canonical text is the decimal text of the integer it reads as, so
      `IntToString` produces the one canonical text of each integer. */
  lemma IntCanonicalUnique(s: string)
    requires Canonical(s)
    ensures forall k :: 0 <= k < |s| ==> IsDigit(s[k]) || (k == 0 && s[k] == '-')
    ensures IntToString(ParseInt(s)) == s
  {
    if s[0] == '-' {
      var t := s[1..];
      NatCanonicalUnique(t);
      assert ParseNat(t) != 0;
      assert "-" + t == s;
    } else {
      NatCanonicalUnique(s);
    }
  }

  /** Different integers have different decimal texts. */
  lemma IntToStringInjective(i: int, j: int)
    requires i != j
    ensures IntToString(i) != IntToString(j)
  {
    IntRoundTrip(i);
    IntRoundTrip(j);
  }
}
