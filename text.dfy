/**
 * Character and string operations the three query interpreters rely on:
 * Python's `str.lower()` / `str.strip()` and JavaScript's `toLowerCase()`,
 * the regex classes `\d`, `\s` and `\w`, the `in` / `includes` substring test,
 * `str(n)` / `int(s)` on decimal digits, and the "first year mentioned" scan
 * that both Python interpreters perform with a `for ... break` loop.
 *
 * Character classes and case mapping are exact on Latin-1 (U+0000..U+00FF),
 * which covers Spanish text; other code points are left unchanged.
 */
module Text {
  import opened Wrappers

  /** `str.isspace()` and the regex class `\s` on Latin-1. */
  predicate IsSpace(c: char) {
    var k := c as int;
    k == 0x20 || 0x09 <= k <= 0x0D || 0x1C <= k <= 0x1F || k == 0x85 || k == 0xA0
  }

  /** The regex class `\d` on Latin-1 (only the ASCII digits are decimal there). */
  predicate IsDigit(c: char) {
    '0' <= c <= '9'
  }

  /** The regex class `\w` (alphanumerics and `_`) on Latin-1. */
  predicate IsWordChar(c: char) {
    var k := c as int;
    || 'a' <= c <= 'z' || 'A' <= c <= 'Z' || IsDigit(c) || c == '_'
    || k == 0xAA || k == 0xB2 || k == 0xB3 || k == 0xB5 || k == 0xB9 || k == 0xBA
    || 0xBC <= k <= 0xBE
    || (0xC0 <= k <= 0xFF && k != 0xD7 && k != 0xF7)
  }

  /** Lower-case mapping of one Latin-1 character (A-Z and À-Þ except ×). */
  function LowerChar(c: char): char {
    var k := c as int;
    if 'A' <= c <= 'Z' || (0xC0 <= k <= 0xDE && k != 0xD7) then (k + 32) as char else c
  }

  function Lower(s: string): string {
    seq(|s|, i requires 0 <= i < |s| => LowerChar(s[i]))
  }

  predicate IsLowered(s: string) {
    forall i :: 0 <= i < |s| ==> LowerChar(s[i]) == s[i]
  }

  lemma LowerIsLowered(s: string)
    ensures IsLowered(Lower(s))
  {
    forall i | 0 <= i < |s| ensures LowerChar(Lower(s)[i]) == Lower(s)[i] {
      var k := s[i] as int;
      if 'A' <= s[i] <= 'Z' {
        assert 'a' <= Lower(s)[i] <= 'z';
      } else if 0xC0 <= k <= 0xDE && k != 0xD7 {
        assert 0xE0 <= Lower(s)[i] as int <= 0xFE;
      }
    }
  }

  lemma {:induction false} LowerFixesLowered(s: string)
    requires IsLowered(s)
    ensures Lower(s) == s
  {
    assert forall i :: 0 <= i < |s| ==> Lower(s)[i] == s[i];
  }

  /** Drops leading white space; the result is a suffix of the input and only white space was dropped. */
  function TrimStart(s: string): (r: string)
    ensures |r| <= |s| && r == s[|s| - |r|..]
    ensures forall i :: 0 <= i < |s| - |r| ==> IsSpace(s[i])
    ensures r == [] || !IsSpace(r[0])
  {
    if |s| > 0 && IsSpace(s[0]) then TrimStart(s[1..]) else s
  }

  /** Drops trailing white space; the result is a prefix of the input and only white space was dropped. */
  function TrimEnd(s: string): (r: string)
    ensures |r| <= |s| && r == s[..|r|]
    ensures forall i :: |r| <= i < |s| ==> IsSpace(s[i])
    ensures r == [] || !IsSpace(r[|r| - 1])
  {
    if |s| > 0 && IsSpace(s[|s| - 1]) then TrimEnd(s[..|s| - 1]) else s
  }

  /** `r` is `s[a..b]`, and everything of `s` before `a` and from `b` on is white space. */
  predicate SpaceAround(s: string, r: string, a: int, b: int) {
    && 0 <= a <= b <= |s| && r == s[a..b]
    && (forall i :: 0 <= i < a ==> IsSpace(s[i]))
    && (forall i :: b <= i < |s| ==> IsSpace(s[i]))
  }

  /** `str.strip()`: a slice of the input with only white space around it and none at either end. */
  function Strip(s: string): (r: string)
    ensures |r| <= |s|
    ensures exists a, b :: SpaceAround(s, r, a, b)
    ensures r == [] || (!IsSpace(r[0]) && !IsSpace(r[|r| - 1]))
  {
    var t := TrimStart(s);
    PrefixOfSuffixIsSlice(s, t, TrimEnd(t));
    TrimEnd(t)
  }

  /** A prefix `r` of a suffix `t` of `s`, each cut only at white space, is a slice with white space around it. */
  lemma PrefixOfSuffixIsSlice(s: string, t: string, r: string)
    requires |t| <= |s| && t == s[|s| - |t|..] && forall i :: 0 <= i < |s| - |t| ==> IsSpace(s[i])
    requires |r| <= |t| && r == t[..|r|] && forall i :: |r| <= i < |t| ==> IsSpace(t[i])
    ensures SpaceAround(s, r, |s| - |t|, |s| - |t| + |r|)
  {
    var a := |s| - |t|;
    var b := a + |r|;
    assert s[a..b] == s[a..][..|r|];
    forall i | b <= i < |s| ensures IsSpace(s[i]) {
      assert s[i] == t[i - a];
    }
  }

  lemma StripKeepsLowered(s: string)
    requires IsLowered(s)
    ensures IsLowered(Strip(s))
  {
    var a := TrimStart(s);
    assert IsLowered(a) by {
      forall i | 0 <= i < |a| ensures LowerChar(a[i]) == a[i] {
        assert a[i] == s[|s| - |a| + i];
      }
    }
  }

  /** `text.lower().strip()`, the normalisation every parse starts with. */
  function Normalize(s: string): string {
    Strip(Lower(s))
  }

  /** Normalising twice is normalising once. */
  lemma NormalizeIdempotent(s: string)
    ensures Normalize(Normalize(s)) == Normalize(s)
  {
    var t := Normalize(s);
    LowerIsLowered(s);
    StripKeepsLowered(Lower(s));
    LowerFixesLowered(t);
    assert TrimStart(t) == t;
    assert TrimEnd(t) == t;
  }

  /** `w` occurs in `s` starting at index `i`. */
  predicate OccursAt(s: string, w: string, i: int) {
    0 <= i && i + |w| <= |s| && s[i..i + |w|] == w
  }

  /** Python's `w in s` and JavaScript's `s.includes(w)`. */
  predicate Contains(s: string, w: string) {
    exists i :: 0 <= i <= |s| - |w| && OccursAt(s, w, i)
  }

  /** `any(word in s for word in words)`. */
  predicate ContainsAny(s: string, words: seq<string>) {
    exists k :: 0 <= k < |words| && Contains(s, words[k])
  }

  /** A word with a character that `s` lacks does not occur in `s`. */
  lemma NotContainsMissingChar(s: string, w: string, k: nat)
    requires k < |w| && w[k] !in s
    ensures !Contains(s, w)
  {
  }

  /** Every piece of an occurring word occurs too. */
  lemma ContainsSlice(s: string, w: string, a: nat, b: nat)
    requires a <= b <= |w| && Contains(s, w)
    ensures Contains(s, w[a..b])
  {
    var i :| 0 <= i <= |s| - |w| && OccursAt(s, w, i);
    assert forall k :: 0 <= k < b - a ==> s[i + a..i + b][k] == s[i..i + |w|][a + k] == w[a..b][k];
    assert OccursAt(s, w[a..b], i + a);
  }

  function DigitValue(c: char): nat
    requires IsDigit(c)
  {
    c as int - '0' as int
  }

  predicate AllDigits(s: string) {
    forall i :: 0 <= i < |s| ==> IsDigit(s[i])
  }

  /** `int(s)` on a string of ASCII digits (leading zeros allowed). */
  function DigitsValue(s: string): nat
    requires AllDigits(s)
  {
    if s == [] then 0 else DigitsValue(s[..|s| - 1]) * 10 + DigitValue(s[|s| - 1])
  }

  function DigitChar(d: nat): (c: char)
    requires d < 10
    ensures IsDigit(c) && DigitValue(c) == d
  {
    ('0' as int + d) as char
  }

  /** `str(n)` for a non-negative integer: non-empty, all digits. */
  function NatToDecimal(n: nat): (r: string)
    ensures |r| > 0 && AllDigits(r)
  {
    if n < 10 then [DigitChar(n)] else NatToDecimal(n / 10) + [DigitChar(n % 10)]
  }

  /** `int(str(n)) == n`. */
  lemma {:induction false} DecimalRoundTrip(n: nat)
    ensures DigitsValue(NatToDecimal(n)) == n
  {
    var r := NatToDecimal(n);
    if n >= 10 {
      DecimalRoundTrip(n / 10);
      assert r[..|r| - 1] == NatToDecimal(n / 10);
    }
  }

  /** `str(n)` has no leading zero: it starts with '0' only when it is "0". */
  lemma {:induction false} DecimalNoLeadingZero(n: nat)
    ensures NatToDecimal(n)[0] == '0' ==> n == 0 && |NatToDecimal(n)| == 1
  {
    if n >= 10 {
      DecimalNoLeadingZero(n / 10);
      assert NatToDecimal(n)[0] == NatToDecimal(n / 10)[0];
    }
  }

  /** Distinct numbers print differently. */
  lemma DecimalInjective(m: nat, n: nat)
    requires NatToDecimal(m) == NatToDecimal(n)
    ensures m == n
  {
    DecimalRoundTrip(m);
    DecimalRoundTrip(n);
  }

  /**
   * `for year in range(lo, hi): if str(year) in t: ... break`: the smallest
   * year in [lo, hi) whose decimal form occurs in `t`, if any.
   */
  function FirstYearMentioned(t: string, lo: nat, hi: int): (r: Option<nat>)
    decreases hi - lo
    ensures r.Some? ==> lo <= r.value < hi && Contains(t, NatToDecimal(r.value))
    ensures forall y: nat :: lo <= y < hi && (r.None? || y < r.value) ==> !Contains(t, NatToDecimal(y))
  {
    if lo >= hi then None
    else if Contains(t, NatToDecimal(lo)) then Some(lo)
    else FirstYearMentioned(t, lo + 1, hi)
  }
}
