/**
 * String helpers shared by the model: Python's `str.strip()`, the Unicode
 * trim that the request validator applies to `strip_whitespace` fields, ASCII
 * case folding, character classes and the code-point order used for ORDER BY.
 */
module Text {

  /** Python's `str.isspace()` for one character (the set `str.strip()` removes). */
  predicate IsSpace(c: char) {
    || ('\t' <= c <= '\r')
    || ('\U{001C}' <= c <= '\U{001F}')
    || c == ' ' || c == '\U{0085}' || c == '\U{00A0}' || c == '\U{1680}'
    || ('\U{2000}' <= c <= '\U{200A}')
    || c == '\U{2028}' || c == '\U{2029}' || c == '\U{202F}' || c == '\U{205F}' || c == '\U{3000}'
  }

  /** The Unicode White_Space property: what the request validator trims. */
  predicate IsWhiteSpace(c: char) {
    || ('\t' <= c <= '\r')
    || c == ' ' || c == '\U{0085}' || c == '\U{00A0}' || c == '\U{1680}'
    || ('\U{2000}' <= c <= '\U{200A}')
    || c == '\U{2028}' || c == '\U{2029}' || c == '\U{202F}' || c == '\U{205F}' || c == '\U{3000}'
  }

  /** The number of leading characters of `s` satisfying `ws`. */
  function LeadingCount(s: string, ws: char -> bool): (n: nat)
    ensures n <= |s|
    ensures forall i :: 0 <= i < n ==> ws(s[i])
    ensures n < |s| ==> !ws(s[n])
  {
    if |s| > 0 && ws(s[0]) then 1 + LeadingCount(s[1..], ws) else 0
  }

  /** The number of trailing characters of `s` satisfying `ws`. */
  function TrailingCount(s: string, ws: char -> bool): (n: nat)
    ensures n <= |s|
    ensures forall i :: |s| - n <= i < |s| ==> ws(s[i])
    ensures n < |s| ==> !ws(s[|s| - n - 1])
  {
    if |s| > 0 && ws(s[|s| - 1]) then 1 + TrailingCount(s[..|s| - 1], ws) else 0
  }

  /** Removes every leading and trailing character satisfying `ws`. */
  function StripBy(s: string, ws: char -> bool): (r: string)
    ensures |r| <= |s|
    ensures |r| > 0 ==> !ws(r[0]) && !ws(r[|r| - 1])
  {
    var t := s[LeadingCount(s, ws)..];
    t[..|t| - TrailingCount(t, ws)]
  }

  /**
   * What stripping means: the result is a slice of `s`, everything cut off on
   * either side satisfies `ws`, and the result neither starts nor ends with
   * such a character.
   */
  lemma StripBySlice(s: string, ws: char -> bool)
    ensures exists i, j :: (0 <= i <= j <= |s| && StripBy(s, ws) == s[i..j]
                              && (forall k :: 0 <= k < i ==> ws(s[k]))
                              && (forall k :: j <= k < |s| ==> ws(s[k])))
    ensures |StripBy(s, ws)| > 0 ==> !ws(StripBy(s, ws)[0]) && !ws(StripBy(s, ws)[|StripBy(s, ws)| - 1])
  {
    var a := LeadingCount(s, ws);
    var t := s[a..];
    var b := TrailingCount(t, ws);
    assert StripBy(s, ws) == s[a..|s| - b];
    assert forall k :: |s| - b <= k < |s| ==> s[k] == t[k - a];
  }

  /** Python's `s.strip()`. */
  function Strip(s: string): string { StripBy(s, IsSpace) }

  /** The validator's `strip_whitespace`. */
  function Trim(s: string): string { StripBy(s, IsWhiteSpace) }

  /** Stripping a string that has nothing removable at its ends leaves it unchanged. */
  lemma StripByNoop(s: string, ws: char -> bool)
    requires |s| > 0 ==> !ws(s[0]) && !ws(s[|s| - 1])
    ensures StripBy(s, ws) == s
  {
    assert LeadingCount(s, ws) == 0;
    assert TrailingCount(s, ws) == 0;
  }

  /** Stripping is idempotent. */
  lemma StripByIdempotent(s: string, ws: char -> bool)
    ensures StripBy(StripBy(s, ws), ws) == StripBy(s, ws)
  {
    StripByNoop(StripBy(s, ws), ws);
  }

  /** Stripping leaves the empty string exactly when every character is removable. */
  lemma StripByEmpty(s: string, ws: char -> bool)
    ensures StripBy(s, ws) == "" <==> forall i :: 0 <= i < |s| ==> ws(s[i])
  {
    var a := LeadingCount(s, ws);
    if a < |s| {
      var t := s[a..];
      assert !ws(t[0]);
      assert TrailingCount(t, ws) < |t|;
    }
  }

  predicate IsAsciiUpper(c: char) { 'A' <= c <= 'Z' }
  predicate IsAsciiLower(c: char) { 'a' <= c <= 'z' }
  predicate IsAsciiDigit(c: char) { '0' <= c <= '9' }

  predicate IsHexDigit(c: char) {
    IsAsciiDigit(c) || ('a' <= c <= 'f') || ('A' <= c <= 'F')
  }

  function LowerChar(c: char): (d: char)
    ensures !IsAsciiUpper(d)
    ensures IsAsciiUpper(c) ==> IsAsciiLower(d)
    ensures !IsAsciiUpper(c) ==> d == c
  {
    if IsAsciiUpper(c) then (c as int - 'A' as int + 'a' as int) as char else c
  }

  /** `s.lower()`, restricted to ASCII letters. */
  function Lower(s: string): (r: string)
    ensures |r| == |s|
    ensures forall i :: 0 <= i < |s| ==> r[i] == LowerChar(s[i])
  {
    seq(|s|, i requires 0 <= i < |s| => LowerChar(s[i]))
  }

  /** A string with no upper-case ASCII letter is its own lower-case form. */
  lemma LowerNoop(s: string)
    requires forall i :: 0 <= i < |s| ==> !IsAsciiUpper(s[i])
    ensures Lower(s) == s
  {
  }

  /** Lower-casing is idempotent. */
  lemma LowerIdempotent(s: string)
    ensures Lower(Lower(s)) == Lower(s)
  {
    LowerNoop(Lower(s));
  }

  function DigitValue(c: char): (n: nat)
    requires IsAsciiDigit(c)
    ensures n < 10
  {
    c as int - '0' as int
  }

  function DigitChar(n: nat): (c: char)
    requires n < 10
    ensures IsAsciiDigit(c) && DigitValue(c) == n
  {
    ('0' as int + n) as char
  }

  /** Every character of `s` is an ASCII digit. */
  predicate AllDigits(s: string) {
    forall i :: 0 <= i < |s| ==> IsAsciiDigit(s[i])
  }

  /**
   * `t` occurs in `s` as a contiguous run starting at `i`.
   */
  predicate OccursAt(s: string, t: string, i: nat) {
    i + |t| <= |s| && s[i..i + |t|] == t
  }

  /**
   * Python's `s.replace(pat, "")`: occurrences are found left to right and do
   * not overlap.
   */
  function RemoveAll(s: string, pat: string): (r: string)
    requires |pat| > 0
    ensures |r| <= |s|
    decreases |s|
  {
    if |s| == 0 then ""
    else if |pat| <= |s| && s[..|pat|] == pat then RemoveAll(s[|pat|..], pat)
    else [s[0]] + RemoveAll(s[1..], pat)
  }

  /** A string that does not contain the first character of `pat` loses nothing. */
  lemma {:induction false} RemoveAllAbsent(s: string, pat: string)
    requires |pat| > 0
    requires forall i :: 0 <= i < |s| ==> s[i] != pat[0]
    ensures RemoveAll(s, pat) == s
    decreases |s|
  {
    if |s| > 0 {
      assert s[0] != pat[0];
      assert !(|pat| <= |s| && s[..|pat|] == pat);
      RemoveAllAbsent(s[1..], pat);
    }
  }

  /** Removing a one-character pattern keeps exactly the other characters, in order. */
  lemma {:induction false} RemoveAllChar(s: string, c: char)
    ensures RemoveAll(s, [c]) == Without(s, c)
    decreases |s|
  {
    if |s| > 0 {
      RemoveAllChar(s[1..], c);
    }
  }

  /** The characters of `s` other than `c`, in order. */
  function Without(s: string, c: char): (r: string)
    ensures forall i :: 0 <= i < |r| ==> r[i] != c
    ensures |r| <= |s|
  {
    if |s| == 0 then "" else (if s[0] == c then [] else [s[0]]) + Without(s[1..], c)
  }

  lemma {:induction false} WithoutAbsent(s: string, c: char)
    requires forall i :: 0 <= i < |s| ==> s[i] != c
    ensures Without(s, c) == s
  {
    if |s| > 0 {
      WithoutAbsent(s[1..], c);
    }
  }

  lemma {:induction false} WithoutAppend(a: string, b: string, c: char)
    ensures Without(a + b, c) == Without(a, c) + Without(b, c)
    decreases |a|
  {
    if |a| == 0 {
      assert a + b == b;
    } else {
      var h: string := if a[0] == c then [] else [a[0]];
      assert (a + b)[0] == a[0];
      assert (a + b)[1..] == a[1..] + b;
      WithoutAppend(a[1..], b, c);
      assert Without(a + b, c) == h + Without(a[1..] + b, c);
      assert Without(a, c) == h + Without(a[1..], c);
    }
  }

  /**
   * Code-point lexicographic order on strings: the order this model gives to
   * the store's ORDER BY on text columns.
   */
  predicate LexLe(a: string, b: string)
    decreases |a|
  {
    |a| == 0 || (|b| > 0 && (a[0] < b[0] || (a[0] == b[0] && LexLe(a[1..], b[1..]))))
  }

  lemma {:induction false} LexLeReflexive(a: string)
    ensures LexLe(a, a)
    decreases |a|
  {
    if |a| > 0 {
      LexLeReflexive(a[1..]);
    }
  }

  lemma {:induction false} LexLeTotal(a: string, b: string)
    ensures LexLe(a, b) || LexLe(b, a)
    decreases |a|
  {
    if |a| > 0 && |b| > 0 && a[0] == b[0] {
      LexLeTotal(a[1..], b[1..]);
    }
  }

  lemma {:induction false} LexLeAntisymmetric(a: string, b: string)
    requires LexLe(a, b) && LexLe(b, a)
    ensures a == b
    decreases |a|
  {
    if |a| > 0 {
      assert |b| > 0 && a[0] == b[0];
      LexLeAntisymmetric(a[1..], b[1..]);
      assert a == [a[0]] + a[1..];
      assert b == [b[0]] + b[1..];
    }
  }

  lemma {:induction false} LexLeTransitive(a: string, b: string, c: string)
    requires LexLe(a, b) && LexLe(b, c)
    ensures LexLe(a, c)
    decreases |a|
  {
    if |a| > 0 && a[0] == b[0] && b[0] == c[0] {
      LexLeTransitive(a[1..], b[1..], c[1..]);
    }
  }
}
