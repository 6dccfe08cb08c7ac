/**
 * UUID handling: the 8-4-4-4-12 pattern the onboarding service matches with a
 * regular expression, its placeholder set, and the parse-and-print
 * canonicalisation the work-order service gets from `str(uuid.UUID(value))`.
 */
module Uuid {
  import opened Wrappers
  import opened Text

  /** The hex-digit positions and the four hyphens of the 36-character form. */
  predicate IsHyphenPosition(i: int) {
    i == 8 || i == 13 || i == 18 || i == 23
  }

  /** `[0-9a-fA-F]{8}-[0-9a-fA-F]{4}-[0-9a-fA-F]{4}-[0-9a-fA-F]{4}-[0-9a-fA-F]{12}` matched in full. */
  predicate UuidShape(s: string) {
    |s| == 36
    && (forall i :: 0 <= i < 36 && IsHyphenPosition(i) ==> s[i] == '-')
    && (forall i :: 0 <= i < 36 && !IsHyphenPosition(i) ==> IsHexDigit(s[i]))
  }

  /**
   * `UUID_RE.match(s)`: the pattern is anchored by `^` and `$`, and `$` also
   * matches just before a final newline, so the shape followed by "\n" matches too.
   */
  predicate UuidReMatches(s: string) {
    UuidShape(s) || (|s| == 37 && s[36] == '\n' && UuidShape(s[..36]))
  }

  /** On a stripped string the pattern accepts exactly the shape. */
  lemma StrippedMatchIsShape(s: string)
    ensures UuidReMatches(Strip(s)) <==> UuidShape(Strip(s))
  {
  }

  /** `PLACEHOLDER_VALUES`: what clients send for "no id". */
  const Placeholders: set<string> := {"string", "null", "none", "undefined", "", "all"}

  /** Whether a raw value is a placeholder once stripped and lower-cased. */
  predicate IsPlaceholder(value: string) {
    Lower(Strip(value)) in Placeholders
  }

  /** A value of the UUID shape is never a placeholder: every placeholder is shorter. */
  lemma ShapeIsNotPlaceholder(s: string)
    requires UuidShape(s)
    ensures Lower(s) !in Placeholders
  {
    assert |Lower(s)| == 36;
  }

  /**
   * `_clean_optional_uuid`: `None` and placeholders give `None`; otherwise the
   * stripped value must have the UUID shape and is returned, or the call fails
   * with 422 quoting the raw value.
   */
  function CleanOptionalUuid(value: Option<string>): (r: Result<Option<string>>)
    ensures value.None? ==> r == Ok(None)
    ensures value.Some? && IsPlaceholder(value.value) ==> r == Ok(None)
    ensures value.Some? && !IsPlaceholder(value.value) ==>
      (r.Ok? <==> UuidShape(Strip(value.value)))
    ensures r.Ok? && r.value.Some? ==>
      value.Some? && r.value.value == Strip(value.value) && UuidShape(r.value.value)
    ensures r.Err? ==> r.error == HttpError(UNPROCESSABLE, "Invalid UUID value '" + value.value + "'.")
  {
    match value
    case None => Ok(None)
    case Some(raw) =>
      var candidate := Strip(raw);
      StrippedMatchIsShape(raw);
      if Lower(candidate) in Placeholders then Ok(None)
      else if !UuidReMatches(candidate) then
        Err(HttpError(UNPROCESSABLE, "Invalid UUID value '" + raw + "'."))
      else Ok(Some(candidate))
  }

  /** A cleaned id cleans to itself. */
  lemma CleanOptionalUuidIdempotent(value: string)
    requires CleanOptionalUuid(Some(value)).Ok? && CleanOptionalUuid(Some(value)).value.Some?
    ensures var c := CleanOptionalUuid(Some(value)).value.value;
      CleanOptionalUuid(Some(c)) == Ok(Some(c))
  {
    var c := Strip(value);
    StripByIdempotent(value, IsSpace);
    ShapeIsNotPlaceholder(c);
  }

  /** The characters `str.strip('{}')` removes. */
  predicate IsBrace(c: char) {
    c == '{' || c == '}'
  }

  /** Inserts the four hyphens into 32 hex digits. */
  function Hyphenate(h: string): (r: string)
    requires |h| == 32
    ensures |r| == 36
  {
    h[..8] + "-" + h[8..12] + "-" + h[12..16] + "-" + h[16..20] + "-" + h[20..]
  }

  /** Every character is a hex digit. */
  predicate AllHex(s: string) {
    forall i :: 0 <= i < |s| ==> IsHexDigit(s[i])
  }

  /**
   * The 32 digits `uuid.UUID(value)` reads: it deletes every "urn:", then
   * every "uuid:", strips braces from both ends, deletes every hyphen, and
   * needs exactly 32 hex digits to remain.
   */
  function UuidDigits(value: string): (r: Option<string>)
    ensures r.Some? ==> |r.value| == 32 && AllHex(r.value)
  {
    var h := Without(StripBy(RemoveAll(RemoveAll(value, "urn:"), "uuid:"), IsBrace), '-');
    if |h| == 32 && AllHex(h) then Some(h) else None
  }

  /** The form `str(uuid.UUID(...))` prints: lower-case digits in 8-4-4-4-12 groups. */
  predicate IsCanonicalUuid(s: string) {
    UuidShape(s) && forall i :: 0 <= i < |s| ==> !IsAsciiUpper(s[i])
  }

  /**
   * `_normalize_uuid`: the canonical printed form of the parsed UUID, or a 422
   * naming the field.
   */
  function NormalizeUuid(value: string, field: string): (r: Result<string>)
    ensures r.Ok? <==> UuidDigits(value).Some?
    ensures r.Ok? ==> IsCanonicalUuid(r.value)
    ensures r.Err? ==> r.error == HttpError(UNPROCESSABLE, "Invalid UUID for " + field + ".")
  {
    match UuidDigits(value)
    case Some(h) =>
      var l := Lower(h);
      assert forall i :: 0 <= i < 32 ==> IsHexDigit(l[i]) && !IsAsciiUpper(l[i]) by {
        forall i | 0 <= i < 32 ensures IsHexDigit(l[i]) && !IsAsciiUpper(l[i]) {
          assert l[i] == LowerChar(h[i]) && IsHexDigit(h[i]);
        }
      }
      HyphenatedIsCanonical(l);
      Ok(Hyphenate(l))
    case None => Err(HttpError(UNPROCESSABLE, "Invalid UUID for " + field + "."))
  }

  /** Lower-case hex digits with the hyphens inserted are in the canonical form. */
  lemma HyphenatedIsCanonical(l: string)
    requires |l| == 32 && forall i :: 0 <= i < 32 ==> IsHexDigit(l[i]) && !IsAsciiUpper(l[i])
    ensures IsCanonicalUuid(Hyphenate(l))
  {
    var u := Hyphenate(l);
    assert u[..8] == l[..8] && u[9..13] == l[8..12] && u[14..18] == l[12..16];
    assert u[19..23] == l[16..20] && u[24..] == l[20..];
    assert u[8] == '-' && u[13] == '-' && u[18] == '-' && u[23] == '-';
    forall i | 0 <= i < 36 && !IsHyphenPosition(i) ensures IsHexDigit(u[i]) && !IsAsciiUpper(u[i]) {
      if i < 8 { assert u[i] == u[..8][i] == l[i]; }
      else if i < 13 { assert u[i] == u[9..13][i - 9] == l[i - 1]; }
      else if i < 18 { assert u[i] == u[14..18][i - 14] == l[i - 2]; }
      else if i < 23 { assert u[i] == u[19..23][i - 19] == l[i - 3]; }
      else { assert u[i] == u[24..][i - 24] == l[i - 4]; }
    }
  }

  /** Where the `i`-th of the 32 digits sits in the hyphenated form. */
  function DigitPosition(i: nat): (p: nat)
    requires i < 32
    ensures p < 36 && !IsHyphenPosition(p)
  {
    if i < 8 then i else if i < 12 then i + 1 else if i < 16 then i + 2 else if i < 20 then i + 3 else i + 4
  }

  /** The hex digits of a value of the UUID shape, without its hyphens. */
  function ShapeDigits(s: string): (h: string)
    requires UuidShape(s)
    ensures |h| == 32 && AllHex(h)
    ensures h == s[..8] + s[9..13] + s[14..18] + s[19..23] + s[24..]
    ensures Hyphenate(h) == s
  {
    var h := seq(32, i requires 0 <= i < 32 => s[DigitPosition(i)]);
    assert h[..8] == s[..8] && h[8..12] == s[9..13] && h[12..16] == s[14..18];
    assert h[16..20] == s[19..23] && h[20..] == s[24..];
    assert h == h[..8] + h[8..12] + h[12..16] + h[16..20] + h[20..];
    assert s[8] == '-' && s[13] == '-' && s[18] == '-' && s[23] == '-';
    assert s[..9] == s[..8] + "-";
    assert s[..13] == s[..9] + s[9..13];
    assert s[..14] == s[..13] + "-";
    assert s[..18] == s[..14] + s[14..18];
    assert s[..19] == s[..18] + "-";
    assert s[..23] == s[..19] + s[19..23];
    assert s[..24] == s[..23] + "-";
    assert s == s[..24] + s[24..];
    h
  }

  /** Deleting hyphens from a hyphen-free group, a hyphen and a rest keeps the group. */
  lemma DropGroup(x: string, rest: string)
    requires forall i :: 0 <= i < |x| ==> x[i] != '-'
    ensures Without(x + ("-" + rest), '-') == x + Without(rest, '-')
  {
    var h := "-" + rest;
    assert h[0] == '-' && h[1..] == rest;
    assert Without(h, '-') == Without(rest, '-');
    WithoutAbsent(x, '-');
    WithoutAppend(x, h, '-');
  }

  /** Deleting the hyphens of a shaped value leaves its digits. */
  lemma WithoutHyphens(s: string)
    requires UuidShape(s)
    ensures Without(s, '-') == ShapeDigits(s)
  {
    var a, b, c, d, e := s[..8], s[9..13], s[14..18], s[19..23], s[24..];
    WithoutAbsent(e, '-');
    assert s[19..] == d + ("-" + e);
    DropGroup(d, e);
    assert s[14..] == c + ("-" + s[19..]);
    DropGroup(c, s[19..]);
    assert s[9..] == b + ("-" + s[14..]);
    DropGroup(b, s[14..]);
    assert s == a + ("-" + s[9..]);
    DropGroup(a, s[9..]);
    assert a + (b + (c + (d + e))) == a + b + c + d + e;
  }

  /** Lower-casing commutes with inserting hyphens. */
  lemma LowerHyphenate(h: string)
    requires |h| == 32
    ensures Hyphenate(Lower(h)) == Lower(Hyphenate(h))
  {
  }

  /** A value of the UUID shape parses to its own digits. */
  lemma ShapeUuidDigits(s: string)
    requires UuidShape(s)
    ensures UuidDigits(s) == Some(ShapeDigits(s))
  {
    RemoveAllAbsent(s, "urn:");
    RemoveAllAbsent(s, "uuid:");
    StripByNoop(s, IsBrace);
    WithoutHyphens(s);
  }

  /** A value of the UUID shape normalises to its lower-case form. */
  lemma NormalizeShapedUuid(s: string, field: string)
    requires UuidShape(s)
    ensures NormalizeUuid(s, field) == Ok(Lower(s))
  {
    ShapeUuidDigits(s);
    LowerHyphenate(ShapeDigits(s));
  }

  /** A canonical UUID normalises to itself. */
  lemma NormalizeCanonicalUuid(s: string, field: string)
    requires IsCanonicalUuid(s)
    ensures NormalizeUuid(s, field) == Ok(s)
  {
    NormalizeShapedUuid(s, field);
    LowerNoop(s);
  }

  /** Normalising twice is normalising once. */
  lemma NormalizeUuidIdempotent(value: string, field: string)
    requires NormalizeUuid(value, field).Ok?
    ensures NormalizeUuid(NormalizeUuid(value, field).value, field) == NormalizeUuid(value, field)
  {
    NormalizeCanonicalUuid(NormalizeUuid(value, field).value, field);
  }

  /** Upper- and lower-case spellings of a UUID normalise to the same value. */
  lemma NormalizeIgnoresCase(s: string, field: string)
    requires UuidShape(s)
    ensures UuidShape(Lower(s))
    ensures NormalizeUuid(s, field) == NormalizeUuid(Lower(s), field)
  {
    NormalizeShapedUuid(s, field);
    assert UuidShape(Lower(s));
    NormalizeShapedUuid(Lower(s), field);
    LowerIdempotent(s);
  }

  /** A braced UUID normalises like the bare one. */
  lemma NormalizeBracedUuid(s: string, field: string)
    requires UuidShape(s)
    ensures NormalizeUuid("{" + s + "}", field) == Ok(Lower(s))
  {
    var b := "{" + s + "}";
    RemoveAllAbsent(b, "urn:");
    RemoveAllAbsent(b, "uuid:");
    assert LeadingCount(b, IsBrace) == 1 by {
      assert b[1..] == s + "}";
      assert LeadingCount(b[1..], IsBrace) == 0;
    }
    var t := b[1..];
    assert t == s + "}";
    assert TrailingCount(t, IsBrace) == 1 by {
      assert t[..|t| - 1] == s;
      assert TrailingCount(s, IsBrace) == 0;
    }
    assert StripBy(b, IsBrace) == s;
    WithoutHyphens(s);
    assert UuidDigits(b) == Some(ShapeDigits(s));
    LowerHyphenate(ShapeDigits(s));
  }

  /** Every id `_clean_optional_uuid` keeps is one `uuid.UUID` accepts, and normalises to its lower-case form. */
  lemma CleanedIsNormalizable(value: string, field: string)
    requires CleanOptionalUuid(Some(value)).Ok? && CleanOptionalUuid(Some(value)).value.Some?
    ensures NormalizeUuid(CleanOptionalUuid(Some(value)).value.value, field)
         == Ok(Lower(Strip(value)))
  {
    NormalizeShapedUuid(Strip(value), field);
  }
}
