/**
 * Company time zones: four canonical zone names and the human-readable labels
 * the onboarding form offers for them.
 */
module Timezone {
  import opened Wrappers
  import opened Text

  /** `TIMEZONE_ALIASES`: label to canonical zone. */
  const Aliases: map<string, string> := map[
    "Eastern (Detroit)" := "America/Detroit",
    "Central (Chicago)" := "America/Chicago",
    "Mountain (Denver)" := "America/Denver",
    "Pacific (LA)" := "America/Los_Angeles"
  ]

  /** `REVERSE_TIMEZONE_ALIASES`: canonical zone to label. */
  const ReverseAliases: map<string, string> := map[
    "America/Detroit" := "Eastern (Detroit)",
    "America/Chicago" := "Central (Chicago)",
    "America/Denver" := "Mountain (Denver)",
    "America/Los_Angeles" := "Pacific (LA)"
  ]

  /** The default zone of a company that has none. */
  const DefaultZone: string := "America/Detroit"

  /** The four canonical zones. */
  predicate IsCanonicalZone(z: string) {
    z in ReverseAliases
  }

  /** The reverse table is exactly the inverse of the alias table (the source builds it by inverting). */
  lemma ReverseIsInverse()
    ensures forall k :: k in Aliases ==> Aliases[k] in ReverseAliases && ReverseAliases[Aliases[k]] == k
    ensures forall v :: v in ReverseAliases ==> ReverseAliases[v] in Aliases && Aliases[ReverseAliases[v]] == v
    ensures Aliases.Values == ReverseAliases.Keys
  {
  }

  /** No canonical zone name is also a label: every zone name starts with a letter no label starts with. */
  lemma ZonesAreNotLabels()
    ensures forall z :: z in ReverseAliases ==> z !in Aliases
  {
    assert Aliases.Keys == {"Eastern (Detroit)", "Central (Chicago)", "Mountain (Denver)", "Pacific (LA)"};
    assert ReverseAliases.Keys == {"America/Detroit", "America/Chicago", "America/Denver", "America/Los_Angeles"};
    forall z | z in ReverseAliases ensures z !in Aliases {
      assert z[0] == 'A';
      assert forall k :: k in Aliases ==> k[0] != 'A';
    }
  }

  /** No zone name or label has white space at its ends. */
  lemma NamesAreStripped()
    ensures forall z :: z in ReverseAliases ==> Strip(z) == z
    ensures forall k :: k in Aliases ==> Strip(k) == k
  {
    forall z | z in ReverseAliases ensures Strip(z) == z {
      assert z[0] == 'A' && z[|z| - 1] != ' ';
      StripByNoop(z, IsSpace);
    }
    forall k | k in Aliases ensures Strip(k) == k {
      assert k[|k| - 1] == ')';
      StripByNoop(k, IsSpace);
    }
  }

  lemma NamesAreDisjointAndStripped()
    ensures forall z :: z in ReverseAliases ==> z !in Aliases
    ensures forall z :: z in ReverseAliases ==> Strip(z) == z
    ensures forall k :: k in Aliases ==> Strip(k) == k
  {
    ZonesAreNotLabels();
    NamesAreStripped();
  }

  /**
   * `_normalize_timezone`: a missing or empty value gives the fallback; else the
   * stripped value is either a label, mapped to its zone, or a canonical zone,
   * kept; anything else fails with 422.
   */
  function NormalizeTimezone(value: Option<string>, fallback: string): (r: Result<string>)
    ensures value.None? || value.value == "" ==> r == Ok(fallback)
    ensures value.Some? && value.value != "" ==>
      (r.Ok? <==> Strip(value.value) in Aliases || IsCanonicalZone(Strip(value.value)))
    ensures value.Some? && value.value != "" && r.Ok? ==>
      IsCanonicalZone(r.value)
      && (Strip(value.value) in Aliases ==> r.value == Aliases[Strip(value.value)])
      && (IsCanonicalZone(Strip(value.value)) ==> r.value == Strip(value.value))
    ensures r.Err? ==> r.error == HttpError(UNPROCESSABLE, "Unsupported timezone '" + value.value + "'.")
  {
    if value.None? || value.value == "" then Ok(fallback)
    else
      var candidate := Strip(value.value);
      NamesAreDisjointAndStripped();
      if candidate in Aliases then Ok(Aliases[candidate])
      else if candidate in ReverseAliases then Ok(candidate)
      else Err(HttpError(UNPROCESSABLE, "Unsupported timezone '" + value.value + "'."))
  }

  /** An accepted non-empty value normalises to a zone that normalises to itself, whatever the fallback. */
  lemma NormalizeTimezoneIdempotent(value: string, fallback: string, otherFallback: string)
    requires value != "" && NormalizeTimezone(Some(value), fallback).Ok?
    ensures var z := NormalizeTimezone(Some(value), fallback).value;
      NormalizeTimezone(Some(z), otherFallback) == Ok(z)
  {
    NamesAreDisjointAndStripped();
  }

  /** The label shown for a stored zone: its alias, or the zone itself (`get_onboarding_status`). */
  function TimezoneLabel(zone: string): (shown: string)
    ensures IsCanonicalZone(zone) ==> shown in Aliases && Aliases[shown] == zone
    ensures !IsCanonicalZone(zone) ==> shown == zone
  {
    if zone in ReverseAliases then ReverseAliases[zone] else zone
  }

  /** A label chosen at onboarding is shown back as the same label. */
  lemma LabelRoundTrip(alias: string, fallback: string)
    requires alias in Aliases
    ensures NormalizeTimezone(Some(alias), fallback).Ok?
    ensures TimezoneLabel(NormalizeTimezone(Some(alias), fallback).value) == alias
  {
    NamesAreStripped();
    assert Strip(alias) == alias;
    assert NormalizeTimezone(Some(alias), fallback) == Ok(Aliases[alias]);
    ReverseIsInverse();
  }
}
