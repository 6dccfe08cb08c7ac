/**
 * The field constraints the request models declare, shared by the onboarding
 * and the work-order requests: stripped strings with a minimum length,
 * optional fields, and lists validated element by element.
 */
module Validation {
  import opened Wrappers
  import opened Text

  /**
   * `constr(strip_whitespace=True, min_length=n)`: the value is trimmed, and
   * what remains must have at least `n` characters.
   */
  function TrimmedField(s: string, minLength: nat): (r: Result<string>)
    ensures r.Ok? <==> |Trim(s)| >= minLength
    ensures r.Ok? ==> r.value == Trim(s) && |r.value| >= minLength
    ensures r.Ok? && |r.value| > 0 ==> !IsWhiteSpace(r.value[0]) && !IsWhiteSpace(r.value[|r.value| - 1])
    ensures r.Err? ==> r.error.ValueError?
  {
    var t := Trim(s);
    if |t| >= minLength then Ok(t) else Err(ValueError("String should have at least " + NatToString(minLength)
                                + (if minLength == 1 then " character" else " characters")))
  }

  /** A trimmed field is accepted again unchanged. */
  lemma TrimmedFieldIdempotent(s: string, minLength: nat)
    requires TrimmedField(s, minLength).Ok?
    ensures TrimmedField(TrimmedField(s, minLength).value, minLength) == TrimmedField(s, minLength)
  {
    StripByIdempotent(s, IsWhiteSpace);
  }

  /** `Optional[constr(strip_whitespace=True, min_length=n)]`: an absent value stays absent. */
  function OptionalTrimmedField(s: Option<string>, minLength: nat): (r: Result<Option<string>>)
    ensures s.None? ==> r == Ok(None)
    ensures s.Some? ==> (r.Ok? <==> TrimmedField(s.value, minLength).Ok?)
    ensures s.Some? && r.Ok? ==> r.value == Some(Trim(s.value))
  {
    match s
    case None => Ok(None)
    case Some(v) =>
      match TrimmedField(v, minLength)
      case Ok(t) => Ok(Some(t))
      case Err(e) => Err(e)
  }

  /** Decimal digits of a number, for messages. */
  function NatToString(n: nat): (r: string)
    ensures |r| > 0 && AllDigits(r)
    decreases n
  {
    if n < 10 then [DigitChar(n)] else NatToString(n / 10) + [DigitChar(n % 10)]
  }

  /**
   * A list field: every element is validated in order; the first failure is
   * the list's failure.
   */
  function ValidateAll<R, T>(xs: seq<R>, f: R -> Result<T>): (r: Result<seq<T>>)
    ensures r.Ok? <==> forall i :: 0 <= i < |xs| ==> f(xs[i]).Ok?
    ensures r.Ok? ==> |r.value| == |xs| && forall i :: 0 <= i < |xs| ==> r.value[i] == f(xs[i]).value
    ensures r.Err? ==> exists i :: 0 <= i < |xs| && f(xs[i]) == Err(r.error)
    decreases |xs|
  {
    if |xs| == 0 then Ok([])
    else
      match f(xs[0])
      case Err(e) => Err(e)
      case Ok(y) =>
        var rest := ValidateAll(xs[1..], f);
        assert forall i :: 1 <= i < |xs| ==> xs[i] == xs[1..][i - 1];
        match rest
        case Err(e) => Err(e)
        case Ok(ys) => Ok([y] + ys)
  }

  /** The first element that fails decides the list's failure. */
  lemma {:induction false} ValidateAllFirstFailure<R, T>(xs: seq<R>, i: nat, f: R -> Result<T>)
    requires i < |xs| && f(xs[i]).Err?
    requires forall k :: 0 <= k < i ==> f(xs[k]).Ok?
    ensures ValidateAll(xs, f) == Err(f(xs[i]).error)
    decreases i
  {
    if i > 0 {
      var tail := xs[1..];
      assert forall k :: 0 <= k < i - 1 ==> tail[k] == xs[k + 1];
      ValidateAllFirstFailure(tail, i - 1, f);
    }
  }
}
