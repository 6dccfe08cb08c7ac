/**
 * Work-hour strings: the subset of `datetime.strptime` / `strftime` that the
 * onboarding service uses ("%H:%M" and "%H:%M:%S"), and the service's
 * normalisation of stored times and rendering of times in responses.
 */
module Clock {
  import opened Wrappers
  import opened Text

  /** Python's `s.split(sep)`. */
  function Split(s: string, sep: char): (r: seq<string>)
    ensures |r| >= 1
    decreases |s|
  {
    if |s| == 0 then [""]
    else if s[0] == sep then [""] + Split(s[1..], sep)
    else
      var rest := Split(s[1..], sep);
      [[s[0]] + rest[0]] + rest[1..]
  }

  /** A piece without the separator splits to itself. */
  lemma {:induction false} SplitNoSep(a: string, sep: char)
    requires forall i :: 0 <= i < |a| ==> a[i] != sep
    ensures Split(a, sep) == [a]
    decreases |a|
  {
    if |a| > 0 {
      SplitNoSep(a[1..], sep);
      assert a == [a[0]] + a[1..];
    }
  }

  /** Splitting `a + [sep] + b` yields `a` followed by the pieces of `b`. */
  lemma {:induction false} SplitCons(a: string, sep: char, b: string)
    requires forall i :: 0 <= i < |a| ==> a[i] != sep
    ensures Split(a + [sep] + b, sep) == [a] + Split(b, sep)
    decreases |a|
  {
    var s := a + [sep] + b;
    if |a| == 0 {
      assert s[1..] == b;
    } else {
      assert s[0] == a[0];
      assert s[1..] == a[1..] + [sep] + b;
      SplitCons(a[1..], sep, b);
      assert a == [a[0]] + a[1..];
    }
  }

  /** A numeric field as `strptime` reads %H, %M or %S: one or two ASCII digits. */
  predicate IsField(f: string) {
    1 <= |f| <= 2 && AllDigits(f)
  }

  function FieldValue(f: string): (n: nat)
    requires IsField(f)
    ensures n < 100
  {
    if |f| == 1 then DigitValue(f[0]) else 10 * DigitValue(f[0]) + DigitValue(f[1])
  }

  datatype TimeOfDay = TimeOfDay(hour: nat, minute: nat, second: nat)

  /** The range `datetime` accepts: hours 0-23, minutes and seconds 0-59. */
  predicate ValidTime(t: TimeOfDay) {
    t.hour < 24 && t.minute < 60 && t.second < 60
  }

  /** The two formats the service tries: "%H:%M" and "%H:%M:%S". */
  datatype TimeFormat = HourMinute | HourMinuteSecond {
    function FieldCount(): nat {
      if HourMinute? then 2 else 3
    }
  }

  /**
   * `datetime.strptime(s, fmt)`: the string must consist of exactly the
   * format's colon-separated fields, each of one or two digits, within range;
   * `None` stands for the `ValueError`.
   */
  function Strptime(s: string, fmt: TimeFormat): (r: Option<TimeOfDay>)
    ensures r.Some? ==> ValidTime(r.value)
    ensures r.Some? && fmt.HourMinute? ==> r.value.second == 0
  {
    var f := Split(s, ':');
    if |f| == fmt.FieldCount() && IsField(f[0]) && IsField(f[1])
       && (fmt.HourMinuteSecond? ==> IsField(f[2]))
       && FieldValue(f[0]) <= 23 && FieldValue(f[1]) <= 59
       && (fmt.HourMinuteSecond? ==> FieldValue(f[2]) <= 59)
    then Some(TimeOfDay(FieldValue(f[0]), FieldValue(f[1]),
                        if fmt.HourMinuteSecond? then FieldValue(f[2]) else 0))
    else None
  }

  /** Two-digit, zero-padded rendering of a number below 100 (strftime's %H, %M, %S). */
  function Pad2(n: nat): (r: string)
    requires n < 100
    ensures |r| == 2 && AllDigits(r)
  {
    [DigitChar(n / 10), DigitChar(n % 10)]
  }

  /** `t.strftime(fmt)`. */
  function Strftime(t: TimeOfDay, fmt: TimeFormat): (r: string)
    requires ValidTime(t)
  {
    Pad2(t.hour) + ":" + Pad2(t.minute) + (if fmt.HourMinuteSecond? then ":" + Pad2(t.second) else "")
  }

  lemma Pad2Field(n: nat)
    requires n < 100
    ensures IsField(Pad2(n)) && FieldValue(Pad2(n)) == n
    ensures forall i :: 0 <= i < 2 ==> Pad2(n)[i] != ':'
  {
  }

  /** Parsing what `strftime` printed gives the time back (its seconds dropped by "%H:%M"). */
  lemma ParsePrinted(t: TimeOfDay, fmt: TimeFormat)
    requires ValidTime(t)
    ensures Strptime(Strftime(t, fmt), fmt)
         == Some(if fmt.HourMinute? then TimeOfDay(t.hour, t.minute, 0) else t)
  {
    var h, m, s := Pad2(t.hour), Pad2(t.minute), Pad2(t.second);
    Pad2Field(t.hour);
    Pad2Field(t.minute);
    Pad2Field(t.second);
    if fmt.HourMinute? {
      SplitNoSep(m, ':');
      SplitCons(h, ':', m);
      assert Strftime(t, fmt) == h + [':'] + m;
    } else {
      SplitNoSep(s, ':');
      SplitCons(m, ':', s);
      SplitCons(h, ':', m + [':'] + s);
      assert Strftime(t, fmt) == h + [':'] + (m + [':'] + s);
    }
  }

  /** The canonical stored form: exactly "HH:MM:SS", two digits each. */
  predicate IsCanonicalTime(s: string) {
    |s| == 8 && s[2] == ':' && s[5] == ':'
    && IsAsciiDigit(s[0]) && IsAsciiDigit(s[1]) && IsAsciiDigit(s[3])
    && IsAsciiDigit(s[4]) && IsAsciiDigit(s[6]) && IsAsciiDigit(s[7])
  }

  /**
   * `_normalize_time`: the first of "%H:%M" and "%H:%M:%S" that parses the
   * value decides the time, which is stored as "%H:%M:%S"; a value neither
   * format accepts fails with 422.
   */
  function NormalizedTime(value: string): (r: Result<string>)
    ensures r.Ok? <==> Strptime(value, HourMinute).Some? || Strptime(value, HourMinuteSecond).Some?
    ensures r.Ok? ==> IsCanonicalTime(r.value)
    ensures r.Err? ==> r.error.HttpError? && r.error.status == UNPROCESSABLE
  {
    match Strptime(value, HourMinute)
    case Some(t) => Ok(Strftime(t, HourMinuteSecond))
    case None =>
      match Strptime(value, HourMinuteSecond)
      case Some(t) => Ok(Strftime(t, HourMinuteSecond))
      case None =>
        Err(HttpError(UNPROCESSABLE, "Invalid time value '" + value + "'. Expected HH:MM 24-hour format."))
  }

  /** `_normalize_time` as written: a loop over the two formats that returns on the first parse. */
  method NormalizeTime(value: string) returns (r: Result<string>)
    ensures r == NormalizedTime(value)
  {
    var formats := [HourMinute, HourMinuteSecond];
    var i := 0;
    while i < |formats|
      invariant 0 <= i <= |formats|
      invariant forall j :: 0 <= j < i ==> Strptime(value, formats[j]).None?
    {
      var parsed := Strptime(value, formats[i]);
      if parsed.Some? {
        return Ok(Strftime(parsed.value, HourMinuteSecond));
      }
      i := i + 1;
    }
    assert formats[0] == HourMinute && formats[1] == HourMinuteSecond;
    return Err(HttpError(UNPROCESSABLE, "Invalid time value '" + value + "'. Expected HH:MM 24-hour format."));
  }

  /** The stored value is the parsed time printed as "%H:%M:%S", with seconds 0 for an "HH:MM" input. */
  lemma NormalizedTimeValue(value: string, t: TimeOfDay)
    requires Strptime(value, HourMinute) == Some(t) || Strptime(value, HourMinuteSecond) == Some(t)
    ensures NormalizedTime(value) == Ok(Strftime(t, HourMinuteSecond))
  {
  }

  /** "09:00" and "09:00:00" are stored as the same value. */
  lemma MinutesAndSecondsAgree(t: TimeOfDay)
    requires ValidTime(t) && t.second == 0
    ensures NormalizedTime(Strftime(t, HourMinute)) == NormalizedTime(Strftime(t, HourMinuteSecond))
    ensures NormalizedTime(Strftime(t, HourMinute)) == Ok(Strftime(t, HourMinuteSecond))
  {
    ParsePrinted(t, HourMinute);
    ParsePrinted(t, HourMinuteSecond);
    NormalizedTimeValue(Strftime(t, HourMinute), t);
    NormalizedTimeValue(Strftime(t, HourMinuteSecond), t);
  }

  /** Normalising a stored value changes nothing. */
  lemma NormalizedTimeIdempotent(value: string)
    requires NormalizedTime(value).Ok?
    ensures NormalizedTime(NormalizedTime(value).value) == NormalizedTime(value)
  {
    var t := if Strptime(value, HourMinute).Some? then Strptime(value, HourMinute).value
             else Strptime(value, HourMinuteSecond).value;
    NormalizedTimeValue(value, t);
    ParsePrinted(t, HourMinuteSecond);
    NormalizedTimeValue(Strftime(t, HourMinuteSecond), t);
  }

  /**
   * `_format_time_for_response`: a missing or empty value renders as "00:00";
   * a value that parses as "%H:%M:%S" or else as "%H:%M" renders as a
   * five-character "%H:%M" that reads back as the parsed hours and minutes;
   * anything else is returned unchanged.
   */
  function FormatTimeForResponse(value: Option<string>): (r: string)
    ensures value.None? || value.value == "" ==> r == "00:00"
    ensures value.Some? && value.value != "" && Strptime(value.value, HourMinuteSecond).Some? ==>
            var t := Strptime(value.value, HourMinuteSecond).value;
            |r| == 5 && Strptime(r, HourMinute) == Some(TimeOfDay(t.hour, t.minute, 0))
    ensures value.Some? && value.value != ""
            && Strptime(value.value, HourMinuteSecond).None? && Strptime(value.value, HourMinute).Some? ==>
            var t := Strptime(value.value, HourMinute).value;
            |r| == 5 && Strptime(r, HourMinute) == Some(t)
    ensures value.Some? && value.value != ""
            && Strptime(value.value, HourMinuteSecond).None? && Strptime(value.value, HourMinute).None?
            ==> r == value.value
  {
    if value.None? || value.value == "" then "00:00"
    else
      match Strptime(value.value, HourMinuteSecond)
      case Some(t) => ParsePrinted(t, HourMinute); Strftime(t, HourMinute)
      case None =>
        match Strptime(value.value, HourMinute)
        case Some(t) => ParsePrinted(t, HourMinute); Strftime(t, HourMinute)
        case None => value.value
  }

  /** A stored "%H:%M:%S" value renders as its hours and minutes. */
  lemma FormatStoredTime(t: TimeOfDay)
    requires ValidTime(t)
    ensures FormatTimeForResponse(Some(Strftime(t, HourMinuteSecond))) == Strftime(t, HourMinute)
  {
    ParsePrinted(t, HourMinuteSecond);
  }

  /**
   * Every accepted value renders as "%H:%M" of its parsed time after it is
   * stored: normalise-then-format keeps hours and minutes.
   */
  lemma {:induction false} NormalizeThenFormat(value: string, t: TimeOfDay)
    requires Strptime(value, HourMinute) == Some(t) || Strptime(value, HourMinuteSecond) == Some(t)
    ensures NormalizedTime(value).Ok?
    ensures FormatTimeForResponse(Some(NormalizedTime(value).value)) == Strftime(t, HourMinute)
  {
    NormalizedTimeValue(value, t);
    FormatStoredTime(t);
  }
}
