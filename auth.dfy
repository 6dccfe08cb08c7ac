/**
 * The authentication service's own rules: the password-strength policy and
 * its place before the sign-up call, the blank-token guard of email
 * verification, and the claims put into refreshed tokens.
 */
module Auth {
  import opened Wrappers
  import opened Text

  /** The four character classes the password policy asks for. */
  datatype CharClass = LowerLetter | UpperLetter | Digit | Special

  /** `[a-z]`, `[A-Z]`, `\d` (ASCII digits here) and `[@$!%*?&]`. */
  predicate InClass(c: char, cls: CharClass) {
    match cls
    case LowerLetter => IsAsciiLower(c)
    case UpperLetter => IsAsciiUpper(c)
    case Digit => IsAsciiDigit(c)
    case Special => c in "@$!%*?&"
  }

  predicate HasClass(s: string, cls: CharClass) {
    exists i :: 0 <= i < |s| && InClass(s[i], cls)
  }

  predicate HasAllClasses(s: string) {
    HasClass(s, LowerLetter) && HasClass(s, UpperLetter) && HasClass(s, Digit) && HasClass(s, Special)
  }

  predicate NoNewline(s: string) {
    forall i :: 0 <= i < |s| ==> s[i] != '\n'
  }

  /** The text before the first newline: what the regular expression's `.` can scan. */
  function FirstLine(s: string): (r: string)
    ensures |r| <= |s| && r == s[..|r|] && NoNewline(r)
    ensures |r| < |s| ==> s[|r|] == '\n'
  {
    if |s| == 0 || s[0] == '\n' then "" else [s[0]] + FirstLine(s[1..])
  }

  /**
   * The regular expression's own semantics, stated position by position:
   * `.{8,64}` can end at `k` and be followed by `$`, which matches at the end
   * or before a final newline...
   */
  predicate RepeatEndsAt(p: string, k: nat) {
    k <= |p| && NoNewline(p[..k]) && (k == |p| || (k == |p| - 1 && p[k] == '\n'))
  }

  /** ...and a lookahead `(?=.*X)` finds a character of class X after newline-free text. */
  predicate LookaheadAt(p: string, cls: CharClass, j: nat) {
    j < |p| && NoNewline(p[..j]) && InClass(p[j], cls)
  }

  ghost predicate Lookahead(p: string, cls: CharClass) {
    exists j: nat :: LookaheadAt(p, cls, j)
  }

  /** `PASSWORD_REGEX.match(p)` by the definitions above. */
  ghost predicate RegexAccepts(p: string) {
    Lookahead(p, LowerLetter) && Lookahead(p, UpperLetter) && Lookahead(p, Digit) && Lookahead(p, Special)
    && exists k: nat :: 8 <= k <= 64 && RepeatEndsAt(p, k)
  }

  /**
   * `validate_password_strength` as written: the first line holds 8 to 64
   * characters of every class, and is the whole password or is followed by
   * a single final newline.
   */
  predicate PasswordRegexMatches(p: string) {
    var line := FirstLine(p);
    8 <= |line| <= 64 && HasAllClasses(line) && (p == line || p == line + "\n")
  }

  /** A newline-free prefix ending at a newline or at the end is the first line. */
  lemma {:induction false} FirstLineUnique(p: string, k: nat)
    requires k <= |p| && NoNewline(p[..k]) && (k == |p| || p[k] == '\n')
    ensures FirstLine(p) == p[..k]
  {
    if k > 0 {
      assert p[..k][0] == p[0];
      assert p[1..][..k - 1] == p[1..k];
      assert forall i :: 0 <= i < k - 1 ==> p[1..k][i] == p[..k][i + 1];
      FirstLineUnique(p[1..], k - 1);
      assert p[..k] == [p[0]] + p[1..k];
    }
  }

  /** A lookahead hit lies in the first line. */
  lemma LookaheadInFirstLine(p: string, cls: CharClass, j: nat)
    requires LookaheadAt(p, cls, j)
    ensures j < |FirstLine(p)| && InClass(FirstLine(p)[j], cls)
  {
  }

  lemma {:induction false} LookaheadIffFirstLineHas(p: string, cls: CharClass)
    ensures Lookahead(p, cls) <==> HasClass(FirstLine(p), cls)
  {
    var r := FirstLine(p);
    if Lookahead(p, cls) {
      var j: nat :| LookaheadAt(p, cls, j);
      LookaheadInFirstLine(p, cls, j);
      assert InClass(r[j], cls);
    }
    if HasClass(r, cls) {
      var j :| 0 <= j < |r| && InClass(r[j], cls);
      assert p[..j] == r[..j];
      assert LookaheadAt(p, cls, j);
    }
  }

  /** The structural reading of the expression is its position-by-position semantics. */
  lemma {:induction false} PasswordRegexSemantics(p: string)
    ensures RegexAccepts(p) <==> PasswordRegexMatches(p)
  {
    var r := FirstLine(p);
    LookaheadIffFirstLineHas(p, LowerLetter);
    LookaheadIffFirstLineHas(p, UpperLetter);
    LookaheadIffFirstLineHas(p, Digit);
    LookaheadIffFirstLineHas(p, Special);
    if exists k: nat :: 8 <= k <= 64 && RepeatEndsAt(p, k) {
      var k: nat :| 8 <= k <= 64 && RepeatEndsAt(p, k);
      FirstLineUnique(p, k);
      if k < |p| {
        assert p == p[..k] + "\n";
      }
    }
    if PasswordRegexMatches(p) {
      assert p[..|r|] == r;
      assert RepeatEndsAt(p, |r|);
    }
  }

  /**
   * The policy the error message states (8-64 characters with lower, upper,
   * digit and special), with the whole password matched: the corrected
   * `validate_password_strength`.
   */
  predicate ValidatePasswordStrength(p: string) {
    NoNewline(p) && 8 <= |p| <= 64 && HasAllClasses(p)
  }

  /** On passwords without a newline the corrected and the written check agree. */
  lemma StrengthAgreesWithoutNewline(p: string)
    requires NoNewline(p)
    ensures ValidatePasswordStrength(p) <==> PasswordRegexMatches(p)
  {
    FirstLineUnique(p, |p|);
    assert p[..|p|] == p;
  }

  /** Every password the corrected check accepts, the written one accepts too. */
  lemma StrengthImpliesRegex(p: string)
    requires ValidatePasswordStrength(p)
    ensures PasswordRegexMatches(p) && RegexAccepts(p)
  {
    StrengthAgreesWithoutNewline(p);
    PasswordRegexSemantics(p);
  }

  /** Length bounds: a 7-character or a 65-character password fails, whatever its characters. */
  lemma StrengthLengthBounds(p: string)
    requires |p| < 8 || |p| > 64
    ensures !ValidatePasswordStrength(p)
  {
  }

  /**
   * The written expression lets a strong password through with a newline
   * appended, so a 65-character password passes a check whose message says 64.
   */
  lemma {:induction false} RegexAcceptsTrailingNewline(line: string)
    requires ValidatePasswordStrength(line)
    ensures PasswordRegexMatches(line + "\n") && RegexAccepts(line + "\n")
    ensures !ValidatePasswordStrength(line + "\n")
  {
    var p := line + "\n";
    FirstLineUnique(p, |line|);
    assert p[..|line|] == line;
    PasswordRegexSemantics(p);
    assert p[|line|] == '\n';
  }

  /** A concrete such password: 64 strong characters and a newline, 65 in all. */
  lemma SixtyFiveCharacterPasswordAccepted()
    ensures var p := "Aa1!" + seq(60, _ => 'a') + "\n";
      |p| == 65 && PasswordRegexMatches(p) && !ValidatePasswordStrength(p)
  {
    var line := "Aa1!" + seq(60, _ => 'a');
    assert InClass(line[0], UpperLetter) && InClass(line[1], LowerLetter);
    assert InClass(line[2], Digit) && InClass(line[3], Special);
    assert NoNewline(line);
    RegexAcceptsTrailingNewline(line);
  }

  const WeakPasswordMessage: string :=
    "Password must be 8-64 characters long and include uppercase, lowercase, digit, and special character."

  /** One call made to the identity provider's sign-up endpoint. */
  datatype SignUpRequest = SignUpRequest(email: string, password: string)

  /** The identity provider, as far as sign-up is concerned: the requests it received. */
  class IdentityProvider {
    var signUps: seq<SignUpRequest>

    constructor()
      ensures signUps == []
    {
      signUps := [];
    }
  }

  /**
   * `signup_user`: a password `PASSWORD_REGEX.match` refuses fails with
   * `ValueError` and no request is sent; otherwise one sign-up request is sent
   * and `outcome`, the provider's answer (the new user's id, or a failure),
   * decides the result. The gate is the expression as written, so a strong
   * password with one newline appended is sent as well.
   */
  method SignupUser(idp: IdentityProvider, email: string, password: string, outcome: Option<string>)
    returns (r: Result<string>)
    modifies idp
    ensures !PasswordRegexMatches(password) ==>
      r == Err(ValueError(WeakPasswordMessage)) && idp.signUps == old(idp.signUps)
    ensures PasswordRegexMatches(password) ==>
      idp.signUps == old(idp.signUps) + [SignUpRequest(email, password)]
      && (outcome.Some? ==> r == Ok(outcome.value))
      && (outcome.None? ==> r.Err? && r.error.Upstream?)
    ensures ValidatePasswordStrength(password) ==> idp.signUps == old(idp.signUps) + [SignUpRequest(email, password)]
    ensures NoNewline(password) && !ValidatePasswordStrength(password) ==>
      r == Err(ValueError(WeakPasswordMessage)) && idp.signUps == old(idp.signUps)
  {
    if ValidatePasswordStrength(password) {
      StrengthImpliesRegex(password);
    }
    if NoNewline(password) {
      StrengthAgreesWithoutNewline(password);
    }
    if !PasswordRegexMatches(password) {
      return Err(ValueError(WeakPasswordMessage));
    }
    idp.signUps := idp.signUps + [SignUpRequest(email, password)];
    if outcome.None? {
      return Err(Upstream("Supabase signup failed: Unknown signup failure"));
    }
    return Ok(outcome.value);
  }

  /**
   * The guard of `verify_email`: an empty or blank token fails with 400;
   * otherwise the stripped token goes on to the provider.
   */
  function VerificationToken(token: string): (r: Result<string>)
    ensures r.Err? <==> forall i :: 0 <= i < |token| ==> IsSpace(token[i])
    ensures r.Err? ==> r.error == HttpError(BAD_REQUEST, "Verification token is required")
    ensures r.Ok? ==> r.value == Strip(token) && r.value != "" && Strip(r.value) == r.value
  {
    StripByEmpty(token, IsSpace);
    StripByIdempotent(token, IsSpace);
    if token == "" || Strip(token) == "" then Err(HttpError(BAD_REQUEST, "Verification token is required"))
    else Ok(Strip(token))
  }

  /** Claims handed to the token minting functions. */
  type Claims = map<string, string>

  datatype TokenPair = TokenPair(access: Claims, refresh: Claims)

  /**
   * `refresh_access_token`. `payload` is what verifying the refresh token
   * gave (its claims, or the error it raised); `email` is what the optional
   * user lookup found (`None` when there is no service key, no user, or the
   * lookup failed).
   */
  method RefreshAccessToken(payload: Result<Claims>, email: Option<string>) returns (r: Result<TokenPair>)
    ensures payload.Err? && payload.error.HttpError? ==> r == Err(payload.error)
    ensures payload.Err? && !payload.error.HttpError? ==>
      r == Err(HttpError(UNAUTHORIZED, "Could not refresh token"))
    ensures payload.Ok? && ("sub" !in payload.value || payload.value["sub"] == "") ==>
      r == Err(HttpError(UNAUTHORIZED, "Invalid refresh token"))
    ensures r.Ok? <==> payload.Ok? && "sub" in payload.value && payload.value["sub"] != ""
    ensures r.Ok? ==>
      var sub := payload.value["sub"];
      && r.value.refresh == map["sub" := sub]
      && "sub" in r.value.access && r.value.access["sub"] == sub
      && ("email" in r.value.access <==> email.Some? && email.value != "")
      && ("email" in r.value.access ==> r.value.access["email"] == email.value)
      && r.value.access.Keys <= {"sub", "email"}
  {
    if payload.Err? {
      if payload.error.HttpError? {
        return Err(payload.error);
      }
      return Err(HttpError(UNAUTHORIZED, "Could not refresh token"));
    }
    var claims := payload.value;
    if "sub" !in claims || claims["sub"] == "" {
      return Err(HttpError(UNAUTHORIZED, "Invalid refresh token"));
    }
    var userId := claims["sub"];
    var tokenData: Claims := map["sub" := userId];
    if email.Some? && email.value != "" {
      tokenData := tokenData["email" := email.value];
    }
    return Ok(TokenPair(tokenData, map["sub" := userId]));
  }
}
