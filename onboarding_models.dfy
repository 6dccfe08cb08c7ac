/**
 * The onboarding request as the request validator accepts it: work-hour
 * strings, the literal sets and their defaults, the technician's merit
 * bound, the admin password length, and the list fields.
 */
module OnboardingModels {
  import opened Wrappers
  import opened Text
  import opened Clock
  import opened Validation
  import Auth

  // ----- Work hours -------------------------------------------------------

  /** `HourString`: the pattern `^\d{2}:\d{2}$`, matched in full. */
  predicate IsHourString(s: string) {
    |s| == 5 && s[2] == ':'
    && IsAsciiDigit(s[0]) && IsAsciiDigit(s[1]) && IsAsciiDigit(s[3]) && IsAsciiDigit(s[4])
  }

  function HourOf(s: string): nat
    requires IsHourString(s)
  {
    10 * DigitValue(s[0]) + DigitValue(s[1])
  }

  function MinuteOf(s: string): nat
    requires IsHourString(s)
  {
    10 * DigitValue(s[3]) + DigitValue(s[4])
  }

  /** An hour string parses with "%H:%M" exactly when its hour and minute are in range. */
  lemma HourStringParses(s: string)
    requires IsHourString(s)
    ensures Strptime(s, HourMinute)
         == if HourOf(s) <= 23 && MinuteOf(s) <= 59 then Some(TimeOfDay(HourOf(s), MinuteOf(s), 0)) else None
  {
    var a, b := s[..2], s[3..];
    assert s == a + [':'] + b;
    SplitNoSep(b, ':');
    SplitCons(a, ':', b);
  }

  const HourPatternMessage: string := "String should match pattern '^\\d{2}:\\d{2}$'"
  const WorkHoursMessage: string := "work hours must use HH:MM 24-hour format (00-23:00-59)"

  /**
   * A work-hours field: the pattern is checked first, then
   * `validate_work_hours` requires "%H:%M" to parse; the value is kept as given.
   */
  function ValidateWorkHours(s: string): (r: Result<string>)
    ensures r.Ok? <==> IsHourString(s) && HourOf(s) <= 23 && MinuteOf(s) <= 59
    ensures r.Ok? ==> r.value == s
    ensures !IsHourString(s) ==> r == Err(ValueError(HourPatternMessage))
    ensures IsHourString(s) && r.Err? ==> r == Err(ValueError(WorkHoursMessage))
  {
    if !IsHourString(s) then Err(ValueError(HourPatternMessage))
    else
      HourStringParses(s);
      if Strptime(s, HourMinute).None? then Err(ValueError(WorkHoursMessage)) else Ok(s)
  }

  /** Two printed digits read back as the same two digits. */
  lemma Pad2TwoDigits(c0: char, c1: char)
    requires IsAsciiDigit(c0) && IsAsciiDigit(c1)
    ensures Pad2(10 * DigitValue(c0) + DigitValue(c1)) == [c0, c1]
  {
    var n := 10 * DigitValue(c0) + DigitValue(c1);
    assert n / 10 == DigitValue(c0) && n % 10 == DigitValue(c1);
  }

  /** An accepted work-hours value is stored with ":00" seconds appended. */
  lemma WorkHoursStored(s: string)
    requires ValidateWorkHours(s).Ok?
    ensures NormalizedTime(s) == Ok(s + ":00")
  {
    var t := TimeOfDay(HourOf(s), MinuteOf(s), 0);
    HourStringParses(s);
    NormalizedTimeValue(s, t);
    Pad2TwoDigits(s[0], s[1]);
    Pad2TwoDigits(s[3], s[4]);
    assert Pad2(0) == "00";
    assert s == [s[0], s[1]] + ":" + [s[3], s[4]];
    assert Strftime(t, HourMinuteSecond) == s + ":00";
  }

  /**
   * An accepted work-hours value survives storage and rendering unchanged:
   * `_format_time_for_response(_normalize_time(s)) == s`.
   */
  lemma {:induction false} WorkHoursRoundTrip(s: string)
    requires ValidateWorkHours(s).Ok?
    ensures NormalizedTime(s).Ok?
    ensures FormatTimeForResponse(Some(NormalizedTime(s).value)) == s
  {
    var t := TimeOfDay(HourOf(s), MinuteOf(s), 0);
    HourStringParses(s);
    NormalizeThenFormat(s, t);
    Pad2TwoDigits(s[0], s[1]);
    Pad2TwoDigits(s[3], s[4]);
    assert Strftime(t, HourMinute) == s;
  }

  // ----- Literal sets -----------------------------------------------------

  /** `VendorCategory`. */
  datatype VendorCategory = Hvac | Plumbing | Electrical | General {
    function Name(): string {
      match this
      case Hvac => "hvac"
      case Plumbing => "plumbing"
      case Electrical => "electrical"
      case General => "general"
    }
  }

  function ParseVendorCategory(s: string): (r: Option<VendorCategory>)
    ensures r.Some? ==> r.value.Name() == s
    ensures forall c: VendorCategory :: c.Name() == s ==> r == Some(c)
  {
    if s == "hvac" then Some(Hvac)
    else if s == "plumbing" then Some(Plumbing)
    else if s == "electrical" then Some(Electrical)
    else if s == "general" then Some(General)
    else None
  }

  /** `IntakeMethod`. */
  datatype IntakeMethod = Email | Manual {
    function Name(): string {
      match this
      case Email => "email"
      case Manual => "manual"
    }
  }

  function ParseIntakeMethod(s: string): (r: Option<IntakeMethod>)
    ensures r.Some? ==> r.value.Name() == s
    ensures forall c: IntakeMethod :: c.Name() == s ==> r == Some(c)
  {
    if s == "email" then Some(Email) else if s == "manual" then Some(Manual) else None
  }

  /** `OnCallRotation`. */
  datatype OnCallRotation = Weekly | Custom {
    function Name(): string {
      match this
      case Weekly => "weekly"
      case Custom => "custom"
    }
  }

  function ParseOnCallRotation(s: string): (r: Option<OnCallRotation>)
    ensures r.Some? ==> r.value.Name() == s
    ensures forall c: OnCallRotation :: c.Name() == s ==> r == Some(c)
  {
    if s == "weekly" then Some(Weekly) else if s == "custom" then Some(Custom) else None
  }

  /** No two literals of a set share a name. */
  lemma LiteralNamesAreDistinct()
    ensures forall a: VendorCategory, b: VendorCategory :: a.Name() == b.Name() ==> a == b
    ensures forall a: IntakeMethod, b: IntakeMethod :: a.Name() == b.Name() ==> a == b
    ensures forall a: OnCallRotation, b: OnCallRotation :: a.Name() == b.Name() ==> a == b
  {
    forall a: VendorCategory, b: VendorCategory | a.Name() == b.Name() ensures a == b {
      assert ParseVendorCategory(a.Name()) == Some(a) && ParseVendorCategory(b.Name()) == Some(b);
    }
  }

  /** `category: VendorCategory` (required). */
  function VendorCategoryField(s: string): (r: Result<VendorCategory>)
    ensures r.Ok? <==> s in {"hvac", "plumbing", "electrical", "general"}
    ensures r.Ok? ==> r.value.Name() == s
  {
    match ParseVendorCategory(s)
    case Some(c) => Ok(c)
    case None => Err(ValueError("Input should be 'hvac', 'plumbing', 'electrical' or 'general'"))
  }

  /** `intake_method: IntakeMethod = "manual"`. */
  function IntakeMethodField(v: Option<string>): (r: Result<IntakeMethod>)
    ensures v.None? ==> r == Ok(Manual)
    ensures v.Some? ==> (r.Ok? <==> v.value in {"email", "manual"})
    ensures v.Some? && r.Ok? ==> r.value.Name() == v.value
  {
    match v
    case None => Ok(Manual)
    case Some(s) =>
      match ParseIntakeMethod(s)
      case Some(m) => Ok(m)
      case None => Err(ValueError("Input should be 'email' or 'manual'"))
  }

  /** `on_call_rotation: OnCallRotation = "weekly"`. */
  function OnCallRotationField(v: Option<string>): (r: Result<OnCallRotation>)
    ensures v.None? ==> r == Ok(Weekly)
    ensures v.Some? ==> (r.Ok? <==> v.value in {"weekly", "custom"})
    ensures v.Some? && r.Ok? ==> r.value.Name() == v.value
  {
    match v
    case None => Ok(Weekly)
    case Some(s) =>
      match ParseOnCallRotation(s)
      case Some(m) => Ok(m)
      case None => Err(ValueError("Input should be 'weekly' or 'custom'"))
  }

  // ----- Technicians: merit -----------------------------------------------

  /** The merit a technician gets when none is given. */
  const DefaultMerit: nat := 100

  /**
   * `merit_percent: Optional[int] = Field(default=100, ge=0)`. The outer
   * `None` is an absent key (the default applies), `Some(None)` an explicit
   * null (allowed, since the field is optional), and a number must not be negative.
   */
  function MeritPercentField(v: Option<Option<int>>): (r: Result<Option<nat>>)
    ensures v.None? ==> r == Ok(Some(DefaultMerit))
    ensures v.Some? && v.value.None? ==> r == Ok(None)
    ensures v.Some? && v.value.Some? ==> (r.Ok? <==> v.value.value >= 0)
    ensures v.Some? && v.value.Some? && r.Ok? ==> r.value == Some(v.value.value as nat)
  {
    match v
    case None => Ok(Some(DefaultMerit))
    case Some(None) => Ok(None)
    case Some(Some(n)) =>
      if n >= 0 then Ok(Some(n as nat)) else Err(ValueError("Input should be greater than or equal to 0"))
  }

  /** The merit the service stores: the given value, or 100 for a null. */
  function StoredMerit(m: Option<nat>): (merit: nat)
    ensures m.Some? ==> merit == m.value
    ensures m.None? ==> merit == DefaultMerit
  {
    m.GetOr(DefaultMerit)
  }

  /** Whatever the request says, the stored merit is non-negative, and 100 unless a number was given. */
  lemma StoredMeritDefaults(v: Option<Option<int>>)
    requires MeritPercentField(v).Ok?
    ensures var merit := StoredMerit(MeritPercentField(v).value);
      (v.None? || v.value.None? ==> merit == DefaultMerit)
      && (v.Some? && v.value.Some? ==> merit == v.value.value)
  {
  }

  // ----- Request entities -------------------------------------------------

  datatype RawPropertyCreate = RawPropertyCreate(name: string, address: string, notes: Option<string>)
  datatype PropertyCreate = PropertyCreate(name: string, address: string, notes: Option<string>)

  /** `PropertyCreate`: name and address trimmed and non-empty. */
  function ValidatePropertyCreate(raw: RawPropertyCreate): (r: Result<PropertyCreate>)
    ensures r.Ok? <==> Trim(raw.name) != "" && Trim(raw.address) != ""
    ensures r.Ok? ==> r.value == PropertyCreate(Trim(raw.name), Trim(raw.address), raw.notes)
  {
    match TrimmedField(raw.name, 1)
    case Err(e) => Err(e)
    case Ok(name) =>
      match TrimmedField(raw.address, 1)
      case Err(e) => Err(e)
      case Ok(address) => Ok(PropertyCreate(name, address, raw.notes))
  }

  datatype RawTechnicianCreate = RawTechnicianCreate(
    firstName: string, lastName: string, phone: Option<string>, email: Option<string>,
    shift: Option<string>, defaultProperty: Option<string>, userId: Option<string>,
    meritPercent: Option<Option<int>>)

  datatype TechnicianCreate = TechnicianCreate(
    firstName: string, lastName: string, phone: Option<string>, email: Option<string>,
    shift: Option<string>, defaultProperty: Option<string>, userId: Option<string>,
    meritPercent: Option<nat>)

  /** `TechnicianCreate`: names trimmed and non-empty, merit bounded below by 0 with default 100. */
  function ValidateTechnicianCreate(raw: RawTechnicianCreate): (r: Result<TechnicianCreate>)
    ensures r.Ok? <==> Trim(raw.firstName) != "" && Trim(raw.lastName) != "" && MeritPercentField(raw.meritPercent).Ok?
    ensures r.Ok? ==>
      && r.value.firstName == Trim(raw.firstName) && r.value.lastName == Trim(raw.lastName)
      && r.value.meritPercent == MeritPercentField(raw.meritPercent).value
      && r.value.defaultProperty == raw.defaultProperty && r.value.userId == raw.userId
      && r.value.phone == raw.phone && r.value.email == raw.email && r.value.shift == raw.shift
  {
    match TrimmedField(raw.firstName, 1)
    case Err(e) => Err(e)
    case Ok(first) =>
      match TrimmedField(raw.lastName, 1)
      case Err(e) => Err(e)
      case Ok(last) =>
        match MeritPercentField(raw.meritPercent)
        case Err(e) => Err(e)
        case Ok(merit) =>
          Ok(TechnicianCreate(first, last, raw.phone, raw.email, raw.shift, raw.defaultProperty, raw.userId, merit))
  }

  datatype RawEmergencyVendorCreate = RawEmergencyVendorCreate(category: string, name: string, phone: Option<string>)
  datatype EmergencyVendorCreate = EmergencyVendorCreate(category: VendorCategory, name: string, phone: Option<string>)

  /** `EmergencyVendorCreate`: a category from the literal set and a trimmed non-empty name. */
  function ValidateEmergencyVendorCreate(raw: RawEmergencyVendorCreate): (r: Result<EmergencyVendorCreate>)
    ensures r.Ok? <==> raw.category in {"hvac", "plumbing", "electrical", "general"} && Trim(raw.name) != ""
    ensures r.Ok? ==> r.value.category.Name() == raw.category && r.value.name == Trim(raw.name)
                      && r.value.phone == raw.phone
  {
    match VendorCategoryField(raw.category)
    case Err(e) => Err(e)
    case Ok(c) =>
      match TrimmedField(raw.name, 1)
      case Err(e) => Err(e)
      case Ok(name) => Ok(EmergencyVendorCreate(c, name, raw.phone))
  }

  datatype RawAdminAccount = RawAdminAccount(email: string, password: string, firstName: Option<string>, lastName: Option<string>)
  datatype AdminAccount = AdminAccount(email: string, password: string, firstName: Option<string>, lastName: Option<string>)

  /** `password: constr(min_length=8, max_length=64)`. */
  function AdminPasswordField(p: string): (r: Result<string>)
    ensures r.Ok? <==> 8 <= |p| <= 64
    ensures r.Ok? ==> r.value == p
  {
    if |p| < 8 then Err(ValueError("String should have at least 8 characters"))
    else if |p| > 64 then Err(ValueError("String should have at most 64 characters"))
    else Ok(p)
  }

  /**
   * The admin password is bounded by length only: every password the strength
   * policy accepts fits, but the admin field also takes ones the policy refuses.
   */
  lemma AdminPasswordWeakerThanPolicy(p: string)
    ensures Auth.ValidatePasswordStrength(p) ==> AdminPasswordField(p).Ok?
    ensures AdminPasswordField("aaaaaaaa").Ok? && !Auth.ValidatePasswordStrength("aaaaaaaa")
  {
    var weak := "aaaaaaaa";
    assert !Auth.HasClass(weak, Auth.UpperLetter) by {
      assert forall i :: 0 <= i < |weak| ==> weak[i] == 'a';
    }
  }

  /** `AdminAccount`: the password length, and optional names trimmed and non-empty. */
  function ValidateAdminAccount(raw: RawAdminAccount): (r: Result<AdminAccount>)
    ensures r.Ok? <==> 8 <= |raw.password| <= 64
                       && OptionalTrimmedField(raw.firstName, 1).Ok? && OptionalTrimmedField(raw.lastName, 1).Ok?
    ensures r.Ok? ==> r.value.email == raw.email && r.value.password == raw.password
    ensures r.Ok? ==> && (raw.firstName.None? ==> r.value.firstName.None?)
                      && (raw.firstName.Some? ==> r.value.firstName == Some(Trim(raw.firstName.value)))
                      && (raw.lastName.None? ==> r.value.lastName.None?)
                      && (raw.lastName.Some? ==> r.value.lastName == Some(Trim(raw.lastName.value)))
  {
    match AdminPasswordField(raw.password)
    case Err(e) => Err(e)
    case Ok(p) =>
      match OptionalTrimmedField(raw.firstName, 1)
      case Err(e) => Err(e)
      case Ok(first) =>
        match OptionalTrimmedField(raw.lastName, 1)
        case Err(e) => Err(e)
        case Ok(last) => Ok(AdminAccount(raw.email, p, first, last))
  }

  // ----- The request ------------------------------------------------------

  /** The request body; `None` marks an absent key. */
  datatype RawOnboardingRequest = RawOnboardingRequest(
    companyName: Option<string>, timezone: Option<string>,
    workHoursStart: string, workHoursEnd: string,
    autoAssign: Option<bool>, onCallEnabled: Option<bool>,
    onCallRotation: Option<string>, intakeMethod: Option<string>,
    collectPte: Option<bool>, collectWindow: Option<bool>,
    adminAccount: Option<RawAdminAccount>,
    properties: Option<seq<RawPropertyCreate>>,
    technicians: Option<seq<RawTechnicianCreate>>,
    emergencyVendors: Option<seq<RawEmergencyVendorCreate>>)

  datatype OnboardingRequest = OnboardingRequest(
    companyName: Option<string>, timezone: Option<string>,
    workHoursStart: string, workHoursEnd: string,
    autoAssign: bool, onCallEnabled: bool,
    onCallRotation: OnCallRotation, intakeMethod: IntakeMethod,
    collectPte: bool, collectWindow: bool,
    adminAccount: Option<AdminAccount>,
    properties: seq<PropertyCreate>,
    technicians: seq<TechnicianCreate>,
    emergencyVendors: seq<EmergencyVendorCreate>)

  function ValidateOptionalAdmin(raw: Option<RawAdminAccount>): (r: Result<Option<AdminAccount>>)
    ensures raw.None? ==> r == Ok(None)
    ensures raw.Some? ==> (r.Ok? <==> ValidateAdminAccount(raw.value).Ok?)
    ensures raw.Some? && r.Ok? ==> r.value == Some(ValidateAdminAccount(raw.value).value)
  {
    match raw
    case None => Ok(None)
    case Some(a) =>
      match ValidateAdminAccount(a)
      case Ok(v) => Ok(Some(v))
      case Err(e) => Err(e)
  }

  /**
   * `OnboardingRequest`: every field checked in declaration order. Absent
   * keys take their defaults: auto-assign, PTE and window collection on,
   * on-call off, weekly rotation, manual intake, and empty lists.
   */
  function ValidateOnboardingRequest(raw: RawOnboardingRequest): (r: Result<OnboardingRequest>)
    ensures r.Ok? <==>
      && OptionalTrimmedField(raw.companyName, 1).Ok?
      && OptionalTrimmedField(raw.timezone, 1).Ok?
      && ValidateWorkHours(raw.workHoursStart).Ok? && ValidateWorkHours(raw.workHoursEnd).Ok?
      && OnCallRotationField(raw.onCallRotation).Ok? && IntakeMethodField(raw.intakeMethod).Ok?
      && ValidateOptionalAdmin(raw.adminAccount).Ok?
      && ValidateAll(raw.properties.GetOr([]), ValidatePropertyCreate).Ok?
      && ValidateAll(raw.technicians.GetOr([]), ValidateTechnicianCreate).Ok?
      && ValidateAll(raw.emergencyVendors.GetOr([]), ValidateEmergencyVendorCreate).Ok?
    ensures r.Ok? ==>
      var q := r.value;
      && IsHourString(q.workHoursStart) && IsHourString(q.workHoursEnd)
      && q.workHoursStart == raw.workHoursStart && q.workHoursEnd == raw.workHoursEnd
      && q.autoAssign == raw.autoAssign.GetOr(true) && q.onCallEnabled == raw.onCallEnabled.GetOr(false)
      && q.collectPte == raw.collectPte.GetOr(true) && q.collectWindow == raw.collectWindow.GetOr(true)
      && (raw.onCallRotation.None? ==> q.onCallRotation == Weekly)
      && (raw.intakeMethod.None? ==> q.intakeMethod == Manual)
      && (raw.properties.None? ==> q.properties == [])
      && (raw.technicians.None? ==> q.technicians == [])
      && (raw.emergencyVendors.None? ==> q.emergencyVendors == [])
      && q.companyName == OptionalTrimmedField(raw.companyName, 1).value
      && q.timezone == OptionalTrimmedField(raw.timezone, 1).value
      && q.onCallRotation == OnCallRotationField(raw.onCallRotation).value
      && q.intakeMethod == IntakeMethodField(raw.intakeMethod).value
      && q.adminAccount == ValidateOptionalAdmin(raw.adminAccount).value
      && |q.properties| == |raw.properties.GetOr([])|
      && |q.technicians| == |raw.technicians.GetOr([])|
      && |q.emergencyVendors| == |raw.emergencyVendors.GetOr([])|
      && (forall i :: 0 <= i < |q.properties| ==>
            q.properties[i] == ValidatePropertyCreate(raw.properties.GetOr([])[i]).value)
      && (forall i :: 0 <= i < |q.technicians| ==>
            q.technicians[i] == ValidateTechnicianCreate(raw.technicians.GetOr([])[i]).value)
      && (forall i :: 0 <= i < |q.emergencyVendors| ==>
            q.emergencyVendors[i] == ValidateEmergencyVendorCreate(raw.emergencyVendors.GetOr([])[i]).value)
  {
    var companyName :- OptionalTrimmedField(raw.companyName, 1);
    var timezone :- OptionalTrimmedField(raw.timezone, 1);
    var start :- ValidateWorkHours(raw.workHoursStart);
    var end :- ValidateWorkHours(raw.workHoursEnd);
    var rotation :- OnCallRotationField(raw.onCallRotation);
    var intake :- IntakeMethodField(raw.intakeMethod);
    var admin :- ValidateOptionalAdmin(raw.adminAccount);
    var properties :- ValidateAll(raw.properties.GetOr([]), ValidatePropertyCreate);
    var technicians :- ValidateAll(raw.technicians.GetOr([]), ValidateTechnicianCreate);
    var vendors :- ValidateAll(raw.emergencyVendors.GetOr([]), ValidateEmergencyVendorCreate);
    Ok(OnboardingRequest(companyName, timezone, start, end,
                         raw.autoAssign.GetOr(true), raw.onCallEnabled.GetOr(false),
                         rotation, intake, raw.collectPte.GetOr(true), raw.collectWindow.GetOr(true),
                         admin, properties, technicians, vendors))
  }
}
