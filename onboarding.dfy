/**
 * First-time onboarding of a company (`complete_first_time_onboarding`) and
 * the read-back of its setup (`get_onboarding_status`): the guards on the
 * caller's company, the run-once check, the settings written over the company
 * row, linking a separate admin account, the bulk inserts of properties,
 * technicians and emergency vendors, and how a technician names its default
 * property (a UUID of the company, or the name of a property of the same request).
 */
module Onboarding {
  import opened Wrappers
  import opened Text
  import opened Listing
  import opened Store
  import opened Uuid
  import opened Clock
  import opened Timezone
  import opened Validation
  import opened OnboardingModels
  import TechnicianRoutes

  // ----- The caller's company ---------------------------------------------

  /** The detail texts of the three 400s that guard a handler; the two handlers word them differently. */
  datatype GuardMessages = GuardMessages(noProfile: string, noCompany: string, noCompanyRow: string)

  const OnboardingGuards: GuardMessages := GuardMessages(
    "User profile not found. Complete signup before onboarding.",
    "Company not provisioned. Complete signup first.",
    "Company record missing. Contact support.")

  const StatusGuards: GuardMessages := GuardMessages(
    "User profile not found.", "Company not provisioned.", "Company record missing.")

  const AlreadyOnboarded: string := "Onboarding already completed."
  const AdminIdMissing: string := "Unable to determine admin user id."
  const AdminLinkFailed: string := "Unable to create or link admin user: "

  /**
   * `_get_app_user`, the `company_id` check and `_get_company`: the caller
   * needs a profile, the profile a non-empty company id, and that company a row.
   */
  function ProvisionedCompany(appUsers: map<string, AppUser>, companies: map<string, Company>,
                              userId: string, m: GuardMessages): (r: Result<string>)
    ensures r.Ok? <==> userId in appUsers && appUsers[userId].companyId.Some?
                       && appUsers[userId].companyId.value != "" && appUsers[userId].companyId.value in companies
    ensures r.Ok? ==> r.value == appUsers[userId].companyId.value
    ensures userId !in appUsers ==> r == Err(HttpError(BAD_REQUEST, m.noProfile))
    ensures userId in appUsers && (appUsers[userId].companyId.None? || appUsers[userId].companyId.value == "") ==>
      r == Err(HttpError(BAD_REQUEST, m.noCompany))
    ensures userId in appUsers && appUsers[userId].companyId.Some? && appUsers[userId].companyId.value != ""
            && appUsers[userId].companyId.value !in companies ==>
      r == Err(HttpError(BAD_REQUEST, m.noCompanyRow))
  {
    if userId !in appUsers then Err(HttpError(BAD_REQUEST, m.noProfile))
    else
      var c := appUsers[userId].companyId;
      if c.None? || c.value == "" then Err(HttpError(BAD_REQUEST, m.noCompany))
      else if c.value !in companies then Err(HttpError(BAD_REQUEST, m.noCompanyRow))
      else Ok(c.value)
  }

  // ----- `_company_has_existing_records` ----------------------------------

  function VendorOfCompany(c: string): VendorRow -> bool {
    (v: VendorRow) => v.companyId == c
  }

  /** `.select("id").eq("company_id", c).limit(1)` returns a row. */
  predicate HasRow<R>(t: map<string, R>, keep: R -> bool) {
    exists id | id in t :: keep(t[id])
  }

  /** The company already has a property, a technician or an emergency vendor. */
  predicate HasExistingRecords(properties: map<string, PropertyRow>, technicians: map<string, TechnicianRow>,
                               vendors: map<string, VendorRow>, c: string)
  {
    || HasRow(properties, PropertyOfCompany(c))
    || HasRow(technicians, TechnicianRoutes.TechnicianOfCompany(c))
    || HasRow(vendors, VendorOfCompany(c))
  }

  /** The probe of one of the three tables, in the order the loop visits them. */
  function ProbeTable(db: Db, table: nat, c: string): bool
    reads db
  {
    if table == 0 then HasRow(db.properties, PropertyOfCompany(c))
    else if table == 1 then HasRow(db.technicians, TechnicianRoutes.TechnicianOfCompany(c))
    else HasRow(db.vendors, VendorOfCompany(c))
  }

  /** The loop over the three tables, returning at the first one that has a row of the company. */
  method CompanyHasExistingRecords(db: Db, c: string) returns (found: bool)
    ensures found == HasExistingRecords(db.properties, db.technicians, db.vendors, c)
  {
    var table := 0;
    while table < 3
      invariant 0 <= table <= 3
      invariant forall k :: 0 <= k < table ==> !ProbeTable(db, k, c)
    {
      if ProbeTable(db, table, c) {
        return true;
      }
      table := table + 1;
    }
    assert !ProbeTable(db, 0, c) && !ProbeTable(db, 1, c) && !ProbeTable(db, 2, c);
    return false;
  }

  // ----- Company settings -------------------------------------------------

  /** The company settings both responses show. */
  datatype Settings = Settings(
    companyName: string, timezone: string, workHoursStart: string, workHoursEnd: string,
    autoAssign: bool, onCallEnabled: bool, onCallRotation: string, intakeMethod: string,
    collectPte: bool, collectWindow: bool)

  /**
   * How the status reads a company row: the times rendered as "%H:%M", and
   * every missing column at its default (timezone America/Detroit, auto-assign
   * on, on-call off, weekly rotation, manual intake, PTE and window collection on).
   */
  function SettingsOf(company: Company): Settings {
    Settings(
      company.name.GetOr(""), company.timezone.GetOr(DefaultZone),
      FormatTimeForResponse(company.workHoursStart), FormatTimeForResponse(company.workHoursEnd),
      company.autoAssign.GetOr(true), company.onCallEnabled.GetOr(false),
      company.onCallRotation.GetOr("weekly"), company.intake.GetOr("manual"),
      company.collectPte.GetOr(true), company.collectWindow.GetOr(true))
  }

  /** The company name onboarding stores: the request's, stripped, or else the row's own. */
  function OnboardedName(company: Company, req: OnboardingRequest): string {
    if req.companyName.Some? && req.companyName.value != "" then Strip(req.companyName.value)
    else company.name.GetOr("")
  }

  /**
   * The row onboarding writes over the company: the name, the timezone
   * normalized against the row's own zone as fallback, the two times stored
   * as "%H:%M:%S", and the request's switches; or the first 422 of the three.
   */
  function OnboardedCompany(company: Company, req: OnboardingRequest): (r: Result<Company>)
    ensures r.Ok? <==> && NormalizeTimezone(req.timezone, company.timezone.GetOr(DefaultZone)).Ok?
                       && NormalizedTime(req.workHoursStart).Ok? && NormalizedTime(req.workHoursEnd).Ok?
    ensures NormalizeTimezone(req.timezone, company.timezone.GetOr(DefaultZone)).Err? ==>
      r == Err(NormalizeTimezone(req.timezone, company.timezone.GetOr(DefaultZone)).error)
    ensures r.Err? ==> r.error.HttpError? && r.error.status == UNPROCESSABLE
    ensures r.Ok? ==> var w := r.value;
      && w.name.Some? && w.timezone.Some? && w.autoAssign.Some? && w.onCallEnabled.Some?
      && w.onCallRotation.Some? && w.intake.Some? && w.collectPte.Some? && w.collectWindow.Some?
      && w.workHoursStart.Some? && IsCanonicalTime(w.workHoursStart.value)
      && w.workHoursEnd.Some? && IsCanonicalTime(w.workHoursEnd.value)
  {
    var timezone :- NormalizeTimezone(req.timezone, company.timezone.GetOr(DefaultZone));
    var start :- NormalizedTime(req.workHoursStart);
    var end :- NormalizedTime(req.workHoursEnd);
    Ok(Company(Some(OnboardedName(company, req)), Some(timezone), Some(start), Some(end),
               Some(req.autoAssign), Some(req.onCallEnabled), Some(req.onCallRotation.Name()),
               Some(req.intakeMethod.Name()), Some(req.collectPte), Some(req.collectWindow)))
  }

  /**
   * For a request the validator accepted, only the timezone can still fail,
   * and the status afterwards shows the work hours exactly as the request gave
   * them, the request's switches, and, for a timezone given as a label, that label.
   */
  lemma {:induction false} OnboardedSettingsEchoRequest(company: Company, req: OnboardingRequest)
    requires ValidateWorkHours(req.workHoursStart).Ok? && ValidateWorkHours(req.workHoursEnd).Ok?
    ensures OnboardedCompany(company, req).Ok? <==>
      NormalizeTimezone(req.timezone, company.timezone.GetOr(DefaultZone)).Ok?
    ensures OnboardedCompany(company, req).Ok? ==>
      var s := SettingsOf(OnboardedCompany(company, req).value);
      && s.companyName == OnboardedName(company, req)
      && s.timezone == NormalizeTimezone(req.timezone, company.timezone.GetOr(DefaultZone)).value
      && s.workHoursStart == req.workHoursStart && s.workHoursEnd == req.workHoursEnd
      && s.autoAssign == req.autoAssign && s.onCallEnabled == req.onCallEnabled
      && s.onCallRotation == req.onCallRotation.Name() && s.intakeMethod == req.intakeMethod.Name()
      && s.collectPte == req.collectPte && s.collectWindow == req.collectWindow
      && (req.timezone.Some? && req.timezone.value in Aliases ==> TimezoneLabel(s.timezone) == req.timezone.value)
  {
    var fallback := company.timezone.GetOr(DefaultZone);
    WorkHoursRoundTrip(req.workHoursStart);
    WorkHoursRoundTrip(req.workHoursEnd);
    var tz := NormalizeTimezone(req.timezone, fallback);
    if tz.Ok? {
      var start, end := NormalizedTime(req.workHoursStart).value, NormalizedTime(req.workHoursEnd).value;
      var w := Company(Some(OnboardedName(company, req)), Some(tz.value), Some(start), Some(end),
                       Some(req.autoAssign), Some(req.onCallEnabled), Some(req.onCallRotation.Name()),
                       Some(req.intakeMethod.Name()), Some(req.collectPte), Some(req.collectWindow));
      assert OnboardedCompany(company, req) == Ok(w);
      assert FormatTimeForResponse(w.workHoursStart) == req.workHoursStart;
      assert FormatTimeForResponse(w.workHoursEnd) == req.workHoursEnd;
      if req.timezone.Some? && req.timezone.value in Aliases {
        LabelRoundTrip(req.timezone.value, fallback);
      }
    }
  }

  // ----- The admin account ------------------------------------------------

  /**
   * What the hosted auth service answers when asked to create the admin user
   * or find the existing one: the user id and whether it was created, or the
   * failure it reported.
   */
  datatype AdminLink = Linked(userId: string, created: bool) | LinkFailed(reason: string)

  /** The request names an admin whose email, stripped and lower-cased, is not the caller's. */
  predicate NeedsAdminLink(req: OnboardingRequest, actingEmail: string) {
    req.adminAccount.Some? && Lower(Strip(req.adminAccount.value.email)) != Lower(Strip(actingEmail))
  }

  /**
   * The admin step (`_create_or_link_admin` after the auth call): the admin's
   * profile is updated, or inserted, with the company; the answer is the
   * app users afterwards and whether the account was created.
   */
  function LinkAdmin(appUsers: map<string, AppUser>, c: string, req: OnboardingRequest,
                     actingEmail: string, link: AdminLink): (r: Result<(map<string, AppUser>, bool)>)
    ensures !NeedsAdminLink(req, actingEmail) ==> r == Ok((appUsers, false))
    ensures r.Err? <==> NeedsAdminLink(req, actingEmail) && (link.LinkFailed? || link.userId == "")
    ensures r.Err? && link.LinkFailed? ==> r.error == HttpError(BAD_REQUEST, AdminLinkFailed + link.reason)
    ensures r.Err? && link.Linked? ==> r.error == HttpError(BAD_REQUEST, AdminIdMissing)
    ensures r.Ok? && NeedsAdminLink(req, actingEmail) ==>
      && r.value.1 == link.created
      && r.value.0.Keys == appUsers.Keys + {link.userId}
      && r.value.0[link.userId] == AppUser(Some(c))
      && (forall u :: u in appUsers && u != link.userId ==> r.value.0[u] == appUsers[u])
  {
    if !NeedsAdminLink(req, actingEmail) then Ok((appUsers, false))
    else
      match link
      case LinkFailed(reason) => Err(HttpError(BAD_REQUEST, AdminLinkFailed + reason))
      case Linked(uid, created) =>
        if uid == "" then Err(HttpError(BAD_REQUEST, AdminIdMissing))
        else Ok((appUsers[uid := AppUser(Some(c))], created))
  }

  // ----- Bulk inserts -----------------------------------------------------

  /** `.insert(rows)`: each row under the id the store hands back for it. */
  function InsertRows<R>(t: map<string, R>, ids: seq<string>, rows: seq<R>): map<string, R>
    requires |ids| == |rows|
    decreases |ids|
  {
    if |ids| == 0 then t
    else InsertRows(t, ids[..|ids| - 1], rows[..|rows| - 1])[ids[|ids| - 1] := rows[|rows| - 1]]
  }

  /** An insert adds exactly the new ids, leaves the other rows alone, and stores only the given rows. */
  lemma {:induction false} InsertRowsFacts<R>(t: map<string, R>, ids: seq<string>, rows: seq<R>)
    requires |ids| == |rows|
    ensures var u := InsertRows(t, ids, rows);
      && (forall k :: k in u <==> k in t || k in ids)
      && (forall k :: k in t && k !in ids ==> u[k] == t[k])
      && (forall k :: k in u && k in ids ==> u[k] in rows)
    decreases |ids|
  {
    if |ids| > 0 {
      var n := |ids| - 1;
      InsertRowsFacts(t, ids[..n], rows[..n]);
      assert forall k :: k in ids <==> k in ids[..n] || k == ids[n];
      assert forall x :: x in rows[..n] ==> x in rows;
    }
  }

  predicate Distinct(ids: seq<string>) {
    forall i, j :: 0 <= i < j < |ids| ==> ids[i] != ids[j]
  }

  /** A row is stored under its own id when no later id is equal to it. */
  lemma {:induction false} InsertRowsAtOne<R>(t: map<string, R>, ids: seq<string>, rows: seq<R>, i: nat)
    requires |ids| == |rows| && i < |ids|
    requires forall j :: i < j < |ids| ==> ids[j] != ids[i]
    ensures ids[i] in InsertRows(t, ids, rows) && InsertRows(t, ids, rows)[ids[i]] == rows[i]
    decreases |ids|
  {
    var n := |ids| - 1;
    if i < n {
      InsertRowsAtOne(t, ids[..n], rows[..n], i);
      assert ids[..n][i] == ids[i] && rows[..n][i] == rows[i];
    }
  }

  /** Under distinct ids every row is stored under its own id. */
  lemma InsertRowsAt<R>(t: map<string, R>, ids: seq<string>, rows: seq<R>)
    requires |ids| == |rows| && Distinct(ids)
    ensures forall i :: 0 <= i < |ids| ==> ids[i] in InsertRows(t, ids, rows) && InsertRows(t, ids, rows)[ids[i]] == rows[i]
  {
    forall i | 0 <= i < |ids|
      ensures ids[i] in InsertRows(t, ids, rows) && InsertRows(t, ids, rows)[ids[i]] == rows[i]
    {
      InsertRowsAtOne(t, ids, rows, i);
    }
  }

  /** The rows of `property_rows`. */
  function PropertyRows(c: string, props: seq<PropertyCreate>): (rows: seq<PropertyRow>)
    ensures |rows| == |props|
    ensures forall i :: 0 <= i < |props| ==> rows[i] == PropertyRow(c, props[i].name, props[i].address, props[i].notes)
  {
    seq(|props|, i requires 0 <= i < |props| => PropertyRow(c, props[i].name, props[i].address, props[i].notes))
  }

  /** The rows of `vendor_rows`. */
  function VendorRows(c: string, vendors: seq<EmergencyVendorCreate>): (rows: seq<VendorRow>)
    ensures |rows| == |vendors|
    ensures forall i :: 0 <= i < |vendors| ==>
      rows[i] == VendorRow(c, vendors[i].category.Name(), vendors[i].name, vendors[i].phone)
  {
    seq(|vendors|, i requires 0 <= i < |vendors| =>
      VendorRow(c, vendors[i].category.Name(), vendors[i].name, vendors[i].phone))
  }

  // ----- Naming a property ------------------------------------------------

  /** The key a property of the request is found under: its name, stripped and lower-cased. */
  function PropertyKey(p: PropertyCreate): string {
    Lower(Strip(p.name))
  }

  /** A map from each key to the id at the same position; of two equal keys, the later wins. */
  function KeyMap(keys: seq<string>, ids: seq<string>): map<string, string>
    requires |keys| == |ids|
    decreases |keys|
  {
    if |keys| == 0 then map[]
    else KeyMap(keys[..|keys| - 1], ids[..|ids| - 1])[keys[|keys| - 1] := ids[|ids| - 1]]
  }

  /** Every key is in the map, and the map leads only to the given ids. */
  lemma {:induction false} KeyMapFacts(keys: seq<string>, ids: seq<string>)
    requires |keys| == |ids|
    ensures forall k :: k in keys ==> k in KeyMap(keys, ids)
    ensures forall k :: k in KeyMap(keys, ids) ==> KeyMap(keys, ids)[k] in ids
    decreases |keys|
  {
    if |keys| > 0 {
      var n := |keys| - 1;
      KeyMapFacts(keys[..n], ids[..n]);
      assert forall k :: k in keys ==> k in keys[..n] || k == keys[n];
      assert forall x :: x in ids[..n] ==> x in ids;
    }
  }

  /** A key leads to the id at its own position when no later key is equal to it. */
  lemma {:induction false} KeyMapLastWins(keys: seq<string>, ids: seq<string>, i: nat)
    requires |keys| == |ids| && i < |keys|
    requires forall j :: i < j < |keys| ==> keys[j] != keys[i]
    ensures keys[i] in KeyMap(keys, ids) && KeyMap(keys, ids)[keys[i]] == ids[i]
    decreases |keys|
  {
    var n := |keys| - 1;
    if i < n {
      KeyMapLastWins(keys[..n], ids[..n], i);
      assert keys[..n][i] == keys[i] && ids[..n][i] == ids[i];
    }
  }

  /** One more position of the zip adds its key. */
  lemma KeyMapStep(keys: seq<string>, ids: seq<string>, i: nat)
    requires |keys| == |ids| && i < |keys|
    ensures KeyMap(keys[..i + 1], ids[..i + 1]) == KeyMap(keys[..i], ids[..i])[keys[i] := ids[i]]
  {
    assert keys[..i + 1][..i] == keys[..i] && ids[..i + 1][..i] == ids[..i];
  }

  function PropertyKeys(props: seq<PropertyCreate>): (keys: seq<string>)
    ensures |keys| == |props| && forall i :: 0 <= i < |props| ==> keys[i] == PropertyKey(props[i])
  {
    seq(|props|, i requires 0 <= i < |props| => PropertyKey(props[i]))
  }

  /** `property_name_map`: the new id of each property under its key. */
  function NameMap(props: seq<PropertyCreate>, ids: seq<string>): map<string, string>
    requires |props| == |ids|
  {
    KeyMap(PropertyKeys(props), ids)
  }

  /** The zip loop over the properties and the rows the insert returned. */
  method BuildNameMap(props: seq<PropertyCreate>, ids: seq<string>) returns (names: map<string, string>)
    requires |props| == |ids|
    ensures names == NameMap(props, ids)
  {
    ghost var keys := PropertyKeys(props);
    names := map[];
    for i := 0 to |props|
      invariant names == KeyMap(keys[..i], ids[..i])
    {
      var key := PropertyKey(props[i]);
      assert key == keys[i];
      KeyMapStep(keys, ids, i);
      names := names[key := ids[i]];
    }
    assert keys[..|props|] == keys && ids[..|ids|] == ids;
  }

  /**
   * `_resolve_property_identifier`: nothing, or a placeholder, names no
   * property; a UUID must be a property of the company; anything else must be
   * the name of a property of this request; otherwise 422.
   */
  function ResolvePropertyIdentifier(properties: map<string, PropertyRow>, c: string,
                                     names: map<string, string>, identifier: Option<string>): (r: Result<Option<string>>)
    ensures identifier.None? || identifier.value == "" ==> r == Ok(None)
    ensures identifier.Some? && IsPlaceholder(identifier.value) ==> r == Ok(None)
    ensures identifier.Some? && !IsPlaceholder(identifier.value) && UuidShape(Strip(identifier.value)) ==>
      r == (if OwnsProperty(properties, Strip(identifier.value), c) then Ok(Some(Strip(identifier.value)))
            else Err(HttpError(UNPROCESSABLE, "Property " + Strip(identifier.value) + " does not belong to this company.")))
    ensures r.Ok? && r.value.Some? ==>
      identifier.Some? && !IsPlaceholder(identifier.value)
      && (|| OwnsProperty(properties, r.value.value, c)
          || (Lower(Strip(identifier.value)) in names && r.value.value == names[Lower(Strip(identifier.value))]))
      && r.value.value != ""
    ensures r.Err? ==> r.error.HttpError? && r.error.status == UNPROCESSABLE
  {
    if identifier.None? || identifier.value == "" then Ok(None)
    else
      var candidate := Strip(identifier.value);
      StrippedMatchIsShape(identifier.value);
      if Lower(candidate) in Placeholders then Ok(None)
      else if UuidReMatches(candidate) then
        if OwnsProperty(properties, candidate, c) then Ok(Some(candidate))
        else Err(HttpError(UNPROCESSABLE, "Property " + candidate + " does not belong to this company."))
      else if Lower(candidate) in names && names[Lower(candidate)] != "" then Ok(Some(names[Lower(candidate)]))
      else Err(HttpError(UNPROCESSABLE, "Unknown property reference '" + identifier.value
                                        + "'. Use an existing property UUID or the name from this request."))
  }

  /**
   * A technician may name a property of the request by its name, in any case
   * and with surrounding spaces, and gets that property's new id.
   */
  lemma ResolveByName(properties: map<string, PropertyRow>, c: string, props: seq<PropertyCreate>,
                      ids: seq<string>, i: nat, identifier: string)
    requires |props| == |ids| && i < |props| && ids[i] != ""
    requires forall j :: i < j < |props| ==> PropertyKey(props[j]) != PropertyKey(props[i])
    requires Lower(Strip(identifier)) == PropertyKey(props[i])
    requires !IsPlaceholder(identifier) && !UuidShape(Strip(identifier))
    ensures ResolvePropertyIdentifier(properties, c, NameMap(props, ids), Some(identifier)) == Ok(Some(ids[i]))
  {
    var keys := PropertyKeys(props);
    assert forall j :: i < j < |props| ==> keys[j] != keys[i];
    KeyMapLastWins(keys, ids, i);
    StrippedMatchIsShape(identifier);
  }

  /** When the names lead to properties of the company, whatever resolves is a property of the company. */
  lemma ResolvedIsOwnProperty(properties: map<string, PropertyRow>, c: string,
                              names: map<string, string>, identifier: Option<string>)
    requires forall k :: k in names ==> names[k] == "" || OwnsProperty(properties, names[k], c)
    ensures var r := ResolvePropertyIdentifier(properties, c, names, identifier);
      r.Ok? && r.value.Some? ==> OwnsProperty(properties, r.value.value, c)
  {
  }

  // ----- Technician rows --------------------------------------------------

  /**
   * The row built for one technician: the merit (100 for a null), the user id
   * cleaned as a UUID, and the default property resolved; no availability is written.
   */
  function TechnicianRowFor(properties: map<string, PropertyRow>, c: string, names: map<string, string>,
                            tech: TechnicianCreate): (r: Result<TechnicianRow>)
    ensures r.Ok? <==> CleanOptionalUuid(tech.userId).Ok?
                       && ResolvePropertyIdentifier(properties, c, names, tech.defaultProperty).Ok?
    ensures r.Err? ==> r.error.HttpError? && r.error.status == UNPROCESSABLE
    ensures r.Ok? ==>
      && r.value.companyId == c && r.value.meritPercent == StoredMerit(tech.meritPercent)
      && r.value.userId == CleanOptionalUuid(tech.userId).value
      && r.value.defaultPropertyId == ResolvePropertyIdentifier(properties, c, names, tech.defaultProperty).value
      && r.value.availability.None?
  {
    var user :- CleanOptionalUuid(tech.userId);
    var home :- ResolvePropertyIdentifier(properties, c, names, tech.defaultProperty);
    Ok(TechnicianRow(c, user, tech.firstName, tech.lastName, tech.phone, tech.email, home,
                     tech.shift, StoredMerit(tech.meritPercent), None))
  }

  function TechnicianBuilder(properties: map<string, PropertyRow>, c: string, names: map<string, string>)
    : TechnicianCreate -> Result<TechnicianRow>
  {
    (tech: TechnicianCreate) => TechnicianRowFor(properties, c, names, tech)
  }

  /** The loop that builds every technician row before the insert; the first failure aborts it. */
  method BuildTechnicianRows(properties: map<string, PropertyRow>, c: string, names: map<string, string>,
                             techs: seq<TechnicianCreate>) returns (r: Result<seq<TechnicianRow>>)
    ensures r == ValidateAll(techs, TechnicianBuilder(properties, c, names))
  {
    var f := TechnicianBuilder(properties, c, names);
    var rows: seq<TechnicianRow> := [];
    for i := 0 to |techs|
      invariant |rows| == i
      invariant forall k :: 0 <= k < i ==> f(techs[k]).Ok? && rows[k] == f(techs[k]).value
    {
      var row := f(techs[i]);
      if row.Err? {
        ValidateAllFirstFailure(techs, i, f);
        return Err(row.error);
      }
      rows := rows + [row.value];
    }
    assert ValidateAll(techs, f).value == rows;
    r := Ok(rows);
  }

  /** A failure building the technician rows is a 422. */
  lemma TechnicianRowsFailWith422(properties: map<string, PropertyRow>, c: string, names: map<string, string>,
                                  techs: seq<TechnicianCreate>)
    ensures var r := ValidateAll(techs, TechnicianBuilder(properties, c, names));
      r.Err? ==> r.error.HttpError? && r.error.status == UNPROCESSABLE
  {
    var r := ValidateAll(techs, TechnicianBuilder(properties, c, names));
    if r.Err? {
      var i :| 0 <= i < |techs| && TechnicianBuilder(properties, c, names)(techs[i]) == Err(r.error);
    }
  }

  // ----- The onboarding call ----------------------------------------------

  /** The tables onboarding reads and writes. */
  datatype Tables = Tables(
    appUsers: map<string, AppUser>, companies: map<string, Company>, properties: map<string, PropertyRow>,
    technicians: map<string, TechnicianRow>, vendors: map<string, VendorRow>)

  function TablesOf(db: Db): Tables
    reads db
  {
    Tables(db.appUsers, db.companies, db.properties, db.technicians, db.vendors)
  }

  /** The ids the store hands back for the inserted properties, technicians and vendors, in insert order. */
  datatype NewIds = NewIds(properties: seq<string>, technicians: seq<string>, vendors: seq<string>)

  /** An id the store can hand out: no table has it and no row points at it. */
  predicate FreshId(t: Tables, units: map<string, UnitRow>, workOrders: map<string, WorkOrderRow>, id: string) {
    && id != "" && id !in t.properties && id !in t.technicians && id !in t.vendors
    && id !in units && id !in workOrders
    && (forall u :: u in units.Values ==> u.propertyId != id)
    && (forall r :: r in t.technicians.Values ==> r.defaultPropertyId != Some(id))
    && (forall w :: w in workOrders.Values ==>
          w.propertyId != id && w.unitId != Some(id) && w.assignedTechnicianId != Some(id))
  }

  /** One distinct fresh id per inserted row. */
  predicate ValidNewIds(t: Tables, units: map<string, UnitRow>, workOrders: map<string, WorkOrderRow>,
                        req: OnboardingRequest, ids: NewIds)
  {
    && |ids.properties| == |req.properties| && |ids.technicians| == |req.technicians|
    && |ids.vendors| == |req.emergencyVendors|
    && Distinct(ids.properties) && Distinct(ids.technicians) && Distinct(ids.vendors)
    && (forall i :: 0 <= i < |ids.properties| ==> FreshId(t, units, workOrders, ids.properties[i]))
    && (forall i :: 0 <= i < |ids.technicians| ==> FreshId(t, units, workOrders, ids.technicians[i]))
    && (forall i :: 0 <= i < |ids.vendors| ==> FreshId(t, units, workOrders, ids.vendors[i]))
  }

  datatype OnboardingSummary = OnboardingSummary(
    settings: Settings, propertiesTotal: nat, techniciansTotal: nat, emergencyVendorsTotal: nat,
    adminUserCreated: bool)

  datatype OnboardingResponse = OnboardingResponse(success: bool, companyId: string, summary: OnboardingSummary)

  /** The tables after a call and its answer. */
  datatype Outcome = Outcome(tables: Tables, result: Result<OnboardingResponse>)

  /** The store hands back one id per inserted row. */
  predicate SizesMatch(req: OnboardingRequest, ids: NewIds) {
    && |ids.properties| == |req.properties| && |ids.technicians| == |req.technicians|
    && |ids.vendors| == |req.emergencyVendors|
  }

  /**
   * `complete_first_time_onboarding`: the guards and the run-once check write
   * nothing; then the setup is written.
   */
  function Onboard(t: Tables, userId: string, req: OnboardingRequest, actingEmail: string,
                   link: AdminLink, ids: NewIds): Outcome
    requires SizesMatch(req, ids)
  {
    match ProvisionedCompany(t.appUsers, t.companies, userId, OnboardingGuards)
    case Err(e) => Outcome(t, Err(e))
    case Ok(c) =>
      if HasExistingRecords(t.properties, t.technicians, t.vendors, c) then
        Outcome(t, Err(HttpError(CONFLICT, AlreadyOnboarded)))
      else WriteSetup(t, c, req, actingEmail, link, ids)
  }

  /**
   * The writes, in order: the settings over the company row, then the admin
   * link, then the inserts; a failure keeps the writes made before it.
   */
  function WriteSetup(t: Tables, c: string, req: OnboardingRequest, actingEmail: string,
                      link: AdminLink, ids: NewIds): Outcome
    requires c in t.companies && SizesMatch(req, ids)
  {
    match OnboardedCompany(t.companies[c], req)
    case Err(e) => Outcome(t, Err(e))
    case Ok(row) =>
      var t1 := t.(companies := t.companies[c := row]);
      match LinkAdmin(t1.appUsers, c, req, actingEmail, link)
      case Err(e) => Outcome(t1, Err(e))
      case Ok(admin) =>
        InsertSetup(t1.(appUsers := admin.0), c, req, ids,
                    OnboardingSummary(SettingsOf(row), |ids.properties|, |ids.technicians|, |ids.vendors|, admin.1))
  }

  /**
   * The inserts: the properties first; the technicians only when every row
   * could be built, naming properties through the properties just inserted;
   * and the vendors after them.
   */
  function InsertSetup(t: Tables, c: string, req: OnboardingRequest, ids: NewIds, summary: OnboardingSummary): Outcome
    requires SizesMatch(req, ids)
  {
    var properties := InsertRows(t.properties, ids.properties, PropertyRows(c, req.properties));
    match ValidateAll(req.technicians, TechnicianBuilder(properties, c, NameMap(req.properties, ids.properties)))
    case Err(e) => Outcome(t.(properties := properties), Err(e))
    case Ok(rows) =>
      Outcome(t.(properties := properties,
                 technicians := InsertRows(t.technicians, ids.technicians, rows),
                 vendors := InsertRows(t.vendors, ids.vendors, VendorRows(c, req.emergencyVendors))),
              Ok(OnboardingResponse(true, c, summary)))
  }

  /** The handler, which keeps the tenant rules of a consistent store. */
  method CompleteFirstTimeOnboarding(db: Db, userId: string, req: OnboardingRequest, actingEmail: string,
                                     link: AdminLink, ids: NewIds) returns (r: Result<OnboardingResponse>)
    requires ValidNewIds(TablesOf(db), db.units, db.workOrders, req, ids)
    modifies db`appUsers, db`companies, db`properties, db`technicians, db`vendors
    ensures Outcome(TablesOf(db), r) == Onboard(old(TablesOf(db)), userId, req, actingEmail, link, ids)
    ensures old(db.Consistent()) ==> db.Consistent()
  {
    if db.Consistent() {
      OnboardingKeepsConsistent(TablesOf(db), db.units, db.workOrders, userId, req, actingEmail, link, ids);
    }
    r := RunOnboarding(db, userId, req, actingEmail, link, ids);
  }

  /** The guards and the run-once check on `db`, then the writes. */
  method RunOnboarding(db: Db, userId: string, req: OnboardingRequest, actingEmail: string,
                       link: AdminLink, ids: NewIds) returns (r: Result<OnboardingResponse>)
    requires SizesMatch(req, ids)
    modifies db`appUsers, db`companies, db`properties, db`technicians, db`vendors
    ensures Outcome(TablesOf(db), r) == Onboard(old(TablesOf(db)), userId, req, actingEmail, link, ids)
  {
    ghost var out := Onboard(TablesOf(db), userId, req, actingEmail, link, ids);
    var company := ProvisionedCompany(db.appUsers, db.companies, userId, OnboardingGuards);
    if company.Err? {
      return Err(company.error);
    }
    var c := company.value;
    var existing := CompanyHasExistingRecords(db, c);
    if existing {
      return Err(HttpError(CONFLICT, AlreadyOnboarded));
    }
    assert out == WriteSetup(TablesOf(db), c, req, actingEmail, link, ids);
    r := WriteSetupInto(db, c, req, actingEmail, link, ids);
  }

  /** The settings write and the admin link on `db`, then the inserts. */
  method WriteSetupInto(db: Db, c: string, req: OnboardingRequest, actingEmail: string,
                        link: AdminLink, ids: NewIds) returns (r: Result<OnboardingResponse>)
    requires c in db.companies && SizesMatch(req, ids)
    modifies db`appUsers, db`companies, db`properties, db`technicians, db`vendors
    ensures Outcome(TablesOf(db), r) == WriteSetup(old(TablesOf(db)), c, req, actingEmail, link, ids)
  {
    var row := OnboardedCompany(db.companies[c], req);
    if row.Err? {
      return Err(row.error);
    }
    db.companies := db.companies[c := row.value];
    var admin := LinkAdmin(db.appUsers, c, req, actingEmail, link);
    if admin.Err? {
      return Err(admin.error);
    }
    db.appUsers := admin.value.0;
    r := InsertSetupInto(db, c, req, ids,
                         OnboardingSummary(SettingsOf(row.value), |ids.properties|, |ids.technicians|,
                                           |ids.vendors|, admin.value.1));
  }

  /** The three inserts on `db`. */
  method InsertSetupInto(db: Db, c: string, req: OnboardingRequest, ids: NewIds, summary: OnboardingSummary)
    returns (r: Result<OnboardingResponse>)
    requires SizesMatch(req, ids)
    modifies db`properties, db`technicians, db`vendors
    ensures Outcome(TablesOf(db), r) == InsertSetup(old(TablesOf(db)), c, req, ids, summary)
  {
    var names: map<string, string> := map[];
    if |req.properties| > 0 {
      db.properties := InsertRows(db.properties, ids.properties, PropertyRows(c, req.properties));
      names := BuildNameMap(req.properties, ids.properties);
    }
    if |req.technicians| > 0 {
      var built := BuildTechnicianRows(db.properties, c, names, req.technicians);
      if built.Err? {
        return Err(built.error);
      }
      db.technicians := InsertRows(db.technicians, ids.technicians, built.value);
    }
    if |req.emergencyVendors| > 0 {
      db.vendors := InsertRows(db.vendors, ids.vendors, VendorRows(c, req.emergencyVendors));
    }
    r := Ok(OnboardingResponse(true, c, summary));
  }

  // ----- What onboarding guarantees ---------------------------------------

  /** Nothing is written when the guards, the run-once check or the settings refuse the call. */
  lemma RefusalsWriteNothing(t: Tables, userId: string, req: OnboardingRequest, actingEmail: string,
                             link: AdminLink, ids: NewIds)
    requires SizesMatch(req, ids)
    ensures var g := ProvisionedCompany(t.appUsers, t.companies, userId, OnboardingGuards);
      var out := Onboard(t, userId, req, actingEmail, link, ids);
      (|| g.Err?
       || HasExistingRecords(t.properties, t.technicians, t.vendors, g.value)
       || OnboardedCompany(t.companies[g.value], req).Err?) ==> out.tables == t && out.result.Err?
  {
  }

  /** The call gets past the guards, the run-once check, the settings and the admin link. */
  predicate ReachesInserts(t: Tables, userId: string, req: OnboardingRequest, actingEmail: string, link: AdminLink) {
    var g := ProvisionedCompany(t.appUsers, t.companies, userId, OnboardingGuards);
    && g.Ok? && !HasExistingRecords(t.properties, t.technicians, t.vendors, g.value)
    && OnboardedCompany(t.companies[g.value], req).Ok?
    && LinkAdmin(t.appUsers, g.value, req, actingEmail, link).Ok?
  }

  /** What the earlier steps hand to the inserts: the company, the tables so far and the summary. */
  datatype SetupStart = SetupStart(c: string, tables: Tables, summary: OnboardingSummary)

  function StartOfInserts(t: Tables, userId: string, req: OnboardingRequest, actingEmail: string,
                          link: AdminLink, ids: NewIds): SetupStart
    requires ReachesInserts(t, userId, req, actingEmail, link)
  {
    var c := ProvisionedCompany(t.appUsers, t.companies, userId, OnboardingGuards).value;
    var row := OnboardedCompany(t.companies[c], req).value;
    var admin := LinkAdmin(t.appUsers, c, req, actingEmail, link).value;
    SetupStart(c, t.(companies := t.companies[c := row], appUsers := admin.0),
               OnboardingSummary(SettingsOf(row), |ids.properties|, |ids.technicians|, |ids.vendors|, admin.1))
  }

  /**
   * The two ways a call goes: refused before the inserts, with the three
   * inserted tables untouched, or the inserts on what the earlier steps left.
   */
  lemma OnboardSteps(t: Tables, userId: string, req: OnboardingRequest, actingEmail: string,
                     link: AdminLink, ids: NewIds)
    requires SizesMatch(req, ids)
    ensures var out := Onboard(t, userId, req, actingEmail, link, ids);
      && (!ReachesInserts(t, userId, req, actingEmail, link) ==>
            && out.result.Err? && out.tables.properties == t.properties
            && out.tables.technicians == t.technicians && out.tables.vendors == t.vendors)
      && (ReachesInserts(t, userId, req, actingEmail, link) ==>
            var st := StartOfInserts(t, userId, req, actingEmail, link, ids);
            out == InsertSetup(st.tables, st.c, req, ids, st.summary))
  {
    var g := ProvisionedCompany(t.appUsers, t.companies, userId, OnboardingGuards);
    var out := Onboard(t, userId, req, actingEmail, link, ids);
    if g.Err? || HasExistingRecords(t.properties, t.technicians, t.vendors, g.value) {
      assert out.tables == t;
    } else {
      var c := g.value;
      assert out == WriteSetup(t, c, req, actingEmail, link, ids);
      var row := OnboardedCompany(t.companies[c], req);
      if row.Ok? {
        var t1 := t.(companies := t.companies[c := row.value]);
        var admin := LinkAdmin(t1.appUsers, c, req, actingEmail, link);
        assert t1.appUsers == t.appUsers;
        if admin.Ok? {
          var st := StartOfInserts(t, userId, req, actingEmail, link, ids);
          assert st.tables == t1.(appUsers := admin.value.0);
        } else {
          assert out.tables == t1;
        }
      }
    }
  }

  /** The inserts leave the users and companies alone; a failure is a 422 and inserts no technician or vendor. */
  lemma InsertSetupFacts(t: Tables, c: string, req: OnboardingRequest, ids: NewIds, summary: OnboardingSummary)
    requires SizesMatch(req, ids)
    ensures var out := InsertSetup(t, c, req, ids, summary);
      && out.tables.appUsers == t.appUsers && out.tables.companies == t.companies
      && out.tables.properties == InsertRows(t.properties, ids.properties, PropertyRows(c, req.properties))
      && (out.result.Err? ==>
            && out.tables.technicians == t.technicians && out.tables.vendors == t.vendors
            && out.result.error.HttpError? && out.result.error.status == UNPROCESSABLE)
      && (out.result.Ok? ==> out.result.value == OnboardingResponse(true, c, summary))
  {
    var properties := InsertRows(t.properties, ids.properties, PropertyRows(c, req.properties));
    var names := NameMap(req.properties, ids.properties);
    var built := ValidateAll(req.technicians, TechnicianBuilder(properties, c, names));
    TechnicianRowsFailWith422(properties, c, names, req.technicians);
    if built.Err? {
      assert InsertSetup(t, c, req, ids, summary) == Outcome(t.(properties := properties), Err(built.error));
    } else {
      assert InsertSetup(t, c, req, ids, summary).result == Ok(OnboardingResponse(true, c, summary));
    }
  }

  /** A failed call inserts no technician and no vendor, whatever it wrote before failing. */
  lemma FailuresInsertNoStaff(t: Tables, userId: string, req: OnboardingRequest, actingEmail: string,
                              link: AdminLink, ids: NewIds)
    requires SizesMatch(req, ids)
    ensures var out := Onboard(t, userId, req, actingEmail, link, ids);
      out.result.Err? ==> out.tables.technicians == t.technicians && out.tables.vendors == t.vendors
  {
    OnboardSteps(t, userId, req, actingEmail, link, ids);
    if ReachesInserts(t, userId, req, actingEmail, link) {
      var st := StartOfInserts(t, userId, req, actingEmail, link, ids);
      InsertSetupFacts(st.tables, st.c, req, ids, st.summary);
    }
  }

  /**
   * The call is refused with 409 exactly when the caller's company is
   * provisioned and already has a property, a technician or a vendor: no other
   * failure is a 409.
   */
  lemma {:induction false} RefusedAsOnboardedExactly(t: Tables, userId: string, req: OnboardingRequest,
                                                     actingEmail: string, link: AdminLink, ids: NewIds)
    requires SizesMatch(req, ids)
    ensures var g := ProvisionedCompany(t.appUsers, t.companies, userId, OnboardingGuards);
      Onboard(t, userId, req, actingEmail, link, ids).result == Err(HttpError(CONFLICT, AlreadyOnboarded))
      <==> g.Ok? && HasExistingRecords(t.properties, t.technicians, t.vendors, g.value)
  {
    OnboardSteps(t, userId, req, actingEmail, link, ids);
    if ReachesInserts(t, userId, req, actingEmail, link) {
      var st := StartOfInserts(t, userId, req, actingEmail, link, ids);
      InsertSetupFacts(st.tables, st.c, req, ids, st.summary);
    }
  }

  /** Inserting at least one row that passes a filter gives the table a row that passes it. */
  lemma InsertedRowIsFound<R>(t: map<string, R>, ids: seq<string>, rows: seq<R>, keep: R -> bool)
    requires |ids| == |rows| && |ids| > 0
    requires forall i :: 0 <= i < |rows| ==> keep(rows[i])
    ensures HasRow(InsertRows(t, ids, rows), keep)
  {
    var u := InsertRows(t, ids, rows);
    InsertRowsFacts(t, ids, rows);
    assert ids[0] in ids;
    var i :| 0 <= i < |rows| && rows[i] == u[ids[0]];
  }

  /** Successful inserts of at least one row leave the company with records. */
  lemma {:induction false} InsertSetupCreatesRecords(t: Tables, c: string, req: OnboardingRequest, ids: NewIds,
                                                     summary: OnboardingSummary)
    requires SizesMatch(req, ids)
    requires InsertSetup(t, c, req, ids, summary).result.Ok?
    requires |req.properties| > 0 || |req.technicians| > 0 || |req.emergencyVendors| > 0
    ensures var after := InsertSetup(t, c, req, ids, summary).tables;
      HasExistingRecords(after.properties, after.technicians, after.vendors, c)
  {
    var after := InsertSetup(t, c, req, ids, summary).tables;
    var properties := InsertRows(t.properties, ids.properties, PropertyRows(c, req.properties));
    var names := NameMap(req.properties, ids.properties);
    var f := TechnicianBuilder(properties, c, names);
    var rows := ValidateAll(req.technicians, f).value;
    if |req.properties| > 0 {
      InsertedRowIsFound(t.properties, ids.properties, PropertyRows(c, req.properties), PropertyOfCompany(c));
    } else if |req.technicians| > 0 {
      forall i | 0 <= i < |rows| ensures TechnicianRoutes.TechnicianOfCompany(c)(rows[i]) {
        assert f(req.technicians[i]).Ok?;
      }
      InsertedRowIsFound(t.technicians, ids.technicians, rows, TechnicianRoutes.TechnicianOfCompany(c));
    } else {
      InsertedRowIsFound(t.vendors, ids.vendors, VendorRows(c, req.emergencyVendors), VendorOfCompany(c));
    }
  }

  /**
   * Onboarding runs once: after a successful call that created at least one
   * property, technician or vendor, the same caller's next call is refused
   * with 409, whatever it asks for.
   */
  lemma {:induction false} OnboardingRunsOnce(t: Tables, userId: string, req: OnboardingRequest, actingEmail: string,
                                              link: AdminLink, ids: NewIds,
                                              req2: OnboardingRequest, actingEmail2: string, link2: AdminLink, ids2: NewIds)
    requires SizesMatch(req, ids) && SizesMatch(req2, ids2)
    requires Onboard(t, userId, req, actingEmail, link, ids).result.Ok?
    requires |req.properties| > 0 || |req.technicians| > 0 || |req.emergencyVendors| > 0
    ensures var after := Onboard(t, userId, req, actingEmail, link, ids).tables;
      Onboard(after, userId, req2, actingEmail2, link2, ids2).result == Err(HttpError(CONFLICT, AlreadyOnboarded))
  {
    OnboardSteps(t, userId, req, actingEmail, link, ids);
    var st := StartOfInserts(t, userId, req, actingEmail, link, ids);
    var c := st.c;
    StartOfInsertsFacts(t, userId, req, actingEmail, link, ids);
    InsertSetupFacts(st.tables, c, req, ids, st.summary);
    InsertSetupCreatesRecords(st.tables, c, req, ids, st.summary);
    var after := InsertSetup(st.tables, c, req, ids, st.summary).tables;
    assert after.appUsers == st.tables.appUsers && after.companies == st.tables.companies;
    RefusedAsOnboardedExactly(after, userId, req2, actingEmail2, link2, ids2);
  }

  /**
   * A successful call that creates nothing leaves the company without
   * records, so the status still reports onboarding as not completed and the
   * call can be made again.
   */
  lemma EmptyOnboardingRepeats(t: Tables, userId: string, req: OnboardingRequest, actingEmail: string,
                               link: AdminLink, ids: NewIds)
    requires SizesMatch(req, ids)
    requires Onboard(t, userId, req, actingEmail, link, ids).result.Ok?
    requires req.properties == [] && req.technicians == [] && req.emergencyVendors == []
    ensures var out := Onboard(t, userId, req, actingEmail, link, ids);
      !HasExistingRecords(out.tables.properties, out.tables.technicians, out.tables.vendors, out.result.value.companyId)
  {
    OnboardSteps(t, userId, req, actingEmail, link, ids);
    var st := StartOfInserts(t, userId, req, actingEmail, link, ids);
    InsertSetupFacts(st.tables, st.c, req, ids, st.summary);
  }

  /** The store hands back distinct ids within each insert. */
  predicate DistinctNewIds(ids: NewIds) {
    Distinct(ids.properties) && Distinct(ids.technicians) && Distinct(ids.vendors)
  }

  /** Successful inserts store each requested property, technician and vendor under its new id. */
  lemma {:induction false} InsertSetupStores(t: Tables, c: string, req: OnboardingRequest, ids: NewIds,
                                             summary: OnboardingSummary)
    requires SizesMatch(req, ids) && DistinctNewIds(ids)
    requires InsertSetup(t, c, req, ids, summary).result.Ok?
    ensures var after := InsertSetup(t, c, req, ids, summary).tables;
      && (forall i :: 0 <= i < |req.properties| ==>
            && ids.properties[i] in after.properties
            && after.properties[ids.properties[i]]
               == PropertyRow(c, req.properties[i].name, req.properties[i].address, req.properties[i].notes))
      && (forall i :: 0 <= i < |req.technicians| ==>
            && ids.technicians[i] in after.technicians
            && after.technicians[ids.technicians[i]].companyId == c
            && after.technicians[ids.technicians[i]].firstName == req.technicians[i].firstName
            && after.technicians[ids.technicians[i]].lastName == req.technicians[i].lastName
            && after.technicians[ids.technicians[i]].meritPercent == StoredMerit(req.technicians[i].meritPercent))
      && (forall i :: 0 <= i < |req.emergencyVendors| ==>
            && ids.vendors[i] in after.vendors
            && after.vendors[ids.vendors[i]]
               == VendorRow(c, req.emergencyVendors[i].category.Name(), req.emergencyVendors[i].name,
                            req.emergencyVendors[i].phone))
  {
    var properties := InsertRows(t.properties, ids.properties, PropertyRows(c, req.properties));
    var f := TechnicianBuilder(properties, c, NameMap(req.properties, ids.properties));
    var rows := ValidateAll(req.technicians, f).value;
    var after := InsertSetup(t, c, req, ids, summary).tables;
    assert after.properties == properties;
    assert after.technicians == InsertRows(t.technicians, ids.technicians, rows);
    assert after.vendors == InsertRows(t.vendors, ids.vendors, VendorRows(c, req.emergencyVendors));
    InsertRowsAt(t.properties, ids.properties, PropertyRows(c, req.properties));
    InsertRowsAt(t.technicians, ids.technicians, rows);
    InsertRowsAt(t.vendors, ids.vendors, VendorRows(c, req.emergencyVendors));
    forall i | 0 <= i < |req.technicians|
      ensures rows[i].companyId == c && rows[i].firstName == req.technicians[i].firstName
      ensures rows[i].lastName == req.technicians[i].lastName
      ensures rows[i].meritPercent == StoredMerit(req.technicians[i].meritPercent)
    {
      assert f(req.technicians[i]).Ok?;
    }
  }

  /** What the steps before the inserts leave: the settings row, the totals, and a caller who can still read. */
  lemma StartOfInsertsFacts(t: Tables, userId: string, req: OnboardingRequest, actingEmail: string,
                            link: AdminLink, ids: NewIds)
    requires ReachesInserts(t, userId, req, actingEmail, link)
    ensures var st := StartOfInserts(t, userId, req, actingEmail, link, ids);
      var c := st.c;
      && ProvisionedCompany(t.appUsers, t.companies, userId, OnboardingGuards) == Ok(c)
      && st.tables.companies == t.companies[c := OnboardedCompany(t.companies[c], req).value]
      && st.summary.settings == SettingsOf(st.tables.companies[c])
      && st.summary.propertiesTotal == |ids.properties| && st.summary.techniciansTotal == |ids.technicians|
      && st.summary.emergencyVendorsTotal == |ids.vendors|
      && ProvisionedCompany(st.tables.appUsers, st.tables.companies, userId, StatusGuards) == Ok(c)
      && ProvisionedCompany(st.tables.appUsers, st.tables.companies, userId, OnboardingGuards) == Ok(c)
  {
  }

  /**
   * What a successful call stores and answers: the settings row, each
   * requested property, technician and vendor under its new id, the totals,
   * and a summary equal to what the status shows for the new company row,
   * which the caller can still read.
   */
  lemma {:induction false} OnboardingStoresRequest(t: Tables, userId: string, req: OnboardingRequest,
                                                   actingEmail: string, link: AdminLink, ids: NewIds)
    requires SizesMatch(req, ids) && DistinctNewIds(ids)
    requires Onboard(t, userId, req, actingEmail, link, ids).result.Ok?
    ensures var out := Onboard(t, userId, req, actingEmail, link, ids);
      var c := out.result.value.companyId;
      var s := out.result.value.summary;
      && ProvisionedCompany(t.appUsers, t.companies, userId, OnboardingGuards) == Ok(c)
      && out.tables.companies == t.companies[c := OnboardedCompany(t.companies[c], req).value]
      && s.settings == SettingsOf(out.tables.companies[c])
      && s.propertiesTotal == |req.properties| && s.techniciansTotal == |req.technicians|
      && s.emergencyVendorsTotal == |req.emergencyVendors|
      && (forall i :: 0 <= i < |req.properties| ==>
            && ids.properties[i] in out.tables.properties
            && out.tables.properties[ids.properties[i]]
               == PropertyRow(c, req.properties[i].name, req.properties[i].address, req.properties[i].notes))
      && (forall i :: 0 <= i < |req.technicians| ==>
            && ids.technicians[i] in out.tables.technicians
            && out.tables.technicians[ids.technicians[i]].companyId == c
            && out.tables.technicians[ids.technicians[i]].firstName == req.technicians[i].firstName
            && out.tables.technicians[ids.technicians[i]].lastName == req.technicians[i].lastName
            && out.tables.technicians[ids.technicians[i]].meritPercent == StoredMerit(req.technicians[i].meritPercent))
      && (forall i :: 0 <= i < |req.emergencyVendors| ==>
            && ids.vendors[i] in out.tables.vendors
            && out.tables.vendors[ids.vendors[i]]
               == VendorRow(c, req.emergencyVendors[i].category.Name(), req.emergencyVendors[i].name,
                            req.emergencyVendors[i].phone))
      && ProvisionedCompany(out.tables.appUsers, out.tables.companies, userId, StatusGuards) == Ok(c)
  {
    OnboardSteps(t, userId, req, actingEmail, link, ids);
    var st := StartOfInserts(t, userId, req, actingEmail, link, ids);
    StartOfInsertsFacts(t, userId, req, actingEmail, link, ids);
    InsertSetupFacts(st.tables, st.c, req, ids, st.summary);
    InsertSetupStores(st.tables, st.c, req, ids, st.summary);
  }

  /** No row points at a fresh id, and no table has one. */
  lemma FreshIdsUnreferenced(t: Tables, units: map<string, UnitRow>, workOrders: map<string, WorkOrderRow>,
                             given: seq<string>)
    requires forall i :: 0 <= i < |given| ==> FreshId(t, units, workOrders, given[i])
    ensures forall k :: k in given ==> k !in t.properties && k !in t.technicians && k !in t.vendors
    ensures forall u :: u in units.Values ==> u.propertyId !in given
    ensures forall r :: r in t.technicians.Values ==> r.defaultPropertyId.None? || r.defaultPropertyId.value !in given
    ensures forall w :: w in workOrders.Values ==>
      w.propertyId !in given && (w.assignedTechnicianId.None? || w.assignedTechnicianId.value !in given)
  {
    assert forall k :: k in given ==> FreshId(t, units, workOrders, k) by {
      forall k | k in given ensures FreshId(t, units, workOrders, k) {
        var i :| 0 <= i < |given| && given[i] == k;
      }
    }
  }

  /** The properties inserted by onboarding keep the tenant rules, and belong to the company. */
  lemma PropertyInsertKeepsConsistent(t: Tables, units: map<string, UnitRow>, workOrders: map<string, WorkOrderRow>,
                                      c: string, req: OnboardingRequest, ids: NewIds)
    requires ValidNewIds(t, units, workOrders, req, ids)
    requires TenantConsistent(t.properties, units, t.technicians, workOrders)
    ensures var properties := InsertRows(t.properties, ids.properties, PropertyRows(c, req.properties));
      && TenantConsistent(properties, units, t.technicians, workOrders)
      && (forall i :: 0 <= i < |ids.properties| ==> OwnsProperty(properties, ids.properties[i], c))
  {
    var rows := PropertyRows(c, req.properties);
    var properties := InsertRows(t.properties, ids.properties, rows);
    InsertRowsFacts(t.properties, ids.properties, rows);
    FreshIdsUnreferenced(t, units, workOrders, ids.properties);
    forall k | k in properties && k in ids.properties ensures properties[k].companyId == c {
      var i :| 0 <= i < |rows| && rows[i] == properties[k];
    }
    forall id | id in units && units[id].propertyId in properties
      ensures properties[units[id].propertyId].companyId == units[id].companyId
    {
      assert units[id] in units.Values;
    }
    forall id | id in t.technicians && t.technicians[id].defaultPropertyId.Some?
                && t.technicians[id].defaultPropertyId.value in properties
      ensures properties[t.technicians[id].defaultPropertyId.value].companyId == t.technicians[id].companyId
    {
      assert t.technicians[id] in t.technicians.Values;
    }
    forall id | id in workOrders && workOrders[id].propertyId in properties
      ensures properties[workOrders[id].propertyId].companyId == workOrders[id].companyId
    {
      assert workOrders[id] in workOrders.Values;
    }
    forall i | 0 <= i < |ids.properties| ensures OwnsProperty(properties, ids.properties[i], c) {
      assert ids.properties[i] in ids.properties;
    }
  }

  /** The technicians inserted by onboarding keep the tenant rules. */
  lemma TechnicianInsertKeepsConsistent(t: Tables, units: map<string, UnitRow>, workOrders: map<string, WorkOrderRow>,
                                        properties: map<string, PropertyRow>, c: string, req: OnboardingRequest,
                                        ids: NewIds, rows: seq<TechnicianRow>)
    requires ValidNewIds(t, units, workOrders, req, ids)
    requires TenantConsistent(properties, units, t.technicians, workOrders)
    requires |rows| == |ids.technicians|
    requires forall i :: 0 <= i < |rows| ==> rows[i].companyId == c
    requires forall i :: 0 <= i < |rows| ==> rows[i].defaultPropertyId.Some? ==>
      OwnsProperty(properties, rows[i].defaultPropertyId.value, c)
    ensures TenantConsistent(properties, units, InsertRows(t.technicians, ids.technicians, rows), workOrders)
  {
    var technicians := InsertRows(t.technicians, ids.technicians, rows);
    InsertRowsFacts(t.technicians, ids.technicians, rows);
    FreshIdsUnreferenced(t, units, workOrders, ids.technicians);
    forall k | k in technicians && k in ids.technicians
      ensures technicians[k].companyId == c
      ensures technicians[k].defaultPropertyId.Some? ==> OwnsProperty(properties, technicians[k].defaultPropertyId.value, c)
    {
      var i :| 0 <= i < |rows| && rows[i] == technicians[k];
    }
    forall id | id in workOrders && workOrders[id].assignedTechnicianId.Some?
                && workOrders[id].assignedTechnicianId.value in technicians
      ensures technicians[workOrders[id].assignedTechnicianId.value].companyId == workOrders[id].companyId
    {
      assert workOrders[id] in workOrders.Values;
    }
  }

  /** The inserts keep the tenant rules, a technician naming its property through the new ones. */
  lemma {:induction false} InsertSetupKeepsConsistent(t: Tables, units: map<string, UnitRow>,
                                                      workOrders: map<string, WorkOrderRow>, c: string,
                                                      req: OnboardingRequest, ids: NewIds, summary: OnboardingSummary)
    requires ValidNewIds(t, units, workOrders, req, ids)
    requires TenantConsistent(t.properties, units, t.technicians, workOrders)
    ensures var out := InsertSetup(t, c, req, ids, summary);
      TenantConsistent(out.tables.properties, units, out.tables.technicians, workOrders)
  {
    var properties := InsertRows(t.properties, ids.properties, PropertyRows(c, req.properties));
    PropertyInsertKeepsConsistent(t, units, workOrders, c, req, ids);
    var names := NameMap(req.properties, ids.properties);
    KeyMapFacts(PropertyKeys(req.properties), ids.properties);
    var f := TechnicianBuilder(properties, c, names);
    var built := ValidateAll(req.technicians, f);
    if built.Ok? {
      var rows := built.value;
      forall k | k in names ensures names[k] == "" || OwnsProperty(properties, names[k], c) {
        var i :| 0 <= i < |ids.properties| && ids.properties[i] == names[k];
      }
      forall i | 0 <= i < |rows|
        ensures rows[i].companyId == c
        ensures rows[i].defaultPropertyId.Some? ==> OwnsProperty(properties, rows[i].defaultPropertyId.value, c)
      {
        assert f(req.technicians[i]).Ok?;
        ResolvedIsOwnProperty(properties, c, names, req.technicians[i].defaultProperty);
      }
      TechnicianInsertKeepsConsistent(t, units, workOrders, properties, c, req, ids, rows);
    }
  }

  /** Onboarding keeps the tenant rules, on success and after a partial write alike. */
  lemma {:induction false} OnboardingKeepsConsistent(t: Tables, units: map<string, UnitRow>,
                                                     workOrders: map<string, WorkOrderRow>, userId: string,
                                                     req: OnboardingRequest, actingEmail: string, link: AdminLink, ids: NewIds)
    requires ValidNewIds(t, units, workOrders, req, ids)
    requires TenantConsistent(t.properties, units, t.technicians, workOrders)
    ensures var out := Onboard(t, userId, req, actingEmail, link, ids);
      TenantConsistent(out.tables.properties, units, out.tables.technicians, workOrders)
  {
    OnboardSteps(t, userId, req, actingEmail, link, ids);
    if ReachesInserts(t, userId, req, actingEmail, link) {
      var st := StartOfInserts(t, userId, req, actingEmail, link, ids);
      var t1 := st.tables;
      assert t1.properties == t.properties && t1.technicians == t.technicians && t1.vendors == t.vendors;
      NewIdsStayValid(t, t1, units, workOrders, req, ids);
      InsertSetupKeepsConsistent(t1, units, workOrders, st.c, req, ids, st.summary);
    }
  }

  /** Whether ids are fresh depends only on the rows of the three inserted tables. */
  lemma NewIdsStayValid(t: Tables, t1: Tables, units: map<string, UnitRow>, workOrders: map<string, WorkOrderRow>,
                        req: OnboardingRequest, ids: NewIds)
    requires ValidNewIds(t, units, workOrders, req, ids)
    requires t1.properties == t.properties && t1.technicians == t.technicians && t1.vendors == t.vendors
    ensures ValidNewIds(t1, units, workOrders, req, ids)
  {
    assert forall id :: FreshId(t, units, workOrders, id) ==> FreshId(t1, units, workOrders, id);
  }

  // ----- The status read-back ---------------------------------------------

  datatype PropertySummary = PropertySummary(id: string, name: string, address: string, notes: Option<string>)

  datatype TechnicianSummary = TechnicianSummary(
    id: string, firstName: string, lastName: string, email: Option<string>, phone: Option<string>,
    shift: Option<string>, defaultPropertyId: Option<string>, defaultPropertyName: Option<string>)

  datatype VendorSummary = VendorSummary(id: string, category: string, name: string, phone: Option<string>)

  datatype OnboardingStatus = OnboardingStatus(
    companyId: string, settings: Settings, timezoneLabel: string,
    properties: seq<PropertySummary>, technicians: seq<TechnicianSummary>, emergencyVendors: seq<VendorSummary>,
    onboardingCompleted: bool)

  function PropertySummaryOf(e: Entry<PropertyRow>): PropertySummary {
    PropertySummary(e.id, e.row.name, e.row.address, e.row.notes)
  }

  function TechnicianSummaryOf(e: Entry<TechnicianRow>, propertyName: Option<string>): TechnicianSummary {
    TechnicianSummary(e.id, e.row.firstName, e.row.lastName, e.row.email, e.row.phone, e.row.shift,
                      e.row.defaultPropertyId, propertyName)
  }

  function VendorSummaryOf(e: Entry<VendorRow>): VendorSummary {
    VendorSummary(e.id, e.row.category, e.row.name, e.row.phone)
  }

  /** The name the status shows for a default property: only a property of the company has one. */
  function CompanyPropertyName(properties: map<string, PropertyRow>, c: string, home: Option<string>): (name: Option<string>)
    ensures name.Some? <==> home.Some? && OwnsProperty(properties, home.value, c)
    ensures name.Some? ==> name.value == properties[home.value].name
  {
    if home.Some? && OwnsProperty(properties, home.value, c) then Some(properties[home.value].name) else None
  }

  /** `property_map.get(default_property_id, {}).get("name")`. */
  function LookupName(propertyMap: map<string, PropertyRow>, home: Option<string>): Option<string> {
    if home.Some? && home.value in propertyMap then Some(propertyMap[home.value].name) else None
  }

  function PropertySummaries(ps: seq<Entry<PropertyRow>>): (out: seq<PropertySummary>)
    ensures |out| == |ps| && forall i :: 0 <= i < |ps| ==> out[i] == PropertySummaryOf(ps[i])
  {
    seq(|ps|, i requires 0 <= i < |ps| => PropertySummaryOf(ps[i]))
  }

  /** The technicians of the status, each with the name its default property has in `propertyMap`. */
  function TechnicianSummaries(ts: seq<Entry<TechnicianRow>>, propertyMap: map<string, PropertyRow>): (out: seq<TechnicianSummary>)
    ensures |out| == |ts|
    ensures forall i :: 0 <= i < |ts| ==> out[i] == TechnicianSummaryOf(ts[i], LookupName(propertyMap, ts[i].row.defaultPropertyId))
  {
    seq(|ts|, i requires 0 <= i < |ts| => TechnicianSummaryOf(ts[i], LookupName(propertyMap, ts[i].row.defaultPropertyId)))
  }

  function VendorSummaries(vs: seq<Entry<VendorRow>>): (out: seq<VendorSummary>)
    ensures |out| == |vs| && forall i :: 0 <= i < |vs| ==> out[i] == VendorSummaryOf(vs[i])
  {
    seq(|vs|, i requires 0 <= i < |vs| => VendorSummaryOf(vs[i]))
  }

  /** Looking a default property up among the company's listed properties finds exactly the company's own. */
  lemma LookupNameMatches(ps: seq<Entry<PropertyRow>>, properties: map<string, PropertyRow>, c: string)
    requires ListsExactly(ps, properties, PropertyOfCompany(c)) && DistinctIds(ps)
    ensures forall home :: LookupName(IdMap(ps), home) == CompanyPropertyName(properties, c, home)
  {
    IdMapOfSelection(ps, properties, PropertyOfCompany(c));
    forall home ensures LookupName(IdMap(ps), home) == CompanyPropertyName(properties, c, home) {
      if home.Some? && home.value in IdMap(ps) {
        assert OwnsProperty(properties, home.value, c);
      }
    }
  }

  /**
   * `get_onboarding_status`: the same guards with shorter messages, then the
   * company's settings, its properties, technicians and vendors (in the order
   * the store returns them), and whether onboarding is completed, which is
   * whether any of the three lists is non-empty.
   */
  method GetOnboardingStatus(db: Db, userId: string)
    returns (r: Result<OnboardingStatus>, ghost props: seq<Entry<PropertyRow>>,
             ghost techs: seq<Entry<TechnicianRow>>, ghost vendors: seq<Entry<VendorRow>>)
    ensures var g := ProvisionedCompany(db.appUsers, db.companies, userId, StatusGuards);
      (g.Err? ==> r == Err(g.error)) && (g.Ok? ==> r.Ok? && r.value.companyId == g.value)
    ensures r.Ok? ==>
      var c := r.value.companyId;
      var s := r.value;
      && c in db.companies
      && ListsExactly(props, db.properties, PropertyOfCompany(c)) && DistinctIds(props)
      && ListsExactly(techs, db.technicians, TechnicianRoutes.TechnicianOfCompany(c)) && DistinctIds(techs)
      && ListsExactly(vendors, db.vendors, VendorOfCompany(c)) && DistinctIds(vendors)
      && s.settings == SettingsOf(db.companies[c])
      && s.timezoneLabel == TimezoneLabel(s.settings.timezone)
      && |s.properties| == |props| && |s.technicians| == |techs| && |s.emergencyVendors| == |vendors|
      && (forall i :: 0 <= i < |props| ==> s.properties[i] == PropertySummaryOf(props[i]))
      && (forall i :: 0 <= i < |techs| ==>
            s.technicians[i]
            == TechnicianSummaryOf(techs[i], CompanyPropertyName(db.properties, c, techs[i].row.defaultPropertyId)))
      && (forall i :: 0 <= i < |vendors| ==> s.emergencyVendors[i] == VendorSummaryOf(vendors[i]))
      && s.onboardingCompleted == HasExistingRecords(db.properties, db.technicians, db.vendors, c)
  {
    props, techs, vendors := [], [], [];
    var company := ProvisionedCompany(db.appUsers, db.companies, userId, StatusGuards);
    if company.Err? {
      return Err(company.error), props, techs, vendors;
    }
    var c := company.value;
    var ps := Select(db.properties, PropertyOfCompany(c));
    var ts := Select(db.technicians, TechnicianRoutes.TechnicianOfCompany(c));
    var vs := Select(db.vendors, VendorOfCompany(c));
    props, techs, vendors := ps, ts, vs;
    var propertyMap := IdMap(ps);
    LookupNameMatches(ps, db.properties, c);
    SelectionNonEmpty(ps, db.properties, PropertyOfCompany(c));
    SelectionNonEmpty(ts, db.technicians, TechnicianRoutes.TechnicianOfCompany(c));
    SelectionNonEmpty(vs, db.vendors, VendorOfCompany(c));
    var settings := SettingsOf(db.companies[c]);
    var technicians := TechnicianSummaries(ts, propertyMap);
    assert forall i :: 0 <= i < |ts| ==>
      technicians[i] == TechnicianSummaryOf(ts[i], CompanyPropertyName(db.properties, c, ts[i].row.defaultPropertyId));
    r := Ok(OnboardingStatus(
      c, settings, TimezoneLabel(settings.timezone),
      PropertySummaries(ps), technicians, VendorSummaries(vs),
      |ps| > 0 || |ts| > 0 || |vs| > 0));
  }

  /** Both handlers admit the same callers and work on the same company; only their messages differ. */
  lemma GuardsAgree(appUsers: map<string, AppUser>, companies: map<string, Company>, userId: string)
    ensures ProvisionedCompany(appUsers, companies, userId, OnboardingGuards).Ok?
        <==> ProvisionedCompany(appUsers, companies, userId, StatusGuards).Ok?
    ensures ProvisionedCompany(appUsers, companies, userId, OnboardingGuards).Ok? ==>
      ProvisionedCompany(appUsers, companies, userId, OnboardingGuards).value
      == ProvisionedCompany(appUsers, companies, userId, StatusGuards).value
  {
  }
}
