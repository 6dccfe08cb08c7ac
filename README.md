# DispatchIQ backend core in Dafny

DispatchIQ is a multi-tenant back end for property-maintenance dispatch.
Every signed-up user belongs to one company. The company owns properties,
units inside those properties, technicians, emergency vendors and work orders.
Every endpoint first works out the caller's company and then touches only
that company's rows.

This project models the core of that back end and proves properties of it:

- **Onboarding.** The one-time onboarding of a company: the request
  validator, work-hour and time-zone normalisation, the run-once check, the
  admin account link, and the bulk inserts of properties, technicians and
  emergency vendors. Technicians may name their default property by the
  name of a property in the same request. The status read-back is modelled
  as well.
- **Work orders.** The work-order service: the options for the creation
  form, creation with the unit found or created on the fly, the filtered,
  newest-first, paged listing, and the assignment/status update.
- **Property, unit and technician endpoints.** Company-scoped listings, and
  inserts, partial updates and deletes guarded by ownership.
- **Authentication rules.** The password-strength policy before sign-up, the
  blank-token guard of email verification, and the claims of a refreshed
  token pair.

The database is a class `Store.Db` with one map per table, from row id to
row. Each handler is a method that changes only the tables it writes. It is
proved against a specification: what it returns, and which rows it adds,
rewrites or deletes. The queries the handlers issue are modelled as follows:

- A query with `ORDER BY` is `Listing.Listed`: the unique listing of the
  selected rows under a total order. Ties are broken by row id.
- A query without an order is `Listing.Select`: each selected row once, in
  some order.
- Pydantic request models are validation functions returning `Result`.
- HTTP errors are `Wrappers.HttpError(status, detail)` values, carrying the
  source's status codes and detail texts.

The tenant rules (`Store.TenantConsistent`) state what must hold between
tables: a unit, a technician's default property and a work order's property,
unit and technician all belong to the row's own company. Every write the
handlers make is proved to keep them.

Modules and files:

| module | file | role |
|---|---|---|
| `Wrappers` | wrappers.dfy | `Option`, `Result`, the error values and status codes |
| `Text` | text.dfy | `str.strip`, pydantic's trimming, ASCII lower-casing, code-point order |
| `Clock` | clock.dfy | `strptime`/`strftime` for "%H:%M" and "%H:%M:%S"; time normalisation |
| `Timezone` | timezone.dfy | the time-zone aliases and their normalisation |
| `Uuid` | uuid.dfy | the UUID regular expression and placeholders; `str(uuid.UUID(v))` |
| `Auth` | auth.dfy | `auth_service.py` |
| `Validation` | validation.dfy | trimmed string fields; validating a list field |
| `OnboardingModels` | onboarding_models.dfy | `app/models/onboarding.py` |
| `WorkOrderModels` | work_order_models.dfy | `app/models/work_orders.py` |
| `Listing` | listing.dfy | filtered and ordered selects, pages |
| `Store` | store.dfy | tables, tenant rules, the caller's company |
| `PropertyRoutes` | property_routes.dfy | `routes_properties.py` |
| `TechnicianRoutes` | technician_routes.dfy | `routes_technicians.py` |
| `WorkOrders` | work_orders.dfy | `work_order_service.py` |
| `Onboarding` | onboarding.dfy | `onboarding_service.py` |

## Model

| member | source | states |
|---|---|---|
| Text.StripBySlice | app/services/onboarding_service.py:75 | the stripped result is a slice of the input; everything cut off on either side is of the class, and the result has no character of the class at either end |
| Text.StripByIdempotent | app/services/onboarding_service.py:75 | stripping a stripped string changes nothing |
| Text.Lower | app/services/onboarding_service.py:305 | same length; every character is its lower-cased counterpart |
| Text.LowerIdempotent | app/services/onboarding_service.py:305 | lower-casing twice is lower-casing once |
| Text.LexLeTotal | app/services/work_order_service.py:60 | code-point order relates any two strings |
| Text.LexLeAntisymmetric | app/services/work_order_service.py:60 | strings ordered both ways are equal |
| Text.LexLeTransitive | app/services/work_order_service.py:60 | code-point order is transitive |
| Clock.Split | app/services/onboarding_service.py:49 | `str.split`: the pieces hold no separator, and joining them with it gives the input |
| Clock.Strptime | app/services/onboarding_service.py:49 | a parsed time is in range; "%H:%M" gives seconds 0 |
| Clock.ParsePrinted | app/services/onboarding_service.py:49-50 | parsing what `strftime` printed gives the time back |
| Clock.NormalizedTime | app/services/onboarding_service.py:45-56 | success exactly when one of the two formats parses; the stored value is canonical "HH:MM:SS"; otherwise a 422 quoting the field |
| Clock.NormalizeTime | app/services/onboarding_service.py:45-56 | the loop over the formats returns exactly `NormalizedTime` |
| Clock.NormalizedTimeValue | app/services/onboarding_service.py:47-52 | the stored value prints the parsed time, with seconds 0 for an "HH:MM" input |
| Clock.MinutesAndSecondsAgree | app/services/onboarding_service.py:45-56 | "HH:MM" and "HH:MM:00" are stored alike |
| Clock.NormalizedTimeIdempotent | app/services/onboarding_service.py:45-56 | normalising a stored value returns it unchanged |
| Clock.FormatTimeForResponse | app/services/onboarding_service.py:59-69 | "00:00" for a missing or empty value; "HH:MM" when a format parses; otherwise the value unchanged |
| Clock.FormatStoredTime | app/services/onboarding_service.py:59-69 | a stored "HH:MM:SS" renders as its hours and minutes |
| Clock.NormalizeThenFormat | app/services/onboarding_service.py:45-69 | normalise-then-render shows the parsed hours and minutes of every accepted value |
| Timezone.ReverseIsInverse | app/services/onboarding_service.py:24-30 | the reverse table is exactly the inverse of the alias table |
| Timezone.ZonesAreNotLabels | app/services/onboarding_service.py:24-29 | no canonical zone is also a label |
| Timezone.NamesAreDisjointAndStripped | app/services/onboarding_service.py:24-29 | labels and zones are disjoint and have no white space at their ends |
| Timezone.NormalizeTimezone | app/services/onboarding_service.py:72-83 | missing or empty value gives the fallback; a label maps to its zone; a zone is kept; anything else is a 422; a non-empty accepted value gives a canonical zone |
| Timezone.NormalizeTimezoneIdempotent | app/services/onboarding_service.py:72-83 | a normalised zone normalises to itself, whatever the fallback |
| Timezone.TimezoneLabel | app/services/onboarding_service.py:484-485 | a zone with an alias shows that label; any other value shows itself |
| Timezone.LabelRoundTrip | app/services/onboarding_service.py:484-485 | a label given at onboarding is shown back as that label |
| Uuid.StrippedMatchIsShape | app/services/onboarding_service.py:21 | on a stripped string the pattern accepts exactly the 8-4-4-4-12 hex shape |
| Uuid.ShapeIsNotPlaceholder | app/services/onboarding_service.py:22 | no value of the UUID shape is a placeholder |
| Uuid.CleanOptionalUuid | app/services/onboarding_service.py:126-137 | none for a missing value or a placeholder; otherwise the stripped value when it has the UUID shape, else a 422 quoting the raw value |
| Uuid.CleanOptionalUuidIdempotent | app/services/onboarding_service.py:126-137 | a cleaned id cleans to itself |
| Uuid.UuidDigits | app/services/work_order_service.py:140-147 | what `uuid.UUID` reads: exactly 32 hex digits once the prefixes, braces and hyphens are gone |
| Uuid.NormalizeUuid | app/services/work_order_service.py:140-147 | success exactly when 32 hex digits remain; the result is the canonical lower-case hyphenated form; otherwise a 422 naming the field |
| Uuid.NormalizeShapedUuid | app/services/work_order_service.py:140-147 | a value of the UUID shape normalises to its lower-cased self |
| Uuid.NormalizeCanonicalUuid | app/services/work_order_service.py:140-147 | a canonical id normalises to itself |
| Uuid.NormalizeUuidIdempotent | app/services/work_order_service.py:140-147 | normalising a normalised id changes nothing |
| Uuid.NormalizeIgnoresCase | app/services/work_order_service.py:140-147 | upper- and lower-case spellings normalise alike |
| Uuid.NormalizeBracedUuid | app/services/work_order_service.py:140-147 | a braced id normalises like the bare one |
| Uuid.CleanedIsNormalizable | app/services/onboarding_service.py:126-137 | every id the onboarding cleaner accepts normalises to its lower-cased self in the work-order service |
| Auth.FirstLine | app/services/auth_service.py:10 | a newline-free prefix followed by a newline or the end |
| Auth.FirstLineUnique | app/services/auth_service.py:10 | any such prefix is the first line |
| Auth.LookaheadIffFirstLineHas | app/services/auth_service.py:10 | a lookahead `(?=.*X)` succeeds exactly when the first line has a character of class X |
| Auth.PasswordRegexSemantics | app/services/auth_service.py:10-13 | `PASSWORD_REGEX.match` accepts exactly a first line of 8-64 characters with every class, which is the whole password or is followed by one final newline |
| Auth.StrengthAgreesWithoutNewline | app/services/auth_service.py:10-13 | on newline-free passwords the corrected policy and the written regex agree |
| Auth.StrengthImpliesRegex | app/services/auth_service.py:10-13 | every password the corrected policy accepts, the written regex accepts |
| Auth.StrengthLengthBounds | app/services/auth_service.py:10 | passwords under 8 or over 64 characters fail the corrected policy |
| Auth.RegexAcceptsTrailingNewline | app/services/auth_service.py:10 | a strong password plus "\n" passes the written regex and fails the corrected policy |
| Auth.SixtyFiveCharacterPasswordAccepted | app/services/auth_service.py:10 | a concrete 65-character password passes the written check |
| Auth.SignupUser | app/services/auth_service.py:15-38 | a password the written regex refuses is a `ValueError` and no sign-up request is sent; otherwise exactly one request with that email and password is sent and the provider's answer decides the result; every password the corrected policy accepts is sent, and a newline-free one it refuses is not |
| Auth.VerificationToken | app/services/auth_service.py:119-127 | 400 "Verification token is required" exactly when the token is empty or blank; otherwise the stripped token |
| Auth.RefreshAccessToken | app/services/auth_service.py:74-117 | token errors give 401 (an HTTP error passes through); a missing or empty `sub` is 401 "Invalid refresh token"; the refresh claims are exactly `sub`; the access claims carry `sub`, and `email` exactly when a non-empty email was found |
| Validation.TrimmedField | app/models/onboarding.py:30-31 | the value is pydantic-trimmed and non-empty, or a 422 |
| Validation.TrimmedFieldIdempotent | app/models/onboarding.py:30-31 | a trimmed field validates to itself |
| Validation.OptionalTrimmedField | app/models/onboarding.py:17-18 | absent stays absent; a given value is trimmed and non-empty, or a 422 |
| Validation.ValidateAll | app/models/onboarding.py:131-137 | a list validates exactly when every element does; the results line up with the elements; a failure is the error of some element |
| Validation.ValidateAllFirstFailure | app/services/onboarding_service.py:334-357 | the error reported is the first failing element's, as the technician loop raises on the first bad one |
| OnboardingModels.HourStringParses | app/models/onboarding.py:6 | an "NN:NN" string parses with "%H:%M" exactly when hour and minute are in range |
| OnboardingModels.ValidateWorkHours | app/models/onboarding.py:139-146 | the pattern first and then "%H:%M" parsing; an accepted value is kept as given |
| OnboardingModels.WorkHoursStored | app/models/onboarding.py:139-146 | an accepted work-hours value is stored with ":00" appended |
| OnboardingModels.WorkHoursRoundTrip | app/models/onboarding.py:139-146 | storing then rendering an accepted work-hours value gives it back |
| OnboardingModels.ParseVendorCategory | app/models/onboarding.py:7 | inverse of the literal names: parsing a name gives its literal, anything else nothing |
| OnboardingModels.ParseIntakeMethod | app/models/onboarding.py:8 | inverse of the literal names |
| OnboardingModels.ParseOnCallRotation | app/models/onboarding.py:9 | inverse of the literal names |
| OnboardingModels.LiteralNamesAreDistinct | app/models/onboarding.py:7-9 | no two literals of a set share a name |
| OnboardingModels.IntakeMethodField | app/models/onboarding.py:134 | absent gives manual; a value must be a literal name |
| OnboardingModels.OnCallRotationField | app/models/onboarding.py:130 | absent gives weekly; a value must be a literal name |
| OnboardingModels.MeritPercentField | app/models/onboarding.py:63-68 | absent gives 100; null is allowed; a number must be non-negative |
| OnboardingModels.StoredMeritDefaults | app/services/onboarding_service.py:344 | the stored merit is non-negative, and 100 unless a number was given |
| OnboardingModels.ValidatePropertyCreate | app/models/onboarding.py:29-34 | name and address trimmed and non-empty, or a 422 |
| OnboardingModels.ValidateTechnicianCreate | app/models/onboarding.py:37-68 | names trimmed and non-empty, merit as `MeritPercentField`, or a 422 |
| OnboardingModels.ValidateEmergencyVendorCreate | app/models/onboarding.py:71-76 | a category literal and a trimmed non-empty name, or a 422 |
| OnboardingModels.AdminPasswordWeakerThanPolicy | app/models/onboarding.py:16 | every password the strength policy accepts fits the admin field, which also takes a password the policy refuses |
| OnboardingModels.ValidateAdminAccount | app/models/onboarding.py:12-26 | accepted exactly for a password of 8-64 characters and names that are absent or non-empty once trimmed; email and password kept, an absent name stays absent and a given one is stored trimmed; otherwise a 422 |
| OnboardingModels.ValidateOnboardingRequest | app/models/onboarding.py:79-146 | accepted exactly when every field is; absent keys take their declared defaults, lists default to empty; each list element is its own validated form and the scalar fields are their validated values |
| WorkOrderModels.ParsePriority | app/models/work_orders.py:7 | inverse of the literal names |
| WorkOrderModels.PriorityFieldAsWritten | app/models/work_orders.py:48 | absent gives routine; only the exact lower-case literal names pass |
| WorkOrderModels.PriorityLowerIsNoop | app/models/work_orders.py:71-74 | as written, lower-casing never changes an accepted value |
| WorkOrderModels.UpperCasePriorityRefused | app/models/work_orders.py:71-74 | as written, "EMERGENCY" is refused |
| WorkOrderModels.PriorityField | app/models/work_orders.py:71-74 | a priority is accepted exactly when its lower-cased form is a literal name |
| WorkOrderModels.PriorityFieldExtendsAsWritten | app/models/work_orders.py:48 | the corrected field accepts everything the written one does, with the same result |
| WorkOrderModels.PriorityFieldIgnoresCase | app/models/work_orders.py:71-74 | any capitalisation of a literal is accepted as that literal |
| WorkOrderModels.ValidateWorkOrderCreate | app/models/work_orders.py:30-74 | accepted exactly when the property id, optional label, issue of at least three characters and the priority as written each pass; the result holds the trimmed fields, the given priority (routine when absent) and the other fields unchanged |
| WorkOrderModels.UpperCaseRequestRefused | app/models/work_orders.py:48 | a request with priority "EMERGENCY" is refused, though the corrected field would read it as emergency |
| Listing.InsertSorted | app/services/work_order_service.py:58-62 | inserting into a sorted sequence keeps it sorted |
| Listing.ListingUnique | app/services/work_order_service.py:58-62 | two listings of the same rows under one total order are equal |
| Listing.ListingCount | app/services/work_order_service.py:311-324 | a listing has one entry per matching row |
| Listing.SelectSorted | app/services/work_order_service.py:58-62 | the store's ordered select returns exactly the listing, as long as the number of matches |
| Listing.FilterListing | app/services/work_order_service.py:64-92 | the entries of a listing that pass a narrower filter are the listing under that filter |
| Listing.Page | app/services/work_order_service.py:313 | at most `limit` entries from `offset` on |
| Listing.PagesTile | app/services/work_order_service.py:313 | two consecutive pages make up the page spanning both |
| Listing.KeyThenIdIsTotalOrder | app/api/v1/routes_properties.py:66 | ordering by a text key and then id is a total order |
| Listing.ByKeySortedKeys | app/api/v1/routes_properties.py:66 | a listing ordered by a key has its keys in code-point order |
| Listing.TwoKeysThenIdIsTotalOrder | app/api/v1/routes_technicians.py:60 | ordering by last and first name and then id is a total order |
| Listing.NewestFirstIsTotalOrder | app/services/work_order_service.py:312 | newest first, then id, is a total order |
| Listing.ByNewestSortedTimes | app/services/work_order_service.py:312 | a newest-first listing has non-increasing creation times |
| Listing.Select | app/services/onboarding_service.py:425-448 | a select without an order returns each selected row exactly once |
| Listing.SelectionNonEmpty | app/services/onboarding_service.py:503 | a select returns rows exactly when some row matches |
| Listing.IdMapOfSelection | app/services/onboarding_service.py:432 | the id map of a select is the selected part of the table |
| Store.Db.CompanyOf | app/services/work_order_service.py:20-30 | the caller's company exactly when the user has a profile with a non-empty company; otherwise 400 |
| Store.ScopedDelete | app/api/v1/routes_properties.py:210 | removes the row with that id when it belongs to that company, and nothing else |
| Store.PropertyNames | app/api/v1/routes_technicians.py:80-93 | each wanted id with a property row maps to that property's name, and only those ids |
| Store.PropertyAddKeepsConsistent | app/api/v1/routes_properties.py:88-104 | adding a property under a fresh id keeps the tenant rules |
| Store.PropertyRewriteKeepsConsistent | app/api/v1/routes_properties.py:159-166 | rewriting a property in place keeps the tenant rules |
| Store.PropertyRemovalKeepsConsistent | app/api/v1/routes_properties.py:210 | deleting a property keeps the tenant rules |
| Store.UnitInsertKeepsConsistent | app/api/v1/routes_properties.py:285-299 | adding a unit of an own property under a fresh id keeps the tenant rules |
| Store.UnitRewriteKeepsConsistent | app/api/v1/routes_properties.py:359-366 | rewriting a unit in place keeps the tenant rules |
| Store.UnitRemovalKeepsConsistent | app/api/v1/routes_properties.py:405 | deleting a unit keeps the tenant rules |
| Store.TechnicianWriteKeepsConsistent | app/api/v1/routes_technicians.py:150-181 | writing a technician whose default property is the company's keeps the tenant rules |
| Store.TechnicianRemovalKeepsConsistent | app/api/v1/routes_technicians.py:338 | deleting a technician keeps the tenant rules |
| Store.WorkOrderWriteKeepsConsistent | app/services/work_order_service.py:241-247 | writing a work order whose property, unit and technician are the company's keeps the tenant rules |
| PropertyRoutes.GetProperties | app/api/v1/routes_properties.py:53-74 | the company's properties, by name: exactly `Listed`; 400 without a company |
| PropertyRoutes.PropertyListingIsScoped | app/api/v1/routes_properties.py:53-74 | the listing holds exactly the company's properties, sorted by name, each once |
| PropertyRoutes.CreateProperty | app/api/v1/routes_properties.py:77-110 | one row of the caller's company with the given fields is added under the store's id; 500 when no row came back; the tenant rules are kept; succeeds whenever every guard passes |
| PropertyRoutes.ApplyPropertyUpdate | app/api/v1/routes_properties.py:138-157 | provided fields take the new values, the others and the owner are kept |
| PropertyRoutes.PropertyUpdateIdempotent | app/api/v1/routes_properties.py:138-157 | applying an update twice is applying it once; an empty update changes nothing |
| PropertyRoutes.UpdateProperty | app/api/v1/routes_properties.py:113-176 | 404 unless the property is the company's, 400 for an empty update, else only that row is rewritten; failures change nothing; the tenant rules are kept; succeeds whenever every guard passes |
| PropertyRoutes.DeleteProperty | app/api/v1/routes_properties.py:178-213 | 404 unless the property is the company's; else only that row goes; succeeds whenever every guard passes |
| PropertyRoutes.GetUnits | app/api/v1/routes_properties.py:215-257 | 404 unless the property is the company's; else exactly its units of the company, by label; succeeds whenever every guard passes |
| PropertyRoutes.NewUnitRow | app/api/v1/routes_properties.py:285-293 | the new unit is owned by the company, in the property, active unless told otherwise |
| PropertyRoutes.CreateUnit | app/api/v1/routes_properties.py:259-310 | 404 unless the property is the company's; else one unit row is added under the store's id; the tenant rules are kept; succeeds whenever every guard passes |
| PropertyRoutes.ApplyUnitUpdate | app/api/v1/routes_properties.py:340-357 | provided fields take the new values; owner and property are kept |
| PropertyRoutes.UnitUpdateIdempotent | app/api/v1/routes_properties.py:340-357 | applying an update twice is applying it once |
| PropertyRoutes.UpdateUnit | app/api/v1/routes_properties.py:312-375 | 404 unless the unit is the company's, 400 for an empty update, else only that row is rewritten; succeeds whenever every guard passes |
| PropertyRoutes.DeleteUnit | app/api/v1/routes_properties.py:377-412 | 404 unless the unit is the company's; else only that row goes; succeeds whenever every guard passes |
| TechnicianRoutes.DefaultPropertyName | app/api/v1/routes_technicians.py:95-97 | a name exactly when the id is non-empty and has a property row, and it is that row's name |
| TechnicianRoutes.ViewOf | app/api/v1/routes_technicians.py:88-103 | the response shows every column of the row as stored (ids, names, phone, email, shift, merit), the default property's name, and "available" for an availability left to the column default |
| TechnicianRoutes.ViewNamesOwnProperty | app/api/v1/routes_technicians.py:95-97 | in a consistent store the property named in a view is of the technician's own company |
| TechnicianRoutes.NamesCoverRows | app/api/v1/routes_technicians.py:80-97 | the fetched names give each listed technician its default property's name |
| TechnicianRoutes.GetTechnicians | app/api/v1/routes_technicians.py:49-106 | the company's technicians by last, first name, each viewed with its default property's name |
| TechnicianRoutes.CreatedTechnicianDefaults | app/api/v1/routes_technicians.py:150-163 | a technician created without merit or availability shows 100 and "available" |
| TechnicianRoutes.CreateTechnician | app/api/v1/routes_technicians.py:109-192 | 400 before any write for a default property of another company; else one row of the company is added under the store's id; the tenant rules are kept; succeeds whenever every guard passes |
| TechnicianRoutes.ApplyTechnicianUpdate | app/api/v1/routes_technicians.py:227-291 | provided fields are written; owner and user are kept |
| TechnicianRoutes.TechnicianUpdateIdempotent | app/api/v1/routes_technicians.py:227-291 | applying an update twice is applying it once |
| TechnicianRoutes.BuildTechnicianUpdate | app/api/v1/routes_technicians.py:227-261 | the update dict is the row with the provided fields written, and is empty exactly when no field is provided |
| TechnicianRoutes.UpdateTechnician | app/api/v1/routes_technicians.py:195-310 | 404 unless the technician is the company's, 400 for a default property of another company, 400 for an empty update; else only that row is rewritten; succeeds whenever every guard passes |
| TechnicianRoutes.DeleteTechnician | app/api/v1/routes_technicians.py:313-347 | 404 unless the technician is the company's; else only that row goes; succeeds whenever every guard passes |
| WorkOrders.GroupByProperty | app/services/work_order_service.py:78-82 | each property's list holds the options of exactly its units, in listed order |
| WorkOrders.GetWorkOrderOptions | app/services/work_order_service.py:44-94 | the company's properties by name, each with the units whose property id is that property's, by label |
| WorkOrders.EnsureProperty | app/services/work_order_service.py:97-112 | the property exactly when it is the company's; otherwise 404 |
| WorkOrders.FindUnitByLabel | app/services/work_order_service.py:127-137 | some unit of the property with that label, or none exactly when there is none |
| WorkOrders.UnitById | app/services/work_order_service.py:154-162 | a unit id is usable exactly when it names a unit of the company and the property; otherwise 422 |
| WorkOrders.UpsertUnit | app/services/work_order_service.py:150-190 | a named unit is checked and used; a label reuses a matching unit or adds one active unit; neither gives no unit |
| WorkOrders.UpsertedUnitBelongs | app/services/work_order_service.py:150-190 | the unit handed back is of the property and of the company |
| WorkOrders.UpsertGrowsByAtMostOne | app/services/work_order_service.py:164-188 | at most one unit is added and every existing unit is kept |
| WorkOrders.UpsertSettles | app/services/work_order_service.py:164-188 | repeating a label request inserts nothing and finds the unit created the first time |
| WorkOrders.CheckTechnician | app/services/work_order_service.py:208-225 | the normalised id of a technician of the company, or a 422 |
| WorkOrders.AssignedOnCreate | app/services/work_order_service.py:208-225 | no technician unless the request names one, which must pass the check |
| WorkOrders.NewWorkOrderRow | app/services/work_order_service.py:227-239 | the stored row carries the request's fields, the company, status "open" and the server's time |
| WorkOrders.CreateForProperty | app/services/work_order_service.py:203-266 | the unit step, then the technician check (a unit created before a failure stays), then one work order added under the store's id; the tenant rules are kept; succeeds whenever every guard passes |
| WorkOrders.CreateWorkOrder | app/services/work_order_service.py:193-266 | 400 without a company, 404 for another company's property with nothing written, then as `CreateForProperty`; succeeds whenever every guard passes |
| WorkOrders.CreatedWorkOrderShape | app/services/work_order_service.py:249-266 | the created work order shows the property's name, status "open" and its priority's name |
| WorkOrders.PageNamesCover | app/services/work_order_service.py:326-345 | the fetched names give each listed work order its property's name |
| WorkOrders.GetWorkOrders | app/services/work_order_service.py:269-347 | the page of the newest-first listing of the company's matching work orders, each with its property's name, and the count of matches |
| WorkOrders.WorkOrderListingIsScoped | app/services/work_order_service.py:269-347 | the pages come from one listing holding exactly the company's matching work orders, by non-increasing creation time, with `total` entries; consecutive pages of that one listing join |
| WorkOrders.DistinctTimesFixWorkOrderListing | app/services/work_order_service.py:308 | when matching work orders have distinct creation times, every newest-first arrangement of them is the model's listing, so the id tie-break decides nothing |
| WorkOrders.TechnicianWrite | app/services/work_order_service.py:372-390 | nothing for an absent key, a cleared column for an empty id, else the checked technician |
| WorkOrders.ApplyWorkOrderUpdate | app/services/work_order_service.py:392-409 | only the technician and the status may change |
| WorkOrders.WorkOrderUpdateIdempotent | app/services/work_order_service.py:392-409 | applying an update twice is applying it once |
| WorkOrders.AssignmentIsOwnTechnician | app/services/work_order_service.py:372-390 | an assignment names a technician of the company, or clears the column |
| WorkOrders.UpdateWorkOrder | app/services/work_order_service.py:350-460 | 404 unless the work order is the company's, 422 for a bad technician, 400 for nothing to write; else only that row's technician and status change; the tenant rules are kept; succeeds whenever every guard passes |
| Onboarding.ProvisionedCompany | app/services/onboarding_service.py:256-275 | the company exactly when the user has a profile with a non-empty company that has a row; otherwise the matching 400 |
| Onboarding.CompanyHasExistingRecords | app/services/onboarding_service.py:111-123 | the loop answers whether the company has a property, technician or vendor |
| Onboarding.OnboardedCompany | app/services/onboarding_service.py:283-301 | the row written over the company: name, normalised zone and times, the request's switches; or the first 422 |
| Onboarding.OnboardedSettingsEchoRequest | app/services/onboarding_service.py:283-301 | for a validated request only the timezone can fail; the status then shows the work hours as given, the switches, and a label given as a label |
| Onboarding.LinkAdmin | app/services/onboarding_service.py:170-249 | the admin's profile is updated or inserted with the company, or the auth failure is a 500 |
| Onboarding.InsertRowsFacts | app/services/onboarding_service.py:328 | an insert adds exactly the new ids and leaves the other rows alone |
| Onboarding.InsertRowsAt | app/services/onboarding_service.py:328 | under distinct ids every row is stored under its own id |
| Onboarding.KeyMapFacts | app/services/onboarding_service.py:330-331 | every key is in the name map and leads only to one of the given ids |
| Onboarding.KeyMapLastWins | app/services/onboarding_service.py:330-331 | a key leads to the id at its own position unless a later key repeats it |
| Onboarding.BuildNameMap | app/services/onboarding_service.py:330-331 | the zip loop builds exactly the name map |
| Onboarding.ResolvePropertyIdentifier | app/services/onboarding_service.py:140-167 | none for nothing or a placeholder; a UUID must be a property of the company; anything else must be the name of a property in the request; otherwise 422 |
| Onboarding.ResolveByName | app/services/onboarding_service.py:140-167 | a property named in any case and with surrounding spaces resolves to its new id |
| Onboarding.ResolvedIsOwnProperty | app/services/onboarding_service.py:140-167 | whatever resolves is a property of the company |
| Onboarding.TechnicianRowFor | app/services/onboarding_service.py:338-360 | merit defaults to 100; the user id is cleaned; the default property resolved; no availability written |
| Onboarding.BuildTechnicianRows | app/services/onboarding_service.py:333-362 | the loop builds exactly the validated rows, stopping at the first failure |
| Onboarding.TechnicianRowsFailWith422 | app/services/onboarding_service.py:333-362 | a failure building the rows is a 422 |
| Onboarding.CompleteFirstTimeOnboarding | app/services/onboarding_service.py:252-400 | the tables and answer afterwards are exactly `Onboard` of the tables before; the tenant rules are kept |
| Onboarding.RefusalsWriteNothing | app/services/onboarding_service.py:256-301 | nothing is written when the guards, the run-once check or the settings refuse |
| Onboarding.OnboardSteps | app/services/onboarding_service.py:252-400 | the call is either refused before the inserts with the three tables untouched, or is the inserts on what the earlier steps left |
| Onboarding.FailuresInsertNoStaff | app/services/onboarding_service.py:333-377 | a failed call inserts no technician and no vendor |
| Onboarding.RefusedAsOnboardedExactly | app/services/onboarding_service.py:277-281 | 409 exactly when the company is provisioned and already has records |
| Onboarding.InsertSetupCreatesRecords | app/services/onboarding_service.py:315-377 | successful inserts of at least one row leave the company with records |
| Onboarding.OnboardingRunsOnce | app/services/onboarding_service.py:277-281 | after a successful call that created something, the same caller's next call is a 409 |
| Onboarding.EmptyOnboardingRepeats | app/services/onboarding_service.py:277-281 | a success that creates nothing leaves the company without records, so the status says not completed |
| Onboarding.InsertSetupStores | app/services/onboarding_service.py:315-377 | every requested property, technician and vendor is stored under its new id |
| Onboarding.OnboardingStoresRequest | app/services/onboarding_service.py:252-400 | a success stores the settings and every requested row, reports the totals, and its summary equals what the status shows |
| Onboarding.FreshIdsUnreferenced | app/services/onboarding_service.py:315-377 | no row points at a fresh id and no table has one |
| Onboarding.InsertSetupKeepsConsistent | app/services/onboarding_service.py:315-377 | the inserts keep the tenant rules |
| Onboarding.OnboardingKeepsConsistent | app/services/onboarding_service.py:252-400 | onboarding keeps the tenant rules on success and after a partial write |
| Onboarding.LookupNameMatches | app/services/onboarding_service.py:469 | looking a default property up among the listed properties finds exactly the company's own |
| Onboarding.GetOnboardingStatus | app/services/onboarding_service.py:403-504 | the guards, then the settings with their defaults, each listed row's summary, and completed exactly when the company has records |
| Onboarding.GuardsAgree | app/services/onboarding_service.py:404-423 | both handlers admit the same callers and work on the same company |

## Left out

- `signin_user` and `resend_verification_email` are left out. They only
  forward to the hosted identity provider and map its errors.
- The provider calls in `verify_email` (lines 129-200) are left out. Only the
  token guard is modelled.
- Minting and verifying JWTs is left out (`app/core/security.py` is not part
  of this model). `RefreshAccessToken` takes the verified payload and the
  looked-up email as parameters.
- The hosted-auth calls of `_create_or_link_admin` (creating the user, or
  finding the existing one) are left out. Their answer is the parameter
  `AdminLink`, and only the profile write that follows is modelled.
- `Onboarding.CompleteFirstTimeOnboarding` takes the store's new ids as a
  parameter. The model assumes one distinct, unused id per inserted row; a
  store that returns fewer rows than it was given is not modelled.
- `WorkOrders.CreateWorkOrder` takes the creation time `now` as a parameter.
  It stands for the database's `created_at` default.
- Atomicity and concurrency are left out. Two concurrent onboarding calls
  could both pass the run-once check.
- Some database behaviour the model does not have:
  - a delete has no cascade, and references to a deleted row stay dangling,
    as the tenant rules allow;
  - Postgres rejecting an id that is not a UUID is not modelled.
- Request routing, dependency injection and the onboarding routes file are
  left out. Each handler takes the caller's user id.
- Email syntax checking (`EmailStr`) is left out. Emails are plain strings.
- Text handling is narrower than Python's:
  - `Text.Lower` lower-cases ASCII letters only, where Python's `str.lower`
    covers all of Unicode;
  - `Text.IsSpace` lists Python's ASCII and common Unicode white space, not
    the full Unicode table.
- Clock.Strptime: does not model `strptime`'s acceptance of non-ASCII
  decimal digits in a numeric field. It accepts exactly one or two ASCII
  digits per field.
- Uuid.UuidDigits: does not model `uuid.UUID`'s other input forms (bytes,
  fields, int). Of the string form it reads only exactly 32 hex digits once
  the prefixes, braces and hyphens are gone; the further text that
  `int(hex, 16)` takes (a "0x" prefix, a leading sign, surrounding white
  space, "_" between digits, non-ASCII decimal digits) is refused here.
- Uuid.NormalizeUuid: inherits that narrower reading, so such a string is a
  422 here where the source normalises it.
- Auth.PasswordRegexSemantics: `\d` is read as an ASCII digit. Python's `re`
  takes any Unicode decimal digit, so a password whose only digit is, say,
  an Arabic-Indic three is refused here and accepted by the source.
- OnboardingModels.HourStringParses: `\d` in the work-hours pattern and in
  "%H:%M" is read as an ASCII digit; non-ASCII decimal digits are not modelled.
- OnboardingModels.ValidateWorkHours: the same ASCII-only reading of `\d`, so
  a work-hours value written with non-ASCII digits is a 422 here.
- Validation.ValidateAll: a failing list reports the error of one element,
  the first. Pydantic validates every element and reports every error in
  one 422; the status is the same, only the detail is shorter.
- Onboarding.ResolvePropertyIdentifier: ids are compared as exact strings.
  Postgres compares uuid values regardless of case, so an upper-cased UUID of
  one of the company's properties resolves in the source and is a 422 here.
- WorkOrders.EnsureProperty: the same exact-string comparison; an upper-cased
  id of the company's property is a 404 here.
- PropertyRoutes.UpdateProperty: the path id is matched as an exact string,
  as in every handler that takes an id from the path (DeleteProperty,
  GetUnits, CreateUnit, UpdateUnit, DeleteUnit, UpdateTechnician,
  DeleteTechnician, UpdateWorkOrder); an upper-cased uuid is a 404 here.
- TechnicianRoutes.CreateTechnician: the body's `default_property_id` is
  compared with the company's property ids as an exact string, where the
  source's `.eq("id", ...)` on the uuid column ignores case; an upper-cased
  id of one of the company's properties is a 400 here.
- TechnicianRoutes.UpdateTechnician: the same exact-string check of the
  body's `default_property_id`, besides the path id named above.
- Onboarding.SettingsOf: a row column is either set or missing, and a missing
  one reads as its default. A column that is present but NULL is not
  modelled: the source's `.get(k, default)` then yields None, which shows
  False for a switch and fails the response model (a 500) for a text field.
  The model assumes the settings columns are NOT NULL.
- Onboarding.OnboardedCompany: under the same assumption, a company whose
  name or timezone column is NULL falls back to "" or America/Detroit here,
  where the source carries the None along.
- Onboarding.GetOnboardingStatus: shows the defaults of `SettingsOf` for
  such NULL columns, where the source shows False or fails with a 500.
- TechnicianRoutes.ViewOf: an availability the row leaves unset shows
  "available"; an explicit NULL column, which the source passes through as
  None, is not distinguished from it.
- Listing.Listed: every ordered select breaks ties by the row id, so the
  listing is unique. The source's ORDER BY has no tie-break, and rows equal
  in the sort key may come back in any order, differently from one query to
  the next.
- Listing.ByKeySortedKeys: text keys are ordered by code point. The source
  orders by the database's collation, which can differ (case and accents).
- WorkOrders.WorkOrderListingIsScoped: consecutive pages join for the
  model's single listing. In the source, work orders with equal `created_at`
  may repeat or be skipped across pages; `DistinctTimesFixWorkOrderListing`
  shows the two agree when creation times are distinct.
- Listing.Select: an unordered select returns the rows in some order the
  store picks. Callers rely only on "each matching row exactly once", and the
  model fixes nothing more.
- WorkOrders.FindUnitByLabel: `.limit(1)` without an order may return any
  matching unit. The method promises only some match, or none when there is
  none.
- `WorkOrderUpdate` and `WorkOrderListResponse` are not defined in
  app/models/work_orders.py, although app/services/work_order_service.py:9-17
  imports both from it. Their fields are rebuilt from their use in the
  service (lines 269-409): an optional technician id and status for the
  update, and a page of work orders with a total for the list.
- That failing import is not modelled. As written, importing the work-order
  service raises `ImportError`, and with it the property, technician and
  work-order route modules, which all import from that service
  (routes_properties.py:7, routes_technicians.py:7, routes_work_orders.py:5).
  app/main.py:33-34 mounts only the auth and onboarding routers, so the
  application starts, but those handlers are never reachable. The model
  describes what the handlers do once the two classes exist.

## Findings

| source | as written | input that shows it | evidently intended | confidence | as-written member | corrected member |
|---|---|---|---|---|---|---|
| app/services/auth_service.py:10 | `PASSWORD_REGEX` ends with `$`, which also matches before a final newline, and is used with `match` | `"Aa1!" + 60 × "a" + "\n"`: 65 characters, accepted | at most 64 characters and the whole password matched, as the error message says | not executed | Auth.RegexAcceptsTrailingNewline | Auth.StrengthAgreesWithoutNewline |
| app/models/work_orders.py:71-74 | `priority_lower` is an after-validator, so the `Literal` check refuses upper case before it runs | `priority = "EMERGENCY"` is a 422 | priorities accepted in any case and stored lower-cased | not executed | WorkOrderModels.UpperCasePriorityRefused | WorkOrderModels.PriorityFieldIgnoresCase |

The handlers model the code as written: `Auth.SignupUser` is gated on the
written regex (`Auth.PasswordRegexMatches`), and
`WorkOrderModels.ValidateWorkOrderCreate` reads the priority with
`WorkOrderModels.PriorityFieldAsWritten`, so a request with priority
"EMERGENCY" is refused (`WorkOrderModels.UpperCaseRequestRefused`). The
corrected predicates, `Auth.ValidatePasswordStrength` and
`WorkOrderModels.PriorityField`, stand beside them with their intended
properties proved, as the definitions a fix would put in their place.
