/**
 * The technician endpoints: the company's technicians by name with their
 * default property's name, and insert, partial update and delete with the
 * ownership check on the technician and on its default property.
 */
module TechnicianRoutes {
  import opened Wrappers
  import opened Listing
  import opened Store

  const TechnicianNotFound: string := "Technician not found"
  const ForeignProperty: string := "Property not found or does not belong to your company"
  const TechnicianCreateFailed: string := "Failed to create technician"
  const NoFieldsToUpdate: string := "No fields to update"

  /** The response's defaults for `merit_percent` and `availability`. */
  const DefaultMerit: int := 100
  const DefaultAvailability: string := "available"

  /** `TechnicianResponse`. */
  datatype TechnicianView = TechnicianView(
    id: string, companyId: string, userId: Option<string>, firstName: string, lastName: string,
    phone: Option<string>, email: Option<string>, defaultPropertyId: Option<string>,
    defaultPropertyName: Option<string>, shift: Option<string>, meritPercent: int, availability: string)

  /**
   * The name shown for a default property: looked up by id alone, and only
   * for a non-empty id; an id with no property row shows no name.
   */
  function DefaultPropertyName(properties: map<string, PropertyRow>, propertyId: Option<string>): (name: Option<string>)
    ensures propertyId.None? ==> name.None?
    ensures propertyId.Some? ==> name == NameOfProperty(properties, propertyId.value)
  {
    if propertyId.Some? then NameOfProperty(properties, propertyId.value) else None
  }

  /**
   * A technician row as the endpoints return it: every column of the row is
   * shown as stored, the default property's name is added, and an
   * availability left to the column default shows "available".
   */
  function ViewOf(e: Entry<TechnicianRow>, properties: map<string, PropertyRow>): (v: TechnicianView)
    ensures v.id == e.id && v.companyId == e.row.companyId && v.userId == e.row.userId
    ensures v.firstName == e.row.firstName && v.lastName == e.row.lastName
    ensures v.phone == e.row.phone && v.email == e.row.email && v.shift == e.row.shift
    ensures v.defaultPropertyId == e.row.defaultPropertyId
    ensures v.defaultPropertyName == DefaultPropertyName(properties, e.row.defaultPropertyId)
    ensures v.meritPercent == e.row.meritPercent
    ensures v.availability == e.row.availability.GetOr(DefaultAvailability)
  {
    var t := e.row;
    TechnicianView(e.id, t.companyId, t.userId, t.firstName, t.lastName, t.phone, t.email,
                   t.defaultPropertyId, DefaultPropertyName(properties, t.defaultPropertyId),
                   t.shift, t.meritPercent, t.availability.GetOr(DefaultAvailability))
  }

  /** In a consistent store, the property named in a view is one of the technician's own company. */
  lemma ViewNamesOwnProperty(properties: map<string, PropertyRow>, units: map<string, UnitRow>,
                             technicians: map<string, TechnicianRow>, workOrders: map<string, WorkOrderRow>, id: string)
    requires TenantConsistent(properties, units, technicians, workOrders) && id in technicians
    ensures var v := ViewOf(Entry(id, technicians[id]), properties);
      v.defaultPropertyName.Some? ==> OwnsProperty(properties, v.defaultPropertyId.value, v.companyId)
  {
  }

  function LastName(t: TechnicianRow): string { t.lastName }
  function FirstName(t: TechnicianRow): string { t.firstName }

  /** `.order("last_name,first_name")` (ties by id). */
  function TechnicianOrder(): (le: (Entry<TechnicianRow>, Entry<TechnicianRow>) -> bool)
    ensures IsTotalOrder(le)
  {
    TwoKeysThenIdIsTotalOrder(LastName, FirstName);
    ByTwoKeys(LastName, FirstName)
  }

  function TechnicianOfCompany(c: string): TechnicianRow -> bool {
    (t: TechnicianRow) => t.companyId == c
  }

  /** The non-empty default property ids of some technician rows (`property_ids`). */
  function DefaultPropertyIds(rows: seq<Entry<TechnicianRow>>): (ids: set<string>)
    ensures forall k :: 0 <= k < |rows| && rows[k].row.defaultPropertyId.Some? && rows[k].row.defaultPropertyId.value != "" ==>
      rows[k].row.defaultPropertyId.value in ids
    ensures "" !in ids
  {
    if rows == [] then {}
    else
      var rest := DefaultPropertyIds(rows[1..]);
      var pid := rows[0].row.defaultPropertyId;
      if pid.Some? && pid.value != "" then rest + {pid.value} else rest
  }

  /** `property_names.get(...) if row.get("default_property_id") else None`. */
  function NameOf(names: map<string, string>, propertyId: Option<string>): Option<string> {
    if propertyId.Some? && propertyId.value != "" && propertyId.value in names then Some(names[propertyId.value]) else None
  }

  /** Looking up a listed technician's default property among the fetched names gives its name. */
  lemma NamesCoverRows(properties: map<string, PropertyRow>, rows: seq<Entry<TechnicianRow>>, k: nat)
    requires k < |rows|
    ensures NameOf(PropertyNames(properties, DefaultPropertyIds(rows)), rows[k].row.defaultPropertyId)
      == DefaultPropertyName(properties, rows[k].row.defaultPropertyId)
  {
  }

  /**
   * `get_technicians`: the company's technicians ordered by last and first
   * name, each with its default property's name.
   */
  method GetTechnicians(db: Db, userId: string) returns (r: Result<seq<TechnicianView>>)
    ensures db.CompanyOf(userId).Err? ==> r == Err(db.CompanyOf(userId).error)
    ensures db.CompanyOf(userId).Ok? ==>
      var listed := Listed(db.technicians, TechnicianOfCompany(db.CompanyOf(userId).value), TechnicianOrder());
      && r.Ok? && |r.value| == |listed|
      && forall i :: 0 <= i < |listed| ==> r.value[i] == ViewOf(listed[i], db.properties)
  {
    var company := db.CompanyOf(userId);
    if company.Err? {
      return Err(company.error);
    }
    var rows := SelectSorted(db.technicians, TechnicianOfCompany(company.value), TechnicianOrder());
    var out := TechnicianViews(db.properties, rows);
    return Ok(out);
  }

  /** The listed technicians, each with its default property's name, fetched in one lookup. */
  method TechnicianViews(properties: map<string, PropertyRow>, rows: seq<Entry<TechnicianRow>>)
    returns (out: seq<TechnicianView>)
    ensures |out| == |rows|
    ensures forall k :: 0 <= k < |rows| ==> out[k] == ViewOf(rows[k], properties)
  {
    var names := PropertyNames(properties, DefaultPropertyIds(rows));
    out := [];
    var i := 0;
    while i < |rows|
      invariant 0 <= i <= |rows|
      invariant |out| == i
      invariant forall k :: 0 <= k < i ==> out[k] == ViewOf(rows[k], properties)
    {
      var t := rows[i].row;
      var name := NameOf(names, t.defaultPropertyId);
      NamesCoverRows(properties, rows, i);
      out := out + [TechnicianView(rows[i].id, t.companyId, t.userId, t.firstName, t.lastName, t.phone, t.email,
                                   t.defaultPropertyId, name, t.shift, t.meritPercent,
                                   t.availability.GetOr(DefaultAvailability))];
      i := i + 1;
    }
  }

  /** The route's `TechnicianCreate`; `None` marks an absent key. */
  datatype TechnicianCreate = TechnicianCreate(
    firstName: string, lastName: string, phone: Option<string>, email: Option<string>,
    defaultPropertyId: Option<string>, shift: Option<string>,
    meritPercent: Option<int>, availability: Option<string>)

  /** The row `create_technician` inserts: merit 100 and "available" unless given. */
  function NewTechnicianRow(company: string, t: TechnicianCreate): (row: TechnicianRow)
    ensures row.companyId == company && row.userId.None?
    ensures row.defaultPropertyId == t.defaultPropertyId
    ensures row.meritPercent == t.meritPercent.GetOr(DefaultMerit)
    ensures row.availability == Some(t.availability.GetOr(DefaultAvailability))
  {
    TechnicianRow(company, None, t.firstName, t.lastName, t.phone, t.email, t.defaultPropertyId,
                  t.shift, t.meritPercent.GetOr(DefaultMerit), Some(t.availability.GetOr(DefaultAvailability)))
  }

  /** A technician created without merit or availability shows 100 and "available". */
  lemma CreatedTechnicianDefaults(company: string, id: string, t: TechnicianCreate, properties: map<string, PropertyRow>)
    requires t.meritPercent.None? && t.availability.None?
    ensures var v := ViewOf(Entry(id, NewTechnicianRow(company, t)), properties);
      v.meritPercent == 100 && v.availability == "available" && v.companyId == company
  {
  }

  /** `if default_property_id:` followed by the ownership probe. */
  predicate DefaultPropertyAllowed(properties: map<string, PropertyRow>, propertyId: Option<string>, company: string) {
    propertyId.None? || propertyId.value == "" || OwnsProperty(properties, propertyId.value, company)
  }

  /**
   * `create_technician`: a non-empty default property must be the company's
   * (400 otherwise, before any write); then one row is inserted under the id
   * the store returns (`None`: no row came back).
   */
  method CreateTechnician(db: Db, userId: string, t: TechnicianCreate, newId: Option<string>)
    returns (r: Result<TechnicianView>)
    requires newId.Some? ==> db.Unused(newId.value)
    modifies db`technicians
    ensures db.CompanyOf(userId).Err? ==> r == Err(db.CompanyOf(userId).error)
    ensures db.CompanyOf(userId).Ok? && !DefaultPropertyAllowed(db.properties, t.defaultPropertyId, db.CompanyOf(userId).value) ==>
      r == Err(HttpError(BAD_REQUEST, ForeignProperty))
    ensures db.CompanyOf(userId).Ok? && DefaultPropertyAllowed(db.properties, t.defaultPropertyId, db.CompanyOf(userId).value)
            && newId.None? ==>
      r == Err(HttpError(SERVER_ERROR, TechnicianCreateFailed))
    ensures r.Err? ==> db.technicians == old(db.technicians)
    ensures r.Ok? ==>
      && db.CompanyOf(userId).Ok? && DefaultPropertyAllowed(db.properties, t.defaultPropertyId, db.CompanyOf(userId).value)
      && newId.Some?
      && db.technicians == old(db.technicians)[newId.value := NewTechnicianRow(db.CompanyOf(userId).value, t)]
      && r.value == ViewOf(Entry(newId.value, db.technicians[newId.value]), db.properties)
    ensures db.CompanyOf(userId).Ok? && DefaultPropertyAllowed(db.properties, t.defaultPropertyId, db.CompanyOf(userId).value)
            && newId.Some? ==>
      r.Ok?
    ensures old(db.Consistent()) ==> db.Consistent()
  {
    var company := db.CompanyOf(userId);
    if company.Err? {
      return Err(company.error);
    }
    if t.defaultPropertyId.Some? && t.defaultPropertyId.value != "" {
      if !OwnsProperty(db.properties, t.defaultPropertyId.value, company.value) {
        return Err(HttpError(BAD_REQUEST, ForeignProperty));
      }
    }
    if newId.None? {
      return Err(HttpError(SERVER_ERROR, TechnicianCreateFailed));
    }
    var row := NewTechnicianRow(company.value, t);
    if db.Consistent() {
      TechnicianWriteKeepsConsistent(db.properties, db.units, db.technicians, db.workOrders, newId.value, row);
    }
    db.technicians := db.technicians[newId.value := row];
    return Ok(ViewOf(Entry(newId.value, row), db.properties));
  }

  /** `TechnicianUpdate`: every field optional. */
  datatype TechnicianUpdate = TechnicianUpdate(
    firstName: Option<string>, lastName: Option<string>, phone: Option<string>, email: Option<string>,
    defaultPropertyId: Option<string>, shift: Option<string>,
    meritPercent: Option<int>, availability: Option<string>)

  predicate NoTechnicianFields(u: TechnicianUpdate) {
    && u.firstName.None? && u.lastName.None? && u.phone.None? && u.email.None?
    && u.defaultPropertyId.None? && u.shift.None? && u.meritPercent.None? && u.availability.None?
  }

  /** A technician row after an update: the provided fields are written; owner and user stay. */
  function ApplyTechnicianUpdate(row: TechnicianRow, u: TechnicianUpdate): (r: TechnicianRow)
    ensures r.companyId == row.companyId && r.userId == row.userId
    ensures r.firstName == u.firstName.GetOr(row.firstName) && r.lastName == u.lastName.GetOr(row.lastName)
    ensures r.phone == (if u.phone.Some? then u.phone else row.phone)
    ensures r.email == (if u.email.Some? then u.email else row.email)
    ensures r.defaultPropertyId == (if u.defaultPropertyId.Some? then u.defaultPropertyId else row.defaultPropertyId)
    ensures r.shift == (if u.shift.Some? then u.shift else row.shift)
    ensures r.meritPercent == u.meritPercent.GetOr(row.meritPercent)
    ensures r.availability == (if u.availability.Some? then u.availability else row.availability)
  {
    TechnicianRow(row.companyId, row.userId, u.firstName.GetOr(row.firstName), u.lastName.GetOr(row.lastName),
                  if u.phone.Some? then u.phone else row.phone,
                  if u.email.Some? then u.email else row.email,
                  if u.defaultPropertyId.Some? then u.defaultPropertyId else row.defaultPropertyId,
                  if u.shift.Some? then u.shift else row.shift,
                  u.meritPercent.GetOr(row.meritPercent),
                  if u.availability.Some? then u.availability else row.availability)
  }

  lemma TechnicianUpdateIdempotent(row: TechnicianRow, u: TechnicianUpdate)
    ensures ApplyTechnicianUpdate(ApplyTechnicianUpdate(row, u), u) == ApplyTechnicianUpdate(row, u)
    ensures NoTechnicianFields(u) ==> ApplyTechnicianUpdate(row, u) == row
  {
  }

  /** The contact fields of `update_technician`'s `update_dict`: names, phone and email. */
  method WriteContactFields(row: TechnicianRow, u: TechnicianUpdate) returns (updated: TechnicianRow, written: set<string>)
    ensures updated == row.(firstName := u.firstName.GetOr(row.firstName), lastName := u.lastName.GetOr(row.lastName),
                            phone := if u.phone.Some? then u.phone else row.phone,
                            email := if u.email.Some? then u.email else row.email)
    ensures written == {} <==> u.firstName.None? && u.lastName.None? && u.phone.None? && u.email.None?
    ensures "default_property_id" !in written
  {
    updated, written := row, {};
    if u.firstName.Some? {
      updated := updated.(firstName := u.firstName.value);
      written := written + {"first_name"};
    }
    if u.lastName.Some? {
      updated := updated.(lastName := u.lastName.value);
      written := written + {"last_name"};
    }
    if u.phone.Some? {
      updated := updated.(phone := u.phone);
      written := written + {"phone"};
    }
    if u.email.Some? {
      updated := updated.(email := u.email);
      written := written + {"email"};
    }
  }

  /** The assignment fields of `update_technician`'s `update_dict`: default property, shift, merit, availability. */
  method WriteAssignmentFields(row: TechnicianRow, u: TechnicianUpdate) returns (updated: TechnicianRow, written: set<string>)
    ensures updated == row.(defaultPropertyId := if u.defaultPropertyId.Some? then u.defaultPropertyId else row.defaultPropertyId,
                            shift := if u.shift.Some? then u.shift else row.shift,
                            meritPercent := u.meritPercent.GetOr(row.meritPercent),
                            availability := if u.availability.Some? then u.availability else row.availability)
    ensures written == {} <==> u.defaultPropertyId.None? && u.shift.None? && u.meritPercent.None? && u.availability.None?
    ensures "default_property_id" in written <==> u.defaultPropertyId.Some?
  {
    updated, written := row, {};
    if u.defaultPropertyId.Some? {
      updated := updated.(defaultPropertyId := u.defaultPropertyId);
      written := written + {"default_property_id"};
    }
    if u.shift.Some? {
      updated := updated.(shift := u.shift);
      written := written + {"shift"};
    }
    if u.meritPercent.Some? {
      updated := updated.(meritPercent := u.meritPercent.value);
      written := written + {"merit_percent"};
    }
    if u.availability.Some? {
      updated := updated.(availability := u.availability);
      written := written + {"availability"};
    }
  }

  /**
   * The `update_dict` of `update_technician`, built field by field: the row
   * with every provided field written, and the names of the written columns.
   */
  method BuildTechnicianUpdate(row: TechnicianRow, u: TechnicianUpdate) returns (updated: TechnicianRow, written: set<string>)
    ensures updated == ApplyTechnicianUpdate(row, u)
    ensures written == {} <==> NoTechnicianFields(u)
    ensures "default_property_id" in written <==> u.defaultPropertyId.Some?
  {
    var contact, assignment;
    updated, contact := WriteContactFields(row, u);
    updated, assignment := WriteAssignmentFields(updated, u);
    written := contact + assignment;
  }

  /**
   * `update_technician`: 404 unless the technician is the company's, then
   * 400 for a non-empty default property of another company, then 400 when
   * no field is provided; otherwise the provided fields of that row are written.
   */
  method UpdateTechnician(db: Db, userId: string, technicianId: string, u: TechnicianUpdate)
    returns (r: Result<TechnicianView>)
    modifies db`technicians
    ensures db.CompanyOf(userId).Err? ==> r == Err(db.CompanyOf(userId).error)
    ensures db.CompanyOf(userId).Ok? && !OwnsTechnician(old(db.technicians), technicianId, db.CompanyOf(userId).value) ==>
      r == Err(HttpError(NOT_FOUND, TechnicianNotFound))
    ensures db.CompanyOf(userId).Ok? && OwnsTechnician(old(db.technicians), technicianId, db.CompanyOf(userId).value)
            && !DefaultPropertyAllowed(db.properties, u.defaultPropertyId, db.CompanyOf(userId).value) ==>
      r == Err(HttpError(BAD_REQUEST, ForeignProperty))
    ensures db.CompanyOf(userId).Ok? && OwnsTechnician(old(db.technicians), technicianId, db.CompanyOf(userId).value)
            && DefaultPropertyAllowed(db.properties, u.defaultPropertyId, db.CompanyOf(userId).value)
            && NoTechnicianFields(u) ==>
      r == Err(HttpError(BAD_REQUEST, NoFieldsToUpdate))
    ensures r.Err? ==> db.technicians == old(db.technicians)
    ensures r.Ok? ==>
      && db.CompanyOf(userId).Ok? && OwnsTechnician(old(db.technicians), technicianId, db.CompanyOf(userId).value)
      && DefaultPropertyAllowed(db.properties, u.defaultPropertyId, db.CompanyOf(userId).value)
      && !NoTechnicianFields(u)
      && db.technicians == old(db.technicians)[technicianId := ApplyTechnicianUpdate(old(db.technicians)[technicianId], u)]
      && r.value == ViewOf(Entry(technicianId, db.technicians[technicianId]), db.properties)
    ensures db.CompanyOf(userId).Ok? && OwnsTechnician(old(db.technicians), technicianId, db.CompanyOf(userId).value)
            && DefaultPropertyAllowed(db.properties, u.defaultPropertyId, db.CompanyOf(userId).value)
            && !NoTechnicianFields(u) ==>
      r.Ok?
    ensures old(db.Consistent()) ==> db.Consistent()
  {
    var company := db.CompanyOf(userId);
    if company.Err? {
      return Err(company.error);
    }
    if !OwnsTechnician(db.technicians, technicianId, company.value) {
      return Err(HttpError(NOT_FOUND, TechnicianNotFound));
    }
    if u.defaultPropertyId.Some? && u.defaultPropertyId.value != "" {
      if !OwnsProperty(db.properties, u.defaultPropertyId.value, company.value) {
        return Err(HttpError(BAD_REQUEST, ForeignProperty));
      }
    }
    var row, written := BuildTechnicianUpdate(db.technicians[technicianId], u);
    if written == {} {
      return Err(HttpError(BAD_REQUEST, NoFieldsToUpdate));
    }
    if db.Consistent() {
      TechnicianWriteKeepsConsistent(db.properties, db.units, db.technicians, db.workOrders, technicianId, row);
    }
    db.technicians := db.technicians[technicianId := row];
    return Ok(ViewOf(Entry(technicianId, row), db.properties));
  }

  /** `delete_technician`: 404 unless the technician is the company's; otherwise that row goes. */
  method DeleteTechnician(db: Db, userId: string, technicianId: string) returns (r: Result<()>)
    modifies db`technicians
    ensures db.CompanyOf(userId).Err? ==> r == Err(db.CompanyOf(userId).error)
    ensures db.CompanyOf(userId).Ok? && !OwnsTechnician(old(db.technicians), technicianId, db.CompanyOf(userId).value) ==>
      r == Err(HttpError(NOT_FOUND, TechnicianNotFound))
    ensures r.Err? ==> db.technicians == old(db.technicians)
    ensures r.Ok? ==>
      && db.CompanyOf(userId).Ok? && OwnsTechnician(old(db.technicians), technicianId, db.CompanyOf(userId).value)
      && db.technicians == old(db.technicians) - {technicianId}
    ensures db.CompanyOf(userId).Ok? && OwnsTechnician(old(db.technicians), technicianId, db.CompanyOf(userId).value) ==> r.Ok?
    ensures old(db.Consistent()) ==> db.Consistent()
  {
    var company := db.CompanyOf(userId);
    if company.Err? {
      return Err(company.error);
    }
    if !OwnsTechnician(db.technicians, technicianId, company.value) {
      return Err(HttpError(NOT_FOUND, TechnicianNotFound));
    }
    if db.Consistent() {
      TechnicianRemovalKeepsConsistent(db.properties, db.units, db.technicians, db.workOrders, technicianId);
    }
    db.technicians := ScopedDelete(db.technicians, technicianId, company.value, (t: TechnicianRow) => t.companyId);
    return Ok(());
  }
}
