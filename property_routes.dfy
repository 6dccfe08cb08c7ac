/**
 * The property and unit endpoints: listings scoped to the caller's company,
 * and inserts, partial updates and deletes that first check that the row
 * belongs to the caller's company (a row of another company is "not found").
 */
module PropertyRoutes {
  import opened Wrappers
  import opened Listing
  import opened Store
  import opened Text

  const PropertyNotFound: string := "Property not found"
  const UnitNotFound: string := "Unit not found"
  const NoFieldsToUpdate: string := "No fields to update"
  const UnitCreateFailed: string := "Failed to create unit"

  // ----- Properties -------------------------------------------------------

  /** `get_properties`: the company's properties, ordered by name. */
  method GetProperties(db: Db, userId: string) returns (r: Result<seq<Entry<PropertyRow>>>)
    ensures db.CompanyOf(userId).Err? ==> r == Err(db.CompanyOf(userId).error)
    ensures db.CompanyOf(userId).Ok? ==>
      r == Ok(Listed(db.properties, PropertyOfCompany(db.CompanyOf(userId).value), PropertyOrder()))
  {
    var company := db.CompanyOf(userId);
    if company.Err? {
      return Err(company.error);
    }
    var rows := SelectSorted(db.properties, PropertyOfCompany(company.value), PropertyOrder());
    return Ok(rows);
  }

  /** A listing of the company's properties holds exactly the company's properties. */
  lemma PropertyListingIsScoped(properties: map<string, PropertyRow>, company: string)
    ensures var s := Listed(properties, PropertyOfCompany(company), PropertyOrder());
      && (forall e :: e in s ==> OwnsProperty(properties, e.id, company) && properties[e.id] == e.row)
      && (forall id :: OwnsProperty(properties, id, company) ==> Entry(id, properties[id]) in s)
      && (forall i, j :: 0 <= i < j < |s| ==> LexLe(s[i].row.name, s[j].row.name))
  {
    var s := Listed(properties, PropertyOfCompany(company), PropertyOrder());
    ByKeySortedKeys(s, PropertyName);
  }

  /** `PropertyCreate`. */
  datatype PropertyCreate = PropertyCreate(name: string, address: string, notes: Option<string>)

  const PropertyCreateFailed: string := "Failed to create property"

  /**
   * `create_property`: one property row of the caller's company is inserted
   * under the id the store returns (`newId`; `None`: no row came back).
   */
  method CreateProperty(db: Db, userId: string, p: PropertyCreate, newId: Option<string>)
    returns (r: Result<Entry<PropertyRow>>)
    requires newId.Some? ==> db.Unused(newId.value)
    modifies db`properties
    ensures db.CompanyOf(userId).Err? ==> r == Err(db.CompanyOf(userId).error)
    ensures db.CompanyOf(userId).Ok? && newId.None? ==> r == Err(HttpError(SERVER_ERROR, PropertyCreateFailed))
    ensures r.Err? ==> db.properties == old(db.properties)
    ensures r.Ok? ==>
      && db.CompanyOf(userId).Ok? && newId.Some?
      && r.value == Entry(newId.value, PropertyRow(db.CompanyOf(userId).value, p.name, p.address, p.notes))
      && db.properties == old(db.properties)[newId.value := r.value.row]
    ensures db.CompanyOf(userId).Ok? && newId.Some? ==> r.Ok?
    ensures old(db.Consistent()) ==> db.Consistent()
  {
    var company := db.CompanyOf(userId);
    if company.Err? {
      return Err(company.error);
    }
    if newId.None? {
      return Err(HttpError(SERVER_ERROR, PropertyCreateFailed));
    }
    var row := PropertyRow(company.value, p.name, p.address, p.notes);
    if db.Consistent() {
      PropertyAddKeepsConsistent(db.properties, db.units, db.technicians, db.workOrders, newId.value, row);
    }
    db.properties := db.properties[newId.value := row];
    return Ok(Entry(newId.value, row));
  }

  /** `PropertyUpdate`: every field optional. */
  datatype PropertyUpdate = PropertyUpdate(name: Option<string>, address: Option<string>, notes: Option<string>)

  predicate NoPropertyFields(u: PropertyUpdate) {
    u.name.None? && u.address.None? && u.notes.None?
  }

  /** A property row after an update: the provided fields take the new values, the others keep theirs. */
  function ApplyPropertyUpdate(row: PropertyRow, u: PropertyUpdate): (r: PropertyRow)
    ensures r.companyId == row.companyId
    ensures u.name.Some? ==> r.name == u.name.value
    ensures u.name.None? ==> r.name == row.name
    ensures u.address.Some? ==> r.address == u.address.value
    ensures u.address.None? ==> r.address == row.address
    ensures u.notes.Some? ==> r.notes == u.notes
    ensures u.notes.None? ==> r.notes == row.notes
  {
    PropertyRow(row.companyId, u.name.GetOr(row.name), u.address.GetOr(row.address),
                if u.notes.Some? then u.notes else row.notes)
  }

  /** Applying the same update twice is applying it once, and an empty update changes nothing. */
  lemma PropertyUpdateIdempotent(row: PropertyRow, u: PropertyUpdate)
    ensures ApplyPropertyUpdate(ApplyPropertyUpdate(row, u), u) == ApplyPropertyUpdate(row, u)
    ensures NoPropertyFields(u) ==> ApplyPropertyUpdate(row, u) == row
  {
  }

  /**
   * `update_property`: 404 unless the property belongs to the caller's
   * company, 400 when no field is provided, otherwise the provided fields of
   * that one row are written. Every failure leaves the table as it was.
   */
  method UpdateProperty(db: Db, userId: string, propertyId: string, u: PropertyUpdate)
    returns (r: Result<Entry<PropertyRow>>)
    modifies db`properties
    ensures db.CompanyOf(userId).Err? ==> r == Err(db.CompanyOf(userId).error)
    ensures db.CompanyOf(userId).Ok? && !OwnsProperty(old(db.properties), propertyId, db.CompanyOf(userId).value) ==>
      r == Err(HttpError(NOT_FOUND, PropertyNotFound))
    ensures db.CompanyOf(userId).Ok? && OwnsProperty(old(db.properties), propertyId, db.CompanyOf(userId).value)
            && NoPropertyFields(u) ==>
      r == Err(HttpError(BAD_REQUEST, NoFieldsToUpdate))
    ensures r.Err? ==> db.properties == old(db.properties)
    ensures r.Ok? ==>
      && db.CompanyOf(userId).Ok? && OwnsProperty(old(db.properties), propertyId, db.CompanyOf(userId).value)
      && !NoPropertyFields(u)
      && r.value == Entry(propertyId, ApplyPropertyUpdate(old(db.properties)[propertyId], u))
      && db.properties == old(db.properties)[propertyId := r.value.row]
    ensures db.CompanyOf(userId).Ok? && OwnsProperty(old(db.properties), propertyId, db.CompanyOf(userId).value)
            && !NoPropertyFields(u) ==>
      r.Ok?
    ensures old(db.Consistent()) ==> db.Consistent()
  {
    var company := db.CompanyOf(userId);
    if company.Err? {
      return Err(company.error);
    }
    if !OwnsProperty(db.properties, propertyId, company.value) {
      return Err(HttpError(NOT_FOUND, PropertyNotFound));
    }
    var row := db.properties[propertyId];
    var written: set<string> := {};
    if u.name.Some? {
      row := row.(name := u.name.value);
      written := written + {"name"};
    }
    if u.address.Some? {
      row := row.(address := u.address.value);
      written := written + {"address"};
    }
    if u.notes.Some? {
      row := row.(notes := u.notes);
      written := written + {"notes"};
    }
    if written == {} {
      return Err(HttpError(BAD_REQUEST, NoFieldsToUpdate));
    }
    assert row == ApplyPropertyUpdate(db.properties[propertyId], u);
    if db.Consistent() {
      PropertyRewriteKeepsConsistent(db.properties, db.units, db.technicians, db.workOrders, propertyId, row);
    }
    db.properties := db.properties[propertyId := row];
    return Ok(Entry(propertyId, row));
  }

  /** `delete_property`: 404 unless the property belongs to the caller's company; otherwise that row goes. */
  method DeleteProperty(db: Db, userId: string, propertyId: string) returns (r: Result<()>)
    modifies db`properties
    ensures db.CompanyOf(userId).Err? ==> r == Err(db.CompanyOf(userId).error)
    ensures db.CompanyOf(userId).Ok? && !OwnsProperty(old(db.properties), propertyId, db.CompanyOf(userId).value) ==>
      r == Err(HttpError(NOT_FOUND, PropertyNotFound))
    ensures r.Err? ==> db.properties == old(db.properties)
    ensures r.Ok? ==>
      && db.CompanyOf(userId).Ok? && OwnsProperty(old(db.properties), propertyId, db.CompanyOf(userId).value)
      && db.properties == old(db.properties) - {propertyId}
    ensures db.CompanyOf(userId).Ok? && OwnsProperty(old(db.properties), propertyId, db.CompanyOf(userId).value) ==> r.Ok?
    ensures old(db.Consistent()) ==> db.Consistent()
  {
    var company := db.CompanyOf(userId);
    if company.Err? {
      return Err(company.error);
    }
    if !OwnsProperty(db.properties, propertyId, company.value) {
      return Err(HttpError(NOT_FOUND, PropertyNotFound));
    }
    if db.Consistent() {
      PropertyRemovalKeepsConsistent(db.properties, db.units, db.technicians, db.workOrders, propertyId);
    }
    db.properties := ScopedDelete(db.properties, propertyId, company.value, (p: PropertyRow) => p.companyId);
    return Ok(());
  }

  // ----- Units ------------------------------------------------------------

  /** `.eq("property_id", p).eq("company_id", c)` on units. */
  function UnitOfPropertyAndCompany(p: string, c: string): UnitRow -> bool {
    (u: UnitRow) => u.propertyId == p && u.companyId == c
  }

  /** `get_units`: 404 unless the property is the company's; then its units of the company, by label. */
  method GetUnits(db: Db, userId: string, propertyId: string) returns (r: Result<seq<Entry<UnitRow>>>)
    ensures db.CompanyOf(userId).Err? ==> r == Err(db.CompanyOf(userId).error)
    ensures db.CompanyOf(userId).Ok? && !OwnsProperty(db.properties, propertyId, db.CompanyOf(userId).value) ==>
      r == Err(HttpError(NOT_FOUND, PropertyNotFound))
    ensures r.Ok? ==>
      && db.CompanyOf(userId).Ok? && OwnsProperty(db.properties, propertyId, db.CompanyOf(userId).value)
      && r.value == Listed(db.units, UnitOfPropertyAndCompany(propertyId, db.CompanyOf(userId).value), UnitOrder())
    ensures db.CompanyOf(userId).Ok? && OwnsProperty(db.properties, propertyId, db.CompanyOf(userId).value) ==> r.Ok?
  {
    var company := db.CompanyOf(userId);
    if company.Err? {
      return Err(company.error);
    }
    if !OwnsProperty(db.properties, propertyId, company.value) {
      return Err(HttpError(NOT_FOUND, PropertyNotFound));
    }
    var rows := SelectSorted(db.units, UnitOfPropertyAndCompany(propertyId, company.value), UnitOrder());
    return Ok(rows);
  }

  /** `UnitCreate`; `isActive` is `None` when the key is absent (default true). */
  datatype UnitCreate = UnitCreate(propertyId: string, unitLabel: string, notes: Option<string>, isActive: Option<bool>)

  /** The row `create_unit` inserts. */
  function NewUnitRow(company: string, u: UnitCreate): (row: UnitRow)
    ensures row.companyId == company && row.propertyId == u.propertyId && row.unitLabel == u.unitLabel
    ensures row.isActive == (u.isActive != Some(false))
  {
    UnitRow(company, u.propertyId, u.unitLabel, u.notes, u.isActive.GetOr(true))
  }

  /**
   * `create_unit`: 404 unless the property is the company's; then one unit
   * row is inserted under the id the store returns. `newId` is that id, or
   * `None` when the store returns no row.
   */
  method CreateUnit(db: Db, userId: string, u: UnitCreate, newId: Option<string>) returns (r: Result<Entry<UnitRow>>)
    requires newId.Some? ==> db.Unused(newId.value)
    modifies db`units
    ensures db.CompanyOf(userId).Err? ==> r == Err(db.CompanyOf(userId).error)
    ensures db.CompanyOf(userId).Ok? && !OwnsProperty(db.properties, u.propertyId, db.CompanyOf(userId).value) ==>
      r == Err(HttpError(NOT_FOUND, PropertyNotFound))
    ensures db.CompanyOf(userId).Ok? && OwnsProperty(db.properties, u.propertyId, db.CompanyOf(userId).value)
            && newId.None? ==>
      r == Err(HttpError(SERVER_ERROR, UnitCreateFailed))
    ensures r.Err? ==> db.units == old(db.units)
    ensures r.Ok? ==>
      && db.CompanyOf(userId).Ok? && OwnsProperty(db.properties, u.propertyId, db.CompanyOf(userId).value)
      && newId.Some? && r.value == Entry(newId.value, NewUnitRow(db.CompanyOf(userId).value, u))
      && db.units == old(db.units)[newId.value := r.value.row]
    ensures db.CompanyOf(userId).Ok? && OwnsProperty(db.properties, u.propertyId, db.CompanyOf(userId).value)
            && newId.Some? ==>
      r.Ok?
    ensures old(db.Consistent()) ==> db.Consistent()
  {
    var company := db.CompanyOf(userId);
    if company.Err? {
      return Err(company.error);
    }
    if !OwnsProperty(db.properties, u.propertyId, company.value) {
      return Err(HttpError(NOT_FOUND, PropertyNotFound));
    }
    if newId.None? {
      return Err(HttpError(SERVER_ERROR, UnitCreateFailed));
    }
    var row := NewUnitRow(company.value, u);
    if db.Consistent() {
      UnitInsertKeepsConsistent(db.properties, db.units, db.technicians, db.workOrders, newId.value, row);
    }
    db.units := db.units[newId.value := row];
    return Ok(Entry(newId.value, row));
  }

  /** `UnitUpdate`: every field optional. */
  datatype UnitUpdate = UnitUpdate(unitLabel: Option<string>, notes: Option<string>, isActive: Option<bool>)

  predicate NoUnitFields(u: UnitUpdate) {
    u.unitLabel.None? && u.notes.None? && u.isActive.None?
  }

  /** A unit row after an update: the provided fields take the new values; owner and property stay. */
  function ApplyUnitUpdate(row: UnitRow, u: UnitUpdate): (r: UnitRow)
    ensures r.companyId == row.companyId && r.propertyId == row.propertyId
    ensures u.unitLabel.Some? ==> r.unitLabel == u.unitLabel.value
    ensures u.unitLabel.None? ==> r.unitLabel == row.unitLabel
    ensures u.notes.Some? ==> r.notes == u.notes
    ensures u.notes.None? ==> r.notes == row.notes
    ensures u.isActive.Some? ==> r.isActive == u.isActive.value
    ensures u.isActive.None? ==> r.isActive == row.isActive
  {
    UnitRow(row.companyId, row.propertyId, u.unitLabel.GetOr(row.unitLabel),
            if u.notes.Some? then u.notes else row.notes, u.isActive.GetOr(row.isActive))
  }

  lemma UnitUpdateIdempotent(row: UnitRow, u: UnitUpdate)
    ensures ApplyUnitUpdate(ApplyUnitUpdate(row, u), u) == ApplyUnitUpdate(row, u)
    ensures NoUnitFields(u) ==> ApplyUnitUpdate(row, u) == row
  {
  }

  /** `update_unit`: 404 unless the unit is the company's, 400 when no field is provided. */
  method UpdateUnit(db: Db, userId: string, unitId: string, u: UnitUpdate) returns (r: Result<Entry<UnitRow>>)
    modifies db`units
    ensures db.CompanyOf(userId).Err? ==> r == Err(db.CompanyOf(userId).error)
    ensures db.CompanyOf(userId).Ok? && !OwnsUnit(old(db.units), unitId, db.CompanyOf(userId).value) ==>
      r == Err(HttpError(NOT_FOUND, UnitNotFound))
    ensures db.CompanyOf(userId).Ok? && OwnsUnit(old(db.units), unitId, db.CompanyOf(userId).value)
            && NoUnitFields(u) ==>
      r == Err(HttpError(BAD_REQUEST, NoFieldsToUpdate))
    ensures r.Err? ==> db.units == old(db.units)
    ensures r.Ok? ==>
      && db.CompanyOf(userId).Ok? && OwnsUnit(old(db.units), unitId, db.CompanyOf(userId).value)
      && !NoUnitFields(u)
      && r.value == Entry(unitId, ApplyUnitUpdate(old(db.units)[unitId], u))
      && db.units == old(db.units)[unitId := r.value.row]
    ensures db.CompanyOf(userId).Ok? && OwnsUnit(old(db.units), unitId, db.CompanyOf(userId).value)
            && !NoUnitFields(u) ==>
      r.Ok?
    ensures old(db.Consistent()) ==> db.Consistent()
  {
    var company := db.CompanyOf(userId);
    if company.Err? {
      return Err(company.error);
    }
    if !OwnsUnit(db.units, unitId, company.value) {
      return Err(HttpError(NOT_FOUND, UnitNotFound));
    }
    var row := db.units[unitId];
    var written: set<string> := {};
    if u.unitLabel.Some? {
      row := row.(unitLabel := u.unitLabel.value);
      written := written + {"label"};
    }
    if u.notes.Some? {
      row := row.(notes := u.notes);
      written := written + {"notes"};
    }
    if u.isActive.Some? {
      row := row.(isActive := u.isActive.value);
      written := written + {"is_active"};
    }
    if written == {} {
      return Err(HttpError(BAD_REQUEST, NoFieldsToUpdate));
    }
    assert row == ApplyUnitUpdate(db.units[unitId], u);
    if db.Consistent() {
      UnitRewriteKeepsConsistent(db.properties, db.units, db.technicians, db.workOrders, unitId, row);
    }
    db.units := db.units[unitId := row];
    return Ok(Entry(unitId, row));
  }

  /** `delete_unit`: 404 unless the unit is the company's; otherwise that row goes. */
  method DeleteUnit(db: Db, userId: string, unitId: string) returns (r: Result<()>)
    modifies db`units
    ensures db.CompanyOf(userId).Err? ==> r == Err(db.CompanyOf(userId).error)
    ensures db.CompanyOf(userId).Ok? && !OwnsUnit(old(db.units), unitId, db.CompanyOf(userId).value) ==>
      r == Err(HttpError(NOT_FOUND, UnitNotFound))
    ensures r.Err? ==> db.units == old(db.units)
    ensures r.Ok? ==>
      && db.CompanyOf(userId).Ok? && OwnsUnit(old(db.units), unitId, db.CompanyOf(userId).value)
      && db.units == old(db.units) - {unitId}
    ensures db.CompanyOf(userId).Ok? && OwnsUnit(old(db.units), unitId, db.CompanyOf(userId).value) ==> r.Ok?
    ensures old(db.Consistent()) ==> db.Consistent()
  {
    var company := db.CompanyOf(userId);
    if company.Err? {
      return Err(company.error);
    }
    if !OwnsUnit(db.units, unitId, company.value) {
      return Err(HttpError(NOT_FOUND, UnitNotFound));
    }
    if db.Consistent() {
      UnitRemovalKeepsConsistent(db.properties, db.units, db.technicians, db.workOrders, unitId);
    }
    db.units := ScopedDelete(db.units, unitId, company.value, (u: UnitRow) => u.companyId);
    return Ok(());
  }
}
