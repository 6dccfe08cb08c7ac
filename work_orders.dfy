/**
 * The work-order service: the property and unit options a new work order can
 * name, the creation of a work order (with the unit found or created on the
 * fly and the technician checked against the company), the filtered,
 * newest-first, paged listing, and the assignment and status update.
 */
module WorkOrders {
  import opened Wrappers
  import opened Text
  import opened Listing
  import opened Store
  import opened Uuid
  import opened WorkOrderModels

  const PropertyNotFoundForCompany: string := "Property not found for this company."
  const UnitNotInProperty: string := "Unit does not belong to the selected property."
  const UnitCreateFailed: string := "Failed to create unit for property."
  const TechnicianNotInCompany: string := "Technician does not belong to this company."
  const WorkOrderCreateFailed: string := "Failed to create work order."
  const WorkOrderNotFound: string := "Work order not found"
  const NoFieldsToUpdate: string := "No fields to update"

  // ----- get_work_order_options -----------------------------------------------

  /** `PropertyUnitOption`. */
  datatype UnitOption = UnitOption(id: string, unitLabel: string, notes: Option<string>, isActive: bool)

  /** `PropertyOption`. */
  datatype PropertyOption = PropertyOption(
    id: string, name: string, address: Option<string>, notes: Option<string>, units: seq<UnitOption>)

  /** `WorkOrderOptionsResponse`. */
  datatype WorkOrderOptions = WorkOrderOptions(companyId: string, properties: seq<PropertyOption>)

  function UnitOptionOf(e: Entry<UnitRow>): UnitOption {
    UnitOption(e.id, e.row.unitLabel, e.row.notes, e.row.isActive)
  }

  /** The options of a sequence of units, one per unit and in the same order. */
  function UnitOptions(s: seq<Entry<UnitRow>>): (r: seq<UnitOption>)
    ensures |r| == |s|
    ensures forall k :: 0 <= k < |s| ==> r[k] == UnitOptionOf(s[k])
  {
    if |s| == 0 then [] else UnitOptions(s[..|s| - 1]) + [UnitOptionOf(s[|s| - 1])]
  }

  lemma UnitOptionsSnoc(s: seq<Entry<UnitRow>>, e: Entry<UnitRow>)
    ensures UnitOptions(s + [e]) == UnitOptions(s) + [UnitOptionOf(e)]
  {
    assert (s + [e])[..|s|] == s;
  }

  function PropertyOptionOf(e: Entry<PropertyRow>, units: seq<UnitOption>): PropertyOption {
    PropertyOption(e.id, e.row.name, Some(e.row.address), e.row.notes, units)
  }

  /** `.eq("property_id", propertyId)` on units. */
  function UnitInProperty(propertyId: string): UnitRow -> bool {
    (u: UnitRow) => u.propertyId == propertyId
  }

  /** `.in_("property_id", propertyIds)` on units. */
  function UnitInProperties(propertyIds: set<string>): UnitRow -> bool {
    (u: UnitRow) => u.propertyId in propertyIds
  }

  /** `units_map.get(id, [])`. */
  function GroupOf(unitsMap: map<string, seq<UnitOption>>, propertyId: string): seq<UnitOption> {
    if propertyId in unitsMap then unitsMap[propertyId] else []
  }

  /** One step of the `units_map` loop: the unit's option goes at the end of its property's list. */
  lemma GroupStep(unitsMap: map<string, seq<UnitOption>>, done: seq<Entry<UnitRow>>, e: Entry<UnitRow>)
    requires forall pid :: GroupOf(unitsMap, pid) == UnitOptions(Filter(done, UnitInProperty(pid)))
    ensures var owner := e.row.propertyId;
      var next := unitsMap[owner := GroupOf(unitsMap, owner) + [UnitOptionOf(e)]];
      forall pid :: GroupOf(next, pid) == UnitOptions(Filter(done + [e], UnitInProperty(pid)))
  {
    var owner := e.row.propertyId;
    var next := unitsMap[owner := GroupOf(unitsMap, owner) + [UnitOptionOf(e)]];
    forall pid ensures GroupOf(next, pid) == UnitOptions(Filter(done + [e], UnitInProperty(pid))) {
      FilterSnoc(done, e, UnitInProperty(pid));
      if pid == owner {
        UnitOptionsSnoc(Filter(done, UnitInProperty(pid)), e);
      }
    }
  }

  /**
   * The `units_map` loop: every unit's option is appended to the list of its
   * property, so each property's list holds its units in their listed order.
   */
  method GroupByProperty(rows: seq<Entry<UnitRow>>) returns (unitsMap: map<string, seq<UnitOption>>)
    ensures forall pid :: GroupOf(unitsMap, pid) == UnitOptions(Filter(rows, UnitInProperty(pid)))
  {
    unitsMap := map[];
    var i := 0;
    while i < |rows|
      invariant 0 <= i <= |rows|
      invariant forall pid :: GroupOf(unitsMap, pid) == UnitOptions(Filter(rows[..i], UnitInProperty(pid)))
    {
      var e := rows[i];
      GroupStep(unitsMap, rows[..i], e);
      assert rows[..i + 1] == rows[..i] + [e];
      unitsMap := unitsMap[e.row.propertyId := GroupOf(unitsMap, e.row.propertyId) + [UnitOptionOf(e)]];
      i := i + 1;
    }
    assert rows[..|rows|] == rows;
  }

  /**
   * `get_work_order_options`: the company's properties by name, each with
   * the options of its units by label.
   */
  method GetWorkOrderOptions(db: Db, userId: string) returns (r: Result<WorkOrderOptions>)
    ensures db.CompanyOf(userId).Err? ==> r == Err(db.CompanyOf(userId).error)
    ensures db.CompanyOf(userId).Ok? ==>
      var props := Listed(db.properties, PropertyOfCompany(db.CompanyOf(userId).value), PropertyOrder());
      && r.Ok? && r.value.companyId == db.CompanyOf(userId).value
      && |r.value.properties| == |props|
      && forall i :: 0 <= i < |props| ==>
           r.value.properties[i]
           == PropertyOptionOf(props[i], UnitOptions(Listed(db.units, UnitInProperty(props[i].id), UnitOrder())))
  {
    var company := db.CompanyOf(userId);
    if company.Err? {
      return Err(company.error);
    }
    var props := SelectSorted(db.properties, PropertyOfCompany(company.value), PropertyOrder());
    var propertyIds := IdSet(props);
    IdSetMembers(props);
    var unitsMap: map<string, seq<UnitOption>> := map[];
    if |props| > 0 {
      var rows := SelectSorted(db.units, UnitInProperties(propertyIds), UnitOrder());
      unitsMap := GroupByProperty(rows);
      forall pid | pid in propertyIds
        ensures GroupOf(unitsMap, pid) == UnitOptions(Listed(db.units, UnitInProperty(pid), UnitOrder()))
      {
        FilterListing(rows, db.units, UnitInProperties(propertyIds), UnitInProperty(pid), UnitOrder());
        ListingUnique(Filter(rows, UnitInProperty(pid)), Listed(db.units, UnitInProperty(pid), UnitOrder()),
                      db.units, UnitInProperty(pid), UnitOrder());
      }
    }
    var out := PropertyOptions(props, unitsMap);
    assert forall k :: 0 <= k < |props| ==> props[k].id in propertyIds by {
      forall k | 0 <= k < |props| ensures props[k].id in propertyIds {
        assert props[k] in props;
      }
    }
    return Ok(WorkOrderOptions(company.value, out));
  }

  /** Each property with the unit options grouped under its id. */
  method PropertyOptions(props: seq<Entry<PropertyRow>>, unitsMap: map<string, seq<UnitOption>>)
    returns (out: seq<PropertyOption>)
    ensures |out| == |props|
    ensures forall k :: 0 <= k < |props| ==> out[k] == PropertyOptionOf(props[k], GroupOf(unitsMap, props[k].id))
  {
    out := [];
    var i := 0;
    while i < |props|
      invariant 0 <= i <= |props|
      invariant |out| == i
      invariant forall k :: 0 <= k < i ==> out[k] == PropertyOptionOf(props[k], GroupOf(unitsMap, props[k].id))
    {
      out := out + [PropertyOptionOf(props[i], GroupOf(unitsMap, props[i].id))];
      i := i + 1;
    }
  }

  // ----- create_work_order --------------------------------------------------

  /** `_ensure_property`: the company's property, or 404. */
  function EnsureProperty(properties: map<string, PropertyRow>, company: string, propertyId: string): (r: Result<PropertyRow>)
    ensures r.Ok? <==> OwnsProperty(properties, propertyId, company)
    ensures r.Ok? ==> r.value == properties[propertyId]
    ensures r.Err? ==> r.error == HttpError(NOT_FOUND, PropertyNotFoundForCompany)
  {
    if OwnsProperty(properties, propertyId, company) then Ok(properties[propertyId])
    else Err(HttpError(NOT_FOUND, PropertyNotFoundForCompany))
  }

  /** The unit id a request names: its stripped `unit_id`, when that is non-empty. */
  function RequestedUnitId(unitId: Option<string>): (r: Option<string>)
    ensures r.Some? <==> unitId.Some? && Strip(unitId.value) != ""
    ensures r.Some? ==> r.value == Strip(unitId.value)
  {
    if unitId.Some? && Strip(unitId.value) != "" then Some(Strip(unitId.value)) else None
  }

  /** The unit label a request names: its stripped `unit_label`, when that is non-empty. */
  function RequestedLabel(unitLabel: Option<string>): (r: Option<string>)
    ensures r.Some? <==> unitLabel.Some? && Strip(unitLabel.value) != ""
    ensures r.Some? ==> r.value == Strip(unitLabel.value)
  {
    if unitLabel.Some? && Strip(unitLabel.value) != "" then Some(Strip(unitLabel.value)) else None
  }

  /** `.eq("property_id", propertyId).eq("label", label)` finds the unit `id`. */
  predicate LabelMatches(units: map<string, UnitRow>, propertyId: string, wanted: string, id: string) {
    id in units && units[id].propertyId == propertyId && units[id].unitLabel == wanted
  }

  /**
   * `_find_unit_by_label`: some unit of the property with that label (the
   * query has `.limit(1)` and no order), or none when there is none.
   */
  method FindUnitByLabel(units: map<string, UnitRow>, propertyId: string, wanted: string) returns (r: Option<string>)
    ensures r.Some? ==> LabelMatches(units, propertyId, wanted, r.value)
    ensures r.None? ==> forall id :: !LabelMatches(units, propertyId, wanted, id)
  {
    if exists id | id in units :: LabelMatches(units, propertyId, wanted, id) {
      var id :| id in units && LabelMatches(units, propertyId, wanted, id);
      return Some(id);
    }
    return None;
  }

  /** The `(unit_id, unit_label)` pair `_upsert_unit` returns. */
  datatype UnitRef = UnitRef(id: Option<string>, unitLabel: Option<string>)

  /** The unit row `_upsert_unit` inserts for a new label: active, without notes. */
  function NewUnitRow(company: string, propertyId: string, wanted: string): (u: UnitRow)
    ensures u.companyId == company && u.propertyId == propertyId && u.unitLabel == wanted
    ensures u.notes.None? && u.isActive
  {
    UnitRow(company, propertyId, wanted, None, true)
  }

  /** `_get_unit` and its check: a unit id is usable only for a unit of the company and the property. */
  function UnitById(units: map<string, UnitRow>, company: string, propertyId: string, unitId: string): (r: Result<UnitRef>)
    ensures r.Ok? <==> NormalizeUuid(unitId, "unit_id").Ok? && OwnsUnit(units, NormalizeUuid(unitId, "unit_id").value, company)
                       && units[NormalizeUuid(unitId, "unit_id").value].propertyId == propertyId
    ensures r.Ok? ==> var id := NormalizeUuid(unitId, "unit_id").value;
      r.value == UnitRef(Some(id), Some(units[id].unitLabel))
    ensures NormalizeUuid(unitId, "unit_id").Err? ==> r == Err(NormalizeUuid(unitId, "unit_id").error)
    ensures NormalizeUuid(unitId, "unit_id").Ok? && r.Err? ==> r.error == HttpError(UNPROCESSABLE, UnitNotInProperty)
  {
    var id :- NormalizeUuid(unitId, "unit_id");
    if id in units && units[id].companyId == company && units[id].propertyId == propertyId then
      Ok(UnitRef(Some(id), Some(units[id].unitLabel)))
    else Err(HttpError(UNPROCESSABLE, UnitNotInProperty))
  }

  /**
   * What `_upsert_unit` may return and leave behind, from the units table
   * `before` to `after`: a named unit id is checked and used; otherwise a
   * named label reuses one of the property's units with that label or
   * inserts an active one under the id the store returns; with neither, no
   * unit. Only the insert changes the table.
   */
  ghost predicate UpsertOutcome(before: map<string, UnitRow>, after: map<string, UnitRow>, company: string,
                                propertyId: string, unitId: Option<string>, unitLabel: Option<string>,
                                newId: Option<string>, r: Result<UnitRef>)
  {
    match RequestedUnitId(unitId)
    case Some(uid) => after == before && r == UnitById(before, company, propertyId, uid)
    case None =>
      match RequestedLabel(unitLabel)
      case None => after == before && r == Ok(UnitRef(None, None))
      case Some(wanted) =>
        if exists id :: LabelMatches(before, propertyId, wanted, id) then
          && after == before && r.Ok? && r.value.id.Some?
          && LabelMatches(before, propertyId, wanted, r.value.id.value) && r.value.unitLabel == Some(wanted)
        else if newId.None? then
          after == before && r == Err(HttpError(BAD_REQUEST, UnitCreateFailed))
        else
          && after == before[newId.value := NewUnitRow(company, propertyId, wanted)]
          && r == Ok(UnitRef(newId, Some(wanted)))
  }

  /**
   * `_upsert_unit`. `newId` is the id the store gives an inserted unit
   * (`None`: no row came back).
   */
  method UpsertUnit(db: Db, company: string, propertyId: string, unitId: Option<string>, unitLabel: Option<string>,
                    newId: Option<string>)
    returns (r: Result<UnitRef>)
    requires newId.Some? ==> db.Unused(newId.value)
    modifies db`units
    ensures UpsertOutcome(old(db.units), db.units, company, propertyId, unitId, unitLabel, newId, r)
    ensures old(db.Consistent()) && OwnsProperty(db.properties, propertyId, company) ==> db.Consistent()
  {
    var uid := RequestedUnitId(unitId);
    if uid.Some? {
      return UnitById(db.units, company, propertyId, uid.value);
    }
    var wanted := RequestedLabel(unitLabel);
    if wanted.Some? {
      var existing := FindUnitByLabel(db.units, propertyId, wanted.value);
      if existing.Some? {
        return Ok(UnitRef(existing, Some(db.units[existing.value].unitLabel)));
      }
      if newId.None? {
        return Err(HttpError(BAD_REQUEST, UnitCreateFailed));
      }
      var row := NewUnitRow(company, propertyId, wanted.value);
      if db.Consistent() && OwnsProperty(db.properties, propertyId, company) {
        assert forall w :: w in db.workOrders.Values ==> w.unitId != Some(newId.value);
        UnitInsertKeepsConsistent(db.properties, db.units, db.technicians, db.workOrders, newId.value, row);
      }
      db.units := db.units[newId.value := row];
      return Ok(UnitRef(newId, Some(wanted.value)));
    }
    return Ok(UnitRef(None, None));
  }

  /**
   * In a consistent store, the unit `_upsert_unit` hands back for a property
   * of the company is a unit of that property and that company.
   */
  lemma UpsertedUnitBelongs(before: map<string, UnitRow>, after: map<string, UnitRow>, properties: map<string, PropertyRow>,
                            technicians: map<string, TechnicianRow>, workOrders: map<string, WorkOrderRow>,
                            company: string, propertyId: string, unitId: Option<string>, unitLabel: Option<string>,
                            newId: Option<string>, r: Result<UnitRef>)
    requires TenantConsistent(properties, before, technicians, workOrders)
    requires OwnsProperty(properties, propertyId, company)
    requires UpsertOutcome(before, after, company, propertyId, unitId, unitLabel, newId, r)
    requires r.Ok? && r.value.id.Some?
    ensures OwnsUnit(after, r.value.id.value, company) && after[r.value.id.value].propertyId == propertyId
    ensures r.value.unitLabel == Some(after[r.value.id.value].unitLabel)
  {
  }

  /** `_upsert_unit` adds at most one row, and keeps every row already there. */
  lemma UpsertGrowsByAtMostOne(before: map<string, UnitRow>, after: map<string, UnitRow>, company: string,
                               propertyId: string, unitId: Option<string>, unitLabel: Option<string>,
                               newId: Option<string>, r: Result<UnitRef>)
    requires UpsertOutcome(before, after, company, propertyId, unitId, unitLabel, newId, r)
    requires newId.Some? ==> newId.value !in before
    ensures forall id :: id in before ==> id in after && after[id] == before[id]
    ensures after.Keys == before.Keys || (newId.Some? && after.Keys == before.Keys + {newId.value})
  {
  }

  /**
   * A label lookup settles: the same request made again inserts nothing and
   * hands back a unit with the same label; when the first request created
   * the unit, the second finds exactly that unit.
   */
  lemma {:induction false} UpsertSettles(before: map<string, UnitRow>, after: map<string, UnitRow>, again: map<string, UnitRow>,
                                         company: string, propertyId: string, unitLabel: Option<string>,
                                         newId: Option<string>, r: Result<UnitRef>, newId2: Option<string>, r2: Result<UnitRef>)
    requires UpsertOutcome(before, after, company, propertyId, None, unitLabel, newId, r) && r.Ok?
    requires UpsertOutcome(after, again, company, propertyId, None, unitLabel, newId2, r2)
    ensures again == after && r2.Ok? && r2.value.unitLabel == r.value.unitLabel
    ensures after != before ==> r2 == r
  {
    if RequestedLabel(unitLabel).Some? {
      var wanted := RequestedLabel(unitLabel).value;
      if exists id :: LabelMatches(before, propertyId, wanted, id) {
        assert LabelMatches(after, propertyId, wanted, r.value.id.value);
      } else {
        assert LabelMatches(after, propertyId, wanted, newId.value);
        assert forall id :: LabelMatches(after, propertyId, wanted, id) && id != newId.value ==>
          LabelMatches(before, propertyId, wanted, id);
      }
    }
  }

  /**
   * The technician check of `create_work_order` and `update_work_order`: the
   * id must parse as a UUID (422 naming the field) and name a technician of
   * the company (422 otherwise); the normalized id is the one stored.
   */
  function CheckTechnician(technicians: map<string, TechnicianRow>, company: string, given: string): (r: Result<string>)
    ensures r.Ok? <==> NormalizeUuid(given, "assigned_technician_id").Ok?
                       && OwnsTechnician(technicians, NormalizeUuid(given, "assigned_technician_id").value, company)
    ensures r.Ok? ==> r.value == NormalizeUuid(given, "assigned_technician_id").value && IsCanonicalUuid(r.value)
    ensures NormalizeUuid(given, "assigned_technician_id").Err? ==> r == Err(NormalizeUuid(given, "assigned_technician_id").error)
    ensures NormalizeUuid(given, "assigned_technician_id").Ok? && r.Err? ==>
      r.error == HttpError(UNPROCESSABLE, TechnicianNotInCompany)
  {
    var id :- NormalizeUuid(given, "assigned_technician_id");
    if OwnsTechnician(technicians, id, company) then Ok(id) else Err(HttpError(UNPROCESSABLE, TechnicianNotInCompany))
  }

  /** The technician of a new work order: none unless the request names one, which must pass the check. */
  function AssignedOnCreate(technicians: map<string, TechnicianRow>, company: string, given: Option<string>)
    : (r: Result<Option<string>>)
    ensures given.None? || given.value == "" ==> r == Ok(None)
    ensures given.Some? && given.value != "" ==>
      && (r.Ok? <==> CheckTechnician(technicians, company, given.value).Ok?)
      && (r.Ok? ==> r.value == Some(CheckTechnician(technicians, company, given.value).value))
      && (r.Err? ==> r.error == CheckTechnician(technicians, company, given.value).error)
    ensures r.Ok? && r.value.Some? ==> OwnsTechnician(technicians, r.value.value, company)
  {
    if given.Some? && given.value != "" then
      var id :- CheckTechnician(technicians, company, given.value);
      Ok(Some(id))
    else Ok(None)
  }

  /** `WorkOrderResponse`. */
  datatype WorkOrderView = WorkOrderView(
    id: string, companyId: string, propertyId: string, propertyName: Option<string>,
    unitId: Option<string>, unitLabel: Option<string>, issue: string, priority: string, status: string,
    pte: Option<bool>, preferredWindow: Option<string>, tenantName: Option<string>, tenantPhone: Option<string>,
    assignedTechnicianId: Option<string>, createdAt: nat)

  function WorkOrderViewOf(e: Entry<WorkOrderRow>, propertyName: Option<string>): WorkOrderView {
    var w := e.row;
    WorkOrderView(e.id, w.companyId, w.propertyId, propertyName, w.unitId, w.unit, w.issue, w.priority, w.status,
                  w.pte, w.preferredWindow, w.tenantName, w.tenantPhone, w.assignedTechnicianId, w.createdAt)
  }

  /** The `work_order_payload` row; its status is the column default and its time the server's. */
  function NewWorkOrderRow(company: string, req: WorkOrderCreate, unit: UnitRef, assignee: Option<string>, now: nat)
    : (w: WorkOrderRow)
    ensures w.companyId == company && w.propertyId == req.propertyId && w.status == OpenStatus
    ensures w.unitId == unit.id && w.unit == unit.unitLabel && w.assignedTechnicianId == assignee
    ensures w.issue == req.issue && w.priority == req.priority.Name() && w.createdAt == now
  {
    WorkOrderRow(company, req.propertyId, unit.id, unit.unitLabel, req.issue, req.priority.Name(), OpenStatus,
                 req.pte, req.preferredWindow, req.tenantName, req.tenantPhone, assignee, now)
  }

  /**
   * `create_work_order` past the property check: the unit (`_upsert_unit`,
   * which may insert one), then the technician (422), then the insert. A
   * technician failure after a unit was created leaves that unit in place.
   * `unit` is what `_upsert_unit` returned.
   */
  method CreateForProperty(db: Db, company: string, req: WorkOrderCreate, now: nat,
                           unitNewId: Option<string>, newId: Option<string>)
    returns (r: Result<WorkOrderView>, ghost unit: Result<UnitRef>)
    requires OwnsProperty(db.properties, req.propertyId, company)
    requires unitNewId.Some? ==> db.Unused(unitNewId.value)
    modifies db`units, db`workOrders
    ensures UpsertOutcome(old(db.units), db.units, company, req.propertyId, req.unitId, req.unitLabel, unitNewId, unit)
    ensures unit.Err? ==> r == Err(unit.error)
    ensures unit.Ok? && AssignedOnCreate(db.technicians, company, req.assignedTechnicianId).Err? ==>
      r == Err(AssignedOnCreate(db.technicians, company, req.assignedTechnicianId).error)
    ensures unit.Ok? && AssignedOnCreate(db.technicians, company, req.assignedTechnicianId).Ok? && newId.None? ==>
      r == Err(HttpError(BAD_REQUEST, WorkOrderCreateFailed))
    ensures r.Err? ==> db.workOrders == old(db.workOrders)
    ensures r.Ok? ==>
      && unit.Ok? && AssignedOnCreate(db.technicians, company, req.assignedTechnicianId).Ok? && newId.Some?
      && db.workOrders == old(db.workOrders)[newId.value := NewWorkOrderRow(company, req, unit.value,
                                   AssignedOnCreate(db.technicians, company, req.assignedTechnicianId).value, now)]
      && r.value == WorkOrderViewOf(Entry(newId.value, db.workOrders[newId.value]), Some(db.properties[req.propertyId].name))
    ensures unit.Ok? && AssignedOnCreate(db.technicians, company, req.assignedTechnicianId).Ok? && newId.Some? ==>
      r.Ok?
    ensures old(db.Consistent()) ==> db.Consistent()
  {
    ghost var unitsBefore, wasConsistent := db.units, db.Consistent();
    var upserted := UpsertUnit(db, company, req.propertyId, req.unitId, req.unitLabel, unitNewId);
    unit := upserted;
    if upserted.Err? {
      return Err(upserted.error), unit;
    }
    var assignee := AssignedOnCreate(db.technicians, company, req.assignedTechnicianId);
    if assignee.Err? {
      return Err(assignee.error), unit;
    }
    if newId.None? {
      return Err(HttpError(BAD_REQUEST, WorkOrderCreateFailed)), unit;
    }
    var row := NewWorkOrderRow(company, req, upserted.value, assignee.value, now);
    if wasConsistent {
      if upserted.value.id.Some? {
        UpsertedUnitBelongs(unitsBefore, db.units, db.properties, db.technicians, db.workOrders, company,
                            req.propertyId, req.unitId, req.unitLabel, unitNewId, unit);
      }
      WorkOrderWriteKeepsConsistent(db.properties, db.units, db.technicians, db.workOrders, newId.value, row);
    }
    db.workOrders := db.workOrders[newId.value := row];
    return Ok(WorkOrderViewOf(Entry(newId.value, row), Some(db.properties[req.propertyId].name))), unit;
  }

  /**
   * `create_work_order`: the caller's company (400), the company's property
   * (404, before any write), then the rest as `CreateForProperty`. `now` is
   * the server's creation time; `unitNewId` and `newId` are the ids the store
   * gives a new unit and the new work order (`None`: no row came back).
   */
  method CreateWorkOrder(db: Db, userId: string, req: WorkOrderCreate, now: nat,
                         unitNewId: Option<string>, newId: Option<string>)
    returns (r: Result<WorkOrderView>, ghost unit: Result<UnitRef>)
    requires unitNewId.Some? ==> db.Unused(unitNewId.value)
    modifies db`units, db`workOrders
    ensures db.CompanyOf(userId).Err? ==> r == Err(db.CompanyOf(userId).error)
    ensures db.CompanyOf(userId).Ok? && !OwnsProperty(db.properties, req.propertyId, db.CompanyOf(userId).value) ==>
      r == Err(HttpError(NOT_FOUND, PropertyNotFoundForCompany))
    ensures db.CompanyOf(userId).Err? || !OwnsProperty(db.properties, req.propertyId, db.CompanyOf(userId).value) ==>
      db.units == old(db.units) && db.workOrders == old(db.workOrders)
    ensures db.CompanyOf(userId).Ok? && OwnsProperty(db.properties, req.propertyId, db.CompanyOf(userId).value) ==>
      var company := db.CompanyOf(userId).value;
      var assignee := AssignedOnCreate(db.technicians, company, req.assignedTechnicianId);
      && UpsertOutcome(old(db.units), db.units, company, req.propertyId, req.unitId, req.unitLabel, unitNewId, unit)
      && (unit.Err? ==> r == Err(unit.error))
      && (unit.Ok? && assignee.Err? ==> r == Err(assignee.error))
      && (unit.Ok? && assignee.Ok? && newId.None? ==> r == Err(HttpError(BAD_REQUEST, WorkOrderCreateFailed)))
      && (unit.Ok? && assignee.Ok? && newId.Some? ==> r.Ok?)
      && (r.Err? ==> db.workOrders == old(db.workOrders))
      && (r.Ok? ==>
           && unit.Ok? && assignee.Ok? && newId.Some?
           && db.workOrders == old(db.workOrders)[newId.value := NewWorkOrderRow(company, req, unit.value, assignee.value, now)]
           && r.value == WorkOrderViewOf(Entry(newId.value, db.workOrders[newId.value]), Some(db.properties[req.propertyId].name)))
    ensures r.Ok? ==> db.CompanyOf(userId).Ok? && OwnsProperty(db.properties, req.propertyId, db.CompanyOf(userId).value)
    ensures old(db.Consistent()) ==> db.Consistent()
  {
    unit := Err(HttpError(NOT_FOUND, PropertyNotFoundForCompany));
    var company := db.CompanyOf(userId);
    if company.Err? {
      return Err(company.error), unit;
    }
    var property := EnsureProperty(db.properties, company.value, req.propertyId);
    if property.Err? {
      return Err(property.error), unit;
    }
    r, unit := CreateForProperty(db, company.value, req, now, unitNewId, newId);
  }

  /** A work order created for a property shows the property's name, the status "open" and its priority's name. */
  lemma CreatedWorkOrderShape(company: string, req: WorkOrderCreate, unit: UnitRef, assignee: Option<string>, now: nat,
                              id: string, properties: map<string, PropertyRow>)
    requires OwnsProperty(properties, req.propertyId, company) && req.propertyId != ""
    ensures var v := WorkOrderViewOf(Entry(id, NewWorkOrderRow(company, req, unit, assignee, now)), Some(properties[req.propertyId].name));
      && v.status == "open" && v.priority in {"routine", "emergency"} && v.companyId == company
      && v.propertyName == NameOfProperty(properties, req.propertyId)
  {
  }

  // ----- get_work_orders --------------------------------------------------------

  /** `WorkOrderListResponse`: one page and the number of matching work orders. */
  datatype WorkOrderList = WorkOrderList(workOrders: seq<WorkOrderView>, total: nat)

  /** The company's work orders, narrowed by a non-empty status and a non-empty priority filter. */
  function WorkOrderMatches(company: string, statusFilter: Option<string>, priorityFilter: Option<string>)
    : WorkOrderRow -> bool
  {
    (w: WorkOrderRow) =>
      && w.companyId == company
      && (statusFilter.None? || statusFilter.value == "" || w.status == statusFilter.value)
      && (priorityFilter.None? || priorityFilter.value == "" || w.priority == priorityFilter.value)
  }

  function CreatedAt(w: WorkOrderRow): nat { w.createdAt }

  /** `.order("created_at", desc=True)` (ties by id). */
  function NewestFirst(): (le: (Entry<WorkOrderRow>, Entry<WorkOrderRow>) -> bool)
    ensures IsTotalOrder(le)
  {
    NewestFirstIsTotalOrder(CreatedAt);
    ByNewest(CreatedAt)
  }

  /** The non-empty property ids of some work orders (`property_ids`). */
  function WorkOrderPropertyIds(rows: seq<Entry<WorkOrderRow>>): (ids: set<string>)
    ensures forall k :: 0 <= k < |rows| && rows[k].row.propertyId != "" ==> rows[k].row.propertyId in ids
    ensures "" !in ids
  {
    if rows == [] then {}
    else
      var rest := WorkOrderPropertyIds(rows[1..]);
      if rows[0].row.propertyId != "" then rest + {rows[0].row.propertyId} else rest
  }

  /** Looking up a listed work order's property among the fetched names gives its name. */
  lemma PageNamesCover(properties: map<string, PropertyRow>, page: seq<Entry<WorkOrderRow>>, k: nat)
    requires k < |page|
    ensures var names := PropertyNames(properties, WorkOrderPropertyIds(page));
      var pid := page[k].row.propertyId;
      (if pid in names then Some(names[pid]) else None) == NameOfProperty(properties, pid)
  {
  }

  /**
   * `get_work_orders`: the company's work orders that pass the filters,
   * newest first, from `offset` at most `limit` of them, each with its
   * property's name; `total` counts every matching work order.
   */
  method GetWorkOrders(db: Db, userId: string, statusFilter: Option<string>, priorityFilter: Option<string>,
                       limit: nat, offset: nat)
    returns (r: Result<WorkOrderList>)
    ensures db.CompanyOf(userId).Err? ==> r == Err(db.CompanyOf(userId).error)
    ensures db.CompanyOf(userId).Ok? ==>
      var keep := WorkOrderMatches(db.CompanyOf(userId).value, statusFilter, priorityFilter);
      var page := Page(Listed(db.workOrders, keep, NewestFirst()), offset, limit);
      && r.Ok? && r.value.total == |MatchingIds(db.workOrders, keep)|
      && |r.value.workOrders| == |page|
      && forall i :: 0 <= i < |page| ==>
           r.value.workOrders[i] == WorkOrderViewOf(page[i], NameOfProperty(db.properties, page[i].row.propertyId))
  {
    var company := db.CompanyOf(userId);
    if company.Err? {
      return Err(company.error);
    }
    var keep := WorkOrderMatches(company.value, statusFilter, priorityFilter);
    var total := |MatchingIds(db.workOrders, keep)|;
    var rows := SelectSorted(db.workOrders, keep, NewestFirst());
    var page := Page(rows, offset, limit);
    var out := WorkOrderViews(db.properties, page);
    return Ok(WorkOrderList(out, total));
  }

  /** The page's work orders, each with the name of its property, fetched in one lookup. */
  method WorkOrderViews(properties: map<string, PropertyRow>, page: seq<Entry<WorkOrderRow>>)
    returns (out: seq<WorkOrderView>)
    ensures |out| == |page|
    ensures forall k :: 0 <= k < |page| ==>
      out[k] == WorkOrderViewOf(page[k], NameOfProperty(properties, page[k].row.propertyId))
  {
    var names := PropertyNames(properties, WorkOrderPropertyIds(page));
    out := [];
    var i := 0;
    while i < |page|
      invariant 0 <= i <= |page|
      invariant |out| == i
      invariant forall k :: 0 <= k < i ==> out[k] == WorkOrderViewOf(page[k], NameOfProperty(properties, page[k].row.propertyId))
    {
      var pid := page[i].row.propertyId;
      var name := if pid in names then Some(names[pid]) else None;
      PageNamesCover(properties, page, i);
      out := out + [WorkOrderViewOf(page[i], name)];
      i := i + 1;
    }
  }

  /**
   * The listing `get_work_orders` pages through: only the company's work
   * orders that pass the filters, all of them, newest first, with `total`
   * entries; and consecutive pages together make up the longer page.
   */
  lemma WorkOrderListingIsScoped(workOrders: map<string, WorkOrderRow>, company: string,
                                 statusFilter: Option<string>, priorityFilter: Option<string>, offset: nat, limit: nat)
    ensures var keep := WorkOrderMatches(company, statusFilter, priorityFilter);
      var listed := Listed(workOrders, keep, NewestFirst());
      && (forall e :: e in listed ==> e.id in workOrders && workOrders[e.id] == e.row && e.row.companyId == company)
      && (forall e :: e in listed && statusFilter.Some? && statusFilter.value != "" ==> e.row.status == statusFilter.value)
      && (forall e :: e in listed && priorityFilter.Some? && priorityFilter.value != "" ==> e.row.priority == priorityFilter.value)
      && (forall id :: id in workOrders && keep(workOrders[id]) ==> Entry(id, workOrders[id]) in listed)
      && (forall i, j :: 0 <= i < j < |listed| ==> listed[i].row.createdAt >= listed[j].row.createdAt)
      && |listed| == |MatchingIds(workOrders, keep)|
      && Page(listed, offset, limit) + Page(listed, offset + limit, limit) == Page(listed, offset, 2 * limit)
  {
    var keep := WorkOrderMatches(company, statusFilter, priorityFilter);
    var listed := Listed(workOrders, keep, NewestFirst());
    ByNewestSortedTimes(listed, CreatedAt);
    ListingCount(listed, workOrders, keep, NewestFirst());
    PagesTile(listed, offset, limit, limit);
  }

  /**
   * The source orders by `created_at` alone. When the matching work orders
   * carry pairwise distinct creation times, the id tie-break never decides:
   * every arrangement of exactly those rows by non-increasing creation time,
   * which is all the source's order promises, is the model's listing.
   */
  lemma DistinctTimesFixWorkOrderListing(workOrders: map<string, WorkOrderRow>, keep: WorkOrderRow -> bool,
                                         s: seq<Entry<WorkOrderRow>>)
    requires DistinctIds(s) && ListsExactly(s, workOrders, keep)
    requires forall i, j :: 0 <= i < j < |s| ==> s[i].row.createdAt >= s[j].row.createdAt
    requires forall a, b :: a in workOrders && b in workOrders && a != b && keep(workOrders[a]) && keep(workOrders[b]) ==>
      workOrders[a].createdAt != workOrders[b].createdAt
    ensures s == Listed(workOrders, keep, NewestFirst())
  {
    var le := NewestFirst();
    forall i, j | 0 <= i < j < |s| ensures le(s[i], s[j]) {
      assert s[i] in s && s[j] in s;
      assert s[i].row.createdAt != s[j].row.createdAt;
      assert NewerThenIdLe(CreatedAt(s[i].row), s[i].id, CreatedAt(s[j].row), s[j].id);
    }
    assert IsListing(s, workOrders, keep, le);
    ListingUnique(s, Listed(workOrders, keep, le), workOrders, keep, le);
  }

  // ----- update_work_order ------------------------------------------------------

  /** `WorkOrderUpdate`, as `update_work_order` reads it: both fields optional. */
  datatype WorkOrderUpdate = WorkOrderUpdate(assignedTechnicianId: Option<string>, status: Option<string>)

  /**
   * The technician column an update writes: nothing for an absent key, a
   * cleared column for an empty id, and otherwise the checked technician.
   */
  function TechnicianWrite(technicians: map<string, TechnicianRow>, company: string, given: Option<string>)
    : (r: Result<Option<Option<string>>>)
    ensures given.None? ==> r == Ok(None)
    ensures given == Some("") ==> r == Ok(Some(None))
    ensures given.Some? && given.value != "" ==>
      && (r.Ok? <==> CheckTechnician(technicians, company, given.value).Ok?)
      && (r.Ok? ==> r.value == Some(Some(CheckTechnician(technicians, company, given.value).value)))
      && (r.Err? ==> r.error == CheckTechnician(technicians, company, given.value).error)
  {
    match given
    case None => Ok(None)
    case Some(id) =>
      if id == "" then Ok(Some(None))
      else
        var checked :- CheckTechnician(technicians, company, id);
        Ok(Some(Some(checked)))
  }

  /** A work order after an update: at most the technician and the status change. */
  function ApplyWorkOrderUpdate(w: WorkOrderRow, technician: Option<Option<string>>, status: Option<string>)
    : (r: WorkOrderRow)
    ensures r.assignedTechnicianId == (if technician.Some? then technician.value else w.assignedTechnicianId)
    ensures r.status == status.GetOr(w.status)
    ensures r.(assignedTechnicianId := w.assignedTechnicianId, status := w.status) == w
  {
    w.(assignedTechnicianId := if technician.Some? then technician.value else w.assignedTechnicianId,
       status := status.GetOr(w.status))
  }

  lemma WorkOrderUpdateIdempotent(w: WorkOrderRow, technician: Option<Option<string>>, status: Option<string>)
    ensures ApplyWorkOrderUpdate(ApplyWorkOrderUpdate(w, technician, status), technician, status)
            == ApplyWorkOrderUpdate(w, technician, status)
    ensures technician.None? && status.None? ==> ApplyWorkOrderUpdate(w, technician, status) == w
  {
  }

  /** An assignment an update writes names a technician of the company, or clears the column. */
  lemma AssignmentIsOwnTechnician(technicians: map<string, TechnicianRow>, company: string, given: Option<string>)
    requires TechnicianWrite(technicians, company, given).Ok?
    ensures var t := TechnicianWrite(technicians, company, given).value;
      t.Some? && t.value.Some? ==> OwnsTechnician(technicians, t.value.value, company)
    ensures TechnicianWrite(technicians, company, given).value == Some(None) <==> given == Some("")
  {
  }

  /**
   * `update_work_order`: 404 unless the work order is the company's; then
   * the technician (422 when it does not check), then 400 when nothing is to
   * be written; otherwise the technician and status of that row are written.
   */
  method UpdateWorkOrder(db: Db, userId: string, workOrderId: string, u: WorkOrderUpdate)
    returns (r: Result<WorkOrderView>)
    modifies db`workOrders
    ensures db.CompanyOf(userId).Err? ==> r == Err(db.CompanyOf(userId).error)
    ensures db.CompanyOf(userId).Ok? && !OwnsWorkOrder(old(db.workOrders), workOrderId, db.CompanyOf(userId).value) ==>
      r == Err(HttpError(NOT_FOUND, WorkOrderNotFound))
    ensures db.CompanyOf(userId).Ok? && OwnsWorkOrder(old(db.workOrders), workOrderId, db.CompanyOf(userId).value) ==>
      var write := TechnicianWrite(db.technicians, db.CompanyOf(userId).value, u.assignedTechnicianId);
      && (write.Err? ==> r == Err(write.error))
      && (write.Ok? && write.value.None? && u.status.None? ==> r == Err(HttpError(BAD_REQUEST, NoFieldsToUpdate)))
      && (write.Ok? && (write.value.Some? || u.status.Some?) ==> r.Ok?)
      && (r.Ok? ==>
           && write.Ok? && (write.value.Some? || u.status.Some?)
           && db.workOrders == old(db.workOrders)[workOrderId :=
                ApplyWorkOrderUpdate(old(db.workOrders)[workOrderId], write.value, u.status)])
    ensures r.Err? ==> db.workOrders == old(db.workOrders)
    ensures r.Ok? ==>
      && db.CompanyOf(userId).Ok? && OwnsWorkOrder(old(db.workOrders), workOrderId, db.CompanyOf(userId).value)
      && r.value == WorkOrderViewOf(Entry(workOrderId, db.workOrders[workOrderId]),
                                    NameOfProperty(db.properties, db.workOrders[workOrderId].propertyId))
    ensures old(db.Consistent()) ==> db.Consistent()
  {
    var company := db.CompanyOf(userId);
    if company.Err? {
      return Err(company.error);
    }
    if !OwnsWorkOrder(db.workOrders, workOrderId, company.value) {
      return Err(HttpError(NOT_FOUND, WorkOrderNotFound));
    }
    var written: set<string> := {};
    var technician: Option<Option<string>> := None;
    if u.assignedTechnicianId.Some? {
      if u.assignedTechnicianId.value != "" {
        var checked := CheckTechnician(db.technicians, company.value, u.assignedTechnicianId.value);
        if checked.Err? {
          return Err(checked.error);
        }
        technician := Some(Some(checked.value));
      } else {
        technician := Some(None);
      }
      written := written + {"assigned_technician_id"};
    }
    if u.status.Some? {
      written := written + {"status"};
    }
    if written == {} {
      return Err(HttpError(BAD_REQUEST, NoFieldsToUpdate));
    }
    var row := ApplyWorkOrderUpdate(db.workOrders[workOrderId], technician, u.status);
    if db.Consistent() {
      WorkOrderWriteKeepsConsistent(db.properties, db.units, db.technicians, db.workOrders, workOrderId, row);
    }
    db.workOrders := db.workOrders[workOrderId := row];
    return Ok(WorkOrderViewOf(Entry(workOrderId, row), NameOfProperty(db.properties, row.propertyId)));
  }
}
