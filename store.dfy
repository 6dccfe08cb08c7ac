/**
 * The backing tables, as maps from row id to row, and the tenant rules that
 * tie them together: every row carries the id of the company that owns it,
 * and a row that points at another row points at one of its own company.
 */
module Store {
  import opened Wrappers
  import opened Listing

  /** `app_users`: a signed-up user and the company it was provisioned into. */
  datatype AppUser = AppUser(companyId: Option<string>)

  /** `companies`; `None` marks a column the row does not carry. */
  datatype Company = Company(
    name: Option<string>, timezone: Option<string>,
    workHoursStart: Option<string>, workHoursEnd: Option<string>,
    autoAssign: Option<bool>, onCallEnabled: Option<bool>, onCallRotation: Option<string>,
    intake: Option<string>, collectPte: Option<bool>, collectWindow: Option<bool>)

  /** `properties`. */
  datatype PropertyRow = PropertyRow(companyId: string, name: string, address: string, notes: Option<string>)

  /** `property_units`. */
  datatype UnitRow = UnitRow(companyId: string, propertyId: string, unitLabel: string, notes: Option<string>, isActive: bool)

  /** `technicians`; an `availability` of `None` is the column default, "available". */
  datatype TechnicianRow = TechnicianRow(
    companyId: string, userId: Option<string>, firstName: string, lastName: string,
    phone: Option<string>, email: Option<string>, defaultPropertyId: Option<string>,
    shift: Option<string>, meritPercent: int, availability: Option<string>)

  /** `emergency_vendors`. */
  datatype VendorRow = VendorRow(companyId: string, category: string, name: string, phone: Option<string>)

  /** `work_orders`; `createdAt` is the server-assigned creation time. */
  datatype WorkOrderRow = WorkOrderRow(
    companyId: string, propertyId: string, unitId: Option<string>, unit: Option<string>,
    issue: string, priority: string, status: string, pte: Option<bool>,
    preferredWindow: Option<string>, tenantName: Option<string>, tenantPhone: Option<string>,
    assignedTechnicianId: Option<string>, createdAt: nat)

  /** The status a new work order gets from its column default. */
  const OpenStatus: string := "open"

  /**
   * Tenant consistency: no row is stored under the empty id, and a unit, a
   * technician's default property or a work order's property, unit and
   * technician, when it points at a row that exists, points at a row of its
   * own company. A dangling reference (left by a delete) breaks nothing.
   */
  predicate TenantConsistent(properties: map<string, PropertyRow>, units: map<string, UnitRow>,
                             technicians: map<string, TechnicianRow>, workOrders: map<string, WorkOrderRow>)
  {
    && "" !in properties && "" !in units && "" !in technicians
    && (forall id :: id in units && units[id].propertyId in properties ==>
          properties[units[id].propertyId].companyId == units[id].companyId)
    && (forall id ::
          (id in technicians && technicians[id].defaultPropertyId.Some?
           && technicians[id].defaultPropertyId.value in properties) ==>
          properties[technicians[id].defaultPropertyId.value].companyId == technicians[id].companyId)
    && (forall id :: id in workOrders && workOrders[id].propertyId in properties ==>
          properties[workOrders[id].propertyId].companyId == workOrders[id].companyId)
    && (forall id :: id in workOrders && workOrders[id].unitId.Some? && workOrders[id].unitId.value in units ==>
          units[workOrders[id].unitId.value].companyId == workOrders[id].companyId)
    && (forall id ::
          (id in workOrders && workOrders[id].assignedTechnicianId.Some?
           && workOrders[id].assignedTechnicianId.value in technicians) ==>
          technicians[workOrders[id].assignedTechnicianId.value].companyId == workOrders[id].companyId)
  }

  const NoCompanyMessage: string := "User is not associated with a company."

  /** The database: one map per table. */
  class Db {
    var appUsers: map<string, AppUser>
    var companies: map<string, Company>
    var properties: map<string, PropertyRow>
    var units: map<string, UnitRow>
    var technicians: map<string, TechnicianRow>
    var vendors: map<string, VendorRow>
    var workOrders: map<string, WorkOrderRow>

    constructor()
      ensures appUsers == map[] && companies == map[] && properties == map[] && units == map[]
      ensures technicians == map[] && vendors == map[] && workOrders == map[]
      ensures Consistent()
    {
      appUsers, companies, properties, units := map[], map[], map[], map[];
      technicians, vendors, workOrders := map[], map[], map[];
    }

    predicate Consistent()
      reads this
    {
      TenantConsistent(properties, units, technicians, workOrders)
    }

    /**
     * The company of the calling user (`_get_app_user` and its check): a user
     * without a profile or with no company gets 400.
     */
    function CompanyOf(userId: string): (r: Result<string>)
      reads this`appUsers
      ensures r.Ok? <==> userId in appUsers && appUsers[userId].companyId.Some? && appUsers[userId].companyId.value != ""
      ensures r.Ok? ==> r.value == appUsers[userId].companyId.value
      ensures r.Err? ==> r.error == HttpError(BAD_REQUEST, NoCompanyMessage)
    {
      if userId in appUsers && appUsers[userId].companyId.Some? && appUsers[userId].companyId.value != "" then
        Ok(appUsers[userId].companyId.value)
      else Err(HttpError(BAD_REQUEST, NoCompanyMessage))
    }

    /** A row the store can hand out as a new id: no table has it, and no row points at it. */
    predicate Unused(id: string)
      reads this
    {
      && id != "" && id !in properties && id !in units && id !in technicians
      && id !in vendors && id !in workOrders
      && (forall u :: u in units.Values ==> u.propertyId != id)
      && (forall t :: t in technicians.Values ==> t.defaultPropertyId != Some(id))
      && (forall w :: w in workOrders.Values ==>
            w.propertyId != id && w.unitId != Some(id) && w.assignedTechnicianId != Some(id))
    }
  }

  /** `.select(...).eq("id", id).eq("company_id", company)` on properties finds a row. */
  predicate OwnsProperty(properties: map<string, PropertyRow>, id: string, company: string) {
    id in properties && properties[id].companyId == company
  }

  /** The same probe on units. */
  predicate OwnsUnit(units: map<string, UnitRow>, id: string, company: string) {
    id in units && units[id].companyId == company
  }

  /** The same probe on technicians. */
  predicate OwnsTechnician(technicians: map<string, TechnicianRow>, id: string, company: string) {
    id in technicians && technicians[id].companyId == company
  }

  /** The same probe on work orders. */
  predicate OwnsWorkOrder(workOrders: map<string, WorkOrderRow>, id: string, company: string) {
    id in workOrders && workOrders[id].companyId == company
  }

  /**
   * `.delete().eq("id", id).eq("company_id", company)`: removes the row with
   * that id when it belongs to that company, and nothing else.
   */
  function ScopedDelete<R>(t: map<string, R>, id: string, company: string, owner: R -> string): (u: map<string, R>)
    ensures id in t && owner(t[id]) == company ==> u == t - {id}
    ensures !(id in t && owner(t[id]) == company) ==> u == t
    ensures forall k :: k in u <==> k in t && !(k == id && owner(t[k]) == company)
  {
    map k | k in t && !(k == id && owner(t[k]) == company) :: t[k]
  }

  // ----- Row selectors and orders -----------------------------------------

  /**
   * The name a response shows for a property id: only a non-empty id that
   * has a property row has one.
   */
  function NameOfProperty(properties: map<string, PropertyRow>, id: string): (name: Option<string>)
    ensures name.Some? <==> id != "" && id in properties
    ensures name.Some? ==> name.value == properties[id].name
  {
    if id != "" && id in properties then Some(properties[id].name) else None
  }

  /** `property_names`: the name of every wanted id that has a property row. */
  function PropertyNames(properties: map<string, PropertyRow>, wanted: set<string>): (names: map<string, string>)
    ensures forall id :: id in names <==> id in wanted && id in properties
    ensures forall id :: id in names ==> names[id] == properties[id].name
  {
    map id | id in wanted && id in properties :: properties[id].name
  }

  function PropertyName(p: PropertyRow): string { p.name }
  function UnitLabel(u: UnitRow): string { u.unitLabel }

  /** `.order("name")` on properties (ties by id). */
  function PropertyOrder(): (le: (Entry<PropertyRow>, Entry<PropertyRow>) -> bool)
    ensures IsTotalOrder(le)
  {
    KeyThenIdIsTotalOrder(PropertyName);
    ByKey(PropertyName)
  }

  /** `.order("label")` on units (ties by id). */
  function UnitOrder(): (le: (Entry<UnitRow>, Entry<UnitRow>) -> bool)
    ensures IsTotalOrder(le)
  {
    KeyThenIdIsTotalOrder(UnitLabel);
    ByKey(UnitLabel)
  }

  /** `.eq("company_id", c)` on properties. */
  function PropertyOfCompany(c: string): PropertyRow -> bool {
    (p: PropertyRow) => p.companyId == c
  }

  // ----- What each kind of write does to tenant consistency ---------------

  /** Adding a property under an id that no table has and no row points at. */
  lemma PropertyAddKeepsConsistent(properties: map<string, PropertyRow>, units: map<string, UnitRow>,
                                   technicians: map<string, TechnicianRow>, workOrders: map<string, WorkOrderRow>,
                                   id: string, row: PropertyRow)
    requires TenantConsistent(properties, units, technicians, workOrders)
    requires id != "" && id !in properties
    requires forall u :: u in units.Values ==> u.propertyId != id
    requires forall t :: t in technicians.Values ==> t.defaultPropertyId != Some(id)
    requires forall w :: w in workOrders.Values ==> w.propertyId != id
    ensures TenantConsistent(properties[id := row], units, technicians, workOrders)
  {
    var p := properties[id := row];
    forall uid | uid in units && units[uid].propertyId in p
      ensures p[units[uid].propertyId].companyId == units[uid].companyId
    {
      assert units[uid] in units.Values;
    }
    forall tid | tid in technicians && technicians[tid].defaultPropertyId.Some?
                 && technicians[tid].defaultPropertyId.value in p
      ensures p[technicians[tid].defaultPropertyId.value].companyId == technicians[tid].companyId
    {
      assert technicians[tid] in technicians.Values;
    }
    forall wid | wid in workOrders && workOrders[wid].propertyId in p
      ensures p[workOrders[wid].propertyId].companyId == workOrders[wid].companyId
    {
      assert workOrders[wid] in workOrders.Values;
    }
  }

  /** Rewriting a property without moving it to another company. */
  lemma PropertyRewriteKeepsConsistent(properties: map<string, PropertyRow>, units: map<string, UnitRow>,
                                       technicians: map<string, TechnicianRow>, workOrders: map<string, WorkOrderRow>,
                                       id: string, row: PropertyRow)
    requires TenantConsistent(properties, units, technicians, workOrders)
    requires id in properties && row.companyId == properties[id].companyId
    ensures TenantConsistent(properties[id := row], units, technicians, workOrders)
  {
  }

  /** Removing a property leaves the references to it dangling, which is allowed. */
  lemma PropertyRemovalKeepsConsistent(properties: map<string, PropertyRow>, units: map<string, UnitRow>,
                                       technicians: map<string, TechnicianRow>, workOrders: map<string, WorkOrderRow>,
                                       id: string)
    requires TenantConsistent(properties, units, technicians, workOrders)
    ensures TenantConsistent(properties - {id}, units, technicians, workOrders)
  {
  }

  /** Adding a unit under a fresh id, for a property of its own company. */
  lemma UnitInsertKeepsConsistent(properties: map<string, PropertyRow>, units: map<string, UnitRow>,
                                  technicians: map<string, TechnicianRow>, workOrders: map<string, WorkOrderRow>,
                                  id: string, row: UnitRow)
    requires TenantConsistent(properties, units, technicians, workOrders)
    requires id != "" && id !in units
    requires forall w :: w in workOrders.Values ==> w.unitId != Some(id)
    requires OwnsProperty(properties, row.propertyId, row.companyId)
    ensures TenantConsistent(properties, units[id := row], technicians, workOrders)
  {
    forall wid | wid in workOrders && workOrders[wid].unitId.Some? && workOrders[wid].unitId.value in units[id := row]
      ensures units[id := row][workOrders[wid].unitId.value].companyId == workOrders[wid].companyId
    {
      assert workOrders[wid] in workOrders.Values;
    }
  }

  /** Rewriting a unit without moving it to another company or property. */
  lemma UnitRewriteKeepsConsistent(properties: map<string, PropertyRow>, units: map<string, UnitRow>,
                                   technicians: map<string, TechnicianRow>, workOrders: map<string, WorkOrderRow>,
                                   id: string, row: UnitRow)
    requires TenantConsistent(properties, units, technicians, workOrders)
    requires id in units && row.companyId == units[id].companyId && row.propertyId == units[id].propertyId
    ensures TenantConsistent(properties, units[id := row], technicians, workOrders)
  {
  }

  lemma UnitRemovalKeepsConsistent(properties: map<string, PropertyRow>, units: map<string, UnitRow>,
                                   technicians: map<string, TechnicianRow>, workOrders: map<string, WorkOrderRow>,
                                   id: string)
    requires TenantConsistent(properties, units, technicians, workOrders)
    ensures TenantConsistent(properties, units - {id}, technicians, workOrders)
  {
  }

  /**
   * Writing a technician row under a non-empty id that no work order of
   * another company points at, with a default property that is absent, empty
   * or of its own company.
   */
  lemma TechnicianWriteKeepsConsistent(properties: map<string, PropertyRow>, units: map<string, UnitRow>,
                                       technicians: map<string, TechnicianRow>, workOrders: map<string, WorkOrderRow>,
                                       id: string, row: TechnicianRow)
    requires TenantConsistent(properties, units, technicians, workOrders)
    requires id != ""
    requires id in technicians ==> technicians[id].companyId == row.companyId
    requires id !in technicians ==> forall w :: w in workOrders.Values ==> w.assignedTechnicianId != Some(id)
    requires row.defaultPropertyId.Some? && row.defaultPropertyId.value in properties ==>
      properties[row.defaultPropertyId.value].companyId == row.companyId
    ensures TenantConsistent(properties, units, technicians[id := row], workOrders)
  {
    var t := technicians[id := row];
    forall wid | wid in workOrders && workOrders[wid].assignedTechnicianId.Some?
                 && workOrders[wid].assignedTechnicianId.value in t
      ensures t[workOrders[wid].assignedTechnicianId.value].companyId == workOrders[wid].companyId
    {
      assert workOrders[wid] in workOrders.Values;
    }
  }

  lemma TechnicianRemovalKeepsConsistent(properties: map<string, PropertyRow>, units: map<string, UnitRow>,
                                         technicians: map<string, TechnicianRow>, workOrders: map<string, WorkOrderRow>,
                                         id: string)
    requires TenantConsistent(properties, units, technicians, workOrders)
    ensures TenantConsistent(properties, units, technicians - {id}, workOrders)
  {
  }

  /**
   * Writing a work order whose property, unit and technician, when they
   * exist, are of its own company.
   */
  lemma WorkOrderWriteKeepsConsistent(properties: map<string, PropertyRow>, units: map<string, UnitRow>,
                                      technicians: map<string, TechnicianRow>, workOrders: map<string, WorkOrderRow>,
                                      id: string, row: WorkOrderRow)
    requires TenantConsistent(properties, units, technicians, workOrders)
    requires row.propertyId in properties ==> properties[row.propertyId].companyId == row.companyId
    requires row.unitId.Some? && row.unitId.value in units ==> units[row.unitId.value].companyId == row.companyId
    requires row.assignedTechnicianId.Some? && row.assignedTechnicianId.value in technicians ==>
      technicians[row.assignedTechnicianId.value].companyId == row.companyId
    ensures TenantConsistent(properties, units, technicians, workOrders[id := row])
  {
  }
}
