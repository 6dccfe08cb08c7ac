/**
 * The work-order creation request as the request validator accepts it: the
 * priority literal and its default, and the stripped, length-bounded fields.
 */
module WorkOrderModels {
  import opened Wrappers
  import opened Text
  import opened Validation

  /** `PriorityLiteral`. */
  datatype Priority = Routine | Emergency {
    function Name(): string {
      match this
      case Routine => "routine"
      case Emergency => "emergency"
    }
  }

  function ParsePriority(s: string): (r: Option<Priority>)
    ensures r.Some? ==> r.value.Name() == s
    ensures forall p: Priority :: p.Name() == s ==> r == Some(p)
  {
    if s == "routine" then Some(Routine) else if s == "emergency" then Some(Emergency) else None
  }

  const PriorityMessage: string := "Input should be 'routine' or 'emergency'"

  /**
   * `priority: PriorityLiteral = "routine"` with `priority_lower`, as written:
   * the literal check runs first and the lower-casing validator after it, on
   * a value that is already one of the two lower-case literals. An absent
   * priority takes the default without running the validator.
   */
  function PriorityFieldAsWritten(v: Option<string>): (r: Result<string>)
    ensures v.None? ==> r == Ok("routine")
    ensures v.Some? ==> (r.Ok? <==> v.value in {"routine", "emergency"})
    ensures r.Err? ==> r.error == ValueError(PriorityMessage)
  {
    match v
    case None => Ok("routine")
    case Some(s) =>
      if s == "routine" || s == "emergency" then Ok(Lower(s)) else Err(ValueError(PriorityMessage))
  }

  /** As written, the lower-casing never changes an accepted value. */
  lemma PriorityLowerIsNoop(s: string)
    requires PriorityFieldAsWritten(Some(s)).Ok?
    ensures PriorityFieldAsWritten(Some(s)) == Ok(s)
  {
    LowerNoop(s);
  }

  /** As written, an upper-case priority is refused. */
  lemma UpperCasePriorityRefused()
    ensures PriorityFieldAsWritten(Some("EMERGENCY")) == Err(ValueError(PriorityMessage))
    ensures PriorityFieldAsWritten(Some("Routine")).Err?
  {
  }

  /**
   * The priority field with the lower-casing applied before the literal
   * check, which is what `priority_lower` is there for.
   */
  function PriorityField(v: Option<string>): (r: Result<Priority>)
    ensures v.None? ==> r == Ok(Routine)
    ensures v.Some? ==> (r.Ok? <==> Lower(v.value) in {"routine", "emergency"})
    ensures v.Some? && r.Ok? ==> r.value.Name() == Lower(v.value)
    ensures r.Err? ==> r.error == ValueError(PriorityMessage)
  {
    match v
    case None => Ok(Routine)
    case Some(s) =>
      match ParsePriority(Lower(s))
      case Some(p) => Ok(p)
      case None => Err(ValueError(PriorityMessage))
  }

  /** The corrected field accepts every value the written one does, with the same meaning... */
  lemma PriorityFieldExtendsAsWritten(v: Option<string>)
    requires PriorityFieldAsWritten(v).Ok?
    ensures PriorityField(v).Ok? && PriorityField(v).value.Name() == PriorityFieldAsWritten(v).value
  {
    if v.Some? {
      LowerNoop(v.value);
    }
  }

  /** ...and also the upper- and mixed-case spellings. */
  lemma PriorityFieldIgnoresCase()
    ensures PriorityField(Some("EMERGENCY")) == Ok(Emergency)
    ensures PriorityField(Some("Routine")) == Ok(Routine)
  {
    assert Lower("EMERGENCY") == "emergency";
    assert Lower("Routine") == "routine";
  }

  /** A validated priority is lower case. */
  lemma PriorityIsLowerCase(v: Option<string>)
    requires PriorityField(v).Ok?
    ensures forall i :: 0 <= i < |PriorityField(v).value.Name()| ==> !IsAsciiUpper(PriorityField(v).value.Name()[i])
  {
  }

  /** The request body; `None` marks an absent key. */
  datatype RawWorkOrderCreate = RawWorkOrderCreate(
    propertyId: string, unitId: Option<string>, unitLabel: Option<string>,
    issue: string, priority: Option<string>, pte: Option<bool>,
    preferredWindow: Option<string>, tenantName: Option<string>, tenantPhone: Option<string>,
    assignedTechnicianId: Option<string>)

  datatype WorkOrderCreate = WorkOrderCreate(
    propertyId: string, unitId: Option<string>, unitLabel: Option<string>,
    issue: string, priority: Priority, pte: Option<bool>,
    preferredWindow: Option<string>, tenantName: Option<string>, tenantPhone: Option<string>,
    assignedTechnicianId: Option<string>)

  /**
   * `WorkOrderCreate`: the property id trimmed and non-empty, a given unit
   * label trimmed and non-empty, the issue trimmed and at least three
   * characters long, and the priority from the literal set as written (exact
   * lower-case names, default routine); the other fields pass through.
   */
  function ValidateWorkOrderCreate(raw: RawWorkOrderCreate): (r: Result<WorkOrderCreate>)
    ensures r.Ok? <==>
      && |Trim(raw.propertyId)| >= 1
      && (raw.unitLabel.Some? ==> |Trim(raw.unitLabel.value)| >= 1)
      && |Trim(raw.issue)| >= 3
      && PriorityFieldAsWritten(raw.priority).Ok?
    ensures r.Ok? ==>
      var w := r.value;
      && w.propertyId == Trim(raw.propertyId) && w.propertyId != ""
      && (raw.unitLabel.None? ==> w.unitLabel.None?)
      && (raw.unitLabel.Some? ==> w.unitLabel == Some(Trim(raw.unitLabel.value)) && w.unitLabel.value != "")
      && w.issue == Trim(raw.issue) && |w.issue| >= 3
      && (raw.priority.None? ==> w.priority == Routine)
      && (raw.priority.Some? ==> w.priority.Name() == raw.priority.value)
      && w.unitId == raw.unitId && w.assignedTechnicianId == raw.assignedTechnicianId
      && w.pte == raw.pte && w.preferredWindow == raw.preferredWindow
      && w.tenantName == raw.tenantName && w.tenantPhone == raw.tenantPhone
  {
    var propertyId :- TrimmedField(raw.propertyId, 1);
    var unitLabel :- OptionalTrimmedField(raw.unitLabel, 1);
    var issue :- TrimmedField(raw.issue, 3);
    var name :- PriorityFieldAsWritten(raw.priority);
    var priority := if name == "routine" then Routine else Emergency;
    Ok(WorkOrderCreate(propertyId, raw.unitId, unitLabel, issue, priority, raw.pte,
                       raw.preferredWindow, raw.tenantName, raw.tenantPhone, raw.assignedTechnicianId))
  }

  /** As written, the request refuses an upper-case priority that the corrected field would take. */
  lemma UpperCaseRequestRefused(raw: RawWorkOrderCreate)
    requires raw.priority == Some("EMERGENCY")
    ensures ValidateWorkOrderCreate(raw).Err?
    ensures PriorityField(raw.priority) == Ok(Emergency)
  {
    UpperCasePriorityRefused();
    PriorityFieldIgnoresCase();
  }
}
