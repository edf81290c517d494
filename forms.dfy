/**
 * The three entity kinds, the edit form each screen keeps, and the mappings
 * between them: `handleEdit` copies an entity into the form, `handleSubmit`
 * turns the form into the request body and chooses create or update.
 */
module Forms {
  import opened Wrappers
  import opened Numerals
  import opened Dates

  /** The three screens, one per entity kind. */
  datatype Screen = Projects | Tasks | Users

  /**
   * An entity as a list shows it and `handleEdit` receives it.  Ids are
   * server-assigned; optional server fields are `Option`s.
   */
  datatype Entity =
    | ProjectRecord(id: nat, name: string, description: Option<string>, startDate: string, endDate: Option<string>)
    | TaskRecord(id: nat, name: string, description: Option<string>, status: string, projectId: nat, assignedToId: Option<nat>)
    | UserRecord(id: nat, name: string, email: string, role: string)

  /** The edit form; every input holds a string, ids of the edited entity excepted. */
  datatype Form =
    | ProjectForm(id: nat, name: string, description: string, startDate: string, endDate: string)
    | TaskForm(id: nat, name: string, description: string, status: string, projectId: string, assignedToId: string)
    | UserForm(id: nat, name: string, email: string, role: string)

  /** The JSON body built from a form, before any id is attached. */
  datatype Payload =
    | ProjectPayload(name: string, description: string, startDate: string, endDate: Option<string>)
    | TaskPayload(name: string, description: string, status: string, projectId: nat, assignedToId: Option<nat>)
    | UserPayload(name: string, email: string, role: string)

  /**
   * A call to the server: `Post` creates from the payload; `Put` updates the
   * entity `id`, sent to the entity's address with `id` attached to the
   * payload; `Delete` removes the entity `id` of that screen.
   */
  datatype Request =
    | Post(payload: Payload)
    | Put(id: nat, payload: Payload)
    | Delete(screen: Screen, id: nat)

  function EntityScreen(e: Entity): Screen {
    match e
    case ProjectRecord(_, _, _, _, _) => Projects
    case TaskRecord(_, _, _, _, _, _) => Tasks
    case UserRecord(_, _, _, _) => Users
  }

  function FormScreen(f: Form): Screen {
    match f
    case ProjectForm(_, _, _, _, _) => Projects
    case TaskForm(_, _, _, _, _, _) => Tasks
    case UserForm(_, _, _, _) => Users
  }

  function PayloadScreen(p: Payload): Screen {
    match p
    case ProjectPayload(_, _, _, _) => Projects
    case TaskPayload(_, _, _, _, _) => Tasks
    case UserPayload(_, _, _) => Users
  }

  /** The blank form a screen starts with and returns to after submit or cancel. */
  function Blank(screen: Screen): (f: Form)
    ensures FormScreen(f) == screen && f.id == 0 && f.name == ""
  {
    match screen
    case Projects => ProjectForm(0, "", "", "", "")
    case Tasks => TaskForm(0, "", "", "ToDo", "", "")
    case Users => UserForm(0, "", "", "")
  }

  /**
   * What the browser lets through to `handleSubmit`: the `required` inputs
   * are filled in, a date input holds a well-formed date or nothing, and an id
   * select holds the decimal id of one of its options (or nothing, where
   * that is allowed).  The e-mail input's format check is not modelled.
   */
  predicate Submittable(f: Form) {
    match f
    case ProjectForm(_, name, _, startDate, endDate) =>
      name != "" && IsDateValue(startDate) && (endDate == "" || IsDateValue(endDate))
    case TaskForm(_, name, _, _, projectId, assignedToId) =>
      name != "" && IsNumeral(projectId) && (assignedToId == "" || IsNumeral(assignedToId))
    case UserForm(_, name, email, role) =>
      name != "" && email != "" && role != ""
  }

  /** `handleEdit`: the form an entity is loaded into. */
  function EditForm(e: Entity): (f: Form)
    ensures FormScreen(f) == EntityScreen(e) && f.id == e.id && f.name == e.name
    ensures f.ProjectForm? ==> 'T' !in f.startDate && 'T' !in f.endDate
    ensures f.TaskForm? ==> IsCanonical(f.projectId) && (f.assignedToId == "" || IsCanonical(f.assignedToId))
    ensures e.TaskRecord? ==> (f.assignedToId == "" <==> e.assignedToId.None? || e.assignedToId == Some(0))
    ensures e.ProjectRecord? || e.TaskRecord? ==> f.description == e.description.GetOr("")
    ensures e.ProjectRecord? ==> f.startDate == BeforeFirst(e.startDate, 'T')
    ensures e.ProjectRecord? && e.endDate.Some? && e.endDate.value != "" ==> f.endDate == BeforeFirst(e.endDate.value, 'T')
    ensures e.ProjectRecord? && (e.endDate.None? || e.endDate == Some("")) ==> f.endDate == ""
    ensures e.TaskRecord? ==> f.status == e.status && ParseInt(f.projectId) == e.projectId
    ensures e.TaskRecord? && e.assignedToId.Some? && e.assignedToId.value != 0 ==> ParseInt(f.assignedToId) == e.assignedToId.value
    ensures e.UserRecord? ==> f.email == e.email && f.role == e.role
  {
    match e
    case ProjectRecord(id, name, description, startDate, endDate) =>
      ProjectForm(id, name, description.GetOr(""), BeforeFirst(startDate, 'T'),
                  if endDate.Some? && endDate.value != "" then BeforeFirst(endDate.value, 'T') else "")
    case TaskRecord(id, name, description, status, projectId, assignedToId) =>
      var assignee := if assignedToId.Some? && assignedToId.value != 0 then NatToString(assignedToId.value) else "";
      ParseOfToString(projectId);
      assert assignee != "" ==> ParseInt(assignee) == assignedToId.value by {
        if assignedToId.Some? { ParseOfToString(assignedToId.value); }
      }
      TaskForm(id, name, description.GetOr(""), status, NatToString(projectId), assignee)
    case UserRecord(id, name, email, role) =>
      UserForm(id, name, email, role)
  }

  /**
   * The body `handleSubmit` builds: dates get midnight appended and an empty
   * end date becomes null; task ids are parsed and an empty assignee becomes
   * null; everything else is copied.
   */
  function PayloadOf(f: Form): (p: Payload)
    requires Submittable(f)
    ensures PayloadScreen(p) == FormScreen(f) && p.name == f.name
    ensures p.ProjectPayload? ==> p.startDate == ToWireDate(f.startDate)
    ensures p.ProjectPayload? ==> (p.endDate.None? <==> f.endDate == "")
    ensures p.ProjectPayload? && p.endDate.Some? ==> p.endDate.value == ToWireDate(f.endDate)
    ensures p.TaskPayload? ==> (p.assignedToId.None? <==> f.assignedToId == "")
  {
    match f
    case ProjectForm(_, name, description, startDate, endDate) =>
      ProjectPayload(name, description, ToWireDate(startDate),
                     if endDate != "" then Some(ToWireDate(endDate)) else None)
    case TaskForm(_, name, description, status, projectId, assignedToId) =>
      TaskPayload(name, description, status, ParseInt(projectId),
                  if assignedToId != "" then Some(ParseInt(assignedToId)) else None)
    case UserForm(_, name, email, role) =>
      UserPayload(name, email, role)
  }

  /** The request `handleSubmit` issues: an update of the form's entity when editing, else a create. */
  function RequestFor(f: Form, isEditing: bool): (r: Request)
    requires Submittable(f)
    ensures !r.Delete? && r.payload == PayloadOf(f)
    ensures r.Put? <==> isEditing
    ensures r.Put? ==> r.id == f.id
  {
    if isEditing then Put(f.id, PayloadOf(f)) else Post(PayloadOf(f))
  }

  /**
   * The entity the server holds after storing `p` under `id`, assuming it
   * keeps the fields as sent (the server's persistence is not part of this
   * model).
   */
  function AsStored(id: nat, p: Payload): Entity {
    match p
    case ProjectPayload(name, description, startDate, endDate) =>
      ProjectRecord(id, name, Some(description), startDate, endDate)
    case TaskPayload(name, description, status, projectId, assignedToId) =>
      TaskRecord(id, name, Some(description), status, projectId, assignedToId)
    case UserPayload(name, email, role) =>
      UserRecord(id, name, email, role)
  }

  /**
   * Ids a task form can hand back unchanged: canonical numerals, and an
   * assignee other than "0" (a zero id is falsy, so editing shows it as
   * unassigned).
   */
  predicate IdsCanonical(f: Form) {
    f.TaskForm? ==>
      IsCanonical(f.projectId) && (f.assignedToId == "" || (IsCanonical(f.assignedToId) && f.assignedToId != "0"))
  }

  /**
   * Saving a form and loading the saved entity back into the form gives the
   * same form, apart from the id the server stored it under (a create sends
   * id 0 and the server assigns one): dates lose the appended midnight, ids
   * survive parseInt and toString, an empty end date or assignee goes to null
   * and back to empty.
   */
  lemma SaveThenEdit(f: Form, id: nat)
    requires Submittable(f) && IdsCanonical(f)
    ensures EditForm(AsStored(id, PayloadOf(f))) == f.(id := id)
  {
    match f
    case ProjectForm(_, _, _, startDate, endDate) =>
      DateValueHasNoTime(startDate);
      WireDateTruncates(startDate);
      if endDate != "" {
        DateValueHasNoTime(endDate);
        WireDateTruncates(endDate);
      }
    case TaskForm(_, _, _, _, projectId, assignedToId) =>
      CanonicalRoundTrip(projectId);
      if assignedToId != "" {
        LeadingNonzeroIsPositive(assignedToId);
        CanonicalRoundTrip(assignedToId);
      }
    case UserForm(_, _, _, _) =>
  }

  /**
   * Submitting a task form loaded by `handleEdit` without changes sends the
   * task's own project id, and its assignee, except that assignee 0 is sent
   * as null.
   */
  lemma EditThenSaveTask(e: Entity)
    requires e.TaskRecord? && e.name != ""
    ensures Submittable(EditForm(e))
    ensures PayloadOf(EditForm(e)).projectId == e.projectId
    ensures PayloadOf(EditForm(e)).assignedToId == if e.assignedToId == Some(0) then None else e.assignedToId
  {
  }
}
