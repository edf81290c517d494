# Project management client: envelope decoding and screen controllers

This project models the client of a small project/task/user record keeping
system.  The client has three screens (projects, tasks, users) that share one
shape.  Each screen fetches its list from the server, shows it, and offers a
form that creates or updates one entity and a confirmed delete.  The model
covers three parts:

- **Envelope decoding.**  The server wraps every list as `{ "$values": [...] }`.
  The client takes that array, or `[]` when there is none.  On the projects
  screen it also unwraps each project's `tasks` envelope.  `$id`/`$ref` markers
  are neither resolved nor produced; the client only unwraps.
- **Form and payload mapping.**  Form dates get `T00:00:00` appended when sent
  and are cut at the first `T` when an entity is loaded into the form.  Task
  ids go through `parseInt` and `toString`.  An empty assignee is sent as
  `null`, and a missing description is edited as `''`.
- **The per-screen state machine** over `list`, `form`, `isEditing`,
  `loading` and `error`, plus the project and user choices the tasks screen
  loads.  It covers fetch, submit (create or update), edit, cancel and
  confirmed delete.  The view is chosen in the order loading, error, list,
  then "none available".

Modules: `Wrappers` (Option, Result), `Numerals`, `Dates`, `Wire` (JSON values
with JavaScript truthiness, property reads and object spread), `Envelope`,
`Forms`, `ScreenState` (the pure state machine, its invariant and the
view), and `Controller`.  `Controller` holds the class `ScreenController`,
built once per screen.  Its methods update the fields step by step and are
proved to move the state exactly as the `ScreenState` functions say.

Every remote call is an input to the method that makes it: the parsed body
(`Fetched`), or how it failed (`FetchFailed`, `Rejected`).  The request each
handler would send is returned as a `Request` value.  The user's answer to
the delete prompt is a boolean.  The alert text is returned as a string.
The un-awaited refetch after a successful mutation is taken to complete
before the handler returns.

Decisions where the code and its description differ (the model follows the
code):
- A failed fetch leaves the cached list as it was.  The catch block never
  calls the list setter.
- Unwrapping never fails on a missing or non-array `$values`, but reading
  `$values` of a `null` body throws inside the `try`.  The screen then shows a
  fetch failure with the engine's TypeError message.  The same happens for a
  `null` element in the projects envelope, when its `tasks` is read.
- No TypeError is modelled for a `null` element on the tasks or users screen,
  because nothing is read from those elements while unwrapping.
- Required-field validation is left to the browser's `required` attributes.
  The model states it as the precondition `Forms.Submittable` of `Submit`, not
  as an error path.
- `handleEdit` tests the assignee by truthiness, so an assignee id of 0 is
  edited as unassigned.  `EditThenSaveTask` states this.
- The "No ... available." branch of the view can never be reached.  Every
  completed fetch sets either a message or a non-empty list
  (`NeverNoneAvailable`).

## Model

| member | source | states |
|---|---|---|
| `Numerals.NatToString` | project-management-system/src/App.js:336-337 | `toString` of an id is a canonical decimal numeral that starts with '0' only for zero |
| `Numerals.ParseOfToString` | project-management-system/src/App.js:312-313 | `parseInt(n.toString()) == n` for every non-negative id |
| `Numerals.ToStringOfParse` | project-management-system/src/App.js:312-313 | `toString(parseInt(s)) == s` exactly when the digit string `s` has no leading zero |
| `Dates.BeforeFirst` | project-management-system/src/App.js:120-121 | `split('T')[0]` is the longest prefix free of 'T': all of the string when it has no 'T', otherwise it stops just before the first 'T' |
| `Dates.WireDateTruncates` | project-management-system/src/App.js:97-121 | cutting a sent date (`date + 'T00:00:00'`) at its first 'T' gives back the form's date when that has no 'T' |
| `Wire.Get` | project-management-system/src/App.js:63-66 | reading `$values` or `tasks` throws exactly on `null` with the TypeError message. Otherwise it is defined exactly for an object having the field, and then it is that field |
| `Wire.Spread` | project-management-system/src/App.js:65 | `{...project}` copies an object's fields unchanged |
| `Envelope.ItemsIfArray` | project-management-system/src/App.js:260 | `v && Array.isArray(v) ? v : []` is the array's elements when `v` is an array and `[]` otherwise (the truthiness test is redundant) |
| `Envelope.Unwrap` | project-management-system/src/App.js:260 | the decoded list is exactly the envelope's `$values`, same order and length, when that is an array. It is `[]` otherwise, and it fails only on a `null` body |
| `Envelope.TasksOf` | project-management-system/src/App.js:66-68 | a project's `tasks` becomes `tasks.$values` when that is an array, otherwise `[]` |
| `Envelope.WithTasksUnwrapped` | project-management-system/src/App.js:64-69 | one project keeps every field except `tasks`, which is replaced by its unwrapped elements. Its keys are its own keys plus `tasks`, and only a `null` element throws |
| `Envelope.MapProjects` | project-management-system/src/App.js:64-69 | the `.map` yields one unwrapped project per element, in order. It fails exactly when some element is `null` |
| `Envelope.UnwrapProjects` | project-management-system/src/App.js:63-70 | the projects list has one entry per envelope element, each with its tasks unwrapped. It fails exactly on a `null` body or a `null` element |
| `Forms.Blank` | project-management-system/src/App.js:47 | each screen's blank form belongs to that screen, with id 0 and an empty name (likewise App.js:243, 464) |
| `Forms.EditForm` | project-management-system/src/App.js:115-124 | edit copies id, name, and the description, with a null description becoming `''`. Dates are the entity's dates cut at the first 'T', and an absent or empty end date becomes `''`. A task's status is copied, and its project id is a canonical numeral that parses back to the entity's id. Its assignee is empty exactly when it was null or 0, and otherwise parses back to the assignee. A user's e-mail and role are copied (App.js:330-340, 523-531) |
| `Forms.PayloadOf` | project-management-system/src/App.js:94-99 | `startDate` is the form date plus `T00:00:00`. `endDate` is null exactly when the form's is empty, and otherwise it is that date plus `T00:00:00`. A task's assignee is null exactly when the form's is empty (App.js:308-314) |
| `Forms.RequestFor` | project-management-system/src/App.js:100-105 | the request is an update of `form.id` exactly when editing, and a create otherwise, always carrying the form's payload |
| `Forms.SaveThenEdit` | project-management-system/src/App.js:94-124 | sending a valid form, as a create or an update, and loading the entity stored under any id back into the form gives the same form with that id. This covers dates, ids, an empty end date and an empty assignee |
| `Forms.EditThenSaveTask` | project-management-system/src/App.js:306-340 | resubmitting an unchanged edited task sends its own project id, and its assignee except that assignee 0 becomes null |
| `ScreenState.FetchFailureMessage` | project-management-system/src/App.js:78-86 | a fetch failure message starts with the fixed "Failed to fetch ..." prefix and adds detail after it |
| `ScreenState.Loaded` | project-management-system/src/App.js:57-70 | a transport failure is reported as it came. A decoded body fails exactly when decoding throws, and then the failure is the thrown TypeError for `$values` of a null body or `tasks` of a null project. The tasks and users lists are exactly the envelope's elements. The projects list holds each envelope element with its tasks unwrapped |
| `ScreenState.ViewOf` | project-management-system/src/App.js:191-234 | render priority, each view given by an if-and-only-if. Loading shows first. A non-empty error shows when not loading. The list shows when not loading, with no non-empty error, and the list non-empty. "None available" shows in the remaining case |
| `ScreenState.FetchOutcome` | project-management-system/src/App.js:56-89 | a fetch ends with loading false and the form untouched. On success the list is replaced wholesale and the error is null exactly when the list is non-empty, else "No ... found". On failure the list is kept. The error has the failure prefix exactly when the fetch failed |
| `ScreenState.ChoicesFetchOutcome` | project-management-system/src/App.js:282-304 | the tasks screen's choices fetch replaces the fetched choice list with the envelope's elements when the body is not null. On any failure it changes nothing, and it never touches the list, form, loading or error |
| `ScreenState.RunKeepsInv` | project-management-system/src/App.js:56-136 | over any sequence of fetches, submits, edits, cancels and deletes, an error is never empty. Once loading is over there is always an error or a non-empty list |
| `ScreenState.InvView` | project-management-system/src/App.js:191-195 | under the invariant, the error view shows exactly when loading is over and an error is set |
| `ScreenState.NeverNoneAvailable` | project-management-system/src/App.js:232-234 | a mounted screen never renders "No ... available.", whatever events it goes through |
| `ScreenState.FullResync` | project-management-system/src/App.js:106-130 | after a successful submit or delete the list is exactly what the refetch delivered, whatever the state was before |
| `ScreenState.SubmitResetsForm` | project-management-system/src/App.js:106-108 | a successful submit leaves the blank form, `isEditing` false and loading over, with no alert |
| `ScreenState.FailedMutationKeepsState` | project-management-system/src/App.js:109-134 | a failed submit or delete leaves list, form, `isEditing` and everything else unchanged and raises the "Failed to save/delete ..." alert |
| `ScreenState.UnconfirmedDeleteDoesNothing` | project-management-system/src/App.js:126-136 | an unconfirmed delete sends no request, changes no state and raises no alert |
| `ScreenState.EditThenCancel` | project-management-system/src/App.js:115-183 | cancel after edit gives the blank form with `isEditing` false, whatever entity was loaded, and nothing else changes |
| `Controller.ScreenController.View` | project-management-system/src/App.js:191-234 | a valid controller never renders "none available". Once loading is over it shows the error exactly when one is set |
| `Controller.ScreenController.constructor` | project-management-system/src/App.js:46-50 | a screen mounts with an empty list, the blank form, not editing, loading, and no error |
| `Controller.ScreenController.Fetch` | project-management-system/src/App.js:56-90 | sets loading and clears the error, then decodes, stores and reports, then clears loading. The new state is `AfterFetch` of the old one, and the invariant is kept |
| `Controller.ScreenController.FetchChoices` | project-management-system/src/App.js:282-304 | the tasks screen replaces its project or user choices with the unwrapped list on success, and keeps them on any failure |
| `Controller.ScreenController.Submit` | project-management-system/src/App.js:92-113 | sends `RequestFor(form, isEditing)`, then resets and refetches on success or alerts on failure, as `AfterSubmit` says |
| `Controller.ScreenController.Edit` | project-management-system/src/App.js:115-124 | the form becomes `EditForm(entity)` and `isEditing` true, and nothing else changes |
| `Controller.ScreenController.Cancel` | project-management-system/src/App.js:180-183 | the form becomes blank and `isEditing` false, and nothing else changes |
| `Controller.ScreenController.Delete` | project-management-system/src/App.js:126-136 | with confirmation it sends the delete, then refetches on success or alerts on failure. Without confirmation it sends nothing and changes nothing |

## Left out

- The `App` tab switcher, all markup and styling: only the choice among the four views is modelled.
- HTTP, URLs and `API_BASE_URL`: each call is a `Request` value plus an outcome given as input.
- `console.log` and `console.error`: they have no effect on state.
- `window.confirm` and `alert`: confirmation is a boolean input, and the alert text is returned.
- `toLocaleDateString`: its formatting depends on the locale.
- Async interleaving: the tasks screen launches three fetches at once. The refetch after a mutation is not awaited. A response could land after a later request. The model runs each operation to completion in sequence.
- `JSON.stringify` of an error response: the server's error body arrives already rendered, as `details`.
- `parseInt` on strings that are not decimal digit strings, negative ids, and the loss of precision of JavaScript numbers beyond 2^53.
- JSON numbers other than integers. Spreading a string counts Unicode scalar values, where JavaScript counts UTF-16 code units.
- Reading typed fields out of arbitrary JSON list elements: `Edit` takes a well-formed `Entity`, as the server sends it.
- The e-mail format check of the e-mail input. The date input is taken to hold "yyyy-mm-dd" or nothing.
- What the server stores: `Forms.AsStored` assumes it keeps the sent fields, and it is used only in `SaveThenEdit`.
- `$ref`/`$id` resolution and any encoder: the client has neither.
- `ProjectManagementSystem/Data/ApplicationDbContext.cs`: it is a persistence wrapper with no logic.
- The C# models: they only supply the fields of `Forms.Entity`. `Project.cs` is not part of this model, so the project fields are those the client reads.
- Wire.Spread: its contract states only the object case. The array and string cases (index keys) are given by its definition.
