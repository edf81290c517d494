/**
 * The state each screen keeps (`list`, `form`, `isEditing`, `loading`,
 * `error`, and on the tasks screen the project and user choices), how every
 * handler changes it, and which of the four views the screen renders.  Each
 * remote call is an input: the response it got, or the way it failed.
 */
module ScreenState {
  import opened Wrappers
  import opened Wire
  import opened Envelope
  import opened Numerals
  import opened Forms

  /**
   * How a remote call failed: the server answered with an error status (its
   * body already rendered by `JSON.stringify`), no answer came, or something
   * was thrown before or after the call.
   */
  datatype RemoteFailure =
    | Responded(status: nat, details: string)
    | NoResponse(message: string)
    | Thrown(message: string)

  /** The outcome of a GET of a whole list. */
  datatype FetchResult = Fetched(data: Json) | FetchFailed(failure: RemoteFailure)

  /** The outcome of a POST, PUT or DELETE. */
  datatype MutationResult = Acknowledged | Rejected(failure: RemoteFailure)

  /** The two extra lists the tasks screen loads for its selects. */
  datatype Choices = ProjectChoices | UserChoices

  datatype State = State(
    list: seq<Json>,
    form: Form,
    isEditing: bool,
    loading: bool,
    error: Option<string>,
    projectChoices: seq<Json>,
    userChoices: seq<Json>)

  /** What the screen renders below its form, in the priority the source tests. */
  datatype View = LoadingView | ErrorView(message: string) | ListView(items: seq<Json>) | NoneAvailable

  function Plural(screen: Screen): string {
    match screen
    case Projects => "projects"
    case Tasks => "tasks"
    case Users => "users"
  }

  function Singular(screen: Screen): string {
    match screen
    case Projects => "project"
    case Tasks => "task"
    case Users => "user"
  }

  /** The message a successful fetch of an empty list leaves. */
  function EmptyMessage(screen: Screen): string {
    "No " + Plural(screen) + " found. Please add a " + Singular(screen) + " or check the backend."
  }

  /** The fixed start of every fetch failure message. */
  function FetchPrefix(screen: Screen): string {
    "Failed to fetch " + Plural(screen) + ". Ensure the backend is running at http://localhost:5000."
  }

  /** The message a failed fetch leaves: the prefix, then what is known about the failure. */
  function FetchFailureMessage(screen: Screen, f: RemoteFailure): (m: string)
    ensures FetchPrefix(screen) <= m && |m| > |FetchPrefix(screen)|
  {
    FetchPrefix(screen) +
      match f
      case Responded(status, details) => " Status: " + NatToString(status) + ", Details: " + details
      case NoResponse(_) => " No response received. Check if the backend is running."
      case Thrown(message) => " Error: " + message
  }

  /** `error.response ? JSON.stringify(error.response.data) : error.message`. */
  function Reason(f: RemoteFailure): string {
    match f
    case Responded(_, details) => details
    case NoResponse(message) => message
    case Thrown(message) => message
  }

  /** The alert of a failed create or update. */
  function SaveNotice(screen: Screen, f: RemoteFailure): string {
    "Failed to save " + Singular(screen) + ": " + Reason(f)
  }

  /** The alert of a failed delete. */
  function DeleteNotice(screen: Screen, f: RemoteFailure): string {
    "Failed to delete " + Singular(screen) + ": " + Reason(f)
  }

  /** How a screen decodes its list: the projects screen also unwraps each project's tasks. */
  function Decode(screen: Screen, data: Json): Result<seq<Json>, string> {
    if screen == Projects then UnwrapProjects(data) else Unwrap(data)
  }

  /** The list a fetch yields, or why it failed; a decoding error is thrown inside the `try`. */
  function Loaded(screen: Screen, r: FetchResult): (l: Result<seq<Json>, RemoteFailure>)
    ensures r.FetchFailed? ==> l == Failure(r.failure)
    ensures r.Fetched? && l.Success? ==> |l.value| == |Listed(r.data)|
    ensures r.Fetched? && screen != Projects && l.Success? ==> l.value == Listed(r.data)
    ensures r.Fetched? ==> (l.Failure? <==> Decode(screen, r.data).Failure?)
    ensures r.Fetched? && screen == Projects && l.Success? ==>
      forall i :: 0 <= i < |l.value| ==> WithTasksUnwrapped(Listed(r.data)[i]) == Success(l.value[i])
    ensures r.Fetched? && l.Failure? ==>
      l.error == Thrown(TypeErrorMessage(if r.data.Null? then ValuesKey else TasksKey))
  {
    match r
    case FetchFailed(f) => Failure(f)
    case Fetched(data) =>
      match Decode(screen, data)
      case Success(items) => Success(items)
      case Failure(message) => Failure(Thrown(message))
  }

  /** The state a screen is mounted with. */
  function Init(screen: Screen): State {
    State([], Blank(screen), false, true, None, [], [])
  }

  /** `fetchProjects` / `fetchTasks` / `fetchUsers` on the screen's own list, run to completion. */
  function AfterFetch(screen: Screen, s: State, r: FetchResult): State {
    match Loaded(screen, r)
    case Success(items) =>
      s.(list := items, loading := false, error := if |items| == 0 then Some(EmptyMessage(screen)) else None)
    case Failure(f) =>
      s.(loading := false, error := Some(FetchFailureMessage(screen, f)))
  }

  /** The tasks screen's silent fetch of the projects or users for its selects. */
  function AfterChoicesFetch(which: Choices, s: State, r: FetchResult): State {
    match r
    case FetchFailed(_) => s
    case Fetched(data) =>
      match Unwrap(data)
      case Failure(_) => s
      case Success(items) =>
        if which == ProjectChoices then s.(projectChoices := items) else s.(userChoices := items)
  }

  /** `handleSubmit` once the request was answered, with the refetch it starts. */
  function AfterSubmit(screen: Screen, s: State, m: MutationResult, refetch: FetchResult): State {
    match m
    case Acknowledged => AfterFetch(screen, s.(form := Blank(screen), isEditing := false), refetch)
    case Rejected(_) => s
  }

  function SubmitNotice(screen: Screen, m: MutationResult): Option<string> {
    match m
    case Acknowledged => None
    case Rejected(f) => Some(SaveNotice(screen, f))
  }

  /** `handleEdit`. */
  function AfterEdit(s: State, e: Entity): State {
    s.(form := EditForm(e), isEditing := true)
  }

  /** The cancel button. */
  function AfterCancel(screen: Screen, s: State): State {
    s.(form := Blank(screen), isEditing := false)
  }

  /** The request `handleDelete` issues: none unless confirmed. */
  function DeleteRequest(screen: Screen, id: nat, confirmed: bool): Option<Request> {
    if confirmed then Some(Delete(screen, id)) else None
  }

  /** `handleDelete` once the request (if any) was answered, with the refetch it starts. */
  function AfterDelete(screen: Screen, s: State, confirmed: bool, m: MutationResult, refetch: FetchResult): State {
    if !confirmed then s
    else
      match m
      case Acknowledged => AfterFetch(screen, s, refetch)
      case Rejected(_) => s
  }

  function DeleteNoticeOf(screen: Screen, confirmed: bool, m: MutationResult): Option<string> {
    if confirmed && m.Rejected? then Some(DeleteNotice(screen, m.failure)) else None
  }

  /**
   * The view the screen renders: loading first, then a (truthy) error, then
   * a non-empty list, then the "none available" text.
   */
  function ViewOf(s: State): (v: View)
    ensures v.LoadingView? <==> s.loading
    ensures v.ErrorView? <==> !s.loading && s.error.Some? && s.error.value != ""
    ensures v.ErrorView? ==> v.message == s.error.value
    ensures v.ListView? <==> !s.loading && (s.error.None? || s.error.value == "") && |s.list| > 0
    ensures v.ListView? ==> v.items == s.list
    ensures v.NoneAvailable? <==> !s.loading && (s.error.None? || s.error.value == "") && s.list == []
  {
    if s.loading then LoadingView
    else if s.error.Some? && s.error.value != "" then ErrorView(s.error.value)
    else if |s.list| > 0 then ListView(s.list)
    else NoneAvailable
  }

  /**
   * What every completed fetch establishes and nothing else undoes: an error
   * is a non-empty message, and once loading is over there is an error or a
   * non-empty list.
   */
  predicate Inv(s: State) {
    && (s.error.Some? ==> s.error.value != "")
    && (!s.loading ==> s.error.Some? || |s.list| > 0)
  }

  /** The events that drive a screen, each run to completion. */
  datatype Event =
    | Load(response: FetchResult)
    | LoadChoices(which: Choices, response: FetchResult)
    | Save(outcome: MutationResult, refetch: FetchResult)
    | BeginEdit(entity: Entity)
    | CancelEdit
    | Remove(id: nat, confirmed: bool, outcome: MutationResult, refetch: FetchResult)

  function Step(screen: Screen, s: State, e: Event): State {
    match e
    case Load(r) => AfterFetch(screen, s, r)
    case LoadChoices(which, r) => AfterChoicesFetch(which, s, r)
    case Save(m, r) => AfterSubmit(screen, s, m, r)
    case BeginEdit(entity) => AfterEdit(s, entity)
    case CancelEdit => AfterCancel(screen, s)
    case Remove(_, confirmed, m, r) => AfterDelete(screen, s, confirmed, m, r)
  }

  function Run(screen: Screen, s: State, events: seq<Event>): State
    decreases |events|
  {
    if events == [] then s else Run(screen, Step(screen, s, events[0]), events[1..])
  }

  /**
   * A fetch replaces the list wholesale and clears the error exactly when the
   * new list is non-empty; a failed fetch keeps the list and leaves a message
   * with the fixed prefix.  Either way loading ends and the form is untouched.
   */
  lemma FetchOutcome(screen: Screen, s: State, r: FetchResult)
    ensures var t := AfterFetch(screen, s, r);
      && !t.loading
      && t.form == s.form && t.isEditing == s.isEditing
      && t.projectChoices == s.projectChoices && t.userChoices == s.userChoices
      && (Loaded(screen, r).Success? ==> t.list == Loaded(screen, r).value)
      && (Loaded(screen, r).Success? ==> (t.error.None? <==> |t.list| > 0))
      && (Loaded(screen, r).Success? && t.list == [] ==> t.error == Some(EmptyMessage(screen)))
      && (Loaded(screen, r).Failure? ==> t.list == s.list)
      && (t.error.Some? && FetchPrefix(screen) <= t.error.value <==> Loaded(screen, r).Failure?)
  {
  }

  /** A completed fetch establishes the invariant whatever the state before it. */
  lemma FetchEstablishesInv(screen: Screen, s: State, r: FetchResult)
    ensures Inv(AfterFetch(screen, s, r))
  {
  }

  lemma StepKeepsInv(screen: Screen, s: State, e: Event)
    requires Inv(s)
    ensures Inv(Step(screen, s, e))
  {
  }

  lemma {:induction false} RunKeepsInv(screen: Screen, s: State, events: seq<Event>)
    requires Inv(s)
    ensures Inv(Run(screen, s, events))
    decreases |events|
  {
    if events != [] {
      StepKeepsInv(screen, s, events[0]);
      RunKeepsInv(screen, Step(screen, s, events[0]), events[1..]);
    }
  }

  /**
   * Under the invariant the "none available" text is never rendered, and the
   * error view shows exactly when loading is over and an error is set.
   */
  lemma InvView(s: State)
    requires Inv(s)
    ensures !ViewOf(s).NoneAvailable?
    ensures ViewOf(s).ErrorView? <==> !s.loading && s.error.Some?
  {
  }

  /**
   * Whatever sequence of events a freshly mounted screen goes through, it
   * never renders "No ... available.": an empty list always comes with the
   * "No ... found" message or a fetch failure message.
   */
  lemma NeverNoneAvailable(screen: Screen, events: seq<Event>)
    ensures !ViewOf(Run(screen, Init(screen), events)).NoneAvailable?
  {
    RunKeepsInv(screen, Init(screen), events);
    InvView(Run(screen, Init(screen), events));
  }

  /**
   * After a successful submit or delete the list is whatever the refetch
   * delivered, independent of the state before: a full resync, no merge.
   */
  lemma FullResync(screen: Screen, s: State, t: State, refetch: FetchResult)
    requires Loaded(screen, refetch).Success?
    ensures AfterSubmit(screen, s, Acknowledged, refetch).list == Loaded(screen, refetch).value
    ensures AfterDelete(screen, t, true, Acknowledged, refetch).list == Loaded(screen, refetch).value
  {
  }

  /**
   * The tasks screen's choices fetch replaces the chosen list with the
   * envelope's elements when the body decodes, keeps it on any failure, and
   * touches nothing else.
   */
  lemma ChoicesFetchOutcome(which: Choices, s: State, r: FetchResult)
    ensures var t := AfterChoicesFetch(which, s, r);
      && t.list == s.list && t.form == s.form && t.isEditing == s.isEditing
      && t.loading == s.loading && t.error == s.error
      && (which == ProjectChoices ==> t.userChoices == s.userChoices)
      && (which == UserChoices ==> t.projectChoices == s.projectChoices)
      && (r.Fetched? && !r.data.Null? ==>
            (if which == ProjectChoices then t.projectChoices else t.userChoices) == Listed(r.data))
      && (r.FetchFailed? || r.data.Null? ==> t == s)
  {
  }

  /** A successful submit resets the form to the blank one and leaves edit mode. */
  lemma SubmitResetsForm(screen: Screen, s: State, refetch: FetchResult)
    ensures var t := AfterSubmit(screen, s, Acknowledged, refetch);
      t.form == Blank(screen) && !t.isEditing && !t.loading
    ensures SubmitNotice(screen, Acknowledged) == None
  {
  }

  /** A failed submit or delete changes nothing and raises the alert. */
  lemma FailedMutationKeepsState(screen: Screen, s: State, f: RemoteFailure, refetch: FetchResult)
    ensures AfterSubmit(screen, s, Rejected(f), refetch) == s
    ensures AfterDelete(screen, s, true, Rejected(f), refetch) == s
    ensures SubmitNotice(screen, Rejected(f)) == Some(SaveNotice(screen, f))
    ensures DeleteNoticeOf(screen, true, Rejected(f)) == Some(DeleteNotice(screen, f))
  {
  }

  /** A delete that is not confirmed issues no request and changes nothing. */
  lemma UnconfirmedDeleteDoesNothing(screen: Screen, s: State, id: nat, m: MutationResult, refetch: FetchResult)
    ensures DeleteRequest(screen, id, false) == None
    ensures AfterDelete(screen, s, false, m, refetch) == s
    ensures DeleteNoticeOf(screen, false, m) == None
  {
  }

  /** Cancelling after an edit restores the blank form whatever entity was loaded. */
  lemma EditThenCancel(screen: Screen, s: State, e: Entity)
    ensures AfterCancel(screen, AfterEdit(s, e)) == AfterCancel(screen, s)
    ensures AfterCancel(screen, AfterEdit(s, e)).form == Blank(screen)
    ensures !AfterCancel(screen, AfterEdit(s, e)).isEditing
  {
  }
}
