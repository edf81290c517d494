/**
 * One screen controller (`ProjectList`, `TaskList` or `UserList`): the
 * component's state hooks become fields, each handler a method that updates
 * them step by step and is proved to move the state as ScreenState says.
 */
module Controller {
  import opened Wrappers
  import opened Wire
  import opened Envelope
  import opened Forms
  import opened ScreenState

  class ScreenController {
    const screen: Screen
    var list: seq<Json>
    var form: Form
    var isEditing: bool
    var loading: bool
    var error: Option<string>
    var projectChoices: seq<Json>
    var userChoices: seq<Json>

    function Snapshot(): State
      reads this
    {
      State(list, form, isEditing, loading, error, projectChoices, userChoices)
    }

    /** The form belongs to this screen, and the state keeps the render invariant. */
    ghost predicate Valid()
      reads this
    {
      FormScreen(form) == screen && Inv(Snapshot())
    }

    /** The view the screen renders; a valid controller never shows "No ... available.". */
    function View(): (v: View)
      reads this
      ensures Valid() ==> !v.NoneAvailable?
      ensures Valid() && !loading ==> (v.ErrorView? <==> error.Some?)
    {
      ViewOf(Snapshot())
    }

    /** The mounted screen, before its first fetch completes. */
    constructor (screen: Screen)
      ensures Valid()
      ensures this.screen == screen && Snapshot() == Init(screen)
    {
      this.screen := screen;
      list := [];
      form := Blank(screen);
      isEditing := false;
      loading := true;
      error := None;
      projectChoices := [];
      userChoices := [];
    }

    /** Fetch the screen's list and decode it. */
    method Fetch(response: FetchResult)
      requires Valid()
      modifies this
      ensures Valid()
      ensures Snapshot() == AfterFetch(screen, old(Snapshot()), response)
    {
      ghost var before := Snapshot();
      loading := true;
      error := None;
      match Loaded(screen, response) {
        case Success(items) =>
          list := items;
          if |items| == 0 {
            error := Some(EmptyMessage(screen));
          }
        case Failure(f) =>
          error := Some(FetchFailureMessage(screen, f));
      }
      loading := false;
      FetchEstablishesInv(screen, before, response);
    }

    /** The tasks screen's fetch of the projects or users its selects offer; failures are only logged. */
    method FetchChoices(which: Choices, response: FetchResult)
      requires Valid() && screen == Tasks
      modifies this
      ensures Valid()
      ensures Snapshot() == AfterChoicesFetch(which, old(Snapshot()), response)
    {
      if response.Fetched? {
        var decoded := Unwrap(response.data);
        if decoded.Success? {
          if which == ProjectChoices {
            projectChoices := decoded.value;
          } else {
            userChoices := decoded.value;
          }
        }
      }
    }

    /**
     * Submit the form: issue the create or update, and on success reset the
     * form, leave edit mode and refetch; on failure only raise the alert.
     */
    method Submit(outcome: MutationResult, refetch: FetchResult) returns (request: Request, alert: Option<string>)
      requires Valid() && Submittable(form)
      modifies this
      ensures Valid()
      ensures request == RequestFor(old(form), old(isEditing))
      ensures alert == SubmitNotice(screen, outcome)
      ensures Snapshot() == AfterSubmit(screen, old(Snapshot()), outcome, refetch)
    {
      request := RequestFor(form, isEditing);
      match outcome
      case Acknowledged =>
        form := Blank(screen);
        isEditing := false;
        Fetch(refetch);
        alert := None;
      case Rejected(f) =>
        alert := Some(SaveNotice(screen, f));
    }

    /** Load an entity of this screen into the form and enter edit mode. */
    method Edit(entity: Entity)
      requires Valid() && EntityScreen(entity) == screen
      modifies this
      ensures Valid()
      ensures Snapshot() == AfterEdit(old(Snapshot()), entity)
    {
      form := EditForm(entity);
      isEditing := true;
    }

    /** The cancel button: back to the blank form, out of edit mode. */
    method Cancel()
      requires Valid()
      modifies this
      ensures Valid()
      ensures Snapshot() == AfterCancel(screen, old(Snapshot()))
    {
      form := Blank(screen);
      isEditing := false;
    }

    /**
     * Delete entity `id` if the user confirmed: on success refetch, on failure
     * only raise the alert.  Without confirmation nothing is sent.
     */
    method Delete(id: nat, confirmed: bool, outcome: MutationResult, refetch: FetchResult)
      returns (request: Option<Request>, alert: Option<string>)
      requires Valid()
      modifies this
      ensures Valid()
      ensures request == DeleteRequest(screen, id, confirmed)
      ensures alert == DeleteNoticeOf(screen, confirmed, outcome)
      ensures Snapshot() == AfterDelete(screen, old(Snapshot()), confirmed, outcome, refetch)
    {
      request := None;
      alert := None;
      if confirmed {
        request := Some(Request.Delete(screen, id));
        match outcome
        case Acknowledged =>
          Fetch(refetch);
        case Rejected(f) =>
          alert := Some(DeleteNotice(screen, f));
      }
    }
  }
}
