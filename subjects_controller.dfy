/** Model of the subjects page controller (frontend/js/controllers/subjectsController.js):
    the pagination cursor (current page, number of pages) and the edit form (id and name
    fields), driven by the page's event handlers. Calls into the API client are not run:
    each handler receives the outcome of its call as an input and reports, as Effects,
    which call it issued, how many table reloads it started and which error it showed. */
module SubjectsController {

  /** Page size used when the results-per-page selector gives no usable number. */
  const Limit: nat := 5

  /** Message shown when a delete fails without a message of its own. */
  const DeleteErrorDefault: string := "Error al borrar la materia"

  datatype Option<T> = None | Some(value: T)

  /** A table row as the API returns it. */
  datatype Subject = Subject(id: string, name: string)

  /** How an awaited API call settled; a rejection may carry no message. */
  datatype Outcome = Resolved | Rejected(message: Option<string>)

  /** The calls the controller makes on the API client. */
  datatype ApiCall =
    | FetchPaginated(page: int, limit: nat)
    | Create(name: string)
    | Update(subject: Subject)
    | Remove(id: string)

  /** What one handler does besides changing state: the API call it issues, the
      number of table reloads it starts, and the error it shows to the user. */
  datatype Effects = Effects(call: Option<ApiCall>, reloads: nat, shownError: Option<string>)

  const Quiet: Effects := Effects(None, 0, None)
  const Reload: Effects := Effects(None, 1, None)

  /** The controller's mutable state: the two module variables and the two form fields. */
  datatype ControllerState = ControllerState(currentPage: int, totalPages: int, idField: string, nameField: string)

  /** State when the page has loaded and before the first table load resolves. */
  const Initial: ControllerState := ControllerState(1, 1, "", "")

  /** One user action or one resolution of a table load. */
  datatype Event =
    | PrevClicked
    | NextClicked
    | PageSizeChanged
    | LoadResolved(total: nat, rawSize: Option<nat>)
    | LoadRejected(rawSize: Option<nat>)
    | EditClicked(row: Subject)
    | CancelClicked
    | Submitted(outcome: Outcome)
    | DeleteClicked(id: string, confirmed: bool, outcome: Outcome)

  datatype Transition = Transition(after: ControllerState, effects: Effects)

  /** Number of pages of `size` rows needed for `total` rows. */
  function CeilDiv(total: nat, size: nat): (pages: nat)
    requires size > 0
    ensures total <= pages * size < total + size
    ensures pages == 0 <==> total == 0
  {
    (total + size - 1) / size
  }

  /** The page size a load uses: the selector's number unless it is missing or zero. */
  function EffectiveSize(rawSize: Option<nat>): (size: nat)
    ensures size > 0
    ensures rawSize.Some? && rawSize.value != 0 ==> size == rawSize.value
    ensures rawSize.None? || rawSize.value == 0 ==> size == Limit
  {
    if rawSize.Some? && rawSize.value != 0 then rawSize.value else Limit
  }

  /** The call a submit makes: an update when the id field holds an id, a create otherwise. */
  function SubmitCall(id: string, name: string): (call: ApiCall)
    ensures call.Create? || call.Update?
    ensures call.Update? <==> id != ""
    ensures call.Update? ==> call.subject == Subject(id, name)
    ensures call.Create? ==> call.name == name
  {
    if id != "" then Update(Subject(id, name)) else Create(name)
  }

  /** The text of the error modal after a failed delete. */
  function DeleteErrorMessage(message: Option<string>): (shown: string)
    ensures shown != ""
    ensures message.Some? && message.value != "" ==> shown == message.value
    ensures message.None? || message.value == "" ==> shown == DeleteErrorDefault
  {
    if message.Some? && message.value != "" then message.value else DeleteErrorDefault
  }

  /** Reference definition of every handler, each run to completion on its own. */
  function Step(s: ControllerState, e: Event): Transition
  {
    match e
    case PrevClicked =>
      if s.currentPage > 1 then Transition(s.(currentPage := s.currentPage - 1), Reload)
      else Transition(s, Quiet)
    case NextClicked =>
      if s.currentPage < s.totalPages then Transition(s.(currentPage := s.currentPage + 1), Reload)
      else Transition(s, Quiet)
    case PageSizeChanged =>
      Transition(s.(currentPage := 1), Reload)
    case LoadResolved(total, rawSize) =>
      var size := EffectiveSize(rawSize);
      Transition(s.(totalPages := CeilDiv(total, size)), Effects(Some(FetchPaginated(s.currentPage, size)), 0, None))
    case LoadRejected(rawSize) =>
      Transition(s, Effects(Some(FetchPaginated(s.currentPage, EffectiveSize(rawSize))), 0, None))
    case EditClicked(row) =>
      Transition(s.(idField := row.id, nameField := row.name), Quiet)
    case CancelClicked =>
      Transition(s.(idField := ""), Quiet)
    case Submitted(outcome) =>
      var call := Some(SubmitCall(s.idField, s.nameField));
      if outcome.Resolved? then Transition(s.(idField := "", nameField := ""), Effects(call, 1, None))
      else Transition(s, Effects(call, 0, None))
    case DeleteClicked(id, confirmed, outcome) =>
      if !confirmed then Transition(s, Quiet)
      else if outcome.Resolved? then Transition(s, Effects(Some(Remove(id)), 1, None))
      else Transition(s, Effects(Some(Remove(id)), 0, Some(DeleteErrorMessage(outcome.message))))
  }

  /** The state after handling `events` in order. */
  function Run(s: ControllerState, events: seq<Event>): ControllerState
    decreases |events|
  {
    if events == [] then s else Run(Step(s, events[0]).after, events[1..])
  }

  /** The cursor invariant every reachable state keeps. */
  predicate CursorValid(s: ControllerState)
  {
    s.currentPage >= 1 && s.totalPages >= 0
  }

  /** The cursor points at an existing page (page 1 counts even when there are no pages). */
  predicate InRange(s: ControllerState)
  {
    CursorValid(s) && (s.currentPage <= s.totalPages || s.currentPage == 1)
  }

  lemma StepKeepsCursorValid(s: ControllerState, e: Event)
    requires CursorValid(s)
    ensures CursorValid(Step(s, e).after)
  {
  }

  /** Starting from a valid cursor, no sequence of handlers makes the page number drop below 1. */
  lemma {:induction false} RunKeepsCursorValid(s: ControllerState, events: seq<Event>)
    requires CursorValid(s)
    ensures CursorValid(Run(s, events))
    decreases |events|
  {
    if events != [] {
      StepKeepsCursorValid(s, events[0]);
      RunKeepsCursorValid(Step(s, events[0]).after, events[1..]);
    }
  }

  /** Every state reachable from the initial one has a valid cursor. */
  lemma ReachableCursorValid(events: seq<Event>)
    ensures Run(Initial, events).currentPage >= 1
    ensures Run(Initial, events).totalPages >= 0
  {
    RunKeepsCursorValid(Initial, events);
  }

  /** Every handler other than a successful load keeps the cursor on an existing page. */
  lemma StepKeepsInRange(s: ControllerState, e: Event)
    requires InRange(s) && !e.LoadResolved?
    ensures InRange(Step(s, e).after)
  {
  }

  lemma {:induction false} RunWithoutLoadsKeepsInRange(s: ControllerState, events: seq<Event>)
    requires InRange(s)
    requires forall i :: 0 <= i < |events| ==> !events[i].LoadResolved?
    ensures InRange(Run(s, events))
    decreases |events|
  {
    if events != [] {
      StepKeepsInRange(s, events[0]);
      RunWithoutLoadsKeepsInRange(Step(s, events[0]).after, events[1..]);
    }
  }

  /** A successful load keeps a valid cursor on an existing page exactly when the
      current page's first row exists, or the cursor is on page 1: it never clamps. */
  lemma LoadInRangeIff(s: ControllerState, total: nat, rawSize: Option<nat>)
    requires CursorValid(s)
    ensures var size := EffectiveSize(rawSize);
      InRange(Step(s, LoadResolved(total, rawSize)).after)
      <==> s.currentPage == 1 || (s.currentPage - 1) * size < total
  {
  }

  /** Deleting the only row of the last page and reloading leaves the cursor past the
      last page: 11 rows make 3 pages, the cursor moves to page 3, 10 rows make 2. */
  lemma LoadDoesNotClamp()
    ensures var s := Run(Initial, [LoadResolved(11, None), NextClicked, NextClicked,
                                   DeleteClicked("7", true, Resolved), LoadResolved(10, None)]);
      s.currentPage == 3 && s.totalPages == 2 && !InRange(s)
  {
  }

  /** The controller as the page holds it: both module variables and both form fields. */
  class Controller {
    var currentPage: int
    var totalPages: int
    var idField: string
    var nameField: string

    function State(): ControllerState
      reads this
    {
      ControllerState(currentPage, totalPages, idField, nameField)
    }

    constructor ()
      ensures State() == Initial
      ensures CursorValid(State())
    {
      currentPage := 1;
      totalPages := 1;
      idField := "";
      nameField := "";
    }

    /** The previous-page button. */
    method Prev() returns (fx: Effects)
      modifies this`currentPage
      ensures old(currentPage) > 1 ==> currentPage == old(currentPage) - 1 && fx.reloads == 1
      ensures old(currentPage) <= 1 ==> currentPage == old(currentPage) && fx.reloads == 0
      ensures fx.call == None && fx.shownError == None
      ensures CursorValid(old(State())) ==> CursorValid(State())
      ensures Transition(State(), fx) == Step(old(State()), PrevClicked)
    {
      if currentPage > 1 {
        currentPage := currentPage - 1;
        fx := Reload;
      } else {
        fx := Quiet;
      }
    }

    /** The next-page button. */
    method Next() returns (fx: Effects)
      modifies this`currentPage
      ensures old(currentPage) < totalPages ==> currentPage == old(currentPage) + 1 && fx.reloads == 1
      ensures old(currentPage) >= totalPages ==> currentPage == old(currentPage) && fx.reloads == 0
      ensures fx.call == None && fx.shownError == None
      ensures CursorValid(old(State())) ==> CursorValid(State())
      ensures Transition(State(), fx) == Step(old(State()), NextClicked)
    {
      if currentPage < totalPages {
        currentPage := currentPage + 1;
        fx := Reload;
      } else {
        fx := Quiet;
      }
    }

    /** A change of the results-per-page selector. */
    method ChangePageSize() returns (fx: Effects)
      modifies this`currentPage
      ensures currentPage == 1
      ensures fx == Effects(None, 1, None)
      ensures CursorValid(old(State())) ==> CursorValid(State())
      ensures Transition(State(), fx) == Step(old(State()), PageSizeChanged)
    {
      currentPage := 1;
      fx := Reload;
    }

    /** A table load whose fetch returned `total` rows in all; `rawSize` is the
        selector's value as parsed, None when it is not a number. */
    method LoadSucceeded(total: nat, rawSize: Option<nat>) returns (fx: Effects)
      modifies this`totalPages
      ensures var size := EffectiveSize(rawSize);
        totalPages == CeilDiv(total, size) &&
        fx == Effects(Some(FetchPaginated(currentPage, size)), 0, None)
      ensures CursorValid(old(State())) ==> CursorValid(State())
      ensures Transition(State(), fx) == Step(old(State()), LoadResolved(total, rawSize))
    {
      var size := EffectiveSize(rawSize);
      totalPages := CeilDiv(total, size);
      fx := Effects(Some(FetchPaginated(currentPage, size)), 0, None);
    }

    /** A table load whose fetch failed: only the request was made. */
    method LoadFailed(rawSize: Option<nat>) returns (fx: Effects)
      ensures fx.call == Some(FetchPaginated(currentPage, EffectiveSize(rawSize)))
      ensures fx.reloads == 0 && fx.shownError == None
      ensures Transition(State(), fx) == Step(State(), LoadRejected(rawSize))
    {
      fx := Effects(Some(FetchPaginated(currentPage, EffectiveSize(rawSize))), 0, None);
    }

    /** The edit button of a table row. */
    method Edit(row: Subject) returns (fx: Effects)
      modifies this`idField, this`nameField
      ensures idField == row.id && nameField == row.name
      ensures fx == Quiet
      ensures Transition(State(), fx) == Step(old(State()), EditClicked(row))
    {
      idField := row.id;
      nameField := row.name;
      fx := Quiet;
    }

    /** The cancel button: only the id field is cleared. */
    method Cancel() returns (fx: Effects)
      modifies this`idField
      ensures idField == "" && nameField == old(nameField)
      ensures fx == Quiet
      ensures Transition(State(), fx) == Step(old(State()), CancelClicked)
    {
      idField := "";
      fx := Quiet;
    }

    /** Submission of the form, whose create or update call settled as `outcome`. */
    method Submit(outcome: Outcome) returns (fx: Effects)
      modifies this`idField, this`nameField
      ensures fx.call == Some(SubmitCall(old(idField), old(nameField)))
      ensures fx.shownError == None
      ensures outcome.Resolved? ==> idField == "" && nameField == "" && fx.reloads == 1
      ensures outcome.Rejected? ==> idField == old(idField) && nameField == old(nameField) && fx.reloads == 0
      ensures Transition(State(), fx) == Step(old(State()), Submitted(outcome))
    {
      var call: ApiCall;
      if idField != "" {
        call := Update(Subject(idField, nameField));
      } else {
        call := Create(nameField);
      }
      if outcome.Resolved? {
        nameField := "";
        idField := "";
        fx := Effects(Some(call), 1, None);
      } else {
        fx := Effects(Some(call), 0, None);
      }
    }

    /** The delete button of the row with id `id`; `confirmed` is the user's answer to
        the confirmation prompt and `outcome` how the remove call settled. */
    method Delete(id: string, confirmed: bool, outcome: Outcome) returns (fx: Effects)
      ensures !confirmed ==> fx == Quiet
      ensures confirmed ==> fx.call == Some(Remove(id))
      ensures confirmed && outcome.Resolved? ==> fx.reloads == 1 && fx.shownError == None
      ensures confirmed && outcome.Rejected? ==>
        fx.reloads == 0 && fx.shownError == Some(DeleteErrorMessage(outcome.message))
      ensures Transition(State(), fx) == Step(State(), DeleteClicked(id, confirmed, outcome))
    {
      if !confirmed {
        return Quiet;
      }
      if outcome.Resolved? {
        fx := Effects(Some(Remove(id)), 1, None);
      } else {
        fx := Effects(Some(Remove(id)), 0, Some(DeleteErrorMessage(outcome.message)));
      }
    }
  }

  /** Client of the class: the pagination cycle, proved from the methods' contracts alone. */
  method PaginationScenario()
  {
    var c := new Controller();
    var fx := c.LoadSucceeded(12, Some(5));
    assert fx.call == Some(FetchPaginated(1, 5));
    assert c.currentPage == 1 && c.totalPages == 3;
    fx := c.Prev();
    assert c.currentPage == 1 && fx.reloads == 0;
    fx := c.Next();
    fx := c.Next();
    assert c.currentPage == 3 && fx.reloads == 1;
    fx := c.Next();
    assert c.currentPage == 3 && fx.reloads == 0;
    fx := c.ChangePageSize();
    assert c.currentPage == 1;
  }

  /** Client of the class: an empty table gives no pages, and next does nothing then. */
  method EmptyTableScenario()
  {
    var c := new Controller();
    var fx := c.LoadSucceeded(0, None);
    assert c.totalPages == 0;
    fx := c.Next();
    assert c.currentPage == 1 && fx == Quiet;
  }

  /** Client of the class: the delete confirmation and its error messages. */
  method DeleteScenario()
  {
    var c := new Controller();
    var fx := c.Delete("7", false, Resolved);
    assert fx.call == None && fx.reloads == 0;
    fx := c.Delete("7", true, Rejected(Some("constraint violation")));
    assert fx.shownError == Some("constraint violation");
    fx := c.Delete("7", true, Rejected(None));
    assert fx.shownError == Some(DeleteErrorDefault);
  }

  /** Client of the class: edit, cancel, a failed create and a successful one. */
  method FormScenario()
  {
    var c := new Controller();
    var fx := c.Edit(Subject("3", "Algebra"));
    fx := c.Cancel();
    assert c.idField == "" && c.nameField == "Algebra";
    fx := c.Submit(Rejected(None));
    assert fx.call == Some(Create("Algebra")) && c.nameField == "Algebra";
    fx := c.Submit(Resolved);
    assert c.idField == "" && c.nameField == "" && fx.reloads == 1;
  }
}
