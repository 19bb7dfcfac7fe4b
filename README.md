# Subjects page controller, modelled in Dafny

This project models the controller behind the "subjects" administration page
(`frontend/js/controllers/subjectsController.js`). The page lists subjects one page at a
time. It edits them through a form with an id field and a name field, and deletes them
after the user confirms. Two pieces of state are modelled:

- the **pagination cursor**: the module variables `currentPage` (starts at 1) and
  `totalPages` (starts at 1), and the default page size `limit = 5`;
- the **edit form**: the id field and the name field.

Everything lives in module `SubjectsController` (`subjects_controller.dfy`):

- `Controller` is a class with the four mutable fields. It has one method per event
  handler. Each method's frame names exactly the fields that handler writes.
- Each method returns `Effects`:
  - the API call the handler issues (`FetchPaginated`, `Create`, `Update`, `Remove`);
  - how many table reloads it starts;
  - the error text it shows in the modal, if any.
- API calls are not run. The handler for an awaited call receives the call's `Outcome`
  as an input: `Resolved`, or `Rejected` with an optional message.
- A reload only starts `loadSubjects`. That load's result arrives later as a separate
  call to `LoadSucceeded` or `LoadFailed`. Each handler runs to completion on its own.
- `Step` is a pure reference definition of every handler on a `ControllerState` value.
  `Run` folds `Step` over a sequence of events. Each method's contract says that its new
  state and its effects are what `Step` gives. The lemmas about traces are stated over
  `Run`.

Three behaviours of the code are kept as written:

- **No minimum of one page.** `totalPages = Math.ceil(total / size)` (line 102) is 0 for
  an empty list, and the model keeps 0 (`CeilDiv`, `EmptyTableScenario`).
- **No clamping.** A load never brings the current page back into range (lines 99-103).
  The page can end up past the last page, for example after deleting the only row of the
  last page (`LoadDoesNotClamp`, `LoadInRangeIff`).
- **Default delete message.** A failed delete with no message shows
  `'Error al borrar la materia'` (line 168).

## Model

| member | source | states |
|---|---|---|
| `SubjectsController.CeilDiv` | frontend/js/controllers/subjectsController.js:102 | the page count is the ceiling of total / size: `total <= pages*size < total + size`; it is 0 exactly when there are no rows (no minimum of 1) |
| `SubjectsController.EffectiveSize` | frontend/js/controllers/subjectsController.js:98 | a load's page size is the parsed selector value when it is present and non-zero, and `Limit` (5) otherwise; it is always positive |
| `SubjectsController.SubmitCall` | frontend/js/controllers/subjectsController.js:31-46 | submit calls update (with id and name) exactly when the id is non-empty, and create (with the name) otherwise |
| `SubjectsController.DeleteErrorMessage` | frontend/js/controllers/subjectsController.js:168 | a failed delete shows the error's message when it is present and non-empty, and `'Error al borrar la materia'` otherwise; the text is never empty |
| `SubjectsController.StepKeepsCursorValid` | frontend/js/controllers/subjectsController.js:67-103 | no handler takes a state with `currentPage >= 1` and `totalPages >= 0` to a state without it |
| `SubjectsController.RunKeepsCursorValid` | frontend/js/controllers/subjectsController.js:67-103 | from a cursor with `currentPage >= 1`, no sequence of navigation, load, form or delete events makes `currentPage < 1` or `totalPages < 0` |
| `SubjectsController.ReachableCursorValid` | frontend/js/controllers/subjectsController.js:13-14 | every state reachable from the initial one (page 1 of 1) has `currentPage >= 1` and `totalPages >= 0` |
| `SubjectsController.StepKeepsInRange` | frontend/js/controllers/subjectsController.js:67-92 | every handler except a successful load keeps the cursor on an existing page (or on page 1) |
| `SubjectsController.RunWithoutLoadsKeepsInRange` | frontend/js/controllers/subjectsController.js:67-92 | a sequence of events without a successful load keeps the cursor on an existing page |
| `SubjectsController.LoadInRangeIff` | frontend/js/controllers/subjectsController.js:98-103 | after a successful load the cursor is in range exactly when it is on page 1 or the current page's first row exists (`(currentPage-1)*size < total`): the load never clamps |
| `SubjectsController.LoadDoesNotClamp` | frontend/js/controllers/subjectsController.js:99-103 | on page 3 of 3 (11 rows, 5 per page), a confirmed delete of the only row on page 3 followed by a load of 10 rows leaves page 3 of 2 |
| `SubjectsController.Controller.constructor` | frontend/js/controllers/subjectsController.js:13-14 | the controller starts on page 1 of 1 with empty form fields |
| `SubjectsController.Controller.Prev` | frontend/js/controllers/subjectsController.js:69-76 | when `currentPage > 1`, decrements it by exactly 1 and starts one reload; otherwise changes nothing and starts no reload; `totalPages` and the form are untouched |
| `SubjectsController.Controller.Next` | frontend/js/controllers/subjectsController.js:78-85 | when `currentPage < totalPages`, increments it by exactly 1 and starts one reload; otherwise (including `totalPages = 0`) changes nothing and starts no reload |
| `SubjectsController.Controller.ChangePageSize` | frontend/js/controllers/subjectsController.js:87-91 | sets `currentPage` to 1 whatever it was, and starts one reload |
| `SubjectsController.Controller.LoadSucceeded` | frontend/js/controllers/subjectsController.js:96-103 | fetches the current page with the effective size and sets `totalPages` to `CeilDiv(total, size)`; `currentPage` and the form are untouched |
| `SubjectsController.Controller.LoadFailed` | frontend/js/controllers/subjectsController.js:96-108 | fetches the current page with the effective size; the state is unchanged, and nothing is shown or reloaded |
| `SubjectsController.Controller.Edit` | frontend/js/controllers/subjectsController.js:141-145 | copies the row's id and name into the two fields; the cursor is untouched |
| `SubjectsController.Controller.Cancel` | frontend/js/controllers/subjectsController.js:62-65 | clears the id field and leaves the name field as it was |
| `SubjectsController.Controller.Submit` | frontend/js/controllers/subjectsController.js:28-56 | calls update or create according to `SubmitCall` on the fields; on success clears both fields and starts exactly one reload; on failure leaves both fields exactly as they were and starts none |
| `SubjectsController.Controller.Delete` | frontend/js/controllers/subjectsController.js:157-171 | without confirmation makes no call and no reload; when confirmed calls remove with the row's id, then reloads once on success, or shows `DeleteErrorMessage` and does not reload on failure; the state is unchanged |

`PaginationScenario`, `EmptyTableScenario`, `DeleteScenario` and `FormScenario` are
clients of the class. They replay typical interaction cycles using only the methods'
contracts, for example 12 rows at 5 per page giving 3 pages.

## Left out

- Rendering: `renderSubjectTable`, `createCell`, the buttons built in
  `createSubjectActionsCell`, the `showError` modal, and the localized page-indicator
  text. An error shown in the modal is modelled only as its text in `Effects`.
- The API client `subjectsAPI` is not part of this model. Each call is recorded as an
  `ApiCall` value, and its result is an input of the handler that awaits it. The rows a
  fetch returns are not modelled; only its `total` is.
- Asynchrony: handlers and loads are modelled as atomic steps. Overlapping loads from
  rapid clicks, and responses arriving out of order, are not modelled.
- `parseInt` of the selector value is taken as given, as an optional natural number.
  A negative parsed size, which `|| limit` lets through, is not modelled.
- `String.trim`: the form fields are modelled as already-trimmed strings.
- `form.reset()` is modelled as clearing the name field. This assumes the field has no
  default value in the page's markup. Its effect on any other form control is not modelled.
- `Math.ceil` over floating-point division is modelled as integer ceiling division on a
  non-negative total and a positive size.
- The `confirm()` prompt is modelled as a boolean input.
- Not modelled: console logging, listener registration on `DOMContentLoaded`, and the
  first `loadSubjects` call made at page load. That first load is a later call to
  `LoadSucceeded` or `LoadFailed`.
