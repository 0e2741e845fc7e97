# Add-new-board form of a Kanban board application, modelled in Dafny

This project models the logic of the form that creates or edits a board in a
Kanban board application. The markup is not modelled. What is modelled:

- **Column rows.** The form holds an ordered list of column rows, each a
  record `{id, title, tasks}` with a numeric id. The list starts from the
  columns it was given, or from one blank row when none were given. The user
  can append a blank row with a fresh id, or remove every row with a given id.
- **Column assembly.** On submission each row becomes a column. The column
  keeps the row's id. Its title is the submitted value of the field named
  after the id (`String(id)`), or `""` when that field is missing. Its tasks
  are the row's own only when a board is being edited and the row has tasks.
- **Store merge.** The shared store holds the list of boards. A truthy
  `boardId` (present and not 0) means edit mode: every board with that id
  gets the new title and columns and keeps its other fields. Otherwise the
  form is in create mode: a new board is appended and its index becomes the
  selected board index. A store value that is not a list becomes `[]`.
- **Submission.** A missing or empty board name aborts the submission. The
  store is not written and the dialog stays open. Otherwise the store is
  updated and the dialog is closed.

The clock reads that make fresh ids (`Date.now()`) are parameters. The
submitted form fields are a `map<string, string>`. The optional board id is
an `Option<int>`.

Files:

- `wrappers.dfy`: the `Option` datatype.
- `decimal.dfy`: the decimal text that `String(n)` gives for an integer, with
  a parser as its inverse. The round trip shows that distinct column ids name
  distinct form fields.
- `board_form.dfy`: the data types, the pure list operations and their
  lemmas. It also holds the two classes with the mutable state: `DataContext`
  (the shared board list and selected index) and `AddNewBoardForm` (the
  column rows and the dialog flag).

Each column field carries the HTML `required` attribute, so a browser blocks
a submission with an empty column title. The component's own code checks only
the board name, so the model submits such a column with the title `""`
(`AddedRowSubmitsEmptyTitle`).

## Model

| member | source | states |
|---|---|---|
| `BoardForm.InitialColumns` | src/components/AddNewBoardForm.jsx:12 | the starting rows are the given columns when there are any; otherwise exactly one row with the fresh id, title "" and no tasks |
| `BoardForm.RemoveById` | src/components/AddNewBoardForm.jsx:16-18 | no remaining row has the removed id; every row with another id is kept, and nothing is added |
| `BoardForm.RemoveDistributes` | src/components/AddNewBoardForm.jsx:17 | removal commutes with concatenation, so the kept rows stay in their relative order |
| `BoardForm.KeptInOrder` | src/components/AddNewBoardForm.jsx:17 | two kept rows appear in the result in the same relative order as in the input |
| `BoardForm.RemoveAbsent` | src/components/AddNewBoardForm.jsx:17 | removing an id that no row carries leaves the list unchanged |
| `BoardForm.RemoveUnique` | src/components/AddNewBoardForm.jsx:16-18 | with unique ids, removing the id of row k gives exactly the list without row k |
| `BoardForm.RemoveKeepsUnique` | src/components/AddNewBoardForm.jsx:17 | removal keeps the row ids unique |
| `BoardForm.AddColumn` | src/components/AddNewBoardForm.jsx:20-22 | the list grows by exactly one; the earlier rows are unchanged; the new last row has the fresh id, title "" and no tasks |
| `BoardForm.AddKeepsUnique` | src/components/AddNewBoardForm.jsx:21 | adding a row whose fresh id is new keeps the row ids unique |
| `BoardForm.FieldValue` | src/components/AddNewBoardForm.jsx:29 | a field's value is the submitted string, or "" when the field is missing |
| `BoardForm.AssembleColumns` | src/components/AddNewBoardForm.jsx:24-32 | one column per row, in row order, with the row's id; the title is the value submitted under `String(id)` or ""; the tasks are the row's own only in edit mode when the row has them, otherwise empty |
| `BoardForm.CreatedColumnsHaveNoTasks` | src/components/AddNewBoardForm.jsx:26 | in create mode every assembled column has an empty task list |
| `BoardForm.FieldNamesDistinct` | src/components/AddNewBoardForm.jsx:29 | two ids name the same field exactly when they are equal, and no id names the board-name field |
| `BoardForm.RemovedRowNotSubmitted` | src/components/AddNewBoardForm.jsx:16-32 | after a row id is removed, no submitted column carries that id |
| `BoardForm.AddedRowSubmitsEmptyTitle` | src/components/AddNewBoardForm.jsx:20-32 | an added row whose field is missing or empty is submitted as a column with the fresh id, title "" and no tasks |
| `Decimal.NatToString` | src/components/AddNewBoardForm.jsx:29 | `String(n)` for n >= 0 is a non-empty string of digits with no leading zero |
| `Decimal.IntToString` | src/components/AddNewBoardForm.jsx:29 | `String(n)` of an integer starts with "-" exactly when n < 0, and its other characters are digits |
| `Decimal.NatRoundTrip` | src/components/AddNewBoardForm.jsx:29 | parsing the digits of n gives back n |
| `Decimal.IntRoundTrip` | src/components/AddNewBoardForm.jsx:29 | parsing `String(n)` gives back n |
| `Decimal.IntToStringInjective` | src/components/AddNewBoardForm.jsx:29 | two integers have the same decimal text exactly when they are equal |
| `BoardForm.ReplaceBoard` | src/components/AddNewBoardForm.jsx:45-49 | the length is unchanged; each board with the edited id gets the new title and columns and keeps its id and other fields; every other board is untouched |
| `BoardForm.ReplaceAbsent` | src/components/AddNewBoardForm.jsx:45-49 | editing an id that no board carries leaves the list unchanged |
| `BoardForm.ReplaceUnique` | src/components/AddNewBoardForm.jsx:45-49 | with unique board ids, an edit updates exactly the board at the matching index |
| `BoardForm.ReplaceKeepsIds` | src/components/AddNewBoardForm.jsx:45-49 | an edit keeps every board's id at its position |
| `BoardForm.UpdateStore` | src/components/AddNewBoardForm.jsx:36-59 | a non-list store becomes [] with no selection; edit mode replaces by id and selects nothing; create mode gives the old list plus one board at the end (fresh id, given title and columns, no other fields) and selects the old length |
| `BoardForm.CreateSelectsNewBoard` | src/components/AddNewBoardForm.jsx:52-58 | in create mode the selected index is in range and names the new board |
| `BoardForm.ZeroBoardIdCreates` | src/components/AddNewBoardForm.jsx:26-58 | a board id of 0 behaves exactly like a missing one: the assembled columns drop their tasks and the store update appends a new board |
| `BoardForm.ReadSubmission` | src/components/AddNewBoardForm.jsx:66-73 | the submission aborts exactly when the board name is missing or empty; otherwise it carries that name and the assembled columns |
| `BoardForm.CreatedBoardHasNoTasks` | src/components/AddNewBoardForm.jsx:24-58 | a created board is appended with the submitted name and one column per row, each with an empty task list |
| `BoardForm.DataContext.constructor` | src/components/AddNewBoardForm.jsx:9 | the shared state starts with the given board list and selected index |
| `BoardForm.AddNewBoardForm.constructor` | src/components/AddNewBoardForm.jsx:8-13 | the form keeps its context and board id, starts from the initial columns, and its dialog is open |
| `BoardForm.AddNewBoardForm.RemoveColumn` | src/components/AddNewBoardForm.jsx:16-18 | the row state becomes the old rows without the given id; nothing else changes |
| `BoardForm.AddNewBoardForm.AddNewColumn` | src/components/AddNewBoardForm.jsx:20-22 | the row state becomes the old rows plus one blank row; nothing else changes |
| `BoardForm.AddNewBoardForm.UpdateData` | src/components/AddNewBoardForm.jsx:35-61 | the store holds the updater's list; the selected index changes only in create mode, to the new board's position |
| `BoardForm.AddNewBoardForm.HandleFormSubmit` | src/components/AddNewBoardForm.jsx:63-76 | without a board name nothing is written and the dialog stays open; otherwise the store is updated with the assembled columns and the dialog is closed |

## Left out

- The markup: the text fields, the buttons, the icon and the CSS classes. They are presentation only.
- The PropTypes declarations. They are runtime type hints; they shaped the datatypes.
- The `title` prop and each row's `title`. Both are only default values shown in the fields; the submitted values come from the form fields.
- `alert` and `console.error`. The abort is the `submitted == false` result of `HandleFormSubmit`; the non-list store is the `NotAList` case.
- React's hook machinery: `useState`, `useContext`, batching of state updaters and render scheduling. State updates are applied at once, to the current state.
- `Date.now()`. Fresh ids are parameters. The code does not guarantee they are new: two clicks in the same millisecond give two rows with one id. The lemmas that need unique ids state it as a precondition.
- `e.preventDefault()` and the construction of `FormData` from the form element. The submitted fields are given as a map.
- File values that `FormData.get` can return. The model treats every field value as a string.
- `Decimal.IntToString`: models `String(n)` for integers only. JavaScript writes numbers of magnitude 1e21 or more in exponent form, and ids are doubles, not unbounded integers.
- The browser's enforcement of the `required` attribute on the fields. The component's own code checks only the board name.
- Tasks are opaque values. The form copies them and never inspects them.
