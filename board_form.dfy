/**
  The "add new board" form of a Kanban board application, without its markup:
  the form keeps an ordered list of column rows, each with a stable numeric id;
  the user adds blank rows and removes rows by id; on submission the form reads
  the board name and every column title from the submitted field values,
  builds the new column list and merges a board into the shared store of
  boards, replacing the board with the same id when it edits one and
  appending (and selecting) a new board when it creates one.

  Clock reads (`Date.now()`) are parameters named `freshId`/`freshBoardId`.
 */
module BoardForm {
  import opened Wrappers
  import Decimal

  /** A task is opaque to the form: it is carried from the old column to the new one unchanged. */
  datatype Task = Task(payload: string)

  /**
    A row of the form's column list. `tasks` is None when the row has no
    `tasks` property, as for the blank rows the form makes itself.
   */
  datatype ColumnRow = ColumnRow(id: int, title: string, tasks: Option<seq<Task>>)

  /** A column as it is written into the store. */
  datatype Column = Column(id: int, title: string, tasks: seq<Task>)

  /**
    A board of the store. `extra` stands for the board's other properties,
    which an edit keeps because it spreads the old board into the new one.
   */
  datatype Board = Board(id: int, title: string, columns: seq<Column>, extra: map<string, string>)

  /** The value held by the shared store, which the form does not trust to be a list. */
  datatype Store = BoardList(boards: seq<Board>) | NotAList

  /** The submitted field values, by field name; a missing name is a field that was not submitted. */
  type FormData = map<string, string>

  /** The name of the board-name field. */
  const BoardNameField: string := "boardName"

  /** A blank column row: a fresh id, an empty title and no tasks. */
  function BlankRow(id: int): ColumnRow {
    ColumnRow(id, "", None)
  }

  /**
    JavaScript truthiness of the optional board id: the form edits only when
    the id is present and not 0; otherwise it creates a board.
   */
  predicate IsEditing(boardId: Option<int>) {
    boardId.Some? && boardId.value != 0
  }

  /** The field a column row's title is submitted under: `String(id)`. */
  function FieldName(id: int): string {
    Decimal.IntToString(id)
  }

  /** `formData.get(name) || ""`: the submitted value, or "" when the field is missing. */
  function FieldValue(formData: FormData, name: string): (v: string)
    ensures name in formData ==> v == formData[name]
    ensures name !in formData ==> v == ""
  {
    (if name in formData then Some(formData[name]) else None).GetOr("")
  }

  predicate UniqueIds(rows: seq<ColumnRow>) {
    forall i, j :: 0 <= i < j < |rows| ==> rows[i].id != rows[j].id
  }

  predicate HasId(rows: seq<ColumnRow>, id: int) {
    exists i :: 0 <= i < |rows| && rows[i].id == id
  }

  // ---------------------------------------------------------------------------
  // Column-row editing
  // ---------------------------------------------------------------------------

  /** The rows the form starts with: the given columns, or one blank row when none are given. */
  function InitialColumns(columns: seq<ColumnRow>, freshId: int): (r: seq<ColumnRow>)
    ensures |r| >= 1
    ensures columns != [] ==> r == columns
    ensures columns == [] ==> |r| == 1 && r[0].id == freshId && r[0].title == "" && r[0].tasks.None?
  {
    if |columns| > 0 then columns else [BlankRow(freshId)]
  }

  /** The rows without those whose id is `id`, in their original order. */
  function RemoveById(rows: seq<ColumnRow>, id: int): (r: seq<ColumnRow>)
    ensures |r| <= |rows|
    ensures forall c :: c in r ==> c in rows && c.id != id
    ensures forall c :: c in rows && c.id != id ==> c in r
  {
    if rows == [] then []
    else if rows[0].id != id then [rows[0]] + RemoveById(rows[1..], id)
    else RemoveById(rows[1..], id)
  }

  /** The rows followed by one blank row with the fresh id. */
  function AddColumn(rows: seq<ColumnRow>, freshId: int): (r: seq<ColumnRow>)
    ensures |r| == |rows| + 1
    ensures r[..|rows|] == rows
    ensures r[|rows|].id == freshId && r[|rows|].title == "" && r[|rows|].tasks.None?
  {
    rows + [BlankRow(freshId)]
  }

  /** Removal works element by element: it commutes with concatenation, so relative order is kept. */
  lemma {:induction false} RemoveDistributes(a: seq<ColumnRow>, b: seq<ColumnRow>, id: int)
    ensures RemoveById(a + b, id) == RemoveById(a, id) + RemoveById(b, id)
    decreases |a|
  {
    if a != [] {
      assert (a + b)[1..] == a[1..] + b;
      RemoveDistributes(a[1..], b, id);
    } else {
      assert a + b == b;
    }
  }

  /**
    Removal keeps relative order: two kept rows, i before j, appear in the
    result at positions p before q.
   */
  lemma KeptInOrder(rows: seq<ColumnRow>, id: int, i: nat, j: nat) returns (p: nat, q: nat)
    requires i < j < |rows|
    requires rows[i].id != id && rows[j].id != id
    ensures p < q < |RemoveById(rows, id)|
    ensures RemoveById(rows, id)[p] == rows[i] && RemoveById(rows, id)[q] == rows[j]
  {
    var before, from := rows[..j], rows[j..];
    assert rows == before + from;
    RemoveDistributes(before, from, id);
    var left := RemoveById(before, id);
    assert rows[i] == before[i];
    assert rows[i] in left;
    p :| 0 <= p < |left| && left[p] == rows[i];
    assert from[0] == rows[j] && from == [from[0]] + from[1..];
    q := |left|;
  }

  /** Removing an id no row carries changes nothing. */
  lemma {:induction false} RemoveAbsent(rows: seq<ColumnRow>, id: int)
    requires !HasId(rows, id)
    ensures RemoveById(rows, id) == rows
    decreases |rows|
  {
    if rows != [] {
      assert !HasId(rows[1..], id) by {
        forall i | 0 <= i < |rows[1..]| ensures rows[1..][i].id != id {
          assert rows[1..][i] == rows[i + 1];
        }
      }
      RemoveAbsent(rows[1..], id);
      assert rows == [rows[0]] + rows[1..];
    }
  }

  /** With unique ids, removing the id of row k deletes exactly that row and keeps every other one in place. */
  lemma {:induction false} RemoveUnique(rows: seq<ColumnRow>, k: nat)
    requires UniqueIds(rows)
    requires k < |rows|
    ensures RemoveById(rows, rows[k].id) == rows[..k] + rows[k + 1..]
    decreases k
  {
    var id, tail := rows[k].id, rows[1..];
    if k == 0 {
      assert !HasId(tail, id) by {
        forall i | 0 <= i < |tail| ensures tail[i].id != id {
          assert tail[i] == rows[i + 1];
        }
      }
      RemoveAbsent(tail, id);
    } else {
      assert tail[k - 1] == rows[k];
      RemoveUnique(tail, k - 1);
      assert rows[..k] + rows[k + 1..] == [rows[0]] + (tail[..k - 1] + tail[k..]);
    }
  }

  /** Removing rows keeps the ids unique. */
  lemma {:induction false} RemoveKeepsUnique(rows: seq<ColumnRow>, id: int)
    requires UniqueIds(rows)
    ensures UniqueIds(RemoveById(rows, id))
    decreases |rows|
  {
    if rows != [] {
      var tail := rows[1..];
      RemoveKeepsUnique(tail, id);
      if rows[0].id != id {
        var rest := RemoveById(tail, id);
        var r := [rows[0]] + rest;
        forall i, j | 0 <= i < j < |r| ensures r[i].id != r[j].id {
          if i == 0 {
            assert r[j] == rest[j - 1] && r[j] in tail;
            var m :| 0 <= m < |tail| && tail[m] == r[j];
            assert rows[m + 1] == r[j];
          } else {
            assert r[i] == rest[i - 1] && r[j] == rest[j - 1];
          }
        }
      }
    }
  }

  /** Adding a row whose fresh id is new keeps the ids unique. */
  lemma AddKeepsUnique(rows: seq<ColumnRow>, freshId: int)
    requires UniqueIds(rows)
    requires !HasId(rows, freshId)
    ensures UniqueIds(AddColumn(rows, freshId))
  {
  }

  // ---------------------------------------------------------------------------
  // Column assembly at submission
  // ---------------------------------------------------------------------------

  /** The tasks a column is written with: the row's own only when editing and the row has them. */
  function KeptTasks(row: ColumnRow, boardId: Option<int>): seq<Task> {
    if IsEditing(boardId) && row.tasks.Some? then row.tasks.value else []
  }

  /** The submitted columns: one per row, in row order, titled from the row's field. */
  function AssembleColumns(rows: seq<ColumnRow>, formData: FormData, boardId: Option<int>): (r: seq<Column>)
    ensures |r| == |rows|
    ensures forall i :: 0 <= i < |rows| ==> r[i].id == rows[i].id
    ensures forall i :: 0 <= i < |rows| ==>
      r[i].title == (if FieldName(rows[i].id) in formData then formData[FieldName(rows[i].id)] else "")
    ensures forall i :: 0 <= i < |rows| ==>
      r[i].tasks == (if IsEditing(boardId) && rows[i].tasks.Some? then rows[i].tasks.value else [])
  {
    if rows == [] then []
    else
      [Column(rows[0].id, FieldValue(formData, FieldName(rows[0].id)), KeptTasks(rows[0], boardId))]
      + AssembleColumns(rows[1..], formData, boardId)
  }

  /** A created board's columns all start with no tasks, whatever the rows carried. */
  lemma CreatedColumnsHaveNoTasks(rows: seq<ColumnRow>, formData: FormData, boardId: Option<int>)
    requires !IsEditing(boardId)
    ensures forall c :: c in AssembleColumns(rows, formData, boardId) ==> c.tasks == []
  {
  }

  /** Distinct ids name distinct fields, and no id names the board-name field. */
  lemma FieldNamesDistinct(a: int, b: int)
    ensures FieldName(a) == FieldName(b) <==> a == b
    ensures FieldName(a) != BoardNameField
  {
    Decimal.IntToStringInjective(a, b);
    assert BoardNameField[0] == 'b';
  }

  /** A removed row contributes no column to the submission. */
  lemma RemovedRowNotSubmitted(rows: seq<ColumnRow>, id: int, formData: FormData, boardId: Option<int>)
    ensures forall c :: c in AssembleColumns(RemoveById(rows, id), formData, boardId) ==> c.id != id
  {
  }

  /**
    A row added and left unfilled is submitted with the title "": the form's
    own code does not reject it (only the browser's `required` check would).
   */
  lemma AddedRowSubmitsEmptyTitle(rows: seq<ColumnRow>, freshId: int, formData: FormData, boardId: Option<int>)
    requires FieldName(freshId) !in formData || formData[FieldName(freshId)] == ""
    ensures var r := AssembleColumns(AddColumn(rows, freshId), formData, boardId);
      |r| == |rows| + 1 && r[|rows|] == Column(freshId, "", [])
  {
  }

  // ---------------------------------------------------------------------------
  // Store merge
  // ---------------------------------------------------------------------------

  /** Every board whose id is `id` gets the new title and columns and keeps its other fields. */
  function ReplaceBoard(boards: seq<Board>, id: int, name: string, columns: seq<Column>): (r: seq<Board>)
    ensures |r| == |boards|
    ensures forall i :: 0 <= i < |boards| && boards[i].id != id ==> r[i] == boards[i]
    ensures forall i :: 0 <= i < |boards| && boards[i].id == id ==>
      r[i].id == id && r[i].title == name && r[i].columns == columns && r[i].extra == boards[i].extra
  {
    if boards == [] then []
    else
      [if boards[0].id == id then boards[0].(title := name, columns := columns) else boards[0]]
      + ReplaceBoard(boards[1..], id, name, columns)
  }

  /** A new board: the fresh id, the given title and columns, no other fields. */
  function NewBoard(id: int, name: string, columns: seq<Column>): Board {
    Board(id, name, columns, map[])
  }

  /** What the store updater produces: the new list, and the index to select if it selects one. */
  datatype StoreUpdate = StoreUpdate(boards: seq<Board>, selected: Option<int>)

  /** The store updater of a submission: guard, then replace-by-id or append-and-select. */
  function UpdateStore(prev: Store, boardId: Option<int>, name: string, columns: seq<Column>, freshBoardId: int)
    : (u: StoreUpdate)
    ensures prev.NotAList? ==> u.boards == [] && u.selected.None?
    ensures prev.BoardList? && IsEditing(boardId) ==>
      u.selected.None? && u.boards == ReplaceBoard(prev.boards, boardId.value, name, columns)
    ensures prev.BoardList? && !IsEditing(boardId) ==>
      && |u.boards| == |prev.boards| + 1
      && u.boards[..|prev.boards|] == prev.boards
      && u.selected == Some(|prev.boards|)
      && u.boards[|prev.boards|] == Board(freshBoardId, name, columns, map[])
  {
    match prev
    case NotAList => StoreUpdate([], None)
    case BoardList(boards) =>
      if IsEditing(boardId) then StoreUpdate(ReplaceBoard(boards, boardId.value, name, columns), None)
      else StoreUpdate(boards + [NewBoard(freshBoardId, name, columns)], Some(|boards|))
  }

  /** Replacing an id no board carries changes nothing. */
  lemma ReplaceAbsent(boards: seq<Board>, id: int, name: string, columns: seq<Column>)
    requires forall i :: 0 <= i < |boards| ==> boards[i].id != id
    ensures ReplaceBoard(boards, id, name, columns) == boards
  {
  }

  /** With unique board ids, an edit rewrites exactly the board at the matching index. */
  lemma ReplaceUnique(boards: seq<Board>, k: nat, name: string, columns: seq<Column>)
    requires forall i, j :: 0 <= i < j < |boards| ==> boards[i].id != boards[j].id
    requires k < |boards|
    ensures ReplaceBoard(boards, boards[k].id, name, columns)
      == boards[k := boards[k].(title := name, columns := columns)]
  {
  }

  /** An edit keeps the list of board ids, so the selected index still names the same board. */
  lemma ReplaceKeepsIds(boards: seq<Board>, id: int, name: string, columns: seq<Column>, i: nat)
    requires i < |boards|
    ensures ReplaceBoard(boards, id, name, columns)[i].id == boards[i].id
  {
  }

  /** The selected index of a create names the new board. */
  lemma CreateSelectsNewBoard(boards: seq<Board>, boardId: Option<int>, name: string, columns: seq<Column>, freshBoardId: int)
    requires !IsEditing(boardId)
    ensures var u := UpdateStore(BoardList(boards), boardId, name, columns, freshBoardId);
      u.selected.Some? && 0 <= u.selected.value < |u.boards|
      && u.boards[u.selected.value] == NewBoard(freshBoardId, name, columns)
  {
  }

  /**
    A board id of 0 is falsy, so it behaves exactly like a missing one: the
    columns drop their tasks and the store update appends a new board.
   */
  lemma ZeroBoardIdCreates(rows: seq<ColumnRow>, formData: FormData, boards: seq<Board>, name: string,
                           columns: seq<Column>, freshBoardId: int)
    ensures AssembleColumns(rows, formData, Some(0)) == AssembleColumns(rows, formData, None)
    ensures UpdateStore(BoardList(boards), Some(0), name, columns, freshBoardId)
         == UpdateStore(BoardList(boards), None, name, columns, freshBoardId)
  {
  }

  // ---------------------------------------------------------------------------
  // Submission
  // ---------------------------------------------------------------------------

  /** The outcome of reading a submission: abort, or the board name and the columns to write. */
  datatype Submission = Abort | Commit(boardName: string, columns: seq<Column>)

  /** A missing or empty board name aborts; otherwise the columns are assembled from the rows. */
  function ReadSubmission(formData: FormData, rows: seq<ColumnRow>, boardId: Option<int>): (s: Submission)
    ensures s.Abort? <==> BoardNameField !in formData || formData[BoardNameField] == ""
    ensures s.Commit? ==> s.boardName == formData[BoardNameField] && s.boardName != ""
    ensures s.Commit? ==> s.columns == AssembleColumns(rows, formData, boardId)
  {
    var name := FieldValue(formData, BoardNameField);
    if name == "" then Abort else Commit(name, AssembleColumns(rows, formData, boardId))
  }

  /** A created board is appended with the submitted name and columns that carry no tasks. */
  lemma CreatedBoardHasNoTasks(boards: seq<Board>, formData: FormData, rows: seq<ColumnRow>, boardId: Option<int>, freshBoardId: int)
    requires !IsEditing(boardId)
    requires ReadSubmission(formData, rows, boardId).Commit?
    ensures var s := ReadSubmission(formData, rows, boardId);
      var u := UpdateStore(BoardList(boards), boardId, s.boardName, s.columns, freshBoardId);
      && u.boards[|boards|].title == formData[BoardNameField]
      && |u.boards[|boards|].columns| == |rows|
      && forall c :: c in u.boards[|boards|].columns ==> c.tasks == []
  {
  }

  // ---------------------------------------------------------------------------
  // The shared store and the form component
  // ---------------------------------------------------------------------------

  /** The shared application state the form writes: the board list and the selected board's index. */
  class DataContext {
    var data: Store
    var selectedBoardIndex: int

    constructor (data: Store, selectedBoardIndex: int)
      ensures this.data == data && this.selectedBoardIndex == selectedBoardIndex
    {
      this.data := data;
      this.selectedBoardIndex := selectedBoardIndex;
    }
  }

  /**
    The form component. `columnsArray` is its column-row state; `dialogOpen`
    stands for the parent's dialog, which `toggleDialog(false)` closes.
   */
  class AddNewBoardForm {
    const context: DataContext
    const boardId: Option<int>
    var columnsArray: seq<ColumnRow>
    var dialogOpen: bool

    constructor (context: DataContext, boardId: Option<int>, columns: seq<ColumnRow>, freshId: int)
      ensures this.context == context && this.boardId == boardId
      ensures columnsArray == InitialColumns(columns, freshId)
      ensures dialogOpen
    {
      this.context := context;
      this.boardId := boardId;
      columnsArray := InitialColumns(columns, freshId);
      dialogOpen := true;
    }

    method RemoveColumn(id: int)
      modifies this`columnsArray
      ensures columnsArray == RemoveById(old(columnsArray), id)
    {
      columnsArray := RemoveById(columnsArray, id);
    }

    method AddNewColumn(freshId: int)
      modifies this`columnsArray
      ensures columnsArray == AddColumn(old(columnsArray), freshId)
    {
      columnsArray := AddColumn(columnsArray, freshId);
    }

    /** Writes the store updater's result; the selected index changes only on a create. */
    method UpdateData(boardName: string, newColumns: seq<Column>, freshBoardId: int)
      modifies context
      ensures var u := UpdateStore(old(context.data), boardId, boardName, newColumns, freshBoardId);
        && context.data == BoardList(u.boards)
        && context.selectedBoardIndex == u.selected.GetOr(old(context.selectedBoardIndex))
    {
      var u := UpdateStore(context.data, boardId, boardName, newColumns, freshBoardId);
      context.data := BoardList(u.boards);
      if u.selected.Some? {
        context.selectedBoardIndex := u.selected.value;
      }
    }

    /**
      Submits the form. Without a board name nothing is written and the
      dialog stays open (`submitted` is false, where the source alerts);
      otherwise the store is updated and the dialog closed.
     */
    method HandleFormSubmit(formData: FormData, freshBoardId: int) returns (submitted: bool)
      modifies context, this`dialogOpen
      ensures submitted <==> BoardNameField in formData && formData[BoardNameField] != ""
      ensures !submitted ==> unchanged(context) && dialogOpen == old(dialogOpen)
      ensures submitted ==>
        var u := UpdateStore(old(context.data), boardId, formData[BoardNameField],
                             AssembleColumns(columnsArray, formData, boardId), freshBoardId);
        && context.data == BoardList(u.boards)
        && context.selectedBoardIndex == u.selected.GetOr(old(context.selectedBoardIndex))
        && !dialogOpen
    {
      var s := ReadSubmission(formData, columnsArray, boardId);
      if s.Abort? {
        return false;
      }
      UpdateData(s.boardName, s.columns, freshBoardId);
      dialogOpen := false;
      submitted := true;
    }
  }
}
