/**
 * Vocabulary shared by every TATP adapter: the records the loader receives, the
 * seven transactions, the TXBENCH return codes, SQLite result codes, and the way
 * engine answers are given to the model (they are inputs, never computed).
 */
module Tatp {
  import opened Text

  // ---------------------------------------------------------------------------
  // SQLite result codes (the values of sqlite3.h)

  const SQLITE_OK: int := 0
  const SQLITE_ERROR: int := 1
  const SQLITE_CONSTRAINT: int := 19
  const SQLITE_ROW: int := 100
  const SQLITE_DONE: int := 101

  /** The outcome a txbench client reports for one transaction. */
  datatype ReturnCode = Success | Missing | Constraint | Failure

  /** Why a transaction or a load step did not run to its end. */
  datatype Fault =
    | AssertFailed                          // a C assert() that does not hold (asserts are checked)
    | SqliteError(code: int)                // a sqlite::Exception carrying an SQLite result code
    | ExpectFailed(expected: int, got: int) // a wrapper result whose expect() saw another code
    | RuntimeError(message: string)         // std::runtime_error raised with an engine's error text
    | NullChunk                             // a member call through the null chunk a drained DuckDB result returns

  datatype Outcome<+T> = Ok(value: T) | Fail(fault: Fault)
  {
    predicate IsFailure() { Fail? }

    function PropagateFailure<U>(): Outcome<U>
      requires Fail?
    {
      Fail(fault)
    }

    function Extract(): T
      requires Ok?
    {
      value
    }
  }

  /** A C assert(cond): execution goes on only when cond holds. */
  function Assert(cond: bool): (r: Outcome<()>)
    ensures r.Ok? <==> cond
    ensures r.Fail? ==> r.fault == AssertFailed
  {
    if cond then Ok(()) else Fail(AssertFailed)
  }

  // ---------------------------------------------------------------------------
  // Engine answers

  /** Every call in a group answered SQLITE_OK. */
  predicate AllOk(rcs: seq<int>)
  {
    forall i | 0 <= i < |rcs| :: rcs[i] == SQLITE_OK
  }

  /**
   * The value an adapter reads from column `column` of the `row`-th result row
   * (both 0-based). Values stay symbolic: only where they come from matters.
   */
  datatype Cell = Cell(row: nat, column: nat)

  /** A value bound to a statement parameter. */
  datatype Value = IntValue(n: int) | TextValue(s: string) | CellValue(cell: Cell)

  /** An engine-side parameter binding: 1-based position and value. */
  datatype Binding = Binding(position: int, value: Value)

  /**
   * What successive sqlite3_step calls on one statement return: SQLITE_ROW for
   * the first `rows` calls, then `last` for every further call.
   */
  datatype StepAnswers = Cursor(rows: nat, last: int)

  /** An engine yields finitely many rows: the answer after the rows is not SQLITE_ROW. */
  type Cursor = c: StepAnswers | c.last != SQLITE_ROW witness Cursor(0, SQLITE_DONE)

  /** The answer to the k-th (0-based) step call. */
  function StepCode(c: Cursor, k: nat): (rc: int)
    ensures rc == SQLITE_ROW <==> k < c.rows
    ensures k >= c.rows ==> rc == c.last
  {
    if k < c.rows then SQLITE_ROW else c.last
  }

  /**
   * Stepping from the k-th call on while the answer is SQLITE_ROW: the loop
   * runs past the remaining rows and ends with the answer that follows them.
   */
  method StepPastRows(c: Cursor, k: nat) returns (rc: int)
    ensures rc == c.last
  {
    var i := k;
    rc := StepCode(c, i);
    while rc == SQLITE_ROW
      invariant i >= k && rc == StepCode(c, i)
      invariant k < c.rows ==> i <= c.rows
      decreases c.rows - i
    {
      i := i + 1;
      rc := StepCode(c, i);
    }
  }

  /** The cells of column `column` in result rows 0 .. n-1, in row order. */
  function ColumnCells(n: nat, column: nat): (cells: seq<Cell>)
    ensures |cells| == n
    ensures forall k | 0 <= k < n :: cells[k] == Cell(k, column)
  {
    seq(n, (k: int) requires 0 <= k => Cell(k, column))
  }

  /**
   * A DuckDB QueryResult: whether it succeeded, its error flag and text, the
   * sizes of the chunks successive Fetch calls return before the null chunk,
   * and the integer in column 0 of the first row (a statement's change count,
   * or the id a lookup returns).
   */
  datatype QueryResult = QueryResult(success: bool, hasError: bool, error: string, chunks: seq<nat>, firstInt: int)

  // ---------------------------------------------------------------------------
  // TATP records and transactions (as the record and procedure generators give them)

  datatype SubscriberRecord = SubscriberRecord(
    sId: nat, subNbr: string, bit: seq<bool>, hex: seq<nat>, byte2: seq<nat>,
    mscLocation: nat, vlrLocation: nat)

  /** bit, hex and byte2 are std::array<_, 10> in the generator. */
  predicate WellFormed(r: SubscriberRecord)
  {
    |r.bit| == 10 && |r.hex| == 10 && |r.byte2| == 10
  }

  datatype AccessInfoRecord = AccessInfoRecord(
    sId: nat, aiType: nat, data1: nat, data2: nat, data3: string, data4: string)

  datatype SpecialFacilityRecord = SpecialFacilityRecord(
    sId: nat, sfType: nat, isActive: bool, errorCntrl: nat, dataA: nat, dataB: string)

  datatype CallForwardingRecord = CallForwardingRecord(
    sId: nat, sfType: nat, startTime: nat, endTime: nat, numberx: string)

  datatype Record =
    | SubscriberRow(subscriber: SubscriberRecord)
    | AccessInfoRow(accessInfo: AccessInfoRecord)
    | SpecialFacilityRow(specialFacility: SpecialFacilityRecord)
    | CallForwardingRow(callForwarding: CallForwardingRecord)

  datatype Procedure =
    | GetSubscriberData(sId: nat)
    | GetNewDestination(sId: nat, sfType: nat, startTime: nat, endTime: nat)
    | GetAccessData(sId: nat, aiType: nat)
    | UpdateSubscriberData(sId: nat, bit1: bool, sfType: nat, dataA: nat)
    | UpdateLocation(subNbr: string, vlrLocation: nat)
    | InsertCallForwarding(subNbr: string, sfType: nat, startTime: nat, endTime: nat, numberx: string)
    | DeleteCallForwarding(subNbr: string, sfType: nat, startTime: nat)

  /** A C++ bool converted to int. */
  function BoolInt(b: bool): (n: int)
    ensures n == 0 || n == 1
    ensures n == 1 <==> b
  {
    if b then 1 else 0
  }

  // ---------------------------------------------------------------------------
  // The subscriber row layout shared by the schema, the loaders and the readers

  /** A field of a subscriber row; i is the 0-based index into bit, hex or byte2. */
  datatype SubscriberField = SId | SubNbr | Bit(i: nat) | Hex(i: nat) | Byte2(i: nat) | MscLocation | VlrLocation

  predicate ValidField(f: SubscriberField)
  {
    match f
    case Bit(i) => i < 10
    case Hex(i) => i < 10
    case Byte2(i) => i < 10
    case _ => true
  }

  /** The 0-based position of a field in the subscriber row (its column in SELECT *). */
  function FieldColumn(f: SubscriberField): (k: nat)
    requires ValidField(f)
    ensures k < 34
  {
    match f
    case SId => 0
    case SubNbr => 1
    case Bit(i) => i + 2
    case Hex(i) => i + 12
    case Byte2(i) => i + 22
    case MscLocation => 32
    case VlrLocation => 33
  }

  /** The field stored at 0-based column k of a subscriber row. */
  function FieldAt(k: nat): (f: SubscriberField)
    requires k < 34
    ensures ValidField(f)
  {
    if k == 0 then SId
    else if k == 1 then SubNbr
    else if k < 12 then Bit(k - 2)
    else if k < 22 then Hex(k - 12)
    else if k < 32 then Byte2(k - 22)
    else if k == 32 then MscLocation
    else VlrLocation
  }

  /** FieldColumn is a bijection from the 34 subscriber fields onto the columns 0 .. 33. */
  lemma FieldColumnBijection()
    ensures forall f | ValidField(f) :: FieldAt(FieldColumn(f)) == f
    ensures forall k | 0 <= k < 34 :: FieldColumn(FieldAt(k)) == k
  {
  }

  // ---------------------------------------------------------------------------
  // What the clients read back

  /** The cells a get_subscriber_data call copies into its out-parameters. */
  datatype SubscriberData = SubscriberData(
    subNbr: Cell, bit: seq<Cell>, hex: seq<Cell>, byte2: seq<Cell>, mscLocation: Cell, vlrLocation: Cell)

  /** The cell an out-parameter of get_subscriber_data holds for field f (s_id is an input, not read back). */
  function DataCell(d: SubscriberData, f: SubscriberField): Cell
    requires ValidField(f) && f != SId
    requires |d.bit| == 10 && |d.hex| == 10 && |d.byte2| == 10
  {
    match f
    case SubNbr => d.subNbr
    case Bit(i) => d.bit[i]
    case Hex(i) => d.hex[i]
    case Byte2(i) => d.byte2[i]
    case MscLocation => d.mscLocation
    case VlrLocation => d.vlrLocation
  }

  /** Every field was read from its own column of result row `row`. */
  ghost predicate ReadsSubscriberRow(d: SubscriberData, row: nat)
  {
    |d.bit| == 10 && |d.hex| == 10 && |d.byte2| == 10
    && forall f | ValidField(f) && f != SId :: DataCell(d, f) == Cell(row, FieldColumn(f))
  }

  /** The cells a get_access_data call copies into data1 .. data4. */
  datatype AccessData = AccessData(data1: Cell, data2: Cell, data3: Cell, data4: Cell)

  /** A column of access_info that get_access_data reads back. */
  datatype AccessField = Data1 | Data2 | Data3 | Data4

  /** The name of each field's column in the access_info table. */
  function AccessFieldName(f: AccessField): string
  {
    match f
    case Data1 => "data1"
    case Data2 => "data2"
    case Data3 => "data3"
    case Data4 => "data4"
  }

  /** The select list of the access_info lookup, in the order the statement names its columns. */
  const AccessSelectList: seq<string> := ["data1", "data2", "data3", "data4"]

  /** The result column that holds field f: the place of its name in the select list. */
  function AccessColumn(f: AccessField): (k: nat)
    ensures k < |AccessSelectList| && AccessSelectList[k] == AccessFieldName(f)
  {
    match f
    case Data1 => 0
    case Data2 => 1
    case Data3 => 2
    case Data4 => 3
  }

  /** The select list names every field once, so no two fields share a result column. */
  lemma AccessColumnInjective(f: AccessField, g: AccessField)
    ensures AccessColumn(f) == AccessColumn(g) <==> f == g
  {
  }

  /** The out-parameter of get_access_data that holds field f. */
  function AccessCell(d: AccessData, f: AccessField): Cell
  {
    match f
    case Data1 => d.data1
    case Data2 => d.data2
    case Data3 => d.data3
    case Data4 => d.data4
  }

  /** Every out-parameter holds the cell of result row `row` in the column its name has in the select list. */
  ghost predicate ReadsAccessRow(d: AccessData, row: nat)
  {
    forall f :: AccessCell(d, f) == Cell(row, AccessColumn(f))
  }

  /** The access_info reader: data1 .. data4 copied from the result columns in turn. */
  method ReadAccessRow(row: nat) returns (d: AccessData)
    ensures ReadsAccessRow(d, row)
  {
    var data1 := Cell(row, 0);
    var data2 := Cell(row, 1);
    var data3 := Cell(row, 2);
    var data4 := Cell(row, 3);
    d := AccessData(data1, data2, data3, data4);
  }

  /** The cells of columns first .. first+n-1 of result row `row`, read one at a time as the clients' for loops do. */
  method ReadColumns(row: nat, first: nat, n: nat) returns (cells: seq<Cell>)
    ensures |cells| == n
    ensures forall i | 0 <= i < n :: cells[i] == Cell(row, first + i)
  {
    cells := [];
    for i := 0 to n
      invariant |cells| == i
      invariant forall j | 0 <= j < i :: cells[j] == Cell(row, first + j)
    {
      cells := cells + [Cell(row, first + i)];
    }
  }

  /**
   * The subscriber reader of the SQLite clients: sub_nbr from column 1, three
   * loops over columns 2-11, 12-21 and 22-31, then columns 32 and 33.
   */
  method ReadSubscriber(row: nat) returns (d: SubscriberData)
    ensures ReadsSubscriberRow(d, row)
  {
    var bit := ReadColumns(row, 2, 10);
    var hex := ReadColumns(row, 12, 10);
    var byte2 := ReadColumns(row, 22, 10);
    d := SubscriberData(Cell(row, 1), bit, hex, byte2, Cell(row, 32), Cell(row, 33));
  }

  // ---------------------------------------------------------------------------
  // The txbench clients' statement files

  /** The file the txbench clients read statement i from. */
  function StatementFile(i: nat): string
  {
    "sql/stmt_" + IntToString(i) + ".sql"
  }

  /** Different statements come from different files. */
  lemma StatementFileInjective(i: nat, j: nat)
    requires StatementFile(i) == StatementFile(j)
    ensures i == j
  {
    var a, b := IntToString(i), IntToString(j);
    assert |"sql/stmt_" + a| == |"sql/stmt_" + b|;
    assert ("sql/stmt_" + a + ".sql")[9..9 + |a|] == a;
    assert ("sql/stmt_" + b + ".sql")[9..9 + |b|] == b;
    IntToStringRoundTrip(i);
    IntToStringRoundTrip(j);
  }

  /** The constructors' `for (i = 0; i <= 9; ++i)` loop: the statement files in index order. */
  method StatementFiles() returns (files: seq<string>)
    ensures |files| == 10
    ensures forall i | 0 <= i < 10 :: files[i] == StatementFile(i)
  {
    files := [];
    var i := 0;
    while i <= 9
      invariant 0 <= i <= 10 && |files| == i
      invariant forall j | 0 <= j < i :: files[j] == StatementFile(j)
    {
      files := files + [StatementFile(i)];
      i := i + 1;
    }
  }
}
