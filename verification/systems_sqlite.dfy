/**
 * The dbbench SQLite wrapper (src/systems/sqlite/sqlite3.hpp): result codes
 * are classified into a row, the end of the rows, a ConstraintException or a
 * plain Exception. Engine answers (result codes, sqlite3_errstr and
 * sqlite3_errmsg texts) are inputs.
 */
module SystemsSqlite {
  import opened Text
  import Tatp

  // ---------------------------------------------------------------------------
  // Exceptions

  /** Which class was thrown: sqlite::Exception itself or its ConstraintException subclass. */
  datatype ExceptionKind = Plain | ConstraintViolation

  /** A thrown sqlite::Exception: its class, code() and what(). */
  datatype Exception = Exception(kind: ExceptionKind, code: int, what: string)

  /** What a wrapper call gives back: its value, or the exception it throws. */
  datatype Result<+T> = Ok(value: T) | Thrown(exception: Exception)
  {
    predicate IsFailure() { Thrown? }

    function PropagateFailure<U>(): Result<U>
      requires Thrown?
    {
      Thrown(exception)
    }

    function Extract(): T
      requires Ok?
    {
      value
    }
  }

  /**
   * The text an Exception is built with: "SQLite3 code <code> (<errstr>)",
   * then ": <message>" unless the message is empty.
   */
  function ExceptionText(code: int, errstr: string, message: string): string
  {
    "SQLite3 code " + IntToString(code) + " (" + errstr + ")"
      + if message == "" then "" else ": " + message
  }

  /** Exception(code, message), where errstr is sqlite3_errstr's description of the code. */
  function MakeException(code: int, errstr: string, message: string): (e: Exception)
    ensures e.kind == Plain && e.code == code
    ensures e.what == ExceptionText(code, errstr, message)
  {
    Exception(Plain, code, ExceptionText(code, errstr, message))
  }

  /** ConstraintException(message): an Exception whose code is always SQLITE_CONSTRAINT. */
  function MakeConstraintException(errstr: string, message: string): (e: Exception)
    ensures e.kind == ConstraintViolation && e.code == Tatp.SQLITE_CONSTRAINT
    ensures e.what == MakeException(Tatp.SQLITE_CONSTRAINT, errstr, message).what
  {
    Exception(ConstraintViolation, Tatp.SQLITE_CONSTRAINT, ExceptionText(Tatp.SQLITE_CONSTRAINT, errstr, message))
  }

  /**
   * what() reads back: it starts with "SQLite3 code ", the word after that
   * parses as the code, and it ends with ": <message>" when the message is
   * non-empty and with the closing parenthesis when it is empty.
   */
  lemma ExceptionTextShape(code: int, errstr: string, message: string)
    ensures var m := ExceptionText(code, errstr, message);
      |m| > 13 && m[..13] == "SQLite3 code " && ParseInt(Word(m[13..])) == Some(code)
    ensures var m := ExceptionText(code, errstr, message);
      message != "" ==> |m| >= |message| + 2 && m[|m| - |message| - 2..] == ": " + message
    ensures var m := ExceptionText(code, errstr, message);
      message == "" ==> m[|m| - 1] == ')'
  {
    var tail := "(" + errstr + ")" + if message == "" then "" else ": " + message;
    var m := ExceptionText(code, errstr, message);
    assert m == "SQLite3 code " + (IntToString(code) + " " + tail);
    LeadingNumber(code, tail);
  }

  /** what() determines code(): two exception texts that are equal were built from the same code. */
  lemma ExceptionTextDeterminesCode(c1: int, c2: int, e1: string, e2: string, m1: string, m2: string)
    requires ExceptionText(c1, e1, m1) == ExceptionText(c2, e2, m2)
    ensures c1 == c2
  {
    ExceptionTextShape(c1, e1, m1);
    ExceptionTextShape(c2, e2, m2);
  }

  /** The check every wrapper call but step and reset makes: any code other than SQLITE_OK is thrown as a plain Exception. */
  function CheckOk(rc: int, errstr: string, errmsg: string): (r: Result<()>)
    ensures r.Ok? <==> rc == Tatp.SQLITE_OK
    ensures r.Thrown? ==> r.exception == MakeException(rc, errstr, errmsg)
  {
    if rc != Tatp.SQLITE_OK then Thrown(MakeException(rc, errstr, errmsg)) else Ok(())
  }

  // ---------------------------------------------------------------------------
  // Statements

  /** What step() reports when it does not throw: a row is ready, or the rows are done. */
  datatype Step = RowReady | Done

  /**
   * step(): SQLITE_ROW gives a Row, SQLITE_DONE the empty optional,
   * SQLITE_CONSTRAINT throws ConstraintException and every other code throws
   * Exception(rc). Messages carry sqlite3_errmsg.
   */
  function StepResult(rc: int, errstr: string, errmsg: string): (r: Result<Step>)
    ensures r == Ok(RowReady) <==> rc == Tatp.SQLITE_ROW
    ensures r == Ok(Done) <==> rc == Tatp.SQLITE_DONE
    ensures r.Thrown? <==> rc != Tatp.SQLITE_ROW && rc != Tatp.SQLITE_DONE
    ensures r.Thrown? ==> r.exception.code == rc
    ensures r.Thrown? ==> (r.exception.kind == ConstraintViolation <==> rc == Tatp.SQLITE_CONSTRAINT)
    ensures r.Thrown? ==> r.exception.what == ExceptionText(rc, errstr, errmsg)
  {
    if rc == Tatp.SQLITE_ROW then Ok(RowReady)
    else if rc == Tatp.SQLITE_DONE then Ok(Done)
    else if rc == Tatp.SQLITE_CONSTRAINT then Thrown(MakeConstraintException(errstr, errmsg))
    else Thrown(MakeException(rc, errstr, errmsg))
  }

  /**
   * reset(): SQLITE_OK has no effect, SQLITE_CONSTRAINT throws
   * ConstraintException, every other code throws Exception(rc).
   */
  function ResetResult(rc: int, errstr: string, errmsg: string): (r: Result<()>)
    ensures r.Ok? <==> rc == Tatp.SQLITE_OK
    ensures r.Thrown? ==> r.exception.code == rc
    ensures r.Thrown? ==> (r.exception.kind == ConstraintViolation <==> rc == Tatp.SQLITE_CONSTRAINT)
    ensures r.Thrown? ==> r.exception.what == ExceptionText(rc, errstr, errmsg)
  {
    if rc == Tatp.SQLITE_OK then Ok(())
    else if rc == Tatp.SQLITE_CONSTRAINT then Thrown(MakeConstraintException(errstr, errmsg))
    else Thrown(MakeException(rc, errstr, errmsg))
  }

  /** The four bind overloads: a C int, a 64-bit integer, a string, a blob of n bytes. */
  datatype BindValue = Int32(i: int) | Int64(l: int) | Text(s: string) | Blob(bytes: seq<bv8>, n: int)

  /** A call made on a prepared statement, in the order it was made. */
  datatype StatementCall = BindCall(position: int, value: BindValue) | StepCall | ResetCall

  class Statement {
    /** The SQL text the statement was prepared from. */
    const sql: string
    /** The calls made on the statement so far. */
    var calls: seq<StatementCall>

    constructor(sql: string)
      ensures this.sql == sql && calls == []
    {
      this.sql := sql;
      calls := [];
    }

    /**
     * bind(i, v): binds at position i as given (no index shift); a code other
     * than SQLITE_OK throws a plain Exception carrying sqlite3_errmsg.
     */
    method Bind(i: int, v: BindValue, rc: int, errstr: string, errmsg: string) returns (r: Result<()>)
      modifies this
      ensures calls == old(calls) + [BindCall(i, v)]
      ensures r == CheckOk(rc, errstr, errmsg)
    {
      calls := calls + [BindCall(i, v)];
      r := CheckOk(rc, errstr, errmsg);
    }

    method DoStep(rc: int, errstr: string, errmsg: string) returns (r: Result<Step>)
      modifies this
      ensures calls == old(calls) + [StepCall]
      ensures r == StepResult(rc, errstr, errmsg)
    {
      calls := calls + [StepCall];
      r := StepResult(rc, errstr, errmsg);
    }

    method Reset(rc: int, errstr: string, errmsg: string) returns (r: Result<()>)
      modifies this
      ensures calls == old(calls) + [ResetCall]
      ensures r == ResetResult(rc, errstr, errmsg)
    {
      calls := calls + [ResetCall];
      r := ResetResult(rc, errstr, errmsg);
    }
  }

  // ---------------------------------------------------------------------------
  // Connections and databases

  /** The engine's answers to one step-then-reset of a transaction statement. */
  datatype TxAnswers = TxAnswers(stepRc: int, resetRc: int, errstr: int -> string, errmsg: string)

  /**
   * Running a transaction statement: a step whose row-or-done answer is
   * dropped, then a reset; the first exception ends the run.
   */
  function TxResult(a: TxAnswers): (r: Result<()>)
    ensures r.Ok? <==> (a.stepRc == Tatp.SQLITE_ROW || a.stepRc == Tatp.SQLITE_DONE) && a.resetRc == Tatp.SQLITE_OK
    ensures r.Thrown? && StepResult(a.stepRc, a.errstr(a.stepRc), a.errmsg).Thrown?
      ==> r == StepResult(a.stepRc, a.errstr(a.stepRc), a.errmsg).PropagateFailure()
  {
    var stepped :- StepResult(a.stepRc, a.errstr(a.stepRc), a.errmsg);
    ResetResult(a.resetRc, a.errstr(a.resetRc), a.errmsg)
  }

  /** The calls a step-then-reset makes: the reset only when the step did not throw. */
  function TxCalls(a: TxAnswers): (calls: seq<StatementCall>)
    ensures calls == [StepCall] || calls == [StepCall, ResetCall]
    ensures calls == [StepCall, ResetCall] <==> StepResult(a.stepRc, a.errstr(a.stepRc), a.errmsg).Ok?
  {
    if StepResult(a.stepRc, a.errstr(a.stepRc), a.errmsg).Ok? then [StepCall, ResetCall] else [StepCall]
  }

  class Connection {
    /** begin_ and commit_: prepared once, from "BEGIN" and "COMMIT". */
    const begin: Statement
    const commit: Statement

    ghost predicate Valid()
      reads this
    {
      begin != commit && begin.sql == "BEGIN" && commit.sql == "COMMIT"
    }

    constructor(begin: Statement, commit: Statement)
      ensures this.begin == begin && this.commit == commit
    {
      this.begin := begin;
      this.commit := commit;
    }

    /** Step the statement, then reset it; a step that throws skips the reset. */
    static method StepThenReset(s: Statement, a: TxAnswers) returns (r: Result<()>)
      modifies s
      ensures s.calls == old(s.calls) + TxCalls(a)
      ensures r == TxResult(a)
    {
      var stepped :- s.DoStep(a.stepRc, a.errstr(a.stepRc), a.errmsg);
      r := s.Reset(a.resetRc, a.errstr(a.resetRc), a.errmsg);
    }

    /** begin(): step-then-reset on begin_; commit_ is not touched. */
    method Begin(a: TxAnswers) returns (r: Result<()>)
      requires Valid()
      modifies begin
      ensures begin.calls == old(begin.calls) + TxCalls(a)
      ensures unchanged(commit)
      ensures r == TxResult(a)
    {
      r := StepThenReset(begin, a);
    }

    /** commit(): step-then-reset on commit_; begin_ is not touched. */
    method Commit(a: TxAnswers) returns (r: Result<()>)
      requires Valid()
      modifies commit
      ensures commit.calls == old(commit.calls) + TxCalls(a)
      ensures unchanged(begin)
      ensures r == TxResult(a)
    {
      r := StepThenReset(commit, a);
    }
  }

  /**
   * Connection::prepare(sql): sqlite3_prepare_v2's code other than SQLITE_OK
   * throws a plain Exception; otherwise a fresh statement for sql.
   */
  method Prepare(sql: string, rc: int, errstr: string, errmsg: string) returns (r: Result<Statement>)
    ensures r.Ok? <==> rc == Tatp.SQLITE_OK
    ensures r.Ok? ==> fresh(r.value) && r.value.sql == sql && r.value.calls == []
    ensures r.Thrown? ==> r.exception == MakeException(rc, errstr, errmsg)
  {
    var ok :- CheckOk(rc, errstr, errmsg);
    var s := new Statement(sql);
    r := Ok(s);
  }

  /** The engine's answers to opening a connection: sqlite3_open, then preparing BEGIN and COMMIT. */
  datatype OpenAnswers = OpenAnswers(openRc: int, beginRc: int, commitRc: int, errstr: int -> string, errmsg: string)

  /** The code of the first of the connect's three calls that did not answer SQLITE_OK, if any. */
  function ConnectFailure(a: OpenAnswers): (code: Option<int>)
    ensures code.None? <==> a.openRc == a.beginRc == a.commitRc == Tatp.SQLITE_OK
    ensures code.Some? ==> code.value != Tatp.SQLITE_OK
  {
    if a.openRc != Tatp.SQLITE_OK then Some(a.openRc)
    else if a.beginRc != Tatp.SQLITE_OK then Some(a.beginRc)
    else if a.commitRc != Tatp.SQLITE_OK then Some(a.commitRc)
    else None
  }

  class Database {
    const filename: string

    constructor(filename: string)
      ensures this.filename == filename
    {
      this.filename := filename;
    }

    /**
     * connect(): sqlite3_open on the file name, then the Connection
     * constructor, which prepares "BEGIN" and then "COMMIT"; the first code
     * other than SQLITE_OK is thrown as a plain Exception.
     */
    method Connect(a: OpenAnswers) returns (r: Result<Connection>)
      ensures r.Ok? <==> ConnectFailure(a).None?
      ensures r.Ok? ==> fresh(r.value) && fresh(r.value.begin) && fresh(r.value.commit) && r.value.Valid()
      ensures r.Ok? ==> r.value.begin.calls == [] && r.value.commit.calls == []
      ensures r.Thrown? ==> ConnectFailure(a).Some?
      ensures r.Thrown? ==> r.exception == MakeException(ConnectFailure(a).value, a.errstr(ConnectFailure(a).value), a.errmsg)
    {
      var isOpen :- CheckOk(a.openRc, a.errstr(a.openRc), a.errmsg);
      var begin :- Prepare("BEGIN", a.beginRc, a.errstr(a.beginRc), a.errmsg);
      var commit :- Prepare("COMMIT", a.commitRc, a.errstr(a.commitRc), a.errmsg);
      var c := new Connection(begin, commit);
      r := Ok(c);
    }
  }

  /**
   * The Database constructor: sqlite3_initialize's code other than SQLITE_OK
   * throws Exception(rc, "could not initialize SQLite3").
   */
  method OpenDatabase(filename: string, initRc: int, errstr: string) returns (r: Result<Database>)
    ensures r.Ok? <==> initRc == Tatp.SQLITE_OK
    ensures r.Ok? ==> fresh(r.value) && r.value.filename == filename
    ensures r.Thrown? ==> r.exception == MakeException(initRc, errstr, "could not initialize SQLite3")
  {
    var initialized :- CheckOk(initRc, errstr, "could not initialize SQLite3");
    var db := new Database(filename);
    r := Ok(db);
  }

  /** Connection::execute(sql): sqlite3_exec's code other than SQLITE_OK throws a plain Exception. */
  function Execute(sql: string, rc: int, errstr: string, errmsg: string): (r: Result<()>)
    ensures r.Ok? <==> rc == Tatp.SQLITE_OK
    ensures r.Thrown? ==> r.exception.kind == Plain && r.exception.code == rc
  {
    CheckOk(rc, errstr, errmsg)
  }
}
