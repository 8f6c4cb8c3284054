/**
 * The txbench SQLite wrapper (src/sqlite3.hpp): every failing engine call
 * becomes a sqlite::Exception carrying the call's result code.
 */
module TxbenchSqlite {
  import opened Text
  import opened Tatp

  // ---------------------------------------------------------------------------
  // Exceptions

  /**
   * The text of sqlite::Exception: "SQLite3 error <code> (<errstr(code)>)",
   * then ": <explanation>" when an explanation was given.
   */
  function ExceptionMessage(code: int, errstr: string, explanation: Option<string>): string
  {
    "SQLite3 error " + IntToString(code) + " (" + errstr + ")"
      + match explanation case Some(e) => ": " + e case None => ""
  }

  /**
   * The message starts with "SQLite3 error ", the word after it reads back as
   * the code, and it ends with the explanation when there is one and with the
   * closing parenthesis otherwise.
   */
  lemma ExceptionMessageShape(code: int, errstr: string, explanation: Option<string>)
    ensures var m := ExceptionMessage(code, errstr, explanation);
      |m| > 14 && m[..14] == "SQLite3 error " && ParseInt(Word(m[14..])) == Some(code)
    ensures var m := ExceptionMessage(code, errstr, explanation);
      match explanation
      case Some(e) => |m| >= |e| + 2 && m[|m| - |e| - 2..] == ": " + e
      case None => m[|m| - 1] == ')'
  {
    var n := IntToString(code);
    var tail := "(" + errstr + ")" + match explanation case Some(e) => ": " + e case None => "";
    var m := ExceptionMessage(code, errstr, explanation);
    assert m == "SQLite3 error " + (n + " " + tail);
    LeadingNumber(code, tail);
  }

  /** assert_sqlite_ok: throws Exception(rc) iff rc is not SQLITE_OK. */
  function AssertSqliteOk(rc: int): (r: Outcome<()>)
    ensures r.Ok? <==> rc == SQLITE_OK
    ensures r.Fail? ==> r.fault == SqliteError(rc)
  {
    if rc != SQLITE_OK then Fail(SqliteError(rc)) else Ok(())
  }

  /** A run of calls each checked by assert_sqlite_ok: the first code that is not SQLITE_OK is thrown. */
  function CheckAll(rcs: seq<int>): (r: Outcome<()>)
    ensures r.Ok? <==> AllOk(rcs)
    ensures r.Fail? ==> exists i | 0 <= i < |rcs| :: r.fault == SqliteError(rcs[i]) && rcs[i] != SQLITE_OK && AllOk(rcs[..i])
    decreases |rcs|
  {
    if rcs == [] then Ok(())
    else if rcs[0] != SQLITE_OK then (assert AllOk(rcs[..0]); Fail(SqliteError(rcs[0])))
    else
      var r := CheckAll(rcs[1..]);
      if r.Fail? then
        assert exists i | 0 <= i < |rcs[1..]| :: r.fault == SqliteError(rcs[1..][i]) && rcs[1..][i] != SQLITE_OK && AllOk(rcs[1..][..i]);
        var i :| 0 <= i < |rcs[1..]| && r.fault == SqliteError(rcs[1..][i]) && rcs[1..][i] != SQLITE_OK && AllOk(rcs[1..][..i]);
        assert rcs[..i + 1] == [rcs[0]] + rcs[1..][..i];
        r
      else r
  }

  // ---------------------------------------------------------------------------
  // Statements

  /** bind_int(i, arg): the wrapper's index i is 0-based; the engine binds at i + 1. */
  function BindInt(i: int, arg: int, rc: int): (r: Outcome<Binding>)
    ensures r.Ok? <==> rc == SQLITE_OK
    ensures r.Ok? ==> r.value.position == i + 1 && r.value.value == IntValue(arg)
    ensures r.Fail? ==> r.fault == SqliteError(rc)
  {
    var checked :- AssertSqliteOk(rc);
    Ok(Binding(i + 1, IntValue(arg)))
  }

  function BindText(i: int, arg: string, rc: int): (r: Outcome<Binding>)
    ensures r.Ok? <==> rc == SQLITE_OK
    ensures r.Ok? ==> r.value.position == i + 1 && r.value.value == TextValue(arg)
    ensures r.Fail? ==> r.fault == SqliteError(rc)
  {
    var checked :- AssertSqliteOk(rc);
    Ok(Binding(i + 1, TextValue(arg)))
  }

  /** bind_string delegates to bind_text: the same text is bound at i + 1. */
  function BindString(i: int, arg: string, rc: int): (r: Outcome<Binding>)
    ensures r.Ok? <==> rc == SQLITE_OK
    ensures r.Ok? ==> r.value == Binding(i + 1, TextValue(arg))
    ensures r.Fail? ==> r.fault == SqliteError(rc)
  {
    BindText(i, arg, rc)
  }

  /**
   * step: SQLITE_ROW means a row is ready (true), SQLITE_DONE means none is
   * left (false); every other code is thrown, SQLITE_CONSTRAINT included.
   */
  function Step(rc: int): (r: Outcome<bool>)
    ensures r == Ok(true) <==> rc == SQLITE_ROW
    ensures r == Ok(false) <==> rc == SQLITE_DONE
    ensures r.Fail? <==> rc != SQLITE_ROW && rc != SQLITE_DONE
    ensures r.Fail? ==> r.fault == SqliteError(rc)
  {
    if rc == SQLITE_ROW then Ok(true)
    else if rc == SQLITE_DONE then Ok(false)
    else Fail(SqliteError(rc))
  }

  /** reset: throws iff the answer is not SQLITE_OK. */
  function Reset(rc: int): (r: Outcome<()>)
    ensures r.Ok? <==> rc == SQLITE_OK
    ensures r.Fail? ==> r.fault == SqliteError(rc)
  {
    AssertSqliteOk(rc)
  }

  /**
   * `do { row = step(); } while (row);` from the k-th step on: it runs past
   * the remaining rows, and ends normally iff the answer after them is SQLITE_DONE.
   */
  method StepToEnd(c: Cursor, k: nat) returns (r: Outcome<()>)
    ensures r.Ok? <==> c.last == SQLITE_DONE
    ensures r.Fail? ==> r.fault == SqliteError(c.last)
  {
    var i := k;
    var row :- Step(StepCode(c, i));
    while row
      invariant i >= k
      invariant row <==> i < c.rows
      invariant !row ==> StepCode(c, i) == SQLITE_DONE
      decreases c.rows - i
    {
      i := i + 1;
      row :- Step(StepCode(c, i));
    }
    r := Ok(());
  }

  // ---------------------------------------------------------------------------
  // Connection

  /** The transaction statements the constructor prepares, in tx_stmts_ order. */
  const TxSql: seq<string> := ["BEGIN", "COMMIT", "ROLLBACK"]

  class Connection {
    /** tx_stmts_: the prepared transaction statements, each given by its SQL text. */
    const txStmts: array<string>

    ghost predicate Valid()
      reads txStmts
    {
      txStmts.Length == 3 && txStmts[..] == TxSql
    }

    constructor(stmts: array<string>)
      ensures txStmts == stmts
    {
      txStmts := stmts;
    }

    /** tx_stmt(i): the step's answer is ignored; only a failing reset throws. */
    method TxStmt(i: nat, stepRc: int, resetRc: int) returns (sql: string, r: Outcome<()>)
      requires Valid() && i < 3
      ensures sql == TxSql[i]
      ensures r.Ok? <==> resetRc == SQLITE_OK
      ensures r.Fail? ==> r.fault == SqliteError(resetRc)
    {
      assert txStmts[i] == txStmts[..][i];
      sql := txStmts[i];
      r := Reset(resetRc);
    }

    method Begin(stepRc: int, resetRc: int) returns (sql: string, r: Outcome<()>)
      requires Valid()
      ensures sql == "BEGIN" && (r.Ok? <==> resetRc == SQLITE_OK)
    {
      sql, r := TxStmt(0, stepRc, resetRc);
    }

    method Commit(stepRc: int, resetRc: int) returns (sql: string, r: Outcome<()>)
      requires Valid()
      ensures sql == "COMMIT" && (r.Ok? <==> resetRc == SQLITE_OK)
    {
      sql, r := TxStmt(1, stepRc, resetRc);
    }

    method Rollback(stepRc: int, resetRc: int) returns (sql: string, r: Outcome<()>)
      requires Valid()
      ensures sql == "ROLLBACK" && (r.Ok? <==> resetRc == SQLITE_OK)
    {
      sql, r := TxStmt(2, stepRc, resetRc);
    }
  }

  /** CheckAll throws the first code that is not SQLITE_OK. */
  lemma {:induction false} CheckAllFirst(rcs: seq<int>, i: nat)
    requires i < |rcs| && AllOk(rcs[..i]) && rcs[i] != SQLITE_OK
    ensures CheckAll(rcs) == Fail(SqliteError(rcs[i]))
    decreases i
  {
    if i > 0 {
      assert rcs[0] == rcs[..i][0];
      assert rcs[1..][..i - 1] == rcs[..i][1..];
      CheckAllFirst(rcs[1..], i - 1);
    }
  }

  /**
   * The Connection constructor: sqlite3_initialize, sqlite3_open, then a loop
   * preparing BEGIN, COMMIT and ROLLBACK into tx_stmts_ 0, 1 and 2; the first
   * answer that is not SQLITE_OK is thrown.
   */
  method Open(initRc: int, openRc: int, prepareRcs: seq<int>) returns (r: Outcome<Connection>)
    requires |prepareRcs| == 3
    ensures r.Ok? <==> initRc == SQLITE_OK && openRc == SQLITE_OK && AllOk(prepareRcs)
    ensures r.Ok? ==> fresh(r.value) && fresh(r.value.txStmts) && r.value.Valid()
    ensures initRc != SQLITE_OK ==> r == Fail(SqliteError(initRc))
    ensures initRc == SQLITE_OK && openRc != SQLITE_OK ==> r == Fail(SqliteError(openRc))
    ensures initRc == SQLITE_OK && openRc == SQLITE_OK && r.Fail? ==> CheckAll(prepareRcs) == Fail(r.fault)
  {
    var initialized :- AssertSqliteOk(initRc);
    var isOpen :- AssertSqliteOk(openRc);
    var stmts := new string[3];
    for i := 0 to 3
      invariant AllOk(prepareRcs[..i])
      invariant stmts[..i] == TxSql[..i]
    {
      if prepareRcs[i] != SQLITE_OK {
        CheckAllFirst(prepareRcs, i);
        return Fail(SqliteError(prepareRcs[i]));
      }
      stmts[i] := TxSql[i];
      assert prepareRcs[..i + 1] == prepareRcs[..i] + [prepareRcs[i]];
    }
    assert prepareRcs[..3] == prepareRcs;
    var c := new Connection(stmts);
    r := Ok(c);
  }
}
