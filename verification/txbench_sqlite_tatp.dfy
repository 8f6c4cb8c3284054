/**
 * The txbench SQLite TATP adapter (src/tatp/tatp_sqlite3.cpp), written against
 * the src/sqlite3.hpp wrapper: failing engine calls throw a sqlite::Exception
 * (SqliteError), failing C asserts abort (AssertFailed).
 */
module TxbenchSqliteTatp {
  import opened Text
  import opened Tatp
  import opened BulkLoad
  import opened TxbenchSqlite

  /**
   * What the engine answers to one use of a prepared statement: each bind in
   * order, the successive steps, and the final reset.
   */
  datatype StatementAnswers = StatementAnswers(binds: seq<int>, steps: Cursor, reset: int)

  /** A lookup that yields no row: binding succeeds and the first step is SQLITE_DONE. */
  predicate NoRow(a: StatementAnswers)
  {
    AllOk(a.binds) && a.steps.rows == 0 && a.steps.last == SQLITE_DONE
  }

  /** A lookup that yields exactly one row and is reset cleanly. */
  predicate OneRow(a: StatementAnswers)
  {
    AllOk(a.binds) && a.steps.rows == 1 && a.steps.last == SQLITE_DONE && a.reset == SQLITE_OK
  }

  /** An update or delete whose single step is not thrown (its answer is otherwise ignored) and which resets cleanly. */
  predicate Completes(a: StatementAnswers)
  {
    AllOk(a.binds) && (StepCode(a.steps, 0) == SQLITE_ROW || StepCode(a.steps, 0) == SQLITE_DONE) && a.reset == SQLITE_OK
  }

  // ---------------------------------------------------------------------------
  // Loader

  /** load_batch: as the root adapter's, except that the execution throws through the wrapper. */
  method LoadBatch<R>(table: string, batch: seq<R>, render: R -> string, execRc: int)
    returns (executed: Option<string>, r: Outcome<()>)
    ensures batch == [] ==> executed == None && r.Ok?
    ensures batch != [] ==> executed == Some(InsertSql(table, Rendered(batch, render)))
    ensures batch != [] ==> (r.Ok? <==> execRc == SQLITE_OK)
    ensures r.Fail? ==> r.fault == SqliteError(execRc)
  {
    executed := None;
    r := Ok(());
    if batch != [] {
      var sql := WriteInsert(table, batch, render);
      executed := Some(sql);
      r := AssertSqliteOk(execRc);
    }
  }

  // ---------------------------------------------------------------------------
  // Client transactions

  /**
   * get_subscriber_data: FAILURE when the lookup yields no row; otherwise the
   * fields are copied from their columns, a second row is an assertion failure,
   * and the result is SUCCESS.
   */
  method GetSubscriberData(lookup: StatementAnswers) returns (r: Outcome<ReturnCode>, data: Option<SubscriberData>)
    ensures r == Ok(Failure) <==> NoRow(lookup)
    ensures r == Ok(Success) <==> OneRow(lookup)
    ensures r.Ok? ==> r.value == Success || r.value == Failure
    ensures r == Ok(Success) ==> data.Some? && ReadsSubscriberRow(data.value, 0)
    ensures r.Fail? && r.fault == AssertFailed <==> AllOk(lookup.binds) && lookup.steps.rows >= 2
  {
    data := None;
    var bound :- CheckAll(lookup.binds);
    var row :- Step(StepCode(lookup.steps, 0));
    if !row {
      return Ok(Failure), data;
    }
    var d := ReadSubscriber(0);
    data := Some(d);
    var more :- Step(StepCode(lookup.steps, 1));
    var single :- Assert(!more);
    var reset :- Reset(lookup.reset);
    r := Ok(Success);
  }

  /**
   * get_new_destination: SUCCESS with numberx set to column 0 of every row when
   * the first step yields a row; MISSING, numberx untouched (None), otherwise.
   */
  method GetNewDestination(lookup: StatementAnswers) returns (r: Outcome<ReturnCode>, numberx: Option<seq<Cell>>)
    ensures r.Ok? <==> AllOk(lookup.binds) && lookup.steps.last == SQLITE_DONE && lookup.reset == SQLITE_OK
    ensures r.Fail? ==> r.fault.SqliteError?
    ensures r.Ok? ==> (r.value == Success <==> lookup.steps.rows > 0) && (r.value == Missing <==> lookup.steps.rows == 0)
    ensures r.Ok? ==> numberx == if lookup.steps.rows > 0 then Some(ColumnCells(lookup.steps.rows, 0)) else None
  {
    numberx := None;
    var rc := Success;
    var bound :- CheckAll(lookup.binds);
    var k := 0;
    var row :- Step(StepCode(lookup.steps, k));
    if row {
      var result := [];
      // do { ... } while (step())
      result := result + [Cell(k, 0)];
      k := k + 1;
      row :- Step(StepCode(lookup.steps, k));
      while row
        invariant 1 <= k <= lookup.steps.rows && (row <==> k < lookup.steps.rows)
        invariant !row ==> lookup.steps.last == SQLITE_DONE
        invariant result == ColumnCells(k, 0)
        decreases lookup.steps.rows - k
      {
        result := result + [Cell(k, 0)];
        k := k + 1;
        row :- Step(StepCode(lookup.steps, k));
      }
      numberx := Some(result);
    } else {
      rc := Missing;
    }
    var reset :- Reset(lookup.reset);
    r := Ok(rc);
  }

  /**
   * get_access_data: SUCCESS with data1 .. data4 copied from columns 0 .. 3
   * when the first step yields a row (a second row is an assertion failure);
   * MISSING, out-parameters untouched, otherwise.
   */
  method GetAccessData(lookup: StatementAnswers) returns (r: Outcome<ReturnCode>, data: Option<AccessData>)
    ensures r.Ok? <==> AllOk(lookup.binds) && lookup.steps.rows <= 1 && lookup.steps.last == SQLITE_DONE && lookup.reset == SQLITE_OK
    ensures r.Fail? && r.fault == AssertFailed <==> AllOk(lookup.binds) && lookup.steps.rows >= 2
    ensures r.Ok? ==> (r.value == Success <==> lookup.steps.rows == 1) && (r.value == Missing <==> lookup.steps.rows == 0)
    ensures r.Ok? ==> (data.Some? <==> lookup.steps.rows == 1) && (data.Some? ==> ReadsAccessRow(data.value, 0))
  {
    data := None;
    var rc := Success;
    var bound :- CheckAll(lookup.binds);
    var row :- Step(StepCode(lookup.steps, 0));
    if row {
      var d := ReadAccessRow(0);
      data := Some(d);
      var more :- Step(StepCode(lookup.steps, 1));
      var single :- Assert(!more);
    } else {
      rc := Missing;
    }
    var reset :- Reset(lookup.reset);
    r := Ok(rc);
  }

  /**
   * update_subscriber_data: begin, the subscriber update (one change), the
   * special_facility update (zero or one change), commit. MISSING iff the
   * special_facility update changed no row. begin and commit ignore their
   * step's answer, so only their resets are inputs.
   */
  method UpdateSubscriberData(
    beginReset: int, subscriber: StatementAnswers, subscriberChanges: int,
    facility: StatementAnswers, facilityChanges: int, commitReset: int)
    returns (r: Outcome<ReturnCode>)
    ensures r.Ok? <==>
      beginReset == SQLITE_OK && Completes(subscriber) && subscriberChanges == 1
      && Completes(facility) && (facilityChanges == 0 || facilityChanges == 1) && commitReset == SQLITE_OK
    ensures r.Ok? ==> (r.value == Missing <==> facilityChanges == 0) && (r.value == Success <==> facilityChanges == 1)
  {
    var rc := Success;
    var begun :- Reset(beginReset);
    var bound :- CheckAll(subscriber.binds);
    var ignored :- Step(StepCode(subscriber.steps, 0));
    var reset :- Reset(subscriber.reset);
    var one :- Assert(subscriberChanges == 1);
    bound :- CheckAll(facility.binds);
    ignored :- Step(StepCode(facility.steps, 0));
    reset :- Reset(facility.reset);
    var atMostOne :- Assert(facilityChanges == 0 || facilityChanges == 1);
    if facilityChanges == 0 {
      rc := Missing;
    }
    var committed :- Reset(commitReset);
    r := Ok(rc);
  }

  /** update_location: one step, no second row, a clean reset and exactly one change; always SUCCESS. */
  method UpdateLocation(update: StatementAnswers, changes: int) returns (r: Outcome<ReturnCode>)
    ensures r.Ok? <==>
      AllOk(update.binds) && update.steps.rows <= 1 && update.steps.last == SQLITE_DONE
      && update.reset == SQLITE_OK && changes == 1
    ensures r.Ok? ==> r.value == Success
  {
    var bound :- CheckAll(update.binds);
    var ignored :- Step(StepCode(update.steps, 0));
    var more :- Step(StepCode(update.steps, 1));
    var single :- Assert(!more);
    var reset :- Reset(update.reset);
    var one :- Assert(changes == 1);
    r := Ok(Success);
  }

  /** insert_call_forwarding gets as far as the insert: both lookups found their rows. */
  predicate InsertReached(beginReset: int, subscriber: StatementAnswers, facility: StatementAnswers, insert: StatementAnswers)
  {
    beginReset == SQLITE_OK && OneRow(subscriber)
    && AllOk(facility.binds) && facility.steps.rows >= 1 && facility.steps.last == SQLITE_DONE && facility.reset == SQLITE_OK
    && AllOk(insert.binds)
  }

  /**
   * insert_call_forwarding: FAILURE, before commit, when the subscriber or the
   * special_facility lookup yields no row. Otherwise the insert runs; a thrown
   * SQLITE_CONSTRAINT makes the result CONSTRAINT and any other thrown code is
   * rethrown; a CONSTRAINT from the insert's reset is swallowed.
   */
  method InsertCallForwarding(
    beginReset: int, subscriber: StatementAnswers, facility: StatementAnswers,
    insert: StatementAnswers, insertChanges: int, commitReset: int)
    returns (r: Outcome<ReturnCode>, committed: bool)
    ensures r == Ok(Failure) <==>
      beginReset == SQLITE_OK && (NoRow(subscriber) || (OneRow(subscriber) && NoRow(facility)))
    ensures r == Ok(Failure) ==> !committed
    ensures r.Ok? && r.value != Failure ==> committed
    ensures r == Ok(Constraint) <==>
      InsertReached(beginReset, subscriber, facility, insert)
      && StepCode(insert.steps, 0) == SQLITE_CONSTRAINT && insertChanges == 0
      && (insert.reset == SQLITE_OK || insert.reset == SQLITE_CONSTRAINT) && commitReset == SQLITE_OK
    ensures r == Ok(Success) <==>
      InsertReached(beginReset, subscriber, facility, insert)
      && (StepCode(insert.steps, 0) == SQLITE_ROW || StepCode(insert.steps, 0) == SQLITE_DONE) && insertChanges == 1
      && (insert.reset == SQLITE_OK || insert.reset == SQLITE_CONSTRAINT) && commitReset == SQLITE_OK
    ensures r.Ok? ==> r.value != Missing
  {
    committed := false;
    var rc := Success;
    var begun :- Reset(beginReset);

    var bound :- CheckAll(subscriber.binds);
    var row :- Step(StepCode(subscriber.steps, 0));
    if !row {
      return Ok(Failure), committed;
    }
    var more :- Step(StepCode(subscriber.steps, 1));
    var single :- Assert(!more);
    var reset :- Reset(subscriber.reset);

    bound :- CheckAll(facility.binds);
    row :- Step(StepCode(facility.steps, 0));
    if !row {
      return Ok(Failure), committed;
    }
    var drained :- StepToEnd(facility.steps, 1);
    reset :- Reset(facility.reset);

    bound :- CheckAll(insert.binds);
    var stepped := Step(StepCode(insert.steps, 0));
    if stepped.Fail? {
      if stepped.fault.code != SQLITE_CONSTRAINT {
        return Fail(stepped.fault), committed;
      }
      var none :- Assert(insertChanges == 0);
      rc := Constraint;
    } else {
      var one :- Assert(insertChanges == 1);
    }
    var resetResult := Reset(insert.reset);
    if resetResult.Fail? && resetResult.fault.code != SQLITE_CONSTRAINT {
      return Fail(resetResult.fault), committed;
    }

    committed := true;
    var done :- Reset(commitReset);
    r := Ok(rc);
  }

  /** delete_call_forwarding gets as far as the delete: the subscriber lookup found its row. */
  predicate DeleteReached(beginReset: int, subscriber: StatementAnswers, delete: StatementAnswers)
  {
    beginReset == SQLITE_OK && OneRow(subscriber) && AllOk(delete.binds)
  }

  /**
   * delete_call_forwarding as written: FAILURE, before commit, when the
   * subscriber lookup yields no row; otherwise SUCCESS whether or not the
   * delete changed a row, since rc starts as SUCCESS and is only ever set to
   * SUCCESS again.
   */
  method DeleteCallForwarding(
    beginReset: int, subscriber: StatementAnswers, delete: StatementAnswers, deleteChanges: int, commitReset: int)
    returns (r: Outcome<ReturnCode>, committed: bool)
    ensures r == Ok(Failure) <==> beginReset == SQLITE_OK && NoRow(subscriber)
    ensures r == Ok(Failure) ==> !committed
    ensures r == Ok(Success) <==>
      DeleteReached(beginReset, subscriber, delete) && Completes(delete)
      && (deleteChanges == 0 || deleteChanges == 1) && commitReset == SQLITE_OK
    ensures r == Ok(Success) ==> committed
    ensures r.Ok? ==> r.value != Missing
  {
    committed := false;
    var rc := Success;
    var begun :- Reset(beginReset);

    var bound :- CheckAll(subscriber.binds);
    var row :- Step(StepCode(subscriber.steps, 0));
    if !row {
      return Ok(Failure), committed;
    }
    var more :- Step(StepCode(subscriber.steps, 1));
    var single :- Assert(!more);
    var reset :- Reset(subscriber.reset);

    bound :- CheckAll(delete.binds);
    var ignored :- Step(StepCode(delete.steps, 0));
    var atMostOne :- Assert(deleteChanges == 0 || deleteChanges == 1);
    if deleteChanges == 1 {
      rc := Success;
    }
    reset :- Reset(delete.reset);

    committed := true;
    var done :- Reset(commitReset);
    r := Ok(rc);
  }

  /**
   * delete_call_forwarding as the other adapters decide it: rc starts as
   * MISSING, so a delete that changed no row reports MISSING.
   */
  method DeleteCallForwardingIntended(
    beginReset: int, subscriber: StatementAnswers, delete: StatementAnswers, deleteChanges: int, commitReset: int)
    returns (r: Outcome<ReturnCode>, committed: bool)
    ensures r == Ok(Failure) <==> beginReset == SQLITE_OK && NoRow(subscriber)
    ensures r == Ok(Failure) ==> !committed
    ensures r == Ok(Success) <==>
      DeleteReached(beginReset, subscriber, delete) && Completes(delete) && deleteChanges == 1 && commitReset == SQLITE_OK
    ensures r == Ok(Missing) <==>
      DeleteReached(beginReset, subscriber, delete) && Completes(delete) && deleteChanges == 0 && commitReset == SQLITE_OK
  {
    committed := false;
    var rc := Missing;
    var begun :- Reset(beginReset);

    var bound :- CheckAll(subscriber.binds);
    var row :- Step(StepCode(subscriber.steps, 0));
    if !row {
      return Ok(Failure), committed;
    }
    var more :- Step(StepCode(subscriber.steps, 1));
    var single :- Assert(!more);
    var reset :- Reset(subscriber.reset);

    bound :- CheckAll(delete.binds);
    var ignored :- Step(StepCode(delete.steps, 0));
    var atMostOne :- Assert(deleteChanges == 0 || deleteChanges == 1);
    if deleteChanges == 1 {
      rc := Success;
    }
    reset :- Reset(delete.reset);

    committed := true;
    var done :- Reset(commitReset);
    r := Ok(rc);
  }
}
