/**
 * The TATP adapter at the repository root (tatp_sqlite3.cpp), written against
 * the raw SQLite C API. Every engine call is checked with a C assert; the
 * answers of the calls are the inputs of each operation, and a failed assert
 * ends the operation with AssertFailed.
 *
 * Binds are checked by assert the moment they are made and change nothing
 * else, so each operation takes the answers of all of its bind calls as one
 * sequence: which of them fails first does not change the outcome.
 */
module LegacySqliteTatp {
  import opened Text
  import opened Tatp
  import opened BulkLoad

  // ---------------------------------------------------------------------------
  // Loader

  /**
   * load_batch: nothing is executed for an empty batch; otherwise the batch
   * statement is executed once and its answer must be SQLITE_OK.
   */
  method LoadBatch<R>(table: string, batch: seq<R>, render: R -> string, execRc: int)
    returns (executed: Option<string>, r: Outcome<()>)
    ensures batch == [] ==> executed == None && r.Ok?
    ensures batch != [] ==> executed == Some(InsertSql(table, Rendered(batch, render)))
    ensures batch != [] ==> (r.Ok? <==> execRc == SQLITE_OK)
    ensures r.Fail? ==> r.fault == AssertFailed
  {
    executed := None;
    r := Ok(());
    if batch != [] {
      var sql := WriteInsert(table, batch, render);
      executed := Some(sql);
      r := Assert(execRc == SQLITE_OK);
    }
  }

  method LoadSubscriberBatch(batch: seq<SubscriberRecord>, execRc: int) returns (executed: Option<string>, r: Outcome<()>)
    ensures executed == if batch == [] then None else Some(InsertSql("subscriber", Rendered(batch, RenderSubscriber)))
    ensures r.Ok? <==> batch == [] || execRc == SQLITE_OK
  {
    executed, r := LoadBatch("subscriber", batch, RenderSubscriber, execRc);
  }

  method LoadAccessInfoBatch(batch: seq<AccessInfoRecord>, execRc: int) returns (executed: Option<string>, r: Outcome<()>)
    ensures executed == if batch == [] then None else Some(InsertSql("access_info", Rendered(batch, RenderAccessInfo)))
    ensures r.Ok? <==> batch == [] || execRc == SQLITE_OK
  {
    executed, r := LoadBatch("access_info", batch, RenderAccessInfo, execRc);
  }

  method LoadSpecialFacilityBatch(batch: seq<SpecialFacilityRecord>, execRc: int) returns (executed: Option<string>, r: Outcome<()>)
    ensures executed == if batch == [] then None else Some(InsertSql("special_facility", Rendered(batch, RenderSpecialFacility)))
    ensures r.Ok? <==> batch == [] || execRc == SQLITE_OK
  {
    executed, r := LoadBatch("special_facility", batch, RenderSpecialFacility, execRc);
  }

  method LoadCallForwardingBatch(batch: seq<CallForwardingRecord>, execRc: int) returns (executed: Option<string>, r: Outcome<()>)
    ensures executed == if batch == [] then None else Some(InsertSql("call_forwarding", Rendered(batch, RenderCallForwarding)))
    ensures r.Ok? <==> batch == [] || execRc == SQLITE_OK
  {
    executed, r := LoadBatch("call_forwarding", batch, RenderCallForwarding, execRc);
  }

  // ---------------------------------------------------------------------------
  // Client transactions

  /**
   * get_subscriber_data: the lookup must yield exactly one row and then
   * SQLITE_DONE; every field is copied from its own column of that row.
   */
  method GetSubscriberData(binds: seq<int>, lookup: Cursor, resetRc: int)
    returns (r: Outcome<ReturnCode>, data: Option<SubscriberData>)
    ensures r.Ok? <==> AllOk(binds) && lookup.rows == 1 && lookup.last == SQLITE_DONE && resetRc == SQLITE_OK
    ensures r.Fail? ==> r.fault == AssertFailed
    ensures r.Ok? ==> r.value == Success && data.Some? && ReadsSubscriberRow(data.value, 0)
  {
    data := None;
    var bound :- Assert(AllOk(binds));
    var rc := StepCode(lookup, 0);
    var found :- Assert(rc == SQLITE_ROW);
    var row := ReadSubscriber(0);
    data := Some(row);
    rc := StepCode(lookup, 1);
    var done :- Assert(rc == SQLITE_DONE);
    var reset :- Assert(resetRc == SQLITE_OK);
    r := Ok(Success);
  }

  /**
   * get_new_destination: MISSING unless the first step yields a row; then
   * SUCCESS, with numberx set to column 0 of every row in row order. numberx is
   * left untouched (None) otherwise. The steps must end with SQLITE_DONE.
   */
  method GetNewDestination(binds: seq<int>, lookup: Cursor, resetRc: int)
    returns (r: Outcome<ReturnCode>, numberx: Option<seq<Cell>>)
    ensures r.Ok? <==> AllOk(binds) && lookup.last == SQLITE_DONE && resetRc == SQLITE_OK
    ensures r.Fail? ==> r.fault == AssertFailed
    ensures r.Ok? ==> (r.value == Success <==> lookup.rows > 0) && (r.value == Missing <==> lookup.rows == 0)
    ensures r.Ok? ==> numberx == if lookup.rows > 0 then Some(ColumnCells(lookup.rows, 0)) else None
  {
    numberx := None;
    var bound :- Assert(AllOk(binds));
    var txRc := Missing;
    var k := 0;
    var rc := StepCode(lookup, k);
    if rc == SQLITE_ROW {
      txRc := Success;
      var result := [];
      // do { ... } while (step() == SQLITE_ROW)
      result := result + [Cell(k, 0)];
      k := k + 1;
      rc := StepCode(lookup, k);
      while rc == SQLITE_ROW
        invariant 1 <= k <= lookup.rows && rc == StepCode(lookup, k)
        invariant result == ColumnCells(k, 0)
        decreases lookup.rows - k
      {
        result := result + [Cell(k, 0)];
        k := k + 1;
        rc := StepCode(lookup, k);
      }
      numberx := Some(result);
    }
    var done :- Assert(rc == SQLITE_DONE);
    var reset :- Assert(resetRc == SQLITE_OK);
    r := Ok(txRc);
  }

  /** The cells get_access_data copies: data3 and data4 both from column 3. */
  function AccessRowAsWritten(row: nat): AccessData
  {
    AccessData(Cell(row, 0), Cell(row, 1), Cell(row, 3), Cell(row, 3))
  }

  /**
   * The copy does not follow the statement's column order: data3 holds column
   * 3's value instead of column 2's, so data3 and data4 are always the same.
   */
  lemma AccessDataMisread(row: nat)
    ensures !ReadsAccessRow(AccessRowAsWritten(row), row)
    ensures AccessRowAsWritten(row).data3 == AccessRowAsWritten(row).data4 != Cell(row, 2)
  {
    assert AccessCell(AccessRowAsWritten(row), Data3) != Cell(row, AccessColumn(Data3));
  }

  /**
   * get_access_data: MISSING unless the first step yields a row; then SUCCESS
   * with the out-parameters copied from that row. At most one row may come back.
   */
  method GetAccessData(binds: seq<int>, lookup: Cursor, resetRc: int)
    returns (r: Outcome<ReturnCode>, data: Option<AccessData>)
    ensures r.Ok? <==> AllOk(binds) && lookup.rows <= 1 && lookup.last == SQLITE_DONE && resetRc == SQLITE_OK
    ensures r.Fail? ==> r.fault == AssertFailed
    ensures r.Ok? ==> (r.value == Success <==> lookup.rows == 1) && (r.value == Missing <==> lookup.rows == 0)
    ensures r.Ok? ==> data == if lookup.rows == 1 then Some(AccessRowAsWritten(0)) else None
  {
    data := None;
    var bound :- Assert(AllOk(binds));
    var txRc := Missing;
    var rc := StepCode(lookup, 0);
    if rc == SQLITE_ROW {
      txRc := Success;
      data := Some(AccessRowAsWritten(0));
      rc := StepCode(lookup, 1);
    }
    var done :- Assert(rc == SQLITE_DONE);
    var reset :- Assert(resetRc == SQLITE_OK);
    r := Ok(txRc);
  }

  /** get_access_data with data3 read from column 2, the column the statement selects data3 into. */
  method GetAccessDataCorrected(binds: seq<int>, lookup: Cursor, resetRc: int)
    returns (r: Outcome<ReturnCode>, data: Option<AccessData>)
    ensures r.Ok? <==> AllOk(binds) && lookup.rows <= 1 && lookup.last == SQLITE_DONE && resetRc == SQLITE_OK
    ensures r.Fail? ==> r.fault == AssertFailed
    ensures r.Ok? ==> (r.value == Success <==> lookup.rows == 1) && (r.value == Missing <==> lookup.rows == 0)
    ensures r.Ok? ==> (data.Some? <==> lookup.rows == 1) && (data.Some? ==> ReadsAccessRow(data.value, 0))
  {
    data := None;
    var bound :- Assert(AllOk(binds));
    var txRc := Missing;
    var rc := StepCode(lookup, 0);
    if rc == SQLITE_ROW {
      txRc := Success;
      var d := ReadAccessRow(0);
      data := Some(d);
      rc := StepCode(lookup, 1);
    }
    var done :- Assert(rc == SQLITE_DONE);
    var reset :- Assert(resetRc == SQLITE_OK);
    r := Ok(txRc);
  }

  /**
   * update_subscriber_data: BEGIN, the subscriber update (exactly one change),
   * the special_facility update (zero or one change), COMMIT, four resets; the
   * result is MISSING iff sqlite3_changes reports 0 when the function returns.
   */
  method UpdateSubscriberData(
    binds: seq<int>, beginRc: int, subscriberRc: int, subscriberChanges: int,
    facilityRc: int, facilityChanges: int, commitRc: int, resets: seq<int>, finalChanges: int)
    returns (r: Outcome<ReturnCode>)
    ensures r.Ok? <==>
      AllOk(binds) && beginRc == SQLITE_DONE && subscriberRc == SQLITE_DONE && subscriberChanges == 1
      && facilityRc == SQLITE_DONE && (facilityChanges == 0 || facilityChanges == 1)
      && commitRc == SQLITE_DONE && AllOk(resets)
    ensures r.Fail? ==> r.fault == AssertFailed
    ensures r.Ok? ==> (r.value == Missing <==> finalChanges == 0) && (r.value == Success <==> finalChanges != 0)
  {
    var bound :- Assert(AllOk(binds));
    var begun :- Assert(beginRc == SQLITE_DONE);
    var s1 :- Assert(subscriberRc == SQLITE_DONE);
    var c1 :- Assert(subscriberChanges == 1);
    var s2 :- Assert(facilityRc == SQLITE_DONE);
    var c2 :- Assert(facilityChanges == 0 || facilityChanges == 1);
    var committed :- Assert(commitRc == SQLITE_DONE);
    var reset :- Assert(AllOk(resets));
    r := Ok(if finalChanges == 0 then Missing else Success);
  }

  /** update_location: one DONE step changing exactly one row; always SUCCESS when it returns. */
  method UpdateLocation(binds: seq<int>, stepRc: int, changes: int, resetRc: int) returns (r: Outcome<ReturnCode>)
    ensures r.Ok? <==> AllOk(binds) && stepRc == SQLITE_DONE && changes == 1 && resetRc == SQLITE_OK
    ensures r.Fail? ==> r.fault == AssertFailed
    ensures r.Ok? ==> r.value == Success
  {
    var bound :- Assert(AllOk(binds));
    var stepped :- Assert(stepRc == SQLITE_DONE);
    var changed :- Assert(changes == 1);
    var reset :- Assert(resetRc == SQLITE_OK);
    r := Ok(Success);
  }

  /**
   * insert_call_forwarding: BEGIN, a subscriber lookup yielding exactly one
   * row, a special_facility lookup yielding at least one, the insert (DONE with
   * one change, or CONSTRAINT with none), COMMIT and the resets. The result
   * does not follow the insert's step: it is CONSTRAINT iff resetting the
   * insert statement reports SQLITE_CONSTRAINT, and SUCCESS iff it reports
   * SQLITE_OK.
   */
  method InsertCallForwarding(
    binds: seq<int>, beginRc: int, subscriber: Cursor, facility: Cursor,
    insertRc: int, insertChanges: int, commitRc: int, resets: seq<int>, insertResetRc: int, commitResetRc: int)
    returns (r: Outcome<ReturnCode>)
    ensures r.Ok? <==>
      AllOk(binds) && beginRc == SQLITE_DONE
      && subscriber.rows == 1 && subscriber.last == SQLITE_DONE
      && facility.rows >= 1 && facility.last == SQLITE_DONE
      && ((insertRc == SQLITE_DONE && insertChanges == 1) || (insertRc == SQLITE_CONSTRAINT && insertChanges == 0))
      && commitRc == SQLITE_DONE && AllOk(resets)
      && (insertResetRc == SQLITE_OK || insertResetRc == SQLITE_CONSTRAINT) && commitResetRc == SQLITE_OK
    ensures r.Fail? ==> r.fault == AssertFailed
    ensures r.Ok? ==> (r.value == Constraint <==> insertResetRc == SQLITE_CONSTRAINT)
    ensures r.Ok? ==> (r.value == Success <==> insertResetRc == SQLITE_OK)
  {
    var txRc := Success;
    var bound :- Assert(AllOk(binds));
    var begun :- Assert(beginRc == SQLITE_DONE);
    var rc := StepCode(subscriber, 0);
    var found :- Assert(rc == SQLITE_ROW);
    rc := StepCode(subscriber, 1);
    var single :- Assert(rc == SQLITE_DONE);
    rc := StepCode(facility, 0);
    var facilityFound :- Assert(rc == SQLITE_ROW);
    rc := StepPastRows(facility, 1);
    var drained :- Assert(rc == SQLITE_DONE);
    var inserted :- Assert((insertRc == SQLITE_DONE && insertChanges == 1) || (insertRc == SQLITE_CONSTRAINT && insertChanges == 0));
    var committed :- Assert(commitRc == SQLITE_DONE);
    var reset :- Assert(AllOk(resets));
    var insertReset :- Assert(insertResetRc == SQLITE_OK || insertResetRc == SQLITE_CONSTRAINT);
    if insertResetRc == SQLITE_CONSTRAINT {
      txRc := Constraint;
    }
    var commitReset :- Assert(commitResetRc == SQLITE_OK);
    r := Ok(txRc);
  }

  // ---------------------------------------------------------------------------
  // The insert under the two prepare interfaces

  /**
   * What sqlite3_step answers for the call_forwarding insert. A statement made
   * by the legacy sqlite3_prepare reports a failed step as the generic
   * SQLITE_ERROR and leaves the specific code to sqlite3_reset; one made by
   * sqlite3_prepare_v2 reports the specific code at once. A duplicate key is a
   * constraint failure.
   */
  function InsertStepRc(preparedV2: bool, duplicate: bool): int
  {
    if !duplicate then SQLITE_DONE else if preparedV2 then SQLITE_CONSTRAINT else SQLITE_ERROR
  }

  /** Rows the insert changes: none when its key is already present. */
  function InsertChanges(duplicate: bool): int
  {
    if duplicate then 0 else 1
  }

  /** What sqlite3_reset answers after the insert: the specific code of a failed step. */
  function InsertResetRc(duplicate: bool): int
  {
    if duplicate then SQLITE_CONSTRAINT else SQLITE_OK
  }

  /** Every call of insert_call_forwarding other than the insert and its reset answers as the asserts demand. */
  predicate InsertSurroundingsOk(
    binds: seq<int>, beginRc: int, subscriber: Cursor, facility: Cursor, commitRc: int, resets: seq<int>, commitResetRc: int)
  {
    AllOk(binds) && beginRc == SQLITE_DONE
    && subscriber.rows == 1 && subscriber.last == SQLITE_DONE
    && facility.rows >= 1 && facility.last == SQLITE_DONE
    && commitRc == SQLITE_DONE && AllOk(resets) && commitResetRc == SQLITE_OK
  }

  /**
   * insert_call_forwarding with the insert prepared as the code prepares it,
   * by the legacy sqlite3_prepare: a duplicate key makes the step answer
   * SQLITE_ERROR, which the assert on the step rejects, so the CONSTRAINT
   * result is never reached.
   */
  method InsertCallForwardingLegacyPrepare(
    duplicate: bool, binds: seq<int>, beginRc: int, subscriber: Cursor, facility: Cursor,
    commitRc: int, resets: seq<int>, commitResetRc: int)
    returns (r: Outcome<ReturnCode>)
    ensures duplicate ==> r == Fail(AssertFailed)
    ensures !duplicate ==> (r.Ok? <==> InsertSurroundingsOk(binds, beginRc, subscriber, facility, commitRc, resets, commitResetRc))
    ensures r.Ok? ==> r.value == Success
  {
    r := InsertCallForwarding(
      binds, beginRc, subscriber, facility, InsertStepRc(false, duplicate), InsertChanges(duplicate),
      commitRc, resets, InsertResetRc(duplicate), commitResetRc);
  }

  /**
   * insert_call_forwarding with the insert prepared by sqlite3_prepare_v2: a
   * duplicate key is reported as CONSTRAINT and a new key as SUCCESS, as the
   * code's comment on the primary-key conflict intends.
   */
  method InsertCallForwardingPreparedV2(
    duplicate: bool, binds: seq<int>, beginRc: int, subscriber: Cursor, facility: Cursor,
    commitRc: int, resets: seq<int>, commitResetRc: int)
    returns (r: Outcome<ReturnCode>)
    ensures r.Ok? <==> InsertSurroundingsOk(binds, beginRc, subscriber, facility, commitRc, resets, commitResetRc)
    ensures r.Ok? ==> (r.value == Constraint <==> duplicate) && (r.value == Success <==> !duplicate)
    ensures r.Fail? ==> r.fault == AssertFailed
  {
    r := InsertCallForwarding(
      binds, beginRc, subscriber, facility, InsertStepRc(true, duplicate), InsertChanges(duplicate),
      commitRc, resets, InsertResetRc(duplicate), commitResetRc);
  }

  /**
   * delete_call_forwarding: BEGIN, a subscriber lookup yielding exactly one
   * row, the delete (zero or one change), COMMIT and the resets. SUCCESS iff the
   * delete changed one row, MISSING otherwise.
   */
  method DeleteCallForwarding(
    binds: seq<int>, beginRc: int, subscriber: Cursor, deleteRc: int, deleteChanges: int,
    commitRc: int, resets: seq<int>)
    returns (r: Outcome<ReturnCode>)
    ensures r.Ok? <==>
      AllOk(binds) && beginRc == SQLITE_DONE
      && subscriber.rows == 1 && subscriber.last == SQLITE_DONE
      && deleteRc == SQLITE_DONE && (deleteChanges == 0 || deleteChanges == 1)
      && commitRc == SQLITE_DONE && AllOk(resets)
    ensures r.Fail? ==> r.fault == AssertFailed
    ensures r.Ok? ==> (r.value == Success <==> deleteChanges == 1) && (r.value == Missing <==> deleteChanges == 0)
  {
    var txRc := Missing;
    var bound :- Assert(AllOk(binds));
    var begun :- Assert(beginRc == SQLITE_DONE);
    var rc := StepCode(subscriber, 0);
    var found :- Assert(rc == SQLITE_ROW);
    rc := StepCode(subscriber, 1);
    var single :- Assert(rc == SQLITE_DONE);
    var deleted :- Assert(deleteRc == SQLITE_DONE);
    var changed :- Assert(deleteChanges == 0 || deleteChanges == 1);
    if deleteChanges == 1 {
      txRc := Success;
    }
    var committed :- Assert(commitRc == SQLITE_DONE);
    var reset :- Assert(AllOk(resets));
    r := Ok(txRc);
  }
}
