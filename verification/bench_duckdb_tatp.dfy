/**
 * The dbbench DuckDB TATP program (src/benchmarks/tatp/tatp_duckdb.cpp): the
 * loader's table creation and the worker, which runs one procedure and
 * reports whether it succeeded. Every QueryResult is an input; a thrown
 * std::runtime_error is the fault RuntimeError(message).
 */
module BenchDuckdbTatp {
  import opened Text
  import opened Tatp
  import opened TatpSchema
  import opened TatpStatements
  import opened Duckdb

  /** A result assert_success lets through: successful and carrying no error. */
  predicate Succeeded(q: QueryResult)
  {
    q.success && !q.hasError
  }

  /** assert_success: a failed result, or one that has an error, becomes a runtime_error carrying its error text. */
  function AssertSuccess(q: QueryResult): (r: Outcome<()>)
    ensures r.Ok? <==> q.success && !q.hasError
    ensures r.Fail? ==> r.fault == RuntimeError(q.error)
  {
    if !q.success || q.hasError then Fail(RuntimeError(q.error)) else Ok(())
  }

  // ---------------------------------------------------------------------------
  // The loader's DDL

  /** The type names the DuckDB loader builds its tables with. */
  const DuckdbTypes := TypeNames("BOOLEAN", "UTINYINT", "UINTEGER", "UBIGINT", "VARCHAR")

  /** The first statement whose result assert_success rejects is statement k. */
  ghost predicate FirstFailure(results: nat -> QueryResult, n: nat, k: nat)
  {
    k < n && !Succeeded(results(k)) && forall j | 0 <= j < k :: Succeeded(results(j))
  }

  /**
   * Run each statement in order and assert_success on its result (the k-th
   * query answers results(k)); stop at the first rejected one. `issued` is the
   * statements sent so far.
   */
  method QueryAll(sql: seq<string>, results: nat -> QueryResult) returns (r: Outcome<()>, issued: seq<string>)
    ensures r.Ok? <==> forall k | 0 <= k < |sql| :: Succeeded(results(k))
    ensures r.Ok? ==> issued == sql
    ensures r.Fail? ==> 0 < |issued| <= |sql| && issued == sql[..|issued|]
    ensures r.Fail? ==> FirstFailure(results, |sql|, |issued| - 1) && r.fault == RuntimeError(results(|issued| - 1).error)
  {
    issued := [];
    for i := 0 to |sql|
      invariant issued == sql[..i]
      invariant forall j | 0 <= j < i :: Succeeded(results(j))
    {
      issued := issued + [sql[i]];
      var ok := AssertSuccess(results(i));
      if ok.Fail? {
        assert FirstFailure(results, |sql|, i);
        return Fail(ok.fault), issued;
      }
    }
    assert sql[..|sql|] == sql;
    r := Ok(());
  }

  /**
   * load's table creation: the DROP and CREATE statements built with the
   * DuckDB type names and foreign keys disabled, each checked with
   * assert_success.
   */
  method CreateTables(results: nat -> QueryResult) returns (r: Outcome<()>, issued: seq<string>)
    ensures r.Ok? <==> forall k | 0 <= k < |CreateStatements(DuckdbTypes, false)| :: Succeeded(results(k))
    ensures r.Ok? ==> issued == CreateStatements(DuckdbTypes, false)
    ensures r.Fail? ==> issued != [] && issued <= CreateStatements(DuckdbTypes, false)
    ensures r.Fail? ==> FirstFailure(results, |CreateStatements(DuckdbTypes, false)|, |issued| - 1)
    ensures r.Fail? ==> r.fault == RuntimeError(results(|issued| - 1).error)
  {
    var ddl := CreateSql(DuckdbTypes, false);
    r, issued := QueryAll(ddl, results);
  }

  // ---------------------------------------------------------------------------
  // The worker

  /** GetSubscriberData: true once the lookup passes assert_success. */
  method GetSubscriberData(lookup: QueryResult) returns (r: Outcome<bool>)
    ensures r.Ok? <==> Succeeded(lookup)
    ensures r.Ok? ==> r.value
    ensures r.Fail? ==> r.fault == RuntimeError(lookup.error)
  {
    var ok :- AssertSuccess(lookup);
    r := Ok(true);
  }

  /**
   * GetNewDestination: execute statement 1 with s_id, sf_type, start_time and
   * end_time, then count the result's rows by iterating over it; true iff
   * there was one.
   */
  method GetNewDestination(s: nat, sf: nat, start: nat, end: nat, destinations: QueryResult)
    returns (r: Outcome<bool>, statement: nat, args: seq<int>)
    ensures statement == GetNewDestinationStmt && args == [s, sf, start, end]
    ensures statement < 10 && |args| == Arity[statement]
    ensures r.Ok? <==> Succeeded(destinations)
    ensures r.Ok? ==> (r.value <==> exists k | 0 <= k < |destinations.chunks| :: destinations.chunks[k] > 0)
    ensures r.Fail? ==> r.fault == RuntimeError(destinations.error)
  {
    statement, args := GetNewDestinationStmt, [s, sf, start, end];
    var ok :- AssertSuccess(destinations);
    var count := CountRows(destinations);
    TotalRowsPositive(destinations.chunks);
    r := Ok(count > 0);
  }

  /**
   * GetAccessData: execute statement 2 with s_id and ai_type, then count the
   * result's rows by iterating over it; true iff there was one.
   */
  method GetAccessData(s: nat, ai: nat, access: QueryResult)
    returns (r: Outcome<bool>, statement: nat, args: seq<int>)
    ensures statement == GetAccessDataStmt && args == [s, ai]
    ensures statement < 10 && |args| == Arity[statement]
    ensures r.Ok? <==> Succeeded(access)
    ensures r.Ok? ==> (r.value <==> exists k | 0 <= k < |access.chunks| :: access.chunks[k] > 0)
    ensures r.Fail? ==> r.fault == RuntimeError(access.error)
  {
    statement, args := GetAccessDataStmt, [s, ai];
    var ok :- AssertSuccess(access);
    var count := CountRows(access);
    TotalRowsPositive(access.chunks);
    r := Ok(count > 0);
  }

  /**
   * UpdateSubscriberData: both updates must pass assert_success; the outcome
   * is whether the special_facility update's change count, the first value of
   * its first chunk, is positive. The subscriber update's count is not read.
   */
  method UpdateSubscriberData(subscriber: QueryResult, facility: QueryResult) returns (r: Outcome<bool>)
    ensures r.Ok? <==> Succeeded(subscriber) && Succeeded(facility) && facility.chunks != []
    ensures r.Ok? ==> (r.value <==> facility.firstInt > 0)
    ensures !Succeeded(subscriber) ==> r == Fail(RuntimeError(subscriber.error))
    ensures Succeeded(subscriber) && Succeeded(facility) && facility.chunks == [] ==> r == Fail(NullChunk)
  {
    var ok :- AssertSuccess(subscriber);
    ok :- AssertSuccess(facility);
    var changes :- FirstValue(facility);
    r := Ok(changes > 0);
  }

  /** UpdateLocation: true once the update passes assert_success. */
  method UpdateLocation(update: QueryResult) returns (r: Outcome<bool>)
    ensures r.Ok? <==> Succeeded(update)
    ensures r.Ok? ==> r.value
  {
    var ok :- AssertSuccess(update);
    r := Ok(true);
  }

  /** A DuckDB error message that reports a constraint violation: it starts with "Constraint". */
  predicate ConstraintError(error: string)
  {
    "Constraint" <= error
  }

  /**
   * The insert's result is tolerated when it succeeded, or when it failed with
   * a constraint violation; otherwise assert_success throws on it.
   */
  function InsertTolerated(insert: QueryResult): (r: Outcome<()>)
    ensures r.Ok? <==> insert.success || ConstraintError(insert.error)
    ensures r.Fail? ==> r.fault == RuntimeError(insert.error)
  {
    if !insert.success && !ConstraintError(insert.error) then AssertSuccess(insert) else Ok(())
  }

  /** The calls both InsertCallForwarding versions require to go through before the insert. */
  predicate InsertReached(lookup: QueryResult, facility: QueryResult)
  {
    Succeeded(lookup) && lookup.chunks != [] && Succeeded(facility)
  }

  /**
   * InsertCallForwarding as written: look up s_id, run the special_facility
   * select, insert, commit, and return false whatever the insert did.
   */
  method InsertCallForwarding(lookup: QueryResult, facility: QueryResult, insert: QueryResult) returns (r: Outcome<bool>)
    ensures r.Ok? <==> InsertReached(lookup, facility) && (insert.success || ConstraintError(insert.error))
    ensures r.Ok? ==> !r.value
    ensures InsertReached(lookup, facility) && insert.success ==> r == Ok(false)
    ensures InsertReached(lookup, facility) && !insert.success && !ConstraintError(insert.error)
      ==> r == Fail(RuntimeError(insert.error))
  {
    var ok :- AssertSuccess(lookup);
    var sId :- FirstValue(lookup);
    ok :- AssertSuccess(facility);
    ok :- InsertTolerated(insert);
    r := Ok(false);
  }

  /**
   * InsertCallForwarding returning whether the row went in: true on a
   * successful insert, false on a tolerated constraint violation, as the
   * dbbench SQLite worker does.
   */
  method InsertCallForwardingCorrected(lookup: QueryResult, facility: QueryResult, insert: QueryResult) returns (r: Outcome<bool>)
    ensures r.Ok? <==> InsertReached(lookup, facility) && (insert.success || ConstraintError(insert.error))
    ensures r.Ok? ==> (r.value <==> insert.success)
    ensures InsertReached(lookup, facility) && !insert.success && !ConstraintError(insert.error)
      ==> r == Fail(RuntimeError(insert.error))
  {
    var ok :- AssertSuccess(lookup);
    var sId :- FirstValue(lookup);
    ok :- AssertSuccess(facility);
    ok :- InsertTolerated(insert);
    r := Ok(insert.success);
  }

  /**
   * DeleteCallForwarding: look up s_id, delete, commit; true iff the delete's
   * change count, the first value of its first chunk, is positive.
   */
  method DeleteCallForwarding(lookup: QueryResult, delete: QueryResult) returns (r: Outcome<bool>)
    ensures r.Ok? <==> Succeeded(lookup) && lookup.chunks != [] && Succeeded(delete) && delete.chunks != []
    ensures r.Ok? ==> (r.value <==> delete.firstInt > 0)
    ensures Succeeded(lookup) && lookup.chunks == [] ==> r == Fail(NullChunk)
  {
    var ok :- AssertSuccess(lookup);
    var sId :- FirstValue(lookup);
    ok :- AssertSuccess(delete);
    var changes :- FirstValue(delete);
    r := Ok(changes > 0);
  }
}
