/**
 * The txbench DuckDB TATP client (src/tatp/tatp_duckdb.cpp). Each prepared
 * statement's QueryResult is an input; the client never checks `success`
 * except after the call_forwarding insert.
 */
module TxbenchDuckdbTatp {
  import opened Text
  import opened Tatp
  import opened Duckdb

  /** assert_success: a failed result becomes a std::runtime_error carrying its error text. */
  function AssertSuccess(q: QueryResult): (r: Outcome<()>)
    ensures r.Ok? <==> q.success
    ensures r.Fail? ==> r.fault == RuntimeError(q.error)
  {
    if q.success then Ok(()) else Fail(RuntimeError(q.error))
  }

  /** A result with exactly one chunk, of exactly one row. */
  predicate SingleRow(q: QueryResult)
  {
    |q.chunks| == 1 && q.chunks[0] == 1
  }

  /**
   * get_subscriber_data as written: one chunk of one row is required; every
   * field is copied from its column except vlr_location, which is copied from
   * column 32 (msc_location's) instead of column 33.
   */
  method GetSubscriberData(lookup: QueryResult) returns (r: Outcome<ReturnCode>, data: Option<SubscriberData>)
    ensures r.Ok? <==> SingleRow(lookup)
    ensures r.Ok? ==> r.value == Success
    ensures r.Fail? && r.fault == NullChunk <==> lookup.chunks == []
    ensures r.Ok? ==> data.Some? && ReadsSubscriberRow(data.value.(vlrLocation := Cell(0, 33)), 0)
    ensures r.Ok? ==> data.Some? && data.value.vlrLocation == data.value.mscLocation == Cell(0, 32)
  {
    data := None;
    var chunk := Fetch(lookup, 0);
    if chunk.None? {
      return Fail(NullChunk), data;
    }
    var one :- Assert(chunk.value == 1);
    var bit := ReadColumns(0, 2, 10);
    var hex := ReadColumns(0, 12, 10);
    var byte2 := ReadColumns(0, 22, 10);
    var d := SubscriberData(Cell(0, 1), bit, hex, byte2, Cell(0, 32), Cell(0, 32));
    assert ReadsSubscriberRow(d.(vlrLocation := Cell(0, 33)), 0) by {
      var e := d.(vlrLocation := Cell(0, 33));
      forall f | ValidField(f) && f != SId
        ensures DataCell(e, f) == Cell(0, FieldColumn(f))
      {
      }
    }
    data := Some(d);
    var last :- Assert(Fetch(lookup, 1).None?);
    r := Ok(Success);
  }

  /** The vlr_location the as-written client returns is not the one in the row. */
  lemma SubscriberVlrMisread(d: SubscriberData)
    requires d.vlrLocation == Cell(0, 32)
    ensures !ReadsSubscriberRow(d, 0)
  {
    if |d.bit| == 10 && |d.hex| == 10 && |d.byte2| == 10 {
      assert DataCell(d, VlrLocation) != Cell(0, FieldColumn(VlrLocation));
    }
  }

  /** get_subscriber_data with vlr_location read from its own column, 33. */
  method GetSubscriberDataCorrected(lookup: QueryResult) returns (r: Outcome<ReturnCode>, data: Option<SubscriberData>)
    ensures r.Ok? <==> SingleRow(lookup)
    ensures r.Ok? ==> r.value == Success
    ensures r.Fail? && r.fault == NullChunk <==> lookup.chunks == []
    ensures r.Ok? ==> data.Some? && ReadsSubscriberRow(data.value, 0)
  {
    data := None;
    var chunk := Fetch(lookup, 0);
    if chunk.None? {
      return Fail(NullChunk), data;
    }
    var one :- Assert(chunk.value == 1);
    var d := ReadSubscriber(0);
    data := Some(d);
    var last :- Assert(Fetch(lookup, 1).None?);
    r := Ok(Success);
  }

  /**
   * get_new_destination as written: the numberx column of every row is
   * collected into a local vector that is never copied to the out-parameter,
   * so numberx stays untouched (None) even on SUCCESS.
   */
  method GetNewDestination(lookup: QueryResult) returns (r: ReturnCode, numberx: Option<seq<Cell>>, collected: seq<Cell>)
    ensures r == Success <==> Fetch(lookup, 0).Some?
    ensures r == Missing <==> lookup.chunks == []
    ensures collected == ColumnCells(TotalRows(lookup.chunks), 0)
    ensures numberx == None
  {
    numberx := None;
    r := Success;
    collected := [];
    if Fetch(lookup, 0).Some? {
      collected := CollectColumn(lookup, 0);
    } else {
      r := Missing;
    }
  }

  /** get_new_destination with the collected column handed back through numberx. */
  method GetNewDestinationCorrected(lookup: QueryResult) returns (r: ReturnCode, numberx: Option<seq<Cell>>)
    ensures r == Success <==> Fetch(lookup, 0).Some?
    ensures r == Missing <==> lookup.chunks == []
    ensures r == Success ==> numberx == Some(ColumnCells(TotalRows(lookup.chunks), 0))
    ensures r == Missing ==> numberx == None
  {
    numberx := None;
    r := Success;
    if Fetch(lookup, 0).Some? {
      var out := CollectColumn(lookup, 0);
      numberx := Some(out);
    } else {
      r := Missing;
    }
  }

  /**
   * get_access_data: MISSING when the first Fetch is null; otherwise one
   * chunk of one row, whose columns 0 .. 3 become data1 .. data4.
   */
  method GetAccessData(lookup: QueryResult) returns (r: Outcome<ReturnCode>, data: Option<AccessData>)
    ensures r.Ok? <==> lookup.chunks == [] || SingleRow(lookup)
    ensures r.Fail? ==> r.fault == AssertFailed
    ensures r.Ok? ==> (r.value == Missing <==> lookup.chunks == []) && (r.value == Success <==> SingleRow(lookup))
    ensures r.Ok? ==> (data.Some? <==> r.value == Success) && (data.Some? ==> ReadsAccessRow(data.value, 0))
  {
    data := None;
    var rc := Success;
    var chunk := Fetch(lookup, 0);
    if chunk.Some? {
      var one :- Assert(chunk.value == 1);
      var d := ReadAccessRow(0);
      data := Some(d);
      var last :- Assert(Fetch(lookup, 1).None?);
    } else {
      rc := Missing;
    }
    r := Ok(rc);
  }

  /**
   * update_subscriber_data: the subscriber update must report one change, the
   * special_facility update zero or one; MISSING iff it reports zero.
   */
  method UpdateSubscriberData(subscriber: QueryResult, facility: QueryResult) returns (r: Outcome<ReturnCode>)
    ensures r.Ok? <==>
      subscriber.chunks != [] && subscriber.firstInt == 1
      && facility.chunks != [] && (facility.firstInt == 0 || facility.firstInt == 1)
    ensures r.Fail? && r.fault == NullChunk <==>
      subscriber.chunks == [] || (subscriber.firstInt == 1 && facility.chunks == [])
    ensures r.Ok? ==> (r.value == Missing <==> facility.firstInt == 0) && (r.value == Success <==> facility.firstInt == 1)
  {
    var rc := Success;
    var changes :- FirstValue(subscriber);
    var one :- Assert(changes == 1);
    changes :- FirstValue(facility);
    var atMostOne :- Assert(changes == 0 || changes == 1);
    if changes == 0 {
      rc := Missing;
    }
    r := Ok(rc);
  }

  /** update_location: the update must report exactly one change; always SUCCESS. */
  method UpdateLocation(update: QueryResult) returns (r: Outcome<ReturnCode>)
    ensures r.Ok? <==> update.chunks != [] && update.firstInt == 1
    ensures r.Fail? ==> (r.fault == NullChunk <==> update.chunks == [])
    ensures r.Ok? ==> r.value == Success
  {
    var changes :- FirstValue(update);
    var one :- Assert(changes == 1);
    r := Ok(Success);
  }

  /**
   * insert_call_forwarding: the subscriber lookup must give one chunk and the
   * special_facility lookup one non-empty chunk; a failed insert, whatever its
   * error, makes the result CONSTRAINT.
   */
  method InsertCallForwarding(subscriber: QueryResult, facility: QueryResult, insert: QueryResult)
    returns (r: Outcome<ReturnCode>)
    ensures r.Ok? <==> |subscriber.chunks| == 1 && |facility.chunks| == 1 && facility.chunks[0] > 0
    ensures r.Ok? ==> (r.value == Constraint <==> !insert.success) && (r.value == Success <==> insert.success)
  {
    var rc := Success;
    var sId :- FirstValue(subscriber);
    var single :- Assert(Fetch(subscriber, 1).None?);
    var chunk := Fetch(facility, 0);
    if chunk.None? {
      return Fail(NullChunk);
    }
    var some :- Assert(chunk.value > 0);
    single :- Assert(Fetch(facility, 1).None?);
    if !insert.success {
      rc := Constraint;
    }
    r := Ok(rc);
  }

  /**
   * delete_call_forwarding: the subscriber lookup must give one chunk; the
   * delete reports zero or one change, and MISSING iff zero.
   */
  method DeleteCallForwarding(subscriber: QueryResult, delete: QueryResult) returns (r: Outcome<ReturnCode>)
    ensures r.Ok? <==>
      |subscriber.chunks| == 1 && delete.chunks != [] && (delete.firstInt == 0 || delete.firstInt == 1)
    ensures r.Ok? ==> (r.value == Missing <==> delete.firstInt == 0) && (r.value == Success <==> delete.firstInt == 1)
  {
    var rc := Success;
    var sId :- FirstValue(subscriber);
    var single :- Assert(Fetch(subscriber, 1).None?);
    var changes :- FirstValue(delete);
    var atMostOne :- Assert(changes == 0 || changes == 1);
    if changes == 0 {
      rc := Missing;
    }
    r := Ok(rc);
  }
}
