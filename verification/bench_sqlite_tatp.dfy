/**
 * The dbbench SQLite TATP program (src/benchmarks/tatp/tatp_sqlite3.cpp): the
 * loader, which streams generated records through four prepared INSERTs
 * inside one transaction, and the worker, which runs one procedure and
 * reports whether it succeeded.
 *
 * The wrapper it is written against returns a result code from every call;
 * `.expect(code)` on any other code is a fault, ExpectFailed(code, got). What
 * the engine answers is an input: for the loader, `answer(n)` is the code the
 * n-th call returns.
 */
module BenchSqliteTatp {
  import opened Text
  import opened Tatp
  import opened TatpSchema
  import opened TatpStatements

  /** `result.expect(want)`. */
  function Expect(got: int, want: int): (r: Outcome<()>)
    ensures r.Ok? <==> got == want
    ensures r.Fail? ==> r.fault == ExpectFailed(want, got)
  {
    if got == want then Ok(()) else Fail(ExpectFailed(want, got))
  }

  // ---------------------------------------------------------------------------
  // The loader's statements

  /** The type names the SQLite loader builds its tables with. */
  const SqliteTypes := TypeNames("INTEGER", "INTEGER", "INTEGER", "INTEGER", "TEXT")

  /** n placeholders separated by commas. */
  function Marks(n: nat): (marks: seq<string>)
    ensures |marks| == n
    ensures forall k | 0 <= k < n :: marks[k] == "?"
    decreases n
  {
    if n == 0 then [] else Marks(n - 1) + ["?"]
  }

  /** An INSERT of one row of `width` parameters into `table`. */
  function InsertSql(table: string, width: nat): string
  {
    "INSERT INTO " + table + " VALUES (" + Join(Marks(width), ",") + ")"
  }

  /** The four tables the loader fills. */
  datatype Table = Subscriber | AccessInfo | SpecialFacility | CallForwarding

  function TableName(t: Table): (name: string)
    ensures '?' !in name
  {
    match t
    case Subscriber => "subscriber"
    case AccessInfo => "access_info"
    case SpecialFacility => "special_facility"
    case CallForwarding => "call_forwarding"
  }

  /** The number of columns, and so of parameters, of each table's INSERT. */
  function Width(t: Table): nat
  {
    match t
    case Subscriber => 34
    case AccessInfo => 6
    case SpecialFacility => 6
    case CallForwarding => 5
  }

  lemma {:induction false} MarksCount(n: nat)
    ensures Count(Join(Marks(n), ","), '?') == n
    decreases n
  {
    if n >= 2 {
      assert Marks(n)[1..] == Marks(n - 1);
      MarksCount(n - 1);
      CountAppend("?", ",", '?');
      CountAppend("?" + ",", Join(Marks(n - 1), ","), '?');
    } else if n == 1 {
      assert Join(Marks(n), ",") == "?";
    }
  }

  /** An INSERT into a table whose name holds no '?' takes exactly `width` parameters. */
  lemma InsertPlaceholders(table: string, width: nat)
    requires '?' !in table
    ensures Count(InsertSql(table, width), '?') == width
  {
    var front := "INSERT INTO " + table + " VALUES (";
    assert '?' !in front by {
      assert forall k | 0 <= k < |front| :: front[k] != '?' by {
        assert front == "INSERT INTO " + (table + " VALUES (");
      }
    }
    CountAbsent(front, '?');
    CountAbsent(")", '?');
    MarksCount(width);
    CountAppend(front, Join(Marks(width), ","), '?');
    CountAppend(front + Join(Marks(width), ","), ")", '?');
  }

  /** The INSERT the loader prepares for a table. */
  function InsertStatement(t: Table): string
  {
    InsertSql(TableName(t), Width(t))
  }

  /** The four INSERTs the loader prepares, one per table, in this order; each is InsertStatement(table). */
  const Prepares: seq<Call> := [PrepareInsert(Subscriber), PrepareInsert(AccessInfo), PrepareInsert(SpecialFacility), PrepareInsert(CallForwarding)]

  /** Every prepared INSERT has as many placeholders as its table has columns. */
  lemma PreparedWidth(t: Table)
    ensures Count(InsertStatement(t), '?') == Width(t)
  {
    InsertPlaceholders(TableName(t), Width(t));
  }

  // ---------------------------------------------------------------------------
  // What the loader binds for each record

  /** The value the loader binds for one field of a subscriber record. */
  function FieldValue(s: SubscriberRecord, f: SubscriberField): Value
    requires WellFormed(s) && ValidField(f)
  {
    match f
    case SId => IntValue(s.sId)
    case SubNbr => TextValue(s.subNbr)
    case Bit(i) => IntValue(BoolInt(s.bit[i]))
    case Hex(i) => IntValue(s.hex[i])
    case Byte2(i) => IntValue(s.byte2[i])
    case MscLocation => IntValue(s.mscLocation)
    case VlrLocation => IntValue(s.vlrLocation)
  }

  /** values bound at consecutive positions from `first` on. */
  function Numbered(first: int, values: seq<Value>): (binds: seq<Binding>)
    ensures |binds| == |values|
    decreases |values|
  {
    if values == [] then [] else Numbered(first, values[..|values| - 1]) + [Binding(first + |values| - 1, values[|values| - 1])]
  }

  function BitValues(bits: seq<bool>): (values: seq<Value>)
    ensures |values| == |bits|
    decreases |bits|
  {
    if bits == [] then [] else BitValues(bits[..|bits| - 1]) + [IntValue(BoolInt(bits[|bits| - 1]))]
  }

  function IntValues(xs: seq<nat>): (values: seq<Value>)
    ensures |values| == |xs|
    decreases |xs|
  {
    if xs == [] then [] else IntValues(xs[..|xs| - 1]) + [IntValue(xs[|xs| - 1])]
  }

  lemma {:induction false} NumberedAt(first: int, values: seq<Value>)
    ensures forall k | 0 <= k < |values| :: Numbered(first, values)[k] == Binding(first + k, values[k])
    decreases |values|
  {
    if values != [] {
      NumberedAt(first, values[..|values| - 1]);
    }
  }

  lemma {:induction false} BitValuesAt(bits: seq<bool>)
    ensures forall k | 0 <= k < |bits| :: BitValues(bits)[k] == IntValue(BoolInt(bits[k]))
    decreases |bits|
  {
    if bits != [] {
      BitValuesAt(bits[..|bits| - 1]);
    }
  }

  lemma {:induction false} IntValuesAt(xs: seq<nat>)
    ensures forall k | 0 <= k < |xs| :: IntValues(xs)[k] == IntValue(xs[k])
    decreases |xs|
  {
    if xs != [] {
      IntValuesAt(xs[..|xs| - 1]);
    }
  }

  lemma NumberedSnoc(head: seq<Binding>, first: int, values: seq<Value>, v: Value)
    ensures head + Numbered(first, values) + [Binding(first + |values|, v)] == head + Numbered(first, values + [v])
  {
    assert (values + [v])[..|values|] == values;
  }

  /**
   * The subscriber binds in the order the visitor makes them: s_id at 1,
   * sub_nbr at 2, bit[i] at i + 3, hex[i] at i + 13, byte2[i] at i + 23,
   * msc_location at 33 and vlr_location at 34.
   */
  function SubscriberBinding(s: SubscriberRecord): seq<Binding>
  {
    [Binding(1, IntValue(s.sId)), Binding(2, TextValue(s.subNbr))]
    + Numbered(3, BitValues(s.bit)) + Numbered(13, IntValues(s.hex)) + Numbered(23, IntValues(s.byte2))
    + [Binding(33, IntValue(s.mscLocation)), Binding(34, IntValue(s.vlrLocation))]
  }

  /**
   * A well-formed subscriber gets one bind per column of the subscriber
   * INSERT, at positions 1 .. 34 in order, and the field stored in column k is
   * bound at position k + 1.
   */
  lemma SubscriberBindLayout(s: SubscriberRecord)
    requires WellFormed(s)
    ensures |SubscriberBinding(s)| == Width(Subscriber)
    ensures forall k | 0 <= k < 34 :: SubscriberBinding(s)[k] == Binding(k + 1, FieldValue(s, FieldAt(k)))
    ensures forall f | ValidField(f) :: SubscriberBinding(s)[FieldColumn(f)] == Binding(FieldColumn(f) + 1, FieldValue(s, f))
  {
    var b := SubscriberBinding(s);
    var bits := Numbered(3, BitValues(s.bit));
    var hexes := Numbered(13, IntValues(s.hex));
    var bytes := Numbered(23, IntValues(s.byte2));
    NumberedAt(3, BitValues(s.bit));
    NumberedAt(13, IntValues(s.hex));
    NumberedAt(23, IntValues(s.byte2));
    BitValuesAt(s.bit);
    IntValuesAt(s.hex);
    IntValuesAt(s.byte2);
    forall k | 0 <= k < 34
      ensures b[k] == Binding(k + 1, FieldValue(s, FieldAt(k)))
    {
      if 2 <= k < 12 {
        assert b[k] == bits[k - 2];
      } else if 12 <= k < 22 {
        assert b[k] == hexes[k - 12];
      } else if 22 <= k < 32 {
        assert b[k] == bytes[k - 22];
      }
    }
    FieldColumnBijection();
  }

  /** One of the visitor's index loops: values[i] is bound at position first + i, in order. */
  method BindLoop(binds: seq<Binding>, first: int, values: seq<Value>) returns (out: seq<Binding>)
    ensures out == binds + Numbered(first, values)
  {
    out := binds;
    for i := 0 to |values|
      invariant out == binds + Numbered(first, values[..i])
    {
      assert values[..i + 1] == values[..i] + [values[i]];
      NumberedSnoc(binds, first, values[..i], values[i]);
      out := out + [Binding(first + i, values[i])];
    }
    assert values[..|values|] == values;
  }

  /** The subscriber branch of the loader's visitor: two binds, three loops of ten, two binds. */
  method SubscriberBinds(s: SubscriberRecord) returns (binds: seq<Binding>)
    requires WellFormed(s)
    ensures binds == SubscriberBinding(s)
  {
    binds := [Binding(1, IntValue(s.sId)), Binding(2, TextValue(s.subNbr))];
    binds := BindLoop(binds, 3, BitValues(s.bit));
    binds := BindLoop(binds, 13, IntValues(s.hex));
    binds := BindLoop(binds, 23, IntValues(s.byte2));
    binds := binds + [Binding(33, IntValue(s.mscLocation)), Binding(34, IntValue(s.vlrLocation))];
  }

  function AccessInfoBinding(a: AccessInfoRecord): seq<Value>
  {
    [IntValue(a.sId), IntValue(a.aiType), IntValue(a.data1), IntValue(a.data2), TextValue(a.data3), TextValue(a.data4)]
  }

  function SpecialFacilityBinding(f: SpecialFacilityRecord): seq<Value>
  {
    [IntValue(f.sId), IntValue(f.sfType), IntValue(BoolInt(f.isActive)), IntValue(f.errorCntrl), IntValue(f.dataA), TextValue(f.dataB)]
  }

  function CallForwardingBinding(c: CallForwardingRecord): seq<Value>
  {
    [IntValue(c.sId), IntValue(c.sfType), IntValue(c.startTime), IntValue(c.endTime), TextValue(c.numberx)]
  }

  // ---------------------------------------------------------------------------
  // The loader's calls

  /** A call the loader makes on its connection or on a prepared INSERT. */
  datatype Call =
    | Connect
    | ExecuteSql(sql: string)
    | PrepareInsert(table: Table)
    | Begin
    | Commit
    | BindOne(table: Table, binding: Binding)
    | BindAll(table: Table, values: seq<Value>)
    | ExecuteInsert(table: Table)

  /** Every call's result is expected to be SQLITE_OK except the loader's begin and commit, which are not checked. */
  predicate Checked(c: Call)
  {
    !(c.Begin? || c.Commit?)
  }

  /** A call on one of the four prepared INSERTs. */
  predicate Inserting(c: Call)
  {
    c.BindOne? || c.BindAll? || c.ExecuteInsert?
  }

  /** The table a record is inserted into. */
  function TableOf(rec: Record): Table
  {
    match rec
    case SubscriberRow(_) => Subscriber
    case AccessInfoRow(_) => AccessInfo
    case SpecialFacilityRow(_) => SpecialFacility
    case CallForwardingRow(_) => CallForwarding
  }

  predicate Loadable(rec: Record)
  {
    rec.SubscriberRow? ==> WellFormed(rec.subscriber)
  }

  predicate AllLoadable(recs: seq<Record>)
  {
    forall k | 0 <= k < |recs| :: Loadable(recs[k])
  }

  function BindEach(table: Table, binds: seq<Binding>): (calls: seq<Call>)
    ensures |calls| == |binds|
    ensures forall k | 0 <= k < |binds| :: calls[k] == BindOne(table, binds[k])
    decreases |binds|
  {
    if binds == [] then [] else BindEach(table, binds[..|binds| - 1]) + [BindOne(table, binds[|binds| - 1])]
  }

  /** The binds the visitor makes for one record, on its own table's INSERT. */
  function RecordBinds(rec: Record): seq<Call>
  {
    match rec
    case SubscriberRow(s) => BindEach(Subscriber, SubscriberBinding(s))
    case AccessInfoRow(a) => [BindAll(AccessInfo, AccessInfoBinding(a))]
    case SpecialFacilityRow(f) => [BindAll(SpecialFacility, SpecialFacilityBinding(f))]
    case CallForwardingRow(c) => [BindAll(CallForwarding, CallForwardingBinding(c))]
  }

  /** The calls the visitor makes for one record: its binds, then one execution of its table's INSERT. */
  function RecordCalls(rec: Record): seq<Call>
  {
    RecordBinds(rec) + [ExecuteInsert(TableOf(rec))]
  }

  /**
   * A record's binds all go to its own table's INSERT, and a bind_all supplies
   * as many values as that INSERT has placeholders.
   */
  lemma RecordBindsTarget(rec: Record)
    ensures forall k | 0 <= k < |RecordBinds(rec)| ::
      (RecordBinds(rec)[k].BindOne? || RecordBinds(rec)[k].BindAll?) && RecordBinds(rec)[k].table == TableOf(rec)
    ensures forall k | 0 <= k < |RecordBinds(rec)| :: RecordBinds(rec)[k].BindAll? ==>
      |RecordBinds(rec)[k].values| == Width(TableOf(rec))
  {
  }

  /** The visitor: dispatch on the record's kind to its own table's statement. */
  method Visit(rec: Record) returns (calls: seq<Call>)
    requires Loadable(rec)
    ensures calls == RecordCalls(rec)
  {
    match rec
    case SubscriberRow(s) =>
      var binds := SubscriberBinds(s);
      calls := BindEach(Subscriber, binds) + [ExecuteInsert(Subscriber)];
    case AccessInfoRow(a) =>
      calls := [BindAll(AccessInfo, AccessInfoBinding(a)), ExecuteInsert(AccessInfo)];
    case SpecialFacilityRow(f) =>
      calls := [BindAll(SpecialFacility, SpecialFacilityBinding(f)), ExecuteInsert(SpecialFacility)];
    case CallForwardingRow(c) =>
      calls := [BindAll(CallForwarding, CallForwardingBinding(c)), ExecuteInsert(CallForwarding)];
  }

  /** The calls for the records, in generator order. */
  function RecordsCalls(recs: seq<Record>): seq<Call>
    decreases |recs|
  {
    if recs == [] then [] else RecordsCalls(recs[..|recs| - 1]) + RecordCalls(recs[|recs| - 1])
  }

  function ExecuteEach(statements: seq<string>): (calls: seq<Call>)
    ensures |calls| == |statements|
    ensures forall k | 0 <= k < |statements| :: calls[k] == ExecuteSql(statements[k])
    decreases |statements|
  {
    if statements == [] then [] else ExecuteEach(statements[..|statements| - 1]) + [ExecuteSql(statements[|statements| - 1])]
  }

  /** Connecting, executing the DDL statements, and preparing the INSERTs. */
  function SetupCalls(ddl: seq<string>): seq<Call>
  {
    [Connect] + ExecuteEach(ddl) + Prepares
  }

  /** Every call `load` makes, given its DDL, when every checked call succeeds. */
  function LoadCalls(ddl: seq<string>, recs: seq<Record>): seq<Call>
  {
    SetupCalls(ddl) + [Begin] + RecordsCalls(recs) + [Commit]
  }

  /** Every checked call among `calls`, the n-th call made, was answered SQLITE_OK. */
  ghost predicate Answered(calls: seq<Call>, answer: nat -> int)
  {
    forall k | 0 <= k < |calls| :: Checked(calls[k]) ==> answer(k) == SQLITE_OK
  }

  /** The last call made was checked and answered otherwise than SQLITE_OK; the ones before were fine. */
  ghost predicate FailedAt(calls: seq<Call>, answer: nat -> int)
  {
    |calls| >= 1 && Answered(calls[..|calls| - 1], answer)
    && Checked(calls[|calls| - 1]) && answer(|calls| - 1) != SQLITE_OK
  }

  /** Make the calls in order, expecting SQLITE_OK from each checked one, and stop at the first that fails. */
  method Issue(before: seq<Call>, calls: seq<Call>, answer: nat -> int) returns (r: Outcome<()>, after: seq<Call>)
    requires Answered(before, answer)
    ensures r.Ok? ==> after == before + calls && Answered(after, answer)
    ensures r.Fail? ==> after <= before + calls && FailedAt(after, answer)
    ensures r.Fail? ==> r.fault == ExpectFailed(SQLITE_OK, answer(|after| - 1))
  {
    after := before;
    r := Ok(());
    for j := 0 to |calls|
      invariant after == before + calls[..j]
      invariant Answered(after, answer)
    {
      assert calls[..j + 1] == calls[..j] + [calls[j]];
      after := after + [calls[j]];
      if Checked(calls[j]) {
        var ok :- Expect(answer(|after| - 1), SQLITE_OK);
      }
    }
    assert calls[..|calls|] == calls;
  }

  lemma RecordsCallsSnoc(recs: seq<Record>, i: nat)
    requires i < |recs|
    ensures RecordsCalls(recs[..i + 1]) == RecordsCalls(recs[..i]) + RecordCalls(recs[i])
  {
    assert recs[..i + 1][..i] == recs[..i];
  }

  lemma {:induction false} RecordsCallsPrefix(recs: seq<Record>, i: nat)
    requires i <= |recs|
    ensures RecordsCalls(recs[..i]) <= RecordsCalls(recs)
    decreases |recs|
  {
    if i < |recs| {
      var front := recs[..|recs| - 1];
      assert front[..i] == recs[..i];
      RecordsCallsPrefix(front, i);
    } else {
      assert recs[..i] == recs;
    }
  }

  lemma PrefixAppend<T>(a: seq<T>, x: seq<T>, y: seq<T>)
    requires x <= y
    ensures a + x <= a + y
  {
    assert (a + y)[..|a + x|] == a + x;
  }

  lemma InsertStep(before: seq<Call>, recs: seq<Record>, i: nat)
    requires i < |recs|
    ensures before + RecordsCalls(recs[..i]) + RecordCalls(recs[i]) == before + RecordsCalls(recs[..i + 1])
    ensures before + RecordsCalls(recs[..i + 1]) <= before + RecordsCalls(recs)
  {
    RecordsCallsSnoc(recs, i);
    AppendAssoc(before, RecordsCalls(recs[..i]), RecordCalls(recs[i]));
    RecordsCallsPrefix(recs, i + 1);
    PrefixAppend(before, RecordsCalls(recs[..i + 1]), RecordsCalls(recs));
  }

  /** The loop over the generated records: visit each in order and make its calls, stopping at a failed one. */
  method InsertRecords(before: seq<Call>, records: seq<Record>, answer: nat -> int) returns (r: Outcome<()>, trace: seq<Call>)
    requires AllLoadable(records) && Answered(before, answer)
    ensures r.Ok? ==> trace == before + RecordsCalls(records) && Answered(trace, answer)
    ensures r.Fail? ==> trace <= before + RecordsCalls(records) && FailedAt(trace, answer)
    ensures r.Fail? ==> r.fault == ExpectFailed(SQLITE_OK, answer(|trace| - 1))
  {
    trace := before;
    r := Ok(());
    for i := 0 to |records|
      invariant trace == before + RecordsCalls(records[..i])
      invariant Answered(trace, answer)
    {
      var calls := Visit(records[i]);
      InsertStep(before, records, i);
      r, trace := Issue(trace, calls, answer);
      if r.Fail? {
        return;
      }
    }
    assert records[..|records|] == records;
    r := Ok(());
  }

  /**
   * load: connect, create the tables (SQLite type names, foreign keys on),
   * prepare the four INSERTs, begin, bind and execute every record in
   * generator order, commit. It stops at the first checked call that does not
   * return SQLITE_OK.
   */
  method Load(records: seq<Record>, answer: nat -> int) returns (r: Outcome<()>, trace: seq<Call>)
    requires AllLoadable(records)
    ensures r.Ok? ==> trace == LoadCalls(CreateStatements(SqliteTypes, true), records)
    ensures r.Ok? <==> Answered(LoadCalls(CreateStatements(SqliteTypes, true), records), answer)
    ensures r.Fail? ==> trace <= LoadCalls(CreateStatements(SqliteTypes, true), records) && FailedAt(trace, answer)
    ensures r.Fail? ==> r.fault == ExpectFailed(SQLITE_OK, answer(|trace| - 1))
  {
    var ddl := CreateSql(SqliteTypes, true);
    r, trace := LoadWith(ddl, records, answer);
  }

  /** load, for whatever DDL statements it executes. */
  method LoadWith(ddl: seq<string>, records: seq<Record>, answer: nat -> int) returns (r: Outcome<()>, trace: seq<Call>)
    requires AllLoadable(records)
    ensures r.Ok? ==> trace == LoadCalls(ddl, records)
    ensures r.Ok? <==> Answered(LoadCalls(ddl, records), answer)
    ensures r.Fail? ==> trace <= LoadCalls(ddl, records) && FailedAt(trace, answer)
    ensures r.Fail? ==> r.fault == ExpectFailed(SQLITE_OK, answer(|trace| - 1))
  {
    ghost var all := LoadCalls(ddl, records);
    ghost var setup := SetupCalls(ddl);
    ghost var inserted := setup + [Begin] + RecordsCalls(records);
    assert all == inserted + [Commit];
    PrefixWithin(inserted, inserted, [Commit]);
    PrefixWithin(setup, setup, [Begin] + RecordsCalls(records));
    PrefixTrans(setup, inserted, all);
    r, trace := Setup(ddl, answer);
    if r.Fail? {
      PrefixTrans(trace, setup, all);
      FailedNotAnswered(trace, all, answer);
      return;
    }
    AnsweredUnchecked(trace, Begin, answer);
    trace := trace + [Begin];
    r, trace := InsertRecords(trace, records, answer);
    if r.Fail? {
      PrefixTrans(trace, inserted, all);
      FailedNotAnswered(trace, all, answer);
      return;
    }
    AnsweredUnchecked(trace, Commit, answer);
    trace := trace + [Commit];
    assert trace == all;
    r := Ok(());
  }

  /** The loader's begin and commit are not checked, so they cannot fail a run. */
  lemma AnsweredUnchecked(calls: seq<Call>, c: Call, answer: nat -> int)
    requires Answered(calls, answer) && !Checked(c)
    ensures Answered(calls + [c], answer)
  {
  }

  /** Connect, execute each DDL statement, prepare the four INSERTs. */
  method Setup(ddl: seq<string>, answer: nat -> int) returns (r: Outcome<()>, trace: seq<Call>)
    ensures r.Ok? ==> trace == SetupCalls(ddl) && Answered(trace, answer)
    ensures r.Fail? ==> trace <= SetupCalls(ddl) && FailedAt(trace, answer)
    ensures r.Fail? ==> r.fault == ExpectFailed(SQLITE_OK, answer(|trace| - 1))
  {
    ghost var all := SetupCalls(ddl);
    ghost var connected := [Connect];
    ghost var created := connected + ExecuteEach(ddl);
    assert all == created + Prepares;
    PrefixWithin(created, created, Prepares);
    PrefixWithin(connected, connected, ExecuteEach(ddl));
    PrefixTrans(connected, created, all);
    r, trace := Issue([], [Connect], answer);
    if r.Fail? {
      PrefixTrans(trace, connected, all);
      return;
    }
    assert trace == connected;
    r, trace := Issue(trace, ExecuteEach(ddl), answer);
    if r.Fail? {
      PrefixTrans(trace, created, all);
      return;
    }
    r, trace := Issue(trace, Prepares, answer);
  }

  lemma PrefixTrans<T>(x: seq<T>, y: seq<T>, z: seq<T>)
    requires x <= y && y <= z
    ensures x <= z
  {
  }

  lemma PrefixWithin<T>(t: seq<T>, a: seq<T>, x: seq<T>)
    requires t <= a
    ensures t <= a + x
  {
    assert (a + x)[..|a|] == a;
  }

  /** A run that failed on one of the calls has not had every call answered SQLITE_OK. */
  lemma FailedNotAnswered(trace: seq<Call>, all: seq<Call>, answer: nat -> int)
    requires trace <= all && FailedAt(trace, answer)
    ensures !Answered(all, answer)
  {
    assert all[|trace| - 1] == trace[|trace| - 1];
  }

  /** Only the four INSERTs' calls are made between begin and commit. */
  lemma {:induction false} RecordsCallsInserting(recs: seq<Record>)
    ensures forall k | 0 <= k < |RecordsCalls(recs)| :: Inserting(RecordsCalls(recs)[k])
    decreases |recs|
  {
    if recs != [] {
      var front := recs[..|recs| - 1];
      var last := recs[|recs| - 1];
      RecordsCallsInserting(front);
      RecordBindsTarget(last);
      var a := RecordsCalls(front);
      var b := RecordCalls(last);
      forall k | 0 <= k < |a + b|
        ensures Inserting((a + b)[k])
      {
        if k >= |a| && k - |a| < |RecordBinds(last)| {
          assert (a + b)[k] == RecordBinds(last)[k - |a|];
        }
      }
    }
  }

  /** No call among these begins or commits a transaction. */
  predicate Unbracketed(calls: seq<Call>)
  {
    forall k | 0 <= k < |calls| :: !calls[k].Begin? && !calls[k].Commit?
  }

  /** Connecting, the DDL and the prepares neither begin nor commit. */
  lemma SetupUnbracketed(ddl: seq<string>)
    ensures Unbracketed(SetupCalls(ddl))
  {
    var s := SetupCalls(ddl);
    forall k | 0 <= k < |s|
      ensures !s[k].Begin? && !s[k].Commit?
    {
      if 1 <= k <= |ddl| {
        assert s[k] == ExecuteEach(ddl)[k - 1];
      } else if k > |ddl| {
        assert s[k] == Prepares[k - 1 - |ddl|];
      }
    }
  }

  /** Calls without a begin or commit, wrapped in one begin and one commit. */
  lemma Bracket(s: seq<Call>, body: seq<Call>)
    requires Unbracketed(s) && Unbracketed(body)
    ensures var all := s + [Begin] + body + [Commit];
      forall k | 0 <= k < |all| :: (all[k].Begin? <==> k == |s|) && (all[k].Commit? <==> k == |all| - 1)
  {
    var all := s + [Begin] + body + [Commit];
    forall k | 0 <= k < |all|
      ensures (all[k].Begin? <==> k == |s|) && (all[k].Commit? <==> k == |all| - 1)
    {
      if k < |s| {
        assert all[k] == s[k];
      } else if |s| < k < |all| - 1 {
        assert all[k] == body[k - |s| - 1];
      }
    }
  }

  /** The whole load runs inside one transaction: one begin, right after the setup, and one commit, last. */
  lemma LoadBracket(ddl: seq<string>, recs: seq<Record>)
    ensures LoadCalls(ddl, recs)[|SetupCalls(ddl)|] == Begin
    ensures LoadCalls(ddl, recs)[|LoadCalls(ddl, recs)| - 1] == Commit
    ensures forall k | 0 <= k < |LoadCalls(ddl, recs)| :: LoadCalls(ddl, recs)[k].Begin? <==> k == |SetupCalls(ddl)|
    ensures forall k | 0 <= k < |LoadCalls(ddl, recs)| :: LoadCalls(ddl, recs)[k].Commit? <==> k == |LoadCalls(ddl, recs)| - 1
  {
    var body := RecordsCalls(recs);
    RecordsCallsInserting(recs);
    assert Unbracketed(body) by {
      forall k | 0 <= k < |body|
        ensures !body[k].Begin? && !body[k].Commit?
      {
        assert Inserting(body[k]);
      }
    }
    SetupUnbracketed(ddl);
    Bracket(SetupCalls(ddl), body);
  }

  /** The tables of the INSERT executions among some calls, in call order. */
  function Executions(calls: seq<Call>): seq<Table>
    decreases |calls|
  {
    if calls == [] then []
    else Executions(calls[..|calls| - 1]) + (if calls[|calls| - 1].ExecuteInsert? then [calls[|calls| - 1].table] else [])
  }

  lemma {:induction false} ExecutionsAppend(a: seq<Call>, b: seq<Call>)
    ensures Executions(a + b) == Executions(a) + Executions(b)
    decreases |b|
  {
    if b != [] {
      var front := b[..|b| - 1];
      assert (a + b)[..|a + b| - 1] == a + front;
      ExecutionsAppend(a, front);
    } else {
      assert a + b == a;
    }
  }

  lemma {:induction false} NoExecutions(calls: seq<Call>)
    requires forall k | 0 <= k < |calls| :: !calls[k].ExecuteInsert?
    ensures Executions(calls) == []
    decreases |calls|
  {
    if calls != [] {
      NoExecutions(calls[..|calls| - 1]);
    }
  }

  lemma ExecutionsOfRecord(rec: Record)
    ensures Executions(RecordCalls(rec)) == [TableOf(rec)]
  {
    RecordBindsTarget(rec);
    NoExecutions(RecordBinds(rec));
    ExecutionsAppend(RecordBinds(rec), [ExecuteInsert(TableOf(rec))]);
    assert Executions([ExecuteInsert(TableOf(rec))]) == [TableOf(rec)] by {
      assert [ExecuteInsert(TableOf(rec))][..0] == [];
    }
  }

  /** The tables of some records, in order. */
  function RecordTables(recs: seq<Record>): (tables: seq<Table>)
    ensures |tables| == |recs|
    ensures forall k | 0 <= k < |recs| :: tables[k] == TableOf(recs[k])
    decreases |recs|
  {
    if recs == [] then [] else RecordTables(recs[..|recs| - 1]) + [TableOf(recs[|recs| - 1])]
  }

  /** Each record is inserted exactly once, into its own table, in generator order. */
  lemma {:induction false} ExecutedInOrder(recs: seq<Record>)
    ensures Executions(RecordsCalls(recs)) == RecordTables(recs)
    decreases |recs|
  {
    if recs != [] {
      var front := recs[..|recs| - 1];
      var last := recs[|recs| - 1];
      var before := RecordsCalls(front);
      var calls := RecordCalls(last);
      assert RecordsCalls(recs) == before + calls;
      ExecutedInOrder(front);
      ExecutionsAppend(before, calls);
      ExecutionsOfRecord(last);
      assert RecordTables(recs) == RecordTables(front) + [TableOf(last)];
    }
  }

  // ---------------------------------------------------------------------------
  // The worker

  /** What a worker binds to which statement for a procedure; s_id read back from statement 6 is Cell(0, 0). */
  datatype StatementBind = StatementBind(statement: nat, values: seq<Value>)

  function ProcedureBinds(p: Procedure): seq<StatementBind>
  {
    var sId := CellValue(Cell(0, 0));
    match p
    case GetSubscriberData(s) => [StatementBind(GetSubscriberStmt, [IntValue(s)])]
    case GetNewDestination(s, sf, start, end) =>
      [StatementBind(GetNewDestinationStmt, [IntValue(s), IntValue(sf), IntValue(start), IntValue(end)])]
    case GetAccessData(s, ai) => [StatementBind(GetAccessDataStmt, [IntValue(s), IntValue(ai)])]
    case UpdateSubscriberData(s, bit1, sf, dataA) =>
      [StatementBind(UpdateSubscriberBitStmt, [IntValue(BoolInt(bit1)), IntValue(s)]),
       StatementBind(UpdateSpecialFacilityStmt, [IntValue(dataA), IntValue(s), IntValue(sf)])]
    case UpdateLocation(subNbr, vlr) => [StatementBind(UpdateLocationStmt, [IntValue(vlr), TextValue(subNbr)])]
    case InsertCallForwarding(subNbr, sf, start, end, numberx) =>
      [StatementBind(GetSubscriberIdStmt, [TextValue(subNbr)]),
       StatementBind(GetSpecialFacilityTypesStmt, [sId]),
       StatementBind(InsertCallForwardingStmt, [sId, IntValue(sf), IntValue(start), IntValue(end), TextValue(numberx)])]
    case DeleteCallForwarding(subNbr, sf, start) =>
      [StatementBind(GetSubscriberIdStmt, [TextValue(subNbr)]),
       StatementBind(DeleteCallForwardingStmt, [sId, IntValue(sf), IntValue(start)])]
  }

  /**
   * Every bind supplies exactly as many values as its statement takes
   * parameters (Arity, which StatementPlaceholders proves is the statement's
   * number of '?' placeholders).
   */
  lemma BindsMatchPlaceholders(p: Procedure)
    ensures forall b | b in ProcedureBinds(p) :: b.statement < 10 && |b.values| == Arity[b.statement]
  {
  }

  /** The worker's constructor: prepare the ten statements of tatp_statement_sql in index order. */
  method PrepareStatements(prepareRcs: seq<int>) returns (r: Outcome<seq<string>>)
    requires |prepareRcs| == 10
    ensures r.Ok? <==> forall k | 0 <= k < 10 :: prepareRcs[k] == SQLITE_OK
    ensures r.Ok? ==> r.value == StatementSql()
  {
    r := PrepareAll(StatementSql(), prepareRcs);
  }

  /** Prepare each statement in order, expecting SQLITE_OK; the first other code is the fault. */
  method PrepareAll(sql: seq<string>, prepareRcs: seq<int>) returns (r: Outcome<seq<string>>)
    requires |prepareRcs| == |sql|
    ensures r.Ok? <==> forall k | 0 <= k < |sql| :: prepareRcs[k] == SQLITE_OK
    ensures r.Ok? ==> r.value == sql
    ensures r.Fail? ==> exists k | 0 <= k < |sql| ::
      prepareRcs[k] != SQLITE_OK && (forall j | 0 <= j < k :: prepareRcs[j] == SQLITE_OK)
      && r.fault == ExpectFailed(SQLITE_OK, prepareRcs[k])
  {
    var prepared: seq<string> := [];
    for i := 0 to |sql|
      invariant prepared == sql[..i]
      invariant forall j | 0 <= j < i :: prepareRcs[j] == SQLITE_OK
    {
      var ok :- Expect(prepareRcs[i], SQLITE_OK);
      prepared := prepared + [sql[i]];
    }
    assert sql[..|sql|] == sql;
    r := Ok(prepared);
  }

  /** GetSubscriberData: bind s_id to statement 0, execute; always true once both succeed. */
  method GetSubscriberData(s: nat, bindRc: int, executeRc: int) returns (r: Outcome<bool>, sent: StatementBind)
    ensures [sent] == ProcedureBinds(Procedure.GetSubscriberData(s))
    ensures sent.statement < 10 && |sent.values| == Arity[sent.statement]
    ensures r.Ok? <==> bindRc == SQLITE_OK && executeRc == SQLITE_OK
    ensures r.Ok? ==> r.value
    ensures r.Fail? ==> r.fault == ExpectFailed(SQLITE_OK, if bindRc != SQLITE_OK then bindRc else executeRc)
  {
    sent := StatementBind(GetSubscriberStmt, [IntValue(s)]);
    var bound :- Expect(bindRc, SQLITE_OK);
    var executed :- Expect(executeRc, SQLITE_OK);
    r := Ok(true);
  }

  /**
   * GetNewDestination: bind s_id, sf_type, start_time and end_time to
   * statement 1, execute counting rows; true iff a row came back.
   */
  method GetNewDestination(s: nat, sf: nat, start: nat, end: nat, bindRc: int, executeRc: int, count: nat)
    returns (r: Outcome<bool>, sent: StatementBind)
    ensures [sent] == ProcedureBinds(Procedure.GetNewDestination(s, sf, start, end))
    ensures sent.statement < 10 && |sent.values| == Arity[sent.statement]
    ensures r.Ok? <==> bindRc == SQLITE_OK && executeRc == SQLITE_OK
    ensures r.Ok? ==> (r.value <==> count > 0)
    ensures r.Fail? ==> r.fault == ExpectFailed(SQLITE_OK, if bindRc != SQLITE_OK then bindRc else executeRc)
  {
    sent := StatementBind(GetNewDestinationStmt, [IntValue(s), IntValue(sf), IntValue(start), IntValue(end)]);
    var bound :- Expect(bindRc, SQLITE_OK);
    var executed :- Expect(executeRc, SQLITE_OK);
    r := Ok(count > 0);
  }

  /** GetAccessData: bind s_id and ai_type to statement 2, execute counting rows; true iff a row came back. */
  method GetAccessData(s: nat, ai: nat, bindRc: int, executeRc: int, count: nat)
    returns (r: Outcome<bool>, sent: StatementBind)
    ensures [sent] == ProcedureBinds(Procedure.GetAccessData(s, ai))
    ensures sent.statement < 10 && |sent.values| == Arity[sent.statement]
    ensures r.Ok? <==> bindRc == SQLITE_OK && executeRc == SQLITE_OK
    ensures r.Ok? ==> (r.value <==> count > 0)
    ensures r.Fail? ==> r.fault == ExpectFailed(SQLITE_OK, if bindRc != SQLITE_OK then bindRc else executeRc)
  {
    sent := StatementBind(GetAccessDataStmt, [IntValue(s), IntValue(ai)]);
    var bound :- Expect(bindRc, SQLITE_OK);
    var executed :- Expect(executeRc, SQLITE_OK);
    r := Ok(count > 0);
  }

  /** The codes a bind-then-execute pair returns. */
  datatype Run = Run(bind: int, execute: int)

  predicate RunOk(run: Run)
  {
    run.bind == SQLITE_OK && run.execute == SQLITE_OK
  }

  /**
   * UpdateSubscriberData: begin, both updates, commit, every call expected to
   * succeed; true iff the connection reports a change afterwards (`changes`,
   * what sqlite3_changes gives after the commit). `sent` is what was bound
   * before the procedure stopped.
   */
  method UpdateSubscriberData(
    s: nat, bit1: bool, sf: nat, dataA: nat, beginRc: int, subscriber: Run, facility: Run, commitRc: int, changes: int)
    returns (r: Outcome<bool>, sent: seq<StatementBind>)
    ensures sent <= ProcedureBinds(Procedure.UpdateSubscriberData(s, bit1, sf, dataA))
    ensures r.Ok? ==> sent == ProcedureBinds(Procedure.UpdateSubscriberData(s, bit1, sf, dataA))
    ensures beginRc != SQLITE_OK ==> sent == []
    ensures r.Ok? <==> beginRc == SQLITE_OK && RunOk(subscriber) && RunOk(facility) && commitRc == SQLITE_OK
    ensures r.Ok? ==> (r.value <==> changes > 0)
    ensures r.Fail? ==> r.fault.ExpectFailed? && r.fault.expected == SQLITE_OK
  {
    sent := [];
    var begun :- Expect(beginRc, SQLITE_OK);
    sent := sent + [StatementBind(UpdateSubscriberBitStmt, [IntValue(BoolInt(bit1)), IntValue(s)])];
    var bound :- Expect(subscriber.bind, SQLITE_OK);
    var executed :- Expect(subscriber.execute, SQLITE_OK);
    sent := sent + [StatementBind(UpdateSpecialFacilityStmt, [IntValue(dataA), IntValue(s), IntValue(sf)])];
    bound :- Expect(facility.bind, SQLITE_OK);
    executed :- Expect(facility.execute, SQLITE_OK);
    var committed :- Expect(commitRc, SQLITE_OK);
    r := Ok(changes > 0);
  }

  /** UpdateLocation: bind vlr_location and sub_nbr to statement 5, execute; always true once both succeed. */
  method UpdateLocation(subNbr: string, vlr: nat, update: Run) returns (r: Outcome<bool>, sent: StatementBind)
    ensures [sent] == ProcedureBinds(Procedure.UpdateLocation(subNbr, vlr))
    ensures sent.statement < 10 && |sent.values| == Arity[sent.statement]
    ensures r.Ok? <==> RunOk(update)
    ensures r.Ok? ==> r.value
  {
    sent := StatementBind(UpdateLocationStmt, [IntValue(vlr), TextValue(subNbr)]);
    var bound :- Expect(update.bind, SQLITE_OK);
    var executed :- Expect(update.execute, SQLITE_OK);
    r := Ok(true);
  }

  /** The codes of the s_id lookup by sub_nbr: bind, one step (a row expected), reset. */
  datatype Lookup = Lookup(bind: int, step: int, reset: int)

  predicate LookupOk(lookup: Lookup)
  {
    lookup.bind == SQLITE_OK && lookup.step == SQLITE_ROW && lookup.reset == SQLITE_OK
  }

  method LookupSubscriber(lookup: Lookup) returns (r: Outcome<Cell>)
    ensures r.Ok? <==> LookupOk(lookup)
    ensures r.Ok? ==> r.value == Cell(0, 0)
    ensures r.Fail? && lookup.bind == SQLITE_OK && lookup.step != SQLITE_ROW ==> r.fault == ExpectFailed(SQLITE_ROW, lookup.step)
  {
    var bound :- Expect(lookup.bind, SQLITE_OK);
    var stepped :- Expect(lookup.step, SQLITE_ROW);
    var sId := Cell(0, 0);
    var reset :- Expect(lookup.reset, SQLITE_OK);
    r := Ok(sId);
  }

  /**
   * InsertCallForwarding: begin, look up s_id, run the special_facility
   * select, insert. The insert may answer SQLITE_OK (true) or
   * SQLITE_CONSTRAINT (false); any other code fails the expectation of
   * SQLITE_CONSTRAINT. Then commit. `sent` is what was bound before the
   * procedure stopped; the s_id bound is the cell the lookup read back.
   */
  method InsertCallForwarding(
    subNbr: string, sf: nat, start: nat, end: nat, numberx: string,
    beginRc: int, lookup: Lookup, facility: Run, insert: Run, commitRc: int)
    returns (r: Outcome<bool>, sent: seq<StatementBind>)
    ensures sent <= ProcedureBinds(Procedure.InsertCallForwarding(subNbr, sf, start, end, numberx))
    ensures r.Ok? ==> sent == ProcedureBinds(Procedure.InsertCallForwarding(subNbr, sf, start, end, numberx))
    ensures beginRc != SQLITE_OK ==> sent == []
    ensures r.Ok? <==>
      beginRc == SQLITE_OK && LookupOk(lookup) && RunOk(facility) && insert.bind == SQLITE_OK
      && (insert.execute == SQLITE_OK || insert.execute == SQLITE_CONSTRAINT) && commitRc == SQLITE_OK
    ensures r.Ok? ==> (r.value <==> insert.execute == SQLITE_OK) && (!r.value <==> insert.execute == SQLITE_CONSTRAINT)
    ensures beginRc == SQLITE_OK && LookupOk(lookup) && RunOk(facility) && insert.bind == SQLITE_OK
      && insert.execute != SQLITE_OK && insert.execute != SQLITE_CONSTRAINT
      ==> r == Fail(ExpectFailed(SQLITE_CONSTRAINT, insert.execute))
  {
    sent := [];
    var begun :- Expect(beginRc, SQLITE_OK);
    sent := sent + [StatementBind(GetSubscriberIdStmt, [TextValue(subNbr)])];
    var sId :- LookupSubscriber(lookup);
    sent := sent + [StatementBind(GetSpecialFacilityTypesStmt, [CellValue(sId)])];
    var bound :- Expect(facility.bind, SQLITE_OK);
    var executed :- Expect(facility.execute, SQLITE_OK);
    sent := sent + [StatementBind(InsertCallForwardingStmt, [CellValue(sId), IntValue(sf), IntValue(start), IntValue(end), TextValue(numberx)])];
    bound :- Expect(insert.bind, SQLITE_OK);
    var success := true;
    if insert.execute != SQLITE_OK {
      var constraint :- Expect(insert.execute, SQLITE_CONSTRAINT);
      success := false;
    }
    var committed :- Expect(commitRc, SQLITE_OK);
    r := Ok(success);
  }

  /**
   * DeleteCallForwarding: begin, look up s_id, delete, commit; true iff the
   * connection reports a change afterwards. `sent` is what was bound before
   * the procedure stopped.
   */
  method DeleteCallForwarding(
    subNbr: string, sf: nat, start: nat, beginRc: int, lookup: Lookup, delete: Run, commitRc: int, changes: int)
    returns (r: Outcome<bool>, sent: seq<StatementBind>)
    ensures sent <= ProcedureBinds(Procedure.DeleteCallForwarding(subNbr, sf, start))
    ensures r.Ok? ==> sent == ProcedureBinds(Procedure.DeleteCallForwarding(subNbr, sf, start))
    ensures beginRc != SQLITE_OK ==> sent == []
    ensures r.Ok? <==> beginRc == SQLITE_OK && LookupOk(lookup) && RunOk(delete) && commitRc == SQLITE_OK
    ensures r.Ok? ==> (r.value <==> changes > 0)
  {
    sent := [];
    var begun :- Expect(beginRc, SQLITE_OK);
    sent := sent + [StatementBind(GetSubscriberIdStmt, [TextValue(subNbr)])];
    var sId :- LookupSubscriber(lookup);
    sent := sent + [StatementBind(DeleteCallForwardingStmt, [CellValue(sId), IntValue(sf), IntValue(start)])];
    var bound :- Expect(delete.bind, SQLITE_OK);
    var executed :- Expect(delete.execute, SQLITE_OK);
    var committed :- Expect(commitRc, SQLITE_OK);
    r := Ok(changes > 0);
  }
}
