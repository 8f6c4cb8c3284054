/**
 * The bulk serialiser of the two older SQLite TATP loaders: a batch of records
 * becomes one multi-row `INSERT INTO <table> VALUES (...), (...)` statement,
 * each row written by a per-table renderer. tatp_sqlite3.cpp and
 * src/tatp/tatp_sqlite3.cpp share the renderers and the loop word for word;
 * they differ only in how the statement is executed, which their own modules
 * model.
 */
module BulkLoad {
  import opened Text
  import opened Tatp

  // ---------------------------------------------------------------------------
  // Row renderers

  /** A text field as the renderers write it: between single quotes, with no escaping. */
  function Quoted(s: string): string
  {
    "'" + s + "'"
  }

  /** A bool as an ostream writes it without std::boolalpha. */
  function BoolText(b: bool): (s: string)
    ensures s == "1" <==> b
    ensures s == "0" <==> !b
  {
    if b then "1" else "0"
  }

  /** Each bit as the renderer writes it. */
  function BitTexts(bits: seq<bool>): (ts: seq<string>)
    ensures |ts| == |bits|
    decreases |bits|
  {
    if bits == [] then [] else BitTexts(bits[..|bits| - 1]) + [BoolText(bits[|bits| - 1])]
  }

  /** Each number as the renderer writes it. */
  function NatTexts(ns: seq<nat>): (ts: seq<string>)
    ensures |ts| == |ns|
    decreases |ns|
  {
    if ns == [] then [] else NatTexts(ns[..|ns| - 1]) + [IntToString(ns[|ns| - 1])]
  }

  lemma {:induction false} BitTextsAt(bits: seq<bool>, i: nat)
    requires i < |bits|
    ensures BitTexts(bits)[i] == BoolText(bits[i])
    decreases |bits|
  {
    if i < |bits| - 1 {
      BitTextsAt(bits[..|bits| - 1], i);
    }
  }

  lemma {:induction false} NatTextsAt(ns: seq<nat>, i: nat)
    requires i < |ns|
    ensures NatTexts(ns)[i] == IntToString(ns[i])
    decreases |ns|
  {
    if i < |ns| - 1 {
      NatTextsAt(ns[..|ns| - 1], i);
    }
  }

  /**
   * The subscriber renderer: s_id, the quoted sub_nbr, then every bit, hex and
   * byte2 value followed by ", " (three std::copy calls into an
   * ostream_iterator), then msc_location, ", " and vlr_location.
   */
  function RenderSubscriber(r: SubscriberRecord): string
  {
    IntToString(r.sId) + ", '" + r.subNbr + "', "
      + Terminated(BitTexts(r.bit), ", ") + Terminated(NatTexts(r.hex), ", ") + Terminated(NatTexts(r.byte2), ", ")
      + IntToString(r.mscLocation) + ", " + IntToString(r.vlrLocation)
  }

  function RenderAccessInfo(r: AccessInfoRecord): string
  {
    IntToString(r.sId) + ", " + IntToString(r.aiType) + ", " + IntToString(r.data1) + ", " + IntToString(r.data2)
      + ", '" + r.data3 + "', '" + r.data4 + "'"
  }

  function RenderSpecialFacility(r: SpecialFacilityRecord): string
  {
    IntToString(r.sId) + ", " + IntToString(r.sfType) + ", " + BoolText(r.isActive) + ", " + IntToString(r.errorCntrl)
      + ", " + IntToString(r.dataA) + ", '" + r.dataB + "'"
  }

  function RenderCallForwarding(r: CallForwardingRecord): string
  {
    IntToString(r.sId) + ", " + IntToString(r.sfType) + ", " + IntToString(r.startTime) + ", " + IntToString(r.endTime)
      + ", '" + r.numberx + "'"
  }

  // ---------------------------------------------------------------------------
  // The values of a row, one per column (the reference the renderers are proved against)

  /** The 34 SQL literals of a subscriber row, in the order of the subscriber table's columns. */
  function SubscriberValues(r: SubscriberRecord): (vs: seq<string>)
    ensures |vs| == 4 + |r.bit| + |r.hex| + |r.byte2|
  {
    [IntToString(r.sId), Quoted(r.subNbr)] + BitTexts(r.bit) + NatTexts(r.hex) + NatTexts(r.byte2)
      + [IntToString(r.mscLocation), IntToString(r.vlrLocation)]
  }

  /** The SQL literal the loader writes for one field of a subscriber record. */
  function FieldText(r: SubscriberRecord, f: SubscriberField): string
    requires WellFormed(r) && ValidField(f)
  {
    match f
    case SId => IntToString(r.sId)
    case SubNbr => Quoted(r.subNbr)
    case Bit(i) => BoolText(r.bit[i])
    case Hex(i) => IntToString(r.hex[i])
    case Byte2(i) => IntToString(r.byte2[i])
    case MscLocation => IntToString(r.mscLocation)
    case VlrLocation => IntToString(r.vlrLocation)
  }

  function AccessInfoValues(r: AccessInfoRecord): seq<string>
  {
    [IntToString(r.sId), IntToString(r.aiType), IntToString(r.data1), IntToString(r.data2), Quoted(r.data3), Quoted(r.data4)]
  }

  function SpecialFacilityValues(r: SpecialFacilityRecord): seq<string>
  {
    [IntToString(r.sId), IntToString(r.sfType), BoolText(r.isActive), IntToString(r.errorCntrl), IntToString(r.dataA), Quoted(r.dataB)]
  }

  function CallForwardingValues(r: CallForwardingRecord): seq<string>
  {
    [IntToString(r.sId), IntToString(r.sfType), IntToString(r.startTime), IntToString(r.endTime), Quoted(r.numberx)]
  }

  lemma {:induction false} TerminatedAppend(a: seq<string>, b: seq<string>, sep: string)
    ensures Terminated(a + b, sep) == Terminated(a, sep) + Terminated(b, sep)
    decreases |a|
  {
    if a == [] {
      assert a + b == b;
    } else {
      assert (a + b)[0] == a[0];
      assert (a + b)[1..] == a[1..] + b;
      TerminatedAppend(a[1..], b, sep);
      AppendAssoc(a[0] + sep, Terminated(a[1..], sep), Terminated(b, sep));
    }
  }

  lemma JoinCons(x: string, rest: seq<string>, sep: string)
    requires |rest| >= 1
    ensures Join([x] + rest, sep) == x + sep + Join(rest, sep)
  {
    assert ([x] + rest)[1..] == rest;
  }

  /** The renderer's left-to-right stream writes, regrouped as "s_id, 'sub_nbr', <numbers><msc, vlr>". */
  lemma SubscriberRegroup(a: string, q: string, t1: string, t2: string, t3: string, m: string, v: string)
    ensures a + ", '" + q + "', " + t1 + t2 + t3 + m + ", " + v
         == a + ", " + ("'" + q + "'" + ", " + ((t1 + t2 + t3) + (m + ", " + v)))
  {
    assert ", '" == ", " + "'";
    assert "', " == "'" + ", ";
  }

  /** Joining two leading values, some more values and two trailing ones, as the subscriber renderer writes them. */
  lemma JoinShape(a: string, q: string, numbers: seq<string>, m: string, v: string)
    ensures Join([a, q] + numbers + [m, v], ", ") == a + ", " + (q + ", " + (Terminated(numbers, ", ") + (m + ", " + v)))
  {
    var tail := [m, v];
    TerminatedThenJoin(numbers, tail, ", ");
    assert Join(tail, ", ") == m + ", " + v;
    assert [a, q] + numbers + tail == [a] + ([q] + (numbers + tail));
    JoinCons(q, numbers + tail, ", ");
    JoinCons(a, [q] + (numbers + tail), ", ");
  }

  /** A subscriber row is its 34 values joined by ", ". */
  lemma SubscriberRowJoin(r: SubscriberRecord)
    ensures RenderSubscriber(r) == Join(SubscriberValues(r), ", ")
  {
    var bits, hexes, bytes := BitTexts(r.bit), NatTexts(r.hex), NatTexts(r.byte2);
    TerminatedAppend(bits + hexes, bytes, ", ");
    TerminatedAppend(bits, hexes, ", ");
    var a, m, v := IntToString(r.sId), IntToString(r.mscLocation), IntToString(r.vlrLocation);
    AppendAssoc([a, Quoted(r.subNbr)] + bits, hexes, bytes);
    AppendAssoc([a, Quoted(r.subNbr)], bits, hexes);
    assert SubscriberValues(r) == [a, Quoted(r.subNbr)] + (bits + hexes + bytes) + [m, v];
    JoinShape(a, Quoted(r.subNbr), bits + hexes + bytes, m, v);
    SubscriberRegroup(a, r.subNbr, Terminated(bits, ", "), Terminated(hexes, ", "), Terminated(bytes, ", "), m, v);
  }

  /** A well-formed subscriber has 34 values, and the one in position FieldColumn(f) is field f's. */
  lemma SubscriberValuesLayout(r: SubscriberRecord)
    requires WellFormed(r)
    ensures |SubscriberValues(r)| == 34
    ensures forall f | ValidField(f) :: SubscriberValues(r)[FieldColumn(f)] == FieldText(r, f)
  {
    var vs := SubscriberValues(r);
    forall f | ValidField(f)
      ensures vs[FieldColumn(f)] == FieldText(r, f)
    {
      match f
      case Bit(i) => BitTextsAt(r.bit, i); assert vs[i + 2] == BitTexts(r.bit)[i];
      case Hex(i) => NatTextsAt(r.hex, i); assert vs[i + 12] == NatTexts(r.hex)[i];
      case Byte2(i) => NatTextsAt(r.byte2, i); assert vs[i + 22] == NatTexts(r.byte2)[i];
      case _ =>
    }
  }

  lemma Join5(a: string, b: string, c: string, d: string, e: string, sep: string)
    ensures Join([a, b, c, d, e], sep) == a + sep + (b + sep + (c + sep + (d + sep + e)))
  {
    assert [a, b, c, d, e][1..] == [b, c, d, e];
    assert [b, c, d, e][1..] == [c, d, e];
    assert [c, d, e][1..] == [d, e];
    assert [d, e][1..] == [e];
    assert Join([d, e], sep) == d + sep + e;
    assert Join([c, d, e], sep) == c + sep + (d + sep + e);
    assert Join([b, c, d, e], sep) == b + sep + (c + sep + (d + sep + e));
  }

  lemma Join6(a: string, b: string, c: string, d: string, e: string, f: string, sep: string)
    ensures Join([a, b, c, d, e, f], sep) == a + sep + (b + sep + (c + sep + (d + sep + (e + sep + f))))
  {
    assert [a, b, c, d, e, f][1..] == [b, c, d, e, f];
    Join5(b, c, d, e, f, sep);
  }

  /** The other three rows are their values joined by ", ". */
  lemma AccessInfoRowJoin(r: AccessInfoRecord)
    ensures RenderAccessInfo(r) == Join(AccessInfoValues(r), ", ")
  {
    var a, b, c, d := IntToString(r.sId), IntToString(r.aiType), IntToString(r.data1), IntToString(r.data2);
    Join6(a, b, c, d, Quoted(r.data3), Quoted(r.data4), ", ");
    AccessInfoRegroup(a, b, c, d, r.data3, r.data4);
  }

  lemma AccessInfoRegroup(a: string, b: string, c: string, d: string, x: string, y: string)
    ensures a + ", " + b + ", " + c + ", " + d + ", '" + x + "', '" + y + "'"
         == a + ", " + (b + ", " + (c + ", " + (d + ", " + ("'" + x + "'" + ", " + ("'" + y + "'")))))
  {
    assert ", '" == ", " + "'";
    assert "', '" == "'" + ", " + "'";
  }

  lemma SpecialFacilityRowJoin(r: SpecialFacilityRecord)
    ensures RenderSpecialFacility(r) == Join(SpecialFacilityValues(r), ", ")
  {
    var a, b, c, d, e := IntToString(r.sId), IntToString(r.sfType), BoolText(r.isActive), IntToString(r.errorCntrl), IntToString(r.dataA);
    Join6(a, b, c, d, e, Quoted(r.dataB), ", ");
    SpecialFacilityRegroup(a, b, c, d, e, r.dataB);
  }

  lemma SpecialFacilityRegroup(a: string, b: string, c: string, d: string, e: string, x: string)
    ensures a + ", " + b + ", " + c + ", " + d + ", " + e + ", '" + x + "'"
         == a + ", " + (b + ", " + (c + ", " + (d + ", " + (e + ", " + ("'" + x + "'")))))
  {
    assert ", '" == ", " + "'";
  }

  lemma CallForwardingRowJoin(r: CallForwardingRecord)
    ensures RenderCallForwarding(r) == Join(CallForwardingValues(r), ", ")
  {
    var a, b, c, d := IntToString(r.sId), IntToString(r.sfType), IntToString(r.startTime), IntToString(r.endTime);
    Join5(a, b, c, d, Quoted(r.numberx), ", ");
    CallForwardingRegroup(a, b, c, d, r.numberx);
  }

  lemma CallForwardingRegroup(a: string, b: string, c: string, d: string, x: string)
    ensures a + ", " + b + ", " + c + ", " + d + ", '" + x + "'"
         == a + ", " + (b + ", " + (c + ", " + (d + ", " + ("'" + x + "'"))))
  {
    assert ", '" == ", " + "'";
  }

  // ---------------------------------------------------------------------------
  // The batch statement

  /** Each rendered row between parentheses. */
  function Groups(rows: seq<string>): (gs: seq<string>)
    ensures |gs| == |rows| && forall i | 0 <= i < |rows| :: gs[i] == "(" + rows[i] + ")"
  {
    seq(|rows|, (i: int) requires 0 <= i < |rows| => "(" + rows[i] + ")")
  }

  function Rendered<R>(batch: seq<R>, render: R -> string): (rows: seq<string>)
    ensures |rows| == |batch| && forall i | 0 <= i < |batch| :: rows[i] == render(batch[i])
  {
    seq(|batch|, (i: int) requires 0 <= i < |batch| => render(batch[i]))
  }

  /** The statement for a batch: the prefix, then the parenthesised rows in batch order, separated by ", ". */
  function InsertSql(table: string, rows: seq<string>): string
  {
    "INSERT INTO " + table + " VALUES " + Join(Groups(rows), ", ")
  }

  /**
   * load_batch's stream loop for a non-empty batch: "INSERT INTO <table> VALUES ",
   * then for each record "(", its row and ")", and ", " unless it is the last one.
   */
  method WriteInsert<R>(table: string, batch: seq<R>, render: R -> string) returns (sql: string)
    requires |batch| > 0
    ensures sql == InsertSql(table, Rendered(batch, render))
  {
    ghost var gs := Groups(Rendered(batch, render));
    var prefix := "INSERT INTO " + table + " VALUES ";
    sql := prefix;
    var i := 0;
    while i < |batch|
      invariant 0 <= i <= |batch|
      invariant i < |batch| ==> sql == prefix + Terminated(gs[..i], ", ")
      invariant i == |batch| ==> sql == prefix + Join(gs, ", ")
    {
      var group := "(" + render(batch[i]) + ")";
      assert group == gs[i];
      if i + 1 != |batch| {
        TerminatedAppend(gs[..i], [group], ", ");
        assert gs[..i + 1] == gs[..i] + [group];
        sql := sql + group + ", ";
      } else {
        TerminatedThenJoin(gs[..i], [group], ", ");
        assert gs[..i] + [group] == gs;
        sql := sql + group;
      }
      i := i + 1;
    }
  }

  lemma {:induction false} CountGroups(rows: seq<string>, c: char)
    requires c == '(' || c == ')'
    requires forall i | 0 <= i < |rows| :: c !in rows[i]
    ensures Count(Join(Groups(rows), ", "), c) == |rows|
    decreases |rows|
  {
    if rows != [] {
      var g := "(" + rows[0] + ")";
      CountAbsent(rows[0], c);
      CountAppend("(" + rows[0], ")", c);
      CountAppend("(", rows[0], c);
      if |rows| > 1 {
        assert Groups(rows)[1..] == Groups(rows[1..]);
        CountGroups(rows[1..], c);
        CountAppend(g + ", ", Join(Groups(rows[1..]), ", "), c);
        CountAppend(g, ", ", c);
      }
    }
  }

  /**
   * When neither the table name nor any row holds a parenthesis, the statement
   * holds exactly one "(" and one ")" per record: one group per record.
   */
  lemma InsertSqlGroupCount(table: string, rows: seq<string>)
    requires '(' !in table && ')' !in table
    requires forall i | 0 <= i < |rows| :: '(' !in rows[i] && ')' !in rows[i]
    ensures Count(InsertSql(table, rows), '(') == |rows|
    ensures Count(InsertSql(table, rows), ')') == |rows|
  {
    CountAfterPrefix(table, rows, '(');
    CountAfterPrefix(table, rows, ')');
  }

  lemma CountAfterPrefix(table: string, rows: seq<string>, c: char)
    requires c == '(' || c == ')'
    requires c !in table
    requires forall i | 0 <= i < |rows| :: c !in rows[i]
    ensures Count(InsertSql(table, rows), c) == |rows|
  {
    var prefix := "INSERT INTO " + table + " VALUES ";
    assert c !in "INSERT INTO " && c !in " VALUES ";
    assert forall k | 0 <= k < |prefix| :: prefix[k] in "INSERT INTO " || prefix[k] in table || prefix[k] in " VALUES ";
    CountAbsent(prefix, c);
    CountGroups(rows, c);
    CountAppend(prefix, Join(Groups(rows), ", "), c);
  }
}
