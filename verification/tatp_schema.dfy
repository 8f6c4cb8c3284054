/**
 * The TATP schema and statement text shared by the dbbench adapters: DROP and
 * CREATE statements for the four tables, parameterised by the engine's type
 * names and a foreign-key switch, and the ten parameterised transaction
 * statements.
 *
 * A table is described once as a TableDef; CreatePieces says which pieces a
 * CREATE TABLE statement for it is written from, and the builder methods,
 * which write the pieces one by one as the C++ string streams do, are proved
 * to produce exactly that text.
 */
module TatpSchema {
  import opened Text
  import opened Tatp

  /** The engine's names for the five column types the schema uses. */
  datatype TypeNames = TypeNames(boolType: string, uint8Type: string, uint32Type: string, uint64Type: string, stringType: string)

  datatype ColumnDef = ColumnDef(name: string, sqlType: string, unique: bool)

  /** FOREIGN KEY (columns) REFERENCES table (refColumns). */
  datatype ForeignKey = ForeignKey(columns: seq<string>, table: string, refColumns: seq<string>)

  datatype TableDef = TableDef(name: string, columns: seq<ColumnDef>, primaryKey: seq<string>, foreignKey: Option<ForeignKey>)

  // ---------------------------------------------------------------------------
  // Rendering a table definition as CREATE TABLE text

  /** One column: name, type, " UNIQUE" when unique, then the ", " every column is followed by. */
  function ColumnSql(c: ColumnDef): string
  {
    c.name + " " + c.sqlType + (if c.unique then " UNIQUE, " else ", ")
  }

  function ColumnsPieces(cs: seq<ColumnDef>): (ps: seq<string>)
    ensures |ps| == |cs|
    ensures forall i | 0 <= i < |cs| :: ps[i] == ColumnSql(cs[i])
  {
    seq(|cs|, (i: int) requires 0 <= i < |cs| => ColumnSql(cs[i]))
  }

  lemma ColumnsPiecesAppend(a: seq<ColumnDef>, b: seq<ColumnDef>)
    ensures ColumnsPieces(a + b) == ColumnsPieces(a) + ColumnsPieces(b)
  {
  }

  /** The clause ", FOREIGN KEY (...) " and the clause "REFERENCES t (...)". */
  function ForeignKeyPieces(k: ForeignKey): seq<string>
  {
    [", FOREIGN KEY (" + Join(k.columns, ", ") + ") ", "REFERENCES " + k.table + " (" + Join(k.refColumns, ", ") + ")"]
  }

  /**
   * The pieces of a CREATE TABLE statement: the header, one piece per column,
   * the primary key, the foreign key when there is one, the closing ")" and the
   * newline std::endl writes.
   */
  function CreatePieces(t: TableDef): (ps: seq<string>)
    ensures |ps| >= 4 && ps[0] == "CREATE TABLE " + t.name + " ("
    ensures ps[|ps| - 2] == ")" && ps[|ps| - 1] == "\n"
  {
    ["CREATE TABLE " + t.name + " ("] + ColumnsPieces(t.columns)
      + ["PRIMARY KEY (" + Join(t.primaryKey, ", ") + ")"]
      + (match t.foreignKey case Some(k) => ForeignKeyPieces(k) case None => [])
      + [")", "\n"]
  }

  function CreateTableSql(t: TableDef): string
  {
    Concat(CreatePieces(t))
  }

  /** Every CREATE statement starts with "CREATE TABLE <name> (" and ends with ")" and a newline. */
  lemma CreateTableFrame(t: TableDef)
    ensures "CREATE TABLE " + t.name + " (" <= CreateTableSql(t)
    ensures |CreateTableSql(t)| >= 2
    ensures CreateTableSql(t)[|CreateTableSql(t)| - 2..] == ")\n"
  {
    var ps := CreatePieces(t);
    ConcatFirst(ps);
    ConcatLastTwo(ps);
    assert ps[|ps| - 2] + ps[|ps| - 1] == ")\n";
  }

  // ---------------------------------------------------------------------------
  // The four TATP tables

  /** prefix1 .. prefixN, all of one type (bit_1 .. bit_10 and the like). */
  function Numbered(prefix: string, sqlType: string, n: nat): (cs: seq<ColumnDef>)
    ensures |cs| == n
    ensures forall j | 0 <= j < n :: cs[j] == ColumnDef(prefix + NatToString(j + 1), sqlType, false)
  {
    seq(n, (j: int) requires 0 <= j => ColumnDef(prefix + NatToString(j + 1), sqlType, false))
  }

  function SubscriberColumns(types: TypeNames): seq<ColumnDef>
  {
    [ColumnDef("s_id", types.uint64Type, false), ColumnDef("sub_nbr", types.stringType, true)]
      + Numbered("bit_", types.boolType, 10) + Numbered("hex_", types.uint8Type, 10) + Numbered("byte2_", types.uint8Type, 10)
      + [ColumnDef("msc_location", types.uint32Type, false), ColumnDef("vlr_location", types.uint32Type, false)]
  }

  function SubscriberTable(types: TypeNames): TableDef
  {
    TableDef("subscriber", SubscriberColumns(types), ["s_id"], None)
  }

  function AccessInfoColumns(types: TypeNames): seq<ColumnDef>
  {
    [ColumnDef("s_id", types.uint64Type, false), ColumnDef("ai_type", types.uint8Type, false),
     ColumnDef("data1", types.uint8Type, false), ColumnDef("data2", types.uint8Type, false),
     ColumnDef("data3", types.stringType, false), ColumnDef("data4", types.stringType, false)]
  }

  function AccessInfoTable(types: TypeNames, enableForeignKeys: bool): TableDef
  {
    TableDef("access_info",
      AccessInfoColumns(types),
      ["s_id", "ai_type"],
      if enableForeignKeys then Some(ForeignKey(["s_id"], "subscriber", ["s_id"])) else None)
  }

  function SpecialFacilityColumns(types: TypeNames): seq<ColumnDef>
  {
    [ColumnDef("s_id", types.uint64Type, false), ColumnDef("sf_type", types.uint8Type, false),
     ColumnDef("is_active", types.boolType, false), ColumnDef("error_cntrl", types.uint8Type, false),
     ColumnDef("data_a", types.uint8Type, false), ColumnDef("data_b", types.stringType, false)]
  }

  function SpecialFacilityTable(types: TypeNames, enableForeignKeys: bool): TableDef
  {
    TableDef("special_facility",
      SpecialFacilityColumns(types),
      ["s_id", "sf_type"],
      if enableForeignKeys then Some(ForeignKey(["s_id"], "subscriber", ["s_id"])) else None)
  }

  function CallForwardingColumns(types: TypeNames): seq<ColumnDef>
  {
    [ColumnDef("s_id", types.uint64Type, false), ColumnDef("sf_type", types.uint8Type, false),
     ColumnDef("start_time", types.uint8Type, false), ColumnDef("end_time", types.uint8Type, false),
     ColumnDef("numberx", types.stringType, false)]
  }

  function CallForwardingTable(types: TypeNames, enableForeignKeys: bool): TableDef
  {
    TableDef("call_forwarding",
      CallForwardingColumns(types),
      ["s_id", "sf_type", "start_time"],
      if enableForeignKeys then Some(ForeignKey(["s_id", "sf_type"], "special_facility", ["s_id", "sf_type"])) else None)
  }

  /** The tables in the order they are created. */
  function Tables(types: TypeNames, enableForeignKeys: bool): (ts: seq<TableDef>)
    ensures |ts| == 4
  {
    [SubscriberTable(types), AccessInfoTable(types, enableForeignKeys),
     SpecialFacilityTable(types, enableForeignKeys), CallForwardingTable(types, enableForeignKeys)]
  }

  function DropSql(table: string): string
  {
    "DROP TABLE IF EXISTS " + table
  }

  /** What tatp_create_sql returns: a DROP per table, last-created first, then a CREATE per table. */
  function CreateStatements(types: TypeNames, enableForeignKeys: bool): seq<string>
  {
    var ts := Tables(types, enableForeignKeys);
    [DropSql(ts[3].name), DropSql(ts[2].name), DropSql(ts[1].name), DropSql(ts[0].name),
     CreateTableSql(ts[0]), CreateTableSql(ts[1]), CreateTableSql(ts[2]), CreateTableSql(ts[3])]
  }

  // ---------------------------------------------------------------------------
  // Properties of the schema

  function ColumnNames(cs: seq<ColumnDef>): (names: seq<string>)
    ensures |names| == |cs|
    ensures forall i | 0 <= i < |cs| :: names[i] == cs[i].name
  {
    seq(|cs|, (i: int) requires 0 <= i < |cs| => cs[i].name)
  }

  /** The column name the schema gives a subscriber field. */
  function FieldName(f: SubscriberField): string
  {
    match f
    case SId => "s_id"
    case SubNbr => "sub_nbr"
    case Bit(i) => "bit_" + NatToString(i + 1)
    case Hex(i) => "hex_" + NatToString(i + 1)
    case Byte2(i) => "byte2_" + NatToString(i + 1)
    case MscLocation => "msc_location"
    case VlrLocation => "vlr_location"
  }

  /** The type the schema gives a subscriber field. */
  function FieldType(types: TypeNames, f: SubscriberField): string
  {
    match f
    case SId => types.uint64Type
    case SubNbr => types.stringType
    case Bit(_) => types.boolType
    case Hex(_) | Byte2(_) => types.uint8Type
    case MscLocation | VlrLocation => types.uint32Type
  }

  /**
   * The subscriber table has 34 columns, and column FieldColumn(f) is field f
   * with its own name and type; only sub_nbr is UNIQUE, and the key is s_id alone.
   */
  lemma SubscriberLayout(types: TypeNames)
    ensures |SubscriberColumns(types)| == 34
    ensures forall f | ValidField(f) ::
      SubscriberColumns(types)[FieldColumn(f)] == ColumnDef(FieldName(f), FieldType(types, f), f == SubNbr)
    ensures SubscriberTable(types).primaryKey == ["s_id"] && SubscriberTable(types).foreignKey.None?
  {
    var cs := SubscriberColumns(types);
    forall f | ValidField(f)
      ensures cs[FieldColumn(f)] == ColumnDef(FieldName(f), FieldType(types, f), f == SubNbr)
    {
      match f
      case Bit(i) => assert cs[i + 2] == Numbered("bit_", types.boolType, 10)[i];
      case Hex(i) => assert cs[i + 12] == Numbered("hex_", types.uint8Type, 10)[i];
      case Byte2(i) => assert cs[i + 22] == Numbered("byte2_", types.uint8Type, 10)[i];
      case _ =>
    }
  }

  /**
   * Every key names columns of its own table, and every foreign key refers to
   * the whole primary key of a table created before it.
   */
  predicate KeysWellFormed(ts: seq<TableDef>)
  {
    forall i | 0 <= i < |ts| ::
      (forall c | c in ts[i].primaryKey :: c in ColumnNames(ts[i].columns))
      && (ts[i].foreignKey.Some? ==>
            (forall c | c in ts[i].foreignKey.value.columns :: c in ColumnNames(ts[i].columns))
            && exists j | 0 <= j < i :: ts[j].name == ts[i].foreignKey.value.table
                                        && ts[j].primaryKey == ts[i].foreignKey.value.refColumns)
  }

  /**
   * Parents come before children: every foreign key refers to an earlier table,
   * so creating in table order and dropping in reverse order never leaves a
   * dangling reference. Foreign keys exist exactly when they are enabled, on
   * every table but subscriber.
   */
  lemma SchemaKeys(types: TypeNames, enableForeignKeys: bool)
    ensures KeysWellFormed(Tables(types, enableForeignKeys))
    ensures forall i | 0 <= i < 4 :: Tables(types, enableForeignKeys)[i].foreignKey.Some? <==> enableForeignKeys && i > 0
    ensures Tables(types, enableForeignKeys)[1].primaryKey == ["s_id", "ai_type"]
    ensures Tables(types, enableForeignKeys)[2].primaryKey == ["s_id", "sf_type"]
    ensures Tables(types, enableForeignKeys)[3].primaryKey == ["s_id", "sf_type", "start_time"]
  {
    var ts := Tables(types, enableForeignKeys);
    assert "s_id" in ColumnNames(ts[0].columns) by {
      assert ColumnNames(ts[0].columns)[0] == "s_id";
    }
    assert forall c | c in ["s_id", "ai_type"] :: c in ColumnNames(ts[1].columns) by {
      assert ColumnNames(ts[1].columns)[0] == "s_id" && ColumnNames(ts[1].columns)[1] == "ai_type";
    }
    assert forall c | c in ["s_id", "sf_type"] :: c in ColumnNames(ts[2].columns) by {
      assert ColumnNames(ts[2].columns)[0] == "s_id" && ColumnNames(ts[2].columns)[1] == "sf_type";
    }
    assert forall c | c in ["s_id", "sf_type", "start_time"] :: c in ColumnNames(ts[3].columns) by {
      assert ColumnNames(ts[3].columns)[0] == "s_id" && ColumnNames(ts[3].columns)[1] == "sf_type";
      assert ColumnNames(ts[3].columns)[2] == "start_time";
    }
    if enableForeignKeys {
      assert ts[0].name == ts[1].foreignKey.value.table && ts[0].primaryKey == ts[1].foreignKey.value.refColumns;
      assert ts[0].name == ts[2].foreignKey.value.table && ts[0].primaryKey == ts[2].foreignKey.value.refColumns;
      assert ts[2].name == ts[3].foreignKey.value.table && ts[2].primaryKey == ts[3].foreignKey.value.refColumns;
    }
  }

  /**
   * tatp_create_sql's result: eight statements, the DROPs children first and
   * the CREATEs parents first, so the drop order is the reverse of the create
   * order.
   */
  lemma StatementOrder(types: TypeNames, enableForeignKeys: bool)
    ensures |CreateStatements(types, enableForeignKeys)| == 8
    ensures forall i | 0 <= i < 4 ::
      CreateStatements(types, enableForeignKeys)[i] == DropSql(Tables(types, enableForeignKeys)[3 - i].name)
      && CreateStatements(types, enableForeignKeys)[4 + i] == CreateTableSql(Tables(types, enableForeignKeys)[i])
    ensures Tables(types, enableForeignKeys)[0].name == "subscriber" && Tables(types, enableForeignKeys)[1].name == "access_info"
    ensures Tables(types, enableForeignKeys)[2].name == "special_facility" && Tables(types, enableForeignKeys)[3].name == "call_forwarding"
  {
  }

  // ---------------------------------------------------------------------------
  // The builder

  /** `os << piece` on a string stream: the text grows by the piece. */
  method Write(text: string, ghost written: seq<string>, piece: string) returns (text': string, ghost written': seq<string>)
    requires text == Concat(written)
    ensures text' == text + piece && written' == written + [piece] && text' == Concat(written')
  {
    text' := text + piece;
    written' := written + [piece];
    ConcatSnoc(written, piece);
  }

  /**
   * tatp_create_sql: a vector seeded with the four DROPs, children first, then
   * one CREATE per table pushed back in turn.
   */
  method CreateSql(types: TypeNames, enableForeignKeys: bool) returns (sql: seq<string>)
    ensures sql == CreateStatements(types, enableForeignKeys)
  {
    sql := ["DROP TABLE IF EXISTS call_forwarding", "DROP TABLE IF EXISTS special_facility",
            "DROP TABLE IF EXISTS access_info", "DROP TABLE IF EXISTS subscriber"];
    var subscriber := SubscriberCreate(types);
    sql := sql + [subscriber];
    DropLiterals();
    var accessInfo := AccessInfoCreate(types, enableForeignKeys);
    sql := sql + [accessInfo];
    var specialFacility := SpecialFacilityCreate(types, enableForeignKeys);
    sql := sql + [specialFacility];
    var callForwarding := CallForwardingCreate(types, enableForeignKeys);
    sql := sql + [callForwarding];
  }

  lemma NumberedSnoc(prefix: string, sqlType: string, n: nat)
    ensures ColumnsPieces(Numbered(prefix, sqlType, n + 1))
      == ColumnsPieces(Numbered(prefix, sqlType, n)) + [prefix + NatToString(n + 1) + " " + sqlType + ", "]
  {
    assert Numbered(prefix, sqlType, n + 1) == Numbered(prefix, sqlType, n) + [ColumnDef(prefix + NatToString(n + 1), sqlType, false)];
    ColumnsPiecesAppend(Numbered(prefix, sqlType, n), [ColumnDef(prefix + NatToString(n + 1), sqlType, false)]);
  }

  lemma DropLiterals()
    ensures DropSql("call_forwarding") == "DROP TABLE IF EXISTS call_forwarding"
    ensures DropSql("special_facility") == "DROP TABLE IF EXISTS special_facility"
    ensures DropSql("access_info") == "DROP TABLE IF EXISTS access_info"
    ensures DropSql("subscriber") == "DROP TABLE IF EXISTS subscriber"
  {
    DropLiteral("call_forwarding", "DROP TABLE IF EXISTS call_forwarding");
    DropLiteral("special_facility", "DROP TABLE IF EXISTS special_facility");
    DropLiteral("access_info", "DROP TABLE IF EXISTS access_info");
    DropLiteral("subscriber", "DROP TABLE IF EXISTS subscriber");
  }

  lemma DropLiteral(table: string, sql: string)
    requires |sql| == 21 + |table| && sql[..21] == "DROP TABLE IF EXISTS " && sql[21..] == table
    ensures DropSql(table) == sql
  {
    assert sql == sql[..21] + sql[21..];
  }

  /** Appends "<prefix>i <type>, " for i = 1 .. 10, as the three subscriber loops do. */
  method NumberedLoop(text: string, ghost written: seq<string>, prefix: string, sqlType: string)
    returns (text': string, ghost written': seq<string>)
    requires text == Concat(written)
    ensures written' == written + ColumnsPieces(Numbered(prefix, sqlType, 10)) && text' == Concat(written')
  {
    text', written' := text, written;
    assert ColumnsPieces(Numbered(prefix, sqlType, 0)) == [];
    var i := 1;
    while i <= 10
      invariant 1 <= i <= 11
      invariant written' == written + ColumnsPieces(Numbered(prefix, sqlType, i - 1))
      invariant text' == Concat(written')
    {
      NumberedSnoc(prefix, sqlType, i - 1);
      AppendAssoc(written, ColumnsPieces(Numbered(prefix, sqlType, i - 1)), [prefix + NatToString(i) + " " + sqlType + ", "]);
      text', written' := Write(text', written', prefix + NatToString(i) + " " + sqlType + ", ");
      i := i + 1;
    }
  }

  method SubscriberCreate(types: TypeNames) returns (subscriber: string)
    ensures subscriber == CreateTableSql(SubscriberTable(types))
  {
    subscriber := "CREATE TABLE subscriber (";
    ghost var w := [subscriber];
    subscriber, w := SubscriberColumnsWrite(subscriber, w, types);
    subscriber, w := Write(subscriber, w, "PRIMARY KEY (s_id)");
    subscriber, w := Write(subscriber, w, ")");
    subscriber, w := Write(subscriber, w, "\n");
    SubscriberPieces(types);
    assert w == CreatePieces(SubscriberTable(types));
  }

  /** The 34 column pieces of the subscriber stream, the middle 30 written by three loops. */
  method SubscriberColumnsWrite(text: string, ghost written: seq<string>, types: TypeNames)
    returns (text': string, ghost written': seq<string>)
    requires text == Concat(written)
    ensures written' == written + ColumnsPieces(SubscriberColumns(types)) && text' == Concat(written')
  {
    text', written' := Write(text, written, "s_id " + types.uint64Type + ", ");
    text', written' := Write(text', written', "sub_nbr " + types.stringType + " UNIQUE, ");
    ghost var w0 := written';
    text', written' := NumberedLoop(text', written', "bit_", types.boolType);
    ghost var w1 := written';
    text', written' := NumberedLoop(text', written', "hex_", types.uint8Type);
    ghost var w2 := written';
    text', written' := NumberedLoop(text', written', "byte2_", types.uint8Type);
    ghost var w3 := written';
    text', written' := Write(text', written', "msc_location " + types.uint32Type + ", ");
    text', written' := Write(text', written', "vlr_location " + types.uint32Type + ", ");
    SubscriberColumnPieces(types);
    ghost var bits := ColumnsPieces(Numbered("bit_", types.boolType, 10));
    ghost var hexes := ColumnsPieces(Numbered("hex_", types.uint8Type, 10));
    ghost var bytes := ColumnsPieces(Numbered("byte2_", types.uint8Type, 10));
    ghost var head := ["s_id " + types.uint64Type + ", ", "sub_nbr " + types.stringType + " UNIQUE, "];
    ghost var tail := ["msc_location " + types.uint32Type + ", ", "vlr_location " + types.uint32Type + ", "];
    assert w0 == written + head;
    AppendAssoc(written, head, bits);
    AppendAssoc(written, head + bits, hexes);
    AppendAssoc(written, head + bits + hexes, bytes);
    assert written' == w3 + tail;
    AppendAssoc(written, head + bits + hexes + bytes, tail);
  }

  lemma SubscriberPieces(types: TypeNames)
    ensures CreatePieces(SubscriberTable(types)) ==
      ["CREATE TABLE subscriber ("] + ColumnsPieces(SubscriberColumns(types)) + ["PRIMARY KEY (s_id)", ")", "\n"]
  {
    var t := SubscriberTable(types);
    assert "CREATE TABLE " + t.name + " (" == "CREATE TABLE subscriber (";
    assert "PRIMARY KEY (" + Join(t.primaryKey, ", ") + ")" == "PRIMARY KEY (s_id)";
  }

  lemma SubscriberColumnPieces(types: TypeNames)
    ensures ColumnsPieces(SubscriberColumns(types)) ==
      ["s_id " + types.uint64Type + ", ", "sub_nbr " + types.stringType + " UNIQUE, "]
      + ColumnsPieces(Numbered("bit_", types.boolType, 10)) + ColumnsPieces(Numbered("hex_", types.uint8Type, 10))
      + ColumnsPieces(Numbered("byte2_", types.uint8Type, 10))
      + ["msc_location " + types.uint32Type + ", ", "vlr_location " + types.uint32Type + ", "]
  {
    var head := [ColumnDef("s_id", types.uint64Type, false), ColumnDef("sub_nbr", types.stringType, true)];
    var tail := [ColumnDef("msc_location", types.uint32Type, false), ColumnDef("vlr_location", types.uint32Type, false)];
    var bits := Numbered("bit_", types.boolType, 10);
    var hexes := Numbered("hex_", types.uint8Type, 10);
    var bytes := Numbered("byte2_", types.uint8Type, 10);
    ColumnsPiecesAppend(head + bits + hexes + bytes, tail);
    ColumnsPiecesAppend(head + bits + hexes, bytes);
    ColumnsPiecesAppend(head + bits, hexes);
    ColumnsPiecesAppend(head, bits);
    SubscriberEnds(types);
  }

  lemma SubscriberEnds(types: TypeNames)
    ensures ColumnsPieces([ColumnDef("s_id", types.uint64Type, false), ColumnDef("sub_nbr", types.stringType, true)])
      == ["s_id " + types.uint64Type + ", ", "sub_nbr " + types.stringType + " UNIQUE, "]
    ensures ColumnsPieces([ColumnDef("msc_location", types.uint32Type, false), ColumnDef("vlr_location", types.uint32Type, false)])
      == ["msc_location " + types.uint32Type + ", ", "vlr_location " + types.uint32Type + ", "]
  {
    assert "s_id" + " " == "s_id ";
    assert "sub_nbr" + " " == "sub_nbr ";
    assert "msc_location" + " " == "msc_location ";
    assert "vlr_location" + " " == "vlr_location ";
  }

  /**
   * The end of a CREATE TABLE stream: the primary key, the two-part foreign
   * key when foreign keys are enabled, the closing parenthesis and std::endl.
   */
  method KeysWrite(text: string, ghost written: seq<string>, primaryKey: string,
                   enableForeignKeys: bool, foreignKey: string, references: string)
    returns (text': string, ghost written': seq<string>)
    requires text == Concat(written)
    ensures written' == written + ([primaryKey] + (if enableForeignKeys then [foreignKey, references] else []) + [")", "\n"])
    ensures text' == Concat(written')
  {
    text', written' := Write(text, written, primaryKey);
    if enableForeignKeys {
      text', written' := Write(text', written', foreignKey);
      text', written' := Write(text', written', references);
    }
    text', written' := Write(text', written', ")");
    text', written' := Write(text', written', "\n");
  }

  method AccessInfoCreate(types: TypeNames, enableForeignKeys: bool) returns (accessInfo: string)
    ensures accessInfo == CreateTableSql(AccessInfoTable(types, enableForeignKeys))
  {
    accessInfo := "CREATE TABLE access_info (";
    ghost var w := [accessInfo];
    accessInfo, w := AccessInfoColumnsWrite(accessInfo, w, types);
    accessInfo, w := KeysWrite(accessInfo, w, "PRIMARY KEY (s_id, ai_type)", enableForeignKeys, ", FOREIGN KEY (s_id) ", "REFERENCES subscriber (s_id)");
    AccessInfoPieces(types, enableForeignKeys);
  }

  /** The column pieces of the access_info stream, one per column, in declaration order. */
  method AccessInfoColumnsWrite(text: string, ghost written: seq<string>, types: TypeNames)
    returns (text': string, ghost written': seq<string>)
    requires text == Concat(written)
    ensures written' == written + ColumnsPieces(AccessInfoColumns(types)) && text' == Concat(written')
  {
    text', written' := Write(text, written, "s_id " + types.uint64Type + ", ");
    text', written' := Write(text', written', "ai_type " + types.uint8Type + ", ");
    text', written' := Write(text', written', "data1 " + types.uint8Type + ", ");
    text', written' := Write(text', written', "data2 " + types.uint8Type + ", ");
    text', written' := Write(text', written', "data3 " + types.stringType + ", ");
    text', written' := Write(text', written', "data4 " + types.stringType + ", ");
    AccessInfoColumnPieces(types);
  }

  lemma AccessInfoPieces(types: TypeNames, enableForeignKeys: bool)
    ensures CreatePieces(AccessInfoTable(types, enableForeignKeys)) ==
      ["CREATE TABLE access_info ("] + ColumnsPieces(AccessInfoColumns(types)) + (["PRIMARY KEY (s_id, ai_type)"]
      + (if enableForeignKeys then [", FOREIGN KEY (s_id) ", "REFERENCES subscriber (s_id)"] else []) + [")", "\n"])
  {
    var t := AccessInfoTable(types, enableForeignKeys);
    assert "CREATE TABLE " + t.name + " (" == "CREATE TABLE access_info (";
    AccessInfoKey();
    SubscriberReference();
  }

  lemma AccessInfoKey()
    ensures "PRIMARY KEY (" + Join(["s_id", "ai_type"], ", ") + ")" == "PRIMARY KEY (s_id, ai_type)"
  {
    assert Join(["s_id", "ai_type"], ", ") == "s_id, ai_type";
  }

  lemma AccessInfoColumnPieces(types: TypeNames)
    ensures ColumnsPieces(AccessInfoColumns(types)) == ["s_id " + types.uint64Type + ", ", "ai_type " + types.uint8Type + ", ", "data1 " + types.uint8Type + ", ", "data2 " + types.uint8Type + ", ", "data3 " + types.stringType + ", ", "data4 " + types.stringType + ", "]
  {
    assert "s_id" + " " == "s_id ";
    assert "ai_type" + " " == "ai_type ";
    assert "data1" + " " == "data1 ";
    assert "data2" + " " == "data2 ";
    assert "data3" + " " == "data3 ";
    assert "data4" + " " == "data4 ";
  }

  lemma SubscriberReference()
    ensures ForeignKeyPieces(ForeignKey(["s_id"], "subscriber", ["s_id"])) == [", FOREIGN KEY (s_id) ", "REFERENCES subscriber (s_id)"]
  {
    assert ", FOREIGN KEY (" + Join(["s_id"], ", ") + ") " == ", FOREIGN KEY (s_id) ";
    assert "REFERENCES " + "subscriber" + " (" + Join(["s_id"], ", ") + ")" == "REFERENCES subscriber (s_id)";
  }

  method SpecialFacilityCreate(types: TypeNames, enableForeignKeys: bool) returns (specialFacility: string)
    ensures specialFacility == CreateTableSql(SpecialFacilityTable(types, enableForeignKeys))
  {
    specialFacility := "CREATE TABLE special_facility (";
    ghost var w := [specialFacility];
    specialFacility, w := SpecialFacilityColumnsWrite(specialFacility, w, types);
    specialFacility, w := KeysWrite(specialFacility, w, "PRIMARY KEY (s_id, sf_type)", enableForeignKeys, ", FOREIGN KEY (s_id) ", "REFERENCES subscriber (s_id)");
    SpecialFacilityPieces(types, enableForeignKeys);
  }

  /** The column pieces of the special_facility stream, one per column, in declaration order. */
  method SpecialFacilityColumnsWrite(text: string, ghost written: seq<string>, types: TypeNames)
    returns (text': string, ghost written': seq<string>)
    requires text == Concat(written)
    ensures written' == written + ColumnsPieces(SpecialFacilityColumns(types)) && text' == Concat(written')
  {
    text', written' := Write(text, written, "s_id " + types.uint64Type + ", ");
    text', written' := Write(text', written', "sf_type " + types.uint8Type + ", ");
    text', written' := Write(text', written', "is_active " + types.boolType + ", ");
    text', written' := Write(text', written', "error_cntrl " + types.uint8Type + ", ");
    text', written' := Write(text', written', "data_a " + types.uint8Type + ", ");
    text', written' := Write(text', written', "data_b " + types.stringType + ", ");
    SpecialFacilityColumnPieces(types);
  }

  lemma SpecialFacilityPieces(types: TypeNames, enableForeignKeys: bool)
    ensures CreatePieces(SpecialFacilityTable(types, enableForeignKeys)) ==
      ["CREATE TABLE special_facility ("] + ColumnsPieces(SpecialFacilityColumns(types)) + (["PRIMARY KEY (s_id, sf_type)"]
      + (if enableForeignKeys then [", FOREIGN KEY (s_id) ", "REFERENCES subscriber (s_id)"] else []) + [")", "\n"])
  {
    var t := SpecialFacilityTable(types, enableForeignKeys);
    assert "CREATE TABLE " + t.name + " (" == "CREATE TABLE special_facility (";
    SpecialFacilityKey();
    SubscriberReference();
  }

  lemma SpecialFacilityKey()
    ensures "PRIMARY KEY (" + Join(["s_id", "sf_type"], ", ") + ")" == "PRIMARY KEY (s_id, sf_type)"
  {
    assert Join(["s_id", "sf_type"], ", ") == "s_id, sf_type";
  }

  lemma SpecialFacilityColumnPieces(types: TypeNames)
    ensures ColumnsPieces(SpecialFacilityColumns(types)) == ["s_id " + types.uint64Type + ", ", "sf_type " + types.uint8Type + ", ", "is_active " + types.boolType + ", ", "error_cntrl " + types.uint8Type + ", ", "data_a " + types.uint8Type + ", ", "data_b " + types.stringType + ", "]
  {
    assert "s_id" + " " == "s_id ";
    assert "sf_type" + " " == "sf_type ";
    assert "is_active" + " " == "is_active ";
    assert "error_cntrl" + " " == "error_cntrl ";
    assert "data_a" + " " == "data_a ";
    assert "data_b" + " " == "data_b ";
  }

  method CallForwardingCreate(types: TypeNames, enableForeignKeys: bool) returns (callForwarding: string)
    ensures callForwarding == CreateTableSql(CallForwardingTable(types, enableForeignKeys))
  {
    callForwarding := "CREATE TABLE call_forwarding (";
    ghost var w := [callForwarding];
    callForwarding, w := CallForwardingColumnsWrite(callForwarding, w, types);
    callForwarding, w := KeysWrite(callForwarding, w, "PRIMARY KEY (s_id, sf_type, start_time)", enableForeignKeys, ", FOREIGN KEY (s_id, sf_type) ", "REFERENCES special_facility (s_id, sf_type)");
    CallForwardingPieces(types, enableForeignKeys);
  }

  /** The column pieces of the call_forwarding stream, one per column, in declaration order. */
  method CallForwardingColumnsWrite(text: string, ghost written: seq<string>, types: TypeNames)
    returns (text': string, ghost written': seq<string>)
    requires text == Concat(written)
    ensures written' == written + ColumnsPieces(CallForwardingColumns(types)) && text' == Concat(written')
  {
    text', written' := Write(text, written, "s_id " + types.uint64Type + ", ");
    text', written' := Write(text', written', "sf_type " + types.uint8Type + ", ");
    text', written' := Write(text', written', "start_time " + types.uint8Type + ", ");
    text', written' := Write(text', written', "end_time " + types.uint8Type + ", ");
    text', written' := Write(text', written', "numberx " + types.stringType + ", ");
    CallForwardingColumnPieces(types);
  }

  lemma CallForwardingPieces(types: TypeNames, enableForeignKeys: bool)
    ensures CreatePieces(CallForwardingTable(types, enableForeignKeys)) ==
      ["CREATE TABLE call_forwarding ("] + ColumnsPieces(CallForwardingColumns(types)) + (["PRIMARY KEY (s_id, sf_type, start_time)"]
      + (if enableForeignKeys then [", FOREIGN KEY (s_id, sf_type) ", "REFERENCES special_facility (s_id, sf_type)"] else []) + [")", "\n"])
  {
    var t := CallForwardingTable(types, enableForeignKeys);
    assert "CREATE TABLE " + t.name + " (" == "CREATE TABLE call_forwarding (";
    CallForwardingKey();
    SpecialFacilityReference();
  }

  lemma CallForwardingKey()
    ensures "PRIMARY KEY (" + Join(["s_id", "sf_type", "start_time"], ", ") + ")" == "PRIMARY KEY (s_id, sf_type, start_time)"
  {
    assert Join(["s_id", "sf_type", "start_time"], ", ") == "s_id, sf_type, start_time";
  }

  lemma CallForwardingColumnPieces(types: TypeNames)
    ensures ColumnsPieces(CallForwardingColumns(types)) == ["s_id " + types.uint64Type + ", ", "sf_type " + types.uint8Type + ", ", "start_time " + types.uint8Type + ", ", "end_time " + types.uint8Type + ", ", "numberx " + types.stringType + ", "]
  {
    assert "s_id" + " " == "s_id ";
    assert "sf_type" + " " == "sf_type ";
    assert "start_time" + " " == "start_time ";
    assert "end_time" + " " == "end_time ";
    assert "numberx" + " " == "numberx ";
  }

  lemma SpecialFacilityReference()
    ensures ForeignKeyPieces(ForeignKey(["s_id", "sf_type"], "special_facility", ["s_id", "sf_type"]))
      == [", FOREIGN KEY (s_id, sf_type) ", "REFERENCES special_facility (s_id, sf_type)"]
  {
    SpecialFacilityKeyColumns();
    SpecialFacilityKeyClause();
    SpecialFacilityReferenceClause();
  }

  lemma SpecialFacilityKeyColumns()
    ensures Join(["s_id", "sf_type"], ", ") == "s_id, sf_type"
  {
  }

  lemma SpecialFacilityKeyClause()
    ensures ", FOREIGN KEY (" + "s_id, sf_type" + ") " == ", FOREIGN KEY (s_id, sf_type) "
  {
  }

  lemma SpecialFacilityReferenceClause()
    ensures "REFERENCES " + "special_facility" + " (" + "s_id, sf_type" + ")" == "REFERENCES special_facility (s_id, sf_type)"
  {
  }
}
