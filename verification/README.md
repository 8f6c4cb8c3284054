# TATP clients, SQLite wrappers and profile folds, modelled in Dafny

This project models the core of *SQLite: past, present and future*. That
repository holds the benchmark programs behind a comparison of SQLite and
DuckDB. The model covers three parts of it.

- **The TATP clients.** Each one runs the seven TATP procedures against an
  embedded engine: GetSubscriberData, GetNewDestination, GetAccessData,
  UpdateSubscriberData, UpdateLocation, InsertCallForwarding and
  DeleteCallForwarding. Each reports what happened. The model covers:
  - the legacy SQLite client (`tatp_sqlite3.cpp`);
  - the txbench SQLite client (`src/tatp/tatp_sqlite3.cpp`);
  - the txbench DuckDB client (`src/tatp/tatp_duckdb.cpp`);
  - the dbbench SQLite program (`src/benchmarks/tatp/tatp_sqlite3.cpp`);
  - the dbbench DuckDB program (`src/benchmarks/tatp/tatp_duckdb.cpp`);
  - the shared DDL and statement text (`src/benchmarks/tatp/helpers.hpp`).

  The loaders are modelled too: the batch `INSERT ... VALUES` renderers and
  the dbbench SQLite bind-and-execute loader.
- **The two SQLite wrappers.** These are `src/sqlite3.hpp` and
  `src/systems/sqlite/sqlite3.hpp`. The model covers:
  - how each result code becomes success, a row, done or an exception;
  - the text of the exceptions;
  - the begin/commit statements that a connection prepares once and then
    steps and resets.
- **The profile folds** (`analysis/analysis.py`, `analysis/profile.py`).
  Each profile file is folded into a map from symbol to total ticks. The
  per-query maps are gathered per configuration. Columns are then split at
  5e8 ticks into kept columns and an `other` column.

The engine's answers are inputs to the model. This covers result codes,
cursors that yield `rows` rows and then a final code, DuckDB query results
(`success`, error text, the row counts of the chunks, the first value),
`sqlite3_changes` and the error strings. A value read from a result row is
the symbolic cell `Cell(row, column)`. So "this field is read from that
column" is an exact statement. A failed `assert`, a non-OK SQLite code, an
`expect` that fails and a thrown `runtime_error` are the faults of an
`Outcome`. Every `assert` is checked, as in a debug build. A result code the client returns (`SUCCESS`, `MISSING`,
`CONSTRAINT`, `FAILURE`) is a `ReturnCode`.

The clients' documented contract reports an expected miss as a boolean
outcome. Where the code does otherwise, the model follows the code:
- the legacy and txbench clients return the four-valued code;
- the txbench SQLite delete never reports `MISSING` (Findings);
- the dbbench DuckDB insert always returns false (Findings).
- the legacy insert, prepared with the legacy `sqlite3_prepare`, fails its assert on a duplicate key instead of reporting `CONSTRAINT` (Findings).

## Model

| member | source | states |
|---|---|---|
| Text.IntToStringRoundTrip | src/benchmarks/tatp/tatp_sqlite3.cpp:47-61 | The decimal text of every integer, as the loaders write it, parses back to that integer |
| Text.Split | analysis/profile.py:16 | `str.split()` gives only non-empty tokens free of whitespace |
| Text.SplitJoin | analysis/profile.py:16 | Splitting tokens joined by single spaces gives back exactly those tokens |
| Text.ParseInt | analysis/profile.py:17 | `int(...)` yields a value only for non-empty text; its inverse is stated by IntToStringRoundTrip |
| Tatp.Assert | tatp_sqlite3.cpp:276-291 | A failed `assert` is the fault AssertFailed, and it happens exactly when the condition is false |
| Tatp.StepCode | src/sqlite3.hpp:120-130 | A statement answers SQLITE_ROW for exactly its first `rows` steps, then its final code |
| Tatp.StepPastRows | src/tatp/tatp_sqlite3.cpp:144-148 | The row loop of a query ends on the cursor's final code, after every row has been stepped |
| Tatp.ColumnCells | src/tatp/tatp_sqlite3.cpp:144-149 | Collecting one column over n rows gives n cells, the k-th from row k of that column |
| Tatp.BoolInt | src/benchmarks/tatp/tatp_sqlite3.cpp:47-61 | A bool is bound as 1 exactly when it is true, otherwise as 0 |
| Tatp.FieldColumn | src/tatp/tatp_sqlite3.cpp:116-127 | Every subscriber field has a column below 34 |
| Tatp.FieldAt | src/tatp/tatp_sqlite3.cpp:116-127 | Every column below 34 names a valid subscriber field |
| Tatp.FieldColumnBijection | src/benchmarks/tatp/helpers.hpp:35-51 | Field-to-column and column-to-field are inverse; the 34 subscriber columns are exactly the fields |
| Tatp.AccessColumn | tatp_sqlite3.cpp:194-198 | Each access field is read from the result column where the select list `data1, data2, data3, data4` names it |
| Tatp.AccessColumnInjective | tatp_sqlite3.cpp:194-198 | Two access fields share a result column only if they are the same field |
| Tatp.ReadAccessRow | src/tatp/tatp_sqlite3.cpp:166-169 | Each of data1..data4 holds the row's cell in the column where the lookup's select list names that field |
| Tatp.ReadColumns | src/tatp/tatp_sqlite3.cpp:116-127 | A loop reading n consecutive columns from `first` gets cell first+i at position i |
| Tatp.ReadSubscriber | src/tatp/tatp_sqlite3.cpp:116-127 | Every subscriber field is read from its own column of the row |
| Tatp.StatementFileInjective | src/tatp/tatp_sqlite3.cpp:97-100 | Different statement indices name different files |
| Tatp.StatementFiles | src/tatp/tatp_sqlite3.cpp:97-100 | The constructor's loop reads ten statement files, file i for statement i |
| TatpSchema.CreatePieces | src/benchmarks/tatp/helpers.hpp:35-51 | A CREATE TABLE starts with `CREATE TABLE <name> (` and ends with `)` and a newline |
| TatpSchema.CreateTableFrame | src/benchmarks/tatp/helpers.hpp:35-51 | Every rendered CREATE TABLE starts with its table's header and ends in `)\n` |
| TatpSchema.Numbered | src/benchmarks/tatp/helpers.hpp:39-47 | The numbered columns are `prefix1` .. `prefixN`, all of one type |
| TatpSchema.Tables | src/benchmarks/tatp/helpers.hpp:26-99 | There are exactly four tables |
| TatpSchema.SubscriberLayout | src/benchmarks/tatp/helpers.hpp:35-51 | The subscriber table has 34 columns; each field's column has that field's name and type; only sub_nbr is UNIQUE; the key is s_id |
| TatpSchema.SchemaKeys | src/benchmarks/tatp/helpers.hpp:53-96 | The primary keys are as in TATP. Foreign keys appear exactly on the three child tables, and only when enabled. Each references its parent's key |
| TatpSchema.StatementOrder | src/benchmarks/tatp/helpers.hpp:26-99 | The eight statements are the four drops in child-first order, then the four creates in parent-first order |
| TatpSchema.DropLiterals | src/benchmarks/tatp/helpers.hpp:30-33 | Each drop is `DROP TABLE IF EXISTS <table>` |
| TatpSchema.CreateSql | src/benchmarks/tatp/helpers.hpp:26-99 | The stream-building function returns exactly the eight drop/create statements of the schema |
| TatpSchema.NumberedLoop | src/benchmarks/tatp/helpers.hpp:39-47 | The ten-iteration loop appends exactly the pieces of the ten numbered columns |
| TatpSchema.SubscriberCreate | src/benchmarks/tatp/helpers.hpp:35-51 | The streamed subscriber statement is the subscriber table's CREATE TABLE |
| TatpSchema.SubscriberColumnsWrite | src/benchmarks/tatp/helpers.hpp:37-49 | Streaming the subscriber columns appends exactly their pieces |
| TatpSchema.SubscriberPieces | src/benchmarks/tatp/helpers.hpp:35-51 | The subscriber statement's pieces: header, columns, `PRIMARY KEY (s_id)`, `)`, newline |
| TatpSchema.SubscriberColumnPieces | src/benchmarks/tatp/helpers.hpp:37-49 | s_id, sub_nbr UNIQUE, bit_1..10, hex_1..10, byte2_1..10, msc_location, vlr_location, in that order |
| TatpSchema.KeysWrite | src/benchmarks/tatp/helpers.hpp:61-65 | The key clause is written, then the foreign key only when enabled, then the close |
| TatpSchema.AccessInfoCreate | src/benchmarks/tatp/helpers.hpp:53-66 | The streamed access_info statement is that table's CREATE TABLE |
| TatpSchema.AccessInfoColumnsWrite | src/benchmarks/tatp/helpers.hpp:55-60 | Streaming the access_info columns appends exactly their pieces |
| TatpSchema.AccessInfoPieces | src/benchmarks/tatp/helpers.hpp:53-66 | access_info: six columns, key (s_id, ai_type), with the foreign key to subscriber only when enabled |
| TatpSchema.AccessInfoColumnPieces | src/benchmarks/tatp/helpers.hpp:55-60 | The access_info columns with their type names, in order |
| TatpSchema.SpecialFacilityCreate | src/benchmarks/tatp/helpers.hpp:68-81 | The streamed special_facility statement is that table's CREATE TABLE |
| TatpSchema.SpecialFacilityColumnsWrite | src/benchmarks/tatp/helpers.hpp:70-75 | Streaming the special_facility columns appends exactly their pieces |
| TatpSchema.SpecialFacilityPieces | src/benchmarks/tatp/helpers.hpp:68-81 | special_facility: six columns, key (s_id, sf_type), with the foreign key to subscriber only when enabled |
| TatpSchema.SpecialFacilityColumnPieces | src/benchmarks/tatp/helpers.hpp:70-75 | The special_facility columns with their type names, in order |
| TatpSchema.CallForwardingCreate | src/benchmarks/tatp/helpers.hpp:83-96 | The streamed call_forwarding statement is that table's CREATE TABLE |
| TatpSchema.CallForwardingColumnsWrite | src/benchmarks/tatp/helpers.hpp:85-89 | Streaming the call_forwarding columns appends exactly their pieces |
| TatpSchema.CallForwardingPieces | src/benchmarks/tatp/helpers.hpp:83-96 | call_forwarding: five columns, key (s_id, sf_type, start_time), foreign key (s_id, sf_type) to special_facility only when enabled |
| TatpSchema.CallForwardingColumnPieces | src/benchmarks/tatp/helpers.hpp:85-89 | The call_forwarding columns with their type names, in order |
| TatpStatements.StatementSql | src/benchmarks/tatp/helpers.hpp:101-141 | There are exactly ten worker statements |
| TatpStatements.TemplateShape | src/benchmarks/tatp/helpers.hpp:101-141 | Statement k is its fixed text with exactly its arity of parameter slots, and it ends in `;` |
| TatpStatements.AccessLookupSelectList | src/benchmarks/tatp/helpers.hpp:112-114 | The access_info lookup selects exactly the select list the access fields are mapped through, in its order |
| TatpStatements.StatementPlaceholders | src/benchmarks/tatp/helpers.hpp:101-141 | Each of the ten statements has as many `?` as its procedure binds values, and ends in `;` |
| BulkLoad.BoolText | tatp_sqlite3.cpp:93-106 | A bool renders as `1` exactly when true and `0` exactly when false |
| BulkLoad.SubscriberRowJoin | tatp_sqlite3.cpp:93-106 | A rendered subscriber row is its 34 values joined by `, ` |
| BulkLoad.SubscriberValuesLayout | tatp_sqlite3.cpp:93-106 | The rendered row has 34 values; the value at each field's column is that field's text: a quoted sub_nbr, 1/0 bits, decimal numbers |
| BulkLoad.AccessInfoRowJoin | tatp_sqlite3.cpp:108-116 | A rendered access_info row is its six values joined by `, `, with data3 and data4 quoted |
| BulkLoad.SpecialFacilityRowJoin | tatp_sqlite3.cpp:118-126 | A rendered special_facility row is its six values joined by `, `, with data_b quoted |
| BulkLoad.CallForwardingRowJoin | tatp_sqlite3.cpp:128-136 | A rendered call_forwarding row is its five values joined by `, `, with numberx quoted |
| BulkLoad.Groups | tatp_sqlite3.cpp:143-154 | Each rendered row becomes one parenthesised group, in order |
| BulkLoad.Rendered | tatp_sqlite3.cpp:143-154 | The batch is rendered record by record, in order |
| BulkLoad.WriteInsert | tatp_sqlite3.cpp:139-160 | The streamed text is `INSERT INTO <table> VALUES` followed by the batch's groups |
| BulkLoad.InsertSqlGroupCount | tatp_sqlite3.cpp:139-160 | The insert has exactly one `(` and one `)` per record |
| LegacySqliteTatp.LoadBatch | tatp_sqlite3.cpp:139-160 | An empty batch executes nothing. Otherwise exactly the batch's INSERT is executed, and a non-OK code is an assertion failure |
| LegacySqliteTatp.LoadSubscriberBatch | tatp_sqlite3.cpp:93-106 | The subscriber batch is loaded with the subscriber renderer into `subscriber` |
| LegacySqliteTatp.LoadAccessInfoBatch | tatp_sqlite3.cpp:108-116 | The access_info batch is loaded into `access_info` |
| LegacySqliteTatp.LoadSpecialFacilityBatch | tatp_sqlite3.cpp:118-126 | The special_facility batch is loaded into `special_facility` |
| LegacySqliteTatp.LoadCallForwardingBatch | tatp_sqlite3.cpp:128-136 | The call_forwarding batch is loaded into `call_forwarding` |
| LegacySqliteTatp.GetSubscriberData | tatp_sqlite3.cpp:261-301 | Succeeds exactly when every bind is OK, one row comes back, the next step is DONE and the reset is OK. Every field is then read from its own column |
| LegacySqliteTatp.GetNewDestination | tatp_sqlite3.cpp:303-337 | SUCCESS exactly when some row came back, MISSING when none did. numberx is column 0 of every row |
| LegacySqliteTatp.GetAccessData | tatp_sqlite3.cpp:339-370 | At most one row. SUCCESS on one and MISSING on none; data is the as-written read of that row |
| LegacySqliteTatp.AccessDataMisread | tatp_sqlite3.cpp:357-358 | The as-written read does not give the row's access data: data3 equals data4 and is not column 2 |
| LegacySqliteTatp.GetAccessDataCorrected | tatp_sqlite3.cpp:339-370 | The same outcomes as GetAccessData, and the data returned on SUCCESS is the row's columns 0..3 |
| LegacySqliteTatp.UpdateSubscriberData | tatp_sqlite3.cpp:372-419 | The subscriber update must change one row and the facility update zero or one. The result is MISSING exactly when the connection's last change count is 0 |
| LegacySqliteTatp.UpdateLocation | tatp_sqlite3.cpp:421-441 | Succeeds exactly when the update steps to DONE with one change and resets OK; always SUCCESS |
| LegacySqliteTatp.InsertCallForwarding | tatp_sqlite3.cpp:443-519 | Succeeds exactly when every assertion holds, including the insert step being DONE with one change or CONSTRAINT with none. The result is CONSTRAINT exactly when the insert's reset answers CONSTRAINT, and SUCCESS exactly when it answers OK |
| LegacySqliteTatp.InsertCallForwardingLegacyPrepare | tatp_sqlite3.cpp:238-241 | With the insert prepared by the legacy `sqlite3_prepare`, a duplicate key fails the assert on the step; the result is never CONSTRAINT |
| LegacySqliteTatp.InsertCallForwardingPreparedV2 | tatp_sqlite3.cpp:489-511 | With the insert prepared by `sqlite3_prepare_v2`, the procedure succeeds whenever its other calls do; CONSTRAINT exactly on a duplicate key, SUCCESS otherwise |
| LegacySqliteTatp.DeleteCallForwarding | tatp_sqlite3.cpp:521-572 | Succeeds on the asserted path. SUCCESS exactly when one row was deleted, MISSING exactly when none was |
| TxbenchSqlite.ExceptionMessageShape | src/sqlite3.hpp:18-26 | The message starts `SQLite3 error <code>`, the code parses back, and it ends with `: <explanation>` when there is one |
| TxbenchSqlite.AssertSqliteOk | src/sqlite3.hpp:39-43 | Only SQLITE_OK passes; any other code is thrown with that code |
| TxbenchSqlite.CheckAll | src/sqlite3.hpp:39-43 | A sequence of checked calls passes exactly when all are OK; otherwise the fault is the first non-OK code |
| TxbenchSqlite.CheckAllFirst | src/sqlite3.hpp:39-43 | When the calls before i are OK and call i is not, the fault is call i's code |
| TxbenchSqlite.BindInt | src/sqlite3.hpp:108-111 | The 0-based index i binds parameter i + 1 to the integer; a non-OK code is thrown |
| TxbenchSqlite.BindText | src/sqlite3.hpp:113-116 | The 0-based index i binds parameter i + 1 to the text; a non-OK code is thrown |
| TxbenchSqlite.BindString | src/sqlite3.hpp:118 | A string is bound as text at parameter i + 1 |
| TxbenchSqlite.Step | src/sqlite3.hpp:120-130 | ROW gives true, DONE gives false, and every other code is thrown |
| TxbenchSqlite.Reset | src/sqlite3.hpp:140-143 | Only SQLITE_OK passes |
| TxbenchSqlite.StepToEnd | src/sqlite3.hpp:120-130 | Stepping a cursor until step returns false succeeds exactly when its final code is DONE |
| TxbenchSqlite.Connection.TxStmt | src/sqlite3.hpp:88-92 | Runs transaction statement i; the step's code is not checked; the reset decides the outcome |
| TxbenchSqlite.Connection.Begin | src/sqlite3.hpp:79-83 | begin runs the BEGIN statement |
| TxbenchSqlite.Connection.Commit | src/sqlite3.hpp:79-83 | commit runs the COMMIT statement |
| TxbenchSqlite.Connection.Rollback | src/sqlite3.hpp:79-83 | rollback runs the ROLLBACK statement |
| TxbenchSqlite.Open | src/sqlite3.hpp:49-63 | Initialise, open, then prepare the three transaction statements. The first non-OK code is thrown; on success the connection is valid |
| TxbenchSqliteTatp.LoadBatch | src/tatp/tatp_sqlite3.cpp:66-85 | An empty batch executes nothing. Otherwise exactly the batch's INSERT is executed, and a non-OK code is thrown |
| TxbenchSqliteTatp.GetSubscriberData | src/tatp/tatp_sqlite3.cpp:103-132 | FAILURE exactly when there is no row, SUCCESS exactly when there is one. Two rows fail the assertion. The data is read from its own columns |
| TxbenchSqliteTatp.GetNewDestination | src/tatp/tatp_sqlite3.cpp:134-156 | SUCCESS exactly when rows came back, MISSING otherwise. numberx is column 0 of every row |
| TxbenchSqliteTatp.GetAccessData | src/tatp/tatp_sqlite3.cpp:158-177 | At most one row, or the assertion fails. On SUCCESS the data is columns 0..3 of the row |
| TxbenchSqliteTatp.UpdateSubscriberData | src/tatp/tatp_sqlite3.cpp:179-206 | The subscriber update must change one row. MISSING exactly when the facility update changed none, SUCCESS when it changed one |
| TxbenchSqliteTatp.UpdateLocation | src/tatp/tatp_sqlite3.cpp:208-219 | Succeeds exactly when the update completes with one change; always SUCCESS |
| TxbenchSqliteTatp.InsertCallForwarding | src/tatp/tatp_sqlite3.cpp:221-279 | FAILURE, with nothing committed, when the subscriber or facility lookup is empty. CONSTRAINT exactly when the insert steps to CONSTRAINT with no change. SUCCESS when it inserts one row. Never MISSING |
| TxbenchSqliteTatp.DeleteCallForwarding | src/tatp/tatp_sqlite3.cpp:281-312 | FAILURE, with nothing committed, when the subscriber is unknown. SUCCESS whether zero or one row was deleted; never MISSING |
| TxbenchSqliteTatp.DeleteCallForwardingIntended | src/tatp/tatp_sqlite3.cpp:281-312 | SUCCESS exactly when one row was deleted, MISSING exactly when none was |
| Duckdb.Fetch | src/tatp/tatp_duckdb.cpp:90-113 | Fetch k yields a chunk exactly while chunks remain |
| Duckdb.FirstValue | src/tatp/tatp_duckdb.cpp:160-185 | Reading the first value needs a first chunk; otherwise the null chunk is dereferenced |
| Duckdb.TotalRowsPositive | src/benchmarks/tatp/tatp_duckdb.cpp:88-97 | The row count is positive exactly when some chunk has a row |
| Duckdb.CollectColumn | src/tatp/tatp_duckdb.cpp:124-131 | The chunk loop collects the column of every row, in order |
| Duckdb.CountRows | src/benchmarks/tatp/tatp_duckdb.cpp:88-97 | Iterating over the result counts every row of every chunk |
| TxbenchDuckdbTatp.AssertSuccess | src/tatp/tatp_duckdb.cpp:11-15 | A failed result throws a runtime_error carrying its error text |
| TxbenchDuckdbTatp.GetSubscriberData | src/tatp/tatp_duckdb.cpp:90-113 | One chunk of one row is required. Every field is read from its column except vlr_location, which is read from column 32 |
| TxbenchDuckdbTatp.SubscriberVlrMisread | src/tatp/tatp_duckdb.cpp:109-110 | Data whose vlr_location is column 32 is not the row's subscriber data |
| TxbenchDuckdbTatp.GetSubscriberDataCorrected | src/tatp/tatp_duckdb.cpp:90-113 | The same outcomes, and every field, vlr_location included, is read from its own column |
| TxbenchDuckdbTatp.GetNewDestination | src/tatp/tatp_duckdb.cpp:115-137 | SUCCESS exactly when a chunk came back. The column is collected locally, but numberx stays unset |
| TxbenchDuckdbTatp.GetNewDestinationCorrected | src/tatp/tatp_duckdb.cpp:115-137 | On SUCCESS numberx is column 0 of every row; on MISSING it is unset |
| TxbenchDuckdbTatp.GetAccessData | src/tatp/tatp_duckdb.cpp:139-158 | MISSING exactly when there is no chunk. SUCCESS exactly when there is one chunk of one row, whose columns 0..3 are the data |
| TxbenchDuckdbTatp.UpdateSubscriberData | src/tatp/tatp_duckdb.cpp:160-185 | The subscriber update must report one change. MISSING exactly when the facility update reports 0, SUCCESS when it reports 1 |
| TxbenchDuckdbTatp.UpdateLocation | src/tatp/tatp_duckdb.cpp:187-194 | The update must report one change; always SUCCESS |
| TxbenchDuckdbTatp.InsertCallForwarding | src/tatp/tatp_duckdb.cpp:196-224 | Both lookups must give one chunk, the facility's non-empty. A failed insert, whatever its error, gives CONSTRAINT |
| TxbenchDuckdbTatp.DeleteCallForwarding | src/tatp/tatp_duckdb.cpp:226-250 | The lookup must give one chunk. MISSING exactly when the delete reports 0, SUCCESS when 1 |
| BenchSqliteTatp.Expect | src/benchmarks/tatp/tatp_sqlite3.cpp:14-94 | `expect(want)` passes exactly when the code is the wanted one; otherwise it fails carrying both codes |
| BenchSqliteTatp.Marks | src/benchmarks/tatp/tatp_sqlite3.cpp:20-38 | n placeholders, each `?` |
| BenchSqliteTatp.TableName | src/benchmarks/tatp/tatp_sqlite3.cpp:20-38 | No table name contains a placeholder |
| BenchSqliteTatp.MarksCount | src/benchmarks/tatp/tatp_sqlite3.cpp:20-38 | n comma-separated marks hold exactly n `?` |
| BenchSqliteTatp.InsertPlaceholders | src/benchmarks/tatp/tatp_sqlite3.cpp:20-38 | An INSERT built for width n has exactly n placeholders |
| BenchSqliteTatp.PreparedWidth | src/benchmarks/tatp/tatp_sqlite3.cpp:20-38 | Each prepared INSERT has as many placeholders as its table has columns: 34, 6, 6, 5 |
| BenchSqliteTatp.SubscriberBindLayout | src/benchmarks/tatp/tatp_sqlite3.cpp:46-63 | The 34 subscriber binds go to positions 1..34, and each binds its field's value at that field's column |
| BenchSqliteTatp.BindLoop | src/benchmarks/tatp/tatp_sqlite3.cpp:48-60 | The bind loops bind consecutive positions to the given values |
| BenchSqliteTatp.SubscriberBinds | src/benchmarks/tatp/tatp_sqlite3.cpp:46-63 | Binding a subscriber record produces exactly its 34 bindings |
| BenchSqliteTatp.RecordBindsTarget | src/benchmarks/tatp/tatp_sqlite3.cpp:43-92 | Every bind of a record targets the INSERT of that record's own table |
| BenchSqliteTatp.Visit | src/benchmarks/tatp/tatp_sqlite3.cpp:43-92 | The visitor binds the record, then executes its table's INSERT, each call expected OK |
| BenchSqliteTatp.Issue | src/benchmarks/tatp/tatp_sqlite3.cpp:14-94 | Issuing a call appends it. A checked call whose answer is not OK fails with that code |
| BenchSqliteTatp.InsertRecords | src/benchmarks/tatp/tatp_sqlite3.cpp:43-92 | The while loop issues each record's calls in order and stops at the first failure |
| BenchSqliteTatp.Load | src/benchmarks/tatp/tatp_sqlite3.cpp:12-95 | load succeeds exactly when every checked call is answered OK. It issues connect, the DDL, the four prepares, begin, the records' calls and commit |
| BenchSqliteTatp.LoadWith | src/benchmarks/tatp/tatp_sqlite3.cpp:12-95 | The same load, with the answers given per call |
| BenchSqliteTatp.Setup | src/benchmarks/tatp/tatp_sqlite3.cpp:14-40 | The calls before the records: connect, the DDL with SQLite types and foreign keys on, the prepares, begin |
| BenchSqliteTatp.AnsweredUnchecked | src/benchmarks/tatp/tatp_sqlite3.cpp:40 | begin and commit are not checked, so their answers never fail the load |
| BenchSqliteTatp.LoadBracket | src/benchmarks/tatp/tatp_sqlite3.cpp:40-94 | The load's only begin comes right after the setup calls and its only commit is its last call, so every record's calls lie between the two |
| BenchSqliteTatp.ExecutedInOrder | src/benchmarks/tatp/tatp_sqlite3.cpp:43-92 | The INSERTs executed are exactly one per record, in record order, each into the record's table |
| BenchSqliteTatp.BindsMatchPlaceholders | src/benchmarks/tatp/tatp_sqlite3.cpp:110-207 | Every procedure binds each statement with exactly as many values as it has placeholders |
| BenchSqliteTatp.PrepareStatements | src/benchmarks/tatp/tatp_sqlite3.cpp:99-105 | The worker prepares the ten statements in order. It succeeds exactly when all ten answer OK |
| BenchSqliteTatp.PrepareAll | src/benchmarks/tatp/tatp_sqlite3.cpp:99-105 | Preparing in order succeeds exactly when all are OK; otherwise the first failing code is the fault |
| BenchSqliteTatp.GetSubscriberData | src/benchmarks/tatp/tatp_sqlite3.cpp:110-114 | Statement 0 is bound with s_id, one value per placeholder. Always true once the bind and the execute are OK |
| BenchSqliteTatp.GetNewDestination | src/benchmarks/tatp/tatp_sqlite3.cpp:116-124 | Statement 1 is bound with s_id, sf_type, start_time and end_time, one value per placeholder. True exactly when a row came back |
| BenchSqliteTatp.GetAccessData | src/benchmarks/tatp/tatp_sqlite3.cpp:126-133 | Statement 2 is bound with s_id and ai_type, one value per placeholder. True exactly when a row came back |
| BenchSqliteTatp.UpdateSubscriberData | src/benchmarks/tatp/tatp_sqlite3.cpp:135-152 | Every call must be OK; true exactly when the connection reports a change. The binds made are a prefix of the procedure's binds (bit_1, s_id to statement 3; data_a, s_id, sf_type to statement 4), all of them on success |
| BenchSqliteTatp.UpdateLocation | src/benchmarks/tatp/tatp_sqlite3.cpp:154-160 | Statement 5 is bound with vlr_location and sub_nbr. Always true once the bind and the execute are OK |
| BenchSqliteTatp.LookupSubscriber | src/benchmarks/tatp/tatp_sqlite3.cpp:165-168 | The s_id lookup needs a row, and s_id is column 0 of that row |
| BenchSqliteTatp.InsertCallForwarding | src/benchmarks/tatp/tatp_sqlite3.cpp:162-188 | True exactly when the insert is OK, false exactly on CONSTRAINT. Any other code fails the CONSTRAINT expectation. The binds made are a prefix of the procedure's binds, all of them on success, with the looked-up s_id bound to statements 7 and 8 |
| BenchSqliteTatp.DeleteCallForwarding | src/benchmarks/tatp/tatp_sqlite3.cpp:190-207 | True exactly when the connection reports a change. The binds made are a prefix of the procedure's binds, all of them on success, with the looked-up s_id bound to statement 9 |
| BenchDuckdbTatp.AssertSuccess | src/benchmarks/tatp/tatp_duckdb.cpp:10-14 | A failed result, or one with an error, throws its error text |
| BenchDuckdbTatp.QueryAll | src/benchmarks/tatp/tatp_duckdb.cpp:18-21 | The statements are run in order until the first rejected one; its error is thrown |
| BenchDuckdbTatp.CreateTables | src/benchmarks/tatp/tatp_duckdb.cpp:16-21 | The DDL is run with DuckDB types and foreign keys off. It succeeds exactly when every statement succeeds |
| BenchDuckdbTatp.GetSubscriberData | src/benchmarks/tatp/tatp_duckdb.cpp:83-86 | Always true once the lookup succeeds |
| BenchDuckdbTatp.GetNewDestination | src/benchmarks/tatp/tatp_duckdb.cpp:88-97 | Statement 1 is executed with its four arguments, one per placeholder. True exactly when some chunk has a row |
| BenchDuckdbTatp.GetAccessData | src/benchmarks/tatp/tatp_duckdb.cpp:99-107 | Statement 2 is executed with s_id and ai_type, one per placeholder. True exactly when some chunk has a row |
| BenchDuckdbTatp.UpdateSubscriberData | src/benchmarks/tatp/tatp_duckdb.cpp:109-121 | True exactly when the facility update reports a positive change count |
| BenchDuckdbTatp.UpdateLocation | src/benchmarks/tatp/tatp_duckdb.cpp:123-126 | Always true once the update succeeds |
| BenchDuckdbTatp.InsertTolerated | src/benchmarks/tatp/tatp_duckdb.cpp:139-143 | The insert is tolerated exactly when it succeeded or its error starts with `Constraint` |
| BenchDuckdbTatp.InsertCallForwarding | src/benchmarks/tatp/tatp_duckdb.cpp:128-148 | Any other error is thrown. Otherwise the result is false, even after a successful insert |
| BenchDuckdbTatp.InsertCallForwardingCorrected | src/benchmarks/tatp/tatp_duckdb.cpp:128-148 | True exactly when the insert succeeded, false on a tolerated constraint violation |
| BenchDuckdbTatp.DeleteCallForwarding | src/benchmarks/tatp/tatp_duckdb.cpp:150-164 | True exactly when the delete reports a positive change count |
| SystemsSqlite.MakeException | src/systems/sqlite/sqlite3.hpp:20-27 | An exception carries the code and the text built from code, error string and message |
| SystemsSqlite.MakeConstraintException | src/systems/sqlite/sqlite3.hpp:40-44 | A constraint exception has the CONSTRAINT code and the same text as a plain one |
| SystemsSqlite.ExceptionTextShape | src/systems/sqlite/sqlite3.hpp:20-27 | The text starts `SQLite3 code <code>`, the code parses back, and it ends `: <message>` when a message is given |
| SystemsSqlite.ExceptionTextDeterminesCode | src/systems/sqlite/sqlite3.hpp:20-27 | Two equal texts carry the same code |
| SystemsSqlite.CheckOk | src/systems/sqlite/sqlite3.hpp:99-128 | Only OK passes; otherwise the exception for that code is thrown |
| SystemsSqlite.StepResult | src/systems/sqlite/sqlite3.hpp:130-142 | ROW means a row is ready and DONE means finished. Any other code throws, as a constraint exception exactly for CONSTRAINT |
| SystemsSqlite.ResetResult | src/systems/sqlite/sqlite3.hpp:144-155 | OK passes; any other code throws, as a constraint exception exactly for CONSTRAINT |
| SystemsSqlite.Statement.Bind | src/systems/sqlite/sqlite3.hpp:99-128 | The bind is recorded, and its code is checked |
| SystemsSqlite.Statement.DoStep | src/systems/sqlite/sqlite3.hpp:130-142 | The step is recorded, and its result is StepResult |
| SystemsSqlite.Statement.Reset | src/systems/sqlite/sqlite3.hpp:144-155 | The reset is recorded, and its result is ResetResult |
| SystemsSqlite.TxResult | src/systems/sqlite/sqlite3.hpp:187-195 | A transaction statement succeeds exactly when it steps to ROW or DONE and then resets OK. A thrown step is the result |
| SystemsSqlite.TxCalls | src/systems/sqlite/sqlite3.hpp:187-195 | The reset is made exactly when the step did not throw |
| SystemsSqlite.Connection.StepThenReset | src/systems/sqlite/sqlite3.hpp:187-195 | Records the step, and the reset unless the step threw; the result is TxResult |
| SystemsSqlite.Connection.Begin | src/systems/sqlite/sqlite3.hpp:187-190 | begin steps and resets the BEGIN statement only; COMMIT is untouched |
| SystemsSqlite.Connection.Commit | src/systems/sqlite/sqlite3.hpp:192-195 | commit steps and resets the COMMIT statement only; BEGIN is untouched |
| SystemsSqlite.Prepare | src/systems/sqlite/sqlite3.hpp:169-177 | OK gives a fresh statement for the text with no calls; any other code throws |
| SystemsSqlite.ConnectFailure | src/systems/sqlite/sqlite3.hpp:222-229 | The first non-OK code of open, prepare BEGIN and prepare COMMIT, if any |
| SystemsSqlite.Database.Connect | src/systems/sqlite/sqlite3.hpp:222-229 | Succeeds exactly when open and both prepares are OK, giving a valid connection; otherwise the first failure is thrown |
| SystemsSqlite.OpenDatabase | src/systems/sqlite/sqlite3.hpp:215-220 | Initialisation must be OK; otherwise `could not initialize SQLite3` is thrown |
| SystemsSqlite.Execute | src/systems/sqlite/sqlite3.hpp:179-185 | OK passes; any other code throws a plain exception with that code |
| Profile.ParseLine | analysis/profile.py:16-17 | A line with fewer than five tokens is an IndexError. A non-integer second token is a ValueError. Otherwise the entry is token 4's symbol with token 1's ticks |
| Profile.ParseLineRoundTrip | analysis/profile.py:16-17 | A line written from tokens with a decimal second token parses back to that symbol and those ticks |
| Profile.ParseLines | analysis/profile.py:15-17 | A file parses to one entry per line |
| Profile.ParseLinesAt | analysis/profile.py:15-17 | Entry i is line i's parse |
| Profile.ParseLinesFirstError | analysis/profile.py:15-17 | The first bad line's error is the file's error |
| Profile.Add | analysis/profile.py:17 | `profile[sym] += ticks` adds the ticks to that symbol, starting from 0, and leaves every other symbol alone |
| Profile.AccumulateAt | analysis/profile.py:13-17 | A symbol is in the profile exactly when some line names it, and its value is the sum of its ticks |
| Profile.AddCommutes | analysis/profile.py:17 | Two additions commute |
| Profile.AccumulateSwap | analysis/profile.py:15-17 | Swapping two adjacent lines does not change the profile |
| Profile.MapSumRemove | analysis/profile.py:19 | A map's total is any one key's value plus the total of the rest |
| Profile.AccumulateSum | analysis/profile.py:13-17 | The profile's total is the total of all ticks in the file |
| Profile.ProfileOf | analysis/profile.py:13-19 | The file's profile exists exactly when every line parses; otherwise the first error is raised |
| Profile.ReadProfile | analysis/profile.py:13-19 | The read loop computes ProfileOf |
| Profile.AnalysisPathInjective | analysis/analysis.py:14 | Different query names in one configuration read different files |
| Profile.DataOfOk | analysis/profile.py:11-19 | A configuration's data exists exactly when every query's file parses |
| Profile.DataOfRows | analysis/profile.py:11-19 | The data has exactly one row per query, and each is that query's profile |
| Profile.CollectData | analysis/profile.py:11-19 | The query loop computes the configuration's data |
| Profile.DataOfStops | analysis/profile.py:11-19 | After the first failing query, later queries do not change the error |
| Profile.RunConfigs | analysis/profile.py:10-19 | One data set per configuration, in order, or the error of a failing one |
| Profile.Analysis | analysis/analysis.py:10-19 | analysis.py's two configurations over its thirteen query names |
| Profile.ProfileQueries | analysis/profile.py:10-19 | profile.py's two configurations over the given queries |
| Profile.Columns | analysis/profile.py:21 | Every key of every row is a column of the frame |
| Profile.ColumnMax | analysis/profile.py:22-23 | A column's maximum exists exactly for the frame's columns |
| Profile.ColumnMaxIsMax | analysis/profile.py:22-23 | The maximum bounds every value of the column and is one of them |
| Profile.SmallColumns | analysis/profile.py:22 | df0's columns are columns whose every value is below 5e8 |
| Profile.LargeColumns | analysis/profile.py:23 | df1's columns are columns with some value at least 5e8 |
| Profile.SplitPartitions | analysis/profile.py:22-23 | df0 and df1 split the columns: disjoint, and together all of them |
| Profile.Restrict | analysis/profile.py:22-23 | Selecting columns keeps exactly those keys, with their values |
| Profile.Exclude | analysis/profile.py:22-23 | Dropping columns keeps exactly the other keys, with their values |
| Profile.OtherOfAt | analysis/profile.py:24 | Row i's `other` is the sum of its df0 columns |
| Profile.MapSumSplit | analysis/profile.py:22-24 | A row's total is the total of its selected columns plus that of the rest |
| Profile.ExcludeSmall | analysis/profile.py:22-23 | What df0 leaves out of a row is exactly its df1 columns |
| Profile.RowTotalKept | analysis/profile.py:22-24 | A stacked bar keeps the query's total: a df1 row plus `other` sums to the whole profile row |

## Left out

- File I/O is not modelled. The statement files, the profile files and `readstr` become parameters: a file is its lines or its text.
- The engines are not modelled. Every SQLite and DuckDB answer is an input: result codes, cursors, chunks, change counts and error text.
- Plotting, pandas rendering and seaborn are left out. Only the data folds are modelled.
- Floating point: the threshold 5e8 is the integer 500000000, which compares with integer ticks the same way.
- Text.Split: whitespace is the ASCII space, tab, newline, carriage return, vertical tab and form feed, not every Unicode space.
- Text.ParseInt: Python's underscores, surrounding whitespace and non-ASCII digits are not accepted. Split removes the surrounding whitespace before the call.
- A missing profile file (FileNotFoundError) is not modelled; the file system is a total function.
- DuckDB appenders and bulk loading are not modelled (src/tatp/tatp_duckdb.cpp:17-77, src/benchmarks/tatp/tatp_duckdb.cpp:23-68). They fill tables through the engine's own API. The dbbench DuckDB load is modelled up to its DDL.
- The DuckDB workers' BeginTransaction and Commit calls are not modelled, and neither are their prepares (src/tatp/tatp_duckdb.cpp:81-88, src/benchmarks/tatp/tatp_duckdb.cpp:73-78). The prepares are unchecked, and only the statement file names are modelled.
- The deleted template overload of `bind` in src/systems/sqlite/sqlite3.hpp:128 is a compile-time rule with no run-time behaviour.
- `sqlite3_changes` is an input, so the legacy and dbbench change counts are taken as the engine reports them.
- Destructors, `sqlite3_finalize` and `sqlite3_close` are not modelled.
- The record and procedure generators, the driver loop, command-line options and `main` are not part of this model.
- The blob and SSB benchmarks are not part of this model.
- `util.queries` is not part of this model: Profile.ProfileQueries takes the query list as a parameter.
- Profile.RowTotalKept: requires that no kept column is itself named `other`. `assign` would overwrite such a column.
- BenchSqliteTatp.BindLoop: takes the values already computed from the record. The record-to-value step is FieldValue.
- Integer widths: the uint8/uint32/uint64 casts of the loaders and readers are not modelled, and values are unbounded integers.
- The `std::cout` of `sqlite3_errmsg` in the legacy insert (tatp_sqlite3.cpp:492) is output only and is left out.
- The dbbench SQLite wrapper (`Result`, `expect`, `bind_all`, the counting `execute`) is not part of this model. Its calls are modelled as operations that return a result code.
- The row and column readers of src/systems/sqlite/sqlite3.hpp are not modelled.
- C `assert`s are modelled as enabled, as in a debug build. Under NDEBUG the asserted calls are not made at all: the final `step()` of src/tatp/tatp_sqlite3.cpp:128, 170, 214, 236 and 295, and the `Fetch()` of src/tatp/tatp_duckdb.cpp:111, 152, 191, 208, 212, 213 and 237. That build is not modelled.
- Bind positions and values are not modelled for the legacy client (tatp_sqlite3.cpp) or the txbench SQLite client (src/tatp/tatp_sqlite3.cpp). Their binds are modelled only by the result codes they return. The dbbench clients' binds are modelled with their values.

## Findings

| source | as written | input that shows it | evidently intended | confidence | as-written member | corrected member |
|---|---|---|---|---|---|---|
| tatp_sqlite3.cpp:357-358 | get_access_data reads data3 from column 3, the same column as data4 | any access_info row whose data3 and data4 differ | data3 is read from column 2 | not executed | LegacySqliteTatp.AccessDataMisread | LegacySqliteTatp.GetAccessDataCorrected |
| src/tatp/tatp_duckdb.cpp:109-110 | vlr_location is read from column 32, msc_location's column | any subscriber whose msc_location and vlr_location differ | vlr_location is read from column 33 | not executed | TxbenchDuckdbTatp.SubscriberVlrMisread | TxbenchDuckdbTatp.GetSubscriberDataCorrected |
| src/tatp/tatp_duckdb.cpp:124-131 | the numberx values are collected into a local vector that is never handed back | any lookup that returns a row: the result is SUCCESS and numberx stays empty | numberx receives the collected values | not executed | TxbenchDuckdbTatp.GetNewDestination | TxbenchDuckdbTatp.GetNewDestinationCorrected |
| src/tatp/tatp_sqlite3.cpp:284-306 | the result starts as SUCCESS and is set to SUCCESS again after the delete | a delete that removes no row returns SUCCESS | MISSING when no row was deleted | not executed | TxbenchSqliteTatp.DeleteCallForwarding | TxbenchSqliteTatp.DeleteCallForwardingIntended |
| tatp_sqlite3.cpp:238-241 | the insert is prepared with the legacy `sqlite3_prepare`, whose step reports a duplicate key as SQLITE_ERROR, while the assert on the step (lines 493-494) accepts only DONE or CONSTRAINT | inserting a call_forwarding row whose key is already present: the assert fails | a duplicate key gives CONSTRAINT, as the reset check and its comment expect; this needs `sqlite3_prepare_v2` | medium; not executed | LegacySqliteTatp.InsertCallForwardingLegacyPrepare | LegacySqliteTatp.InsertCallForwardingPreparedV2 |
| src/benchmarks/tatp/tatp_duckdb.cpp:128-148 | InsertCallForwarding returns false after every insert it tolerates | an insert that succeeds: the result is false | true on a successful insert, as the SQLite worker does at src/benchmarks/tatp/tatp_sqlite3.cpp:178-187 | not executed | BenchDuckdbTatp.InsertCallForwarding | BenchDuckdbTatp.InsertCallForwardingCorrected |
