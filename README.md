# Verified model of the browser front end's upload, mock-data and table-rendering logic

The page loads user files (CSV, Parquet, JSON) into an in-browser DuckDB-WASM
database, creates synthetic tables, and renders query results as HTML tables.
The database engine, the DOM and the browser are external. This project
models the three pieces of sequential logic in `scripts.js` that stand on
their own:

- **Ingestion dispatch** (`uploadTable`): the file type is the lower-cased
  text after the last `.` of the file name. Only `csv`, `parquet` and `json`
  are accepted. For an accepted type the bytes are registered at
  `"/" + file.name`, and one `CREATE TABLE '<name>' AS FROM <reader>(...)`
  query follows.
- **Synthetic data** (`uploadMassiveMockTable`, `uploadMockTable`): the large
  table trims its name and generates rows `i = 1..10000` as
  `(i, 'user_i', 20 + i % 40)`. It inserts them in slices of 500 and logs each
  slice's 1-based range `i+1 .. min(i+500, n)`. The small table builds one
  query: a `CREATE TABLE`, then ten identical `INSERT`s of ten tuples each.
- **Result projection** (`arrowToHtmlTable`): a header row of the schema's
  field names, then one row per result row with one cell per schema field,
  in schema order.

Engine calls are never executed. Each procedure is modelled by the **trace**
it produces (module `Trace`): the engine calls it issues (`Connect`,
`RegisterFileBuffer`, `Query`, `Close`) and its visible page effects
(`Alert`, clearing the import log, a progress line, starting a table list
refresh), in order. An engine call can reject, and the procedure's `catch`
block then only logs. This is modelled by a parameter `failure: Option<nat>`,
the number of the call that rejects: the trace is cut right after that call
(`Trace.CutAfterCall`). The engine-initialized check (`if (!db)`) is a
boolean parameter.

Modules, one file each: `Wrappers` (Option, Min), `Text` (the JavaScript
string operations used: `split`/`pop`, `join`, `toLowerCase`, `trim`, decimal
rendering, repeated `+=`), `Trace`, `Ingestion`, `MockData`, `Projection`.
The loops of the source are methods proved against specification functions:
`MockData.GenerateRows` (the row `push` loop), `MockData.InsertBatches` (the
`i += batchSize` loop) and `MockData.RepeatInserts` (the `insertSQL +=` loop).
The expression-only code is functions with lemmas.

Five behaviours of the code that a reader might not expect are modelled as
written:

- An empty file buffer is not rejected: its bytes are registered like any other.
- The virtual path is `"/" + file.name`, with no per-table counter, so two
  files of the same name share a path.
- `uploadTable` connects before it checks the file type, so an unsupported
  type still issues `Connect` (`Ingestion.UploadTableRejectsOtherTypes`
  allows exactly that).
- `uploadTable` never closes its connection, and a rejected engine call
  leaves any connection open.
- Table names are interpolated raw between single quotes, with no escaping.

## Model

| member | source | states |
|---|---|---|
| `Text.Split` | scripts.js:86 | `split(".")` never returns an empty array, no piece contains the separator, and joining the pieces with it gives the name back |
| `Text.SplitJoin` | scripts.js:86 | splitting a join of separator-free pieces gives the same pieces back (inverse of `Split`) |
| `Text.AfterLast` | scripts.js:86 | the text after the last separator is the longest separator-free suffix: preceded by the separator, or the whole string |
| `Text.LastOfSplit` | scripts.js:86 | the piece `pop()` takes from the split is exactly the text after the last `.` |
| `Text.Join` | scripts.js:156 | `join(sep)`: the pieces with the separator between neighbours; `Text.Split` and `Text.SplitJoin` make splitting its inverse on separator-free pieces |
| `Text.Lower` | scripts.js:86 | `toLowerCase` on ASCII: same length, each capital becomes its small letter (code point + 32), every other character is kept, and no capital is left |
| `Ingestion.FileType` | scripts.js:86 | the type is the lower-cased last piece of `split(".")`, and it never contains a `.` |
| `Ingestion.FileTypeAfterLastDot` | scripts.js:86 | the file type is the lower-cased text after the last `.`: the whole lower-cased name when there is no `.`, the empty string when the name ends in `.` |
| `Ingestion.FormatOf` | scripts.js:88 | `csv`, `parquet` and `json` each select their own format, and every other type selects none (both directions) |
| `Ingestion.BuildIngestQuery` | scripts.js:88-100 | a query exists exactly for `csv`, `parquet`, `json`: `read_csv_auto(path, header = true)`, `read_parquet(path)`, `read_json_auto(path)` respectively, with the table name in single quotes |
| `Ingestion.ReaderCall` | scripts.js:94-99 | the table function each format is read with: `read_csv_auto` with `header = true`, `read_parquet`, `read_json_auto`, the path in single quotes |
| `Ingestion.VirtualPath` | scripts.js:90 | the bytes are registered at `/` followed by the file name, unchanged |
| `Ingestion.ReaderLetter` | scripts.js:94-100 | the character after `read_` in the query is the file type's first letter |
| `Ingestion.IngestQueryDeterminesType` | scripts.js:94-100 | two accepted types that give the same query are the same type |
| `Ingestion.UploadPlan` | scripts.js:57-106 | the run when no call rejects: alert without a file, alert on an empty name, nothing without an engine, else connect, and for an accepted type register, query, refresh the list |
| `Ingestion.UploadTable` | scripts.js:57-110 | `uploadTable`: the plan cut right after the engine call that rejects, since the `catch` only logs |
| `Ingestion.UploadTableEmptyName` | scripts.js:67-73 | an empty table name yields only the alert and issues no engine call, whatever fails |
| `Ingestion.UploadTableCalls` | scripts.js:83-102 | with a file, a name and an initialized engine, every run's engine calls are a prefix of connect, register the bytes at `"/" + name`, the format's query (accepted type) or of connect alone (other types); without a failure they are all of it |
| `Ingestion.UploadTableRejectsOtherTypes` | scripts.js:88-106 | for a type other than `csv`/`parquet`/`json`, nothing is registered and no query is issued; the only possible call is the connection |
| `Trace.CutAfterCall` | scripts.js:57-110 | when engine call k rejects, the run is a prefix of the plan, its calls are the plan's first k + 1 calls, it ends with the failing call, and it is the whole plan when there are no more than k calls |
| `Trace.Interrupted` | scripts.js:107-109 | a run is a prefix of its plan whose calls are a prefix of the plan's calls; without a failure it is the plan |
| `Trace.EngineCalls` | scripts.js:83-101 | the engine calls of a run, in the order they are awaited, are no more than its steps |
| `Text.Trim` | scripts.js:115 | `trim()` yields the infix between the leading and trailing whitespace; it neither starts nor ends with whitespace; it is empty exactly when the name is all whitespace |
| `Text.TrimIdempotent` | scripts.js:115 | trimming a trimmed name changes nothing |
| `Text.NatToString` | scripts.js:148-150 | `${i}` is a non-empty string of decimal digits with no leading zero |
| `Text.NatToStringRoundTrip` | scripts.js:148-150 | reading back the decimal text of `i` gives `i` |
| `Text.NatToStringInjective` | scripts.js:148-150 | distinct numbers have distinct decimal texts |
| `Text.LeadingDigitsOf` | scripts.js:150 | the digits at the head of a tuple are recovered when a non-digit follows them |
| `MockData.UserRow` | scripts.js:147-150 | row `i` has id `i` and an age between 20 and 59 |
| `MockData.RowLiteral` | scripts.js:148-150 | the tuple text `(i, 'user_i', age)` of a row |
| `MockData.MockRows` | scripts.js:146-151 | the n generated tuples, the k-th being row k + 1 |
| `MockData.GenerateRows` | scripts.js:146-151 | the counting loop produces exactly `n` tuples, the k-th being row `k + 1` |
| `MockData.RowLiteralInjective` | scripts.js:146-151 | the tuple of row `i` determines `i` |
| `MockData.MockRowsDistinct` | scripts.js:146-151 | the generated rows are pairwise distinct: no row appears twice |
| `MockData.Batches` | scripts.js:154-157 | the slices the loop takes, from index `from` in steps of `size`, with their 1-based ranges |
| `MockData.BatchCount` | scripts.js:154-155 | the slices are just enough to reach `n`: all but the last slice are full, and none is empty |
| `MockData.BatchAt` | scripts.js:154-157 | slice k starts at `start = k * size`, is `rows[start .. min(start + size, n)]` with 1 to `size` elements, and is labelled `start + 1 .. min(start + size, n)` |
| `MockData.BatchesCover` | scripts.js:154-157 | the slices joined in order are exactly the rows: nothing lost, duplicated or reordered |
| `MockData.InsertSql` | scripts.js:156-157 | one batch's INSERT: `INSERT INTO '<name>' VALUES`, a line break, the batch's tuples separated by `,` and a line break, then `;` |
| `MockData.BatchTrace` | scripts.js:155-166 | each batch gives two steps, its query and then its progress line |
| `MockData.BatchTraceAt` | scripts.js:155-166 | for batch k, step 2k is its INSERT query and step 2k+1 its progress line |
| `MockData.BatchTraceCalls` | scripts.js:155-166 | the engine calls of the batch loop are one INSERT per slice, in slice order |
| `MockData.InsertBatches` | scripts.js:154-166 | the `i += batchSize` loop issues, for each slice in order, its INSERT query and then its progress line |
| `MockData.MassiveBatchCount` | scripts.js:146-157 | the 10000 rows form 20 batches |
| `MockData.MassiveBatchesShape` | scripts.js:146-166 | 20 batches of 500: batch k covers rows `500k + 1 .. 500k + 500`, and the batches joined are the 10000 rows |
| `MockData.CreateMockTableHead` | scripts.js:136-142 | the CREATE TABLE text both mock tables start with: three columns `id INTEGER`, `name TEXT`, `age INTEGER` |
| `MockData.SyntheticTablePlan` | scripts.js:128-170 | clear the log, connect, create, each batch's query and progress line, close, refresh the list |
| `MockData.MassivePlan` | scripts.js:112-170 | the run when no call rejects: trim, alert on an empty name, nothing without an engine, else the synthetic-table steps for the 20 batches |
| `MockData.SyntheticTableCalls` | scripts.js:132-168 | a synthetic-table run issues connect, the CREATE TABLE, one INSERT per batch in order, then close |
| `MockData.SyntheticTableProgress` | scripts.js:155-165 | in a synthetic-table run, step 3 + 2k is batch k's INSERT query and the step right after it is that batch's progress line |
| `MockData.UploadMassiveMockTable` | scripts.js:112-174 | the procedure's trace is its plan (trim, alert on an empty name, skip when not initialized, clear the log, connect, create, the batches, close, refresh), cut after the failing call |
| `MockData.MassiveMockBlankName` | scripts.js:114-120 | an all-whitespace name is trimmed to empty and refused with the alert before any engine call |
| `MockData.MassiveMockCalls` | scripts.js:132-168 | with a usable name: 23 calls, namely connect, create the table named by the trimmed input, the 20 inserts in order, close |
| `MockData.MassiveMockProgress` | scripts.js:164-165 | the progress lines show the ranges `1 .. 500`, `501 .. 1000`, ..., `9501 .. 10000` |
| `MockData.MockValuesSql` | scripts.js:222-233 | the ten literal tuples, one per line |
| `MockData.MockInsertSql` | scripts.js:238 | one `INSERT INTO '<name>' VALUES` of the ten tuples, ending in `;` and a line break |
| `MockData.RepeatInserts` | scripts.js:236-239 | the `insertSQL +=` loop yields the INSERT statement repeated `times` times |
| `Text.Repeat` | scripts.js:236-239 | the string built by appending the piece to `""` n times (its length and layout are `Text.RepeatAt`) |
| `Text.RepeatAt` | scripts.js:236-239 | the n-fold repetition is `n` copies of the piece laid end to end |
| `MockData.MockTableQuery` | scripts.js:222-248 | the mock query starts with the CREATE TABLE; after an indent it holds exactly ten copies of one INSERT of the ten tuples, copy k at its own offset, followed only by the closing line |
| `MockData.MockTableSql` | scripts.js:241-248 | the one query: the CREATE TABLE head, an indent, the inserts, a closing line |
| `MockData.MockTablePlan` | scripts.js:202-254 | the run when no call rejects: alert on an empty untrimmed name, nothing without an engine, else connect, the query, close, refresh the list |
| `MockData.UploadMockTable` | scripts.js:202-258 | the procedure's trace is its plan (alert on an empty untrimmed name, skip when not initialized, connect, the one query, close, refresh), cut after the failing call |
| `MockData.MockTableCalls` | scripts.js:218-251 | a full run issues connect, the single CREATE-then-INSERT query, close |
| `MockData.MockTableEmptyName` | scripts.js:205-210 | an empty name yields only the alert and issues no engine call, whatever fails |
| `Projection.CellText` | scripts.js:348 | a cell shows the row's value for its column, or what the renderer makes of a missing field |
| `Projection.ProjectRow` | scripts.js:346-350 | a data row has exactly one cell per schema column, the j-th showing the row's value for the j-th field |
| `Projection.ProjectRows` | scripts.js:343-351 | one output row per result row, in order, each with one cell per schema column in schema order |
| `Projection.ArrowToHtmlTable` | scripts.js:313-352 | a null result (or a missing target table) produces nothing; otherwise the header is the schema names in order and is followed by one row per result row, each with a cell per column in schema order |
| `Projection.ProjectRowsAppend` | scripts.js:343-351 | projecting two runs of rows one after the other projects each in turn |
| `Projection.ProjectEmptyResult` | scripts.js:334-341 | a result with no rows shows just its header |
| `Projection.CellUnderHeader` | scripts.js:337-350 | the cell in data row i under the header's j-th name shows that field of row i |

## Left out

- `service-worker.js`: cache and fetch handlers over the browser Cache API and the network, with no logic of their own.
- `initDuckDB`, `loadDatabaseFromFile`, `getCurrentDBSize`, `runQuery`: engine lifecycle and foreign asynchronous calls. They are glue around the engine; `arrowToHtmlTable`, which `runQuery` calls, is modelled.
- `downloadExportedDatabaseFolderAsFile`: reads a file from the engine and clicks a download anchor. This is DOM and Blob work only.
- `updateTableList`: modelled only as the `RefreshTableList` step. Its query and its close-only-when-rows behaviour are foreign calls and DOM work.
- The meaning of the SQL: what the created tables contain is decided by the engine and is not modelled. Only the query strings are.
- Engine responses: a call is modelled only by whether it rejects (`failure`). Results, and the error text logged by `catch`, are not modelled.
- Console output (`console.log`, `console.error`) is not modelled. Alerts are.
- Reading the chosen file (`file.arrayBuffer()`) is not modelled: the bytes are an input. The source awaits that read before its `if (!db)` check.
- Identifier escaping and name collisions: the source has neither, so the model has neither.
- `MockData.InsertBatches`: a progress line keeps only its row range. The measured duration (`performance.now()`, `toFixed(2)`) is floating point and depends on time, so it is dropped.
- `Ingestion.FileTypeAfterLastDot`: `toLowerCase` is modelled for the ASCII letters only. Other characters are left unchanged, and Unicode case mapping is not modelled.
- `Projection.ArrowToHtmlTable`: turning a cell value into text (`innerText = tableRow[column]`) is a parameter `render`. A field missing from a row is passed to it as None. Arrow's value formatting is not modelled.
- `Text.Trim`: the whitespace set is ECMAScript's WhiteSpace and LineTerminator, with the space separators listed explicitly, rather than derived from the Unicode database.
