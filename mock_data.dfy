/**
 * The two synthetic tables the page can create. `uploadMassiveMockTable`
 * generates 10000 rows `(i, 'user_i', 20 + i % 40)` and inserts them 500 per
 * statement, appending each batch's row range to the import log;
 * `uploadMockTable` creates a table and inserts the same ten rows ten times
 * in one query.
 */
module MockData {
  import opened Wrappers
  import opened Text
  import opened Trace

  const MassiveRowCount: nat := 10000
  const BatchSize: nat := 500

  /** One generated row. */
  datatype MockRow = MockRow(id: nat, name: string, age: nat)

  /** Row `i` of the large table: every age lies in 20..59. */
  function UserRow(i: nat): (r: MockRow)
    ensures r.id == i
    ensures 20 <= r.age <= 59
  {
    MockRow(i, "user_" + NatToString(i), 20 + i % 40)
  }

  /** The SQL value tuple `(id, 'name', age)` pushed for a row. */
  function RowLiteral(r: MockRow): string
  {
    "(" + NatToString(r.id) + RowLiteralTail(r)
  }

  /** What follows the id in a row's tuple: `, 'name', age)`. */
  function RowLiteralTail(r: MockRow): (tail: string)
    ensures tail != [] && tail[0] == ','
  {
    ", '" + r.name + "', " + NatToString(r.age) + ")"
  }

  /** The tuples of rows 1..n, in order. */
  function MockRows(n: nat): (rows: seq<string>)
    ensures |rows| == n
  {
    seq(n, k requires 0 <= k < n => RowLiteral(UserRow(k + 1)))
  }

  /** The counting loop that pushes one tuple per row `i = 1..n`. */
  method GenerateRows(n: nat) returns (rows: seq<string>)
    ensures |rows| == n
    ensures forall k :: 0 <= k < n ==> rows[k] == RowLiteral(UserRow(k + 1))
  {
    rows := [];
    for i := 1 to n + 1
      invariant |rows| == i - 1
      invariant forall k :: 0 <= k < i - 1 ==> rows[k] == RowLiteral(UserRow(k + 1))
    {
      var name := "user_" + NatToString(i);
      var age := 20 + i % 40;
      rows := rows + [RowLiteral(MockRow(i, name, age))];
    }
  }

  /** The tuple of row `i` gives `i` back: distinct rows have distinct tuples. */
  lemma RowLiteralInjective(i: nat, j: nat)
    requires RowLiteral(UserRow(i)) == RowLiteral(UserRow(j))
    ensures i == j
  {
    var lit := RowLiteral(UserRow(i));
    AfterOpenParen(NatToString(i), RowLiteralTail(UserRow(i)));
    AfterOpenParen(NatToString(j), RowLiteralTail(UserRow(j)));
    LeadingDigitsOf(NatToString(i), RowLiteralTail(UserRow(i)));
    LeadingDigitsOf(NatToString(j), RowLiteralTail(UserRow(j)));
    assert NatToString(i) == LeadingDigits(lit[1..]) == NatToString(j);
    NatToStringInjective(i, j);
  }

  lemma AfterOpenParen(d: string, tail: string)
    ensures ("(" + d + tail)[1..] == d + tail
  {
  }

  /** The generated rows run in order of id and contain no duplicate. */
  lemma MockRowsDistinct(n: nat, j: nat, k: nat)
    requires j < k < n
    ensures MockRows(n)[j] != MockRows(n)[k]
  {
    if MockRows(n)[j] == MockRows(n)[k] {
      RowLiteralInjective(j + 1, k + 1);
    }
  }

  /** One batch: its 1-based row range as the import log shows it, and its tuples. */
  datatype Batch = Batch(first: nat, last: nat, chunk: seq<string>)

  /** The batches the insert loop forms from `rows`, starting at index `from`. */
  function Batches(rows: seq<string>, size: nat, from: nat): seq<Batch>
    requires size > 0
    decreases |rows| - from
  {
    if from >= |rows| then []
    else
      var last := Min(from + size, |rows|);
      [Batch(from + 1, last, rows[from..last])] + Batches(rows, size, from + size)
  }

  /** All the tuples of a list of batches, in order. */
  function Flatten(batches: seq<Batch>): seq<string>
  {
    if batches == [] then [] else batches[0].chunk + Flatten(batches[1..])
  }

  /** There are just enough batches to reach the end of `rows`. */
  lemma {:induction false} BatchCount(rows: seq<string>, size: nat, from: nat)
    requires size > 0
    ensures var bs := Batches(rows, size, from);
      && (from >= |rows| ==> bs == [])
      && (from < |rows| ==> (|bs| - 1) * size < |rows| - from <= |bs| * size)
    decreases |rows| - from
  {
    if from < |rows| {
      var rest := Batches(rows, size, from + size);
      BatchCount(rows, size, from + size);
      assert |Batches(rows, size, from)| == |rest| + 1;
      assert |rest| * size + size == (|rest| + 1) * size;
    }
  }

  /**
   * Batch k starts at `start = from + k * size`, holds `rows[start .. min(start + size, n)]`
   * (1 to `size` tuples) and is labelled `start + 1 .. min(start + size, n)`.
   */
  lemma {:induction false} BatchAt(rows: seq<string>, size: nat, from: nat, k: nat)
    requires size > 0 && k < |Batches(rows, size, from)|
    ensures var start := from + k * size;
      && start < |rows|
      && Batches(rows, size, from)[k] == Batch(start + 1, Min(start + size, |rows|), rows[start..Min(start + size, |rows|)])
      && 1 <= |Batches(rows, size, from)[k].chunk| <= size
    decreases k
  {
    var bs := Batches(rows, size, from);
    assert bs[1..] == Batches(rows, size, from + size);
    if k > 0 {
      BatchAt(rows, size, from + size, k - 1);
      assert (k - 1) * size + size == k * size;
    }
  }

  /** Joined in order, the batches from `from` are exactly `rows[from..]`. */
  lemma {:induction false} BatchesCover(rows: seq<string>, size: nat, from: nat)
    requires size > 0 && from <= |rows|
    ensures Flatten(Batches(rows, size, from)) == rows[from..]
    decreases |rows| - from
  {
    var bs := Batches(rows, size, from);
    if from < |rows| {
      var last := Min(from + size, |rows|);
      assert bs[1..] == Batches(rows, size, from + size);
      if from + size < |rows| {
        BatchesCover(rows, size, from + size);
        assert rows[from..last] + rows[from + size..] == rows[from..];
      } else {
        assert Batches(rows, size, from + size) == [];
        assert rows[from..last] + [] == rows[from..];
      }
    }
  }

  /** The statement that inserts one batch. */
  function InsertSql(tableName: string, chunk: seq<string>): string
  {
    "INSERT INTO '" + tableName + "' VALUES\n" + Join(chunk, ",\n") + ";"
  }

  /** For each batch: its insert query, then its line in the import log. */
  function BatchTrace(tableName: string, batches: seq<Batch>): (trace: seq<Effect>)
    ensures |trace| == 2 * |batches|
  {
    if batches == [] then []
    else
      [Engine(Query(InsertSql(tableName, batches[0].chunk))), ShowProgress(batches[0].first, batches[0].last)]
      + BatchTrace(tableName, batches[1..])
  }

  /** Effect 2k of a batch trace is batch k's query and effect 2k + 1 its progress line. */
  lemma {:induction false} BatchTraceAt(tableName: string, batches: seq<Batch>, k: nat)
    requires k < |batches|
    ensures BatchTrace(tableName, batches)[2 * k] == Engine(Query(InsertSql(tableName, batches[k].chunk)))
    ensures BatchTrace(tableName, batches)[2 * k + 1] == ShowProgress(batches[k].first, batches[k].last)
  {
    if k > 0 {
      BatchTraceAt(tableName, batches[1..], k - 1);
    }
  }

  /** The engine calls of a batch trace are the batches' inserts, in order. */
  lemma {:induction false} BatchTraceCalls(tableName: string, batches: seq<Batch>)
    ensures var calls := EngineCalls(BatchTrace(tableName, batches));
      |calls| == |batches|
      && forall k :: 0 <= k < |batches| ==> calls[k] == Query(InsertSql(tableName, batches[k].chunk))
  {
    if batches != [] {
      var step := [Engine(Query(InsertSql(tableName, batches[0].chunk))), ShowProgress(batches[0].first, batches[0].last)];
      BatchTraceCalls(tableName, batches[1..]);
      EngineCallsAppend(step, BatchTrace(tableName, batches[1..]));
      assert EngineCalls(step) == [Query(InsertSql(tableName, batches[0].chunk))] by {
        assert step[1..][1..] == [];
      }
    }
  }

  /** The loop that inserts `rows` in slices of `size`, logging each slice's range. */
  method InsertBatches(tableName: string, rows: seq<string>, size: nat) returns (trace: seq<Effect>)
    requires size > 0
    ensures trace == BatchTrace(tableName, Batches(rows, size, 0))
  {
    trace := [];
    var i := 0;
    while i < |rows|
      invariant trace + BatchTrace(tableName, Batches(rows, size, i)) == BatchTrace(tableName, Batches(rows, size, 0))
      decreases |rows| - i
    {
      var last := Min(i + size, |rows|);
      var chunk := Join(rows[i..last], ",\n");
      var insertSql := "INSERT INTO '" + tableName + "' VALUES\n" + chunk + ";";
      ghost var bs := Batches(rows, size, i);
      var step := [Engine(Query(insertSql)), ShowProgress(i + 1, last)];
      assert bs[0] == Batch(i + 1, last, rows[i..last]) && bs[1..] == Batches(rows, size, i + size);
      assert BatchTrace(tableName, bs) == step + BatchTrace(tableName, bs[1..]);
      assert (trace + step) + BatchTrace(tableName, bs[1..]) == trace + BatchTrace(tableName, bs);
      trace := trace + step;
      i := i + size;
    }
  }

  /** The CREATE TABLE statement both mock tables start with, up to its last line break. */
  function CreateMockTableHead(tableName: string): string
  {
    "\n      CREATE TABLE '" + tableName + "' (\n        id INTEGER,\n        name TEXT,\n        age INTEGER\n      );\n"
  }

  /** The first query of the large mock table. */
  function CreateMassiveTableSql(tableName: string): string
  {
    CreateMockTableHead(tableName) + "    "
  }

  /** The batches of the large mock table. */
  function MassiveBatches(): seq<Batch>
  {
    Batches(MockRows(MassiveRowCount), BatchSize, 0)
  }

  /**
   * `uploadMassiveMockTable` when every engine call succeeds: the name is
   * trimmed and refused with an alert when empty; nothing happens when the
   * engine is not initialized; otherwise the log is cleared, the table is
   * created, the batches are inserted and logged, and the connection closed.
   */
  function MassivePlan(input: string, dbReady: bool): seq<Effect>
  {
    var tableName := Trim(input);
    if tableName == "" then [Alert(NoTableNameMessage)]
    else if !dbReady then []
    else SyntheticTablePlan(tableName, MassiveBatches())
  }

  /** Clear the log, connect, create the table, insert and log each batch, close. */
  function SyntheticTablePlan(tableName: string, batches: seq<Batch>): seq<Effect>
  {
    [ClearImportLog, Engine(Connect), Engine(Query(CreateMassiveTableSql(tableName)))]
    + BatchTrace(tableName, batches)
    + [Engine(Close), RefreshTableList]
  }

  /** The engine calls of a synthetic table run: connect, create, one insert per batch, close. */
  lemma SyntheticTableCalls(tableName: string, batches: seq<Batch>)
    ensures var calls := EngineCalls(SyntheticTablePlan(tableName, batches));
      && |calls| == |batches| + 3
      && calls[0] == Connect
      && calls[1] == Query(CreateMassiveTableSql(tableName))
      && (forall k :: 0 <= k < |batches| ==> calls[2 + k] == Query(InsertSql(tableName, batches[k].chunk)))
      && calls[|batches| + 2] == Close
  {
    var head := [ClearImportLog, Engine(Connect), Engine(Query(CreateMassiveTableSql(tableName)))];
    var body := BatchTrace(tableName, batches);
    var tail := [Engine(Close), RefreshTableList];
    BatchTraceCalls(tableName, batches);
    EngineCallsAppend(head + body, tail);
    EngineCallsAppend(head, body);
    EngineCallsAppend([ClearImportLog], [Engine(Connect), Engine(Query(CreateMassiveTableSql(tableName)))]);
    EngineCallsAppend([Engine(Connect)], [Engine(Query(CreateMassiveTableSql(tableName)))]);
    assert head == [ClearImportLog] + ([Engine(Connect)] + [Engine(Query(CreateMassiveTableSql(tableName)))]);
    EngineCallsAppend([Engine(Close)], [RefreshTableList]);
    assert tail == [Engine(Close)] + [RefreshTableList];
  }

  /**
   * Effect 3 + 2k of a synthetic table run is batch k's insert, and the
   * effect right after it is that batch's progress line.
   */
  lemma SyntheticTableProgress(tableName: string, batches: seq<Batch>, k: nat)
    requires k < |batches|
    ensures var plan := SyntheticTablePlan(tableName, batches);
      && |plan| == 2 * |batches| + 5
      && plan[3 + 2 * k] == Engine(Query(InsertSql(tableName, batches[k].chunk)))
      && plan[3 + 2 * k + 1] == ShowProgress(batches[k].first, batches[k].last)
  {
    BatchTraceAt(tableName, batches, k);
    var head := [ClearImportLog, Engine(Connect), Engine(Query(CreateMassiveTableSql(tableName)))];
    var body := BatchTrace(tableName, batches);
    var tail := [Engine(Close), RefreshTableList];
    assert (head + body + tail)[3 + 2 * k] == body[2 * k];
    assert (head + body + tail)[3 + 2 * k + 1] == body[2 * k + 1];
  }

  /** `uploadMassiveMockTable`, where engine call number `failure` (if any) rejects. */
  method UploadMassiveMockTable(input: string, dbReady: bool, failure: Option<nat>) returns (trace: seq<Effect>)
    ensures trace == Interrupted(MassivePlan(input, dbReady), failure)
  {
    var tableName := Trim(input);
    if tableName == "" {
      trace := Interrupted([Alert(NoTableNameMessage)], failure);
      return;
    }
    if !dbReady {
      trace := Interrupted([], failure);
      return;
    }
    var rows := GenerateRows(MassiveRowCount);
    assert rows == MockRows(MassiveRowCount);
    var inserts := InsertBatches(tableName, rows, BatchSize);
    trace := Interrupted(
      [ClearImportLog, Engine(Connect), Engine(Query(CreateMassiveTableSql(tableName)))]
      + inserts + [Engine(Close), RefreshTableList], failure);
    assert inserts == BatchTrace(tableName, MassiveBatches());
  }

  /**
   * The large table has 10000 rows in 20 batches of 500: batch k covers rows
   * 500k + 1 .. 500k + 500, and the batches joined are the rows exactly.
   */
  lemma MassiveBatchesShape()
    ensures var bs := MassiveBatches();
      && |bs| == 20
      && Flatten(bs) == MockRows(MassiveRowCount)
      && forall k :: 0 <= k < 20 ==>
           bs[k].first == 500 * k + 1 && bs[k].last == 500 * k + 500 && |bs[k].chunk| == 500
  {
    var rows := MockRows(MassiveRowCount);
    var bs := MassiveBatches();
    MassiveBatchCount();
    forall k | 0 <= k < 20
      ensures bs[k].first == 500 * k + 1 && bs[k].last == 500 * k + 500 && |bs[k].chunk| == 500
    {
      BatchAt(rows, BatchSize, 0, k);
    }
    BatchesCover(rows, BatchSize, 0);
    assert rows[0..] == rows;
  }

  lemma MassiveBatchCount()
    ensures |MassiveBatches()| == 20
  {
    var n := |MassiveBatches()|;
    BatchCount(MockRows(MassiveRowCount), BatchSize, 0);
    assert (n - 1) * 500 < 10000 <= n * 500;
  }

  /** A blank name (all whitespace) is refused before any engine call. */
  lemma MassiveMockBlankName(input: string, dbReady: bool, failure: Option<nat>)
    requires forall k :: 0 <= k < |input| ==> IsJsWhitespace(input[k])
    ensures MassivePlan(input, dbReady) == [Alert(NoTableNameMessage)]
    ensures EngineCalls(Interrupted(MassivePlan(input, dbReady), failure)) == []
  {
    var plan := MassivePlan(input, dbReady);
    assert EngineCalls(plan) == [] by {
      assert plan[1..] == [];
    }
  }

  /**
   * A full run with a usable name: connect, create the table named by the
   * trimmed input, the 20 inserts in order, close.
   */
  lemma MassiveMockCalls(input: string)
    requires Trim(input) != ""
    ensures var calls := EngineCalls(MassivePlan(input, true));
      var tableName := Trim(input);
      && |MassiveBatches()| == 20
      && |calls| == 23
      && calls[0] == Connect
      && calls[1] == Query(CreateMassiveTableSql(tableName))
      && (forall k :: 0 <= k < 20 ==> calls[2 + k] == Query(InsertSql(tableName, MassiveBatches()[k].chunk)))
      && calls[22] == Close
  {
    MassiveBatchCount();
    SyntheticTableCalls(Trim(input), MassiveBatches());
  }

  /** The progress lines of a full run show the ranges 1 .. 500, 501 .. 1000, ..., 9501 .. 10000. */
  lemma MassiveMockProgress(input: string, k: nat)
    requires Trim(input) != "" && k < 20
    ensures var plan := MassivePlan(input, true);
      |plan| == 45 && plan[3 + 2 * k + 1] == ShowProgress(500 * k + 1, 500 * k + 500)
  {
    MassiveBatchesShape();
    SyntheticTableProgress(Trim(input), MassiveBatches(), k);
  }

  /** The ten value tuples `uploadMockTable` inserts each time. */
  const MockValueTuples: seq<string> := [
    "(1, 'Alice', 25)", "(2, 'Bob', 32)", "(3, 'Charlie', 40)", "(4, 'Diana', 28)",
    "(5, 'Ethan', 22)", "(6, 'Fiona', 35)", "(7, 'George', 30)", "(8, 'Helen', 27)",
    "(9, 'Ivan', 29)", "(10, 'Jenny', 33)"]

  const MockInsertCount: nat := 10

  /** The values literal: one tuple per line. */
  function MockValuesSql(): string
  {
    "\n      " + Join(MockValueTuples, ",\n      ") + "\n    "
  }

  /** One of the repeated INSERT statements. */
  function MockInsertSql(tableName: string): string
  {
    "INSERT INTO '" + tableName + "' VALUES " + MockValuesSql() + ";\n"
  }

  /** The loop `insertSQL += ...` run `times` times from the empty string. */
  method RepeatInserts(tableName: string, times: nat) returns (insertSql: string)
    ensures insertSql == Repeat(MockInsertSql(tableName), times)
  {
    insertSql := "";
    for i := 0 to times
      invariant insertSql == Repeat(MockInsertSql(tableName), i)
    {
      insertSql := insertSql + MockInsertSql(tableName);
    }
  }

  /** The single query of `uploadMockTable`: the CREATE TABLE, then the inserts. */
  function MockTableSql(tableName: string, insertSql: string): string
  {
    CreateMockTableHead(tableName) + "      " + insertSql + "\n    "
  }

  /**
   * `uploadMockTable` when every engine call succeeds: an alert for an empty
   * name (not trimmed), nothing when the engine is not initialized, otherwise
   * connect, one query, close.
   */
  function MockTablePlan(tableName: string, dbReady: bool): seq<Effect>
  {
    if tableName == "" then [Alert(NoTableNameMessage)]
    else if !dbReady then []
    else
      [Engine(Connect),
       Engine(Query(MockTableSql(tableName, Repeat(MockInsertSql(tableName), MockInsertCount)))),
       Engine(Close), RefreshTableList]
  }

  /** `uploadMockTable`, where engine call number `failure` (if any) rejects. */
  method UploadMockTable(tableName: string, dbReady: bool, failure: Option<nat>) returns (trace: seq<Effect>)
    ensures trace == Interrupted(MockTablePlan(tableName, dbReady), failure)
  {
    if tableName == "" {
      trace := Interrupted([Alert(NoTableNameMessage)], failure);
      return;
    }
    if !dbReady {
      trace := Interrupted([], failure);
      return;
    }
    var insertSql := RepeatInserts(tableName, MockInsertCount);
    var createAndInsert := MockTableSql(tableName, insertSql);
    trace := Interrupted([Engine(Connect), Engine(Query(createAndInsert)), Engine(Close), RefreshTableList], failure);
  }

  /**
   * The mock table query is the CREATE TABLE, an indent, exactly ten copies of
   * one INSERT of the ten tuples laid end to end, and a closing line.
   */
  lemma MockTableQuery(tableName: string, k: nat)
    requires k < MockInsertCount
    ensures var q := MockTableSql(tableName, Repeat(MockInsertSql(tableName), MockInsertCount));
      var stmt := MockInsertSql(tableName);
      var offset := |CreateMockTableHead(tableName)| + 6;
      && q[..|CreateMockTableHead(tableName)|] == CreateMockTableHead(tableName)
      && offset + (k + 1) * |stmt| <= |q|
      && |q| == offset + MockInsertCount * |stmt| + 5
      && q[offset + k * |stmt|..offset + (k + 1) * |stmt|] == stmt
  {
    RepeatedAfterHead(CreateMockTableHead(tableName), MockInsertSql(tableName), MockInsertCount, k);
  }

  /** In `head`, an indent, n copies of `stmt` and a tail, copy k sits at its own offset. */
  lemma RepeatedAfterHead(head: string, stmt: string, n: nat, k: nat)
    requires k < n
    ensures var q := head + "      " + Repeat(stmt, n) + "\n    ";
      var offset := |head| + 6;
      && q[..|head|] == head
      && offset + (k + 1) * |stmt| <= |q|
      && |q| == offset + n * |stmt| + 5
      && q[offset + k * |stmt|..offset + (k + 1) * |stmt|] == stmt
  {
    RepeatAt(stmt, n, k);
    InfixOfConcat(head, "      ", Repeat(stmt, n), "\n    ", k * |stmt|, (k + 1) * |stmt|);
  }

  /** A slice of the third part of a four-part concatenation. */
  lemma InfixOfConcat(a: string, b: string, c: string, d: string, i: nat, j: nat)
    requires i <= j <= |c|
    ensures var s := a + b + c + d;
      s[..|a|] == a && |a| + |b| + j <= |s| && s[|a| + |b| + i..|a| + |b| + j] == c[i..j]
  {
    var s := a + b + c + d;
    assert s == a + (b + c + d);
    assert s[..|a|] == a;
  }

  /** With a non-empty name and no failure: connect, the one query, close. */
  lemma MockTableCalls(tableName: string)
    requires tableName != ""
    ensures EngineCalls(MockTablePlan(tableName, true))
      == [Connect, Query(MockTableSql(tableName, Repeat(MockInsertSql(tableName), MockInsertCount))), Close]
  {
    var q := MockTableSql(tableName, Repeat(MockInsertSql(tableName), MockInsertCount));
    EngineCallsAppend([Engine(Connect)], [Engine(Query(q)), Engine(Close), RefreshTableList]);
    EngineCallsAppend([Engine(Query(q))], [Engine(Close), RefreshTableList]);
    EngineCallsAppend([Engine(Close)], [RefreshTableList]);
    assert MockTablePlan(tableName, true) == [Engine(Connect)] + ([Engine(Query(q))] + ([Engine(Close)] + [RefreshTableList]));
  }

  /** An empty name is refused before any engine call, whatever would fail. */
  lemma MockTableEmptyName(dbReady: bool, failure: Option<nat>)
    ensures MockTablePlan("", dbReady) == [Alert(NoTableNameMessage)]
    ensures EngineCalls(Interrupted(MockTablePlan("", dbReady), failure)) == []
  {
    var plan := MockTablePlan("", dbReady);
    assert EngineCalls(plan) == [] by {
      assert plan[1..] == [];
    }
  }
}
