/**
 * Loading a user's CSV, Parquet or JSON file into a new table (`uploadTable`):
 * the format is chosen from the file name's extension, the file's bytes are
 * registered under a virtual path and one `CREATE TABLE ... AS FROM <reader>`
 * query reads them.
 */
module Ingestion {
  import opened Wrappers
  import opened Text
  import opened Trace

  /** The file picked in the file input: its name and its bytes. */
  datatype SelectedFile = SelectedFile(name: string, data: seq<byte>)

  /** The formats the page can read. */
  datatype Format = Csv | Parquet | Json

  /**
   * `file.name.split(".").pop()?.toLowerCase() || ""`. `split` never returns
   * an empty array, so `pop` always yields a piece, and `|| ""` maps only the
   * empty string to itself.
   */
  function FileType(name: string): (t: string)
    ensures '.' !in t
  {
    Lower(Last(Split(name, '.')))
  }

  /**
   * The file type is the lower-cased text after the last dot: the whole name
   * when it has no dot, nothing when it ends in a dot.
   */
  lemma FileTypeAfterLastDot(name: string)
    ensures FileType(name) == Lower(AfterLast(name, '.'))
    ensures '.' !in name ==> FileType(name) == Lower(name)
    ensures |name| > 0 && name[|name| - 1] == '.' ==> FileType(name) == ""
  {
    LastOfSplit(name, '.');
    var t := AfterLast(name, '.');
    if '.' !in name {
      assert |t| == |name|;
    }
  }

  /** The format an extension selects, if any. */
  function FormatOf(fileType: string): (f: Option<Format>)
    ensures f == Some(Csv) <==> fileType == "csv"
    ensures f == Some(Parquet) <==> fileType == "parquet"
    ensures f == Some(Json) <==> fileType == "json"
  {
    if fileType == "csv" then Some(Csv)
    else if fileType == "parquet" then Some(Parquet)
    else if fileType == "json" then Some(Json)
    else None
  }

  /** A file type `uploadTable` reads: one that selects a format. */
  predicate Accepted(fileType: string)
  {
    FormatOf(fileType).Some?
  }

  /** The table function that reads the registered file in each format. */
  function ReaderCall(f: Format, path: string): string
  {
    match f
    case Csv => "read_csv_auto('" + path + "', header = true)"
    case Parquet => "read_parquet('" + path + "')"
    case Json => "read_json_auto('" + path + "')"
  }

  /**
   * The query `uploadTable` issues for a file type, or None when the type is
   * not one it reads. The table name goes in unescaped between single quotes.
   */
  function BuildIngestQuery(fileType: string, tableName: string, path: string): (q: Option<string>)
    ensures q.Some? <==> Accepted(fileType)
    ensures fileType == "csv" ==>
      q == Some("CREATE TABLE '" + tableName + "' AS FROM read_csv_auto('" + path + "', header = true)")
    ensures fileType == "parquet" ==>
      q == Some("CREATE TABLE '" + tableName + "' AS FROM read_parquet('" + path + "')")
    ensures fileType == "json" ==>
      q == Some("CREATE TABLE '" + tableName + "' AS FROM read_json_auto('" + path + "')")
  {
    match FormatOf(fileType)
    case None => None
    case Some(f) =>
      IngestQueryText(f, tableName, path);
      Some("CREATE TABLE '" + tableName + "' AS FROM " + ReaderCall(f, path))
  }

  lemma IngestQueryText(f: Format, tableName: string, path: string)
    ensures var q := "CREATE TABLE '" + tableName + "' AS FROM " + ReaderCall(f, path);
      match f
      case Csv => q == "CREATE TABLE '" + tableName + "' AS FROM read_csv_auto('" + path + "', header = true)"
      case Parquet => q == "CREATE TABLE '" + tableName + "' AS FROM read_parquet('" + path + "')"
      case Json => q == "CREATE TABLE '" + tableName + "' AS FROM read_json_auto('" + path + "')"
  {
    var head := "CREATE TABLE '" + tableName;
    match f
    case Csv =>
      assert "' AS FROM " + "read_csv_auto('" == "' AS FROM read_csv_auto('";
      calc {
        head + "' AS FROM " + ("read_csv_auto('" + path + "', header = true)");
        head + ("' AS FROM " + "read_csv_auto('") + path + "', header = true)";
      }
    case Parquet =>
      assert "' AS FROM " + "read_parquet('" == "' AS FROM read_parquet('";
      calc {
        head + "' AS FROM " + ("read_parquet('" + path + "')");
        head + ("' AS FROM " + "read_parquet('") + path + "')";
      }
    case Json =>
      assert "' AS FROM " + "read_json_auto('" == "' AS FROM read_json_auto('";
      calc {
        head + "' AS FROM " + ("read_json_auto('" + path + "')");
        head + ("' AS FROM " + "read_json_auto('") + path + "')";
      }
  }

  /** The position of the reader's first letter after `read_` in an ingest query. */
  function ReaderLetterIndex(tableName: string): nat
  {
    |"CREATE TABLE '"| + |tableName| + |"' AS FROM "| + |"read_"|
  }

  /** The character after `read_` tells the formats apart. */
  lemma ReaderLetter(fileType: string, tableName: string, path: string)
    requires Accepted(fileType)
    ensures var q := BuildIngestQuery(fileType, tableName, path).value;
      ReaderLetterIndex(tableName) < |q| && q[ReaderLetterIndex(tableName)] == fileType[0]
  {
    var f := FormatOf(fileType).value;
    var head := "CREATE TABLE '" + tableName + "' AS FROM ";
    var reader := ReaderCall(f, path);
    var q := head + reader;
    assert BuildIngestQuery(fileType, tableName, path).value == q;
    assert |head| + 5 == ReaderLetterIndex(tableName);
    assert q[|head| + 5] == reader[5];
    match f
    case Csv => assert reader[5] == 'c';
    case Parquet => assert reader[5] == 'p';
    case Json => assert reader[5] == 'j';
  }

  /** Different accepted types give different queries: the dispatch loses nothing. */
  lemma IngestQueryDeterminesType(t1: string, t2: string, tableName: string, path: string)
    requires Accepted(t1) && Accepted(t2)
    requires BuildIngestQuery(t1, tableName, path) == BuildIngestQuery(t2, tableName, path)
    ensures t1 == t2
  {
    ReaderLetter(t1, tableName, path);
    ReaderLetter(t2, tableName, path);
  }

  /** The virtual path the file's bytes are registered under. */
  function VirtualPath(fileName: string): string
  {
    "/" + fileName
  }

  /**
   * `uploadTable` when every engine call succeeds: an alert for a missing
   * file or an empty table name, nothing when the engine is not initialized,
   * then a connection and, for an accepted type only, the registration
   * followed by the query and a table list refresh.
   */
  function UploadPlan(file: Option<SelectedFile>, tableName: string, dbReady: bool): seq<Effect>
  {
    if file.None? then [Alert(NoFileMessage)]
    else if tableName == "" then [Alert(NoTableNameMessage)]
    else if !dbReady then []
    else
      var path := VirtualPath(file.value.name);
      match BuildIngestQuery(FileType(file.value.name), tableName, path)
      case None => [Engine(Connect)]
      case Some(q) =>
        [Engine(Connect), Engine(RegisterFileBuffer(path, file.value.data)), Engine(Query(q)), RefreshTableList]
  }

  /** `uploadTable`, where engine call number `failure` (if any) rejects. */
  function UploadTable(file: Option<SelectedFile>, tableName: string, dbReady: bool, failure: Option<nat>): seq<Effect>
  {
    Interrupted(UploadPlan(file, tableName, dbReady), failure)
  }

  /** An empty table name is refused with an alert before any engine call. */
  lemma UploadTableEmptyName(file: SelectedFile, dbReady: bool, failure: Option<nat>)
    ensures UploadTable(Some(file), "", dbReady, failure) == [Alert(NoTableNameMessage)]
    ensures EngineCalls(UploadTable(Some(file), "", dbReady, failure)) == []
  {
    var plan := UploadPlan(Some(file), "", dbReady);
    assert EngineCalls(plan) == [] by {
      assert plan[1..] == [];
    }
  }

  /**
   * The engine calls of every run, interrupted or not, for a file, a
   * non-empty table name and an initialized engine: a prefix of connect,
   * register the bytes at `"/" + name`, then the ingest query when the type
   * is accepted; at most the connection otherwise. A run without failure
   * issues all of them.
   */
  lemma UploadTableCalls(file: SelectedFile, tableName: string, failure: Option<nat>)
    requires tableName != ""
    ensures var calls := EngineCalls(UploadTable(Some(file), tableName, true, failure));
      var fileType := FileType(file.name);
      var path := VirtualPath(file.name);
      var full := if Accepted(fileType)
        then [Connect, RegisterFileBuffer(path, file.data), Query(BuildIngestQuery(fileType, tableName, path).value)]
        else [Connect];
      calls <= full && (failure.None? ==> calls == full)
  {
    var plan := UploadPlan(Some(file), tableName, true);
    var fileType := FileType(file.name);
    var path := VirtualPath(file.name);
    if Accepted(fileType) {
      var q := BuildIngestQuery(fileType, tableName, path).value;
      EngineCallsAppend([Engine(Connect)], [Engine(RegisterFileBuffer(path, file.data)), Engine(Query(q)), RefreshTableList]);
      EngineCallsAppend([Engine(RegisterFileBuffer(path, file.data))], [Engine(Query(q)), RefreshTableList]);
      EngineCallsAppend([Engine(Query(q))], [RefreshTableList]);
      assert plan == [Engine(Connect)] + ([Engine(RegisterFileBuffer(path, file.data))] + ([Engine(Query(q))] + [RefreshTableList]));
    } else {
      assert plan == [Engine(Connect)];
    }
  }

  /** A file of any other type is never registered and never queried. */
  lemma UploadTableRejectsOtherTypes(file: SelectedFile, tableName: string, dbReady: bool, failure: Option<nat>)
    requires !Accepted(FileType(file.name))
    ensures var calls := EngineCalls(UploadTable(Some(file), tableName, dbReady, failure));
      forall i :: 0 <= i < |calls| ==> calls[i] == Connect
  {
    var plan := UploadPlan(Some(file), tableName, dbReady);
    assert EngineCalls(plan) == [] || EngineCalls(plan) == [Connect] by {
      if plan != [] {
        assert plan[1..] == [];
      }
    }
  }
}
