/** The analytics server's tools that reach the database, each run against
    the process's data manager and the engine oracle. Every tool is a method
    that goes through `DataManager.ExecuteQuery`, proved equal to a pure
    definition of what the tool returns; the lemmas are about those
    definitions. */
module Server {
  import opened Values
  import opened Records
  import opened Database
  import opened SqlGuard
  import opened Accumulate

  const WeatherTable := "weather_data.london_weather"

  /** Keeps the first `n` elements, as a Python slice `s[:n]` does. */
  function Take<T>(s: seq<T>, n: nat): (r: seq<T>)
    ensures |r| == (if |s| < n then |s| else n) && r <= s
  {
    if |s| < n then s else s[..n]
  }

  // ----- query_weather_data -----

  const WeatherRowsQuery :=
    "SELECT latitude, longitude, current_units__time, current_units__temperature_2m " +
    "FROM weather_data.london_weather LIMIT ?"

  datatype WeatherRows =
    | NoWeatherData
    | WeatherData(records: seq<Record>)
    | WeatherQueryFailed(error: Error)

  /** What `query_weather_data` reports for the answer to its query: the
      rows, unless there are none or `json.dumps` cannot encode them. */
  function WeatherRowsOf(result: Result<seq<Record>>): (w: WeatherRows)
    ensures w.WeatherData? <==> result.Ok? && |result.value| > 0 && RowsSerializable(result.value)
    ensures w.WeatherData? ==> result == Ok(w.records)
    ensures w.NoWeatherData? <==> result == Ok([])
    ensures w.WeatherQueryFailed? && result.Ok? ==> w.error == NotSerializable
    ensures result.Err? ==> w == WeatherQueryFailed(result.error)
  {
    match result
    case Err(e) => WeatherQueryFailed(e)
    case Ok(rows) =>
      if |rows| == 0 then NoWeatherData
      else if RowsSerializable(rows) then WeatherData(rows)
      else WeatherQueryFailed(NotSerializable)
  }

  /** `query_weather_data(limit)`: the stored rows, `limit` bound to the query's placeholder. */
  method QueryWeatherData(dm: DataManager, engine: Engine, limit: int := 10) returns (r: WeatherRows)
    requires dm.Valid()
    modifies dm
    ensures dm.Valid() && dm.lockDepth == old(dm.lockDepth) && dm.openConnections == old(dm.openConnections)
    ensures dm.events == old(dm.events) + SessionTrace(engine, dm.dbPath, WeatherRowsQuery, [Int(limit)], ReadOnly)
    ensures r == WeatherRowsOf(QueryResult(engine, dm.dbPath, WeatherRowsQuery, [Int(limit)], ReadOnly))
  {
    var results := dm.ExecuteQuery(engine, WeatherRowsQuery, [Int(limit)]);
    if results.Err? {
      r := WeatherQueryFailed(results.error);
    } else if |results.value| == 0 {
      r := NoWeatherData;
    } else if !RowsSerializable(results.value) {
      r := WeatherQueryFailed(NotSerializable);
    } else {
      r := WeatherData(results.value);
    }
  }

  // ----- weather_analytics -----

  const SummaryQuery :=
    "SELECT COUNT(*) as total_records, MIN(current__time) as earliest_record, " +
    "MAX(current__time) as latest_record, " +
    "AVG(CAST(current__temperature_2m AS FLOAT)) as avg_temperature, " +
    "MIN(CAST(current__temperature_2m AS FLOAT)) as min_temperature, " +
    "MAX(CAST(current__temperature_2m AS FLOAT)) as max_temperature " +
    "FROM weather_data.london_weather WHERE current__temperature_2m IS NOT NULL"

  const TrendsQuery :=
    "SELECT DATE(current__time) as date, " +
    "AVG(CAST(current__temperature_2m AS FLOAT)) as avg_temp, " +
    "MIN(CAST(current__temperature_2m AS FLOAT)) as min_temp, " +
    "MAX(CAST(current__temperature_2m AS FLOAT)) as max_temp " +
    "FROM weather_data.london_weather WHERE current__temperature_2m IS NOT NULL " +
    "GROUP BY DATE(current__time) ORDER BY date DESC LIMIT 7"

  const ConditionsQuery :=
    "SELECT CASE WHEN CAST(current__temperature_2m AS FLOAT) < 10 THEN 'Cold' " +
    "WHEN CAST(current__temperature_2m AS FLOAT) < 20 THEN 'Mild' ELSE 'Warm' " +
    "END as condition_category, COUNT(*) as frequency, " +
    "AVG(CAST(current__temperature_2m AS FLOAT)) as avg_temp_in_category " +
    "FROM weather_data.london_weather WHERE current__temperature_2m IS NOT NULL " +
    "GROUP BY condition_category ORDER BY frequency DESC"

  /** The query behind each analysis type; exact, case-sensitive matching. */
  function AnalysisQuery(analysisType: string): (q: Option<string>)
    ensures q.Some? <==> analysisType == "summary" || analysisType == "trends" || analysisType == "conditions"
    ensures analysisType == "summary" ==> q == Some(SummaryQuery)
    ensures analysisType == "trends" ==> q == Some(TrendsQuery)
    ensures analysisType == "conditions" ==> q == Some(ConditionsQuery)
  {
    if analysisType == "summary" then Some(SummaryQuery)
    else if analysisType == "trends" then Some(TrendsQuery)
    else if analysisType == "conditions" then Some(ConditionsQuery)
    else None
  }

  datatype Analytics =
    | UnknownAnalysis(analysisType: string)
    | NoAnalysisData
    | Insights(analysisType: string, records: seq<Record>)
    | AnalyticsFailed(error: Error)

  /** What `weather_analytics` reports for the answer to a known type's
      query: the rows as insights, unless there are none or `json.dumps`
      cannot encode them. */
  function AnalyticsOf(analysisType: string, result: Result<seq<Record>>): (a: Analytics)
    ensures a.Insights? <==> result.Ok? && |result.value| > 0 && RowsSerializable(result.value)
    ensures a.Insights? ==> a.analysisType == analysisType && result == Ok(a.records)
    ensures a.NoAnalysisData? <==> result == Ok([])
    ensures a.AnalyticsFailed? && result.Ok? ==> a.error == NotSerializable
    ensures result.Err? ==> a == AnalyticsFailed(result.error)
    ensures !a.UnknownAnalysis?
  {
    match result
    case Err(e) => AnalyticsFailed(e)
    case Ok(rows) =>
      if |rows| == 0 then NoAnalysisData
      else if RowsSerializable(rows) then Insights(analysisType, rows)
      else AnalyticsFailed(NotSerializable)
  }

  /** `weather_analytics(analysis_type)`: one query for a known type; an
      unknown type is answered without touching the database. */
  method WeatherAnalytics(dm: DataManager, engine: Engine, analysisType: string := "summary")
    returns (r: Analytics)
    requires dm.Valid()
    modifies dm
    ensures dm.Valid() && dm.lockDepth == old(dm.lockDepth) && dm.openConnections == old(dm.openConnections)
    ensures AnalysisQuery(analysisType).None? ==>
              r == UnknownAnalysis(analysisType) && dm.events == old(dm.events)
    ensures AnalysisQuery(analysisType).Some? ==>
              var q := AnalysisQuery(analysisType).value;
              dm.events == old(dm.events) + SessionTrace(engine, dm.dbPath, q, [], ReadOnly) &&
              r == AnalyticsOf(analysisType, QueryResult(engine, dm.dbPath, q, [], ReadOnly))
  {
    var query := AnalysisQuery(analysisType);
    if query.None? {
      return UnknownAnalysis(analysisType);
    }
    var results := dm.ExecuteQuery(engine, query.value);
    if results.Err? {
      r := AnalyticsFailed(results.error);
    } else if |results.value| == 0 {
      r := NoAnalysisData;
    } else if !RowsSerializable(results.value) {
      r := AnalyticsFailed(NotSerializable);
    } else {
      r := Insights(analysisType, results.value);
    }
  }

  // ----- execute_sql_query -----

  datatype SqlAnswer =
    | Refused(keyword: string)
    | Answered(query: string, records: seq<Record>)
    | SqlFailed(query: string, error: Error)

  /** What the tool reports for the text it sent and the data manager's
      answer: the rows, unless the query failed or `json.dumps` cannot
      encode them; the report names the text sent either way. */
  function SqlAnswerOf(sent: string, result: Result<seq<Record>>): (a: SqlAnswer)
    ensures !a.Refused? && a.query == sent
    ensures a.Answered? <==> result.Ok? && RowsSerializable(result.value)
    ensures a.Answered? ==> result == Ok(a.records)
    ensures a.SqlFailed? && result.Ok? ==> a.error == NotSerializable
    ensures result.Err? ==> a.SqlFailed? && a.error == result.error
  {
    match result
    case Ok(rows) => if RowsSerializable(rows) then Answered(sent, rows) else SqlFailed(sent, NotSerializable)
    case Err(e) => SqlFailed(sent, e)
  }

  /** `execute_sql_query(sql_query, limit)`: refuse a query that mentions a
      blocked keyword, otherwise bound it with a LIMIT and run it read-only. */
  method ExecuteSqlQuery(dm: DataManager, engine: Engine, sqlQuery: string, limit: int := 100)
    returns (r: SqlAnswer)
    requires dm.Valid()
    modifies dm
    ensures dm.Valid() && dm.lockDepth == old(dm.lockDepth) && dm.openConnections == old(dm.openConnections)
    ensures PlanQuery(sqlQuery, limit).Reject? ==>
              r == Refused(PlanQuery(sqlQuery, limit).keyword) && dm.events == old(dm.events)
    ensures PlanQuery(sqlQuery, limit).Run? ==>
              var sent := PlanQuery(sqlQuery, limit).query;
              dm.events == old(dm.events) + SessionTrace(engine, dm.dbPath, sent, [], ReadOnly) &&
              r == SqlAnswerOf(sent, QueryResult(engine, dm.dbPath, sent, [], ReadOnly))
  {
    var sqlUpper := Upper(sqlQuery);
    var i := 0;
    while i < |DangerousKeywords|
      invariant 0 <= i <= |DangerousKeywords|
      invariant FirstKeyword(sqlUpper, DangerousKeywords) == FirstKeyword(sqlUpper, DangerousKeywords[i..])
    {
      var keyword := DangerousKeywords[i];
      if Contains(sqlUpper, keyword) {
        return Refused(keyword);
      }
      i := i + 1;
    }
    var sent := sqlQuery;
    if !Contains(sqlUpper, "LIMIT") && limit != 0 {
      sent := StripTrailing(sqlQuery, ';') + " LIMIT " + Decimal(limit);
    }
    var results := dm.ExecuteQuery(engine, sent);
    if results.Err? {
      r := SqlFailed(sent, results.error);
    } else if !RowsSerializable(results.value) {
      r := SqlFailed(sent, NotSerializable);
    } else {
      r := Answered(sent, results.value);
    }
  }

  // ----- discover_database_schema -----

  const TablesQuery :=
    "SELECT table_schema, table_name, table_type FROM information_schema.tables " +
    "WHERE table_schema NOT IN ('information_schema', 'pg_catalog') " +
    "ORDER BY table_schema, table_name"

  const ColumnsQuery :=
    "SELECT column_name, data_type, is_nullable FROM information_schema.columns " +
    "WHERE table_schema = ? AND table_name = ? ORDER BY ordinal_position"

  function SampleQuery(tableName: string): string
  {
    "SELECT * FROM " + tableName + " LIMIT 3"
  }

  /** One entry of `database_schema.tables`. */
  datatype TableInfo = TableInfo(
    name: string,
    tableType: Value,
    columns: seq<Record>,
    sampleRows: nat,
    sampleData: seq<Record>)

  /** The sample rows of a table; a failing sample query counts as none. */
  function SampleOf(engine: Engine, path: string, tableName: string): seq<Record>
  {
    match QueryResult(engine, path, SampleQuery(tableName), [], ReadOnly)
    case Ok(rows) => rows
    case Err(_) => []
  }

  /** The columns query of a listed table, asked with its schema and name. */
  function ColumnsResult(engine: Engine, path: string, schema: Value, tableName: Value): Result<seq<Record>>
  {
    QueryResult(engine, path, ColumnsQuery, [schema, tableName], ReadOnly)
  }

  /** The listed row has the three keys the loop reads and its columns query succeeds. */
  predicate Describable(engine: Engine, path: string, table: Record)
  {
    Lookup(table, "table_schema").Some? && Lookup(table, "table_name").Some? &&
    Lookup(table, "table_type").Some? &&
    ColumnsResult(engine, path, Lookup(table, "table_schema").value, Lookup(table, "table_name").value).Ok?
  }

  /** The entry for one row of the table listing, or the error that ends the tool. */
  function TableEntry(engine: Engine, path: string, table: Record): (r: Result<TableInfo>)
    ensures r.Ok? <==> Describable(engine, path, table)
    ensures r.Ok? ==>
              r.value.columns ==
              ColumnsResult(engine, path, Lookup(table, "table_schema").value, Lookup(table, "table_name").value).value
    ensures r.Ok? ==> Lookup(table, "table_schema").Some? && Lookup(table, "table_name").Some? &&
                      Lookup(table, "table_type") == Some(r.value.tableType)
    ensures r.Ok? ==> r.value.name == Render(Lookup(table, "table_schema").value) + "." +
                                      Render(Lookup(table, "table_name").value)
    ensures r.Ok? ==> r.value.sampleRows == |SampleOf(engine, path, r.value.name)| &&
                      r.value.sampleData <= SampleOf(engine, path, r.value.name) &&
                      |r.value.sampleData| == (if r.value.sampleRows < 2 then r.value.sampleRows else 2)
    ensures Lookup(table, "table_schema").None? ==> r == Err(KeyMissing("table_schema"))
  {
    match Lookup(table, "table_schema")
    case None => Err(KeyMissing("table_schema"))
    case Some(schema) =>
      match Lookup(table, "table_name")
      case None => Err(KeyMissing("table_name"))
      case Some(tableName) =>
        var name := Render(schema) + "." + Render(tableName);
        match ColumnsResult(engine, path, schema, tableName)
        case Err(e) => Err(e)
        case Ok(columns) =>
          var sample := SampleOf(engine, path, name);
          match Lookup(table, "table_type")
          case None => Err(KeyMissing("table_type"))
          case Some(tableType) =>
            Ok(TableInfo(name, tableType, columns, |sample|, if |sample| > 0 then Take(sample, 2) else []))
  }

  /** The loop body over tables, as a function of the listed row. */
  function EntryOf(engine: Engine, path: string): Record -> Result<TableInfo>
  {
    table => TableEntry(engine, path, table)
  }

  /** `json.dumps` encodes every entry: each table type, column row and kept sample row. */
  predicate TablesSerializable(infos: seq<TableInfo>)
  {
    forall i :: 0 <= i < |infos| ==>
      Serializable(infos[i].tableType) && RowsSerializable(infos[i].columns) &&
      RowsSerializable(infos[i].sampleData)
  }

  /** The sessions one row of the table listing runs: none when a name key is
      missing, else the columns query and, when that succeeds, the sample query. */
  function EntryTrace(engine: Engine, path: string, table: Record): seq<Event>
  {
    match Lookup(table, "table_schema")
    case None => []
    case Some(schema) =>
      match Lookup(table, "table_name")
      case None => []
      case Some(tableName) =>
        SessionTrace(engine, path, ColumnsQuery, [schema, tableName], ReadOnly) +
        if ColumnsResult(engine, path, schema, tableName).Err? then []
        else SessionTrace(engine, path, SampleQuery(Render(schema) + "." + Render(tableName)), [], ReadOnly)
  }

  function EntryTraceOf(engine: Engine, path: string): Record -> seq<Event>
  {
    table => EntryTrace(engine, path, table)
  }

  /** The sessions `discover_database_schema()` runs: the listing, then the
      sessions of each listed table up to the first one that fails. */
  function SchemaTrace(engine: Engine, path: string): seq<Event>
  {
    SessionTrace(engine, path, TablesQuery, [], ReadOnly) +
    match QueryResult(engine, path, TablesQuery, [], ReadOnly)
    case Err(_) => []
    case Ok(tables) => CollectTrace(EntryOf(engine, path), EntryTraceOf(engine, path), tables)
  }

  /** What `discover_database_schema()` reports. */
  function SchemaOf(engine: Engine, path: string): Result<seq<TableInfo>>
  {
    match QueryResult(engine, path, TablesQuery, [], ReadOnly)
    case Err(e) => Err(e)
    case Ok(tables) =>
      match Collect(EntryOf(engine, path), tables)
      case Err(e) => Err(e)
      case Ok(infos) => if TablesSerializable(infos) then Ok(infos) else Err(NotSerializable)
  }

  /** A failing sample query does not fail the entry: it gives no sample
      rows and no sample data. */
  lemma SampleFailureTolerated(engine: Engine, path: string, table: Record)
    requires Describable(engine, path, table)
    requires QueryResult(engine, path, SampleQuery(Render(Lookup(table, "table_schema").value) + "." +
                                                   Render(Lookup(table, "table_name").value)), [], ReadOnly).Err?
    ensures TableEntry(engine, path, table).Ok?
    ensures TableEntry(engine, path, table).value.sampleRows == 0
    ensures TableEntry(engine, path, table).value.sampleData == []
  {
  }

  /** Which error a listed row that cannot be described gives: the first
      missing key in the order the loop reads them, or the columns query's error. */
  lemma TableEntryErrors(engine: Engine, path: string, table: Record)
    ensures Lookup(table, "table_schema").None? ==> TableEntry(engine, path, table) == Err(KeyMissing("table_schema"))
    ensures Lookup(table, "table_schema").Some? && Lookup(table, "table_name").None? ==>
              TableEntry(engine, path, table) == Err(KeyMissing("table_name"))
    ensures Lookup(table, "table_schema").Some? && Lookup(table, "table_name").Some? ==>
              var columns := ColumnsResult(engine, path, Lookup(table, "table_schema").value,
                                           Lookup(table, "table_name").value);
              (columns.Err? ==> TableEntry(engine, path, table) == Err(columns.error)) &&
              (columns.Ok? && Lookup(table, "table_type").None? ==>
                 TableEntry(engine, path, table) == Err(KeyMissing("table_type")))
  {
  }

  /** The first listed table whose entry fails (a missing key, or a failing
      columns query) ends the tool with that error. */
  lemma SchemaFirstError(engine: Engine, path: string, i: nat)
    requires QueryResult(engine, path, TablesQuery, [], ReadOnly).Ok?
    requires var tables := QueryResult(engine, path, TablesQuery, [], ReadOnly).value;
             i < |tables| && TableEntry(engine, path, tables[i]).Err? &&
             forall j :: 0 <= j < i ==> TableEntry(engine, path, tables[j]).Ok?
    ensures SchemaOf(engine, path) ==
              Err(TableEntry(engine, path, QueryResult(engine, path, TablesQuery, [], ReadOnly).value[i]).error)
  {
    var tables := QueryResult(engine, path, TablesQuery, [], ReadOnly).value;
    CollectFirstError(EntryOf(engine, path), tables, i);
  }

  /** A successful discovery has one entry per listed table, in the order
      listed, each the table's own entry (so named "schema.table", with the
      sample count and at most two sample rows, as `TableEntry` states). */
  lemma SchemaEntries(engine: Engine, path: string, infos: seq<TableInfo>)
    requires SchemaOf(engine, path) == Ok(infos)
    ensures QueryResult(engine, path, TablesQuery, [], ReadOnly).Ok?
    ensures var tables := QueryResult(engine, path, TablesQuery, [], ReadOnly).value;
            |infos| == |tables| &&
            forall i :: 0 <= i < |tables| ==> TableEntry(engine, path, tables[i]) == Ok(infos[i])
    ensures TablesSerializable(infos)
  {
    var tables := QueryResult(engine, path, TablesQuery, [], ReadOnly).value;
    CollectOk(EntryOf(engine, path), tables);
  }

  /** Discovering the schema runs read-only sessions only: it never takes
      the write lock and never touches a writable connection. */
  lemma SchemaReadOnly(engine: Engine, path: string)
    ensures ReadOnlyTrace(SchemaTrace(engine, path))
  {
    forall table, j | 0 <= j < |EntryTraceOf(engine, path)(table)|
      ensures ReadOnlyEvent(EntryTraceOf(engine, path)(table)[j])
    {
      EntryReadOnly(engine, path, table);
    }
    ReadOnlySessionLockFree(engine, path, TablesQuery, []);
    var listed := QueryResult(engine, path, TablesQuery, [], ReadOnly);
    if listed.Ok? {
      var loop := CollectTrace(EntryOf(engine, path), EntryTraceOf(engine, path), listed.value);
      CollectTraceHolds(EntryOf(engine, path), EntryTraceOf(engine, path), ReadOnlyEvent, listed.value);
      ReadOnlyTraceAppend(SessionTrace(engine, path, TablesQuery, [], ReadOnly), loop);
    } else {
      ReadOnlyTraceAppend(SessionTrace(engine, path, TablesQuery, [], ReadOnly), []);
    }
  }

  lemma EntryReadOnly(engine: Engine, path: string, table: Record)
    ensures ReadOnlyTrace(EntryTrace(engine, path, table))
  {
    if Lookup(table, "table_schema").Some? && Lookup(table, "table_name").Some? {
      var schema := Lookup(table, "table_schema").value;
      var tableName := Lookup(table, "table_name").value;
      var name := Render(schema) + "." + Render(tableName);
      ReadOnlySessionLockFree(engine, path, ColumnsQuery, [schema, tableName]);
      ReadOnlySessionLockFree(engine, path, SampleQuery(name), []);
      ReadOnlyTraceAppend(SessionTrace(engine, path, ColumnsQuery, [schema, tableName], ReadOnly),
                          SessionTrace(engine, path, SampleQuery(name), [], ReadOnly));
      ReadOnlyTraceAppend(SessionTrace(engine, path, ColumnsQuery, [schema, tableName], ReadOnly), []);
    }
  }

  /** The body of the loop over tables. */
  method DescribeTable(dm: DataManager, engine: Engine, table: Record) returns (r: Result<TableInfo>)
    requires dm.Valid()
    modifies dm
    ensures dm.Valid() && dm.lockDepth == old(dm.lockDepth) && dm.openConnections == old(dm.openConnections)
    ensures r == TableEntry(engine, dm.dbPath, table)
    ensures dm.events == old(dm.events) + EntryTrace(engine, dm.dbPath, table)
  {
    var schema := Lookup(table, "table_schema");
    if schema.None? {
      assert EntryTrace(engine, dm.dbPath, table) == [];
      return Err(KeyMissing("table_schema"));
    }
    var tableName := Lookup(table, "table_name");
    if tableName.None? {
      assert EntryTrace(engine, dm.dbPath, table) == [];
      return Err(KeyMissing("table_name"));
    }
    var name := Render(schema.value) + "." + Render(tableName.value);
    ghost var columnsSession := SessionTrace(engine, dm.dbPath, ColumnsQuery, [schema.value, tableName.value], ReadOnly);
    ghost var sampleSession := SessionTrace(engine, dm.dbPath, SampleQuery(name), [], ReadOnly);
    var columns := dm.ExecuteQuery(engine, ColumnsQuery, [schema.value, tableName.value]);
    assert columns == ColumnsResult(engine, dm.dbPath, schema.value, tableName.value);
    if columns.Err? {
      assert EntryTrace(engine, dm.dbPath, table) == columnsSession + [];
      return Err(columns.error);
    }
    assert EntryTrace(engine, dm.dbPath, table) == columnsSession + sampleSession;
    AppendAssoc(old(dm.events), columnsSession, sampleSession);
    var sample := dm.ExecuteQuery(engine, SampleQuery(name));
    var sampleData := if sample.Ok? then sample.value else [];
    var tableType := Lookup(table, "table_type");
    if tableType.None? {
      return Err(KeyMissing("table_type"));
    }
    r := Ok(TableInfo(name, tableType.value, columns.value, |sampleData|,
                      if |sampleData| > 0 then Take(sampleData, 2) else []));
  }

  /** The loop over the listed tables, stopping at the first error. */
  method DescribeTables(dm: DataManager, engine: Engine, tables: seq<Record>)
    returns (r: Result<seq<TableInfo>>)
    requires dm.Valid()
    modifies dm
    ensures dm.Valid() && dm.lockDepth == old(dm.lockDepth) && dm.openConnections == old(dm.openConnections)
    ensures r == Collect(EntryOf(engine, dm.dbPath), tables)
    ensures dm.events == old(dm.events) + CollectTrace(EntryOf(engine, dm.dbPath), EntryTraceOf(engine, dm.dbPath), tables)
  {
    var infos: seq<TableInfo> := [];
    var i := 0;
    while i < |tables|
      invariant 0 <= i <= |tables|
      invariant dm.Valid() && dm.lockDepth == old(dm.lockDepth) && dm.openConnections == old(dm.openConnections)
      invariant Collect(EntryOf(engine, dm.dbPath), tables[..i]) == Ok(infos)
      invariant dm.events ==
                old(dm.events) + CollectTrace(EntryOf(engine, dm.dbPath), EntryTraceOf(engine, dm.dbPath), tables[..i])
    {
      ghost var done := CollectTrace(EntryOf(engine, dm.dbPath), EntryTraceOf(engine, dm.dbPath), tables[..i]);
      var entry := DescribeTable(dm, engine, tables[i]);
      assert EntryOf(engine, dm.dbPath)(tables[i]) == entry;
      assert EntryTraceOf(engine, dm.dbPath)(tables[i]) == EntryTrace(engine, dm.dbPath, tables[i]);
      AppendAssoc(old(dm.events), done, EntryTrace(engine, dm.dbPath, tables[i]));
      CollectTraceStep(EntryOf(engine, dm.dbPath), EntryTraceOf(engine, dm.dbPath), tables, i);
      if entry.Err? {
        CollectStop(EntryOf(engine, dm.dbPath), tables, i, infos);
        CollectTraceStop(EntryOf(engine, dm.dbPath), EntryTraceOf(engine, dm.dbPath), tables, i);
        return Err(entry.error);
      }
      CollectStep(EntryOf(engine, dm.dbPath), tables, i, infos);
      infos := infos + [entry.value];
      i := i + 1;
    }
    assert tables[..i] == tables;
    r := Ok(infos);
  }

  /** `discover_database_schema()`: list the tables, then describe them one by one. */
  method DiscoverDatabaseSchema(dm: DataManager, engine: Engine) returns (r: Result<seq<TableInfo>>)
    requires dm.Valid()
    modifies dm
    ensures dm.Valid() && dm.lockDepth == old(dm.lockDepth) && dm.openConnections == old(dm.openConnections)
    ensures r == SchemaOf(engine, dm.dbPath)
    ensures dm.events == old(dm.events) + SchemaTrace(engine, dm.dbPath)
  {
    var listed := dm.ExecuteQuery(engine, TablesQuery);
    ghost var listing := SessionTrace(engine, dm.dbPath, TablesQuery, [], ReadOnly);
    if listed.Err? {
      assert SchemaTrace(engine, dm.dbPath) == listing + [];
      return Err(listed.error);
    }
    ghost var loop := CollectTrace(EntryOf(engine, dm.dbPath), EntryTraceOf(engine, dm.dbPath), listed.value);
    assert SchemaTrace(engine, dm.dbPath) == listing + loop;
    r := DescribeTables(dm, engine, listed.value);
    AppendAssoc(old(dm.events), listing, loop);
    if r.Ok? && !TablesSerializable(r.value) {
      r := Err(NotSerializable);
    }
  }

  // ----- analyze_data_quality -----

  function CountQuery(tableName: string): string
  {
    "SELECT COUNT(*) as total_rows FROM " + tableName
  }

  function DescribeQuery(tableName: string): string
  {
    "DESCRIBE " + tableName
  }

  function FirstRowQuery(tableName: string): string
  {
    "SELECT * FROM " + tableName + " LIMIT 1"
  }

  function StatsQuery(columnName: string, tableName: string): string
  {
    "SELECT COUNT(*) as non_null_count, COUNT(*) - COUNT(" + columnName + ") as null_count, " +
    "COUNT(DISTINCT " + columnName + ") as distinct_values FROM " + tableName
  }

  /** `total_rows`: from the first row of the count query, 0 when it returned no rows. */
  function TotalRows(countRows: seq<Record>): (r: Result<Value>)
    ensures |countRows| == 0 ==> r == Ok(Int(0))
    ensures |countRows| > 0 ==> (r.Ok? <==> Lookup(countRows[0], "total_rows").Some?)
    ensures |countRows| > 0 && r.Ok? ==> r.value == Lookup(countRows[0], "total_rows").value
    ensures r.Err? ==> r.error == KeyMissing("total_rows")
  {
    if |countRows| == 0 then Ok(Int(0))
    else
      match Lookup(countRows[0], "total_rows")
      case Some(v) => Ok(v)
      case None => Err(KeyMissing("total_rows"))
  }

  /** The column list built from the keys of a sample row when DESCRIBE fails. */
  function FallbackColumns(names: seq<string>): (cols: seq<Record>)
    ensures |cols| == |names|
    ensures forall i :: 0 <= i < |names| ==>
              Lookup(cols[i], "column_name") == Some(Text(names[i])) &&
              Lookup(cols[i], "column_type") == Some(Text("unknown"))
  {
    seq(|names|, i requires 0 <= i < |names| =>
      [("column_name", Text(names[i])), ("column_type", Text("unknown"))])
  }

  /** The columns to analyse: DESCRIBE's rows, else (if DESCRIBE fails) one
      per key of the table's first row, else (if that query fails) the error. */
  function ColumnsOf(engine: Engine, path: string, tableName: string): Result<seq<Record>>
  {
    match QueryResult(engine, path, DescribeQuery(tableName), [], ReadOnly)
    case Ok(columns) => Ok(columns)
    case Err(_) =>
      match QueryResult(engine, path, FirstRowQuery(tableName), [], ReadOnly)
      case Err(e) => Err(e)
      case Ok(rows) => Ok(if |rows| > 0 then FallbackColumns(Keys(rows[0])) else [])
  }

  /** `col.get('column_name') or col.get('Field', '')` */
  function ColumnName(col: Record): (name: Value)
    ensures Lookup(col, "column_name").Some? && Truthy(Lookup(col, "column_name").value) ==>
              name == Lookup(col, "column_name").value
    ensures !(Lookup(col, "column_name").Some? && Truthy(Lookup(col, "column_name").value)) ==>
              name == (if Lookup(col, "Field").Some? then Lookup(col, "Field").value else Text(""))
  {
    match Lookup(col, "column_name")
    case Some(v) =>
      if Truthy(v) then v
      else (match Lookup(col, "Field") case Some(w) => w case None => Text(""))
    case None => match Lookup(col, "Field") case Some(w) => w case None => Text("")
  }

  /** `col.get('column_type', col.get('Type', 'unknown'))` */
  function ColumnType(col: Record): (columnType: Value)
    ensures Lookup(col, "column_type").Some? ==> columnType == Lookup(col, "column_type").value
    ensures Lookup(col, "column_type").None? && Lookup(col, "Type").Some? ==> columnType == Lookup(col, "Type").value
    ensures Lookup(col, "column_type").None? && Lookup(col, "Type").None? ==> columnType == Text("unknown")
  {
    match Lookup(col, "column_type")
    case Some(v) => v
    case None => match Lookup(col, "Type") case Some(w) => w case None => Text("unknown")
  }

  /** One entry of `data_quality.columns`. */
  datatype ColumnMetric =
    | ColumnStats(name: Value, columnType: Value, nonNullCount: Value, nullCount: Value, distinctValues: Value)
    | ColumnError(name: Value, columnType: Value, error: Error)

  /** The entry for one column's statistics row; a missing field is a
      KeyError, caught as an error entry. */
  function StatsEntry(name: Value, columnType: Value, stat: Record): (m: ColumnMetric)
    ensures m.name == name && m.columnType == columnType
    ensures m.ColumnStats? <==>
              Lookup(stat, "non_null_count").Some? && Lookup(stat, "null_count").Some? &&
              Lookup(stat, "distinct_values").Some?
    ensures m.ColumnStats? ==>
              m.nonNullCount == Lookup(stat, "non_null_count").value &&
              m.nullCount == Lookup(stat, "null_count").value &&
              m.distinctValues == Lookup(stat, "distinct_values").value
    ensures m.ColumnError? ==>
              m.error == KeyMissing(if Lookup(stat, "non_null_count").None? then "non_null_count"
                                    else if Lookup(stat, "null_count").None? then "null_count"
                                    else "distinct_values")
  {
    match Lookup(stat, "non_null_count")
    case None => ColumnError(name, columnType, KeyMissing("non_null_count"))
    case Some(nonNull) =>
      match Lookup(stat, "null_count")
      case None => ColumnError(name, columnType, KeyMissing("null_count"))
      case Some(nulls) =>
        match Lookup(stat, "distinct_values")
        case None => ColumnError(name, columnType, KeyMissing("distinct_values"))
        case Some(distinct) => ColumnStats(name, columnType, nonNull, nulls, distinct)
  }

  /** What the loop adds for one column: nothing for an unnamed column or an
      empty statistics result, an error entry when the query fails. */
  function MetricOf(engine: Engine, path: string, tableName: string, col: Record): (m: Option<ColumnMetric>)
    ensures !Truthy(ColumnName(col)) ==> m.None?
    ensures m.Some? ==> m.value.name == ColumnName(col) && m.value.columnType == ColumnType(col)
    ensures Truthy(ColumnName(col)) ==>
              var stats := QueryResult(engine, path, StatsQuery(Render(ColumnName(col)), tableName), [], ReadOnly);
              (m.None? <==> stats == Ok([])) &&
              (stats.Err? ==> m == Some(ColumnError(ColumnName(col), ColumnType(col), stats.error))) &&
              (stats.Ok? && |stats.value| > 0 ==> m == Some(StatsEntry(ColumnName(col), ColumnType(col), stats.value[0])))
  {
    var name := ColumnName(col);
    if !Truthy(name) then None
    else
      match QueryResult(engine, path, StatsQuery(Render(name), tableName), [], ReadOnly)
      case Err(e) => Some(ColumnError(name, ColumnType(col), e))
      case Ok(stats) => if |stats| > 0 then Some(StatsEntry(name, ColumnType(col), stats[0])) else None
  }

  /** The entries for a list of columns, in column order. */
  function Metrics(engine: Engine, path: string, tableName: string, cols: seq<Record>): seq<ColumnMetric>
  {
    Gather(MetricFor(engine, path, tableName), cols)
  }

  /** The loop body over columns, as a function of the column. */
  function MetricFor(engine: Engine, path: string, tableName: string): Record -> Option<ColumnMetric>
  {
    col => MetricOf(engine, path, tableName, col)
  }

  datatype QualityReport = QualityReport(tableName: string, totalRows: Value, columns: seq<ColumnMetric>)

  /** `json.dumps` encodes the entry's name, type and counts. */
  predicate MetricSerializable(m: ColumnMetric)
  {
    Serializable(m.name) && Serializable(m.columnType) &&
    (m.ColumnStats? ==>
       Serializable(m.nonNullCount) && Serializable(m.nullCount) && Serializable(m.distinctValues))
  }

  /** `json.dumps` encodes the whole report. */
  predicate ReportSerializable(report: QualityReport)
  {
    Serializable(report.totalRows) &&
    forall i :: 0 <= i < |report.columns| ==> MetricSerializable(report.columns[i])
  }

  /** The sessions that find the columns: DESCRIBE, then, when it fails, the first-row query. */
  function ColumnsTrace(engine: Engine, path: string, tableName: string): seq<Event>
  {
    SessionTrace(engine, path, DescribeQuery(tableName), [], ReadOnly) +
    if QueryResult(engine, path, DescribeQuery(tableName), [], ReadOnly).Err? then
      SessionTrace(engine, path, FirstRowQuery(tableName), [], ReadOnly)
    else []
  }

  /** The session of one column's statistics query; none for an unnamed column. */
  function StatsTrace(engine: Engine, path: string, tableName: string, col: Record): seq<Event>
  {
    if !Truthy(ColumnName(col)) then []
    else SessionTrace(engine, path, StatsQuery(Render(ColumnName(col)), tableName), [], ReadOnly)
  }

  function StatsTraceOf(engine: Engine, path: string, tableName: string): Record -> seq<Event>
  {
    col => StatsTrace(engine, path, tableName, col)
  }

  /** The sessions `analyze_data_quality(table_name)` runs: the count, then
      (unless it fails) the column sessions, then one statistics session per
      named column. */
  function QualityTrace(engine: Engine, path: string, tableName: string): seq<Event>
  {
    SessionTrace(engine, path, CountQuery(tableName), [], ReadOnly) +
    match QueryResult(engine, path, CountQuery(tableName), [], ReadOnly)
    case Err(_) => []
    case Ok(countRows) =>
      if TotalRows(countRows).Err? then []
      else
        ColumnsTrace(engine, path, tableName) +
        match ColumnsOf(engine, path, tableName)
        case Err(_) => []
        case Ok(cols) => Concat(StatsTraceOf(engine, path, tableName), cols)
  }

  /** What `analyze_data_quality(table_name)` reports. */
  function QualityOf(engine: Engine, path: string, tableName: string): Result<QualityReport>
  {
    match QueryResult(engine, path, CountQuery(tableName), [], ReadOnly)
    case Err(e) => Err(e)
    case Ok(countRows) =>
      match TotalRows(countRows)
      case Err(e) => Err(e)
      case Ok(total) =>
        match ColumnsOf(engine, path, tableName)
        case Err(e) => Err(e)
        case Ok(cols) =>
          var report := QualityReport(tableName, total, Metrics(engine, path, tableName, cols));
          if ReportSerializable(report) then Ok(report) else Err(NotSerializable)
  }

  /** The column has a non-empty name. */
  predicate Named(col: Record)
  {
    Truthy(ColumnName(col))
  }

  /** Every entry carries a column's non-empty name, there are at most as
      many entries as columns, and unnamed columns contribute nothing:
      analysing only the named columns gives the same entries. */
  lemma MetricsOfNamedColumns(engine: Engine, path: string, tableName: string, cols: seq<Record>)
    ensures |Metrics(engine, path, tableName, cols)| <= |cols|
    ensures forall i :: 0 <= i < |Metrics(engine, path, tableName, cols)| ==>
              Truthy(Metrics(engine, path, tableName, cols)[i].name)
    ensures Metrics(engine, path, tableName, Keep(Named, cols)) == Metrics(engine, path, tableName, cols)
  {
    var f := MetricFor(engine, path, tableName);
    GatherHolds(f, (m: ColumnMetric) => Truthy(m.name), cols);
    GatherKeep(f, Named, cols);
  }

  /** When every column has a name and every statistics query returns a row,
      there is exactly one entry per column, in column order, carrying that
      column's name and type. */
  lemma MetricsComplete(engine: Engine, path: string, tableName: string, cols: seq<Record>)
    requires forall i :: 0 <= i < |cols| ==> MetricOf(engine, path, tableName, cols[i]).Some?
    ensures |Metrics(engine, path, tableName, cols)| == |cols|
    ensures forall i :: 0 <= i < |cols| ==>
              Metrics(engine, path, tableName, cols)[i] == MetricOf(engine, path, tableName, cols[i]).value &&
              Metrics(engine, path, tableName, cols)[i].name == ColumnName(cols[i]) &&
              Metrics(engine, path, tableName, cols)[i].columnType == ColumnType(cols[i])
  {
    GatherAll(MetricFor(engine, path, tableName), cols);
  }

  /** A table whose count query returns no rows is reported with 0 rows. */
  lemma EmptyCountMeansZeroRows(engine: Engine, path: string, tableName: string)
    requires QueryResult(engine, path, CountQuery(tableName), [], ReadOnly) == Ok([])
    requires ColumnsOf(engine, path, tableName).Ok?
    ensures var metrics := Metrics(engine, path, tableName, ColumnsOf(engine, path, tableName).value);
            QualityOf(engine, path, tableName).Ok? <==>
              forall i :: 0 <= i < |metrics| ==> MetricSerializable(metrics[i])
    ensures QualityOf(engine, path, tableName).Ok? ==> QualityOf(engine, path, tableName).value.totalRows == Int(0)
  {
  }

  /** Analysing data quality runs read-only sessions only: it never takes the
      write lock and never touches a writable connection. */
  lemma QualityReadOnly(engine: Engine, path: string, tableName: string)
    ensures ReadOnlyTrace(QualityTrace(engine, path, tableName))
  {
    var count := SessionTrace(engine, path, CountQuery(tableName), [], ReadOnly);
    var describe := SessionTrace(engine, path, DescribeQuery(tableName), [], ReadOnly);
    var firstRow := SessionTrace(engine, path, FirstRowQuery(tableName), [], ReadOnly);
    ReadOnlySessionLockFree(engine, path, CountQuery(tableName), []);
    ReadOnlySessionLockFree(engine, path, DescribeQuery(tableName), []);
    ReadOnlySessionLockFree(engine, path, FirstRowQuery(tableName), []);
    ReadOnlyTraceAppend(describe, firstRow);
    ReadOnlyTraceAppend(describe, []);
    var columns := ColumnsTrace(engine, path, tableName);
    assert ReadOnlyTrace(columns);
    forall col, j | 0 <= j < |StatsTraceOf(engine, path, tableName)(col)|
      ensures ReadOnlyEvent(StatsTraceOf(engine, path, tableName)(col)[j])
    {
      ReadOnlySessionLockFree(engine, path, StatsQuery(Render(ColumnName(col)), tableName), []);
    }
    var rest: seq<Event> := [];
    var countResult := QueryResult(engine, path, CountQuery(tableName), [], ReadOnly);
    if countResult.Ok? && TotalRows(countResult.value).Ok? {
      var stats: seq<Event> := [];
      if ColumnsOf(engine, path, tableName).Ok? {
        stats := Concat(StatsTraceOf(engine, path, tableName), ColumnsOf(engine, path, tableName).value);
        ConcatHolds(StatsTraceOf(engine, path, tableName), ReadOnlyEvent, ColumnsOf(engine, path, tableName).value);
      }
      ReadOnlyTraceAppend(columns, stats);
      rest := columns + stats;
    }
    assert QualityTrace(engine, path, tableName) == count + rest;
    ReadOnlyTraceAppend(count, rest);
  }

  /** The body of the loop over columns. */
  method AnalyzeColumn(dm: DataManager, engine: Engine, tableName: string, col: Record)
    returns (m: Option<ColumnMetric>)
    requires dm.Valid()
    modifies dm
    ensures dm.Valid() && dm.lockDepth == old(dm.lockDepth) && dm.openConnections == old(dm.openConnections)
    ensures m == MetricOf(engine, dm.dbPath, tableName, col)
    ensures dm.events == old(dm.events) + StatsTrace(engine, dm.dbPath, tableName, col)
  {
    var name := ColumnName(col);
    if !Truthy(name) {
      return None;
    }
    var stats := dm.ExecuteQuery(engine, StatsQuery(Render(name), tableName));
    if stats.Err? {
      m := Some(ColumnError(name, ColumnType(col), stats.error));
    } else if |stats.value| > 0 {
      m := Some(StatsEntry(name, ColumnType(col), stats.value[0]));
    } else {
      m := None;
    }
  }

  /** The columns to analyse, read through the data manager. */
  method FindColumns(dm: DataManager, engine: Engine, tableName: string) returns (r: Result<seq<Record>>)
    requires dm.Valid()
    modifies dm
    ensures dm.Valid() && dm.lockDepth == old(dm.lockDepth) && dm.openConnections == old(dm.openConnections)
    ensures r == ColumnsOf(engine, dm.dbPath, tableName)
    ensures dm.events == old(dm.events) + ColumnsTrace(engine, dm.dbPath, tableName)
  {
    r := dm.ExecuteQuery(engine, DescribeQuery(tableName));
    if r.Err? {
      var sample := dm.ExecuteQuery(engine, FirstRowQuery(tableName));
      if sample.Err? {
        return Err(sample.error);
      }
      r := Ok(if |sample.value| > 0 then FallbackColumns(Keys(sample.value[0])) else []);
    }
  }

  /** The loop over the columns. */
  method AnalyzeColumns(dm: DataManager, engine: Engine, tableName: string, cols: seq<Record>)
    returns (metrics: seq<ColumnMetric>)
    requires dm.Valid()
    modifies dm
    ensures dm.Valid() && dm.lockDepth == old(dm.lockDepth) && dm.openConnections == old(dm.openConnections)
    ensures metrics == Metrics(engine, dm.dbPath, tableName, cols)
    ensures dm.events == old(dm.events) + Concat(StatsTraceOf(engine, dm.dbPath, tableName), cols)
  {
    metrics := [];
    ghost var f := MetricFor(engine, dm.dbPath, tableName);
    ghost var t := StatsTraceOf(engine, dm.dbPath, tableName);
    var i := 0;
    while i < |cols|
      invariant 0 <= i <= |cols|
      invariant dm.Valid() && dm.lockDepth == old(dm.lockDepth) && dm.openConnections == old(dm.openConnections)
      invariant metrics == Gather(f, cols[..i])
      invariant dm.events == old(dm.events) + Concat(t, cols[..i])
    {
      ghost var done := Concat(t, cols[..i]);
      var m := AnalyzeColumn(dm, engine, tableName, cols[i]);
      assert f(cols[i]) == m;
      assert t(cols[i]) == StatsTrace(engine, dm.dbPath, tableName, cols[i]);
      AppendAssoc(old(dm.events), done, t(cols[i]));
      GatherStep(f, cols, i);
      ConcatStep(t, cols, i);
      if m.Some? {
        metrics := metrics + [m.value];
      }
      i := i + 1;
    }
    assert cols[..i] == cols;
  }

  /** `analyze_data_quality(table_name)`: count the rows, find the columns,
      then gather statistics column by column. */
  method AnalyzeDataQuality(dm: DataManager, engine: Engine, tableName: string := WeatherTable)
    returns (r: Result<QualityReport>)
    requires dm.Valid()
    modifies dm
    ensures dm.Valid() && dm.lockDepth == old(dm.lockDepth) && dm.openConnections == old(dm.openConnections)
    ensures r == QualityOf(engine, dm.dbPath, tableName)
    ensures dm.events == old(dm.events) + QualityTrace(engine, dm.dbPath, tableName)
  {
    var countResult := dm.ExecuteQuery(engine, CountQuery(tableName));
    ghost var count := SessionTrace(engine, dm.dbPath, CountQuery(tableName), [], ReadOnly);
    if countResult.Err? {
      assert QualityTrace(engine, dm.dbPath, tableName) == count + [];
      return Err(countResult.error);
    }
    var total := TotalRows(countResult.value);
    if total.Err? {
      assert QualityTrace(engine, dm.dbPath, tableName) == count + [];
      return Err(total.error);
    }
    ghost var columnSessions := ColumnsTrace(engine, dm.dbPath, tableName);
    var columns := FindColumns(dm, engine, tableName);
    AppendAssoc(old(dm.events), count, columnSessions);
    if columns.Err? {
      assert QualityTrace(engine, dm.dbPath, tableName) == count + (columnSessions + []);
      return Err(columns.error);
    }
    ghost var statsSessions := Concat(StatsTraceOf(engine, dm.dbPath, tableName), columns.value);
    assert QualityTrace(engine, dm.dbPath, tableName) == count + (columnSessions + statsSessions);
    var metrics := AnalyzeColumns(dm, engine, tableName, columns.value);
    AppendAssoc(old(dm.events) + count, columnSessions, statsSessions);
    AppendAssoc(old(dm.events), count, columnSessions + statsSessions);
    var report := QualityReport(tableName, total.value, metrics);
    if ReportSerializable(report) {
      r := Ok(report);
    } else {
      r := Err(NotSerializable);
    }
  }
}
