# DuckDB analytics MCP server: data manager and database tools

This project models the core of a small MCP server that exposes a DuckDB
analytics database to AI clients (`fast_mcp/server`). It has two parts.

- **The data manager** (`database.py`). Every query runs in its own connection
  session. A read-write session holds a re-entrant write lock for the whole
  life of its connection. A read-only session opens its connection with
  `read_only=True` and never touches the lock. Fetched rows come back as
  column-name → value records (`dict(zip(columns, row))`).
- **The database tools** (`server.py`):
  - `query_weather_data` and `weather_analytics` (a fixed query per analysis type).
  - `execute_sql_query`, which refuses free-form SQL containing one of seven
    keywords (case-insensitive substring match) and otherwise bounds the
    query with a `LIMIT` clause.
  - `discover_database_schema`, which describes every table in a loop.
  - `analyze_data_quality`, which counts rows, finds the columns (with a
    fallback when `DESCRIBE` fails) and gathers per-column statistics.

The DuckDB engine is an oracle: a value of type `Database.Engine` holds two
total functions. One says whether a connection can be opened. The other says
what a statement yields on an open connection (the cursor description and the
rows, or an error). The class `Database.DataManager` keeps the write-lock
depth and the number of open connections as fields. Its ghost `events`
history records every acquire, release, open, execute and close, so the
ordering of a session can be stated. Each tool is a method over the data
manager and the engine, proved equal to a pure definition of what the tool
reports. The lemmas are about those definitions.

Files:
- `values.dfy`: the engine's scalars, Python truthiness, `str()` on them, and
  integer rendering.
- `records.dfy`: Python dicts as insertion-ordered association lists, and
  `dict(zip(...))`.
- `database.dfy`: `ConnectionMode`, the engine oracle, the session history
  and `DataManager`.
- `sql_guard.dfy`: the keyword blocklist and the `LIMIT` rewrite of
  `execute_sql_query`.
- `accumulate.dfy`: the two list-building loop shapes the tools use, and the
  sessions each shape runs.
  - One result per element, stopping at the first exception.
  - An entry only for the elements that produce one.
- `server.dfy`: the tools.

## Model

| member | source | states |
|---|---|---|
| Values.Decimal | fast_mcp/server/server.py:148 | the decimal text of an integer is non-empty, starts with `-` exactly for a negative number, and is all digits otherwise |
| Values.DecimalRoundTrip | fast_mcp/server/server.py:148 | the decimal text of `limit` written into the query reads back as `limit`, for every integer, negative ones included |
| Values.DecimalInjective | fast_mcp/server/server.py:148 | different limits give different query texts |
| Records.Lookup | fast_mcp/server/server.py:252 | `d.get(k)` is None iff no entry has key `k`; otherwise it is the value of an entry with that key |
| Records.Store | fast_mcp/server/database.py:55 | after `d[k] = v`, `k` maps to `v`; a new key goes last; an existing key keeps its place and the key order is unchanged |
| Records.StoreOther | fast_mcp/server/database.py:55 | storing under one key leaves every other key's value as it was |
| Records.UniqueKeysMeans | fast_mcp/server/database.py:55 | a record has no repeated key exactly when its list of keys is distinct |
| Records.StoreUniqueKeys | fast_mcp/server/database.py:55 | storing never repeats a key |
| Records.Zip | fast_mcp/server/database.py:55 | `zip` pairs the i-th name with the i-th value, up to the shorter sequence |
| Records.FromPairsHasKey | fast_mcp/server/database.py:55 | a key is in `dict(pairs)` iff some pair has it |
| Records.FromPairsLastWins | fast_mcp/server/database.py:55 | a key's value in `dict(pairs)` is that of the last pair with the key |
| Records.FromPairsUniqueKeys | fast_mcp/server/database.py:55 | `dict(pairs)` has no repeated key |
| Records.FromPairsDistinct | fast_mcp/server/database.py:55 | with distinct keys, `dict(pairs)` holds exactly the pairs, in order |
| Records.ToRecord | fast_mcp/server/database.py:55 | `dict(zip(columns, row))` never repeats a key, whatever the description and row |
| Records.ToRecords | fast_mcp/server/database.py:55 | one record per fetched row, none of them repeating a key |
| Records.RecordIsPositional | fast_mcp/server/database.py:54-55 | with distinct column names and one value per column, the record's i-th entry is (i-th column name, i-th value) |
| Records.RecordHasKey | fast_mcp/server/database.py:54-55 | for any description and row, a name is a key of the record iff it is among the first min(columns, values) names; keys are never repeated |
| Records.RecordLastWins | fast_mcp/server/database.py:54-55 | a repeated column name maps to the value at its last position |
| Database.ConnectionFor | fast_mcp/server/database.py:34-43 | the connection is on the manager's path, and is read-only iff the mode is READ_ONLY |
| Database.QueryResult | fast_mcp/server/database.py:49-58 | a result exists only when the connection opened and the statement ran; it then has one record per fetched row, and no record repeats a key |
| Database.QueryResultRecords | fast_mcp/server/database.py:53-55 | when the described column names are distinct and every row has one value per column: one record per fetched row, in fetch order, each exactly as wide as the description, its i-th entry being the i-th column name with the i-th value |
| Database.EngineErrorsPropagate | fast_mcp/server/database.py:51-58 | a connect or execute error comes back unchanged; the call fails iff connecting fails, executing fails, or the cursor has no description |
| Database.WritesUnderLockMeans | fast_mcp/server/database.py:34-40 | the recursive history invariant holds iff every opening, use or closing of a writable connection happens while the lock is held |
| Database.SessionBalanced | fast_mcp/server/database.py:37-40 | whether the query succeeds or fails, a session leaves the lock depth and the open-connection count as it found them |
| Database.WriteSessionUnderLock | fast_mcp/server/database.py:34-40 | a READ_WRITE session starts by acquiring the lock, ends by releasing it, and opens, uses and closes its connection only while the lock is held |
| Database.ReadOnlySessionLockFree | fast_mcp/server/database.py:41-47 | a READ_ONLY session never acquires or releases the lock and never touches a writable connection |
| Database.DataManager.constructor | fast_mcp/server/database.py:20-28 | a given path is stored unchanged; none gives `<module dir>/data/analytics.duckdb`; nothing is open and the lock is free |
| Database.DataManager.Enter | fast_mcp/server/database.py:32-43 | entering a session takes the lock first (READ_WRITE only) and then opens the connection; a failed connect gives the lock back |
| Database.DataManager.Exit | fast_mcp/server/database.py:37-47 | leaving a session closes the connection and then releases the lock (READ_WRITE only) |
| Database.DataManager.ExecuteQuery | fast_mcp/server/database.py:49-58 | the result is the records of the fetched rows or the engine's error; the history grows by exactly one session; lock depth and open connections are unchanged |
| Database.DataManager.ExecuteWrite | fast_mcp/server/database.py:60-62 | the same result and history as `execute_query` in READ_WRITE mode |
| Database.DataManager.Close | fast_mcp/server/database.py:64-66 | changes nothing |
| SqlGuard.UpperIdempotent | fast_mcp/server/server.py:137 | upper-casing twice is upper-casing once |
| SqlGuard.ContainsMeans | fast_mcp/server/server.py:140 | `pat in text` iff `pat` occurs at some position of `text` |
| SqlGuard.FirstKeywordNone | fast_mcp/server/server.py:139-140 | the keyword loop finds nothing iff no keyword occurs |
| SqlGuard.FirstKeywordAt | fast_mcp/server/server.py:139-144 | the keyword loop returns the first keyword of the list that occurs |
| SqlGuard.GuardVerdict | fast_mcp/server/server.py:136-144 | a query is refused iff one of the seven keywords is a substring of its upper-cased text; the keyword named is the first of them in list order |
| SqlGuard.GuardNamesContained | fast_mcp/server/server.py:139-141 | the keyword named is one of the list and occurs in the upper-cased text |
| SqlGuard.CreatedAtIsRejected | fast_mcp/server/server.py:136-140 | `SELECT created_at FROM t` is refused, because CREATE is a substring of it |
| SqlGuard.ListOrderWins | fast_mcp/server/server.py:139-144 | for `delete from t; drop table t` the keyword named is DROP, first in the list though second in the text |
| SqlGuard.StripTrailing | fast_mcp/server/server.py:148 | `rstrip(';')` gives a prefix that does not end in `;`, and all that was removed is semicolons |
| SqlGuard.StripTrailingUnique | fast_mcp/server/server.py:148 | any split into a head not ending in `;` and a tail of semicolons has `rstrip`'s result as its head |
| SqlGuard.LimitedUnchanged | fast_mcp/server/server.py:147 | a query whose upper-cased text contains LIMIT, or a zero `limit`, is sent unchanged |
| SqlGuard.LimitedRewrite | fast_mcp/server/server.py:147-148 | otherwise the text sent is the original text, casing included, minus its trailing semicolons, then ` LIMIT ` and the decimal text of `limit` |
| SqlGuard.TrailingBlankKept | fast_mcp/server/server.py:148 | trailing whitespace is not stripped: the clause is appended after it |
| SqlGuard.LimitedMentionsLimit | fast_mcp/server/server.py:147-148 | with a nonzero `limit`, the text sent always contains LIMIT |
| SqlGuard.LimitedIdempotent | fast_mcp/server/server.py:147-148 | rewriting a rewritten query changes nothing |
| SqlGuard.PlanQuery | fast_mcp/server/server.py:136-148 | refuse iff some keyword occurs, naming exactly the keyword the guard names (the first of the list that occurs); otherwise send the rewritten text |
| SqlGuard.PlanIgnoresCase | fast_mcp/server/server.py:137-140 | queries with the same upper-cased text get the same verdict and the same keyword |
| SqlGuard.VerdictOfUpperCase | fast_mcp/server/server.py:137-140 | a query and its upper-cased form are refused alike, with the same keyword |
| Server.WeatherRowsOf | fast_mcp/server/server.py:55-66 | rows are reported iff the query returned some and `json.dumps` can encode them all; no rows is no data; an engine error is reported as it came, and unencodable rows (dates, decimals) as a TypeError failure |
| Server.QueryWeatherData | fast_mcp/server/server.py:39-66 | one read-only session with `limit` bound to the placeholder, reported as the pure definition above says: no data, the rows, an engine error or an encoding failure |
| Server.AnalysisQuery | fast_mcp/server/server.py:72-113 | a query exists exactly for "summary", "trends" and "conditions", matched exactly and case-sensitively; "summary" gets the summary query, "trends" the daily-trends query and "conditions" the conditions query |
| Server.AnalyticsOf | fast_mcp/server/server.py:115-129 | insights are reported iff the query returned rows that `json.dumps` can encode, labelled with the analysis type; no rows is no data; an engine error is reported as it came, and unencodable rows (e.g. the DATE column of "trends") as a TypeError failure |
| Server.WeatherAnalytics | fast_mcp/server/server.py:69-129 | an unknown type is answered with no session at all; a known type runs its query in one read-only session, reported as the definition above says |
| Server.SqlAnswerOf | fast_mcp/server/server.py:150-166 | an accepted query is answered with its rows iff it ran and `json.dumps` can encode them; otherwise it fails with the engine's error or a TypeError; the text reported is the text sent |
| Server.ExecuteSqlQuery | fast_mcp/server/server.py:132-166 | a refused query causes no session and names the keyword the guard names; otherwise the rewritten text is run in one read-only session and reported, on failure (engine or encoding) too |
| Server.Take | fast_mcp/server/server.py:212 | `s[:n]` is the prefix of `s` of length n, or all of `s` when it is shorter |
| Server.TableEntry | fast_mcp/server/server.py:184-213 | an entry exists iff the listed row has `table_schema`, `table_name` and `table_type` and its columns query succeeds; its columns are that query's rows; it is named "schema.table" and has the listed type; `sample_rows` counts every sample row and `sample_data` is the first two of them at most; a missing `table_schema` fails with that key |
| Server.SampleFailureTolerated | fast_mcp/server/server.py:202-205 | a describable table whose sample query fails still gets an entry, with 0 sample rows and no sample data |
| Server.TableEntryErrors | fast_mcp/server/server.py:185-209 | a row that cannot be described fails with the first missing key in the order `table_schema`, `table_name`, then the columns query's error, then `table_type` |
| Server.SchemaEntries | fast_mcp/server/server.py:180-213 | a successful discovery has exactly one entry per listed table, in the order listed, each that table's own entry, and all of it can be JSON-encoded |
| Server.SchemaFirstError | fast_mcp/server/server.py:184-198 | the first table whose entry fails ends the discovery with that error |
| Server.DescribeTable | fast_mcp/server/server.py:185-212 | the loop body yields the table's entry (a failing sample query counts as no sample) and runs exactly the table's sessions: none when a name key is missing, else the read-only columns query, then, when that succeeds, the read-only sample query |
| Server.DescribeTables | fast_mcp/server/server.py:184-213 | the loop appends one entry per table in order and stops at the first error; the history grows by the sessions of each table in turn, up to and including the failing one |
| Server.DiscoverDatabaseSchema | fast_mcp/server/server.py:169-223 | the history grows by exactly the read-only listing session, then the sessions of the listed tables in order; the result is the listing error, the first entry error, a TypeError when `json.dumps` cannot encode the entries (e.g. a timestamp in a sample row), or the collected entries |
| Server.SchemaReadOnly | fast_mcp/server/server.py:180-205 | every session of the schema discovery is read-only: no lock is taken or released and no writable connection is opened, used or closed |
| Server.TotalRows | fast_mcp/server/server.py:232 | no count rows gives 0; otherwise the first row's `total_rows`, or a KeyError |
| Server.FallbackColumns | fast_mcp/server/server.py:240-242 | one column per key of the sample row, in order, named by the key, with type "unknown" |
| Server.ColumnType | fast_mcp/server/server.py:271 | `column_type` if present (even when falsy), else `Type`, else "unknown" |
| Server.ColumnName | fast_mcp/server/server.py:252 | a truthy `column_name` wins; otherwise `Field`, or empty text when there is neither |
| Server.StatsEntry | fast_mcp/server/server.py:268-276 | a statistics row with `non_null_count`, `null_count` and `distinct_values` gives a stats entry with exactly those values; otherwise an error entry with a KeyError for the first of them that is missing; either way with the column's name and type |
| Server.MetricOf | fast_mcp/server/server.py:252-282 | an unnamed column contributes nothing; a named one contributes nothing iff its statistics query returns no rows, an error entry with the query's error when that query fails, and otherwise the entry of its first statistics row; an entry carries the column's name and type |
| Server.MetricsOfNamedColumns | fast_mcp/server/server.py:251-254 | every entry has a non-empty name, there are at most as many entries as columns, and dropping the unnamed columns first changes nothing |
| Server.MetricsComplete | fast_mcp/server/server.py:251-282 | when every column yields an entry, there is one per column, in column order, with that column's name and type |
| Server.EmptyCountMeansZeroRows | fast_mcp/server/server.py:230-232 | a count query with no rows gives a report with total_rows 0, whenever the column entries can be JSON-encoded |
| Server.FindColumns | fast_mcp/server/server.py:235-242 | DESCRIBE's rows; if DESCRIBE fails, columns from the first row's keys; if that query fails too, its error; the history grows by the read-only DESCRIBE session and, only when it fails, the read-only first-row session |
| Server.AnalyzeColumn | fast_mcp/server/server.py:252-282 | the loop body yields the column's entry, an error entry when its statistics query fails; an unnamed column runs no session, a named one exactly one read-only statistics session |
| Server.AnalyzeColumns | fast_mcp/server/server.py:251-282 | the loop appends the entries of the columns that yield one, in column order, and runs the statistics sessions of the columns in column order |
| Server.AnalyzeDataQuality | fast_mcp/server/server.py:226-292 | the history grows by exactly the count session, then (unless counting fails) the column sessions, then one statistics session per named column; the result is the first uncaught error, a TypeError for a report `json.dumps` cannot encode, or the report |
| Server.QualityReadOnly | fast_mcp/server/server.py:231-266 | every session of the quality analysis is read-only: no lock is taken or released and no writable connection is opened, used or closed |

## Left out

- SQL semantics and DuckDB itself. The engine is an oracle whose answers depend only on the connection, the text and the parameters. A write's effect on later reads is not modelled.
- Real concurrency. The blocking of `threading.RLock` and parallel readers are not modelled; the lock is a sequential re-entrant depth counter.
- SqlGuard.Upper: upper-cases ASCII letters only. Python's `str.upper` also maps other characters (some of them to one of the keyword letters), and it can change the text's length.
- Server.StatsEntry: the `null_percentage` field is left out. It is a floating-point division and rounding, and it can raise a TypeError between the `null_count` and `distinct_values` lookups; that path is not modelled.
- Values.Truthy: a value of the `Other` kind (dates, times, decimals, intervals, and the nested values below) is always true. So a zero `Decimal`, a zero `timedelta` or an empty list or dict, which Python treats as false, is treated as true.
- Values.Serializable: nested DuckDB values (LIST, ARRAY, STRUCT and MAP columns, which arrive as Python lists and dicts) are not represented. They fall under `Other`, so a result holding one is reported as a TypeError, although `json.dumps` encodes lists and dicts of encodable values. For example, `SELECT [1, 2] AS xs` through `execute_sql_query` succeeds in the program but fails in the model.
- `json.dumps` is modelled only as far as whether it succeeds: `Other` values raise a TypeError and every other value is encodable.
- The JSON text itself, `datetime.now()` timestamps and logging. Tool results are datatypes, not text; only the failure of `json.dumps` on values it cannot encode is kept.
- The SQL string constants of the tools are kept on one line each. Their layout in the source (newlines and indentation) is not reproduced.
- Directory creation for the default database path. It is filesystem I/O; only the path value is kept, as a plain string join (no path normalisation).
- The `__del__` finaliser is left out: it only calls `close`.
- `fetch_weather_data` (server.py:17-36) is left out. It calls the weather pipeline with an argument the pipeline does not take, so it always reports an error. `fast_mcp/server/pipelines/weather_pipeline.py` is not part of this model.
- `src/server`, `examples` and `fast_mcp/client` are not part of this model. They hold an earlier server, a network fetch and demo clients.
