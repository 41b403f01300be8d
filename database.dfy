/** The data access manager of the analytics server: every query runs in its
    own connection, read-write sessions hold a re-entrant write lock for the
    whole life of their connection, read-only sessions never touch the lock,
    and fetched rows come back as records. */
module Database {
  import opened Values
  import opened Records

  datatype ConnectionMode = ReadOnly | ReadWrite

  /** `execute_query` and `get_connection` read by default. */
  const DefaultMode: ConnectionMode := ReadOnly

  /** A connection as the engine is asked for it: the database file and
      whether it is opened with `read_only=True`. */
  datatype Connection = Connection(path: string, readOnly: bool)

  /** A cursor after `execute(query, params).fetchall()`: its column
      description (None for a statement without a result set) and the rows. */
  datatype Fetched = Fetched(description: Option<seq<string>>, rows: seq<seq<Value>>)

  /** The embedded engine, as an oracle: whether a connection can be opened,
      and what a statement yields on an open connection. */
  datatype Engine = Engine(
    connect: Connection -> Option<Error>,
    execute: (Connection, string, seq<Value>) -> Result<Fetched>)

  /** What the manager does, in order: the observable history of a session. */
  datatype Event =
    | LockAcquired
    | LockReleased
    | Opened(conn: Connection)
    | Executed(conn: Connection, query: string, params: seq<Value>)
    | Closed(conn: Connection)

  /** `<module dir>/data/analytics.duckdb` */
  function DefaultDbPath(moduleDir: string): string
  {
    moduleDir + "/data/analytics.duckdb"
  }

  function ConnectionFor(path: string, mode: ConnectionMode): (c: Connection)
    ensures c.path == path
    ensures c.readOnly <==> mode == ReadOnly
  {
    Connection(path, mode == ReadOnly)
  }

  /** What `execute_query(query, params, mode)` returns, or the exception it re-raises. */
  function QueryResult(engine: Engine, path: string, query: string, params: seq<Value>,
                       mode: ConnectionMode): (r: Result<seq<Record>>)
    ensures r.Ok? ==>
              engine.connect(ConnectionFor(path, mode)).None? &&
              engine.execute(ConnectionFor(path, mode), query, params).Ok? &&
              |r.value| == |engine.execute(ConnectionFor(path, mode), query, params).value.rows|
    ensures r.Ok? ==> forall i :: 0 <= i < |r.value| ==> UniqueKeys(r.value[i])
  {
    var conn := ConnectionFor(path, mode);
    match engine.connect(conn)
    case Some(e) => Err(e)
    case None =>
      match engine.execute(conn, query, params)
      case Err(e) => Err(e)
      case Ok(fetched) =>
        match fetched.description
        case None => Err(NotIterable)
        case Some(columns) => Ok(ToRecords(columns, fetched.rows))
  }

  /** The result has exactly one record per fetched row, in fetch order, and
      in each record the i-th described column maps to the i-th value. */
  lemma QueryResultRecords(engine: Engine, path: string, query: string, params: seq<Value>,
                           mode: ConnectionMode, columns: seq<string>, rows: seq<seq<Value>>)
    requires engine.connect(ConnectionFor(path, mode)).None?
    requires engine.execute(ConnectionFor(path, mode), query, params) == Ok(Fetched(Some(columns), rows))
    requires Distinct(columns)
    requires forall i :: 0 <= i < |rows| ==> |rows[i]| == |columns|
    ensures QueryResult(engine, path, query, params, mode).Ok?
    ensures |QueryResult(engine, path, query, params, mode).value| == |rows|
    ensures forall i, c :: 0 <= i < |rows| && 0 <= c < |columns| ==>
              |QueryResult(engine, path, query, params, mode).value[i]| == |columns| &&
              QueryResult(engine, path, query, params, mode).value[i][c] == (columns[c], rows[i][c])
  {
    forall i | 0 <= i < |rows| {
      RecordIsPositional(columns, rows[i]);
    }
  }

  /** An engine failure reaches the caller unchanged. */
  lemma EngineErrorsPropagate(engine: Engine, path: string, query: string, params: seq<Value>,
                              mode: ConnectionMode)
    ensures engine.connect(ConnectionFor(path, mode)).Some? ==>
              QueryResult(engine, path, query, params, mode) ==
              Err(engine.connect(ConnectionFor(path, mode)).value)
    ensures engine.connect(ConnectionFor(path, mode)).None? &&
            engine.execute(ConnectionFor(path, mode), query, params).Err? ==>
              QueryResult(engine, path, query, params, mode) ==
              Err(engine.execute(ConnectionFor(path, mode), query, params).error)
    ensures QueryResult(engine, path, query, params, mode).Err? <==>
              engine.connect(ConnectionFor(path, mode)).Some? ||
              engine.execute(ConnectionFor(path, mode), query, params).Err? ||
              engine.execute(ConnectionFor(path, mode), query, params).value.description.None?
  {
  }

  // ----- the session history -----

  function LockDelta(e: Event): int
  {
    match e
    case LockAcquired => 1
    case LockReleased => -1
    case _ => 0
  }

  function ConnectionDelta(e: Event): int
  {
    match e
    case Opened(_) => 1
    case Closed(_) => -1
    case _ => 0
  }

  /** The re-entrant depth of the write lock after a history. */
  function HeldLocks(t: seq<Event>): int
    decreases |t|
  {
    if |t| == 0 then 0 else HeldLocks(t[..|t| - 1]) + LockDelta(t[|t| - 1])
  }

  /** The number of connections opened and not yet closed after a history. */
  function OpenCount(t: seq<Event>): int
    decreases |t|
  {
    if |t| == 0 then 0 else OpenCount(t[..|t| - 1]) + ConnectionDelta(t[|t| - 1])
  }

  /** The event opens, uses or closes a connection that can write. */
  predicate TouchesWritable(e: Event)
  {
    (e.Opened? || e.Executed? || e.Closed?) && !e.conn.readOnly
  }

  /** The event neither takes nor gives back the lock, and touches no
      writable connection. */
  predicate ReadOnlyEvent(e: Event)
  {
    LockDelta(e) == 0 && !TouchesWritable(e)
  }

  /** Every event of the history is read-only. */
  predicate ReadOnlyTrace(t: seq<Event>)
  {
    forall i :: 0 <= i < |t| ==> ReadOnlyEvent(t[i])
  }

  lemma ReadOnlyTraceAppend(a: seq<Event>, b: seq<Event>)
    ensures ReadOnlyTrace(a + b) <==> ReadOnlyTrace(a) && ReadOnlyTrace(b)
  {
    if ReadOnlyTrace(a + b) {
      assert forall i :: 0 <= i < |a| ==> a[i] == (a + b)[i];
      assert forall i :: 0 <= i < |b| ==> b[i] == (a + b)[|a| + i];
    }
  }

  /** Every use of a writable connection, from opening to closing, happens
      while the write lock is held. */
  predicate WritesUnderLock(t: seq<Event>)
    decreases |t|
  {
    |t| == 0 ||
    (WritesUnderLock(t[..|t| - 1]) && (TouchesWritable(t[|t| - 1]) ==> HeldLocks(t[..|t| - 1]) > 0))
  }

  /** Entering `get_connection(mode)`: the lock (read-write only), then the
      connection; a failed connect releases the lock again. */
  function EnterEvents(conn: Connection, mode: ConnectionMode, connected: bool): seq<Event>
  {
    (if mode == ReadWrite then [LockAcquired] else []) +
    (if connected then [Opened(conn)] else if mode == ReadWrite then [LockReleased] else [])
  }

  /** Leaving `get_connection(mode)`: close the connection, then release the lock. */
  function ExitEvents(conn: Connection, mode: ConnectionMode): seq<Event>
  {
    [Closed(conn)] + (if mode == ReadWrite then [LockReleased] else [])
  }

  /** The history of one `execute_query(query, params, mode)` call. */
  function SessionTrace(engine: Engine, path: string, query: string, params: seq<Value>,
                        mode: ConnectionMode): seq<Event>
  {
    var conn := ConnectionFor(path, mode);
    if engine.connect(conn).Some? then EnterEvents(conn, mode, false)
    else EnterEvents(conn, mode, true) + [Executed(conn, query, params)] + ExitEvents(conn, mode)
  }

  lemma {:induction false} HeldLocksAppend(a: seq<Event>, b: seq<Event>)
    ensures HeldLocks(a + b) == HeldLocks(a) + HeldLocks(b)
    ensures OpenCount(a + b) == OpenCount(a) + OpenCount(b)
    decreases |b|
  {
    if |b| > 0 {
      assert (a + b)[..|a + b| - 1] == a + b[..|b| - 1];
      HeldLocksAppend(a, b[..|b| - 1]);
    } else {
      assert a + b == a;
    }
  }

  /** The recursive `WritesUnderLock` says: at every writable event, the lock
      depth of the history before it is positive. */
  lemma {:induction false} WritesUnderLockMeans(t: seq<Event>)
    ensures WritesUnderLock(t) <==>
              forall i :: 0 <= i < |t| && TouchesWritable(t[i]) ==> HeldLocks(t[..i]) > 0
    decreases |t|
  {
    if |t| > 0 {
      var init := t[..|t| - 1];
      WritesUnderLockMeans(init);
      assert forall i :: 0 <= i < |init| ==> t[i] == init[i] && t[..i] == init[..i];
    }
  }

  lemma HeldLocksSingle(e: Event)
    ensures HeldLocks([e]) == LockDelta(e) && OpenCount([e]) == ConnectionDelta(e)
  {
    assert [e][..0] == [];
  }

  /** Entering takes one lock level (read-write) and one connection when the
      connect succeeds, and nothing when it fails; leaving gives them back. */
  lemma EnterExitCounts(conn: Connection, mode: ConnectionMode)
    ensures HeldLocks(EnterEvents(conn, mode, true)) == (if mode == ReadWrite then 1 else 0)
    ensures OpenCount(EnterEvents(conn, mode, true)) == 1
    ensures HeldLocks(EnterEvents(conn, mode, false)) == 0 && OpenCount(EnterEvents(conn, mode, false)) == 0
    ensures HeldLocks(ExitEvents(conn, mode)) == (if mode == ReadWrite then -1 else 0)
    ensures OpenCount(ExitEvents(conn, mode)) == -1
  {
    HeldLocksSingle(LockAcquired);
    HeldLocksSingle(LockReleased);
    HeldLocksSingle(Opened(conn));
    HeldLocksSingle(Closed(conn));
    if mode == ReadWrite {
      HeldLocksAppend([LockAcquired], [Opened(conn)]);
      HeldLocksAppend([LockAcquired], [LockReleased]);
      HeldLocksAppend([Closed(conn)], [LockReleased]);
    } else {
      assert EnterEvents(conn, mode, true) == [Opened(conn)];
      assert EnterEvents(conn, mode, false) == [];
      assert ExitEvents(conn, mode) == [Closed(conn)];
    }
  }

  /** Whatever the engine does, a session gives back every lock it took and
      closes every connection it opened. */
  lemma SessionBalanced(engine: Engine, path: string, query: string, params: seq<Value>,
                        mode: ConnectionMode, before: seq<Event>)
    ensures HeldLocks(before + SessionTrace(engine, path, query, params, mode)) == HeldLocks(before)
    ensures OpenCount(before + SessionTrace(engine, path, query, params, mode)) == OpenCount(before)
  {
    var conn := ConnectionFor(path, mode);
    var s := SessionTrace(engine, path, query, params, mode);
    EnterExitCounts(conn, mode);
    if engine.connect(conn).None? {
      var enter := EnterEvents(conn, mode, true);
      var exec: seq<Event> := [Executed(conn, query, params)];
      HeldLocksSingle(exec[0]);
      HeldLocksAppend(enter, exec);
      HeldLocksAppend(enter + exec, ExitEvents(conn, mode));
    }
    HeldLocksAppend(before, s);
  }

  /** A read-write session takes the lock before opening its connection and
      releases it only after closing it: every event on its writable
      connection happens with the lock held. */
  lemma WriteSessionUnderLock(engine: Engine, path: string, query: string, params: seq<Value>)
    ensures var s := SessionTrace(engine, path, query, params, ReadWrite);
            s[0] == LockAcquired && s[|s| - 1] == LockReleased &&
            forall i :: 0 <= i < |s| && TouchesWritable(s[i]) ==> HeldLocks(s[..i]) > 0
  {
    var s := SessionTrace(engine, path, query, params, ReadWrite);
    var conn := ConnectionFor(path, ReadWrite);
    if engine.connect(conn).None? {
      assert s == [LockAcquired, Opened(conn), Executed(conn, query, params), Closed(conn), LockReleased];
      HeldLocksSingle(LockAcquired);
      HeldLocksSingle(Opened(conn));
      HeldLocksSingle(Executed(conn, query, params));
      assert s[..1] == [LockAcquired];
      assert s[..2] == s[..1] + [s[1]];
      HeldLocksAppend(s[..1], [s[1]]);
      assert s[..3] == s[..2] + [s[2]];
      HeldLocksAppend(s[..2], [s[2]]);
    } else {
      assert s == [LockAcquired, LockReleased];
    }
  }

  /** A read-only session never acquires or releases the lock, and its
      connection is opened with `read_only=True`. */
  lemma ReadOnlySessionLockFree(engine: Engine, path: string, query: string, params: seq<Value>)
    ensures ReadOnlyTrace(SessionTrace(engine, path, query, params, ReadOnly))
    ensures HeldLocks(SessionTrace(engine, path, query, params, ReadOnly)) == 0
  {
    var conn := ConnectionFor(path, ReadOnly);
    var s := SessionTrace(engine, path, query, params, ReadOnly);
    if engine.connect(conn).None? {
      var exec := Executed(conn, query, params);
      assert s == [Opened(conn), exec, Closed(conn)];
      HeldLocksSingle(Opened(conn));
      HeldLocksSingle(exec);
      HeldLocksSingle(Closed(conn));
      HeldLocksAppend([Opened(conn)], [exec]);
      assert [Opened(conn)] + [exec] == [Opened(conn), exec];
      HeldLocksAppend([Opened(conn), exec], [Closed(conn)]);
      assert [Opened(conn), exec] + [Closed(conn)] == s;
    } else {
      assert s == [];
    }
  }

  /** `DataManager`: the database path and the write lock, plus the number of
      open connections; `events` records the history for the proofs. */
  class DataManager {
    const dbPath: string
    var lockDepth: nat
    var openConnections: nat
    ghost var events: seq<Event>

    ghost predicate Valid()
      reads this
    {
      lockDepth == HeldLocks(events) &&
      openConnections == OpenCount(events) &&
      WritesUnderLock(events)
    }

    /** `DataManager(db_path)`: a given path is kept as it is; without one the
        database lives under the module's `data` directory. Nothing is opened. */
    constructor (dbPath: Option<string>, moduleDir: string)
      ensures Valid()
      ensures this.dbPath == if dbPath.Some? then dbPath.value else DefaultDbPath(moduleDir)
      ensures lockDepth == 0 && openConnections == 0 && events == []
    {
      this.dbPath := if dbPath.Some? then dbPath.value else DefaultDbPath(moduleDir);
      lockDepth := 0;
      openConnections := 0;
      events := [];
    }

    method Step(e: Event)
      requires Valid()
      requires TouchesWritable(e) ==> lockDepth > 0
      requires lockDepth + LockDelta(e) >= 0 && openConnections + ConnectionDelta(e) >= 0
      modifies this
      ensures Valid()
      ensures events == old(events) + [e]
      ensures lockDepth == old(lockDepth) + LockDelta(e)
      ensures openConnections == old(openConnections) + ConnectionDelta(e)
    {
      lockDepth := lockDepth + LockDelta(e);
      openConnections := openConnections + ConnectionDelta(e);
      events := events + [e];
      assert events[..|events| - 1] == old(events);
    }

    /** Entering `get_connection(mode)`. */
    method Enter(engine: Engine, mode: ConnectionMode) returns (r: Result<Connection>)
      requires Valid()
      modifies this
      ensures Valid()
      ensures r == match engine.connect(ConnectionFor(dbPath, mode))
                   case None => Ok(ConnectionFor(dbPath, mode))
                   case Some(e) => Err(e)
      ensures events == old(events) + EnterEvents(ConnectionFor(dbPath, mode), mode, r.Ok?)
      ensures lockDepth == old(lockDepth) + (if r.Ok? && mode == ReadWrite then 1 else 0)
      ensures openConnections == old(openConnections) + (if r.Ok? then 1 else 0)
    {
      var conn := ConnectionFor(dbPath, mode);
      if mode == ReadWrite {
        Step(LockAcquired);
      }
      var failure := engine.connect(conn);
      if failure.Some? {
        if mode == ReadWrite {
          Step(LockReleased);
        }
        r := Err(failure.value);
      } else {
        Step(Opened(conn));
        r := Ok(conn);
      }
    }

    /** Leaving `get_connection(mode)`, normally or by an exception. */
    method Exit(conn: Connection, mode: ConnectionMode)
      requires Valid() && conn == ConnectionFor(dbPath, mode)
      requires openConnections > 0 && (mode == ReadWrite ==> lockDepth > 0)
      modifies this
      ensures Valid()
      ensures events == old(events) + ExitEvents(conn, mode)
      ensures openConnections == old(openConnections) - 1
      ensures lockDepth == old(lockDepth) - (if mode == ReadWrite then 1 else 0)
    {
      Step(Closed(conn));
      if mode == ReadWrite {
        Step(LockReleased);
      }
    }

    /** `execute_query(query, params, mode)`: one session, one statement, all
        rows fetched and turned into records; an engine error is re-raised as
        it is, after the session has been closed. */
    method ExecuteQuery(engine: Engine, query: string, params: seq<Value> := [],
                        mode: ConnectionMode := DefaultMode) returns (r: Result<seq<Record>>)
      requires Valid()
      modifies this
      ensures Valid()
      ensures r == QueryResult(engine, dbPath, query, params, mode)
      ensures events == old(events) + SessionTrace(engine, dbPath, query, params, mode)
      ensures lockDepth == old(lockDepth) && openConnections == old(openConnections)
    {
      var session := Enter(engine, mode);
      if session.Err? {
        r := Err(session.error);
        return;
      }
      var conn := session.value;
      Step(Executed(conn, query, params));
      var fetched := engine.execute(conn, query, params);
      if fetched.Err? {
        r := Err(fetched.error);
      } else if fetched.value.description.None? {
        r := Err(NotIterable);
      } else {
        r := Ok(ToRecords(fetched.value.description.value, fetched.value.rows));
      }
      Exit(conn, mode);
    }

    /** `execute_write(query, params)`: the same call in read-write mode. */
    method ExecuteWrite(engine: Engine, query: string, params: seq<Value> := [])
      returns (r: Result<seq<Record>>)
      requires Valid()
      modifies this
      ensures Valid()
      ensures r == QueryResult(engine, dbPath, query, params, ReadWrite)
      ensures events == old(events) + SessionTrace(engine, dbPath, query, params, ReadWrite)
      ensures lockDepth == old(lockDepth) && openConnections == old(openConnections)
    {
      r := ExecuteQuery(engine, query, params, ReadWrite);
    }

    /** `close()`: connections live only for one call, so there is nothing to release. */
    method Close()
      ensures unchanged(this)
    {
    }
  }
}
