/** The database as the service sees it: a pool that hands out connections,
    connections that run one statement or query each, and row cursors.
    What the storage engine answers is not modelled; it is a fixed `Backend`
    value given with the database. The database records, in order, every
    connection acquired and every statement issued, so that contracts can say
    which accesses a handler made. */
module Storage {
  import opened Results
  import opened Timestamps

  /** An error reported by the pool, the driver or the server. */
  datatype DbError = DbError(message: string)

  /** The parameterised SQL statements of the service, with their arguments. */
  datatype Statement =
    | Insert(title: string, description: string, reminder: Time)
    | UpdateRow(id: int, title: string, description: string, reminder: Time)
    | DeleteRow(id: int)
    | SelectById(id: int)
    | SelectAll

  /** One observable access to the database. */
  datatype Access = Acquire | Issue(statement: Statement)

  /** The outcome of a write: an execution error, or a result whose two
      metadata values can each be retrieved or fail. */
  datatype ExecResult =
    | ExecFailed(e: DbError)
    | Executed(lastInsertId: Result<int, DbError>, rowsAffected: Result<nat, DbError>)

  /** A row of the ToDo table as the scan reads it. */
  datatype Row = Row(id: int, title: string, description: string, reminder: Time)

  /** What a query yields: its rows in order, each either scannable or not,
      then possibly an error that ended the iteration. */
  datatype Cursor = Cursor(rows: seq<Result<Row, DbError>>, err: Option<DbError>)

  datatype QueryResult = QueryFailed(e: DbError) | Opened(cursor: Cursor)

  /** The answers of the pool and of the server: whether acquiring a
      connection fails, and what each statement and query returns. */
  datatype Backend = Backend(
    pool: Option<DbError>,
    exec: Statement -> ExecResult,
    query: Statement -> QueryResult)

  class Database {
    const backend: Backend
    /** Every connection acquired and statement issued, oldest first. */
    var log: seq<Access>

    constructor (backend: Backend)
      ensures this.backend == backend && log == []
    {
      this.backend := backend;
      log := [];
    }

    /** Acquires a connection from the pool. */
    method Conn() returns (r: Result<Conn, DbError>)
      modifies this
      ensures log == old(log) + [Acquire]
      ensures r.Err? <==> backend.pool.Some?
      ensures r.Err? ==> r.error == backend.pool.value
      ensures r.Ok? ==> fresh(r.value) && r.value.db == this
    {
      log := log + [Acquire];
      if backend.pool.Some? {
        return Err(backend.pool.value);
      }
      var conn := new Conn(this);
      return Ok(conn);
    }
  }

  class Conn {
    const db: Database

    constructor (db: Database)
      ensures this.db == db
    {
      this.db := db;
    }

    /** Runs a write statement. */
    method Exec(s: Statement) returns (r: ExecResult)
      modifies db
      ensures db.log == old(db.log) + [Issue(s)]
      ensures r == db.backend.exec(s)
    {
      db.log := db.log + [Issue(s)];
      r := db.backend.exec(s);
    }

    /** Runs a query and opens a cursor over its rows. */
    method Query(s: Statement) returns (r: Result<Rows, DbError>)
      modifies db
      ensures db.log == old(db.log) + [Issue(s)]
      ensures r.Err? <==> db.backend.query(s).QueryFailed?
      ensures r.Err? ==> r.error == db.backend.query(s).e
      ensures r.Ok? ==> fresh(r.value) && r.value.Valid() && r.value.cursor == db.backend.query(s).cursor
      ensures r.Ok? ==> r.value.pos == 0 && !r.value.done
    {
      db.log := db.log + [Issue(s)];
      match db.backend.query(s)
      case QueryFailed(e) =>
        return Err(e);
      case Opened(c) =>
        var rows := new Rows(c);
        return Ok(rows);
    }
  }

  /** A forward-only cursor: `pos` rows have been moved onto, and `done` is
      set once Next has reported that no row is left. */
  class Rows {
    const cursor: Cursor
    var pos: nat
    var done: bool

    predicate Valid()
      reads this
    {
      pos <= |cursor.rows| && (done ==> pos == |cursor.rows|)
    }

    constructor (c: Cursor)
      ensures Valid() && cursor == c && pos == 0 && !done
    {
      cursor := c;
      pos := 0;
      done := false;
    }

    /** Moves onto the next row; false once every row has been seen. */
    method Next() returns (more: bool)
      requires Valid()
      modifies this
      ensures Valid()
      ensures more <==> old(pos) < |cursor.rows|
      ensures pos == if more then old(pos) + 1 else old(pos)
      ensures done == !more
    {
      if pos < |cursor.rows| {
        pos, done, more := pos + 1, false, true;
      } else {
        done, more := true, false;
      }
    }

    /** Reads the columns of the current row. */
    method Scan() returns (r: Result<Row, DbError>)
      requires Valid() && 0 < pos && !done
      ensures r == cursor.rows[pos - 1]
    {
      r := cursor.rows[pos - 1];
    }

    /** The error that ended the iteration, reported once Next returned false. */
    method Err() returns (e: Option<DbError>)
      requires Valid()
      ensures e == if done then cursor.err else None
    {
      e := if done then cursor.err else None;
    }
  }
}
