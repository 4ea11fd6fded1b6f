/** The ToDo service server: five handlers that each run the version gate,
    take a connection, issue one statement or query and classify its outcome.
    Each handler is proved to return what its function in ServiceSpec says
    and to make exactly the database accesses that function lists. */
module Service {
  import opened Results
  import opened Timestamps
  import opened Storage
  import opened Errors
  import opened Messages
  import opened ServiceSpec

  class ToDoServiceServer {
    const db: Database

    constructor (db: Database)
      ensures this.db == db
    {
      this.db := db;
    }

    /** Takes a connection from the pool; a failure becomes an Unknown status. */
    method Connect() returns (r: Result<Conn, Error>)
      modifies db
      ensures db.log == old(db.log) + [Acquire]
      ensures r.Err? <==> db.backend.pool.Some?
      ensures r.Err? ==> r.error == Internal(ConnectFailed(db.backend.pool.value))
      ensures r.Ok? ==> fresh(r.value) && r.value.db == db
    {
      var c := db.Conn();
      if c.Err? {
        return Err(Internal(ConnectFailed(c.error)));
      }
      return Ok(c.value);
    }

    method Create(req: CreateRequest) returns (r: Result<CreateResponse, Error>)
      modifies db
      ensures r == CreateRun(db.backend, req).result
      ensures db.log == old(db.log) + CreateRun(db.backend, req).trace
    {
      var gate := CheckApi(req.api);
      if gate.Some? {
        return Err(gate.value);
      }
      var c := Connect();
      if c.Err? {
        return Err(c.error);
      }
      var conn := c.value;
      var reminder := ToTime(req.toDo.reminder);
      if reminder.Err? {
        return Err(InvalidReminder(reminder.error));
      }
      var res := conn.Exec(Insert(req.toDo.title, req.toDo.description, reminder.value));
      if res.ExecFailed? {
        return Err(Internal(InsertFailed(res.e)));
      }
      var id := res.lastInsertId;
      if id.Err? {
        return Err(Internal(LastInsertIdFailed(id.error)));
      }
      return Ok(CreateResponse(ApiVersion, id.value));
    }

    method Read(req: ReadRequest) returns (r: Result<ReadResponse, Error>)
      modifies db
      ensures r == ReadRun(db.backend, req).result
      ensures db.log == old(db.log) + ReadRun(db.backend, req).trace
    {
      var gate := CheckApi(req.api);
      if gate.Some? {
        return Err(gate.value);
      }
      var c := db.Conn();
      if c.Err? {
        return Err(Unwrapped(c.error));
      }
      var conn := c.value;
      var q := conn.Query(SelectById(req.id));
      if q.Err? {
        return Err(Internal(SelectFailed(q.error)));
      }
      var rows := q.value;
      var more := rows.Next();
      if !more {
        var e := rows.Err();
        if e.Some? {
          return Err(Internal(CursorFailed(e.value)));
        }
        return Err(NoSuchToDo(req.id));
      }
      var scanned := rows.Scan();
      if scanned.Err? {
        return Err(Internal(ScanFailed(scanned.error)));
      }
      var reminder := FromTime(scanned.value.reminder);
      if reminder.Err? {
        return Err(Internal(StoredReminderInvalid(reminder.error)));
      }
      var todo := ToDo(scanned.value.id, scanned.value.title, scanned.value.description, Some(reminder.value));
      more := rows.Next();
      if more {
        return Err(Internal(MultipleRows(req.id)));
      }
      return Ok(ReadResponse(ApiVersion, todo));
    }

    method Update(req: UpdateRequest) returns (r: Result<UpdateResponse, Error>)
      modifies db
      ensures r == UpdateRun(db.backend, req).result
      ensures db.log == old(db.log) + UpdateRun(db.backend, req).trace
    {
      var gate := CheckApi(req.api);
      if gate.Some? {
        return Err(gate.value);
      }
      var c := db.Conn();
      if c.Err? {
        return Err(Unwrapped(c.error));
      }
      var conn := c.value;
      var reminder := ToTime(req.toDo.reminder);
      if reminder.Err? {
        return Err(InvalidReminder(reminder.error));
      }
      var res := conn.Exec(UpdateRow(req.toDo.id, req.toDo.title, req.toDo.description, reminder.value));
      if res.ExecFailed? {
        return Err(Internal(UpdateFailed(res.e)));
      }
      var rows := res.rowsAffected;
      if rows.Err? {
        return Err(Internal(RowsAffectedFailed(rows.error)));
      }
      if rows.value == 0 {
        return Err(NoSuchToDo(req.toDo.id));
      }
      return Ok(UpdateResponse(ApiVersion, rows.value));
    }

    method Delete(req: DeleteRequest) returns (r: Result<DeleteResponse, Error>)
      modifies db
      ensures r == DeleteRun(db.backend, req).result
      ensures db.log == old(db.log) + DeleteRun(db.backend, req).trace
    {
      var gate := CheckApi(req.api);
      if gate.Some? {
        return Err(gate.value);
      }
      var c := db.Conn();
      if c.Err? {
        return Err(Unwrapped(c.error));
      }
      var conn := c.value;
      var res := conn.Exec(DeleteRow(req.id));
      if res.ExecFailed? {
        return Err(Internal(DeleteFailed(res.e)));
      }
      var rows := res.rowsAffected;
      if rows.Err? {
        return Err(Internal(RowsAffectedFailed(rows.error)));
      }
      if rows.value == 0 {
        return Err(NoSuchToDo(req.id));
      }
      return Ok(DeleteResponse(ApiVersion, rows.value));
    }

    method ReadAll(req: ReadAllRequest) returns (r: Result<ReadAllResponse, Error>)
      modifies db
      ensures r == ReadAllRun(db.backend, req).result
      ensures db.log == old(db.log) + ReadAllRun(db.backend, req).trace
    {
      var gate := CheckApi(req.api);
      if gate.Some? {
        return Err(gate.value);
      }
      var c := db.Conn();
      if c.Err? {
        return Err(Unwrapped(c.error));
      }
      var conn := c.value;
      var q := conn.Query(SelectAll);
      if q.Err? {
        return Err(Internal(SelectFailed(q.error)));
      }
      var rows := q.value;
      ghost var all := rows.cursor.rows;
      // one time value, overwritten by every row's scan
      var reminder: Time := Time(0, 0);
      var list: seq<ToDo> := [];
      var more := rows.Next();
      while more
        invariant rows.Valid() && rows.cursor == db.backend.query(SelectAll).cursor
        invariant more == !rows.done
        invariant rows.pos == |list| + (if more then 1 else 0)
        invariant Collect(all[..|list|]) == Ok(list)
        invariant db.log == old(db.log) + [Acquire, Issue(SelectAll)]
        decreases |all| - |list|
      {
        var scanned := rows.Scan();
        if scanned.Err? {
          CollectStopsAtFirstFailure(all, |list|);
          return Err(Internal(ScanFailed(scanned.error)));
        }
        reminder := scanned.value.reminder;
        var ts := FromTime(reminder);
        if ts.Err? {
          CollectStopsAtFirstFailure(all, |list|);
          return Err(Internal(StoredReminderInvalid(ts.error)));
        }
        var todo := ToDo(scanned.value.id, scanned.value.title, scanned.value.description, Some(ts.value));
        assert all[..|list| + 1][..|list|] == all[..|list|];
        list := list + [todo];
        more := rows.Next();
      }
      assert all[..|list|] == all;
      var e := rows.Err();
      if e.Some? {
        return Err(Internal(CursorFailed(e.value)));
      }
      return Ok(ReadAllResponse(ApiVersion, list));
    }
  }
}
