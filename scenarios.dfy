/** The Create cases of the service's own test table, each replayed against
    a stub database that answers every write the same way, as the test's SQL
    mock does. Each states the answer and the accesses made. */
module Scenarios {
  import opened Results
  import opened Timestamps
  import opened Storage
  import opened Errors
  import opened Messages
  import opened ServiceSpec

  /** A database whose pool always hands out a connection, whose writes all
      return `answer` and which expects no query. */
  function StubBackend(answer: ExecResult): Backend
  {
    Backend(None, (s: Statement) => answer, (s: Statement) => QueryFailed(DbError("unexpected query")))
  }

  function TestToDo(reminder: Timestamp): ToDo
  {
    ToDo(0, "title", "description", Some(reminder))
  }

  /** The store assigns id 1: the response carries "v1" and id 1, after one
      INSERT of the request's title, description and reminder. */
  lemma CreateOk(reminder: Timestamp)
    requires Valid(reminder)
    ensures var b := StubBackend(Executed(Ok(1), Ok(1)));
            var run := CreateRun(b, CreateRequest("v1", TestToDo(reminder)));
            run.result == Ok(CreateResponse("v1", 1))
            && run.trace == [Acquire, Issue(Insert("title", "description", Time(reminder.seconds, reminder.nanos)))]
  {
  }

  /** An unsupported version is refused before the invalid reminder is looked at,
      and the database is never touched. */
  lemma CreateUnsupportedApi(answer: ExecResult)
    ensures CreateRun(StubBackend(answer), CreateRequest("v1000", TestToDo(Timestamp(1, -1))))
            == Run(Err(UnsupportedApi("v1", "v1000")), [])
  {
  }

  /** A reminder with nanos = -1 is an invalid argument; a connection was
      taken but no INSERT was issued. */
  lemma CreateInvalidReminder(answer: ExecResult)
    ensures CreateRun(StubBackend(answer), CreateRequest("v1", TestToDo(Timestamp(1, -1))))
            == Run(Err(InvalidReminder(NanosOutOfRange)), [Acquire])
  {
  }

  /** The INSERT itself fails. */
  lemma CreateInsertFailed(reminder: Timestamp)
    requires Valid(reminder)
    ensures var e := DbError("INSERT failed");
            CreateRun(StubBackend(ExecFailed(e)), CreateRequest("v1", TestToDo(reminder))).result
            == Err(Internal(InsertFailed(e)))
  {
  }

  /** The INSERT runs but its generated id cannot be retrieved. */
  lemma CreateLastInsertIdFailed(reminder: Timestamp)
    requires Valid(reminder)
    ensures var e := DbError("LastInsertId failed");
            CreateRun(StubBackend(Executed(Err(e), Err(e))), CreateRequest("v1", TestToDo(reminder))).result
            == Err(Internal(LastInsertIdFailed(e)))
  {
  }
}
