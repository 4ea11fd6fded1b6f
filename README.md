# ToDo service, version 1: request-to-storage mapping

This project models the core of a gRPC ToDo service written in Go: the five
handlers `Create`, `Read`, `Update`, `Delete` and `ReadAll` of
`toDoServiceServer`, the API version gate `checkAPI`, and the `connect`
helper. Each handler runs the version gate, takes a connection from the
database pool, checks or converts the reminder timestamp, runs one SQL
statement or query, and turns the outcome into a response or a classified
error.

The database is not modelled. A `Storage.Database` object carries fixed
answers (a `Backend`):
- whether taking a connection fails;
- what each write statement returns: an execution error, or a result whose
  last-insert-id and rows-affected values can each fail;
- what each query returns: a failure, or a cursor of rows, each scannable or
  not, followed optionally by an error.

The database also records every connection taken and every statement issued,
in order. Each handler method of `Service.ToDoServiceServer` is proved to
return what its `ServiceSpec.…Run` function gives, and to add exactly that
function's trace to the log. The service's promises are the contracts of
those functions:
- the gate comes first and touches nothing when it refuses;
- an invalid reminder stops `Create` and `Update` before any write;
- zero rows or zero rows affected means NotFound naming the id;
- a second row on `Read` is an error;
- `ReadAll` keeps cursor order and aborts on the first bad row or on a
  trailing error;
- every success answers with API version `"v1"`.

Timestamp validity follows the range documented for
`google.protobuf.Timestamp`. Seconds run from 0001-01-01T00:00:00Z up to, but
excluding, 10000-01-01T00:00:00Z. Nanos lie in [0, 999 999 999]. A missing
(nil) timestamp is also invalid.

Two points where the code differs from the design description. The model
follows the code in both:
- Only `Create` wraps a pool failure as an Unknown status. `Read`, `Update`,
  `Delete` and `ReadAll` return the pool's error unwrapped (`Errors.Unwrapped`).
- `Read` looks for a second row after the first, but it never asks the cursor
  for a trailing error at that point. With exactly one row it succeeds even
  if the cursor ended with an error (`ServiceSpec.ClassifyRead`).

## Model

| member | source | states |
|---|---|---|
| `Timestamps.Validate` | pkg/service/v1/todo_service.go:68-71 | A wire timestamp passes validation iff it is present and in the Timestamp range; a nil timestamp is reported as such |
| `Timestamps.ToTime` | pkg/service/v1/todo_service.go:150-153 | The wire-to-time conversion succeeds iff the timestamp is present and valid (so nanos = -1 fails), and then keeps seconds and nanos |
| `Timestamps.FromTime` | pkg/service/v1/todo_service.go:124-127 | The time-to-wire conversion succeeds iff the second is in range, gives a valid timestamp, and converting back gives the same time |
| `Timestamps.WireRoundTrip` | pkg/service/v1/todo_service.go:238-241 | A valid wire timestamp converted to a time value and back is unchanged |
| `ServiceSpec.CheckApi` | pkg/service/v1/todo_service.go:29-38 | The gate passes iff the version is "" or "v1"; otherwise it is an Unimplemented error naming both versions |
| `ServiceSpec.ConvertRow` | pkg/service/v1/todo_service.go:118-127 | A row becomes a task iff it scans and its reminder converts, with the row's id, title, description and reminder; failures are Unknown |
| `ServiceSpec.Collect` | pkg/service/v1/todo_service.go:228-244 | Collecting rows succeeds iff every row converts, giving one task per row in cursor order |
| `ServiceSpec.CollectStopsAtFirstFailure` | pkg/service/v1/todo_service.go:231-241 | Collecting stops with the error of the first row that fails, whatever follows it |
| `ServiceSpec.ClassifyRead` | pkg/service/v1/todo_service.go:111-135 | Read succeeds iff there is exactly one row and it converts, returning that row. No row and no cursor error is NotFound naming the id; no row with an error is Unknown; a second row is Unknown (MultipleRows) |
| `ServiceSpec.CountAffected` | pkg/service/v1/todo_service.go:160-167 | Zero rows affected is NotFound naming the id; a positive count is returned unchanged; a failed retrieval is Unknown |
| `ServiceSpec.CreateRun` | pkg/service/v1/todo_service.go:53-89 | Gate first with no access on refusal. The INSERT of the request's fields is issued iff gate, pool and reminder accept. A pool failure is Unknown; an invalid reminder is InvalidArgument with no INSERT. INSERT and last-insert-id failures are Unknown. Success iff both succeed, answering "v1" and the store's last insert id. Every error is a status |
| `ServiceSpec.ReadRun` | pkg/service/v1/todo_service.go:92-136 | Gate first with no access on refusal. SELECT by id iff gate and pool accept. A pool error is returned unwrapped; a query failure is Unknown. Otherwise the answer is the cursor classification with "v1". NotFound(id) iff the query returned no row and no error |
| `ServiceSpec.UpdateRun` | pkg/service/v1/todo_service.go:138-174 | Gate first with no access on refusal. The UPDATE of the request's fields is issued iff gate, pool and reminder accept. An invalid reminder is InvalidArgument with no UPDATE; a pool error is returned unwrapped. An exec failure is Unknown; otherwise the answer is the rows-affected classification. Success answers "v1" with Updated > 0 |
| `ServiceSpec.DeleteRun` | pkg/service/v1/todo_service.go:176-207 | Gate first with no access on refusal. DELETE by id iff gate and pool accept. A pool error is returned unwrapped; an exec failure is Unknown. Otherwise the answer is the rows-affected classification. Success answers "v1" with Deleted > 0 |
| `ServiceSpec.ReadAllRun` | pkg/service/v1/todo_service.go:209-254 | Gate first with no access on refusal. SELECT all iff gate and pool accept. Success iff the query opened, every row converted and no trailing error came. The tasks are the rows in cursor order, and an empty cursor gives an empty list. A trailing error is Unknown |
| `ServiceSpec.ReadAllAbortsOnFirstBadRow` | pkg/service/v1/todo_service.go:231-241 | When row k is the first that fails to scan or convert, ReadAll fails with that row's error |
| `Storage.Database.Conn` | pkg/service/v1/todo_service.go:97-100 | Taking a connection is logged and fails exactly when the pool fails |
| `Storage.Conn.Exec` | pkg/service/v1/todo_service.go:188 | A write is logged and returns the store's answer for that statement |
| `Storage.Conn.Query` | pkg/service/v1/todo_service.go:221 | A query is logged; it fails, or opens a fresh cursor at its start over the store's rows for it |
| `Storage.Rows.Next` | pkg/service/v1/todo_service.go:231 | Next advances by one row while rows remain and reports false once none are left |
| `Storage.Rows.Scan` | pkg/service/v1/todo_service.go:234 | Scan yields the current row or its scan error |
| `Storage.Rows.Err` | pkg/service/v1/todo_service.go:246 | The cursor's trailing error is reported once iteration has ended |
| `Service.ToDoServiceServer.constructor` | pkg/service/v1/todo_service.go:24-26 | The server holds the given database |
| `Service.ToDoServiceServer.Connect` | pkg/service/v1/todo_service.go:42-48 | One connection is taken; a pool failure becomes an Unknown status |
| `Service.ToDoServiceServer.Create` | pkg/service/v1/todo_service.go:53-89 | Returns `CreateRun`'s result and appends exactly its accesses to the log |
| `Service.ToDoServiceServer.Read` | pkg/service/v1/todo_service.go:92-136 | Returns `ReadRun`'s result and appends exactly its accesses to the log |
| `Service.ToDoServiceServer.Update` | pkg/service/v1/todo_service.go:138-174 | Returns `UpdateRun`'s result and appends exactly its accesses to the log |
| `Service.ToDoServiceServer.Delete` | pkg/service/v1/todo_service.go:176-207 | Returns `DeleteRun`'s result and appends exactly its accesses to the log |
| `Service.ToDoServiceServer.ReadAll` | pkg/service/v1/todo_service.go:209-254 | Iterates the cursor and returns `ReadAllRun`'s result. The loop invariant keeps the tasks built so far equal to the collection of the rows read |
| `Scenarios.CreateOk` | pkg/service/v1/todo_service_test.go:45-66 | A store that assigns id 1 gives the answer ("v1", 1) after one INSERT of "title", "description" and the reminder |
| `Scenarios.CreateUnsupportedApi` | pkg/service/v1/todo_service_test.go:67-86 | Version "v1000" is refused as Unimplemented with no access, even though the reminder is also invalid |
| `Scenarios.CreateInvalidReminder` | pkg/service/v1/todo_service_test.go:87-106 | A reminder with nanos = -1 is InvalidArgument after the connection is taken and before any INSERT |
| `Scenarios.CreateInsertFailed` | pkg/service/v1/todo_service_test.go:107-125 | A failing INSERT gives Unknown |
| `Scenarios.CreateLastInsertIdFailed` | pkg/service/v1/todo_service_test.go:126-144 | A failing last-insert-id gives Unknown |

## Left out

- What the SQL statements do to the table is not modelled: the store's answers are given. So the model does not state that a Create followed by a Read returns the task that was submitted.
- Whether MySQL reports zero rows affected for an UPDATE that changes nothing is the store's choice. It appears only as a possible answer, and then the model gives NotFound as the code does.
- Connection and cursor release (`defer conn.Close()`, `defer rows.Close()`) and `context` cancellation are not modelled. They are resource and concurrency concerns of `database/sql`.
- The truncation of sub-second precision by the storage engine, and time zones, are not modelled. Time values are seconds and nanoseconds since the epoch.
- Error message text is not modelled beyond the error kind, its cause and the id it names.
- Integer widths are not modelled. Ids and counts are unbounded integers, and rows affected is a natural number, because the driver never reports a negative count.
- A request whose `ToDo` is nil makes the Go handlers `Create` and `Update` fail with a nil dereference. This is not modelled: the model's requests always carry a task.
- The status code a gRPC transport gives an `Unwrapped` error is transport behaviour and is not modelled.
- The protobuf helper package that converts timestamps is not part of this model. Its validation is stated from the documented range of `google.protobuf.Timestamp`.
- pkg/cmd/server.go (flags, connection string, process start), pkg/protocol/grpc/server.go, pkg/protocol/rest/server.go and the two example clients are not part of this model. They are process bootstrap and network wiring.
