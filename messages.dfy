/** The request and response messages of the ToDo service, version 1, as the
    handlers see them. */
module Messages {
  import opened Results
  import opened Timestamps

  /** A task; `reminder` is None when the caller sent no timestamp (a nil pointer). */
  datatype ToDo = ToDo(id: int, title: string, description: string, reminder: Option<Timestamp>)

  datatype CreateRequest = CreateRequest(api: string, toDo: ToDo)
  datatype CreateResponse = CreateResponse(api: string, id: int)

  datatype ReadRequest = ReadRequest(api: string, id: int)
  datatype ReadResponse = ReadResponse(api: string, toDo: ToDo)

  datatype UpdateRequest = UpdateRequest(api: string, toDo: ToDo)
  datatype UpdateResponse = UpdateResponse(api: string, updated: int)

  datatype DeleteRequest = DeleteRequest(api: string, id: int)
  datatype DeleteResponse = DeleteResponse(api: string, deleted: int)

  datatype ReadAllRequest = ReadAllRequest(api: string)
  datatype ReadAllResponse = ReadAllResponse(api: string, toDos: seq<ToDo>)
}
