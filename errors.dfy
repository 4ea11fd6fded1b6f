/** The errors the handlers return. Every error but `Unwrapped` is a gRPC
    status error with one of four codes; `Unwrapped` is an error from the
    connection pool handed back as it is, without a status code. */
module Errors {
  import Storage
  import Timestamps

  datatype Code = Unimplemented | InvalidArgument | NotFound | Unknown

  /** What an Unknown status reports as its cause. */
  datatype Cause =
    | ConnectFailed(e: Storage.DbError)
    | InsertFailed(e: Storage.DbError)
    | LastInsertIdFailed(e: Storage.DbError)
    | UpdateFailed(e: Storage.DbError)
    | DeleteFailed(e: Storage.DbError)
    | RowsAffectedFailed(e: Storage.DbError)
    | SelectFailed(e: Storage.DbError)
    | CursorFailed(e: Storage.DbError)
    | ScanFailed(e: Storage.DbError)
    | StoredReminderInvalid(why: Timestamps.TimestampError)
    | MultipleRows(id: int)

  datatype Error =
    | UnsupportedApi(implemented: string, asked: string)
    | InvalidReminder(why: Timestamps.TimestampError)
    | NoSuchToDo(id: int)
    | Internal(cause: Cause)
    | Unwrapped(e: Storage.DbError)
  {
    predicate IsStatus()
    {
      !Unwrapped?
    }

    function StatusCode(): Code
      requires IsStatus()
    {
      match this
      case UnsupportedApi(_, _) => Unimplemented
      case InvalidReminder(_) => InvalidArgument
      case NoSuchToDo(_) => NotFound
      case Internal(_) => Unknown
    }
  }
}
