/** The single translation point from a database call's outcome to the
    handler's result: `handle_supabase_operation`. The database call itself
    is external, so its outcome is an input here. */
module SupabaseUtils {
  import opened Common

  /** Why a database call failed: an API error carrying the database's error
      code, or any other exception. */
  datatype Failure = ApiError(code: string) | OtherException

  /** What awaiting a database call produced. */
  datatype DbOutcome<+T> = Done(result: T) | Failed(failure: Failure)

  const NoRowsCode := "PGRST116"
  const UniqueViolationCode := "23505"
  const ForeignKeyViolationCode := "23503"

  function HandleOperation<T>(op: DbOutcome<T>, errorMsg: string): (r: Result<T>)
    ensures op.Done? <==> r.Ok?
    ensures op.Done? ==> r.value == op.result
    ensures op.Failed? ==> r.error.detail == errorMsg
    ensures op == Failed(ApiError(NoRowsCode)) ==> r.Err? && r.error.status == NotFound
    ensures op == Failed(ApiError(UniqueViolationCode)) ==> r.Err? && r.error.status == Conflict
    ensures op.Failed? && op.failure !in {ApiError(NoRowsCode), ApiError(UniqueViolationCode)} ==>
              r.Err? && r.error.status == InternalServerError
  {
    match op
    case Done(v) => Ok(v)
    case Failed(ApiError(code)) =>
      if code == NoRowsCode then Err(HttpError(NotFound, errorMsg))
      else if code == UniqueViolationCode then Err(HttpError(Conflict, errorMsg))
      else Err(HttpError(InternalServerError, errorMsg))
    case Failed(OtherException) => Err(HttpError(InternalServerError, errorMsg))
  }

  /** A foreign-key violation comes out of the helper as a 500 like any
      other code, never as an API error; a caller that wraps its delete in
      the helper therefore never reaches its own handler for code 23503. */
  lemma ForeignKeyViolationIsInternal<T>(errorMsg: string)
    ensures HandleOperation<T>(Failed(ApiError(ForeignKeyViolationCode)), errorMsg)
            == Err(HttpError(InternalServerError, errorMsg))
  {
  }

  /** The helper only ever raises 404, 409 or 500. */
  lemma ErrorStatuses<T>(op: DbOutcome<T>, errorMsg: string)
    requires HandleOperation(op, errorMsg).Err?
    ensures HandleOperation(op, errorMsg).error.status in {NotFound, Conflict, InternalServerError}
  {
  }
}
