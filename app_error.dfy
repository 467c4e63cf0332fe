/** The `AppError` record of backend/src/utils/appError.ts: an HTTP status
    code, a message and an optional machine-readable code, stored as given. */
module AppErrors {
  import opened Wrappers
  import opened Http

  /** The machine-readable error codes live in a file that is not part of
      this model; they are carried as plain strings. */
  type AppErrorCode = string

  datatype AppError = AppError(statusCode: HttpStatusCode, message: string, errCode: Option<AppErrorCode>)
  {
    /** The message handed to the base `Error` by `super(message)`. */
    function BaseMessage(): string {
      message
    }
  }

  /** `new AppError(statusCode, message)` with the optional code left out. */
  function NewAppError(statusCode: HttpStatusCode, message: string): (e: AppError)
    ensures e.statusCode == statusCode && e.message == message
    ensures e.errCode == None
    ensures e.BaseMessage() == message
  {
    AppError(statusCode, message, None)
  }
}
