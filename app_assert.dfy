/** The assert-or-abort primitive of backend/src/utils/appAsert.ts. */
module AppAssert {
  import opened Wrappers
  import opened Http
  import opened AppErrors

  /** What a call to `appAssert` does: return normally, or abort the request
      by throwing an `AppError`. */
  datatype Check = Continue | Abort(error: AppError)

  /** `appAssert(condition, httpStatusCode, message, appErrorCode)`. It returns
      normally exactly when the condition holds (so the caller may rely on the
      condition afterwards), and otherwise aborts with an error carrying the
      status, the message and the optional code unchanged. */
  function Assert(condition: bool, httpStatusCode: HttpStatusCode, message: string,
                  appErrorCode: Option<AppErrorCode>): (c: Check)
    ensures c.Continue? <==> condition
    ensures c.Abort? ==> c.error.statusCode == httpStatusCode
    ensures c.Abort? ==> c.error.message == message && c.error.BaseMessage() == message
    ensures c.Abort? ==> c.error.errCode == appErrorCode
  {
    if condition then Continue else Abort(AppError(httpStatusCode, message, appErrorCode))
  }

  /** Leaving out the optional code leaves the error's code undefined. */
  lemma OmittedCodeIsAbsent(httpStatusCode: HttpStatusCode, message: string)
    ensures Assert(false, httpStatusCode, message, None) == Abort(NewAppError(httpStatusCode, message))
  {
  }
}
