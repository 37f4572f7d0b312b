/** The API's error-to-response mapping (apps/api/src/middleware/errorHandler.ts). An error
    reaches it when a route handler throws (asyncHandler passes it on). */
module ErrorHandler {
  import opened Common

  /** What the thrown value is: a Prisma known-request error with its code, or any other Error. */
  datatype ErrorKind = PrismaKnown(code: string) | PlainError

  /** The fields the handler reads. An absent statusCode is None; an absent isOperational is false. */
  datatype AppError = AppError(
    kind: ErrorKind,
    name: string,
    message: string,
    statusCode: Option<int>,
    isOperational: bool,
    stack: string)

  datatype ErrorResponse = ErrorResponse(status: int, message: string, code: Option<string>, stack: Option<string>)

  /** errorHandler: Prisma codes first, then the JWT error names, then the default response,
      which carries the stack only when NODE_ENV is "development". */
  function HandleError(err: AppError, nodeEnv: Option<string>): ErrorResponse {
    if err.kind.PrismaKnown? then
      if err.kind.code == "P2002" then ErrorResponse(409, "A record with this information already exists", Some("DUPLICATE_ENTRY"), None)
      else if err.kind.code == "P2025" then ErrorResponse(404, "Record not found", Some("NOT_FOUND"), None)
      else ErrorResponse(500, "Database error", Some(err.kind.code), None)
    else if err.name == "JsonWebTokenError" then ErrorResponse(401, "Invalid token", Some("INVALID_TOKEN"), None)
    else if err.name == "TokenExpiredError" then ErrorResponse(401, "Token expired", Some("TOKEN_EXPIRED"), None)
    else
      var status := if err.statusCode.Some? && err.statusCode.value != 0 then err.statusCode.value else 500;
      var message := if err.isOperational then err.message else "Internal server error";
      ErrorResponse(status, message, None, if nodeEnv == Some("development") then Some(err.stack) else None)
  }

  /** The Prisma mapping: P2002 is 409, P2025 is 404, any other code is 500 and is echoed back;
      it applies whatever the error's name. */
  lemma PrismaMapping(err: AppError, nodeEnv: Option<string>)
    requires err.kind.PrismaKnown?
    ensures err.kind.code == "P2002" ==> HandleError(err, nodeEnv).status == 409 && HandleError(err, nodeEnv).code == Some("DUPLICATE_ENTRY")
    ensures err.kind.code == "P2025" ==> HandleError(err, nodeEnv).status == 404 && HandleError(err, nodeEnv).code == Some("NOT_FOUND")
    ensures err.kind.code != "P2002" && err.kind.code != "P2025" ==>
      HandleError(err, nodeEnv) == ErrorResponse(500, "Database error", Some(err.kind.code), None)
  {
  }

  /** The JWT names give 401 unless the error is a Prisma error, which is tested first. */
  lemma JwtNameMapping(err: AppError, nodeEnv: Option<string>)
    requires err.kind.PlainError?
    ensures err.name == "JsonWebTokenError" ==> HandleError(err, nodeEnv) == ErrorResponse(401, "Invalid token", Some("INVALID_TOKEN"), None)
    ensures err.name == "TokenExpiredError" ==> HandleError(err, nodeEnv) == ErrorResponse(401, "Token expired", Some("TOKEN_EXPIRED"), None)
  {
  }

  /** The default response: statusCode or 500, the message only for operational errors, the
      stack only in development; no other response has a stack. */
  lemma DefaultMapping(err: AppError, nodeEnv: Option<string>)
    ensures var r := HandleError(err, nodeEnv);
      && (r.stack.Some? <==> err.kind.PlainError? && err.name != "JsonWebTokenError" && err.name != "TokenExpiredError"
                             && nodeEnv == Some("development"))
      && (err.kind.PlainError? && err.name != "JsonWebTokenError" && err.name != "TokenExpiredError" ==>
            && r.status == (if err.statusCode.Some? && err.statusCode.value != 0 then err.statusCode.value else 500)
            && (r.message == err.message || r.message == "Internal server error")
            && (err.isOperational ==> r.message == err.message)
            && (!err.isOperational ==> r.message == "Internal server error"))
  {
  }

  /** createError: a plain, operational Error with that message and status. */
  function CreateError(message: string, statusCode: int, stack: string): (e: AppError)
    ensures e.kind.PlainError? && e.isOperational && e.message == message && e.statusCode == Some(statusCode)
  {
    AppError(PlainError, "Error", message, Some(statusCode), true, stack)
  }

  /** Handling a created error answers with its status and message whenever the status is not 0. */
  lemma CreateErrorRoundTrip(message: string, statusCode: int, stack: string, nodeEnv: Option<string>)
    requires statusCode != 0
    ensures HandleError(CreateError(message, statusCode, stack), nodeEnv).status == statusCode
    ensures HandleError(CreateError(message, statusCode, stack), nodeEnv).message == message
  {
  }
}
