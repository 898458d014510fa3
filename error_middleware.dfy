/** The Express error middleware: every error a handler passes to `next`
    ends here and becomes a JSON reply `{ success: false, message }` with an
    HTTP status. */
module ErrorMiddleware {
  import opened Wrappers

  /** The fields of a thrown error that the middleware inspects; `None`
      stands for a property that is `undefined`. `keyValue` holds the keys of
      the duplicate-key error's `keyValue` object, in their order. */
  datatype ErrorShape = ErrorShape(
    name: string,
    code: Option<int>,
    statusCode: Option<int>,
    message: Option<string>,
    path: Option<string>,
    keyValue: Option<seq<string>>)

  /** `new ErrorHandler(message, statusCode)`: an `Error` (so its name is
      "Error" and it has no `code`) carrying an HTTP status. */
  function AppError(message: string, statusCode: int): (e: ErrorShape)
    ensures e.name == "Error" && e.code.None?
    ensures e.statusCode == Some(statusCode) && e.message == Some(message)
  {
    ErrorShape("Error", None, Some(statusCode), Some(message), None, None)
  }

  /** What the middleware sends: a JSON reply, or nothing because it threw. */
  datatype Reply = Reply(status: int, success: bool, message: string) | Threw

  /** `${v}` in a template literal: an undefined value prints as "undefined". */
  function Interpolate(v: Option<string>): string {
    if v.Some? then v.value else "undefined"
  }

  /** `String(array)`: the elements joined with commas. For a duplicate key
      only the one-key case arises, because both unique indexes are on the
      single field `email`; several elements occur only in the stand-in
      message of a validation failure. */
  function JoinComma(parts: seq<string>): (r: string)
    ensures |parts| == 1 ==> r == parts[0]
    ensures parts == [] ==> r == ""
  {
    if parts == [] then ""
    else if |parts| == 1 then parts[0]
    else JoinComma(parts[..|parts| - 1]) + "," + parts[|parts| - 1]
  }

  predicate TruthyStatus(v: Option<int>) {
    v.Some? && v.value != 0
  }

  predicate TruthyText(v: Option<string>) {
    v.Some? && v.value != ""
  }

  /** The error names and codes the middleware rewrites. */
  predicate IsNamedShape(e: ErrorShape) {
    e.name == "CastError" || e.code == Some(11000)
    || e.name == "JsonWebTokenError" || e.name == "TokenExpiredError"
  }

  /** The middleware. It first fills in the default status and message,
      then runs four independent checks, each of which may replace `err`
      with a fresh `ErrorHandler`. A replacement has name "Error" and no
      code, so once one check fires the later ones cannot: the first shape
      that matches decides the reply. */
  method HandleError(e: ErrorShape) returns (reply: Reply)
    ensures reply.Reply? ==> !reply.success
    ensures e.name == "CastError"
      ==> reply == Reply(400, false, "Resource not found. Invalid: " + Interpolate(e.path))
    ensures e.name != "CastError" && e.code == Some(11000) && e.keyValue.Some?
      ==> reply == Reply(400, false, JoinComma(e.keyValue.value) + " already exists")
    ensures e.name != "CastError" && e.code == Some(11000) && e.keyValue.None?
      ==> reply == Threw
    ensures e.name == "JsonWebTokenError" && e.code != Some(11000)
      ==> reply == Reply(401, false, "JWT is invalid")
    ensures e.name == "TokenExpiredError" && e.code != Some(11000)
      ==> reply == Reply(401, false, "JWT has expired")
    ensures !IsNamedShape(e) ==> reply == Reply(
      if TruthyStatus(e.statusCode) then e.statusCode.value else 500,
      false,
      if TruthyText(e.message) then e.message.value else "Internal Server Error")
  {
    var err := e;
    err := err.(statusCode := Some(if TruthyStatus(err.statusCode) then err.statusCode.value else 500));
    err := err.(message := Some(if TruthyText(err.message) then err.message.value else "Internal Server Error"));

    if err.name == "CastError" {
      err := AppError("Resource not found. Invalid: " + Interpolate(err.path), 400);
    }

    if err.code == Some(11000) {
      if err.keyValue.None? {
        // Object.keys(undefined) throws a TypeError inside the middleware.
        return Threw;
      }
      err := AppError(JoinComma(err.keyValue.value) + " already exists", 400);
    }

    if err.name == "JsonWebTokenError" {
      err := AppError("JWT is invalid", 401);
    }

    if err.name == "TokenExpiredError" {
      err := AppError("JWT has expired", 401);
    }

    reply := Reply(err.statusCode.value, false, err.message.value);
  }

  /** An error raised by a handler through `next(new ErrorHandler(m, s))`
      reaches the client unchanged, as long as its status is not 0 and its
      message is not empty. */
  method AppErrorReply(message: string, statusCode: int) returns (reply: Reply)
    requires message != "" && statusCode != 0
    ensures reply == Reply(statusCode, false, message)
  {
    reply := HandleError(AppError(message, statusCode));
  }
}
