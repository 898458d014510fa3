/** The error shapes the object-document mapper and the database raise
    into the handlers, which pass them on to the error middleware. Only the
    fields the middleware inspects matter; the rest of the wording is not
    part of this model. */
module DbErrors {
  import opened Wrappers
  import opened ErrorMiddleware
  import opened JsString

  /** A value that cannot be cast to the type of `path` (an id that is not
      an ObjectId). */
  function CastFailure(path: string): (e: ErrorShape)
    ensures e.name == "CastError" && e.path == Some(path) && e.statusCode.None?
  {
    ErrorShape("CastError", None, None, Some("Cast to ObjectId failed for path " + path), Some(path), None)
  }

  /** A unique index rejected a write; `keyValue` names the offending key. */
  function DuplicateKey(key: string): (e: ErrorShape)
    ensures e.code == Some(11000) && e.keyValue == Some([key]) && e.name != "CastError"
  {
    ErrorShape("MongoServerError", Some(11000), None, Some("E11000 duplicate key error"), None, Some([key]))
  }

  /** Schema validation failed on the listed paths. */
  function ValidationFailure(what: string, paths: seq<string>): (e: ErrorShape)
    ensures e.name == "ValidationError" && e.code.None? && e.statusCode.None?
    ensures e.message == Some(what + ": " + JoinComma(paths))
  {
    ErrorShape("ValidationError", None, None, Some(what + ": " + JoinComma(paths)), None, None)
  }

  /** The server's error code for a negative skip. */
  const NegativeSkipCode: int := 51024

  /** The server refuses a query whose skip is negative, naming the value. */
  function NegativeSkip(skip: int): (e: ErrorShape)
    ensures e.name == "MongoServerError" && e.code == Some(NegativeSkipCode) && e.statusCode.None?
    ensures e.message == Some("BSON field 'skip' value must be >= 0, actual value '" + Show(skip) + "'")
  {
    ErrorShape("MongoServerError", Some(NegativeSkipCode), None,
      Some("BSON field 'skip' value must be >= 0, actual value '" + Show(skip) + "'"), None, None)
  }

  /** A validation failure is not one of the shapes the middleware
      rewrites, so it reaches the client as a 500 carrying its own message. */
  method ValidationFailureReply(what: string, paths: seq<string>) returns (reply: Reply)
    ensures reply == Reply(500, false, what + ": " + JoinComma(paths))
  {
    reply := HandleError(ValidationFailure(what, paths));
  }

  /** The refusal of a negative skip is not a rewritten shape either: a 500
      carrying the database's message. */
  method NegativeSkipReply(skip: int) returns (reply: Reply)
    ensures reply == Reply(500, false, "BSON field 'skip' value must be >= 0, actual value '" + Show(skip) + "'")
  {
    reply := HandleError(NegativeSkip(skip));
  }

  /** A duplicate key reaches the client as 400 "<key> already exists". */
  method DuplicateKeyReply(key: string) returns (reply: Reply)
    ensures reply == Reply(400, false, key + " already exists")
  {
    reply := HandleError(DuplicateKey(key));
  }

  /** A malformed id reaches the client as 400 naming the path. */
  method CastFailureReply(path: string) returns (reply: Reply)
    ensures reply == Reply(400, false, "Resource not found. Invalid: " + path)
  {
    reply := HandleError(CastFailure(path));
  }
}
