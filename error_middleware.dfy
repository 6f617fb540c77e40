/** The Express error middleware: it fills in a default status and message,
    rewrites the errors of Mongoose and jsonwebtoken that it knows by name, and
    replies with the status, the message and, in development, the stack. */
module ErrorMiddleware {
  import opened Common
  import opened Js
  import opened Text
  import opened ErrorHandler

  /** The fields of a raised error that the middleware reads. `keyValueKeys` are
      the keys of a duplicate-key error's `keyValue` object, in order. */
  datatype RaisedError = RaisedError(
    name: string,
    message: string,
    statusCode: Option<int>,
    code: Option<int>,
    keyValueKeys: seq<string>,
    path: Option<string>)

  datatype ErrorReply = ErrorReply(status: int, message: string, includesStack: bool)

  const DefaultMessage := "Internal Server Error"

  /** `err.statusCode || 500`. */
  function StatusOrDefault(statusCode: Option<int>): (s: int)
    ensures s != 0
    ensures statusCode.Some? && statusCode.value != 0 ==> s == statusCode.value
  {
    if statusCode.Some? && statusCode.value != 0 then statusCode.value else 500
  }

  /** The `errorTypes` table: the replacement (message, code) for a known error name. */
  function KnownError(err: RaisedError, message: string): Option<(string, int)>
  {
    if err.name == "CastError" then
      Some(("Resource not found. Invalid: " + ToText(if err.path.Some? then Some(JStr(err.path.value)) else None), 400))
    else if err.name == "JsonWebTokenError" then
      Some(("Invalid JSON Web Token, please try again", 401))
    else if err.name == "TokenExpiredError" then
      Some(("JSON Web Token has expired, please login again", 401))
    else if err.name == "ValidationError" then
      Some((message, 400))
    else if err.name == "MongoServerError" then
      Some((if err.code == Some(11000) then "Duplicate " + Join(err.keyValueKeys, ",") + " entered"
            else "Database error occurred", 400))
    else None
  }

  /** The middleware's reply to `err` when NODE_ENV is `env`. */
  function HandleError(err: RaisedError, env: string): (r: ErrorReply)
    ensures r.includesStack <==> env == "development"
    ensures r.status != 0 && r.message != ""
  {
    var status := StatusOrDefault(err.statusCode);
    var message := if err.message != "" then err.message else DefaultMessage;
    match KnownError(err, message)
    case Some((m, c)) =>
      var e := Raise(m, c);
      ErrorReply(e.statusCode, e.message, env == "development")
    case None => ErrorReply(status, message, env == "development")
  }

  /** Errors of unknown name keep their own status and message, with 500 and
      'Internal Server Error' filling in what is missing. */
  lemma UnknownErrorKept(err: RaisedError, env: string)
    requires err.name !in {"CastError", "JsonWebTokenError", "TokenExpiredError", "ValidationError", "MongoServerError"}
    ensures HandleError(err, env).status == (if err.statusCode.Some? && err.statusCode.value != 0 then err.statusCode.value else 500)
    ensures HandleError(err, env).message == (if err.message != "" then err.message else "Internal Server Error")
  {
  }

  /** Malformed ids and failed validation become 400, token problems 401; a
      validation error keeps its own message. */
  lemma KnownErrorStatuses(err: RaisedError, env: string)
    ensures err.name == "CastError" ==> HandleError(err, env).status == 400
    ensures err.name in {"JsonWebTokenError", "TokenExpiredError"} ==> HandleError(err, env).status == 401
    ensures err.name == "ValidationError" ==> HandleError(err, env).status == 400
    ensures err.name == "ValidationError" && err.message != "" ==> HandleError(err, env).message == err.message
    ensures err.name == "CastError" && err.path == None ==>
      HandleError(err, env).message == "Resource not found. Invalid: undefined"
  {
  }

  /** A duplicate-key database error names the duplicated keys; any other
      database error gets a generic message; both are 400. */
  lemma DatabaseErrors(err: RaisedError, env: string)
    requires err.name == "MongoServerError"
    ensures HandleError(err, env).status == 400
    ensures err.code == Some(11000) ==>
      HandleError(err, env).message == "Duplicate " + Join(err.keyValueKeys, ",") + " entered"
    ensures err.code != Some(11000) ==> HandleError(err, env).message == "Database error occurred"
  {
  }
}
