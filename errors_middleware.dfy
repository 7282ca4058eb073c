/** The error-to-response mapping of server/middleware/errors.middleware.ts.
    The handler rebinds its local `err` through a chain of rewrites; each
    rewrite is one function below and the chain is their composition. */
module ErrorsMiddleware {
  import opened Wrappers
  import opened ApiErrors
  import Text

  const InternalServerError := "Internal Server Error"
  const InvalidJwtMessage := "Your JSON Web Token is invalid. Please try again later."
  const ExpiredJwtMessage := "Your JSON Web Token has expired. Please try again later."
  const DuplicateKeyCode := 11000

  /** What reaches the error handler: an `ApiError`, or an error raised by a
      library (the document store, the token library) with its own fields. */
  datatype Thrown =
    | Api(error: ApiError)
    | Foreign(name: string, statusCode: Option<int>, message: Option<string>,
              path: Option<string>, code: Option<int>, keyValueKeys: seq<string>)

  /** The fields of `err` the handler reads, after the defaults are applied. */
  datatype ErrState = ErrState(name: string, statusCode: int, message: string,
                               path: Option<string>, code: Option<int>, keyValueKeys: seq<string>)

  /** The JSON body `{ success, error: { statusCode, message } }` and the HTTP status. */
  datatype ErrorResponse = ErrorResponse(status: int, success: bool, statusCode: int, message: string)

  /** An ApiError as the handler sees it: name "Error", no code, no path. */
  function OfApiError(e: ApiError): ErrState {
    ErrState("Error", e.statusCode, e.message, None, None, [])
  }

  /** The status the thrown error carries, 0 when it has none. */
  function GivenStatus(t: Thrown): int {
    if t.Api? then t.error.statusCode else t.statusCode.GetOr(0)
  }

  /** The message the thrown error carries, "" when it has none. */
  function GivenMessage(t: Thrown): string {
    if t.Api? then t.error.message else t.message.GetOr("")
  }

  /** `err.statusCode || 500` and `err.message || "Internal Server Error"`:
      a missing or zero status and a missing or empty message take defaults. */
  function WithDefaults(t: Thrown): (st: ErrState)
    ensures st.statusCode != 0 && st.message != ""
    ensures st.statusCode == (if GivenStatus(t) == 0 then 500 else GivenStatus(t))
    ensures st.message == (if GivenMessage(t) == "" then InternalServerError else GivenMessage(t))
  {
    match t
    case Api(e) =>
      ErrState("Error", if e.statusCode == 0 then 500 else e.statusCode,
               if e.message == "" then InternalServerError else e.message, None, None, [])
    case Foreign(name, status, msg, path, code, keys) =>
      var s := status.GetOr(0);
      var m := msg.GetOr("");
      ErrState(name, if s == 0 then 500 else s, if m == "" then InternalServerError else m, path, code, keys)
  }

  function PathText(p: Option<string>): string {
    match p
    case Some(s) => s
    case None => "undefined"
  }

  function RewriteCastError(st: ErrState): ErrState {
    if st.name == "CastError"
    then OfApiError(Throw(400, "Resource not found. Invalid " + PathText(st.path)))
    else st
  }

  function RewriteDuplicateKey(st: ErrState): ErrState {
    if st.code == Some(DuplicateKeyCode)
    then OfApiError(Throw(400, "Duplicate " + Text.Join(st.keyValueKeys, ",") + " entered"))
    else st
  }

  function RewriteJsonWebTokenError(st: ErrState): ErrState {
    if st.name == "JsonWebTokenError" then OfApiError(Throw(400, InvalidJwtMessage)) else st
  }

  function RewriteTokenExpiredError(st: ErrState): ErrState {
    if st.name == "TokenExpiredError" then OfApiError(Throw(400, ExpiredJwtMessage)) else st
  }

  /** `ErrorsMiddleware(err, req, res, next)`: the response it writes. The
      first rule that matches decides; a rewritten error is an ApiError, whose
      name and code match no later rule, so at most one rewrite applies. */
  function HandleError(t: Thrown): (r: ErrorResponse)
    ensures r.status == r.statusCode && !r.success && r.message != ""
    ensures t.Api? && t.error.statusCode != 0 && t.error.message != "" ==>
              r.status == t.error.statusCode && r.message == t.error.message
    ensures t.Api? && t.error.statusCode == 0 ==> r.status == 500
    ensures t.Api? && t.error.message == "" ==> r.message == InternalServerError
    ensures t.Foreign? && t.name == "CastError" ==>
              r.status == 400 && r.message == "Resource not found. Invalid " + PathText(t.path)
    ensures t.Foreign? && t.name != "CastError" && t.code == Some(DuplicateKeyCode) ==>
              r.status == 400 && r.message == "Duplicate " + Text.Join(t.keyValueKeys, ",") + " entered"
    ensures t.Foreign? && t.name == "JsonWebTokenError" && t.code != Some(DuplicateKeyCode) ==>
              r.status == 400 && r.message == InvalidJwtMessage
    ensures t.Foreign? && t.name == "TokenExpiredError" && t.code != Some(DuplicateKeyCode) ==>
              r.status == 400 && r.message == ExpiredJwtMessage
    ensures t.Foreign? && t.name !in {"CastError", "JsonWebTokenError", "TokenExpiredError"}
              && t.code != Some(DuplicateKeyCode) ==>
              r.status == (if t.statusCode.GetOr(0) == 0 then 500 else t.statusCode.value) &&
              r.message == (if t.message.GetOr("") == "" then InternalServerError else t.message.value)
  {
    var st := RewriteTokenExpiredError(RewriteJsonWebTokenError(RewriteDuplicateKey(RewriteCastError(WithDefaults(t)))));
    ErrorResponse(st.statusCode, false, st.statusCode, st.message)
  }
}
