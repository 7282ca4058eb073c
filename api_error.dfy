/** The `ApiError` record every handler throws (server/utils/ApiError.ts). */
module ApiErrors {
  import opened Wrappers

  const DefaultMessage := "Something went wrong..."

  /** An `ApiError`. Its `name` is the inherited "Error" and it has no `code`;
      `success` and `data` are fixed by the constructor. */
  datatype ApiError = ApiError(
    statusCode: int,
    message: string,
    errors: seq<string>,
    success: bool,
    data: Option<string>)

  /** `new ApiError(statusCode, message, errors)`: an argument passed as
      `undefined` takes its default value. */
  function NewApiError(statusCode: int, message: Option<string>, errors: Option<seq<string>>): (e: ApiError)
    ensures e.statusCode == statusCode
    ensures message.Some? ==> e.message == message.value
    ensures message.None? ==> e.message == DefaultMessage
    ensures errors.None? ==> e.errors == []
    ensures errors.Some? ==> e.errors == errors.value
    ensures !e.success && e.data == None
  {
    ApiError(statusCode, message.GetOr(DefaultMessage), errors.GetOr([]), false, None)
  }

  /** `throw new ApiError(statusCode, message)`. */
  function Throw(statusCode: int, message: string): (e: ApiError)
    ensures e == NewApiError(statusCode, Some(message), None)
  {
    ApiError(statusCode, message, [], false, None)
  }
}
