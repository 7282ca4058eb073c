/** The `ApiResponse` body every successful handler sends
    (server/utils/ApiResponse.ts). */
module ApiResponses {
  import opened Wrappers

  const DefaultMessage := "Success"

  datatype ApiResponse<T> = ApiResponse(statusCode: int, data: T, message: string, success: bool)

  /** `new ApiResponse(statusCode, data, message)`: `success` is decided by the
      status code alone, 399 being the last successful code. */
  function NewApiResponse<T>(statusCode: int, data: T, message: Option<string>): (r: ApiResponse<T>)
    ensures r.statusCode == statusCode && r.data == data
    ensures r.message == if message.Some? then message.value else DefaultMessage
    ensures r.success <==> statusCode < 400
  {
    ApiResponse(statusCode, data, message.GetOr(DefaultMessage), statusCode < 400)
  }
}
