/** The responses the API routes send: an HTTP status and a JSON body. */
module Http {
  import opened Wrappers

  datatype Response<+B> = Response(status: int, body: B)

  const StatusOk := 200
  const StatusBadRequest := 400
  const StatusServerError := 500
  const StatusUnavailable := 503

  /** `x || fallback` for an optional message: an absent or empty message gives the fallback. */
  function MessageOr(message: Option<string>, fallback: string): (r: string)
    ensures message.Some? && message.value != "" ==> r == message.value
    ensures message.None? || message.value == "" ==> r == fallback
  {
    if message.Some? && message.value != "" then message.value else fallback
  }
}
