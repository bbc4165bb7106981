/** What a call to the REST backend can come back with, seen from a screen.
    The requests themselves (form-encoded POSTs through an HTTP client with a
    ten-second timeout) are outside the model: each call is a parameter. */
module Backend {

  /** A call whose handler inspects the envelope's `response` field:
      `response == "success"` with the envelope's data, any other `response`
      with the envelope's `message`, or a thrown error with its message. */
  datatype Outcome<T> = Success(data: T) | BusinessFailure(message: string) | Exception(message: string)

  /** A call whose handler does not look at `response`: it either resolves
      with a body or throws. */
  datatype Reply<T> = Returned(body: T) | Threw(message: string)

  /** A JSON value reached through `res`, `res.data` or `res.data.data` when a
      handler probes a response for an array: a falsy value, a truthy scalar, an
      array of records, or an object whose `data` field is again such a value. */
  datatype Body<T> = Falsy | Scalar | List(items: seq<T>) | Record(data: Body<T>)

  /** `err.message || fallback`. */
  function ErrorText(message: string, fallback: string): (r: string)
    ensures r != "" <== fallback != ""
    ensures message != "" ==> r == message
  {
    if message != "" then message else fallback
  }
}
