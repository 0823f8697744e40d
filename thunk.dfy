/**
 * The three-event lifecycle of an asynchronous thunk.  The HTTP call itself is not
 * modelled: what the server answered is a parameter, either the response body or a
 * failure that may carry `response.data.message`.
 */
module Thunk {
  import opened Wrappers

  /** What the remote call produced. */
  datatype Response<T> = Ok(data: T) | Failed(message: Option<string>)

  /** The terminal action the thunk dispatches after its pending action. */
  datatype Settled<T> = Fulfilled(value: T) | Rejected(payload: string)

  /**
   * `rejectWithValue(error.response?.data?.message || fallback)`: the server's message
   * when it is present and non-empty (JavaScript `||` treats '' as false), the fixed
   * fallback otherwise.
   */
  function RejectionPayload(message: Option<string>, fallback: string): (p: string)
    ensures message.Some? && message.value != "" ==> p == message.value
    ensures message.None? || message.value == "" ==> p == fallback
    ensures fallback != "" ==> p != ""
  {
    match message
    case Some(m) => if m != "" then m else fallback
    case None => fallback
  }

  /** The terminal action for a response: fulfilled with the body, or rejected with the message. */
  function Settle<T>(r: Response<T>, fallback: string): (s: Settled<T>)
    requires fallback != ""
    ensures s.Fulfilled? <==> r.Ok?
    ensures r.Ok? ==> s.value == r.data
    ensures r.Failed? ==> s.payload == RejectionPayload(r.message, fallback) && s.payload != ""
  {
    match r
    case Ok(d) => Fulfilled(d)
    case Failed(m) => Rejected(RejectionPayload(m, fallback))
  }
}
