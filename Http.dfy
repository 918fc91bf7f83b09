/**
 * What the edge functions exchange with their callers and with the model services:
 * a response is a status and either the JSON payload or an `{error}` body; an upstream
 * answer is a status and the text read out of its JSON envelope.
 */
module Http {
  import opened Wrappers

  /** A response body: the payload a handler returns, or `{ error: message }`. */
  datatype Body<+T> = Payload(value: T) | ErrorBody(error: string)

  datatype Response<+T> = Response(status: int, body: Body<T>)

  /**
   * The model service's answer: its HTTP status, and for a successful answer the text read out of
   * its JSON envelope, or the message of the exception reading it raised (an unreadable envelope).
   */
  datatype Upstream = Upstream(status: int, content: Result<string, string>)

  /** One handler invocation: what it sent to the model service (None: it never called it), and its response. */
  datatype Exchange<+Q, +T> = Exchange(request: Option<Q>, response: Response<T>)

  /** `response.ok`. */
  predicate IsOk(status: int)
  {
    200 <= status <= 299
  }

  /** `if (!KEY)`: an absent or empty environment variable counts as missing. */
  predicate Configured(key: Option<string>)
  {
    key.Some? && key.value != ""
  }

  const RateLimitMessage := "Rate limit exceeded. Please try again in a moment."
  const ServiceLimitMessage := "Service limit reached. Please contact support."

  /** The `catch` block of every handler: status 500 carrying the exception's message. */
  function ServerError<T>(message: string): (r: Response<T>)
    ensures r.status == 500 && r.body.ErrorBody? && r.body.error == message
  {
    Response(500, ErrorBody(message))
  }

  /**
   * A non-OK upstream status: 429 and 402 are passed through with their fixed notices; any other
   * status throws `otherwise`, which the `catch` block turns into a 500.
   */
  function UpstreamFailure<T>(status: int, otherwise: string): (r: Response<T>)
    requires !IsOk(status)
    ensures r.body.ErrorBody?
    ensures status == 429 || status == 402 ==> r.status == status
    ensures r.status == 429 ==> r.body.error == RateLimitMessage
    ensures r.status == 402 ==> r.body.error == ServiceLimitMessage
    ensures status != 429 && status != 402 ==> r == ServerError(otherwise)
  {
    if status == 429 then Response(429, ErrorBody(RateLimitMessage))
    else if status == 402 then Response(402, ErrorBody(ServiceLimitMessage))
    else ServerError(otherwise)
  }
}
