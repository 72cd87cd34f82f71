/** Validation of the one HTTP GET the client issues. The request itself,
    and the decoding of the body, happen outside the model: a fetch is
    described by the reply it produced. */
module Fetch {
  import opened Wrappers
  import opened Json

  /** A received HTTP response: its status code, whether the transport
      layer reports it as ok, and its already decoded body. */
  datatype Response = Response(statusCode: int, ok: bool, body: Document)

  /** What one GET produced: a response, or no response at all (connection
      refused, name resolution failed, timed out). */
  datatype Reply = Received(response: Response) | Unreachable

  /** The two fatal fetch failures. The program turns either into a process
      exit with a non-zero status. */
  datatype FetchError = TransportError | ResponseError(statusCode: int)

  /** Accepts exactly the ok responses, and keeps their body verbatim. */
  function Validate(reply: Reply): (r: Result<Document, FetchError>)
    ensures r.Success? <==> reply.Received? && reply.response.ok
    ensures r.Success? ==> r.value == reply.response.body
    ensures reply.Unreachable? ==> r == Failure(TransportError)
    ensures reply.Received? && !reply.response.ok ==> r == Failure(ResponseError(reply.response.statusCode))
  {
    match reply
    case Unreachable => Failure(TransportError)
    case Received(resp) =>
      if resp.ok then Success(resp.body) else Failure(ResponseError(resp.statusCode))
  }
}
