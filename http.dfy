/**
 * What the pipeline sees of one HTTP exchange: the request it builds (URL and the
 * optional AccessToken header) and the outcome the transport reports.
 */
module Http {
  import opened Wrappers

  type Bytes = seq<bv8>

  /** A GET request; `accessToken` is the AccessToken header, absent when not set. */
  datatype Request = Request(url: string, accessToken: Option<string>)

  /** A transport error with its text, or a response with its status code and whole body. */
  datatype Outcome = TransportError(message: string) | Answered(status: int, body: Bytes)

  /** The check both polling loops apply to a response: status below 400 and a non-empty body. */
  predicate Accepted(o: Outcome) {
    o.Answered? && o.status < 400 && |o.body| > 0
  }
}
