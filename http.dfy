/**
 * The transport boundary: the requests the client sends and the replies
 * it gets back. A reply is an input value; nothing here performs I/O.
 */
module Http {
  import opened Errors
  import Html

  /**
   * A response as the HTTP library returns it after following redirects:
   * the final status, its headers (names lower-cased, as the library's
   * case-insensitive dictionary compares them), the redirect hops that led
   * to it, its body text and the tree parsed from that text.
   */
  datatype Response = Response(
    status: int,
    headers: map<string, string>,
    history: seq<Response>,
    text: string,
    doc: Html.Tag)

  /** What the transport gives back for one request. */
  datatype Reply = Delivered(response: Response) | TransportFailed(reason: string)

  datatype Verb = GET | POST

  /** Nothing, query parameters of a GET, a form-encoded field map, or a raw text body. */
  datatype Payload = NoBody | Query(params: map<string, string>) | Form(fields: map<string, string>) | Raw(body: string)

  datatype Request = Request(verb: Verb, path: string, payload: Payload, extraHeaders: map<string, string>)

  const FormEncoded: map<string, string> := map["Content-Type" := "application/x-www-form-urlencoded"]

  /**
   * `client.get`/`client.post` followed by `raise_for_status()`: a
   * transport failure or a 4xx/5xx status raises, anything else returns the
   * response.
   */
  function RaiseForStatus(reply: Reply): (out: Outcome<Response>)
    ensures out.Ok? <==> reply.Delivered? && !(400 <= reply.response.status < 600)
    ensures out.Ok? ==> out.value == reply.response
    ensures reply.TransportFailed? ==> out == Raise(RequestException(reply.reason))
    ensures reply.Delivered? && 400 <= reply.response.status < 600 ==>
              out == Raise(HTTPError(reply.response.status))
  {
    match reply
    case TransportFailed(reason) => Raise(RequestException(reason))
    case Delivered(r) =>
      if 400 <= r.status < 600 then Raise(HTTPError(r.status)) else Ok(r)
  }
}
