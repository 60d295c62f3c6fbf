/**
 * The parts of Go's `net/url.URL` and `net/http.Request` that the client reads or sets,
 * as values, and the outcome of one `RoundTrip` over the tunnel transport.
 */
module Http {
  import opened Wrappers
  import opened Text

  /** `url.URL` restricted to the fields the client touches (no user info, query or fragment). */
  datatype Url = Url(scheme: string, opaquePart: string, host: string, path: string)

  /**
   * Where a dispatched request's body comes from. `InboundStream` is the buffered inbound
   * reader itself (positioned after the CONNECT request head); `RequestReplay` is the pipe
   * that replays the inbound bytes from the first byte of the request line on.
   */
  datatype Body = NoBody | InboundStream | RequestReplay

  type Header = map<string, seq<string>>

  /** `http.Request`; `header == None` is Go's nil header map, `contentLength == -1` is "unknown". */
  datatype Request = Request(
    verb: string,        // the HTTP method
    url: Url,
    proto: string,
    host: string,
    header: Option<Header>,
    contentLength: int,
    body: Body)

  /** What `RoundTrip` hands back: a transport error, or a response with its status and body bytes. */
  datatype RoundTripResult = TransportError | Response(status: int, body: seq<byte>)

  const StatusOK := 200

  /** `http.StatusOK` and nothing else counts as success for the client. */
  predicate IsOK(rt: RoundTripResult)
  {
    rt.Response? && rt.status == StatusOK
  }

  /** `URL.String()` for a URL with a scheme and a host and no opaque part. */
  function UrlString(u: Url): string
  {
    u.scheme + "://" + u.host + u.path
  }

}
