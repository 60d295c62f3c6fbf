/**
 * What `connect` writes back on the inbound connection once the tunnel round trip is over,
 * and which inbound requests are answered locally with the PAC file.
 */
module Session {
  import opened Wrappers
  import opened Text
  import opened Http

  /** An HTTP/1.1 status line with the given code and reason phrase, and the empty line ending the head. */
  function StatusLine(code: int, reason: string): string
  {
    "HTTP/1.1 " + Decimal(code) + " " + reason + "\r\n\r\n"
  }

  /** Written when the round trip over the tunnel fails. */
  const BadGatewayLine: string := StatusLine(502, "That's no street, Pete")

  /** Written ahead of the tunnelled bytes when a CONNECT succeeds. */
  const EstablishedLine: string := StatusLine(200, "Connection Established")

  /** Written when the proxy server answers with a status other than 200 (Go's `%d`). */
  function FailureLine(status: int): string
  {
    StatusLine(status, "Server failed to proxy")
  }

  /**
   * The status line `connect` makes up itself, if any: 502 for a failed round trip, the
   * upstream status when it is not 200, the Established line for a successful CONNECT and
   * none for a successful reverse request, whose response body carries its own status line.
   */
  function ReplyLine(isConnect: bool, rt: RoundTripResult): (line: Option<string>)
    ensures line.None? <==> !isConnect && IsOK(rt)
    ensures rt.TransportError? ==> line == Some(BadGatewayLine)
    ensures rt.Response? && rt.status != StatusOK ==> line == Some(FailureLine(rt.status))
    ensures isConnect && IsOK(rt) ==> line == Some(EstablishedLine)
  {
    match rt
    case TransportError => Some(BadGatewayLine)
    case Response(status, _) =>
      if status != StatusOK then Some(FailureLine(status))
      else if isConnect then Some(EstablishedLine)
      else None
  }

  /** Every byte `connect` writes after the round trip: the made-up line, then the body only on 200. */
  function Reply(isConnect: bool, rt: RoundTripResult): seq<byte>
  {
    var line := match ReplyLine(isConnect, rt) case Some(l) => AsciiBytes(l) case None => [];
    line + (if IsOK(rt) then rt.body else [])
  }

  /**
   * The response body reaches the inbound connection only on 200: after the Established
   * line for CONNECT, byte for byte as it came for a reverse request; a failure writes the
   * status line alone.
   */
  lemma ReplyShape(isConnect: bool, rt: RoundTripResult)
    ensures IsOK(rt) && isConnect ==>
      |Reply(isConnect, rt)| == |EstablishedLine| + |rt.body|
      && Reply(isConnect, rt)[..|EstablishedLine|] == AsciiBytes(EstablishedLine)
      && Reply(isConnect, rt)[|EstablishedLine|..] == rt.body
    ensures IsOK(rt) && !isConnect ==> Reply(isConnect, rt) == rt.body
    ensures !IsOK(rt) ==> Reply(isConnect, rt) == AsciiBytes(ReplyLine(isConnect, rt).value)
  {
    if IsOK(rt) && isConnect {
      assert Reply(isConnect, rt) == AsciiBytes(EstablishedLine) + rt.body;
    }
  }

  /**
   * The status code a browser reads from a status line: the digits between `HTTP/1.1 ` and
   * the next space, when there are any.
   */
  function StatusCodeOf(line: string): Option<int>
  {
    if |line| < 9 || line[..9] != "HTTP/1.1 " then None
    else
      var rest := line[9..];
      var sp := IndexOf(rest, ' ');
      if sp <= 0 || exists i :: 0 <= i < sp && !IsDigit(rest[i]) then None
      else Some(DigitsValue(rest[..sp]))
  }

  /**
   * The made-up status line reports what happened upstream: 502 for a failed round trip,
   * the upstream status itself when it is not 200, and 200 for an established tunnel.
   */
  lemma ReplyLineStatus(isConnect: bool, rt: RoundTripResult)
    requires rt.Response? ==> rt.status >= 0
    requires ReplyLine(isConnect, rt).Some?
    ensures StatusCodeOf(ReplyLine(isConnect, rt).value) == Some(if rt.TransportError? then 502 else rt.status)
  {
    match rt
    case TransportError =>
      StatusLineReads(502, "That's no street, Pete");
    case Response(status, _) =>
      if status != StatusOK {
        StatusLineReads(status, "Server failed to proxy");
      } else {
        StatusLineReads(200, "Connection Established");
      }
  }

  /** The fixed lines carry the codes 502 and 200 in Go's `%d` spelling. */
  lemma FixedCodes()
    ensures Decimal(502) == "502" && Decimal(200) == "200"
  {
    assert Digits(50) == Digits(5) + ['0'];
    assert Digits(20) == Digits(2) + ['0'];
  }

  /** The 502 line is, character for character, the literal `connect` writes on a failed round trip. */
  lemma BadGatewayLiteral()
    ensures BadGatewayLine == "HTTP/1.1 502 That's no street, Pete\r\n\r\n"
  {
    FixedCodes();
    var reason := "That's no street, Pete";
    assert BadGatewayLine == "HTTP/1.1 " + "502" + " " + reason + "\r\n\r\n";
  }

  /** The Established line is, character for character, the literal `connect` writes for CONNECT. */
  lemma EstablishedLiteral()
    ensures EstablishedLine == "HTTP/1.1 200 Connection Established\r\n\r\n"
  {
    FixedCodes();
    var reason := "Connection Established";
    assert EstablishedLine == "HTTP/1.1 " + "200" + " " + reason + "\r\n\r\n";
  }

  /** A status line's code reads back as the code it was written with. */
  lemma StatusLineReads(code: nat, reason: string)
    ensures StatusCodeOf(StatusLine(code, reason)) == Some(code)
  {
    var d := Decimal(code);
    var line := StatusLine(code, reason);
    var rest := line[9..];
    assert line[..9] == "HTTP/1.1 ";
    assert rest == d + " " + reason + "\r\n\r\n";
    assert forall i :: 0 <= i < |d| ==> rest[i] == d[i] && IsDigit(d[i]);
    assert rest[|d|] == ' ';
    assert rest[..|d|] == d;
    IndexOfIs(rest, ' ', |d|);
    DecimalReadBack(code);
  }

  /**
   * A request is answered with the PAC file when it is a `GET` of `/pac` addressed to no
   * host (origin-form) or to this listener's own address.
   */
  predicate IsPacRequest(verb: string, reqUrl: Url, localAddr: string)
  {
    reqUrl.path == "/pac" && verb == "GET" && (reqUrl.host == "" || reqUrl.host == localAddr)
  }

}
