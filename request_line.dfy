/**
 * The request-line front end of the client: looking at the first line of an inbound
 * connection without consuming it, splitting it into method, request-target and version
 * (the request-line grammar of section 3.1.1 of RFC 7230), and deriving the target
 * authority with and without its port (sections 2.7.1 and 2.7.2 of RFC 7230).
 */
module RequestLine {
  import opened Wrappers
  import opened Text
  import opened Http

  const NewLine: byte := 10

  datatype PeekError = NoRequest | BadRequest
  {
    function Message(): string
    {
      match this
      case NoRequest => "No request in connection"
      case BadRequest => "Bad request in connection"
    }
  }

  /**
   * `peekRequestLine`: given the bytes the buffered reader holds after forcing one fill,
   * the first line including its `\n`. The reader is only peeked, so every byte stays
   * available to whatever reads the connection next.
   */
  function PeekRequestLine(buffered: seq<byte>): (r: Result<seq<byte>, PeekError>)
    ensures r == Err(NoRequest) <==> |buffered| == 0
    ensures r == Err(BadRequest) <==> |buffered| > 0 && NewLine !in buffered
    ensures r.Ok? ==> var n := |r.value|;
      0 < n <= |buffered| && r.value == buffered[..n] && r.value[n - 1] == NewLine && NewLine !in r.value[..n - 1]
  {
    if |buffered| == 0 then Err(NoRequest)
    else
      var i := IndexOf(buffered, NewLine);
      if i < 0 then Err(BadRequest) else Ok(buffered[..i + 1])
  }

  datatype RequestLineParts = RequestLineParts(verb: string, requestUri: string, proto: string)

  /** `parseRequestLine`: splits on the first space and on the first space after it. */
  function ParseRequestLine(line: string): Option<RequestLineParts>
  {
    var s1 := IndexOf(line, ' ');
    var s2 := IndexOf(line[s1 + 1..], ' ');
    if s1 < 0 || s2 < 0 then None
    else
      var e := s2 + s1 + 1;
      Some(RequestLineParts(line[..s1], line[s1 + 1..e], line[e + 1..]))
  }

  /**
   * A parsed line is the three parts put back together with single spaces, and neither
   * method nor request-target holds a space.
   */
  lemma ParseRequestLineRebuilds(line: string)
    requires ParseRequestLine(line).Some?
    ensures var r := ParseRequestLine(line).value;
      && r.verb + " " + r.requestUri + " " + r.proto == line
      && ' ' !in r.verb && ' ' !in r.requestUri
  {
    var s1 := IndexOf(line, ' ');
    var rest := line[s1 + 1..];
    var s2 := IndexOf(rest, ' ');
    var e := s2 + s1 + 1;
    assert ParseRequestLine(line).value == RequestLineParts(line[..s1], line[s1 + 1..e], line[e + 1..]);
    assert rest[..s2] == line[s1 + 1..e];
    RebuildAt(line, s1, e);
  }

  /** Cutting out two spaces and putting them back gives the line. */
  lemma RebuildAt(line: string, s1: nat, e: nat)
    requires s1 < e < |line| && line[s1] == ' ' && line[e] == ' '
    ensures line[..s1] + " " + line[s1 + 1..e] + " " + line[e + 1..] == line
  {
    assert line[..s1] + [line[s1]] + line[s1 + 1..e] + [line[e]] + line[e + 1..] == line;
  }

  /** The request line is malformed exactly when it holds fewer than two spaces. */
  lemma ParseRequestLineAccepts(line: string)
    ensures ParseRequestLine(line).Some? <==> exists i, j :: 0 <= i < j < |line| && line[i] == ' ' && line[j] == ' '
  {
    var s1 := IndexOf(line, ' ');
    var s2 := IndexOf(line[s1 + 1..], ' ');
    if s1 < 0 || s2 < 0 {
      NoTwoSpaces(line, s1, s2);
    } else {
      assert line[s1 + 1 + s2] == line[s1 + 1..][s2];
    }
  }

  lemma NoTwoSpaces(line: string, s1: int, s2: int)
    requires s1 == IndexOf(line, ' ')
    requires s2 == IndexOf(line[s1 + 1..], ' ')
    requires s1 < 0 || s2 < 0
    ensures !exists i, j :: 0 <= i < j < |line| && line[i] == ' ' && line[j] == ' '
  {
    forall i, j | 0 <= i < j < |line| && line[i] == ' '
      ensures line[j] != ' '
    {
      if s1 >= 0 {
        assert line[s1 + 1..][j - s1 - 1] == line[j];
      }
    }
  }

  /** The other direction: a method (verb) and a target without spaces and any version come back as they were. */
  lemma ParseRequestLineOfParts(verb: string, requestUri: string, proto: string)
    requires ' ' !in verb && ' ' !in requestUri
    ensures ParseRequestLine(verb + " " + requestUri + " " + proto)
         == Some(RequestLineParts(verb, requestUri, proto))
  {
    var line := verb + " " + requestUri + " " + proto;
    var s1 := |verb|;
    var e := s1 + 1 + |requestUri|;
    assert line[..s1] == verb;
    assert line[s1 + 1..e] == requestUri;
    assert line[e + 1..] == proto;
    ParseAt(line, s1, e);
  }

  /** ParseRequestLine cuts at the first space and at the first space after it. */
  lemma ParseAt(line: string, s1: nat, e: nat)
    requires s1 < e < |line| && line[s1] == ' ' && line[e] == ' '
    requires ' ' !in line[..s1] && ' ' !in line[s1 + 1..e]
    ensures ParseRequestLine(line) == Some(RequestLineParts(line[..s1], line[s1 + 1..e], line[e + 1..]))
  {
    IndexOfIs(line, ' ', s1);
    var rest := line[s1 + 1..];
    var s2 := e - s1 - 1;
    assert rest[..s2] == line[s1 + 1..e];
    assert rest[s2] == ' ';
    IndexOfIs(rest, ' ', s2);
    assert IndexOf(line[s1 + 1..], ' ') == s2;
  }

  datatype HostPorts = HostPorts(hostPort: string, hostNoPort: string)

  /** The port `hostPortNoPort` adds: 443 for `https` and `wss`, 80 for every other scheme. */
  function DefaultPort(scheme: string): (port: string)
    ensures ':' !in port && ']' !in port
  {
    if scheme == "wss" || scheme == "https" then "443" else "80"
  }

  /** True when the host's last colon comes after its last `]`, i.e. it already names a port. */
  predicate HasPort(host: string)
  {
    LastIndexOf(host, ':') > LastIndexOf(host, ']')
  }

  /**
   * `hostPortNoPort`: the authority with a port (the scheme's default added when it has none)
   * and the authority without its port. In both cases `hostPort` is `hostNoPort`, a colon,
   * and a port holding neither colon nor `]`.
   */
  function HostPortNoPort(u: Url): (r: HostPorts)
    ensures HasPort(u.host) ==> r.hostPort == u.host && r.hostNoPort == u.host[..LastIndexOf(u.host, ':')]
    ensures !HasPort(u.host) ==> r.hostNoPort == u.host && r.hostPort == u.host + ":" + DefaultPort(u.scheme)
    ensures |r.hostNoPort| < |r.hostPort| && r.hostPort[..|r.hostNoPort|] == r.hostNoPort
    ensures r.hostPort[|r.hostNoPort|] == ':'
    ensures ':' !in r.hostPort[|r.hostNoPort| + 1..] && ']' !in r.hostPort[|r.hostNoPort| + 1..]
  {
    var i := LastIndexOf(u.host, ':');
    var b := LastIndexOf(u.host, ']');
    if i > b then
      assert u.host[b + 1..][i - b..] == u.host[i + 1..];
      HostPorts(u.host, u.host[..i])
    else
      var port := DefaultPort(u.scheme);
      var hp := u.host + ":" + port;
      assert hp[|u.host| + 1..] == port;
      HostPorts(hp, u.host)
  }

  /**
   * Normalising is stable: an authority that already went through HostPortNoPort is left
   * as it is, and gives back the same port-less host.
   */
  lemma HostPortNoPortStable(u: Url)
    ensures HostPortNoPort(u.(host := HostPortNoPort(u).hostPort)) == HostPortNoPort(u)
  {
    var r := HostPortNoPort(u);
    if !HasPort(u.host) {
      var hp := r.hostPort;
      var n := |u.host|;
      assert hp[n] == ':' && ':' !in hp[n + 1..];
      LastIndexOfIs(hp, ':', n);
      assert hp[..n] == u.host;
      assert ']' !in hp[n..];
      if ']' in u.host {
        var b := LastIndexOf(u.host, ']');
        assert hp[b + 1..] == u.host[b + 1..] + hp[n..];
        LastIndexOfIs(hp, ']', b);
      } else {
        assert ']' !in hp;
      }
    }
  }

}
