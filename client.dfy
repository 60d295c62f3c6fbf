/**
 * The tunnel client of client/client.go, client/fetch.go and client/dial.go. The
 * HTTP/2 transport, the TLS layer, the websocket dialer, URL parsing, JSON decoding and
 * PAC template execution are inputs: a round-trip oracle, the TLS session's outcome, and
 * parser/renderer functions. What the client writes and sends comes back as results.
 */
module Client {
  import opened Wrappers
  import opened Text
  import opened Http
  import opened RequestLine
  import opened Session
  import opened Handshake

  /** Virtual hosts the proxy server answers itself: liveness, server info and the PAC file. */
  const HostOk: string := "i:80"
  const HostInfo: string := "i:81"
  const HostPac: string := "i:82"

  /** `ServerInfo`; `pingSecond` is the JSON number decoded into a `time.Duration` (an int64). */
  datatype ServerInfo = ServerInfo(pingSecond: int)

  datatype FetchError =
    | TransportFailed      // the round trip itself failed
    | NotOk(status: int)   // "Should get 200"
    | Undecodable          // json.Unmarshal failed
    | TemplateRejected     // template.Parse failed

  /** A parsed PAC template, kept as its source text. */
  datatype PacTemplate = PacTemplate(source: string)

  datatype DialError = DialFailed | Rejected(reason: Rejection)

  /** How the keepalive goroutine ends (or that it is still running when the ticks run out). */
  datatype PingOutcome =
    | InfoUnavailable(err: FetchError)  // getServerInfo failed: return before the deferred close
    | BadInterval                       // time.NewTicker panics on a non-positive period
    | ProbeFailed(tick: nat)            // a liveness probe failed: the connection is closed
    | StillRunning

  /** One use of the server-info cache: what it returns, the cache afterwards, the requests sent. */
  datatype CacheStep = CacheStep(result: Result<ServerInfo, FetchError>, cache: Option<ServerInfo>, sent: seq<Request>)

  const NanosPerSecond: int := 1_000_000_000

  /** Go's int64 multiplication wraps around: the value of `x` as a two's-complement int64. */
  function WrapInt64(x: int): (r: int)
    ensures -0x8000_0000_0000_0000 <= r < 0x8000_0000_0000_0000
    ensures (r - x) % 0x1_0000_0000_0000_0000 == 0
  {
    var m := x % 0x1_0000_0000_0000_0000;
    if m >= 0x8000_0000_0000_0000 then m - 0x1_0000_0000_0000_0000 else m
  }

  /** The ticker period of the keepalive, `info.PingSecond * time.Second`, in nanoseconds. */
  function PingInterval(info: ServerInfo): int
  {
    WrapInt64(info.pingSecond * NanosPerSecond)
  }

  /** A period of up to about 292 years is exact: it does not wrap around. */
  lemma PingIntervalExact(info: ServerInfo)
    requires 0 <= info.pingSecond <= 9_223_372_036
    ensures PingInterval(info) == info.pingSecond * NanosPerSecond
    ensures info.pingSecond > 0 ==> PingInterval(info) > 0
  {
  }

  /** The request line at the head of the buffered bytes, if there is one and it is well formed. */
  function RequestLineOf(buffered: seq<byte>): Option<RequestLineParts>
  {
    match PeekRequestLine(buffered)
    case Err(_) => None
    case Ok(line) => ParseRequestLine(BytesToString(line))
  }

  /** Something that can be closed: the inbound socket, a TLS connection, a websocket. */
  class Conn {
    var closed: bool

    constructor ()
      ensures !closed
    {
      closed := false;
    }

    method Close()
      modifies this
      ensures closed
    {
      closed := true;
    }
  }

  /** The part of `tls.Config` the dialers touch; `serverName` is overwritten in place. */
  class TlsConfig {
    var serverName: string
    const insecureSkipVerify: bool

    constructor (insecureSkipVerify: bool)
      ensures this.insecureSkipVerify == insecureSkipVerify && serverName == ""
    {
      this.insecureSkipVerify := insecureSkipVerify;
      serverName := "";
    }
  }

  class Client {
    const serverUrl: Url
    /** `HOST_PAC_UPDATE`, a virtual host other than `HOST_PAC`. */
    const hostPacUpdate: string
    /** The template every reverse envelope is copied from; `None` until `PreRun`. */
    var h2ReverseReq: Option<Request>
    /** The cached answer of the proxy server's info host. */
    var serverInfo: Option<ServerInfo>

    /** The two PAC hosts differ, so an update is never served the plain PAC by mistake. */
    predicate Valid()
    {
      hostPacUpdate != HostPac
    }

    constructor (serverUrl: Url, hostPacUpdate: string)
      requires hostPacUpdate != HostPac
      ensures Valid()
      ensures this.serverUrl == serverUrl && this.hostPacUpdate == hostPacUpdate
      ensures h2ReverseReq.None? && serverInfo.None?
    {
      this.serverUrl := serverUrl;
      this.hostPacUpdate := hostPacUpdate;
      h2ReverseReq := None;
      serverInfo := None;
    }

    /** `initReverseRequest`: a `POST https://<server host>/r HTTP/1.1` template without header map. */
    method InitReverseRequest()
      modifies this`h2ReverseReq
      ensures h2ReverseReq == Some(Request("POST", serverUrl.(opaquePart := "", scheme := "https", path := "/r"),
                                           "HTTP/1.1", "", None, 0, NoBody))
    {
      var u := serverUrl;
      u := u.(opaquePart := "");
      u := u.(scheme := "https");
      u := u.(path := "/r");
      h2ReverseReq := Some(Request("POST", u, "HTTP/1.1", "", None, 0, NoBody));
    }

    /**
     * `newReverseRequest`: a copy of the template with a fresh header map and the target's
     * authority (with port) as `Host`, and the parsed target. Nothing when the request-target
     * does not parse, or when the template was never set up (the copy then dereferences a nil
     * URL and the connection's panic handler ends it).
     */
    function NewReverseRequest(requestUri: string, parseUri: string -> Option<Url>): (r: Option<(Request, Url)>)
      reads this
      ensures r.Some? <==> h2ReverseReq.Some? && parseUri(requestUri).Some?
      ensures r.Some? ==> r.value.1 == parseUri(requestUri).value
      ensures r.Some? ==> r.value.0.host == HostPortNoPort(r.value.1).hostPort && r.value.0.header == Some(map[])
      ensures r.Some? ==> r.value.0.(header := None, host := "") == h2ReverseReq.value.(header := None, host := "")
    {
      match parseUri(requestUri)
      case None => None
      case Some(reqUrl) =>
        match h2ReverseReq
        case None => None
        case Some(req) => Some((req.(header := Some(map[]), host := HostPortNoPort(reqUrl).hostPort), reqUrl))
    }

    /**
     * Once the template is set up, every reverse envelope is `POST` to path `/r` over `https`
     * at the proxy server, `HTTP/1.1`, with an empty header map and the target authority with
     * its port as `Host`; two targets give envelopes that differ in `Host` at most.
     */
    lemma ReverseEnvelope(requestUri: string, other: string, parseUri: string -> Option<Url>)
      requires h2ReverseReq == Some(Request("POST", serverUrl.(opaquePart := "", scheme := "https", path := "/r"),
                                            "HTTP/1.1", "", None, 0, NoBody))
      requires parseUri(requestUri).Some? && parseUri(other).Some?
      ensures var req := NewReverseRequest(requestUri, parseUri).value.0;
        && req.verb == "POST" && req.proto == "HTTP/1.1" && req.header == Some(map[])
        && req.url == Url("https", "", serverUrl.host, "/r")
        && req.host == HostPortNoPort(parseUri(requestUri).value).hostPort
      ensures NewReverseRequest(requestUri, parseUri).value.0.(host := "")
           == NewReverseRequest(other, parseUri).value.0.(host := "")
    {
    }

    /**
     * `connect`: serves one inbound connection. It peeks at the request line and drops a
     * connection with no line or a malformed one. A CONNECT is read as a request and keeps
     * its head; anything else becomes a reverse envelope, unless it asks this listener for
     * the PAC file, which is rendered locally. The request is then pointed at the proxy
     * server over `https` with unknown length and sent; the reply lines follow Session.Reply.
     * The inbound connection is closed on every path.
     */
    method Connect(inbound: Conn, buffered: seq<byte>, readConnect: Option<Request>,
                   parseUri: string -> Option<Url>, localAddr: string,
                   renderPac: string -> seq<byte>, roundTrip: Request -> RoundTripResult)
      returns (written: seq<byte>, dispatched: Option<Request>)
      modifies inbound
      ensures inbound.closed
      ensures RequestLineOf(buffered).None? ==> written == [] && dispatched.None?
      ensures RequestLineOf(buffered).Some? && RequestLineOf(buffered).value.verb == "CONNECT" ==>
        if readConnect.None? then written == [] && dispatched.None?
        else
          var req := readConnect.value;
          && dispatched == Some(req.(host := HostPortNoPort(req.url).hostPort,
                                     url := req.url.(scheme := "https", host := serverUrl.host),
                                     contentLength := -1, body := InboundStream))
          && written == Reply(true, roundTrip(dispatched.value))
      ensures RequestLineOf(buffered).Some? && RequestLineOf(buffered).value.verb != "CONNECT" ==>
        var p := RequestLineOf(buffered).value;
        var envelope := NewReverseRequest(p.requestUri, parseUri);
        if envelope.None? then written == [] && dispatched.None?
        else if IsPacRequest(p.verb, envelope.value.1, localAddr) then written == renderPac(localAddr) && dispatched.None?
        else
          && dispatched == Some(envelope.value.0.(url := envelope.value.0.url.(scheme := "https", host := serverUrl.host),
                                                  contentLength := -1, body := RequestReplay))
          && written == Reply(false, roundTrip(dispatched.value))
      ensures dispatched.Some? ==>
        && dispatched.value.url.scheme == "https" && dispatched.value.url.host == serverUrl.host
        && dispatched.value.contentLength == -1
    {
      written, dispatched := [], None;
      var peeked := PeekRequestLine(buffered);
      if peeked.Err? {
        inbound.Close();
        return;
      }
      var line := ParseRequestLine(BytesToString(peeked.value));
      assert RequestLineOf(buffered) == line;
      if line.None? {
        inbound.Close();
        return;
      }
      var verb, requestUri := line.value.verb, line.value.requestUri;
      var isConnect := verb == "CONNECT";

      var req: Request;
      if isConnect {
        if readConnect.None? {
          inbound.Close();
          return;
        }
        req := readConnect.value;
        req := req.(host := HostPortNoPort(req.url).hostPort);
      } else {
        var envelope := NewReverseRequest(requestUri, parseUri);
        if envelope.None? {
          inbound.Close();
          return;
        }
        req := envelope.value.0;
        var reqUrl := envelope.value.1;
        if reqUrl.path == "/pac" && verb == "GET" {
          if reqUrl.host == "" || reqUrl.host == localAddr {
            written := renderPac(localAddr);
            inbound.Close();
            return;
          }
        }
      }
      req := req.(url := req.url.(scheme := "https"));
      req := req.(url := req.url.(host := serverUrl.host));
      req := req.(contentLength := -1);
      if isConnect {
        req := req.(body := InboundStream);
      } else {
        req := req.(body := RequestReplay);
      }

      dispatched := Some(req);
      var res := roundTrip(req);
      written := Reply(isConnect, res);
      inbound.Close();
    }

    /** `innerRequest`: a request for one of the proxy server's own virtual hosts. */
    function InnerRequest(verb: string, host: string): Request
    {
      Request(verb, Url("https", "", serverUrl.host, "/"), "HTTP/1.1", host, None, 0, NoBody)
    }

    /**
     * Inner requests all go to the proxy server's root over `https`, and only their method
     * and virtual host tell them apart; the virtual hosts are pairwise distinct.
     */
    lemma InnerRequestsReachServer(verb: string, host: string, verb2: string, host2: string)
      ensures InnerRequest(verb, host).url == Url("https", "", serverUrl.host, "/")
      ensures InnerRequest(verb, host).verb == verb && InnerRequest(verb, host).host == host
      ensures InnerRequest(verb, host) == InnerRequest(verb2, host2) <==> verb == verb2 && host == host2
      ensures HostOk != HostInfo && HostInfo != HostPac && HostOk != HostPac
    {
    }

    /** `fetch`: the body of the answer to an inner request, accepted on status 200 only. */
    function Fetch(verb: string, host: string, roundTrip: Request -> RoundTripResult): (r: Result<seq<byte>, FetchError>)
      ensures r.Ok? <==> IsOK(roundTrip(InnerRequest(verb, host)))
      ensures r.Ok? ==> r.value == roundTrip(InnerRequest(verb, host)).body
      ensures roundTrip(InnerRequest(verb, host)).TransportError? ==> r == Err(TransportFailed)
      ensures roundTrip(InnerRequest(verb, host)).Response? && !r.Ok? ==>
        r == Err(NotOk(roundTrip(InnerRequest(verb, host)).status))
    {
      match roundTrip(InnerRequest(verb, host))
      case TransportError => Err(TransportFailed)
      case Response(status, body) => if status != StatusOK then Err(NotOk(status)) else Ok(body)
    }

    /** The virtual host `FetchPac` asks: the update host when asked to update, `HOST_PAC` otherwise. */
    function PacHost(update: bool): string
    {
      if update then hostPacUpdate else HostPac
    }

    /** `HOST_PAC_UPDATE` is asked exactly on update, `HOST_PAC` exactly otherwise. */
    lemma PacHostChoice(update: bool)
      requires Valid()
      ensures PacHost(update) == HostPac <==> !update
      ensures PacHost(update) == hostPacUpdate <==> update
    {
    }

    /** `FetchPac`: a `GET` of the PAC host, its body parsed as a template. */
    function FetchPac(update: bool, roundTrip: Request -> RoundTripResult, parseTemplate: string -> bool): (r: Result<PacTemplate, FetchError>)
      ensures r.Ok? <==> IsOK(roundTrip(InnerRequest("GET", PacHost(update))))
                         && parseTemplate(BytesToString(roundTrip(InnerRequest("GET", PacHost(update))).body))
      ensures r.Ok? ==> r.value.source == BytesToString(roundTrip(InnerRequest("GET", PacHost(update))).body)
    {
      match Fetch("GET", PacHost(update), roundTrip)
      case Err(e) => Err(e)
      case Ok(body) =>
        var source := BytesToString(body);
        if parseTemplate(source) then Ok(PacTemplate(source)) else Err(TemplateRejected)
    }

    /**
     * What one `getServerInfo` call does with the cache: a cached value is returned without
     * sending anything; otherwise the info host is fetched and the decoded value cached.
     */
    function InfoLookup(cache: Option<ServerInfo>, roundTrip: Request -> RoundTripResult,
                        decode: seq<byte> -> Option<ServerInfo>): CacheStep
    {
      if cache.Some? then CacheStep(Ok(cache.value), cache, [])
      else
        var sent := [InnerRequest("GET", HostInfo)];
        match Fetch("GET", HostInfo, roundTrip)
        case Err(e) => CacheStep(Err(e), None, sent)
        case Ok(body) =>
          match decode(body)
          case None => CacheStep(Err(Undecodable), None, sent)
          case Some(info) => CacheStep(Ok(info), Some(info), sent)
    }

    /** A filled cache answers from memory, whatever the server would say now. */
    lemma CachedNeverFetches(info: ServerInfo, roundTrip: Request -> RoundTripResult, decode: seq<byte> -> Option<ServerInfo>)
      ensures InfoLookup(Some(info), roundTrip, decode) == CacheStep(Ok(info), Some(info), [])
    {
    }

    /**
     * An empty cache sends exactly one `GET` to the info host; a failure is returned and
     * not cached, and a success is both returned and cached.
     */
    lemma LookupOutcome(roundTrip: Request -> RoundTripResult, decode: seq<byte> -> Option<ServerInfo>)
      ensures InfoLookup(None, roundTrip, decode).sent == [InnerRequest("GET", HostInfo)]
      ensures InfoLookup(None, roundTrip, decode).result.Err? ==> InfoLookup(None, roundTrip, decode).cache.None?
      ensures InfoLookup(None, roundTrip, decode).result.Ok? ==>
        InfoLookup(None, roundTrip, decode).cache == Some(InfoLookup(None, roundTrip, decode).result.value)
      ensures InfoLookup(None, roundTrip, decode).result.Ok? <==>
        IsOK(roundTrip(InnerRequest("GET", HostInfo))) && decode(roundTrip(InnerRequest("GET", HostInfo)).body).Some?
    {
    }

    /**
     * The first successful answer is the answer for good: any later lookup, against any
     * server behaviour, returns the same value and sends nothing.
     */
    lemma CacheIsSticky(cache: Option<ServerInfo>,
                        rt1: Request -> RoundTripResult, decode1: seq<byte> -> Option<ServerInfo>,
                        rt2: Request -> RoundTripResult, decode2: seq<byte> -> Option<ServerInfo>)
      requires InfoLookup(cache, rt1, decode1).result.Ok?
      ensures var first := InfoLookup(cache, rt1, decode1);
        var second := InfoLookup(first.cache, rt2, decode2);
        second.result == first.result && second.cache == first.cache && second.sent == []
    {
    }

    /** `getServerInfo`: the cache as the field `serverInfo`, used and filled in place. */
    method GetServerInfo(roundTrip: Request -> RoundTripResult, decode: seq<byte> -> Option<ServerInfo>)
      returns (r: Result<ServerInfo, FetchError>, sent: seq<Request>)
      modifies this`serverInfo
      ensures var step := InfoLookup(old(serverInfo), roundTrip, decode);
        r == step.result && serverInfo == step.cache && sent == step.sent
    {
      sent := [];
      if serverInfo.None? {
        sent := [InnerRequest("GET", HostInfo)];
        var body := Fetch("GET", HostInfo, roundTrip);
        if body.Err? {
          return Err(body.error), sent;
        }
        var info := decode(body.value);
        if info.None? {
          return Err(Undecodable), sent;
        }
        serverInfo := info;
      }
      return Ok(serverInfo.value), sent;
    }

    /**
     * `ping`, the keepalive of one tunnel connection, over a finite run of ticks whose
     * probes get the given answers. Without server info it returns at once and leaves the
     * connection open; a non-positive period panics in the ticker; otherwise each tick sends
     * a `HEAD` to the liveness host, and the first failed probe closes the connection.
     */
    method Ping(conn: Conn, roundTrip: Request -> RoundTripResult, decode: seq<byte> -> Option<ServerInfo>,
                ticks: seq<RoundTripResult>)
      returns (outcome: PingOutcome, sent: seq<Request>)
      modifies this`serverInfo, conn
      ensures var step := InfoLookup(old(serverInfo), roundTrip, decode);
        && serverInfo == step.cache
        && |step.sent| <= |sent| && sent[..|step.sent|] == step.sent
        && (step.result.Err? ==> outcome == InfoUnavailable(step.result.error))
        && (step.result.Ok? && PingInterval(step.result.value) <= 0 ==> outcome == BadInterval)
        && (step.result.Ok? && PingInterval(step.result.value) > 0 ==> outcome.ProbeFailed? || outcome.StillRunning?)
      ensures !outcome.ProbeFailed? ==> conn.closed == old(conn.closed)
      ensures outcome.InfoUnavailable? || outcome.BadInterval? ==> sent == InfoLookup(old(serverInfo), roundTrip, decode).sent
      ensures outcome.ProbeFailed? || outcome.StillRunning? ==>
        var n := |InfoLookup(old(serverInfo), roundTrip, decode).sent|;
        forall k :: n <= k < |sent| ==> sent[k] == InnerRequest("HEAD", HostOk)
      ensures outcome.ProbeFailed? ==>
        && outcome.tick < |ticks| && !IsOK(ticks[outcome.tick])
        && (forall j :: 0 <= j < outcome.tick ==> IsOK(ticks[j]))
        && |sent| == |InfoLookup(old(serverInfo), roundTrip, decode).sent| + outcome.tick + 1
        && conn.closed
      ensures outcome.StillRunning? ==>
        && (forall j :: 0 <= j < |ticks| ==> IsOK(ticks[j]))
        && |sent| == |InfoLookup(old(serverInfo), roundTrip, decode).sent| + |ticks|
    {
      var info;
      info, sent := GetServerInfo(roundTrip, decode);
      if info.Err? {
        return InfoUnavailable(info.error), sent;
      }
      if PingInterval(info.value) <= 0 {
        return BadInterval, sent;
      }
      ghost var n := |sent|;
      var req := InnerRequest("HEAD", HostOk);
      var i := 0;
      while i < |ticks|
        invariant 0 <= i <= |ticks|
        invariant |sent| == n + i && conn.closed == old(conn.closed)
        invariant forall k :: n <= k < |sent| ==> sent[k] == req
        invariant forall j :: 0 <= j < i ==> IsOK(ticks[j])
        invariant sent[..n] == InfoLookup(old(serverInfo), roundTrip, decode).sent
      {
        sent := sent + [req];
        if !IsOK(ticks[i]) {
          conn.Close();
          return ProbeFailed(i), sent;
        }
        i := i + 1;
      }
      return StillRunning, sent;
    }

    /**
     * `dialTcpTLS` as written: a TLS connection to the server address presenting the fixed
     * name. `tls.Dial` runs the handshake and, unless verification is off, the name check,
     * and closes what it dialled when they fail. When a later check of the negotiated
     * protocol fails, the error is returned but the connection is never closed.
     */
    method DialTcpTLSAsWritten(cfg: TlsConfig, dialOk: bool, tls: TlsSession)
      returns (c: Option<Conn>, err: Option<DialError>, transport: Option<Conn>, keepalive: Option<Conn>)
      modifies cfg
      ensures cfg.serverName == TcpServerName
      ensures transport.Some? <==> dialOk
      ensures transport.Some? ==> fresh(transport.value)
      ensures c.Some? <==> dialOk && Accept(tls, TcpServerName, cfg.insecureSkipVerify).None?
      ensures c.Some? ==> c == transport && keepalive == transport && err.None? && !c.value.closed
      ensures !dialOk ==> err == Some(DialFailed) && keepalive.None?
      ensures dialOk && c.None? ==>
        && err == Some(Rejected(Accept(tls, TcpServerName, cfg.insecureSkipVerify).value)) && keepalive.None?
        && (transport.value.closed <==> RefusedByDial(Accept(tls, TcpServerName, cfg.insecureSkipVerify).value))
    {
      cfg.serverName := TcpServerName;
      if !dialOk {
        return None, Some(DialFailed), None, None;
      }
      var cn := new Conn();
      var rejection := Accept(tls, cfg.serverName, cfg.insecureSkipVerify);
      if rejection.Some? {
        if RefusedByDial(rejection.value) {
          // `tls.Dial` failed and closed the connection itself
          cn.Close();
        }
        return None, Some(Rejected(rejection.value)), Some(cn), None;
      }
      return Some(cn), None, Some(cn), Some(cn);
    }

    /**
     * `dialTcpTLS` as evidently intended: as written, but a connection refused after
     * `tls.Dial` succeeded is closed too, as the websocket dialer's clean-up does.
     */
    method DialTcpTLS(cfg: TlsConfig, dialOk: bool, tls: TlsSession)
      returns (c: Option<Conn>, err: Option<DialError>, transport: Option<Conn>, keepalive: Option<Conn>)
      modifies cfg
      ensures cfg.serverName == TcpServerName
      ensures transport.Some? <==> dialOk
      ensures transport.Some? ==> fresh(transport.value)
      ensures c.Some? <==> dialOk && Accept(tls, TcpServerName, cfg.insecureSkipVerify).None?
      ensures c.Some? ==> c == transport && keepalive == transport && err.None? && !c.value.closed
      ensures !dialOk ==> err == Some(DialFailed) && keepalive.None?
      ensures dialOk && c.None? ==>
        && err == Some(Rejected(Accept(tls, TcpServerName, cfg.insecureSkipVerify).value)) && keepalive.None?
        && transport.value.closed
    {
      cfg.serverName := TcpServerName;
      if !dialOk {
        return None, Some(DialFailed), None, None;
      }
      var cn := new Conn();
      var rejection := Accept(tls, cfg.serverName, cfg.insecureSkipVerify);
      if rejection.Some? {
        cn.Close();
        return None, Some(Rejected(rejection.value)), Some(cn), None;
      }
      return Some(cn), None, Some(cn), Some(cn);
    }

    /** The name the websocket dialer presents: the server's host with any port cut off. */
    function WsServerName(): (name: string)
    {
      HostPortNoPort(Url("", "", serverUrl.host, "")).hostNoPort
    }

    /**
     * The websocket dialer's name is the server host itself when that names no port, and
     * the host cut before its port otherwise; either way it is a prefix of the host.
     */
    lemma WsServerNameOfHost()
      ensures !HasPort(serverUrl.host) ==> WsServerName() == serverUrl.host
      ensures HasPort(serverUrl.host) ==> WsServerName() == serverUrl.host[..LastIndexOf(serverUrl.host, ':')]
      ensures |WsServerName()| <= |serverUrl.host| && serverUrl.host[..|WsServerName()|] == WsServerName()
    {
    }

    /**
     * `dialWsTLS`: a websocket to the server URL plus `/p`, TLS over it presenting the server
     * host without port. The deferred clean-up closes the websocket on every failure after the
     * dial; on success it stays open and goes to the keepalive, and the TLS connection over it
     * is returned.
     */
    method DialWsTLS(cfg: TlsConfig, wsDialOk: bool, tls: TlsSession)
      returns (c: Option<Conn>, err: Option<DialError>, dialedUrl: string, ws: Option<Conn>, keepalive: Option<Conn>)
      modifies cfg
      ensures dialedUrl == UrlString(serverUrl) + "/p"
      ensures ws.Some? <==> wsDialOk
      ensures !wsDialOk ==> err == Some(DialFailed) && c.None? && keepalive.None? && cfg.serverName == old(cfg.serverName)
      ensures wsDialOk ==> fresh(ws.value) && cfg.serverName == WsServerName()
      ensures c.Some? <==> wsDialOk && Accept(tls, WsServerName(), cfg.insecureSkipVerify).None?
      ensures c.Some? ==> fresh(c.value) && c.value != ws.value && err.None? && !ws.value.closed && keepalive == ws
      ensures wsDialOk && c.None? ==>
        && err == Some(Rejected(Accept(tls, WsServerName(), cfg.insecureSkipVerify).value))
        && ws.value.closed && keepalive.None?
    {
      dialedUrl := UrlString(serverUrl) + "/p";
      if !wsDialOk {
        return None, Some(DialFailed), dialedUrl, None, None;
      }
      var w := new Conn();
      ws := Some(w);
      var closeWs: Option<Conn> := Some(w);

      cfg.serverName := WsServerName();
      var cn := new Conn();
      var rejection := Accept(tls, cfg.serverName, cfg.insecureSkipVerify);
      if rejection.Some? {
        c, err, keepalive := None, Some(Rejected(rejection.value)), None;
      } else {
        closeWs := None;
        c, err, keepalive := Some(cn), None, Some(w);
      }

      // the deferred clean-up
      if closeWs.Some? {
        closeWs.value.Close();
      }
    }

    /**
     * `DialProxyTLS`: the raw-TCP strategy exactly for the `tcp` scheme, the websocket
     * strategy otherwise. A connection comes back only when every check passed under the
     * strategy's server name, and then the keepalive has an open connection. A refused
     * websocket is always closed; a refused TCP connection only when `tls.Dial` refused it.
     */
    method DialProxyTLS(cfg: TlsConfig, dialOk: bool, tls: TlsSession)
      returns (c: Option<Conn>, err: Option<DialError>, transport: Option<Conn>, keepalive: Option<Conn>)
      modifies cfg
      ensures serverUrl.scheme == "tcp" ==> cfg.serverName == TcpServerName
      ensures serverUrl.scheme != "tcp" && dialOk ==> cfg.serverName == WsServerName()
      ensures transport.Some? <==> dialOk
      ensures c.Some? <==> dialOk && Accept(tls, cfg.serverName, cfg.insecureSkipVerify).None?
      ensures c.Some? <==> err.None?
      ensures !dialOk ==> err == Some(DialFailed)
      ensures dialOk && c.None? ==> err == Some(Rejected(Accept(tls, cfg.serverName, cfg.insecureSkipVerify).value))
      ensures c.Some? ==> keepalive == transport && !transport.value.closed
      ensures c.None? ==> keepalive.None?
      ensures dialOk && c.None? && serverUrl.scheme != "tcp" ==> transport.value.closed
      ensures dialOk && c.None? && serverUrl.scheme == "tcp" ==>
        (transport.value.closed <==> RefusedByDial(Accept(tls, cfg.serverName, cfg.insecureSkipVerify).value))
    {
      if serverUrl.scheme == "tcp" {
        c, err, transport, keepalive := DialTcpTLSAsWritten(cfg, dialOk, tls);
      } else {
        var dialedUrl;
        c, err, dialedUrl, transport, keepalive := DialWsTLS(cfg, dialOk, tls);
      }
    }

    /** `DialProxyTLS` over the corrected TCP dialer: a refused dial leaves nothing it opened open. */
    method DialProxyTLSCorrected(cfg: TlsConfig, dialOk: bool, tls: TlsSession)
      returns (c: Option<Conn>, err: Option<DialError>, transport: Option<Conn>, keepalive: Option<Conn>)
      modifies cfg
      ensures serverUrl.scheme == "tcp" ==> cfg.serverName == TcpServerName
      ensures serverUrl.scheme != "tcp" && dialOk ==> cfg.serverName == WsServerName()
      ensures transport.Some? <==> dialOk
      ensures c.Some? <==> dialOk && Accept(tls, cfg.serverName, cfg.insecureSkipVerify).None?
      ensures c.Some? <==> err.None?
      ensures !dialOk ==> err == Some(DialFailed)
      ensures dialOk && c.None? ==> err == Some(Rejected(Accept(tls, cfg.serverName, cfg.insecureSkipVerify).value))
      ensures c.Some? ==> keepalive == transport && !transport.value.closed
      ensures c.None? ==> keepalive.None? && (transport.Some? ==> transport.value.closed)
    {
      if serverUrl.scheme == "tcp" {
        c, err, transport, keepalive := DialTcpTLS(cfg, dialOk, tls);
      } else {
        var dialedUrl;
        c, err, dialedUrl, transport, keepalive := DialWsTLS(cfg, dialOk, tls);
      }
    }

  }

  /**
   * The connection `dialTcpTLS` leaks as written: a server that completes the handshake
   * with a valid certificate but negotiates no ALPN protocol gets its connection refused,
   * and the connection stays open.
   */
  method TcpRejectionLeaks() returns (c: Option<Conn>, leaked: Conn)
    ensures c.None? && !leaked.closed
  {
    var client := new Client(Url("tcp", "", "proxy.example:443", ""), "i:83");
    var cfg := new TlsConfig(false);
    var tls := TlsSession(true, {TcpServerName}, "", true);
    var err, transport, keepalive;
    c, err, transport, keepalive := client.DialTcpTLSAsWritten(cfg, true, tls);
    leaked := transport.value;
  }


  /** With the clean-up in place, the same refused connection is closed. */
  method TcpRejectionCloses() returns (c: Option<Conn>, closedConn: Conn)
    ensures c.None? && closedConn.closed
  {
    var client := new Client(Url("tcp", "", "proxy.example:443", ""), "i:83");
    var cfg := new TlsConfig(false);
    var tls := TlsSession(true, {TcpServerName}, "", true);
    var err, transport, keepalive;
    c, err, transport, keepalive := client.DialTcpTLS(cfg, true, tls);
    closedConn := transport.value;
  }

}
