/**
 * The proxy specification parser of proxy.go: `ports[:ports...],tunnelURL[,directIP]`,
 * several specifications separated by `|`, and the scheme-aware authority normaliser.
 * Parsing a URL and the discovery request made for `http`/`https` tunnel URLs are
 * outside the model and come in as oracle functions.
 */
module ProxySpec {
  import opened Wrappers
  import opened Text
  import opened NetAddr
  import opened Http

  /** The port `authorityAddr` adds: 80 for `ws` and `http`, 443 for every other scheme (`tcp` included). */
  function DefaultPort(scheme: string): (port: string)
    ensures port == "80" <==> scheme == "ws" || scheme == "http"
    ensures port == "443" <==> !(scheme == "ws" || scheme == "http")
  {
    if scheme == "ws" || scheme == "http" then "80" else "443"
  }

  /**
   * `authorityAddr(scheme, authority)`: the authority itself when it already splits into
   * host and port, otherwise the authority joined with the scheme's default port.
   */
  function AuthorityAddr(scheme: string, authority: string): (addr: string)
    ensures SplitHostPort(authority).Ok? ==> addr == authority
    ensures SplitHostPort(authority).Err? ==> addr == JoinHostPort(authority, DefaultPort(scheme))
  {
    if SplitHostPort(authority).Ok? then authority
    else JoinHostPort(authority, DefaultPort(scheme))
  }

  /**
   * For an authority without brackets the normalised address always splits, its host is
   * the authority's host, and when the authority had no port the port is the scheme's
   * default; normalising twice changes nothing.
   */
  lemma AuthorityAddrSplits(scheme: string, authority: string)
    requires '[' !in authority && ']' !in authority
    ensures SplitHostPort(AuthorityAddr(scheme, authority)).Ok?
    ensures SplitHostPort(authority).Err? ==>
      SplitHostPort(AuthorityAddr(scheme, authority)) == Ok(HostPort(authority, DefaultPort(scheme)))
    ensures AuthorityAddr(scheme, AuthorityAddr(scheme, authority)) == AuthorityAddr(scheme, authority)
  {
    if SplitHostPort(authority).Err? {
      var p := DefaultPort(scheme);
      assert ':' !in p && '[' !in p && ']' !in p;
      JoinThenSplit(authority, p);
    }
  }

  /** A proxy as parsed: its local ports, its tunnel URL and the optional direct address. */
  datatype Proxy = Proxy(ports: seq<string>, serverUrl: Url, tcpIp: string)

  datatype ProxyError =
    | PartCount(parts: seq<string>)  // "Every proxy MUST have 2-3 parts"
    | BadUrl(raw: string)            // url.Parse failed
    | DiscoveryFailed(raw: string)   // the discovery GET or its JSON decoding failed

  /** Go's map index: a missing key reads as the empty string. */
  function Lookup(m: map<string, string>, key: string): string
  {
    if key in m then m[key] else ""
  }

  /** The port half of `net.SplitHostPort`, empty when it fails (proxy.go ignores the error). */
  function PortOf(hostport: string): string
  {
    match SplitHostPort(hostport)
    case Ok(hp) => hp.port
    case Err(_) => ""
  }

  predicate IsDiscoveryScheme(scheme: string)
  {
    scheme == "http" || scheme == "https"
  }

  /**
   * One `|`-separated segment. It has 2 or 3 comma-separated parts or is rejected; the
   * ports are the first part split on `:`; the tunnel URL's host is normalised by scheme;
   * a discovery URL is replaced by the discovered `schema`/`bind` and loses any third part;
   * otherwise a third part becomes the direct address on the tunnel's port.
   */
  function ParseSegment(raw: string, parseUrl: string -> Option<Url>,
                        discover: string -> Option<map<string, string>>): (r: Result<Proxy, ProxyError>)
    ensures var parts := Split(raw, ',');
      r.Err? && r.error.PartCount? <==> |parts| != 2 && |parts| != 3
    ensures var parts := Split(raw, ',');
      r.Err? && r.error.PartCount? ==> r.error.parts == parts
    ensures var parts := Split(raw, ',');
      (|parts| == 2 || |parts| == 3) && parseUrl(parts[1]).None? ==> r == Err(BadUrl(parts[1]))
    ensures var parts := Split(raw, ',');
      ((|parts| == 2 || |parts| == 3) && parseUrl(parts[1]).Some? &&
       IsDiscoveryScheme(parseUrl(parts[1]).value.scheme) && discover(parts[1]).None?)
      ==> r == Err(DiscoveryFailed(parts[1]))
    ensures r.Ok? ==> var parts := Split(raw, ',');
      && (|parts| == 2 || |parts| == 3)
      && parseUrl(parts[1]).Some?
      && (IsDiscoveryScheme(parseUrl(parts[1]).value.scheme) ==> discover(parts[1]).Some?)
  {
    var parts := Split(raw, ',');
    if |parts| != 2 && |parts| != 3 then Err(PartCount(parts))
    else
      var ports := Split(parts[0], ':');
      match parseUrl(parts[1])
      case None => Err(BadUrl(parts[1]))
      case Some(u) =>
        if IsDiscoveryScheme(u.scheme) then
          match discover(parts[1])
          case None => Err(DiscoveryFailed(parts[1]))
          case Some(info) =>
            var scheme := Lookup(info, "schema");
            Ok(Proxy(ports, Url(scheme, "", AuthorityAddr(scheme, Lookup(info, "bind")), ""), ""))
        else
          var host := AuthorityAddr(u.scheme, u.host);
          Ok(Proxy(ports, u.(host := host), if |parts| == 3 then JoinHostPort(parts[2], PortOf(host)) else ""))
  }

  /**
   * The converse of the error cases: a segment with 2 or 3 parts whose URL parses, and whose
   * discovery succeeds when its scheme asks for one, is accepted.
   */
  lemma SegmentAccepted(raw: string, parseUrl: string -> Option<Url>, discover: string -> Option<map<string, string>>)
    requires var parts := Split(raw, ',');
      && (|parts| == 2 || |parts| == 3)
      && parseUrl(parts[1]).Some?
      && (IsDiscoveryScheme(parseUrl(parts[1]).value.scheme) ==> discover(parts[1]).Some?)
    ensures ParseSegment(raw, parseUrl, discover).Ok?
  {
  }

  /** The ports of a parsed segment are colon-free and, joined with `:`, give its first part back. */
  lemma SegmentPorts(raw: string, parseUrl: string -> Option<Url>, discover: string -> Option<map<string, string>>)
    requires ParseSegment(raw, parseUrl, discover).Ok?
    ensures var ports := ParseSegment(raw, parseUrl, discover).value.ports;
      && Join(ports, ':') == Split(raw, ',')[0]
      && forall k :: 0 <= k < |ports| ==> ':' !in ports[k]
  {
    JoinSplit(Split(raw, ',')[0], ':');
  }

  /**
   * Where a parsed segment's tunnel URL comes from: for a discovery URL, the discovered
   * `schema` with `bind` as its authority, and no direct address whatever the third part;
   * otherwise the URL as parsed. Either way the authority is normalised for the scheme.
   */
  lemma SegmentServer(raw: string, parseUrl: string -> Option<Url>, discover: string -> Option<map<string, string>>)
    requires ParseSegment(raw, parseUrl, discover).Ok?
    ensures var p := ParseSegment(raw, parseUrl, discover).value;
      var u := parseUrl(Split(raw, ',')[1]).value;
      if IsDiscoveryScheme(u.scheme) then
        var info := discover(Split(raw, ',')[1]).value;
        && p.serverUrl == Url(Lookup(info, "schema"), "", p.serverUrl.host, "")
        && p.serverUrl.host == AuthorityAddr(Lookup(info, "schema"), Lookup(info, "bind"))
        && p.tcpIp == ""
      else
        && p.serverUrl == u.(host := p.serverUrl.host)
        && p.serverUrl.host == AuthorityAddr(u.scheme, u.host)
        && (|Split(raw, ',')| == 2 ==> p.tcpIp == "")
  {
  }

  /**
   * The direct address of a segment with a third part and an ordinary tunnel URL splits
   * back into that third part and the port the tunnel address ended up with.
   */
  lemma SegmentDirectAddress(raw: string, parseUrl: string -> Option<Url>, discover: string -> Option<map<string, string>>)
    requires ParseSegment(raw, parseUrl, discover).Ok?
    requires |Split(raw, ',')| == 3 && !IsDiscoveryScheme(parseUrl(Split(raw, ',')[1]).value.scheme)
    requires '[' !in Split(raw, ',')[2] && ']' !in Split(raw, ',')[2]
    ensures var p := ParseSegment(raw, parseUrl, discover).value;
      SplitHostPort(p.tcpIp) == Ok(HostPort(Split(raw, ',')[2], PortOf(p.serverUrl.host)))
  {
    var p := ParseSegment(raw, parseUrl, discover).value;
    var port := PortOf(p.serverUrl.host);
    assert ':' !in port && '[' !in port && ']' !in port;
    JoinThenSplit(Split(raw, ',')[2], port);
  }

  /**
   * `parseProxy`: one proxy per `|`-separated segment, in input order, or the error of the
   * first segment that fails.
   */
  method ParseProxy(spec: string, parseUrl: string -> Option<Url>,
                    discover: string -> Option<map<string, string>>) returns (r: Result<seq<Proxy>, ProxyError>)
    ensures r.Ok? ==> |r.value| == |Split(spec, '|')|
    ensures r.Ok? ==> forall k :: 0 <= k < |Split(spec, '|')| ==>
      ParseSegment(Split(spec, '|')[k], parseUrl, discover) == Ok(r.value[k])
    ensures r.Err? ==> exists k :: (
      && 0 <= k < |Split(spec, '|')|
      && ParseSegment(Split(spec, '|')[k], parseUrl, discover) == Err(r.error)
      && forall j :: 0 <= j < k ==> ParseSegment(Split(spec, '|')[j], parseUrl, discover).Ok?)
  {
    var segments := Split(spec, '|');
    var ps: seq<Proxy> := [];
    var i := 0;
    while i < |segments|
      invariant 0 <= i <= |segments| && |ps| == i
      invariant forall k :: 0 <= k < i ==> ParseSegment(segments[k], parseUrl, discover) == Ok(ps[k])
    {
      var raw := segments[i];
      var parts := Split(raw, ',');
      if |parts| != 2 && |parts| != 3 {
        assert ParseSegment(segments[i], parseUrl, discover) == Err(PartCount(parts));
        return Err(PartCount(parts));
      }

      var p := Proxy(Split(parts[0], ':'), Url("", "", "", ""), "");

      var parsed := parseUrl(parts[1]);
      if parsed.None? {
        assert ParseSegment(segments[i], parseUrl, discover) == Err(BadUrl(parts[1]));
        return Err(BadUrl(parts[1]));
      }
      var serverUrl := parsed.value;

      if IsDiscoveryScheme(serverUrl.scheme) {
        var info := discover(parts[1]);
        if info.None? {
          assert ParseSegment(segments[i], parseUrl, discover) == Err(DiscoveryFailed(parts[1]));
          return Err(DiscoveryFailed(parts[1]));
        }
        serverUrl := Url(Lookup(info.value, "schema"), "", Lookup(info.value, "bind"), "");
        parts := parts[..2];
      }

      serverUrl := serverUrl.(host := AuthorityAddr(serverUrl.scheme, serverUrl.host));
      p := p.(serverUrl := serverUrl);

      if |parts| == 3 {
        p := p.(tcpIp := JoinHostPort(parts[2], PortOf(serverUrl.host)));
      }

      assert ParseSegment(raw, parseUrl, discover) == Ok(p);
      ps := ps + [p];
      i := i + 1;
    }
    return Ok(ps);
  }

  /** The segments a specification is cut into put back together with `|` give the specification. */
  lemma SegmentsCoverSpec(spec: string)
    ensures Join(Split(spec, '|'), '|') == spec
  {
    JoinSplit(spec, '|');
  }

}
