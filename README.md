# wsh2c client core in Dafny

wsh2c is a local forward proxy. A browser talks plain HTTP to it. It sends each request
to a remote proxy server over one HTTP/2 connection, which it tunnels either over raw
TLS (servers with the `tcp` scheme) or over TLS inside a websocket (every other scheme).

This project models the decision logic of that client and proves properties of it:
- how an inbound connection is classified from its request line: dropped, answered with
  the PAC file, tunnelled as a CONNECT, or wrapped in a `POST /r` reverse envelope;
- the status line written back to the browser;
- the accept loop's backoff;
- the server-info cache and the inner requests to the server's virtual hosts;
- the acceptance checks both tunnel dialers apply, with their clean-up, and the keepalive
  loop;
- the `-proxy` specification parser and the two `authorityAddr` normalisers.

Sockets, TLS, HTTP/2, websockets, URL parsing, JSON and templates are inputs to the model:
- a round-trip oracle `Request -> RoundTripResult`;
- the TLS session's outcome (`Handshake.TlsSession`);
- booleans for whether a dial succeeded;
- parser and renderer functions.

What the client writes, sends, opens and closes comes back as results or as the state of
`Conn` objects.

Modules, by source file:
- `Text`, `NetAddr`, `Http`, `Wrappers` model the Go library behaviour the code relies on:
  `strings.Index`/`LastIndex`/`Split`, `%d`, `net.SplitHostPort`/`JoinHostPort`, and the
  request and URL records.
- `RequestLine`, `Session` and `AcceptLoop` model client/client.go.
- `Handshake` and `Client` model client/dial.go and client/fetch.go. `Client` also holds
  `connect` and the reverse template of client/client.go.
- `ProxySpec` models proxy.go.
- `MainAddr` models main.go.

## Model

| member | source | states |
|---|---|---|
| `Text.IndexOf` | client/client.go:240-241 | `strings.Index`: -1 exactly when absent, otherwise the position of the first occurrence |
| `Text.LastIndexOf` | client/client.go:268 | `strings.LastIndex`: -1 exactly when absent, otherwise the position of the last occurrence |
| `Text.IndexOfIs` | client/client.go:240-241 | a position holding the element with no earlier occurrence is what `strings.Index` returns |
| `Text.LastIndexOfIs` | client/client.go:268 | a position holding the element with no later occurrence is what `strings.LastIndex` returns |
| `Text.Split` | proxy.go:21-22 | `strings.Split` yields at least one part and no part contains the separator |
| `Text.JoinSplit` | proxy.go:21-22 | joining the parts of a split with the separator gives back the input: splitting loses nothing |
| `Text.JoinCons` | proxy.go:21-22 | joining a first part with a non-empty rest puts one separator between them |
| `Text.SplitJoin` | proxy.go:28 | splitting a join of separator-free parts gives back the parts |
| `Text.BytesToString` | client/client.go:154 | `string(requestLine)` keeps the length and each byte's value |
| `Text.AsciiBytes` | client/client.go:202 | `[]byte(...)` of an ASCII literal: one byte per character, equal to its code for every character below 128 |
| `Text.Digits` | client/client.go:207 | decimal digits of a natural number: non-empty, digits only, no leading zero |
| `Text.Decimal` | client/client.go:207 | `%d`: non-empty, only digits for a non-negative number |
| `Text.DecimalReadBack` | client/client.go:207 | the digits `%d` writes denote the number written |
| `NetAddr.JoinHostPort` | proxy.go:61 | `host:port`, or `[host]:port` when the host holds a colon |
| `NetAddr.SplitHostPort` | proxy.go:72 | a split port holds no colon or bracket, a split host holds no bracket (and no colon unless it was bracketed); no colon means a missing-port error |
| `NetAddr.NoStrayBrackets` | proxy.go:72 | the final bracket checks: success returns the host and the text after the last colon |
| `NetAddr.JoinThenSplit` | proxy.go:72-79 | `SplitHostPort(JoinHostPort(h, p)) == (h, p)` for a bracket-free host and a port without colon or bracket |
| `NetAddr.JoinThenSplitBracketed` | proxy.go:79 | the round trip for a host holding a colon (bracketed form) |
| `NetAddr.JoinThenSplitPlain` | proxy.go:79 | the round trip for a host without colon |
| `NetAddr.SplitThenJoin` | proxy.go:60-61 | an unbracketed authority that splits is rebuilt exactly by `JoinHostPort` |
| `RequestLine.PeekRequestLine` | client/client.go:250-262 | "No request" exactly when nothing is buffered, "Bad request" exactly when the buffered bytes hold no `\n`, otherwise the shortest prefix ending in `\n` |
| `RequestLine.ParseRequestLine` | client/client.go:239-247 | cuts at the first space and at the first space after it; its meaning is stated by the three lemmas below |
| `RequestLine.ParseRequestLineRebuilds` | client/client.go:239-247 | when it succeeds, method, target and version joined by single spaces are the line, and neither method nor target holds a space |
| `RequestLine.ParseRequestLineAccepts` | client/client.go:240-244 | it succeeds exactly when the line holds at least two spaces |
| `RequestLine.NoTwoSpaces` | client/client.go:242-244 | when either index search fails, the line has fewer than two spaces |
| `RequestLine.ParseRequestLineOfParts` | client/client.go:239-247 | the inverse: a space-free method and target with any version come back unchanged |
| `RequestLine.RebuildAt` | client/client.go:246 | putting the two spaces back between the three cut pieces gives the line |
| `RequestLine.ParseAt` | client/client.go:240-246 | the line is cut at its first space and at the first space after it |
| `RequestLine.DefaultPort` | client/client.go:271-275 | the added port holds no colon or `]` |
| `RequestLine.HostPortNoPort` | client/client.go:265-278 | last `:` after last `]`: host kept, port cut at that colon; otherwise the default port (443 for https/wss, 80 else) is added and the host kept; in both cases `hostPort` is `hostNoPort`, `:` and a port without colon or `]` |
| `RequestLine.HostPortNoPortStable` | client/client.go:265-278 | applying it to its own `hostPort` changes nothing |
| `AcceptLoop.Pow2` | client/client.go:75 | helper for the doubling of `tempDelay`: at least 1 |
| `AcceptLoop.Streak` | client/client.go:72-86 | helper counting the temporary errors since the last success: no more than the history holds |
| `AcceptLoop.Delay` | client/client.go:72-79 | the delay after the k-th temporary error in a row, stated by `DelayStep`, `DelayBounds` and `DelayCapped` |
| `AcceptLoop.StepFor` | client/client.go:66-88 | a success is served, a temporary error sleeps its streak's delay; `Run` is proved to follow it |
| `AcceptLoop.DelayStep` | client/client.go:72-79 | the first delay is 5 ms and each next delay is the previous one doubled, capped at 1 s |
| `AcceptLoop.DelayBounds` | client/client.go:72-79 | every delay is between 5 ms and 1 s |
| `AcceptLoop.DelayCapped` | client/client.go:77-79 | from the ninth temporary error in a row the delay is the 1 s cap |
| `AcceptLoop.Pow2Grows` | client/client.go:75 | doubling more often never gives less |
| `AcceptLoop.AcceptResetsDelay` | client/client.go:86 | after a success the next temporary error waits 5 ms again |
| `AcceptLoop.Run` | client/client.go:58-89 | a failed listen returns at once; each success is served, each temporary error is slept off with its streak's delay, and the first other error ends the loop |
| `Session.ReplyLine` | client/client.go:199-214 | a made-up status line is missing exactly for a successful reverse request; 502 on transport error, `<status> Server failed to proxy` on non-200, Established for a successful CONNECT |
| `Session.Reply` | client/client.go:199-220 | the bytes written after the round trip, stated by `ReplyShape` |
| `Session.ReplyShape` | client/client.go:199-220 | on 200 the body follows the Established line (CONNECT) or is copied unchanged (reverse); on failure only the status line is written |
| `Session.ReplyLineStatus` | client/client.go:199-214 | the status a browser reads from the written line is 502 for a transport error and the upstream status otherwise |
| `Session.FixedCodes` | client/client.go:202 | the fixed lines carry `502` and `200` in `%d` spelling |
| `Session.BadGatewayLiteral` | client/client.go:202 | the 502 line is exactly the literal written on a failed round trip |
| `Session.EstablishedLiteral` | client/client.go:212 | the Established line is exactly the literal written for a successful CONNECT |
| `Session.StatusLineReads` | client/client.go:207 | the code in an `HTTP/1.1 <code> <reason>` line reads back as the code |
| `Session.IsPacRequest` | client/client.go:177-178 | a `GET` of `/pac` addressed to no host or to the local address; once the reverse template is set, `Connect` serves the PAC exactly for a non-CONNECT request that meets it |
| `Handshake.Accept` | client/dial.go:41-55 | the connection is accepted exactly when handshake, hostname (unless insecure), ALPN `h2` and mutual all pass; otherwise the error is that of the first failing check in this order |
| `Handshake.InsecureSkipsOnlyHostname` | client/dial.go:44-48 | insecure mode accepts whatever secure mode accepts, never reports a hostname mismatch, and agrees with secure mode when the certificate names the server |
| `Handshake.OnlyH2Accepted` | client/dial.go:50-52 | a connection negotiated to anything but `h2` is refused |
| `Client.WrapInt64` | client/dial.go:106 | Go's int64 arithmetic: the result is in the int64 range and congruent to the exact value modulo 2^64 |
| `Client.PingInterval` | client/dial.go:106 | `PingSecond * time.Second` in int64 arithmetic, stated by `PingIntervalExact` |
| `Client.PingIntervalExact` | client/dial.go:106 | `PingSecond * time.Second` is exact and positive for positive periods up to 9223372036 |
| `Client.Conn.constructor` | client/dial.go:37 | a new connection is open |
| `Client.Conn.Close` | client/dial.go:109 | a closed connection is closed |
| `Client.TlsConfig.constructor` | client/client.go:93-95 | the insecure flag as given, no server name yet |
| `Client.Client.constructor` | client/client.go:38-51 | no reverse template and no cached server info yet |
| `Client.Client.InitReverseRequest` | client/client.go:100-113 | the template becomes `POST`, the server URL with scheme `https`, path `/r` and no opaque part, `HTTP/1.1`, no header map |
| `Client.Client.NewReverseRequest` | client/client.go:117-129 | an envelope exactly when the template exists and the target parses; it is the template with a fresh empty header map and the target's host-with-port as `Host`, and the template itself is untouched |
| `Client.Client.ReverseEnvelope` | client/client.go:100-129 | after set-up, every envelope is `POST https://<server>/r HTTP/1.1` with an empty header map and `Host` = the target's `hostPort`; envelopes for two targets differ in `Host` at most |
| `Client.Client.Connect` | client/client.go:139-224 | a connection is dropped silently when the peek, the line, the CONNECT read or the target parse fails; the PAC is served locally without a round trip for a non-CONNECT `GET /pac` addressed to no host or the local address; otherwise the request (CONNECT head with `Host` = `hostPort`, or the envelope) is sent to the server over `https` with unknown length, and the reply follows `Session.Reply`; the inbound connection is always closed |
| `Client.Client.InnerRequest` | client/fetch.go:67-79 | the inner request for a method and virtual host, stated by `InnerRequestsReachServer` |
| `Client.Client.InnerRequestsReachServer` | client/fetch.go:67-80 | inner requests go to `https://<server host>/`, differ only in method and virtual host, and the three virtual hosts are distinct |
| `Client.Client.Fetch` | client/fetch.go:52-65 | the body exactly when the round trip answers 200; a transport error (which also stands for a failed body read) or any other status is an error |
| `Client.Client.PacHost` | client/fetch.go:40-44 | the virtual host asked for the PAC, stated by `PacHostChoice` |
| `Client.Client.PacHostChoice` | client/fetch.go:39-44 | `HOST_PAC_UPDATE` is asked exactly on update, `HOST_PAC` exactly otherwise |
| `Client.Client.FetchPac` | client/fetch.go:39-50 | a template exactly when the PAC host answers 200 and the body parses as a template, and then it is the body |
| `Client.Client.InfoLookup` | client/fetch.go:17-37 | one call of `getServerInfo` on a given cache, stated by `CachedNeverFetches`, `LookupOutcome` and `CacheIsSticky` |
| `Client.Client.CachedNeverFetches` | client/fetch.go:21-36 | a filled cache returns its value and sends nothing |
| `Client.Client.LookupOutcome` | client/fetch.go:21-33 | an empty cache sends one `GET` to the info host; a failure is not cached, a success is returned and cached; it succeeds exactly on a 200 whose body decodes |
| `Client.Client.CacheIsSticky` | client/fetch.go:33-36 | after a successful lookup, every later lookup returns the same value and sends nothing, whatever the server says |
| `Client.Client.GetServerInfo` | client/fetch.go:17-37 | the field `serverInfo` is read and filled as `InfoLookup` prescribes, with its result and requests |
| `Client.Client.Ping` | client/dial.go:98-128 | info lookup first; on failure it returns and leaves the connection open; a non-positive period panics in the ticker; otherwise one `HEAD` to `i:80` per tick, and the first failed probe closes the connection |
| `Client.Client.DialTcpTLSAsWritten` | client/dial.go:35-58 | server name `server.h2.proxy`; a connection exactly when the dial and every check pass, then handed to the keepalive; a refused connection is closed exactly when `tls.Dial` refused it (handshake or name), and left open after an ALPN or mutual-negotiation refusal |
| `Client.Client.DialTcpTLS` | client/dial.go:35-58 | as written, except that every refused connection is closed |
| `Client.Client.WsServerName` | client/dial.go:73-75 | the websocket server name, stated by `WsServerNameOfHost` |
| `Client.Client.WsServerNameOfHost` | client/dial.go:73-75 | the websocket server name is the server host without its port, a prefix of the host |
| `Client.Client.DialWsTLS` | client/dial.go:60-96 | dials `<server URL>/p`; server name = host without port; a TLS connection only when every check passes, then the websocket stays open for the keepalive; any failure after the dial closes the websocket |
| `Client.Client.DialProxyTLS` | client/dial.go:19-33 | the TCP strategy exactly for scheme `tcp`; a connection exactly when the dial and every check pass under that strategy's server name; the keepalive gets an open transport; a refused websocket is closed, a refused TCP connection only when `tls.Dial` refused it |
| `Client.Client.DialProxyTLSCorrected` | client/dial.go:19-33 | the same dispatch over the corrected TCP dialer: a refused dial leaves its transport closed |
| `Client.TcpRejectionLeaks` | client/dial.go:49-52 | a server with a valid certificate that negotiates no ALPN protocol is refused and its connection stays open |
| `Client.TcpRejectionCloses` | client/dial.go:49-52 | the same refusal with the clean-up closes the connection |
| `ProxySpec.DefaultPort` | proxy.go:75-78 | 80 exactly for `ws`/`http`, 443 for every other scheme |
| `ProxySpec.AuthorityAddr` | proxy.go:71-80 | the authority unchanged when it splits, otherwise joined with the scheme's default port |
| `ProxySpec.AuthorityAddrSplits` | proxy.go:71-80 | for a bracket-free authority the result always splits; a port-less authority gets the scheme's default port; normalising twice changes nothing |
| `ProxySpec.ParseSegment` | proxy.go:22-53 | a part-count error exactly when the comma split has neither 2 nor 3 parts; an unparsable URL is a URL error; a failed discovery is a discovery error; success only when none of these happen, and with `SegmentAccepted` exactly then |
| `ProxySpec.SegmentAccepted` | proxy.go:22-64 | a segment with 2 or 3 parts whose URL parses, and whose discovery succeeds when the scheme asks for one, is accepted |
| `ProxySpec.SegmentPorts` | proxy.go:28 | the ports are colon-free and joined with `:` give the first part back |
| `ProxySpec.SegmentServer` | proxy.go:36-56 | a discovery URL is replaced by `schema` with `bind` as authority and loses the direct address; any other URL is kept except for its authority; the authority is normalised for the scheme |
| `ProxySpec.SegmentDirectAddress` | proxy.go:59-62 | with a bracket-free third part and an ordinary URL, the direct address splits back into the third part and the normalised server's port |
| `ProxySpec.ParseProxy` | proxy.go:19-69 | one proxy per pipe-separated segment, in order, when every segment parses, otherwise the error of the first failing segment |
| `ProxySpec.SegmentsCoverSpec` | proxy.go:21 | the segments joined with the pipe character give the specification back |
| `MainAddr.AuthorityAddr` | main.go:76-81 | unchanged when it splits; a bare host becomes `h:80`, a host with an unsplit colon becomes `[h]:80` |
| `MainAddr.BareHostGetsPort80` | main.go:80 | a host without colon gets `:80` |
| `MainAddr.AuthorityAddrNormalises` | main.go:76-81 | for a bracket-free authority the result splits, into `(authority, "80")` when it had no port, and normalising twice changes nothing |
| `MainAddr.AgreesWithSchemeVersion` | main.go:76-81 | it equals the proxy.go normaliser for `http`/`ws` and differs from it for any other scheme on every authority without a port |

## Left out

- I/O and library internals are inputs. This covers:
  - `net.Listen`/`Accept` (a sequence of accept outcomes);
  - `http.ReadRequest` of the CONNECT head (an optional request);
  - `url.Parse`/`ParseRequestURI` (a parser function);
  - the discovery `http.Get` and JSON decode in proxy.go (a function per URL);
  - `json.Unmarshal` of the server info and `template.Parse`/`Execute` (functions);
  - `http2.Transport.RoundTrip` (an oracle, or a sequence of answers for the keepalive ticks);
  - `tls.Dial`/`tls.Client` and the websocket dial (a success flag and a `TlsSession`).
- Certificate name matching is modelled as membership in the certificate's name set. X.509 path building and wildcard rules are not modelled.
- `Http.UrlString` (client/dial.go:61) covers only scheme, host and path. User info, query and fragment of the server URL are not modelled.
- The `io.Copy` relay of response and request bodies is not modelled, nor is `checkRequestEnd` (client/client.go:226-235), which replays the inbound request through a pipe. The body of a dispatched request is the token `InboundStream` or `RequestReplay`.
- The model does not tie the CONNECT request read by `http.ReadRequest` to the peeked bytes.
- client/pipe.go is not part of this model: it is goroutines and channels.
- `newH2Transport` and `PreRun` wiring, logging, the `recover` in `connect`, and `muServerInfo` locking are not modelled. The cache is modelled for one caller at a time.
- Concurrency is not modelled: the accept loop's `go client.connect(c)` and the keepalive goroutine started by the dialers. The dialers return the connection the keepalive receives instead of running it.
- Timing is not modelled: `time.Sleep`, the ticker and the 30-second probe timeout. The accept delays are milliseconds, and the keepalive takes a finite run of ticks.
- `Client.Client.Fetch`: a body that fails to read after a 200 (`ioutil.ReadAll` at client/fetch.go:64) is represented by a round trip ending in `TransportError`. The outcome is the same, an error with nothing cached, but the model does not tell the two apart.
- `Client.Client.Ping`: an unrecovered ticker panic (a non-positive period) ends the whole process in Go. The model reports it as the outcome `BadInterval` and states nothing beyond that.
- `AcceptLoop.Run`: the Go loop never ends on its own. The model stops when the given accept outcomes run out, with `StillAccepting`.
- `Client.Client.Connect`: the PAC template's output is the renderer's result. A template execution error, which Go only logs, is not distinguished.
- `Text.AsciiBytes`: characters from 128 up, which Go encodes in UTF-8 with several bytes, are not modelled; every string converted is an ASCII literal or decimal digits.
- main.go's flag handling, `servParent`/`servLocal` and its `client.Client{...}` construction are not modelled. That code does not match the client package's current API.
- `HOST_PAC_UPDATE` is not defined in the client files. It is a constructor argument of `Client.Client`, required to differ from `HOST_PAC`.

## Findings

| source | as written | input that shows it | evidently intended | confidence | as-written member | corrected member |
|---|---|---|---|---|---|---|
| client/dial.go:49-55 | after `tls.Dial` succeeds, `dialTcpTLS` returns `nil, err` on an ALPN or mutual-negotiation refusal without closing the TLS connection; `tls.Dial` closes on its own handshake and name failures, and `dialWsTLS` closes its websocket on every refusal | a server with a valid certificate that negotiates no ALPN protocol (or `http/1.1`) | close the connection before returning the error, as the websocket path does | medium, not executed | `Client.TcpRejectionLeaks` | `Client.Client.DialTcpTLS` |

`dialWsTLS` arms a deferred clean-up that closes the websocket (client/dial.go:65-70) and disarms it only once every check has passed (client/dial.go:93), so a refused websocket is always closed; `dialTcpTLS` has no counterpart. `Client.Client.DialProxyTLS` models the code as written; `Client.Client.DialProxyTLSCorrected` dispatches to the corrected TCP dialer.
