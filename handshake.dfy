/**
 * The checks both tunnel dialers apply to a TLS client connection before handing it to the
 * HTTP/2 transport, in their fixed order: the handshake, the server's name (skipped in
 * insecure mode), the ALPN protocol `h2` (section 3.3 of RFC 7540, RFC 7301), and mutual
 * negotiation. The TLS session itself is an input: its outcome and what it negotiated.
 */
module Handshake {
  import opened Wrappers

  /** `http2.NextProtoTLS`. */
  const NextProtoTLS: string := "h2"

  /** The server name the raw-TCP dialer always presents and verifies. */
  const TcpServerName: string := "server.h2.proxy"

  /**
   * What the TLS layer reports: whether the handshake completed, the names the server's
   * certificate is valid for, the negotiated ALPN protocol and whether it was mutual.
   */
  datatype TlsSession = TlsSession(handshakeOk: bool, certNames: set<string>, negotiatedProtocol: string, mutual: bool)

  datatype Rejection =
    | HandshakeFailed
    | HostnameMismatch
    | UnexpectedAlpn(protocol: string)  // "http2: unexpected ALPN protocol %q; want %q"
    | NotMutual                         // "http2: could not negotiate protocol mutually"

  datatype Check = HandshakeCheck | HostnameCheck | AlpnCheck | MutualCheck

  /** The order in which the dialers run the checks. */
  function Rank(c: Check): nat
  {
    match c
    case HandshakeCheck => 0
    case HostnameCheck => 1
    case AlpnCheck => 2
    case MutualCheck => 3
  }

  /** Whether one check passes on its own. */
  predicate Passes(c: Check, t: TlsSession, serverName: string, insecure: bool)
  {
    match c
    case HandshakeCheck => t.handshakeOk
    case HostnameCheck => insecure || serverName in t.certNames
    case AlpnCheck => t.negotiatedProtocol == NextProtoTLS
    case MutualCheck => t.mutual
  }

  /** The error a failing check produces. */
  function RejectionOf(c: Check, t: TlsSession): Rejection
  {
    match c
    case HandshakeCheck => HandshakeFailed
    case HostnameCheck => HostnameMismatch
    case AlpnCheck => UnexpectedAlpn(t.negotiatedProtocol)
    case MutualCheck => NotMutual
  }

  /**
   * The post-dial checks of `dialTcpTLS` and `dialWsTLS`: the connection is accepted exactly
   * when every check passes, and otherwise the error is that of the first check, in order,
   * that fails.
   */
  function Accept(t: TlsSession, serverName: string, insecure: bool): (r: Option<Rejection>)
    ensures r.None? <==> forall c: Check :: Passes(c, t, serverName, insecure)
    ensures r.Some? ==> exists c: Check :: (
      && !Passes(c, t, serverName, insecure)
      && r.value == RejectionOf(c, t)
      && forall d: Check :: Rank(d) < Rank(c) ==> Passes(d, t, serverName, insecure))
  {
    if !t.handshakeOk then
      assert !Passes(HandshakeCheck, t, serverName, insecure);
      Some(HandshakeFailed)
    else if !insecure && serverName !in t.certNames then
      assert !Passes(HostnameCheck, t, serverName, insecure);
      Some(HostnameMismatch)
    else if t.negotiatedProtocol != NextProtoTLS then
      assert !Passes(AlpnCheck, t, serverName, insecure);
      Some(UnexpectedAlpn(t.negotiatedProtocol))
    else if !t.mutual then
      assert !Passes(MutualCheck, t, serverName, insecure);
      Some(NotMutual)
    else
      None
  }

  /**
   * The refusals `tls.Dial` reports itself: its handshake also checks the server's name
   * unless verification is off, and on failure it closes the connection it dialled. The
   * later checks of the negotiated protocol run on a connection the caller holds.
   */
  predicate RefusedByDial(r: Rejection)
  {
    r.HandshakeFailed? || r.HostnameMismatch?
  }

  /**
   * Insecure mode drops the name check and nothing else: whatever is accepted in secure mode
   * is accepted in insecure mode, and the two differ only on a session whose certificate
   * does not name the server.
   */
  lemma InsecureSkipsOnlyHostname(t: TlsSession, serverName: string)
    ensures Accept(t, serverName, false).None? ==> Accept(t, serverName, true).None?
    ensures Accept(t, serverName, true) != Some(HostnameMismatch)
    ensures serverName in t.certNames ==> Accept(t, serverName, true) == Accept(t, serverName, false)
  {
  }

  /** A connection negotiated to anything but `h2` is refused, whatever else holds. */
  lemma OnlyH2Accepted(t: TlsSession, serverName: string, insecure: bool)
    requires t.negotiatedProtocol != NextProtoTLS
    ensures Accept(t, serverName, insecure).Some?
  {
    assert !Passes(AlpnCheck, t, serverName, insecure);
  }

}
