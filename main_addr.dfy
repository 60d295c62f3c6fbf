/**
 * The one-argument `authorityAddr` of main.go, which gives every authority without a port
 * the port 80, whatever scheme it will be used with.
 */
module MainAddr {
  import opened Wrappers
  import opened Text
  import opened NetAddr
  import ProxySpec

  /**
   * `authorityAddr(authority)`: unchanged when it splits into host and port; a bare host `h`
   * becomes `h:80`, and a host with a colon that did not split (an unbracketed IPv6
   * literal) becomes `[h]:80`.
   */
  function AuthorityAddr(authority: string): (addr: string)
    ensures SplitHostPort(authority).Ok? ==> addr == authority
    ensures SplitHostPort(authority).Err? && ':' !in authority ==> addr == authority + ":80"
    ensures SplitHostPort(authority).Err? && ':' in authority ==> addr == "[" + authority + "]:80"
  {
    if SplitHostPort(authority).Ok? then authority else JoinHostPort(authority, "80")
  }

  /** A bare host without a colon always gets port 80. */
  lemma BareHostGetsPort80(host: string)
    requires ':' !in host
    ensures AuthorityAddr(host) == host + ":80"
  {
  }

  /**
   * For an authority without brackets the result always splits, into the authority and
   * "80" when it had no port, and applying the normaliser again changes nothing.
   */
  lemma AuthorityAddrNormalises(authority: string)
    requires '[' !in authority && ']' !in authority
    ensures SplitHostPort(AuthorityAddr(authority)).Ok?
    ensures SplitHostPort(authority).Err? ==> SplitHostPort(AuthorityAddr(authority)) == Ok(HostPort(authority, "80"))
    ensures AuthorityAddr(AuthorityAddr(authority)) == AuthorityAddr(authority)
  {
    if SplitHostPort(authority).Err? {
      JoinThenSplit(authority, "80");
    }
  }

  /**
   * The two `authorityAddr`s agree exactly when the scheme's default is 80: main.go's
   * version is proxy.go's for `http` (or `ws`), and differs from it for `https`, `wss`
   * and `tcp` on every authority without a port.
   */
  lemma AgreesWithSchemeVersion(scheme: string, authority: string)
    ensures scheme == "http" || scheme == "ws" ==> AuthorityAddr(authority) == ProxySpec.AuthorityAddr(scheme, authority)
    ensures !(scheme == "http" || scheme == "ws") && SplitHostPort(authority).Err? ==>
      AuthorityAddr(authority) != ProxySpec.AuthorityAddr(scheme, authority)
  {
    if !(scheme == "http" || scheme == "ws") && SplitHostPort(authority).Err? {
      var a, b := AuthorityAddr(authority), ProxySpec.AuthorityAddr(scheme, authority);
      assert b == JoinHostPort(authority, "443");
      assert a[|a| - 1] == '0' && b[|b| - 1] == '3';
    }
  }

}
