/**
 * Go's `net.SplitHostPort` and `net.JoinHostPort`, on which both `authorityAddr`
 * normalisers decide whether an authority already carries a port.
 */
module NetAddr {
  import opened Wrappers
  import opened Text

  datatype AddrError =
    | MissingPort          // "missing port in address"
    | TooManyColons        // "too many colons in address"
    | MissingRightBracket  // "missing ']' in address"
    | UnexpectedLeft       // "unexpected '[' in address"
    | UnexpectedRight      // "unexpected ']' in address"

  datatype HostPort = HostPort(host: string, port: string)

  /** `host:port`, or `[host]:port` when the host holds a colon (an IPv6 literal). */
  function JoinHostPort(host: string, port: string): (r: string)
    ensures ':' in host ==> r == "[" + host + "]:" + port
    ensures ':' !in host ==> r == host + ":" + port
  {
    if ':' in host then "[" + host + "]:" + port else host + ":" + port
  }

  /**
   * Splits at the last colon; a leading `[` must close with `]` right before that colon,
   * an unbracketed host may hold no colon, and no stray bracket may follow.
   */
  function SplitHostPort(hostport: string): (r: Result<HostPort, AddrError>)
    ensures r.Ok? ==> ':' !in r.value.port && ']' !in r.value.port && '[' !in r.value.port
    ensures r.Ok? ==> ']' !in r.value.host && '[' !in r.value.host
    ensures r.Ok? && (|hostport| == 0 || hostport[0] != '[') ==> ':' !in r.value.host
    ensures ':' !in hostport ==> r == Err(MissingPort)
  {
    var i := LastIndexOf(hostport, ':');
    if i < 0 then Err(MissingPort)
    else if hostport[0] == '[' then
      var end := IndexOf(hostport, ']');
      if end < 0 then Err(MissingRightBracket)
      else if end + 1 == |hostport| then Err(MissingPort)
      else if end + 1 != i then
        (if hostport[end + 1] == ':' then Err(TooManyColons) else Err(MissingPort))
      else
        NoStrayBrackets(hostport, hostport[1..end], 1, end + 1, i)
    else
      var host := hostport[..i];
      if ':' in host then Err(TooManyColons)
      else NoStrayBrackets(hostport, host, 0, 0, i)
  }

  /** The last checks of SplitHostPort: no `[` from `j` on, no `]` from `k` on, then the port follows `i`. */
  function NoStrayBrackets(hostport: string, host: string, j: nat, k: nat, i: nat): (r: Result<HostPort, AddrError>)
    requires j <= |hostport| && k <= |hostport| && i < |hostport|
    requires j <= k <= i
    requires host == hostport[j..i] || (j == 1 && k == i && 2 <= i && host == hostport[1..i - 1])
    ensures r.Ok? ==> r.value == HostPort(host, hostport[i + 1..])
    ensures r.Ok? ==> '[' !in host && ']' !in hostport[i + 1..] && '[' !in hostport[i + 1..]
  {
    if '[' in hostport[j..] then Err(UnexpectedLeft)
    else if ']' in hostport[k..] then Err(UnexpectedRight)
    else
      assert forall c :: c in host ==> c in hostport[j..];
      assert forall c :: c in hostport[i + 1..] ==> c in hostport[k..] && c in hostport[j..];
      Ok(HostPort(host, hostport[i + 1..]))
  }

  /**
   * JoinHostPort is undone by SplitHostPort: for a host without brackets and a port
   * without colon or brackets, the pair comes back unchanged, bracketed IPv6 literal or not.
   */
  lemma JoinThenSplit(host: string, port: string)
    requires '[' !in host && ']' !in host
    requires ':' !in port && '[' !in port && ']' !in port
    ensures SplitHostPort(JoinHostPort(host, port)) == Ok(HostPort(host, port))
  {
    if ':' in host {
      JoinThenSplitBracketed(host, port);
    } else {
      JoinThenSplitPlain(host, port);
    }
  }

  lemma JoinThenSplitBracketed(host: string, port: string)
    requires '[' !in host && ']' !in host && ':' in host
    requires ':' !in port && '[' !in port && ']' !in port
    ensures SplitHostPort(JoinHostPort(host, port)) == Ok(HostPort(host, port))
  {
    var hp := JoinHostPort(host, port);
    var end, i := |host| + 1, |host| + 2;
    assert hp[0] == '[' && hp[end] == ']' && hp[i] == ':';
    assert hp[1..end] == host;
    assert hp[i + 1..] == port;
    assert hp[i..] == [':'] + port;
    assert hp[1..] == host + [']'] + hp[i..];
    LastIndexOfIs(hp, ':', i);
    assert hp[..end] == ['['] + host;
    IndexOfIs(hp, ']', end);
    assert '[' !in hp[1..];
    assert ']' !in hp[i..];
    assert NoStrayBrackets(hp, hp[1..end], 1, end + 1, i) == Ok(HostPort(host, port));
  }

  lemma JoinThenSplitPlain(host: string, port: string)
    requires '[' !in host && ']' !in host && ':' !in host
    requires ':' !in port && '[' !in port && ']' !in port
    ensures SplitHostPort(JoinHostPort(host, port)) == Ok(HostPort(host, port))
  {
    var hp := JoinHostPort(host, port);
    var i := |host|;
    assert hp[i] == ':' && hp[i + 1..] == port;
    LastIndexOfIs(hp, ':', i);
    assert hp[..i] == host;
    if |host| > 0 {
      assert hp[0] == host[0];
    }
  }

  /** An authority without a leading bracket that splits is rebuilt exactly by JoinHostPort. */
  lemma SplitThenJoin(hostport: string)
    requires SplitHostPort(hostport).Ok?
    requires hostport[0] != '['
    ensures JoinHostPort(SplitHostPort(hostport).value.host, SplitHostPort(hostport).value.port) == hostport
  {
    var i := LastIndexOf(hostport, ':');
    assert hostport == hostport[..i] + [':'] + hostport[i + 1..];
  }

}
