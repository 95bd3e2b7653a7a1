/**
 * `getIP`: the client address shown on the "what is my IP" page, taken
 * from `X-Forwarded-For`, else `X-Real-IP`, else the connection's remote
 * address.
 */
module ClientIp {

  import opened Wrappers
  import opened GoStrings

  /**
   * What `getIP` reads from a request: the two header values (`""` when
   * absent, as `Header.Get` gives them) and the host part that
   * `net.SplitHostPort` finds in `RemoteAddr` (`None` when it fails).
   */
  datatype IpHeaders = IpHeaders(forwardedFor: string, realIp: string, remoteHost: Option<string>)

  /** `IPS`: the client address and the proxies it was forwarded through. */
  datatype IPS = IPS(ip: string, forwardedIPS: seq<string>)

  /** The address given when the remote address cannot be split. */
  const UnknownIp: string := "Unknown"

  /**
   * The address `getIP` derives, by precedence: `X-Forwarded-For` when it
   * is non-empty, else `X-Real-IP` as it is, else the remote address.
   */
  function ClientIPs(h: IpHeaders): (r: IPS)
    ensures h.forwardedFor != "" ==>
      |r.forwardedIPS| == CountChar(h.forwardedFor, ',') && Lacks(r.ip, ',') && TrimSpace(r.ip) == r.ip
    ensures h.forwardedFor == "" ==> r.forwardedIPS == []
    ensures h.forwardedFor == "" && h.realIp != "" ==> r.ip == h.realIp
    ensures h.forwardedFor == "" && h.realIp == "" ==> Lacks(r.ip, '%')
  {
    if h.forwardedFor != "" then
      ForwardedForCount(h.forwardedFor);
      ForwardedForEntries(h.forwardedFor);
      ForwardedForIPs(h.forwardedFor)
    else if h.realIp != "" then IPS(h.realIp, [])
    else IPS(RemoteIp(h.remoteHost), [])
  }

  /**
   * The comma-separated entries of `X-Forwarded-For`, each trimmed: the
   * first is the client address, the others, in order, the forwarded list.
   */
  function ForwardedForIPs(xff: string): IPS
  {
    var parts := Split(xff, ',');
    IPS(TrimSpace(parts[0]), TrimEach(parts[1..]))
  }

  /**
   * What `ForwardedForIPs` makes of the comma-separated entries: the first,
   * trimmed, is the address, and forwarded entry `k` is entry `k + 1`,
   * trimmed, so that no entry is dropped or reordered.
   */
  lemma ForwardedForLayout(xff: string)
    ensures ForwardedForIPs(xff).ip == TrimSpace(Split(xff, ',')[0])
    ensures |ForwardedForIPs(xff).forwardedIPS| == |Split(xff, ',')| - 1
    ensures forall k :: 0 <= k < |ForwardedForIPs(xff).forwardedIPS| ==>
      ForwardedForIPs(xff).forwardedIPS[k] == TrimSpace(Split(xff, ',')[k + 1])
  {
    var parts := Split(xff, ',');
    forall k | 0 <= k < |ForwardedForIPs(xff).forwardedIPS|
      ensures ForwardedForIPs(xff).forwardedIPS[k] == TrimSpace(parts[k + 1])
    {
      TrimEachAt(parts[1..], k);
    }
  }

  /** Every entry of `ps` trimmed, in order. */
  function TrimEach(ps: seq<string>): (r: seq<string>)
    ensures |r| == |ps|
  {
    if ps == [] then [] else TrimEach(ps[..|ps| - 1]) + [TrimSpace(ps[|ps| - 1])]
  }

  /** Trimming a slice one entry longer appends that entry, trimmed. */
  lemma TrimEachExtend(ps: seq<string>, lo: nat, hi: nat)
    requires lo < hi <= |ps|
    ensures TrimEach(ps[lo..hi]) == TrimEach(ps[lo..hi - 1]) + [TrimSpace(ps[hi - 1])]
  {
    assert ps[lo..hi][..hi - lo - 1] == ps[lo..hi - 1];
  }

  /** Entry `k` of the trimmed list is entry `k` of the list, trimmed. */
  lemma {:induction false} TrimEachAt(ps: seq<string>, k: nat)
    requires k < |ps|
    ensures TrimEach(ps)[k] == TrimSpace(ps[k])
  {
    if k < |ps| - 1 {
      TrimEachAt(ps[..|ps| - 1], k);
    }
  }

  /** A list of entries without white space is its own trimming. */
  lemma {:induction false} TrimEachNoSpace(ps: seq<string>)
    requires forall k :: 0 <= k < |ps| ==> NoSpace(ps[k])
    ensures TrimEach(ps) == ps
  {
    if ps != [] {
      var init, last := ps[..|ps| - 1], ps[|ps| - 1];
      TrimEachNoSpace(init);
      TrimSpaceNoSpace(last);
      assert ps == init + [last];
    }
  }

  /**
   * The remote-address fallback: "Unknown" when the address does not
   * split, "127.0.0.1" for the IPv6 loopback, otherwise the host up to its
   * first '%'.
   */
  function RemoteIp(remoteHost: Option<string>): (ip: string)
    ensures Lacks(ip, '%')
  {
    match remoteHost
    case None => UnknownIp
    case Some(host) =>
      if host == "::1" then "127.0.0.1"
      else
        SplitFirst(host, '%');
        Split(host, '%')[0]
  }

  /**
   * `getIP`: a non-empty `X-Forwarded-For` is walked entry by entry, and
   * otherwise the address falls back as `ClientIPs` states.
   */
  method GetIP(h: IpHeaders) returns (ips: IPS)
    ensures ips == ClientIPs(h)
  {
    if h.forwardedFor != "" {
      ips := WalkForwardedFor(h.forwardedFor);
      return;
    }
    if h.realIp != "" {
      return IPS(h.realIp, []);
    }
    return IPS(RemoteIp(h.remoteHost), []);
  }

  /**
   * The loop of `getIP` over the comma-separated entries of
   * `X-Forwarded-For`: the first trimmed entry becomes the client address
   * and the others are appended to the forwarded list in order.
   */
  method WalkForwardedFor(xff: string) returns (ips: IPS)
    ensures ips == ForwardedForIPs(xff)
  {
    var parts := Split(xff, ',');
    var forwarded: seq<string> := [];
    var realIp := "";
    var i := 0;
    while i < |parts|
      invariant 0 <= i <= |parts|
      invariant i > 0 ==> realIp == TrimSpace(parts[0])
      invariant forwarded == if i == 0 then [] else TrimEach(parts[1..i])
    {
      var trimmed := TrimSpace(parts[i]);
      if i == 0 {
        realIp := trimmed;
      } else {
        TrimEachExtend(parts, 1, i + 1);
        forwarded := forwarded + [trimmed];
      }
      i := i + 1;
    }
    assert parts[1..i] == parts[1..];
    return IPS(realIp, forwarded);
  }

  /**
   * Header precedence: a non-empty `X-Forwarded-For` decides the result
   * whatever `X-Real-IP` and the remote address hold, and a non-empty
   * `X-Real-IP` decides it whatever the remote address holds.
   */
  lemma Precedence(h: IpHeaders)
    ensures h.forwardedFor != "" ==>
      ClientIPs(h) == ForwardedForIPs(h.forwardedFor) == ClientIPs(h.(realIp := "", remoteHost := None))
    ensures h.forwardedFor == "" && h.realIp != "" ==>
      ClientIPs(h) == IPS(h.realIp, []) == ClientIPs(h.(remoteHost := None))
    ensures h.forwardedFor == "" && h.realIp == "" ==> ClientIPs(h) == IPS(RemoteIp(h.remoteHost), [])
  {
  }

  /** A non-empty `X-Forwarded-For` gives as many forwarded entries as it has commas. */
  lemma ForwardedForCount(xff: string)
    ensures |ForwardedForIPs(xff).forwardedIPS| == CountChar(xff, ',')
  {
    SplitCount(xff, ',');
  }

  /**
   * The entries of `X-Forwarded-For`: the address and every forwarded
   * entry hold no comma and no surrounding white space.
   */
  lemma ForwardedForEntries(xff: string)
    ensures var ips := ForwardedForIPs(xff);
      && Lacks(ips.ip, ',') && TrimSpace(ips.ip) == ips.ip
      && forall k :: 0 <= k < |ips.forwardedIPS| ==>
           Lacks(ips.forwardedIPS[k], ',') && TrimSpace(ips.forwardedIPS[k]) == ips.forwardedIPS[k]
  {
    var parts := Split(xff, ',');
    var ips := ForwardedForIPs(xff);
    SplitPieces(xff, ',');
    TrimSpaceIdempotent(parts[0]);
    TrimmedHasNoNewChars(parts[0], ',');
    forall k | 0 <= k < |ips.forwardedIPS|
      ensures Lacks(ips.forwardedIPS[k], ',') && TrimSpace(ips.forwardedIPS[k]) == ips.forwardedIPS[k]
    {
      TrimEachAt(parts[1..], k);
      TrimSpaceIdempotent(parts[k + 1]);
      TrimmedHasNoNewChars(parts[k + 1], ',');
    }
  }

  /** Trimming keeps only characters that were already there. */
  lemma TrimmedHasNoNewChars(s: string, c: char)
    requires Lacks(s, c)
    ensures Lacks(TrimSpace(s), c)
  {
    TrimSpaceSlice(s);
  }

  /**
   * When `X-Forwarded-For` holds no white space, the client address
   * followed by the forwarded list, joined with commas, gives the header
   * back: nothing is lost or reordered.
   */
  lemma ForwardedForRoundTrip(xff: string)
    requires NoSpace(xff)
    ensures var ips := ForwardedForIPs(xff);
      Join([ips.ip] + ips.forwardedIPS, ',') == xff
  {
    ForwardedForUntrimmed(xff);
    JoinSplit(xff, ',');
  }

  /**
   * A header without white space needs no trimming: its entries are taken
   * as they are, and together they are the split of the header.
   */
  lemma ForwardedForUntrimmed(xff: string)
    requires NoSpace(xff)
    ensures ForwardedForIPs(xff) == IPS(Split(xff, ',')[0], Split(xff, ',')[1..])
    ensures [ForwardedForIPs(xff).ip] + ForwardedForIPs(xff).forwardedIPS == Split(xff, ',')
  {
    var parts := Split(xff, ',');
    var rest := parts[1..];
    assert TrimSpace(parts[0]) == parts[0] && TrimEach(rest) == rest by {
      PiecesHaveNoSpace(xff, ',');
      TrimSpaceNoSpace(parts[0]);
      forall k | 0 <= k < |rest|
        ensures NoSpace(rest[k])
      {
        assert rest[k] == parts[k + 1];
      }
      TrimEachNoSpace(rest);
    }
    assert [parts[0]] + rest == parts;
  }

  /** The pieces of a string without white space have no white space either. */
  lemma {:induction false} PiecesHaveNoSpace(s: string, sep: char)
    requires NoSpace(s)
    ensures forall k :: 0 <= k < |Split(s, sep)| ==> NoSpace(Split(s, sep)[k])
    decreases |s|
  {
    var i := IndexChar(s, sep);
    var parts := Split(s, sep);
    if i == -1 {
      assert parts == [s];
    } else {
      var rest := Split(s[i + 1..], sep);
      assert NoSpace(s[i + 1..]);
      PiecesHaveNoSpace(s[i + 1..], sep);
      assert parts == [s[..i]] + rest;
      assert NoSpace(s[..i]);
      forall k | 0 <= k < |parts|
        ensures NoSpace(parts[k])
      {
        if k > 0 {
          assert parts[k] == rest[k - 1];
        }
      }
    }
  }

  /**
   * The remote-address fallback: "Unknown" when the address does not
   * split; "127.0.0.1" for the host `::1`; otherwise the host up to, and
   * not including, its first '%' (the IPv6 zone is dropped, and a host
   * without a zone comes back whole).
   */
  lemma RemoteAddrFallback(remoteHost: Option<string>)
    ensures remoteHost.None? ==> RemoteIp(remoteHost) == UnknownIp
    ensures remoteHost == Some("::1") ==> RemoteIp(remoteHost) == "127.0.0.1"
    ensures remoteHost.Some? && remoteHost.value != "::1" ==>
      var host, ip := remoteHost.value, RemoteIp(remoteHost);
      ip <= host && Lacks(ip, '%') && (|ip| < |host| ==> host[|ip|] == '%')
    ensures remoteHost.Some? && remoteHost.value != "::1" && Lacks(remoteHost.value, '%') ==>
      RemoteIp(remoteHost) == remoteHost.value
  {
    if remoteHost.Some? {
      SplitFirst(remoteHost.value, '%');
    }
  }

  /**
   * The loopback test looks at the host before the zone is stripped, so a
   * loopback address that carries a zone comes back as "::1" and is not
   * mapped to "127.0.0.1".
   */
  lemma LoopbackWithZone()
    ensures RemoteIp(Some("::1%lo0")) == "::1"
  {
    var host := "::1%lo0";
    RemoteAddrFallback(Some(host));
    var ip := RemoteIp(Some(host));
    assert host[3] == '%' && host[0] != '%' && host[1] != '%' && host[2] != '%';
    assert |ip| == 3;
  }
}
