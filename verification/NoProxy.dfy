/** Which requests bypass the configured proxy (internal/client/datadog/client.go, GetProxyTransportFunc). */
module NoProxy {
  import opened Sequences
  import opened Text

  datatype Proxy = Proxy(http: string, https: string, noProxy: seq<string>)

  /** No proxy, a parsed proxy URL, or an error because the configured URL does not parse. */
  datatype Decision<U> = Direct | Through(url: U) | Unparseable

  predicate HasPort(s: string) {
    LastIndex(s, ':') > LastIndex(s, ']')
  }

  // ---------------------------------------------------------------- what an entry means

  function WithoutPort(entry: string): string {
    if HasPort(entry) then entry[..LastIndex(entry, ':')] else entry
  }

  function WithoutDot(entry: string): string {
    if entry != "" && entry[0] == '.' then entry[1..] else entry
  }

  /** The labels of a host name: what lies between its dots. */
  function Labels(s: string): (r: seq<string>)
    ensures r != []
    decreases |s|
  {
    var i := LastIndex(s, '.');
    if i < 0 then [s] else Labels(s[..i]) + [s[i + 1..]]
  }

  /** The labels of the domain are the last labels of the host. */
  predicate WithinDomain(host: string, domain: string) {
    var n, k := |Labels(host)|, |Labels(domain)|;
    k <= n && Labels(host)[n - k..] == Labels(domain)
  }

  /** Whether a trimmed and lower-cased entry covers the host. An entry that is only a port covers the empty host. */
  predicate Covers(entry: string, host: string) {
    if entry == "" then false
    else if WithoutPort(entry) == "" then host == ""
    else WithinDomain(host, WithoutDot(WithoutPort(entry)))
  }

  predicate Bypasses(normalize: string -> string, noProxy: seq<string>, host: string) {
    exists i :: 0 <= i < |noProxy| && Covers(normalize(noProxy[i]), host)
  }

  // ---------------------------------------------------------------- labels and suffixes

  function Join(labels: seq<string>): string
    requires labels != []
  {
    if |labels| == 1 then labels[0] else Join(labels[..|labels| - 1]) + "." + labels[|labels| - 1]
  }

  lemma JoinSnoc(labels: seq<string>, last: string)
    requires labels != []
    ensures Join(labels + [last]) == Join(labels) + "." + last
  {
    assert (labels + [last])[..|labels|] == labels;
  }

  lemma {:induction false} JoinLabels(s: string)
    ensures Join(Labels(s)) == s
    decreases |s|
  {
    var i := LastIndex(s, '.');
    if i < 0 {
      assert Labels(s) == [s];
    } else {
      JoinLabels(s[..i]);
      JoinSnoc(Labels(s[..i]), s[i + 1..]);
      assert s == s[..i] + "." + s[i + 1..];
    }
  }

  lemma {:induction false} JoinConcat(a: seq<string>, b: seq<string>)
    requires a != [] && b != []
    ensures Join(a + b) == Join(a) + "." + Join(b)
  {
    assert (a + b)[..|a + b| - 1] == a + b[..|b| - 1];
    if |b| == 1 {
      assert a + b[..0] == a;
    } else {
      JoinConcat(a, b[..|b| - 1]);
    }
  }

  lemma LastIndexIs(s: string, c: char, i: nat)
    requires i < |s| && s[i] == c && forall j :: i < j < |s| ==> s[j] != c
    ensures LastIndex(s, c) == i
  {
  }

  /** Prepending text moves the last dot along. */
  lemma LastDotAfter(front: string, b: string)
    requires LastIndex(b, '.') >= 0
    ensures LastIndex(front + b, '.') == |front| + LastIndex(b, '.')
  {
    LastIndexIs(front + b, '.', |front| + LastIndex(b, '.'));
  }

  lemma LabelsLast(a: string, b: string)
    requires LastIndex(b, '.') < 0
    ensures Labels(a + "." + b) == Labels(a) + [b]
  {
    var s := a + "." + b;
    LastIndexIs(s, '.', |a|);
    assert s[..|a|] == a && s[|a| + 1..] == b;
  }

  lemma LabelsStep(front: string, b: string, i: nat)
    requires i == LastIndex(b, '.')
    ensures Labels(front + b) == Labels(front + b[..i]) + [b[i + 1..]]
  {
    LastDotAfter(front, b);
    assert (front + b)[..|front| + i] == front + b[..i];
    assert (front + b)[|front| + i + 1..] == b[i + 1..];
  }

  lemma {:induction false} LabelsConcat(a: string, b: string)
    ensures Labels(a + "." + b) == Labels(a) + Labels(b)
    decreases |b|
  {
    var i := LastIndex(b, '.');
    if i < 0 {
      LabelsLast(a, b);
    } else {
      LabelsConcat(a, b[..i]);
      LabelsStep(a + ".", b, i);
      LabelsStep("", b, i);
      assert "" + b == b && "" + b[..i] == b[..i];
      ConcatAssociative(Labels(a), Labels(b[..i]), [b[i + 1..]]);
    }
  }

  lemma SubdomainWithin(sub: string, host: string, domain: string)
    requires WithinDomain(host, domain)
    ensures WithinDomain(sub + "." + host, domain)
  {
    LabelsConcat(sub, host);
    Suffixes(Labels(sub), Labels(host), |Labels(host)| - |Labels(domain)|);
  }

  lemma Suffixes<T>(a: seq<T>, b: seq<T>, i: nat)
    requires i <= |b|
    ensures (a + b)[|a| + i..] == b[i..]
  {
  }

  lemma SuffixIsWithin(front: string, domain: string)
    ensures WithinDomain(domain, domain) && WithinDomain(front + "." + domain, domain)
  {
    SubdomainWithin(front, domain, domain);
  }

  lemma JoinSuffix(front: seq<string>, back: seq<string>)
    requires front != [] && back != []
    ensures HasSuffix(Join(front + back), "." + Join(back))
  {
    JoinConcat(front, back);
    var a, b := Join(front), "." + Join(back);
    assert Join(front + back) == a + b;
    assert (a + b)[|a|..] == b;
  }

  lemma WithinIsSuffix(host: string, domain: string)
    requires WithinDomain(host, domain) && host != domain
    ensures HasSuffix(host, "." + domain)
  {
    JoinLabels(host);
    JoinLabels(domain);
    var labels, back := Labels(host), Labels(domain);
    var front := labels[..|labels| - |back|];
    assert labels == front + back;
    assert front == [] ==> labels == back;
    if front != [] {
      JoinSuffix(front, back);
    }
  }

  /** Being within a domain is being the domain or ending in a dot and the domain. */
  lemma WithinDomainIsSuffix(host: string, domain: string)
    ensures WithinDomain(host, domain) <==> host == domain || HasSuffix(host, "." + domain)
  {
    if HasSuffix(host, "." + domain) {
      var front := host[..|host| - |domain| - 1];
      assert host == front + ("." + domain) == front + "." + domain;
      SuffixIsWithin(front, domain);
    }
    if host == domain {
      SuffixIsWithin("", domain);
    } else if WithinDomain(host, domain) {
      WithinIsSuffix(host, domain);
    }
  }

  // ---------------------------------------------------------------- the matching loop

  /** The two comparisons of the loop body, on an entry p without its port. */
  lemma CoversExactly(entry: string, host: string)
    requires entry != "" && WithoutPort(entry) != ""
    ensures var p := WithoutPort(entry);
            Covers(entry, host) <==>
              || host == p
              || (p[0] == '.' && (HasSuffix(host, p) || host == p[1..]))
              || (p[0] != '.' && HasSuffix(host, p) && host != p && host[|host| - |p| - 1] == '.')
  {
    var p := WithoutPort(entry);
    WithinDomainIsSuffix(host, WithoutDot(p));
    if p[0] == '.' {
      assert "." + WithoutDot(p) == p;
    } else {
      DotSuffix(host, p);
    }
  }

  lemma DotSuffix(host: string, p: string)
    ensures HasSuffix(host, "." + p) <==>
              |p| < |host| && HasSuffix(host, p) && host[|host| - |p| - 1] == '.'
  {
    if |p| < |host| {
      var i := |host| - |p| - 1;
      assert host[i..] == [host[i]] + host[i + 1..];
      assert ("." + p)[1..] == p;
    }
  }

  /** port is what follows the last colon of the entry, unless a bracket closes after it. */
  ghost predicate Splits(entry: string, front: string, port: string) {
    entry == front + ":" + port && ':' !in port && ']' !in port
  }

  lemma PortExactly(entry: string)
    ensures HasPort(entry) <==> exists front, port :: Splits(entry, front, port)
    ensures forall front, port :: Splits(entry, front, port) ==> WithoutPort(entry) == front
    ensures (forall front, port :: !Splits(entry, front, port)) ==> WithoutPort(entry) == entry
  {
    var i := LastIndex(entry, ':');
    if HasPort(entry) {
      assert Splits(entry, entry[..i], entry[i + 1..]);
    }
    forall front, port | Splits(entry, front, port) ensures HasPort(entry) && WithoutPort(entry) == front {
      LastIndexIs(entry, ':', |front|);
      assert forall j :: |front| < j < |entry| ==> entry[j] == port[j - |front| - 1];
    }
  }

  /**
   * What an entry covers, as text. p is the entry without its port; domain is p without its leading dot: the host
   * must be the domain or end in a dot and the domain. An entry that is only a port covers the empty host.
   */
  lemma CoversText(entry: string, host: string, p: string, domain: string)
    requires entry != ""
    requires (exists port :: Splits(entry, p, port)) || (p == entry && forall front, port :: !Splits(entry, front, port))
    requires p == "." + domain || (p == domain && (p == "" || p[0] != '.'))
    ensures Covers(entry, host) <==>
              if p == "" then host == "" else host == domain || exists sub :: host == sub + ("." + domain)
  {
    PortExactly(entry);
    assert WithoutPort(entry) == p && WithoutDot(p) == domain;
    WithinDomainIsSuffix(host, domain);
    SuffixExactly(host, "." + domain);
  }

  /** One turn of the loop on an entry that is trimmed and lower-cased already. */
  method Matches(entry: string, requestHost: string) returns (matches: bool)
    ensures matches == Covers(entry, requestHost)
  {
    var p := entry;
    if |p| == 0 {
      return false;
    }
    if HasPort(p) {
      p := p[..LastIndex(p, ':')];
    }
    if |p| != 0 {
      CoversExactly(entry, requestHost);
    }
    if requestHost == p {
      return true;
    }
    if |p| == 0 {
      return false;
    }
    if p[0] == '.' && (HasSuffix(requestHost, p) || requestHost == p[1..]) {
      return true;
    }
    if p[0] != '.' && HasSuffix(requestHost, p) && requestHost[|requestHost| - |p| - 1] == '.' {
      return true;
    }
    return false;
  }

  /** The proxy for a request; trimming, lower-casing and URL parsing are parameters. */
  method ProxyFor<U>(proxy: Proxy, normalize: string -> string, parse: string -> Option<U>, scheme: string, host: string)
    returns (decision: Decision<U>)
    ensures scheme != "http" && scheme != "https" ==> decision == Direct
    ensures scheme == "http" || scheme == "https" ==>
              var url := parse(if scheme == "http" then proxy.http else proxy.https);
              decision == if Bypasses(normalize, proxy.noProxy, host) then Direct
                          else if url.Some? then Through(url.value)
                          else Unparseable
  {
    var proxyURL;
    if scheme == "http" {
      proxyURL := proxy.http;
    } else if scheme == "https" {
      proxyURL := proxy.https;
    } else {
      return Direct;
    }
    for i := 0 to |proxy.noProxy|
      invariant forall j :: 0 <= j < i ==> !Covers(normalize(proxy.noProxy[j]), host)
    {
      var matches := Matches(normalize(proxy.noProxy[i]), host);
      if matches {
        return Direct;
      }
    }
    var parsedURL := parse(proxyURL);
    decision := if parsedURL.Some? then Through(parsedURL.value) else Unparseable;
  }

  /**
   * For a named host: some entry, trimmed, lower-cased and without its port, names the host or a domain above it,
   * with or without a leading dot.
   */
  lemma NamedHostBypasses(normalize: string -> string, noProxy: seq<string>, host: string)
    requires host != ""
    ensures Bypasses(normalize, noProxy, host) <==>
            exists i :: 0 <= i < |noProxy| && WithoutPort(normalize(noProxy[i])) != ""
                        && WithinDomain(host, WithoutDot(WithoutPort(normalize(noProxy[i]))))
  {
    assert WithoutPort("") == "";
    forall i | 0 <= i < |noProxy|
      ensures Covers(normalize(noProxy[i]), host) <==>
                WithoutPort(normalize(noProxy[i])) != ""
                && WithinDomain(host, WithoutDot(WithoutPort(normalize(noProxy[i]))))
    {
    }
    if i :| 0 <= i < |noProxy| && WithoutPort(normalize(noProxy[i])) != ""
            && WithinDomain(host, WithoutDot(WithoutPort(normalize(noProxy[i])))) {
      assert Covers(normalize(noProxy[i]), host);
    }
  }

  /** Bypassing is inherited by subdomains. */
  lemma SubdomainsBypass(normalize: string -> string, noProxy: seq<string>, host: string, sub: string)
    requires host != "" && Bypasses(normalize, noProxy, host)
    ensures Bypasses(normalize, noProxy, sub + "." + host)
  {
    var i :| 0 <= i < |noProxy| && Covers(normalize(noProxy[i]), host);
    SubdomainWithin(sub, host, WithoutDot(WithoutPort(normalize(noProxy[i]))));
    assert Covers(normalize(noProxy[i]), sub + "." + host);
  }

  lemma {:induction false} LastIndexAbsent(s: string, c: char)
    ensures LastIndex(s, c) == -1 <==> c !in s
  {
    if LastIndex(s, c) >= 0 {
      assert s[LastIndex(s, c)] == c;
    }
  }

  /** The host followed by a port covers the host, the empty one included. */
  lemma PortedAddress(host: string, port: string)
    requires ':' !in port && ']' !in port
    ensures Covers(host + ":" + port, host)
  {
    var ported := host + ":" + port;
    LastIndexIs(ported, ':', |host|);
    assert forall j :: |host| <= j < |ported| ==> ported[j] != ']';
    assert WithoutPort(ported) == host;
    if host != "" {
      OwnDomain(host);
    }
  }

  lemma OwnDomain(host: string)
    requires host != ""
    ensures WithinDomain(host, WithoutDot(host))
  {
    WithinDomainIsSuffix(host, WithoutDot(host));
    if host[0] == '.' {
      assert host == "." + WithoutDot(host);
    }
  }

  lemma BracketedAddress(host: string)
    ensures !Covers("[" + host + "]", host)
  {
    var bracketed := "[" + host + "]";
    LastIndexIs(bracketed, ']', |host| + 1);
    assert WithoutPort(bracketed) == bracketed;
    assert bracketed[0] == '[';
    WithinDomainIsSuffix(host, bracketed);
  }

  /** Exactly when an entry that repeats the host covers it, for every host. */
  lemma OwnEntryExactly(host: string)
    ensures Covers(host, host) <==>
              host != ""
              && (HasPort(host) ==>
                    WithoutPort(host) != "" && HasSuffix(host, "." + WithoutDot(WithoutPort(host))))
  {
    if host != "" {
      if HasPort(host) {
        WithinDomainIsSuffix(host, WithoutDot(WithoutPort(host)));
      } else {
        OwnDomain(host);
      }
    }
  }

  /**
   * The hosts of URLs: names, IPv4 and IPv6 addresses. Any dot comes after the last colon, as in an IPv6 address
   * that ends in an IPv4 one, and a host with a dot and a colon has another colon before the last.
   */
  predicate HostForm(host: string) {
    && ']' !in host
    && (':' in host ==> '.' !in WithoutPort(host) && ('.' in host ==> ':' in WithoutPort(host)))
  }

  /** A host that ends in a dot and some text has a dot, before its last colon when the text has a colon. */
  lemma DotOfSuffix(host: string, p: string)
    requires HasSuffix(host, "." + p)
    ensures '.' in host
    ensures ':' in p ==> LastIndex(host, ':') >= 0 && '.' in host[..LastIndex(host, ':')]
  {
    DotSuffix(host, p);
    var dot := |host| - |p| - 1;
    assert host[dot] == '.';
    if k :| 0 <= k < |p| && p[k] == ':' {
      assert host[|host| - |p|..][k] == ':';
      assert host[dot + 1 + k] == ':';
      assert dot < LastIndex(host, ':');
      assert host[..LastIndex(host, ':')][dot] == '.';
    }
  }

  /** A host is covered by an entry that is its own name or address exactly when it has no colon. */
  lemma OwnAddressExactly(host: string)
    requires HostForm(host)
    ensures Covers(host, host) <==> host != "" && ':' !in host
  {
    OwnEntryExactly(host);
    LastIndexAbsent(host, ':');
    LastIndexAbsent(host, ']');
    if ':' in host {
      var p := WithoutPort(host);
      assert p == host[..LastIndex(host, ':')];
      if HasSuffix(host, "." + p) {
        DotOfSuffix(host, p);
      }
      assert p != "" ==> WithoutDot(p) == p;
    }
  }

  /**
   * An IPv6 host, with or without an IPv4 part, is never bypassed by its own address: without brackets the last
   * group is taken for a port, and with brackets the entry keeps them while the host has none. Only a port after
   * the bare address helps.
   */
  lemma AddressNeedsPort(host: string, port: string)
    requires HostForm(host) && ':' in host
    requires ':' !in port && ']' !in port
    ensures !Covers(host, host)
    ensures !Covers("[" + host + "]", host)
    ensures Covers(host + ":" + port, host)
  {
    OwnAddressExactly(host);
    BracketedAddress(host);
    PortedAddress(host, port);
  }
}
