/** server/src/http-frontend.ts: which tunnel a request's Host leads to, and why the
    address a tunnel was published at leads back to it. */
module Routing {
  import opened Frames
  import opened HeadPeek
  import opened HostHeader
  import opened Names
  import opened Options
  import opened RequestLines
  import opened TunnelBooks

  /** The answer to a request whose head was read: an error page, or a stream. */
  datatype Verdict = BadRequest | NotFound | BadGateway | To(tunnel: Tunnel)

  function Route(bySubdomain: map<string, Tunnel>, domain: string, host: Option<string>): Verdict {
    if host.None? || host.value == "" then BadRequest
    else
      var bare := Lower(StripPort(host.value));
      if !EndsWith(bare, "." + domain) then NotFound
      else
        var subdomain := bare[..|bare| - |domain| - 1];
        if subdomain == "" || '.' in subdomain then NotFound
        else if subdomain in bySubdomain then To(bySubdomain[subdomain])
        else BadGateway
  }

  /** The host part of a tunnel's public URL. */
  function PublicHost(t: Tunnel, domain: string): string
    requires t.place.Subdomain?
  {
    t.place.name + "." + domain
  }

  /** Every subdomain was checked to be a label before it was claimed. */
  ghost predicate Labels(b: Books) {
    forall s :: s in b.bySubdomain ==> IsLabel(s)
  }

  /** The subdomain asked for, if any, is a label. */
  predicate AsksForLabel(s: Step) {
    s.Asks? && s.req.HttpRequest? ==> IsLabel(s.req.subdomain)
  }

  lemma StepKeepsLabels(b: Books, cfg: Config, s: Step)
    requires Labels(b) && Can(b, cfg, s) && AsksForLabel(s)
    ensures Labels(Next(b, cfg, s))
  {
    hide ClaimPort;
  }

  lemma {:induction false} LabelsKept(b: Books, cfg: Config, steps: seq<Step>)
    requires Labels(b) && Runs(b, cfg, steps) && forall i :: 0 <= i < |steps| ==> AsksForLabel(steps[i])
    ensures Labels(After(b, cfg, steps))
    decreases |steps|
  {
    if steps != [] {
      StepKeepsLabels(b, cfg, steps[0]);
      LabelsKept(Next(b, cfg, steps[0]), cfg, steps[1..]);
    }
  }

  lemma BareRoutes(bySubdomain: map<string, Tunnel>, domain: string, host: string, sub: string)
    requires host != "" && Lower(StripPort(host)) == sub + "." + domain
    requires sub != "" && '.' !in sub && sub in bySubdomain
    ensures Route(bySubdomain, domain, Some(host)) == To(bySubdomain[sub])
  {
    var bare := Lower(StripPort(host));
    assert bare[|bare| - |domain| - 1..] == "." + domain;
    assert bare[..|bare| - |domain| - 1] == sub;
  }

  lemma HostOfLabel(sub: string, domain: string, host: string)
    requires IsLabel(sub) && Lower(host) == sub + "." + domain
    ensures host != "" && host[0] != '[' && '.' !in sub
    ensures ':' in host <==> ':' in domain
  {
    LabelIsPlain(sub);
    var p := sub + "." + domain;
    assert |host| == |p|;
    assert Lower(host)[0] == sub[0] && LowerChar(host[0]) == sub[0];
    if ':' in host {
      var i :| 0 <= i < |host| && host[i] == ':';
      assert Lower(host)[i] == ':' && p[i] == ':';
      assert i > |sub| && domain[i - |sub| - 1] == ':';
    }
    if ':' in domain {
      var i :| 0 <= i < |domain| && domain[i] == ':';
      assert p[|sub| + 1 + i] == ':' && Lower(host)[|sub| + 1 + i] == ':';
      assert host[|sub| + 1 + i] == ':';
    }
  }

  /** Whatever the letter case, with or without a port, the published address of an http
      tunnel routes back to that very tunnel. */
  lemma PublishedAddressRoutesBack(b: Books, cfg: Config, domain: string, t: Tunnel, host: string, port: Option<string>)
    requires Inv(b, cfg) && Labels(b) && Registered(b, t) && t.place.Subdomain?
    requires ':' !in domain && Lower(host) == PublicHost(t, domain)
    requires port.Some? ==> ':' !in port.value
    ensures Route(b.bySubdomain, domain, Some(if port.Some? then host + ":" + port.value else host)) == To(t)
  {
    HostOfLabel(t.place.name, domain, host);
    if port.Some? { StripOnePort(host, port.value); } else { StripNoPort(host); }
    BareRoutes(b.bySubdomain, domain, if port.Some? then host + ":" + port.value else host, t.place.name);
  }

  /** So every http tunnel of a server is reachable at its address, after any run whose
      requests were all parsed. */
  lemma EveryTunnelIsReachable(
    cfg: Config, steps: seq<Step>, domain: string, t: Tunnel, host: string, port: Option<string>)
    requires cfg.tcpPortMin <= cfg.tcpPortMax && Runs(Empty(cfg), cfg, steps)
    requires forall i :: 0 <= i < |steps| ==> AsksForLabel(steps[i])
    requires Registered(After(Empty(cfg), cfg, steps), t) && t.place.Subdomain?
    requires ':' !in domain && Lower(host) == PublicHost(t, domain)
    requires port.Some? ==> ':' !in port.value
    ensures Route(After(Empty(cfg), cfg, steps).bySubdomain, domain,
                  Some(if port.Some? then host + ":" + port.value else host)) == To(t)
  {
    EmptyBooks(cfg);
    BooksAgree(Empty(cfg), cfg, steps);
    LabelsKept(Empty(cfg), cfg, steps);
    PublishedAddressRoutesBack(After(Empty(cfg), cfg, steps), cfg, domain, t, host, port);
  }

  /** From the first bytes to the tunnel: however a request is split on its way, if the first of
      its header lines named Host has a published address for its value, in any letter case and
      with or without a port, the frontend hands the whole request to the tunnel published
      there, the bytes read ahead first. */
  lemma RequestReachesItsTunnel(
    b: Books, cfg: Config, domain: string, t: Tunnel, host: string, port: Option<string>,
    lines: seq<Bytes>, body: Bytes, i: nat, value: Bytes, max: nat, chunks: seq<Bytes>)
    requires Inv(b, cfg) && Labels(b) && Registered(b, t) && t.place.Subdomain?
    requires ':' !in domain && NoCapitals(domain) && SameLetters(host, PublicHost(t, domain))
    requires port.Some? ==> ':' !in port.value
    requires lines != [] && Unbroken(lines) && Filled(lines) && FirstHostLine(lines, i, value)
    requires Text(value) == if port.Some? then host + ":" + port.value else host
    requires Flat(chunks) == RequestOf(lines, body) && |HeadOf(lines)| + 3 <= max
    ensures var p := Peek(max, [], chunks);
            && p.look.Ready? && Route(b.bySubdomain, domain, p.look.host) == To(t)
            && p.head + Flat(p.rest) == RequestOf(lines, body)
  {
    PublicHostInAnyCase(t, domain, host, port, value);
    hide Inv, Labels, Route, PublicHost, SameLetters, NoCapitals, HostLine, Peek, FirstHostLine;
    PublishedAddressRoutesBack(b, cfg, domain, t, host, port);
    HeadEndsThere(lines, body);
    HostFoundIff(lines, Text(value));
    PeekIgnoresChunkingIff(max, Flat(chunks), |HeadOf(lines)|);
    PeekIsLossless(max, [], chunks);
    assert [] + Flat(chunks) == Flat(chunks);
  }

  lemma PublicHostInAnyCase(t: Tunnel, domain: string, host: string, port: Option<string>, value: Bytes)
    requires t.place.Subdomain? && IsLabel(t.place.name) && NoCapitals(domain)
    requires SameLetters(host, PublicHost(t, domain))
    requires Text(value) == if port.Some? then host + ":" + port.value else host
    ensures Lower(host) == PublicHost(t, domain)
  {
    LabelIff(t.place.name);
    forall i | 0 <= i < |host| ensures host[i] as int < 256 { assert host[i] == Text(value)[i]; }
    InAnyCase(host, PublicHost(t, domain));
  }

  /** `host` is the one label `sub` in front of the domain, but for port and letter case. */
  predicate Designates(host: string, sub: string, domain: string) {
    sub != "" && '.' !in sub && Lower(StripPort(host)) == sub + "." + domain
  }

  /** What the answer is, exactly: a request without a Host is a bad one; a Host that designates
      a label leads to its tunnel, or to none that is being served; any other is not found. */
  lemma VerdictIff(bySubdomain: map<string, Tunnel>, domain: string, host: string, sub: string)
    ensures Route(bySubdomain, domain, None) == Route(bySubdomain, domain, Some("")) == BadRequest
    ensures host != "" && Designates(host, sub, domain) ==>
      Route(bySubdomain, domain, Some(host)) == if sub in bySubdomain then To(bySubdomain[sub]) else BadGateway
    ensures host != "" && (forall s :: !Designates(host, s, domain)) ==>
      Route(bySubdomain, domain, Some(host)) == NotFound
  {
    var bare := Lower(StripPort(host));
    if Designates(host, sub, domain) {
      assert bare[|bare| - |domain| - 1..] == "." + domain && bare[..|bare| - |domain| - 1] == sub;
    }
    if EndsWith(bare, "." + domain) {
      SplitSuffix(bare, domain);
      assert !Designates(host, bare[..|bare| - |domain| - 1], domain) ==>
        Route(bySubdomain, domain, Some(host)) == NotFound || host == "";
    }
  }

  /** Conversely a Host that is routed is, without its port and in lower case, exactly the
      published address of the tunnel it leads to. */
  lemma RoutedIsPublished(b: Books, cfg: Config, domain: string, host: Option<string>)
    requires Inv(b, cfg)
    ensures var v := Route(b.bySubdomain, domain, host);
            v.To? ==>
              && Registered(b, v.tunnel) && v.tunnel.place.Subdomain? && host.Some?
              && Lower(StripPort(host.value)) == PublicHost(v.tunnel, domain)
  {
    hide PortsAgree, OwnersAgree, IdsAgree, StripPort;
    var v := Route(b.bySubdomain, domain, host);
    if v.To? { SplitSuffix(Lower(StripPort(host.value)), domain); }
  }

  lemma SplitSuffix(bare: string, domain: string)
    requires EndsWith(bare, "." + domain)
    ensures |bare| > |domain| && bare == bare[..|bare| - |domain| - 1] + "." + domain
  {
    var sub := bare[..|bare| - |domain| - 1];
    assert bare == sub + bare[|bare| - |domain| - 1..];
    assert sub + ("." + domain) == sub + "." + domain;
  }

  /** The published address itself routes back if and only if the configured domain is in
      lower case and has no colon. */
  lemma PublicHostRoutesBackIff(b: Books, cfg: Config, domain: string, t: Tunnel)
    requires Inv(b, cfg) && Labels(b) && Registered(b, t) && t.place.Subdomain?
    ensures Route(b.bySubdomain, domain, Some(PublicHost(t, domain))) == To(t)
            <==> Lower(domain) == domain && ':' !in domain
  {
    var sub, host := t.place.name, PublicHost(t, domain);
    LabelIsPlain(sub);
    LowerAppend(sub + ".", domain);
    LowerAppend(sub, ".");
    if Lower(domain) == domain && ':' !in domain {
      PublishedAddressRoutesBack(b, cfg, domain, t, host, None);
    }
    if Route(b.bySubdomain, domain, Some(host)) == To(t) { RoutedBackIsPlain(b, cfg, domain, t); }
  }

  lemma RoutedBackIsPlain(b: Books, cfg: Config, domain: string, t: Tunnel)
    requires Inv(b, cfg) && t.place.Subdomain? && IsLabel(t.place.name)
    requires Route(b.bySubdomain, domain, Some(PublicHost(t, domain))) == To(t)
    ensures Lower(domain) == domain && ':' !in domain
  {
    var sub, host := t.place.name, PublicHost(t, domain);
    RoutedIsPublished(b, cfg, domain, Some(host));
    assert |StripPort(host)| == |host|;
    assert StripPort(host) == host;
    LabelIsPlain(sub);
    assert host[0] == sub[0];
    StripNoPort(host);
    LowerAppend(sub + ".", domain);
    LowerAppend(sub, ".");
    assert Lower(host)[|sub| + 1..] == Lower(domain) && host[|sub| + 1..] == domain;
    if ':' in domain { Colon(host, sub, domain); }
  }

  lemma Colon(host: string, sub: string, domain: string)
    requires host == sub + "." + domain && ':' in domain
    ensures ':' in host
  {
    var i :| 0 <= i < |domain| && domain[i] == ':';
    assert host[|sub| + 1 + i] == ':';
  }
}
