/** What the registry's books promise over whole runs: who owns what after a disconnect, how
    far the quota holds across an await, which ports are given out, and what undoes what. */
module TunnelTheorems {
  import opened Options
  import opened Ports
  import opened TunnelBooks

  // ---- disconnects -------------------------------------------------------------------

  predicate Quiet(steps: seq<Step>, a: Agent) {
    forall i :: 0 <= i < |steps| && steps[i].Asks? ==> steps[i].agent != a
  }

  predicate NothingPending(b: Books, a: Agent) {
    forall t :: t in b.pending ==> t.agent != a
  }

  ghost predicate NothingEver(b: Books, cfg: Config, a: Agent) {
    forall steps: seq<Step> :: Runs(b, cfg, steps) && Quiet(steps, a) ==> Owned(After(b, cfg, steps), a) == map[]
  }

  lemma OpenForAnother(b: Books, cfg: Config, a: Agent, req: Request, id: nat, o: Agent)
    requires HintOk(b, cfg) && o != a
    ensures var c := Open(b, cfg, a, req, id).0;
            Owned(c, o) == Owned(b, o) && (NothingPending(b, o) ==> NothingPending(c, o))
  {
  }

  lemma StaysEmpty(b: Books, cfg: Config, s: Step, a: Agent)
    requires Can(b, cfg, s) && (s.Asks? ==> s.agent != a)
    requires Owned(b, a) == map[] && NothingPending(b, a)
    ensures Owned(Next(b, cfg, s), a) == map[] && NothingPending(Next(b, cfg, s), a)
  {
    if s.Asks? { OpenForAnother(b, cfg, s.agent, s.req, s.id, a); }
  }

  lemma {:induction false} StaysEmptyForever(b: Books, cfg: Config, steps: seq<Step>, a: Agent)
    requires Runs(b, cfg, steps) && Quiet(steps, a) && Owned(b, a) == map[] && NothingPending(b, a)
    ensures Owned(After(b, cfg, steps), a) == map[]
    decreases |steps|
  {
    if steps != [] {
      StaysEmpty(b, cfg, steps[0], a);
      assert Quiet(steps[1..], a) by {
        forall i | 0 <= i < |steps[1..]| && steps[1..][i].Asks? ensures steps[1..][i].agent != a {
          assert steps[1..][i] == steps[i + 1];
        }
      }
      StaysEmptyForever(Next(b, cfg, steps[0]), cfg, steps[1..], a);
    }
  }

  /** After a disconnect the session owns nothing, and that stays so whatever others do, if
      and only if none of its binds was pending at that moment: a pending one comes back
      to register a tunnel for a session that is gone. */
  lemma DisconnectIsFinalIff(b: Books, cfg: Config, a: Agent)
    requires Inv(b, cfg)
    ensures Owned(CloseAllFor(b, a), a) == map[]
    ensures NothingEver(CloseAllFor(b, a), cfg, a) <==> NothingPending(b, a)
  {
    var c := CloseAllFor(b, a);
    if a in b.owned { WithoutKeeps(b, cfg, a, b.owned[a].Keys); }
    assert Owned(c, a) == map[];
    if NothingPending(b, a) {
      forall steps: seq<Step> | Runs(c, cfg, steps) && Quiet(steps, a)
        ensures Owned(After(c, cfg, steps), a) == map[]
      {
        StaysEmptyForever(c, cfg, steps, a);
      }
    } else {
      var t :| t in b.pending && t.agent == a;
      ComesBack(c, cfg, t);
    }
  }

  lemma ComesBack(c: Books, cfg: Config, t: Tunnel)
    requires Inv(c, cfg) && t in c.pending
    ensures !NothingEver(c, cfg, t.agent)
  {
    assert OnPort(c, t);
    var steps := [Bound(t, true)];
    assert steps[1..] == [];
    assert Runs(Next(c, cfg, steps[0]), cfg, []);
    assert Runs(c, cfg, steps) && Quiet(steps, t.agent);
    assert After(c, cfg, steps) == BindDone(c, t, true);
    assert t.id in Owned(BindDone(c, t, true), t.agent);
  }

  lemma StepKeepsRegistered(b: Books, cfg: Config, s: Step, t: Tunnel)
    requires Inv(b, cfg) && Can(b, cfg, s) && Registered(b, t) && s != Closes(t) && s != Disconnects(t.agent)
    ensures Registered(Next(b, cfg, s), t)
  {
    hide ClaimPort;
    match s {
      case Asks(_, _, _) =>
      case Bound(u, _) => assert u.id !in b.byId;
      case Closes(u) => OtherStays(b, cfg, u, t);
      case Disconnects(a) => OthersStay(b, cfg, a, t);
    }
  }

  lemma OtherStays(b: Books, cfg: Config, u: Tunnel, t: Tunnel)
    requires Inv(b, cfg) && Can(b, cfg, Closes(u)) && Registered(b, t) && t != u
    ensures Registered(Next(b, cfg, Closes(u)), t)
  {
    if u.id in b.byId { CloseIsWithout(b, cfg, u); }
  }

  lemma OthersStay(b: Books, cfg: Config, a: Agent, t: Tunnel)
    requires Inv(b, cfg) && Registered(b, t) && t.agent != a
    ensures Registered(Next(b, cfg, Disconnects(a)), t)
  {
    if a in b.owned { OwnedIds(b, a, b.owned[a].Keys); }
  }

  /** A tunnel registered for a session that is gone stays for good: nothing but that
      session's own close or another disconnect of it would remove it. */
  lemma {:induction false} StaysForGood(b: Books, cfg: Config, steps: seq<Step>, t: Tunnel)
    requires Inv(b, cfg) && Runs(b, cfg, steps) && Registered(b, t)
    requires forall i :: 0 <= i < |steps| ==> steps[i] != Closes(t) && steps[i] != Disconnects(t.agent)
    ensures Registered(After(b, cfg, steps), t)
    decreases |steps|
  {
    if steps != [] {
      StepKeeps(b, cfg, steps[0]);
      StepKeepsRegistered(b, cfg, steps[0], t);
      StaysForGood(Next(b, cfg, steps[0]), cfg, steps[1..], t);
    }
  }

  // ---- quotas ------------------------------------------------------------------------

  function PendingOf(b: Books, a: Agent): set<Tunnel> {
    set t | t in b.pending && t.agent == a
  }

  /** What the session owns or will own if all its binds succeed. */
  function Promised(b: Books, a: Agent): nat {
    |Owned(b, a)| + |PendingOf(b, a)|
  }

  lemma OneMore(m: map<nat, Tunnel>, t: Tunnel)
    requires t.id !in m
    ensures |m[t.id := t]| == |m| + 1
  {
    assert m[t.id := t].Keys == m.Keys + {t.id};
    assert |m| == |m.Keys|;
  }

  lemma PendingMore(b: Books, c: Books, t: Tunnel, a: Agent)
    requires t !in b.pending && c.pending == b.pending + {t}
    ensures |PendingOf(c, a)| == |PendingOf(b, a)| + (if t.agent == a then 1 else 0)
  {
    assert PendingOf(c, a) == PendingOf(b, a) + (if t.agent == a then {t} else {});
  }

  lemma NotOwned(b: Books, a: Agent, id: nat)
    requires OwnersAgree(b) && Unused(b, id)
    ensures id !in Owned(b, a) && forall t :: t in b.pending ==> t.id != id
  {
  }

  /** An accepted request promises the session exactly one more tunnel, and nobody else any. */
  lemma OpenPromisesOne(b: Books, cfg: Config, a: Agent, req: Request, id: nat, o: Agent)
    requires Inv(b, cfg) && Unused(b, id)
    ensures var (c, r) := Open(b, cfg, a, req, id);
            Promised(c, o) == Promised(b, o) + (if r.Rejected? || o != a then 0 else 1)
  {
    NotOwned(b, a, id);
    hide SubdomainsAgree, PortsAgree, OwnersAgree, IdsAgree, ClaimPort;
    var (c, r) := Open(b, cfg, a, req, id);
    match r {
      case Rejected(_) =>
      case Opened(t) =>
        if o == a { OneMore(Owned(b, a), t); }
        assert PendingOf(c, o) == PendingOf(b, o);
      case Binding(t) => PendingMore(b, c, t, o);
    }
  }

  /** So an accepted request keeps the session within its quota, pending binds included, if
      and only if those were counted: the code counts the registered tunnels only. */
  lemma OpenWithinQuotaIff(b: Books, cfg: Config, a: Agent, req: Request, id: nat)
    requires Inv(b, cfg) && Unused(b, id) && !Open(b, cfg, a, req, id).1.Rejected?
    ensures |Owned(b, a)| < Limit(a)
    ensures Promised(Open(b, cfg, a, req, id).0, a) <= Limit(a) <==> Promised(b, a) < Limit(a)
  {
    OpenPromisesOne(b, cfg, a, req, id, a);
  }

  lemma BindKeepsPromise(b: Books, cfg: Config, t: Tunnel, ok: bool, o: Agent)
    requires Inv(b, cfg) && t in b.pending && t.place.Port?
    ensures Promised(BindDone(b, t, ok), o) == Promised(b, o) - (if ok || o != t.agent then 0 else 1)
  {
    var c := BindDone(b, t, ok);
    PendingMore(c, b, t, o);
    if ok && o == t.agent { OneMore(Owned(b, o), t); }
  }

  lemma Fewer(m: map<nat, Tunnel>, ids: set<nat>)
    ensures |m - ids| <= |m|
  {
    assert m.Keys == (m - ids).Keys + m.Keys * ids;
    assert |m.Keys| == |(m - ids).Keys| + |m.Keys * ids|;
  }

  lemma WithoutPromisesLess(b: Books, a: Agent, ids: set<nat>, o: Agent)
    ensures Promised(Without(b, a, ids), o) <= Promised(b, o)
  {
    Fewer(Owned(b, a), ids);
    assert PendingOf(Without(b, a, ids), o) == PendingOf(b, o);
  }

  /** A step that does not open while the same session has a bind pending. */
  predicate InTurn(b: Books, s: Step) {
    s.Asks? ==> NothingPending(b, s.agent)
  }

  lemma StepKeepsQuota(b: Books, cfg: Config, s: Step, a: Agent)
    requires Inv(b, cfg) && Can(b, cfg, s) && InTurn(b, s) && Promised(b, a) <= Limit(a)
    ensures Promised(Next(b, cfg, s), a) <= Limit(a)
  {
    match s {
      case Asks(o, req, id) =>
        OpenPromisesOne(b, cfg, o, req, id, a);
        if o == a {
          assert PendingOf(b, a) == {};
          if !Open(b, cfg, o, req, id).1.Rejected? { OpenWithinQuotaIff(b, cfg, a, req, id); }
        }
      case Bound(t, ok) => BindKeepsPromise(b, cfg, t, ok, a);
      case Closes(t) => if t.id in b.byId {
        CloseIsWithout(b, cfg, t);
        WithoutPromisesLess(b, t.agent, {t.id}, a);
      }
      case Disconnects(o) => if o in b.owned { WithoutPromisesLess(b, o, b.owned[o].Keys, a); }
    }
  }

  predicate AllInTurn(b: Books, cfg: Config, steps: seq<Step>)
    requires Runs(b, cfg, steps)
    decreases |steps|
  {
    steps == [] || (InTurn(b, steps[0]) && AllInTurn(Next(b, cfg, steps[0]), cfg, steps[1..]))
  }

  /** The quota holds on every run in which no session asks while a bind of its own is
      pending. */
  lemma {:induction false} QuotaHolds(b: Books, cfg: Config, steps: seq<Step>, a: Agent)
    requires Inv(b, cfg) && Runs(b, cfg, steps) && AllInTurn(b, cfg, steps) && Promised(b, a) <= Limit(a)
    ensures |Owned(After(b, cfg, steps), a)| <= Limit(a)
    decreases |steps|
  {
    if steps != [] {
      StepKeepsQuota(b, cfg, steps[0], a);
      StepKeeps(b, cfg, steps[0]);
      QuotaHolds(Next(b, cfg, steps[0]), cfg, steps[1..], a);
    }
  }

  /** Two requests in a row overshoot a quota of one, the second being accepted while the
      first one's bind is pending. */
  lemma QuotaOvershoot()
    ensures var a := Agent(1, Token(Some(1), [], None));
            var cfg := Config(20000, 20001);
            var t, u := Tunnel(1, a, Port(20000)), Tunnel(2, a, Port(20001));
            var steps := [Asks(a, TcpRequest(Some(20000)), 1), Asks(a, TcpRequest(Some(20001)), 2),
                          Bound(t, true), Bound(u, true)];
            && Runs(Empty(cfg), cfg, steps)
            && Limit(a) == 1 && Owned(After(Empty(cfg), cfg, steps), a) == map[1 := t, 2 := u]
  {
    var a := Agent(1, Token(Some(1), [], None));
    var cfg := Config(20000, 20001);
    var t, u := Tunnel(1, a, Port(20000)), Tunnel(2, a, Port(20001));
    var s0, s1 := Asks(a, TcpRequest(Some(20000)), 1), Asks(a, TcpRequest(Some(20001)), 2);
    var s2, s3 := Bound(t, true), Bound(u, true);
    var b1 := Next(Empty(cfg), cfg, s0);
    assert b1 == Empty(cfg).(byPort := map[20000 := t], pending := {t});
    var b2 := Next(b1, cfg, s1);
    assert b2 == Empty(cfg).(byPort := map[20000 := t, 20001 := u], pending := {t, u});
    var b3 := Next(b2, cfg, s2);
    var b4 := Next(b3, cfg, s3);
    Follow(b3, cfg, s3, []);
    Follow(b2, cfg, s2, [s3]);
    Follow(b1, cfg, s1, [s2, s3]);
    Follow(Empty(cfg), cfg, s0, [s1, s2, s3]);
  }

  lemma Follow(b: Books, cfg: Config, s: Step, rest: seq<Step>)
    requires Can(b, cfg, s) && Runs(Next(b, cfg, s), cfg, rest)
    ensures Runs(b, cfg, [s] + rest) && After(b, cfg, [s] + rest) == After(Next(b, cfg, s), cfg, rest)
  {
    assert ([s] + rest)[1..] == rest;
  }

  // ---- what a token may claim ----------------------------------------------------------

  /** What one pattern of a token stands for: every label, itself, or all labels that begin as
      it does up to its asterisk. */
  ghost predicate Covers(pattern: string, name: string) {
    pattern == "*" || pattern == name || exists q: string :: pattern == q + "*" && q <= name
  }

  ghost predicate MayClaim(token: Token, name: string) {
    token.subdomains == [] || exists i :: 0 <= i < |token.subdomains| && Covers(token.subdomains[i], name)
  }

  /** The ports that are both the server's to give and the token's to take. */
  predicate MayTake(cfg: Config, token: Token, port: int) {
    && cfg.tcpPortMin <= port <= cfg.tcpPortMax
    && (token.ports.Some? ==> token.ports.value.0 <= port <= token.ports.value.1)
  }

  lemma MatchesIff(pattern: string, name: string)
    ensures Matches(pattern, name) <==> Covers(pattern, name)
  {
    if pattern != "" && pattern[|pattern| - 1] == '*' {
      var q := pattern[..|pattern| - 1];
      assert pattern == q + "*";
      if exists r: string :: pattern == r + "*" && r <= name {
        var r: string :| pattern == r + "*" && r <= name;
        assert r == q;
      }
    }
  }

  lemma AllowedIff(token: Token, name: string)
    ensures SubdomainAllowed(token.subdomains, name) <==> MayClaim(token, name)
  {
    forall i | 0 <= i < |token.subdomains|
      ensures Matches(token.subdomains[i], name) <==> Covers(token.subdomains[i], name)
    {
      MatchesIff(token.subdomains[i], name);
    }
  }

  /** The number of tunnels a token may have. */
  function Quota(token: Token): nat {
    match token.maxTunnels
    case Some(n) => n
    case None => 32
  }

  /** What becomes of a request for a subdomain, exactly. */
  lemma OpenHttpIff(b: Books, cfg: Config, a: Agent, name: string, id: nat)
    requires HintOk(b, cfg)
    ensures var r := Open(b, cfg, a, HttpRequest(name), id).1;
            var room := |Owned(b, a)| < Quota(a.token);
            && (r == Rejected(TooManyTunnels) <==> !room)
            && (r == Rejected(SubdomainForbidden) <==> room && !MayClaim(a.token, name))
            && (r == Rejected(SubdomainTaken) <==> room && MayClaim(a.token, name) && name in b.bySubdomain)
            && (r == Opened(Tunnel(id, a, Subdomain(name))) <==>
                 room && MayClaim(a.token, name) && name !in b.bySubdomain)
  {
    AllowedIff(a.token, name);
    hide SubdomainAllowed, MayClaim, Register;
  }

  /** And of a request for one port. */
  lemma OpenTcpIff(b: Books, cfg: Config, a: Agent, port: int, id: nat)
    requires HintOk(b, cfg)
    ensures var r := Open(b, cfg, a, TcpRequest(Some(port)), id).1;
            var room := |Owned(b, a)| < Quota(a.token);
            && (r == Rejected(TooManyTunnels) <==> !room)
            && (r == Rejected(PortForbidden) <==> room && !MayTake(cfg, a.token, port))
            && (r == Rejected(PortTaken) <==> room && MayTake(cfg, a.token, port) && port in b.byPort)
            && (r.Binding? <==> room && MayTake(cfg, a.token, port) && port !in b.byPort)
            && (r.Binding? ==> port >= 0 && r.tunnel == Tunnel(id, a, Port(port)))
  {
  }

  /** Everything that is or is about to be reachable was its owner's to claim. */
  ghost predicate Entitled(b: Books, cfg: Config) {
    && (forall id :: id in b.byId ==> EntitledTo(b.byId[id], cfg))
    && (forall t :: t in b.pending ==> EntitledTo(t, cfg))
  }

  ghost predicate EntitledTo(t: Tunnel, cfg: Config) {
    match t.place
    case Subdomain(name) => MayClaim(t.agent.token, name)
    case Port(n) => cfg.tcpPortMin <= n <= cfg.tcpPortMax
  }

  lemma StepKeepsEntitled(b: Books, cfg: Config, s: Step)
    requires Inv(b, cfg) && Can(b, cfg, s) && Entitled(b, cfg)
    ensures Entitled(Next(b, cfg, s), cfg)
  {
    hide SubdomainsAgree, PortsAgree, OwnersAgree, IdsAgree, SubdomainAllowed, MayClaim, ClaimPort;
    match s {
      case Asks(a, req, id) =>
        match req {
          case HttpRequest(name) => AllowedIff(a.token, name);
          case TcpRequest(requested) => ClaimedPort(b, cfg, a.token, requested);
        }
      case Bound(t, ok) =>
      case Closes(t) =>
      case Disconnects(a) =>
    }
  }

  /** Over every run of the registry: a subdomain that is served is one its owner's token has a
      pattern for, or the token has no patterns; and every port is the server's to give. */
  lemma {:induction false} EntitledRun(b: Books, cfg: Config, steps: seq<Step>)
    requires Inv(b, cfg) && Runs(b, cfg, steps) && Entitled(b, cfg)
    ensures Entitled(After(b, cfg, steps), cfg)
    decreases |steps|
  {
    hide Inv, Entitled, Can, Next;
    if steps != [] {
      StepKeeps(b, cfg, steps[0]);
      StepKeepsEntitled(b, cfg, steps[0]);
      EntitledRun(Next(b, cfg, steps[0]), cfg, steps[1..]);
    }
  }

  lemma ServedIsEntitled(cfg: Config, steps: seq<Step>, t: Tunnel)
    requires cfg.tcpPortMin <= cfg.tcpPortMax && Runs(Empty(cfg), cfg, steps)
    requires Registered(After(Empty(cfg), cfg, steps), t)
    ensures EntitledTo(t, cfg)
  {
    EmptyBooks(cfg);
    EntitledRun(Empty(cfg), cfg, steps);
  }

  // ---- ports -------------------------------------------------------------------------

  lemma RangeIs(cfg: Config, token: Token, port: int)
    ensures var (min, max) := RangeOf(cfg, token);
            min <= port <= max <==> MayTake(cfg, token, port)
  {
  }

  /** An automatically chosen port is free and the server's to give. It is the token's to
      take, and the search fails only when every port of its range is taken, whenever the
      hint is not more than one span below that range: always so without a range of its
      own. */
  lemma AutomaticPort(b: Books, cfg: Config, token: Token)
    requires HintOk(b, cfg)
    ensures var c := ClaimPort(b, cfg, token, None);
            var (min, max) := RangeOf(cfg, token);
            && (c.Granted? ==> c.port !in b.byPort && cfg.tcpPortMin <= c.port <= cfg.tcpPortMax)
            && (token.ports.None? || max == min || b.nextPortHint >= min - (max - min + 1) ==>
                 && (c.Granted? ==> MayTake(cfg, token, c.port))
                 && (c == Refused(NoPortsAvailable) <==> forall p: nat :: MayTake(cfg, token, p) ==> p in b.byPort))
  {
    var (min, max) := RangeOf(cfg, token);
    ClaimedPort(b, cfg, token, None);
    forall p: int ensures min <= p <= max <==> MayTake(cfg, token, p) { RangeIs(cfg, token, p); }
    if token.ports.None? || max == min || b.nextPortHint >= min - (max - min + 1) {
      ClaimIsExhaustive(b.byPort.Keys, min, max, b.nextPortHint);
    }
  }

  // ---- what undoes what --------------------------------------------------------------

  /** No two tunnels are reachable at the same place. */
  lemma OnePlaceEach(b: Books, cfg: Config, t: Tunnel, u: Tunnel)
    requires Inv(b, cfg) && t.place == u.place
    requires Registered(b, t) || t in b.pending
    requires Registered(b, u) || u in b.pending
    ensures t == u
  {
    if t.place.Port? { assert OnPort(b, t) && OnPort(b, u); }
  }

  /** Striking off what was just entered leaves the books as they were, but for an empty
      entry of the owner. */
  lemma EnteredAndStruck(b: Books, t: Tunnel)
    requires t.place.Subdomain? && t.place.name !in b.bySubdomain && t.id !in b.byId && t.id !in Owned(b, t.agent)
    ensures var c := Register(b.(bySubdomain := b.bySubdomain[t.place.name := t]), t);
            Close(c, t) == b.(owned := b.owned[t.agent := Owned(b, t.agent)])
  {
    var c := Register(b.(bySubdomain := b.bySubdomain[t.place.name := t]), t);
    var d := Close(c, t);
    assert b.byId[t.id := t] - {t.id} == b.byId;
    assert b.bySubdomain[t.place.name := t] - {t.place.name} == b.bySubdomain;
    assert Owned(b, t.agent)[t.id := t] - {t.id} == Owned(b, t.agent);
    assert d.owned == b.owned[t.agent := Owned(b, t.agent)];
  }

  /** Closing an http tunnel undoes its opening. */
  lemma CloseUndoesOpen(b: Books, cfg: Config, a: Agent, sub: string, id: nat)
    requires HintOk(b, cfg) && Inv(b, cfg) && Unused(b, id) && Open(b, cfg, a, HttpRequest(sub), id).1.Opened?
    ensures var (c, r) := Open(b, cfg, a, HttpRequest(sub), id);
            && r.tunnel == Tunnel(id, a, Subdomain(sub)) && Registered(c, r.tunnel)
            && sub in c.bySubdomain && c.bySubdomain[sub] == r.tunnel
            && Close(c, r.tunnel) == b.(owned := b.owned[a := Owned(b, a)])
  {
    NotOwned(b, a, id);
    hide Inv, SubdomainAllowed, Close;
    EnteredAndStruck(b, Tunnel(id, a, Subdomain(sub)));
  }

  /** A bind that fails gives the port back; closing what a successful one registered does
      the same. Only the hint remembers. */
  lemma FailedBindUndoesOpen(b: Books, cfg: Config, a: Agent, port: Option<int>, id: nat)
    requires HintOk(b, cfg) && Inv(b, cfg) && Unused(b, id) && Open(b, cfg, a, TcpRequest(port), id).1.Binding?
    ensures var (c, r) := Open(b, cfg, a, TcpRequest(port), id);
            && r.tunnel in c.pending && r.tunnel.place.Port?
            && BindDone(c, r.tunnel, false) == b.(nextPortHint := c.nextPortHint)
  {
    NotOwned(b, a, id);
    ClaimedPort(b, cfg, a.token, port);
    hide Inv, ClaimPort;
    var (c, r) := Open(b, cfg, a, TcpRequest(port), id);
    BackOut(b, r.tunnel);
  }

  lemma BackOut(b: Books, t: Tunnel)
    requires t.place.Port? && t.place.number !in b.byPort && t !in b.pending
    ensures b.byPort[t.place.number := t] - {t.place.number} == b.byPort && b.pending + {t} - {t} == b.pending
  {
  }
}
