/** server/src/registry.ts, in place: every method is proved to do to the maps what
    TunnelBooks says. */
module Registry {
  import opened Names
  import opened Options
  import opened Ports
  import opened TunnelBooks

  const RESERVED: set<string> := {"www", "api", "admin", "tunnel", "control", "status"}

  /** An OPEN_TUNNEL body: its numbers are what `Number` makes an integer of, if anything;
      `remotePort` is absent or null, or such a number. */
  datatype Body =
    Body(kind: string, targetPort: Option<int>, subdomain: Option<string>, remotePort: Option<Option<int>>)

  datatype Parsed = Malformed | Forbidden | Parsed(req: Request)

  predicate IsPort(n: Option<int>) {
    n.Some? && 1 <= n.value <= 65535
  }

  /** The subdomain asked for, as it is looked at. */
  function Asked(body: Body): string {
    if body.subdomain.Some? then Trim(Lower(body.subdomain.value)) else ""
  }

  /** A label is asked for in any letter case and with any blanks around it. */
  lemma AskedIs(body: Body, left: string, name: string, right: string, sub: string)
    requires body.subdomain == Some(left + name + right) && Blanks(left) && Blanks(right)
    requires IsLabel(sub) && SameLetters(name, sub)
    ensures Asked(body) == sub
  {
    LabelIff(sub);
    forall i | 0 <= i < |name| ensures name[i] as int < 256 { assert name[i] == sub[i] || Capital(name[i]); }
    InAnyCase(name, sub);
    LowerBlanks(left);
    LowerBlanks(right);
    LowerAppend(left + name, right);
    LowerAppend(left, name);
    TrimIs(left, sub, right);
  }

  lemma LowerBlanks(s: string)
    requires Blanks(s)
    ensures Lower(s) == s
  {
    forall i | 0 <= i < |s| ensures LowerChar(s[i]) == s[i] { assert Blank(s[i]); }
  }

  /** A request is accepted exactly when its target is a port and it asks for a label that is
      not reserved, or for a port number or none; a reserved label is refused as such. */
  function ParseRequest(body: Body): (r: Parsed)
    ensures r.Parsed? && r.req.HttpRequest? <==>
      && body.kind == "http" && body.targetPort.Some? && 1 <= body.targetPort.value <= 65535
      && IsLabel(Asked(body)) && Asked(body) !in {"www", "api", "admin", "tunnel", "control", "status"}
    ensures r.Parsed? && r.req.TcpRequest? <==>
      && body.kind == "tcp" && body.targetPort.Some? && 1 <= body.targetPort.value <= 65535
      && (body.remotePort.Some? ==> body.remotePort.value.Some? && 1 <= body.remotePort.value.value <= 65535)
    ensures r.Forbidden? <==>
      && body.kind == "http" && body.targetPort.Some? && 1 <= body.targetPort.value <= 65535
      && IsLabel(Asked(body)) && Asked(body) in {"www", "api", "admin", "tunnel", "control", "status"}
    ensures r.Parsed? && r.req.HttpRequest? ==> r.req.subdomain == Asked(body)
    ensures r.Parsed? && r.req.TcpRequest? ==>
      r.req.remotePort == if body.remotePort.Some? then body.remotePort.value else None
    ensures r.Parsed? && r.req.HttpRequest? ==> IsLabel(r.req.subdomain) && r.req.subdomain !in RESERVED
    ensures r.Parsed? && r.req.TcpRequest? && r.req.remotePort.Some? ==> IsPort(r.req.remotePort)
    ensures r.Parsed? ==> IsPort(body.targetPort) && (body.kind == "http" <==> r.req.HttpRequest?)
  {
    if body.kind != "http" && body.kind != "tcp" then Malformed
    else if !IsPort(body.targetPort) then Malformed
    else if body.kind == "http" then
      var sub := Asked(body);
      if sub == "" then Malformed
      else if !IsLabel(sub) then Malformed
      else if sub in RESERVED then Forbidden
      else Parsed(HttpRequest(sub))
    else if body.remotePort.Some? then
      if IsPort(body.remotePort.value) then Parsed(TcpRequest(body.remotePort.value)) else Malformed
    else Parsed(TcpRequest(None))
  }

  class Registry {
    const cfg: Config
    var byId: map<nat, Tunnel>
    var bySubdomain: map<string, Tunnel>
    var byPort: map<nat, Tunnel>
    var nextPortHint: int
    /** Every session's `tunnels`. */
    var owned: map<Agent, map<nat, Tunnel>>
    /** The tunnels whose `open` awaits its bind. */
    ghost var pending: set<Tunnel>

    ghost function View(): Books
      reads this
    {
      Books(byId, bySubdomain, byPort, nextPortHint, owned, pending)
    }

    ghost predicate Valid()
      reads this
    {
      Inv(View(), cfg)
    }

    constructor (cfg: Config)
      requires cfg.tcpPortMin <= cfg.tcpPortMax
      ensures Valid() && View() == Empty(cfg) && this.cfg == cfg
    {
      this.cfg := cfg;
      byId, bySubdomain, byPort, nextPortHint, owned, pending := map[], map[], map[], cfg.tcpPortMin, map[], {};
      new;
      EmptyBooks(cfg);
    }

    method LookupHttp(subdomain: string) returns (r: Option<Tunnel>)
      requires Valid()
      ensures r.Some? ==> Registered(View(), r.value) && r.value.place == Subdomain(subdomain)
      ensures r.None? ==> forall id :: id in byId ==> byId[id].place != Subdomain(subdomain)
    {
      return if subdomain in bySubdomain then Some(bySubdomain[subdomain]) else None;
    }

    /** What `agent.tunnels` holds. */
    function TunnelsOf(agent: Agent): map<nat, Tunnel>
      reads this
    {
      if agent in owned then owned[agent] else map[]
    }

    /** The search for a port, or the check of the one asked for. */
    method Claim(token: Token, requested: Option<int>) returns (r: Claimed)
      requires HintOk(View(), cfg)
      modifies `nextPortHint
      ensures r == ClaimPort(old(View()), cfg, token, requested)
      ensures nextPortHint == if r.Granted? then r.hint else old(nextPortHint)
    {
      hide Rem;
      var (min, max) := RangeOf(cfg, token);
      if requested.Some? {
        if requested.value < min || requested.value > max { return Refused(PortForbidden); }
        if requested.value in byPort { return Refused(PortTaken); }
        return Granted(requested.value, nextPortHint);
      }
      var span := max - min + 1;
      ghost var taken := byPort.Keys;
      ClaimIsFree(taken, cfg.tcpPortMin, cfg.tcpPortMax, min, max, nextPortHint);
      var i := 0;
      while i < span
        invariant 0 <= i && nextPortHint == old(nextPortHint)
        invariant FirstFree(taken, min, span, nextPortHint, i) == FirstFree(taken, min, span, nextPortHint, 0)
        decreases span - i
      {
        var port := min + Rem(nextPortHint - min + i + span, span);
        if port !in byPort {
          nextPortHint := if port + 1 > max then min else port + 1;
          return Granted(port, nextPortHint);
        }
        i := i + 1;
      }
      return Refused(NoPortsAvailable);
    }

    /** `open` up to its await. For an http tunnel there is none. `id` is the random id. */
    method Open(agent: Agent, req: Request, id: nat) returns (r: Opening)
      requires Valid() && Unused(View(), id)
      modifies this
      ensures Valid() && (View(), r) == TunnelBooks.Open(old(View()), cfg, agent, req, id)
    {
      hide Inv, ClaimPort, SubdomainAllowed;
      OpenKeeps(View(), cfg, agent, req, id);
      HintIsOk();
      if |TunnelsOf(agent)| >= Limit(agent) { return Rejected(TooManyTunnels); }
      match req {
        case HttpRequest(sub) =>
          if !SubdomainAllowed(agent.token.subdomains, sub) { return Rejected(SubdomainForbidden); }
          if sub in bySubdomain { return Rejected(SubdomainTaken); }
          var tunnel := Tunnel(id, agent, Subdomain(sub));
          bySubdomain := bySubdomain[sub := tunnel];
          Enter(tunnel);
          r := Opened(tunnel);
        case TcpRequest(requested) =>
          var c := Claim(agent.token, requested);
          if c.Refused? { return Rejected(c.why); }
          var tunnel := Tunnel(id, agent, Port(c.port));
          byPort := byPort[c.port := tunnel];
          pending := pending + {tunnel};
          r := Binding(tunnel);
      }
    }

    lemma HintIsOk()
      requires Valid()
      ensures HintOk(View(), cfg)
    {
    }

    method Enter(tunnel: Tunnel)
      modifies `byId, `owned
      ensures View() == Register(old(View()), tunnel)
    {
      byId := byId[tunnel.id := tunnel];
      owned := owned[tunnel.agent := TunnelsOf(tunnel.agent)[tunnel.id := tunnel]];
    }

    /** The rest of `open`, when its bind is through. */
    method Resume(tunnel: Tunnel, bound: bool)
      requires Valid() && tunnel in pending && tunnel.place.Port?
      modifies this
      ensures Valid() && View() == BindDone(old(View()), tunnel, bound)
    {
      hide Inv;
      BindKeeps(View(), cfg, tunnel, bound);
      pending := pending - {tunnel};
      if !bound {
        byPort := byPort - {tunnel.place.number};
        return;
      }
      Enter(tunnel);
    }

    method Close(tunnel: Tunnel)
      requires Valid() && (tunnel.id in byId ==> byId[tunnel.id] == tunnel)
      modifies this
      ensures Valid() && View() == TunnelBooks.Close(old(View()), tunnel)
    {
      hide Inv;
      StepKeeps(View(), cfg, Closes(tunnel));
      if tunnel.id !in byId { return; }
      byId := byId - {tunnel.id};
      if tunnel.place.Subdomain? { bySubdomain := bySubdomain - {tunnel.place.name}; }
      if tunnel.place.Port? { byPort := byPort - {tunnel.place.number}; }
      owned := owned[tunnel.agent := TunnelsOf(tunnel.agent) - {tunnel.id}];
    }

    /** Closes all that a session owns when it is gone; a pending bind is not looked for. */
    method CloseAllFor(agent: Agent)
      requires Valid()
      modifies this
      ensures Valid() && TunnelsOf(agent) == map[]
      ensures View() == TunnelBooks.CloseAllFor(old(View()), agent)
    {
      var tunnels := TunnelsOf(agent);
      ghost var b := View();
      hide Inv, Without, TunnelBooks.Close;
      if agent !in owned { return; }
      StrikeNone(b, agent);
      ghost var done: set<nat> := {};
      var rest := tunnels.Keys;
      while rest != {}
        invariant rest <= tunnels.Keys && done == tunnels.Keys - rest && Valid()
        invariant View() == Without(b, agent, done)
        decreases |rest|
      {
        var id :| id in rest;
        StillThere(b, agent, done, id);
        CloseOneMore(b, agent, done, id, cfg);
        Close(tunnels[id]);
        rest, done := rest - {id}, done + {id};
      }
      assert done == tunnels.Keys;
      WithoutKeeps(b, cfg, agent, done);
      assert tunnels - tunnels.Keys == map[];
    }

    lemma StillThere(b: Books, agent: Agent, done: set<nat>, id: nat)
      requires Inv(b, cfg) && id in Owned(b, agent) && id !in done
      ensures Owned(b, agent)[id].id == id && Registered(Without(b, agent, done), Owned(b, agent)[id])
    {
      OwnedIds(b, agent, {id});
    }
  }
}
