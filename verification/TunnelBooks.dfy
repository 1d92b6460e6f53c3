/** server/src/registry.ts, as values: which tunnels exist, what they are reachable at, and
    who owns them, with the opening of a TCP tunnel in two steps around the bind. */
module TunnelBooks {
  import opened Options
  import opened Ports

  const DEFAULT_MAX_TUNNELS: nat := 32

  datatype Token = Token(maxTunnels: Option<nat>, subdomains: seq<string>, ports: Option<(int, int)>)

  /** A connected session and the token it presented. */
  datatype Agent = Agent(id: nat, token: Token)

  datatype Place = Subdomain(name: string) | Port(number: nat)

  datatype Tunnel = Tunnel(id: nat, agent: Agent, place: Place)

  datatype Request = HttpRequest(subdomain: string) | TcpRequest(remotePort: Option<int>)

  datatype Config = Config(tcpPortMin: nat, tcpPortMax: nat)

  datatype Refusal =
    TooManyTunnels | SubdomainForbidden | SubdomainTaken | PortForbidden | PortTaken | NoPortsAvailable

  /** `owned` holds every session's `tunnels`; `pending` the tunnels whose bind is awaited. */
  datatype Books = Books(
    byId: map<nat, Tunnel>, bySubdomain: map<string, Tunnel>, byPort: map<nat, Tunnel>, nextPortHint: int,
    owned: map<Agent, map<nat, Tunnel>>, pending: set<Tunnel>)

  datatype Opening = Rejected(why: Refusal) | Opened(tunnel: Tunnel) | Binding(tunnel: Tunnel)

  datatype Claimed = Granted(port: nat, hint: int) | Refused(why: Refusal)

  function Empty(cfg: Config): Books {
    Books(map[], map[], map[], cfg.tcpPortMin, map[], {})
  }

  function Owned(b: Books, a: Agent): map<nat, Tunnel> {
    if a in b.owned then b.owned[a] else map[]
  }

  function Limit(a: Agent): nat {
    if a.token.maxTunnels.Some? then a.token.maxTunnels.value else DEFAULT_MAX_TUNNELS
  }

  // ---- subdomains and ports ----------------------------------------------------------

  /** `*` matches any label; a trailing `*` matches a prefix. */
  predicate Matches(pattern: string, subdomain: string) {
    if pattern == "*" then true
    else if pattern != "" && pattern[|pattern| - 1] == '*' then pattern[..|pattern| - 1] <= subdomain
    else pattern == subdomain
  }

  predicate SubdomainAllowed(patterns: seq<string>, subdomain: string) {
    patterns == [] || exists i :: 0 <= i < |patterns| && Matches(patterns[i], subdomain)
  }

  function Max(a: int, b: int): int {
    if a < b then b else a
  }

  function Min(a: int, b: int): int {
    if a < b then a else b
  }

  /** The ports a token may claim, both ends included; maybe none. */
  function RangeOf(cfg: Config, token: Token): (int, int) {
    match token.ports
    case None => (cfg.tcpPortMin, cfg.tcpPortMax)
    case Some((lo, hi)) => (Max(lo, cfg.tcpPortMin), Min(hi, cfg.tcpPortMax))
  }

  predicate HintOk(b: Books, cfg: Config) {
    cfg.tcpPortMin <= b.nextPortHint <= cfg.tcpPortMax
  }

  function ClaimPort(b: Books, cfg: Config, token: Token, requested: Option<int>): Claimed
    requires HintOk(b, cfg)
  {
    var (min, max) := RangeOf(cfg, token);
    match requested
    case Some(port) =>
      if port < min || port > max then Refused(PortForbidden)
      else if port in b.byPort then Refused(PortTaken)
      else Granted(port, b.nextPortHint)
    case None =>
      ClaimIsFree(b.byPort.Keys, cfg.tcpPortMin, cfg.tcpPortMax, min, max, b.nextPortHint);
      match FirstFree(b.byPort.Keys, min, max - min + 1, b.nextPortHint, 0)
      case Some(port) => Granted(port, HintAfter(min, max, port))
      case None => Refused(NoPortsAvailable)
  }

  // ---- operations --------------------------------------------------------------------

  function Register(b: Books, t: Tunnel): Books {
    b.(byId := b.byId[t.id := t], owned := b.owned[t.agent := Owned(b, t.agent)[t.id := t]])
  }

  /** `open` up to the bind, or to its end for an http tunnel. `id` is the new random id. */
  function Open(b: Books, cfg: Config, a: Agent, req: Request, id: nat): (Books, Opening)
    requires HintOk(b, cfg)
  {
    if |Owned(b, a)| >= Limit(a) then (b, Rejected(TooManyTunnels))
    else
      match req
      case HttpRequest(sub) =>
        if !SubdomainAllowed(a.token.subdomains, sub) then (b, Rejected(SubdomainForbidden))
        else if sub in b.bySubdomain then (b, Rejected(SubdomainTaken))
        else
          var t := Tunnel(id, a, Subdomain(sub));
          (Register(b.(bySubdomain := b.bySubdomain[sub := t]), t), Opened(t))
      case TcpRequest(requested) =>
        match ClaimPort(b, cfg, a.token, requested)
        case Refused(why) => (b, Rejected(why))
        case Granted(port, hint) =>
          var t := Tunnel(id, a, Port(port));
          (b.(byPort := b.byPort[port := t], nextPortHint := hint, pending := b.pending + {t}), Binding(t))
  }

  /** The rest of `open`, once the bind is through. */
  function BindDone(b: Books, t: Tunnel, ok: bool): Books
    requires t in b.pending && t.place.Port?
  {
    if ok then Register(b.(pending := b.pending - {t}), t)
    else b.(byPort := b.byPort - {t.place.number}, pending := b.pending - {t})
  }

  function Close(b: Books, t: Tunnel): Books {
    if t.id !in b.byId then b
    else
      b.(byId := b.byId - {t.id},
         bySubdomain := if t.place.Subdomain? then b.bySubdomain - {t.place.name} else b.bySubdomain,
         byPort := if t.place.Port? then b.byPort - {t.place.number} else b.byPort,
         owned := b.owned[t.agent := Owned(b, t.agent) - {t.id}])
  }

  /** The tunnels `ids` of session `a` struck off all the books. */
  function Without(b: Books, a: Agent, ids: set<nat>): Books {
    b.(byId := b.byId - ids,
       bySubdomain := map s | s in b.bySubdomain && b.bySubdomain[s].id !in ids :: b.bySubdomain[s],
       byPort := map p | p in b.byPort && b.byPort[p].id !in ids :: b.byPort[p],
       owned := b.owned[a := Owned(b, a) - ids])
  }

  /** What a disconnect does. */
  function CloseAllFor(b: Books, a: Agent): Books {
    if a in b.owned then Without(b, a, b.owned[a].Keys) else b
  }

  // ---- the invariant -----------------------------------------------------------------

  predicate Registered(b: Books, t: Tunnel) {
    t.id in b.byId && b.byId[t.id] == t
  }

  /** `bySubdomain` is exactly the registered http tunnels. */
  ghost predicate SubdomainsAgree(b: Books) {
    && (forall s :: s in b.bySubdomain ==> b.bySubdomain[s].place == Subdomain(s) && Registered(b, b.bySubdomain[s]))
    && (forall id :: id in b.byId && b.byId[id].place.Subdomain? ==>
         b.byId[id].place.name in b.bySubdomain && b.bySubdomain[b.byId[id].place.name] == b.byId[id])
  }

  predicate OnPort(b: Books, t: Tunnel) {
    t.place.Port? && t.place.number in b.byPort && b.byPort[t.place.number] == t
  }

  /** `byPort` is exactly the registered tcp tunnels and those whose bind is pending. */
  ghost predicate PortsAgree(b: Books) {
    && (forall p :: p in b.byPort ==>
         b.byPort[p].place == Port(p) && (Registered(b, b.byPort[p]) || b.byPort[p] in b.pending))
    && (forall id :: id in b.byId && b.byId[id].place.Port? ==> OnPort(b, b.byId[id]))
    && (forall t :: t in b.pending ==> OnPort(b, t))
  }

  /** `byId` is the disjoint union of what the sessions own. */
  ghost predicate OwnersAgree(b: Books) {
    && (forall id :: id in b.byId ==> id in Owned(b, b.byId[id].agent) && Owned(b, b.byId[id].agent)[id] == b.byId[id])
    && (forall a, id :: a in b.owned && id in b.owned[a] ==>
         id in b.byId && b.byId[id] == b.owned[a][id] && b.byId[id].agent == a)
  }

  ghost predicate IdsAgree(b: Books) {
    && (forall id :: id in b.byId ==> b.byId[id].id == id)
    && (forall t :: t in b.pending ==> t.id !in b.byId)
    && (forall t, u :: t in b.pending && u in b.pending && t.id == u.id ==> t == u)
  }

  ghost predicate Inv(b: Books, cfg: Config) {
    && SubdomainsAgree(b) && PortsAgree(b) && OwnersAgree(b) && IdsAgree(b)
    && HintOk(b, cfg)
  }

  /** No tunnel has or is about to get this id. */
  predicate Unused(b: Books, id: nat) {
    id !in b.byId && forall t :: t in b.pending ==> t.id != id
  }

  // ---- runs --------------------------------------------------------------------------

  /** What can happen between the awaits, in any order. */
  datatype Step =
    | Asks(agent: Agent, req: Request, id: nat)
    | Bound(tunnel: Tunnel, ok: bool)
    | Closes(tunnel: Tunnel)
    | Disconnects(agent: Agent)

  predicate Can(b: Books, cfg: Config, s: Step) {
    match s
    case Asks(_, _, id) => Unused(b, id) && HintOk(b, cfg)
    case Bound(t, _) => t in b.pending && t.place.Port?
    case Closes(t) => t.id in b.byId ==> b.byId[t.id] == t
    case Disconnects(_) => true
  }

  function Next(b: Books, cfg: Config, s: Step): Books
    requires Can(b, cfg, s)
  {
    match s
    case Asks(a, req, id) => Open(b, cfg, a, req, id).0
    case Bound(t, ok) => BindDone(b, t, ok)
    case Closes(t) => Close(b, t)
    case Disconnects(a) => CloseAllFor(b, a)
  }

  predicate Runs(b: Books, cfg: Config, steps: seq<Step>)
    decreases |steps|
  {
    steps == [] || (Can(b, cfg, steps[0]) && Runs(Next(b, cfg, steps[0]), cfg, steps[1..]))
  }

  function After(b: Books, cfg: Config, steps: seq<Step>): Books
    requires Runs(b, cfg, steps)
    decreases |steps|
  {
    if steps == [] then b else After(Next(b, cfg, steps[0]), cfg, steps[1..])
  }

  // ---- every step keeps the books ----------------------------------------------------

  lemma ClaimedPort(b: Books, cfg: Config, token: Token, requested: Option<int>)
    requires HintOk(b, cfg)
    ensures var c := ClaimPort(b, cfg, token, requested);
            c.Granted? ==>
              && c.port !in b.byPort && cfg.tcpPortMin <= c.port <= cfg.tcpPortMax
              && cfg.tcpPortMin <= c.hint <= cfg.tcpPortMax
  {
    var (min, max) := RangeOf(cfg, token);
    ClaimIsFree(b.byPort.Keys, cfg.tcpPortMin, cfg.tcpPortMax, min, max, b.nextPortHint);
  }

  lemma RegisterOwners(b: Books, t: Tunnel)
    requires OwnersAgree(b) && t.id !in b.byId
    ensures OwnersAgree(Register(b, t))
  {
  }

  lemma RegisterIds(b: Books, t: Tunnel)
    requires IdsAgree(b) && Unused(b, t.id)
    ensures IdsAgree(Register(b, t))
  {
  }

  /** `t` becomes a registered tunnel of a subdomain or a port that already leads to it. */
  lemma RegisterPlaces(b: Books, t: Tunnel)
    requires SubdomainsAgree(
               b.(bySubdomain := if t.place.Subdomain? then b.bySubdomain - {t.place.name} else b.bySubdomain))
    requires t.place.Subdomain? ==> t.place.name in b.bySubdomain && b.bySubdomain[t.place.name] == t
    requires t.id !in b.byId
    ensures SubdomainsAgree(Register(b, t))
  {
    var c := Register(b, t);
    forall s | s in c.bySubdomain ensures c.bySubdomain[s].place == Subdomain(s) && Registered(c, c.bySubdomain[s]) {
      if t.place != Subdomain(s) {
        assert b.bySubdomain[s].place == Subdomain(s) && Registered(b, b.bySubdomain[s]);
      }
    }
  }

  lemma OpenHttpPorts(b: Books, t: Tunnel)
    requires PortsAgree(b) && t.place.Subdomain? && t.id !in b.byId
    ensures PortsAgree(Register(b.(bySubdomain := b.bySubdomain[t.place.name := t]), t))
  {
  }

  lemma OpenHttp(b: Books, cfg: Config, t: Tunnel)
    requires Inv(b, cfg) && t.place.Subdomain? && t.place.name !in b.bySubdomain && Unused(b, t.id)
    ensures Inv(Register(b.(bySubdomain := b.bySubdomain[t.place.name := t]), t), cfg)
  {
    hide SubdomainsAgree, PortsAgree, OwnersAgree, IdsAgree;
    var c := b.(bySubdomain := b.bySubdomain[t.place.name := t]);
    assert c.bySubdomain - {t.place.name} == b.bySubdomain;
    SameOwners(b, c);
    SameIds(b, c);
    RegisterOwners(c, t);
    RegisterIds(c, t);
    RegisterPlaces(c, t);
    OpenHttpPorts(b, t);
  }

  lemma SameOwners(b: Books, c: Books)
    requires OwnersAgree(b) && c.byId == b.byId && c.owned == b.owned
    ensures OwnersAgree(c)
  {
  }

  lemma SameIds(b: Books, c: Books)
    requires IdsAgree(b) && c.byId == b.byId && c.pending <= b.pending
    ensures IdsAgree(c)
  {
  }

  lemma SameSubdomains(b: Books, c: Books)
    requires SubdomainsAgree(b) && c.byId == b.byId && c.bySubdomain == b.bySubdomain
    ensures SubdomainsAgree(c)
  {
  }

  lemma OpenTcp(b: Books, cfg: Config, t: Tunnel, hint: int)
    requires Inv(b, cfg) && t.place.Port? && t.place.number !in b.byPort && Unused(b, t.id)
    requires cfg.tcpPortMin <= hint <= cfg.tcpPortMax
    ensures Inv(b.(byPort := b.byPort[t.place.number := t], nextPortHint := hint, pending := b.pending + {t}), cfg)
  {
    hide SubdomainsAgree, OwnersAgree;
    var c := b.(byPort := b.byPort[t.place.number := t], nextPortHint := hint, pending := b.pending + {t});
    SameSubdomains(b, c);
    SameOwners(b, c);
  }

  lemma BindPorts(b: Books, t: Tunnel)
    requires PortsAgree(b) && IdsAgree(b) && t in b.pending
    ensures PortsAgree(Register(b.(pending := b.pending - {t}), t))
  {
    var c := Register(b.(pending := b.pending - {t}), t);
    forall id | id in c.byId && c.byId[id].place.Port? ensures OnPort(c, c.byId[id]) {
      if id != t.id { assert OnPort(b, b.byId[id]); }
    }
  }

  lemma FailPorts(b: Books, t: Tunnel)
    requires PortsAgree(b) && IdsAgree(b) && t in b.pending && t.place.Port?
    ensures PortsAgree(BindDone(b, t, false))
  {
  }

  lemma BindKeeps(b: Books, cfg: Config, t: Tunnel, ok: bool)
    requires Inv(b, cfg) && t in b.pending && t.place.Port?
    ensures Inv(BindDone(b, t, ok), cfg)
  {
    hide SubdomainsAgree, PortsAgree, OwnersAgree;
    var c := b.(pending := b.pending - {t});
    SameIds(b, c);
    SameOwners(b, c);
    SameSubdomains(b, c);
    if ok {
      RegisterOwners(c, t);
      RegisterIds(c, t);
      RegisterPlaces(c, t);
      BindPorts(b, t);
    } else {
      SameOwners(b, BindDone(b, t, ok));
      SameIds(b, BindDone(b, t, ok));
      SameSubdomains(b, BindDone(b, t, ok));
      FailPorts(b, t);
    }
  }

  lemma OwnedIds(b: Books, a: Agent, ids: set<nat>)
    requires OwnersAgree(b) && ids <= Owned(b, a).Keys
    ensures forall id :: id in ids ==> id in b.byId && b.byId[id] == Owned(b, a)[id] && b.byId[id].agent == a
  {
  }

  lemma WithoutOwners(b: Books, a: Agent, ids: set<nat>)
    requires OwnersAgree(b) && ids <= Owned(b, a).Keys
    ensures OwnersAgree(Without(b, a, ids)) && Owned(Without(b, a, ids), a) == Owned(b, a) - ids
  {
    OwnedIds(b, a, ids);
  }

  lemma WithoutPorts(b: Books, a: Agent, ids: set<nat>)
    requires PortsAgree(b) && IdsAgree(b) && ids <= b.byId.Keys
    ensures PortsAgree(Without(b, a, ids))
  {
    var c := Without(b, a, ids);
    forall t | t in c.pending ensures OnPort(c, t) { assert OnPort(b, t); }
    forall id | id in c.byId && c.byId[id].place.Port? ensures OnPort(c, c.byId[id]) { assert OnPort(b, b.byId[id]); }
  }

  lemma WithoutSubdomains(b: Books, a: Agent, ids: set<nat>)
    requires SubdomainsAgree(b) && IdsAgree(b) && ids <= b.byId.Keys
    ensures SubdomainsAgree(Without(b, a, ids))
  {
  }

  lemma WithoutKeeps(b: Books, cfg: Config, a: Agent, ids: set<nat>)
    requires Inv(b, cfg) && ids <= Owned(b, a).Keys
    ensures Inv(Without(b, a, ids), cfg) && Owned(Without(b, a, ids), a) == Owned(b, a) - ids
  {
    hide SubdomainsAgree, PortsAgree, OwnersAgree;
    OwnedIds(b, a, ids);
    WithoutOwners(b, a, ids);
    WithoutPorts(b, a, ids);
    WithoutSubdomains(b, a, ids);
  }

  /** What has the id of a registered tunnel is that tunnel. */
  lemma OneOfItsId(b: Books, t: Tunnel)
    requires SubdomainsAgree(b) && PortsAgree(b) && IdsAgree(b) && Registered(b, t)
    ensures forall p :: p in b.byPort ==> (b.byPort[p].id == t.id <==> t.place == Port(p))
    ensures forall s :: s in b.bySubdomain ==> (b.bySubdomain[s].id == t.id <==> t.place == Subdomain(s))
  {
    forall p | p in b.byPort ensures b.byPort[p].id == t.id <==> t.place == Port(p) {
      if b.byPort[p].id == t.id { assert Registered(b, b.byPort[p]); }
      if t.place == Port(p) { assert OnPort(b, b.byId[t.id]); }
    }
  }

  /** Closing one more tunnel of the session strikes off exactly that one. */
  lemma CloseOneMore(b: Books, a: Agent, ids: set<nat>, id: nat, cfg: Config)
    requires Inv(b, cfg) && ids <= Owned(b, a).Keys && id in Owned(b, a) && id !in ids
    ensures Close(Without(b, a, ids), Owned(b, a)[id]) == Without(b, a, ids + {id})
  {
    OwnedIds(b, a, Owned(b, a).Keys);
    OneOfItsId(b, Owned(b, a)[id]);
    hide SubdomainsAgree, PortsAgree, OwnersAgree;
    StrikeOne(b, a, ids, Owned(b, a)[id]);
  }

  lemma StrikePort(b: Books, a: Agent, ids: set<nat>, t: Tunnel)
    requires Registered(b, t) && t.id !in ids
    requires forall p :: p in b.byPort ==> (b.byPort[p].id == t.id <==> t.place == Port(p))
    ensures Close(Without(b, a, ids), t).byPort == Without(b, a, ids + {t.id}).byPort
  {
    hide Owned;
  }

  lemma StrikeSubdomain(b: Books, a: Agent, ids: set<nat>, t: Tunnel)
    requires Registered(b, t) && t.id !in ids
    requires forall s :: s in b.bySubdomain ==> (b.bySubdomain[s].id == t.id <==> t.place == Subdomain(s))
    ensures Close(Without(b, a, ids), t).bySubdomain == Without(b, a, ids + {t.id}).bySubdomain
  {
    hide Owned;
  }

  lemma StrikeOne(b: Books, a: Agent, ids: set<nat>, t: Tunnel)
    requires Registered(b, t) && t.agent == a && t.id !in ids
    requires forall p :: p in b.byPort ==> (b.byPort[p].id == t.id <==> t.place == Port(p))
    requires forall s :: s in b.bySubdomain ==> (b.bySubdomain[s].id == t.id <==> t.place == Subdomain(s))
    ensures Close(Without(b, a, ids), t) == Without(b, a, ids + {t.id})
  {
    var c, d := Without(b, a, ids), Without(b, a, ids + {t.id});
    var e := Close(c, t);
    assert e.byId == d.byId;
    StrikeSubdomain(b, a, ids, t);
    StrikePort(b, a, ids, t);
    assert Owned(b, a) - ids - {t.id} == Owned(b, a) - (ids + {t.id});
  }

  /** Closing a registered tunnel strikes off just that one. */
  lemma CloseIsWithout(b: Books, cfg: Config, t: Tunnel)
    requires Inv(b, cfg) && Registered(b, t)
    ensures t.id in Owned(b, t.agent) && Close(b, t) == Without(b, t.agent, {t.id})
  {
    OneOfItsId(b, t);
    hide SubdomainsAgree, PortsAgree;
    assert t.id in Owned(b, t.agent);
    StrikeNone(b, t.agent);
    var none: set<nat> := {};
    StrikeOne(b, t.agent, none, t);
    assert none + {t.id} == {t.id};
  }

  lemma StrikeNone(b: Books, a: Agent)
    requires a in b.owned
    ensures Without(b, a, {}) == b
  {
    var c := Without(b, a, {});
    assert c.byId == b.byId;
    assert c.bySubdomain == b.bySubdomain;
    assert c.byPort == b.byPort;
    assert b.owned[a] - {} == b.owned[a];
    assert c.owned == b.owned;
  }

  lemma OpenKeeps(b: Books, cfg: Config, a: Agent, req: Request, id: nat)
    requires Inv(b, cfg) && Unused(b, id)
    ensures Inv(Open(b, cfg, a, req, id).0, cfg)
  {
    hide SubdomainsAgree, PortsAgree, OwnersAgree, IdsAgree, ClaimPort, Register;
    match req {
      case HttpRequest(sub) =>
        if sub !in b.bySubdomain { OpenHttp(b, cfg, Tunnel(id, a, Subdomain(sub))); }
      case TcpRequest(requested) =>
        var c := ClaimPort(b, cfg, a.token, requested);
        ClaimedPort(b, cfg, a.token, requested);
        if c.Granted? { OpenTcp(b, cfg, Tunnel(id, a, Port(c.port)), c.hint); }
    }
  }

  lemma StepKeeps(b: Books, cfg: Config, s: Step)
    requires Inv(b, cfg) && Can(b, cfg, s)
    ensures Inv(Next(b, cfg, s), cfg)
  {
    hide SubdomainsAgree, PortsAgree, OwnersAgree, IdsAgree, Open, BindDone, Without;
    match s {
      case Asks(a, req, id) => OpenKeeps(b, cfg, a, req, id);
      case Bound(t, ok) => BindKeeps(b, cfg, t, ok);
      case Closes(t) =>
        if t.id in b.byId {
          CloseIsWithout(b, cfg, t);
          WithoutKeeps(b, cfg, t.agent, {t.id});
        }
      case Disconnects(a) => if a in b.owned { WithoutKeeps(b, cfg, a, b.owned[a].Keys); }
    }
  }

  /** Under every interleaving of opens, binds that succeed or fail, closes and disconnects
      the three indices and the sessions' own maps tell the same story. */
  lemma {:induction false} BooksAgree(b: Books, cfg: Config, steps: seq<Step>)
    requires Inv(b, cfg) && Runs(b, cfg, steps)
    ensures Inv(After(b, cfg, steps), cfg)
    decreases |steps|
  {
    if steps != [] {
      StepKeeps(b, cfg, steps[0]);
      BooksAgree(Next(b, cfg, steps[0]), cfg, steps[1..]);
    }
  }

  lemma EmptyBooks(cfg: Config)
    requires cfg.tcpPortMin <= cfg.tcpPortMax
    ensures Inv(Empty(cfg), cfg)
  {
  }
}
