/** Many streams over one WebSocket: each session keeps its ends in a map and all frames of
    a direction share one FIFO. Every stream of it behaves as if it were alone. */
module Mux {
  import opened Frames
  import opened Endpoint
  import opened EndpointProofs
  import opened Channel
  import opened Options

  type Ends = map<nat, End>

  /** A session's ends after it handled something, and the frames it sent. */
  datatype Half = Half(ends: Ends, sent: seq<Frame>)

  // ---- one session -------------------------------------------------------------------

  function OnEvent(ends: Ends, id: nat, ev: Event): Half
    requires id in ends && Enabled(ends[id], ev)
  {
    var o := Handle(ends[id], ev);
    Half(ends[id := o.e], Tag(id, o.sent))
  }

  /** A stream frame other than OPEN. Unknown and finished streams are treated alike. */
  function OnFrame(ends: Ends, f: Frame, flushed: bool): Half {
    if f.id in ends then
      var o := Receive(ends[f.id], f.msg, flushed);
      Half(ends[f.id := o.e], Tag(f.id, o.sent))
    else
      Half(ends, if f.msg.Reset? then [] else [Frame(f.id, Reset)])
  }

  /** OPEN at the agent: `spec` is the tunnel it names, if the agent serves it. */
  function OnOpen(ends: Ends, id: nat, spec: Option<Role>, window: int, congested: bool): Half {
    match spec
    case None => Half(ends, [Frame(id, Reset)])
    case Some(role) => Half(ends[id := SetGlobalPause(NewEnd(role, window), congested)], [])
  }

  /** Congestion of the shared socket pauses or releases every stream. */
  function PauseAll(ends: Ends, on: bool): Ends {
    map id | id in ends :: SetGlobalPause(ends[id], on)
  }

  // ---- both sessions -----------------------------------------------------------------

  /** `roles` is what each opened stream is for; `seen` the streams whose OPEN frame the
      agent has processed, whether or not it accepted it. */
  datatype Net = Net(
    window: int, roles: map<nat, Role>, server: Ends, agent: Ends, seen: set<nat>,
    down: seq<Frame>, up: seq<Frame>)

  datatype NetAction =
    | Accept(id: nat, role: Role, preread: Bytes, congested: bool, congests: bool)
    | ServerEvent(id: nat, ev: Event)
    | AgentEvent(id: nat, ev: Event)
    | ServerCongestion(on: bool)
    | AgentCongestion(on: bool)
    | FrameToAgent(flushed: bool, accept: bool, congested: bool)
    | FrameToServer(flushed: bool)

  function Idle(window: int): Net {
    Net(window, map[], map[], map[], {}, [], [])
  }

  predicate NetCan(n: Net, a: NetAction) {
    match a
    case Accept(id, role, _, _, _) => id !in n.server && id !in n.roles && role.agent
    case ServerEvent(id, ev) => id in n.server && Enabled(n.server[id], ev)
    case AgentEvent(id, ev) => id in n.agent && Enabled(n.agent[id], ev)
    case FrameToAgent(_, _, _) => n.down != [] && n.down[0].id in n.roles
    case FrameToServer(_) => n.up != []
    case _ => true
  }

  function NetNext(n: Net, a: NetAction): Net
    requires NetCan(n, a)
  {
    match a
    case Accept(id, role, preread, congested, congests) =>
      var o := OpenServer(n.window, preread, congested, congests);
      n.(roles := n.roles[id := role], server := n.server[id := o.e], down := n.down + Tag(id, [Open] + o.sent))
    case ServerEvent(id, ev) =>
      var h := OnEvent(n.server, id, ev);
      n.(server := h.ends, down := n.down + h.sent)
    case AgentEvent(id, ev) =>
      var h := OnEvent(n.agent, id, ev);
      n.(agent := h.ends, up := n.up + h.sent)
    case ServerCongestion(on) => n.(server := PauseAll(n.server, on))
    case AgentCongestion(on) => n.(agent := PauseAll(n.agent, on))
    case FrameToAgent(flushed, accept, congested) =>
      var f := n.down[0];
      var h := if f.msg.Open?
               then OnOpen(n.agent, f.id, if accept then Some(n.roles[f.id]) else None, n.window, congested)
               else OnFrame(n.agent, f, flushed);
      n.(agent := h.ends, seen := if f.msg.Open? then n.seen + {f.id} else n.seen,
         down := n.down[1..], up := n.up + h.sent)
    case FrameToServer(flushed) =>
      var h := OnFrame(n.server, n.up[0], flushed);
      n.(server := h.ends, up := n.up[1..], down := n.down + h.sent)
  }

  predicate NetRuns(n: Net, acts: seq<NetAction>)
    decreases |acts|
  {
    acts == [] || (NetCan(n, acts[0]) && NetRuns(NetNext(n, acts[0]), acts[1..]))
  }

  function NetAfter(n: Net, acts: seq<NetAction>): Net
    requires NetRuns(n, acts)
    decreases |acts|
  {
    if acts == [] then n else NetAfter(NetNext(n, acts[0]), acts[1..])
  }

  // ---- one stream of it --------------------------------------------------------------

  /** The agent's end of a stream: not yet there, refused, or in the map. */
  function AgentEnd(n: Net, id: nat): End
    requires id in n.roles
  {
    if id in n.agent then n.agent[id]
    else if id in n.seen then Finish(NewEnd(n.roles[id], n.window))
    else NewEnd(n.roles[id], n.window)
  }

  function View(n: Net, id: nat): Chan
    requires id in n.roles && id in n.server
  {
    Chan(n.window, id in n.seen, n.server[id], AgentEnd(n, id), Only(n.down, id), Only(n.up, id))
  }

  ghost predicate KnownIds(n: Net, q: seq<Frame>) {
    forall i :: 0 <= i < |q| ==> q[i].id in n.roles
  }

  ghost predicate Keyed(n: Net) {
    && n.roles.Keys == n.server.Keys
    && n.agent.Keys <= n.seen <= n.roles.Keys
    && KnownIds(n, n.down) && KnownIds(n, n.up)
  }

  ghost predicate Sound(n: Net, id: nat) {
    id in n.roles && id in n.server && Inv(View(n, id))
  }

  ghost predicate NetInv(n: Net) {
    Keyed(n) && forall id {:trigger Sound(n, id)} :: id in n.roles ==> Sound(n, id)
  }

  /** What an action of the network is for stream `id`, if anything. */
  function ActionFor(n: Net, a: NetAction, id: nat): Option<Action>
    requires NetCan(n, a)
  {
    match a
    case Accept(_, _, _, _, _) => None
    case ServerEvent(j, ev) => if j == id then Some(AtServer(ev)) else None
    case AgentEvent(j, ev) => if j == id then Some(AtAgent(ev)) else None
    case ServerCongestion(on) => Some(AtServer(Congested(on)))
    case AgentCongestion(on) => if id in n.agent then Some(AtAgent(Congested(on))) else None
    case FrameToAgent(flushed, accept, congested) =>
      if n.down[0].id == id then Some(ToAgent(flushed, accept, congested)) else None
    case FrameToServer(flushed) =>
      if n.up[0].id == id then Some(ToServer(flushed)) else None
  }

  /** The view of a stream takes exactly its own action, and no other. */
  ghost predicate Projects(n: Net, a: NetAction, id: nat)
    requires id in n.roles && id in n.server && NetCan(n, a)
  {
    var m := NetNext(n, a);
    && id in m.roles && id in m.server
    && match ActionFor(n, a, id)
       case None => View(m, id) == View(n, id)
       case Some(b) => CanDo(View(n, id), b) && View(m, id) == Next(View(n, id), b)
  }

  lemma {:induction false} NoFrames(q: seq<Frame>, id: nat)
    requires forall i :: 0 <= i < |q| ==> q[i].id != id
    ensures Only(q, id) == []
  {
    if q != [] { NoFrames(q[1..], id); }
  }

  /** Taking the front frame of a queue takes it from its own stream, if it is that one. */
  lemma OnlyHead(q: seq<Frame>, id: nat)
    requires q != []
    ensures if q[0].id == id
            then Only(q, id) != [] && Only(q, id)[0] == q[0].msg && Only(q, id)[1..] == Only(q[1..], id)
            else Only(q, id) == Only(q[1..], id)
  {
  }

  lemma TagOne(id: nat)
    ensures Tag(id, [Reset]) == [Frame(id, Reset)] && Tag(id, []) == []
  {
  }

  lemma SendDown(n: Net, j: nat, sent: seq<Msg>, id: nat)
    ensures Only(n.down + Tag(j, sent), id) == if j == id then Only(n.down, id) + sent else Only(n.down, id)
    ensures Only(n.up + Tag(j, sent), id) == if j == id then Only(n.up, id) + sent else Only(n.up, id)
  {
    OnlyAppend(n.down, Tag(j, sent), id);
    OnlyAppend(n.up, Tag(j, sent), id);
    OnlyTag(j, sent, id);
  }

  lemma ProjectAccept(n: Net, a: NetAction, id: nat)
    requires Keyed(n) && NetCan(n, a) && a.Accept? && id in n.roles
    ensures Projects(n, a, id)
  {
    SendDown(n, a.id, [Open] + OpenServer(n.window, a.preread, a.congested, a.congests).sent, id);
  }

  lemma ProjectServerEvent(n: Net, a: NetAction, id: nat)
    requires Keyed(n) && NetCan(n, a) && a.ServerEvent? && id in n.roles
    ensures Projects(n, a, id)
  {
    SendDown(n, a.id, Handle(n.server[a.id], a.ev).sent, id);
  }

  lemma ProjectAgentEvent(n: Net, a: NetAction, id: nat)
    requires Keyed(n) && NetCan(n, a) && a.AgentEvent? && id in n.roles
    ensures Projects(n, a, id)
  {
    SendDown(n, a.id, Handle(n.agent[a.id], a.ev).sent, id);
  }

  lemma ProjectCongestion(n: Net, a: NetAction, id: nat)
    requires Keyed(n) && NetCan(n, a) && (a.ServerCongestion? || a.AgentCongestion?) && id in n.roles
    ensures Projects(n, a, id)
  {
    var x := View(n, id);
    assert x.down + [] == x.down && x.up + [] == x.up;
  }

  lemma ProjectToServer(n: Net, a: NetAction, id: nat)
    requires Keyed(n) && NetCan(n, a) && a.FrameToServer? && id in n.roles
    ensures Projects(n, a, id)
  {
    hide Receive, NewEnd, Only, Tag;
    var f := n.up[0];
    OnlyHead(n.up, id);
    SendDown(n, f.id, Receive(n.server[f.id], f.msg, a.flushed).sent, id);
  }

  lemma ProjectToAgent(n: Net, a: NetAction, id: nat)
    requires Keyed(n) && NetCan(n, a) && a.FrameToAgent? && id in n.roles
    requires n.down[0].msg.Open? ==> n.down[0].id !in n.seen
    requires !n.down[0].msg.Open? ==> n.down[0].id in n.seen
    ensures Projects(n, a, id)
  {
    hide Receive, SetGlobalPause, Only, Tag;
    var f := n.down[0];
    if f.msg.Open? {
      OnlyHead(n.down, id);
      SendDown(n, f.id, if a.accept then [] else [Reset], id);
      TagOne(f.id);
      assert n.up + [] == n.up;
    } else {
      ProjectOther(n, a, id);
    }
  }

  /** A refused stream answers as an unknown one does. */
  lemma DeadReceive(n: Net, id: nat, m: Msg, flushed: bool)
    requires id in n.roles && id in n.seen && id !in n.agent
    ensures Receive(AgentEnd(n, id), m, flushed) == Out(AgentEnd(n, id), if m.Reset? then [] else [Reset])
  {
  }

  lemma ProjectOther(n: Net, a: NetAction, id: nat)
    requires Keyed(n) && NetCan(n, a) && a.FrameToAgent? && id in n.roles
    requires !n.down[0].msg.Open? && n.down[0].id in n.seen
    ensures Projects(n, a, id)
  {
    hide Receive, NewEnd, Only, Tag;
    var f := n.down[0];
    OnlyHead(n.down, id);
    SendDown(n, f.id, Receive(AgentEnd(n, f.id), f.msg, a.flushed).sent, id);
    if f.id !in n.agent {
      DeadReceive(n, f.id, f.msg, a.flushed);
      TagOne(f.id);
    }
    var m := NetNext(n, a);
    var o := Receive(AgentEnd(n, f.id), f.msg, a.flushed);
    assert OnFrame(n.agent, f, a.flushed).sent == Tag(f.id, o.sent);
    assert AgentEnd(m, f.id) == o.e;
    if f.id == id {
      assert CanDo(View(n, id), ToAgent(a.flushed, a.accept, a.congested));
      assert View(m, id) == Next(View(n, id), ToAgent(a.flushed, a.accept, a.congested));
    }
  }

  lemma FrontOfView(n: Net)
    requires NetInv(n) && n.down != []
    ensures n.down[0].msg.Open? <==> n.down[0].id !in n.seen
  {
    assert Sound(n, n.down[0].id);
    var x := View(n, n.down[0].id);
    assert x.down[0] == n.down[0].msg;
    assert x.down[0] in x.down;
  }

  lemma ProjectAny(n: Net, a: NetAction, id: nat)
    requires Keyed(n) && NetCan(n, a) && id in n.roles
    requires a.FrameToAgent? ==> (n.down[0].msg.Open? <==> n.down[0].id !in n.seen)
    ensures Projects(n, a, id)
  {
    if a.Accept? { ProjectAccept(n, a, id); }
    else if a.FrameToAgent? { ProjectToAgent(n, a, id); }
    else if a.FrameToServer? { ProjectToServer(n, a, id); }
    else if a.ServerEvent? { ProjectServerEvent(n, a, id); }
    else if a.AgentEvent? { ProjectAgentEvent(n, a, id); }
    else { ProjectCongestion(n, a, id); }
  }

  /** The shared FIFOs never let one stream's frames touch another stream: each action of
      the network is one action of one stream's own channel, or, for congestion, one of
      each, and everything else stays as it is. */
  lemma Projection(n: Net, a: NetAction, id: nat)
    requires NetInv(n) && NetCan(n, a) && id in n.roles
    ensures Projects(n, a, id)
  {
    if a.FrameToAgent? { FrontOfView(n); }
    ProjectAny(n, a, id);
  }

  lemma FreshView(n: Net, a: NetAction)
    requires Keyed(n) && NetCan(n, a) && a.Accept?
    ensures var m := NetNext(n, a);
            a.id in m.roles && a.id in m.server &&
            View(m, a.id) == Start(n.window, a.role, a.preread, a.congested, a.congests)
  {
    var o := OpenServer(n.window, a.preread, a.congested, a.congests);
    NoFrames(n.down, a.id);
    NoFrames(n.up, a.id);
    OnlyAppend(n.down, Tag(a.id, [Open] + o.sent), a.id);
    OnlyTag(a.id, [Open] + o.sent, a.id);
  }

  lemma NetKeepsIds(n: Net, a: NetAction)
    requires Keyed(n) && NetCan(n, a)
    ensures Keyed(NetNext(n, a))
    ensures var m := NetNext(n, a);
            && m.window == n.window && n.roles.Keys <= m.roles.Keys
            && m.roles.Keys == (if a.Accept? then n.roles.Keys + {a.id} else n.roles.Keys)
  {
  }

  lemma NetStep(n: Net, a: NetAction)
    requires NetInv(n) && NetCan(n, a)
    ensures NetInv(NetNext(n, a)) && NetNext(n, a).window == n.window
    ensures n.roles.Keys <= NetNext(n, a).roles.Keys
  {
    NetKeepsIds(n, a);
    var m := NetNext(n, a);
    forall id | id in m.roles ensures Sound(m, id) {
      if id in n.roles {
        assert Sound(n, id);
        Projection(n, a, id);
        if ActionFor(n, a, id).Some? { StepKeepsInv(View(n, id), ActionFor(n, a, id).value); }
      } else {
        FreshView(n, a);
        StartInv(n.window, a.role, a.preread, a.congested, a.congests);
      }
    }
  }

  /** `b` is what `a` means for some stream. */
  predicate Instance(a: NetAction, b: Action) {
    match b
    case AtServer(ev) => (a.ServerEvent? && a.ev == ev) || (a.ServerCongestion? && ev == Congested(a.on))
    case AtAgent(ev) => (a.AgentEvent? && a.ev == ev) || (a.AgentCongestion? && ev == Congested(a.on))
    case ToAgent(f, acc, con) => a == FrameToAgent(f, acc, con)
    case ToServer(f) => a == FrameToServer(f)
  }

  ghost predicate FromSome(acts: seq<NetAction>, b: Action) {
    exists a :: a in acts && Instance(a, b)
  }

  ghost predicate Instances(acts: seq<NetAction>, own: seq<Action>) {
    forall i :: 0 <= i < |own| ==> FromSome(acts, own[i])
  }

  lemma MoreInstances(acts: seq<NetAction>, own: seq<Action>)
    requires acts != [] && Instances(acts[1..], own)
    ensures Instances(acts, own)
  {
    forall i | 0 <= i < |own| ensures FromSome(acts, own[i]) {
      var a :| a in acts[1..] && Instance(a, own[i]);
      assert a in acts;
    }
  }

  /** The channel actions of stream `id` during a run of the network. */
  ghost function Trace(n: Net, acts: seq<NetAction>, id: nat): seq<Action>
    requires NetRuns(n, acts)
    decreases |acts|
  {
    if acts == [] then []
    else
      var rest := Trace(NetNext(n, acts[0]), acts[1..], id);
      match ActionFor(n, acts[0], id)
      case None => rest
      case Some(b) => if id in n.roles then [b] + rest else rest
  }

  lemma {:induction false} TraceInstances(n: Net, acts: seq<NetAction>, id: nat)
    requires NetRuns(n, acts)
    ensures Instances(acts, Trace(n, acts, id))
    decreases |acts|
  {
    if acts != [] {
      TraceInstances(NetNext(n, acts[0]), acts[1..], id);
      MoreInstances(acts, Trace(NetNext(n, acts[0]), acts[1..], id));
      if ActionFor(n, acts[0], id).Some? {
        assert acts[0] in acts && Instance(acts[0], ActionFor(n, acts[0], id).value);
        assert FromSome(acts, ActionFor(n, acts[0], id).value);
      }
    }
  }

  /** A run of the network, seen by one open stream, is a run of that stream's channel. */
  lemma {:induction false} StreamRuns(n: Net, acts: seq<NetAction>, id: nat)
    requires NetInv(n) && NetRuns(n, acts) && id in n.roles
    ensures var m := NetAfter(n, acts);
            && NetInv(m) && id in m.roles && id in m.server
            && Runs(View(n, id), Trace(n, acts, id))
            && After(View(n, id), Trace(n, acts, id)) == View(m, id)
    decreases |acts|
  {
    if acts != [] {
      NetStep(n, acts[0]);
      Projection(n, acts[0], id);
      StreamRuns(NetNext(n, acts[0]), acts[1..], id);
      var rest := Trace(NetNext(n, acts[0]), acts[1..], id);
      if ActionFor(n, acts[0], id).Some? {
        var b := ActionFor(n, acts[0], id).value;
        assert ([b] + rest)[0] == b && ([b] + rest)[1..] == rest;
      }
    }
  }

  /** Every stream that exists after a run of the network, however many others were
      interleaved with it, is a stream that ran alone: from some opening of it through the
      actions that concern it. All that is proved of a channel thus holds of it. */
  lemma {:induction false} EachStreamIsAlone(n: Net, acts: seq<NetAction>, id: nat)
    returns (a: NetAction, own: seq<Action>)
    requires NetInv(n) && NetRuns(n, acts)
    requires id !in n.roles && id in NetAfter(n, acts).roles
    ensures var m := NetAfter(n, acts);
            && NetInv(m) && id in m.server && a in acts && a.Accept? && a.id == id && a.role.agent
            && Runs(Start(n.window, a.role, a.preread, a.congested, a.congests), own)
            && After(Start(n.window, a.role, a.preread, a.congested, a.congests), own) == View(m, id)
            && Instances(acts, own)
    decreases |acts|
  {
    NetStep(n, acts[0]);
    var m := NetNext(n, acts[0]);
    if id in m.roles {
      a := acts[0];
      NetKeepsIds(n, a);
      FreshView(n, a);
      own := Trace(m, acts[1..], id);
      StreamRuns(m, acts[1..], id);
      TraceInstances(m, acts[1..], id);
    } else {
      a, own := EachStreamIsAlone(m, acts[1..], id);
    }
    MoreInstances(acts, own);
  }

  lemma IdleInv(window: int)
    ensures NetInv(Idle(window))
  {
  }
}
