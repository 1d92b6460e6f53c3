/** One session from both sides: the server's AgentSession and the agent's Agent joined by their
    WebSocket, over any schedule of connections, deliveries, socket events and polls. Whatever
    the methods of the two do is a run of the network of Mux. */
module JointRuns {
  import opened ChannelTheorems
  import opened ClientSession
  import opened ClientStream
  import opened Endpoint
  import opened Frames
  import opened Mux
  import opened MuxTheorems
  import opened Options
  import opened ServerSession
  import opened ServerStream

  /** What the two event loops bring. Tunnels and streams are named by their place in the lists
      of those that there are. */
  datatype Happening =
    | Connection(tunnel: nat, preread: Bytes, afterOpen: int, afterHead: int)
    | AtPublic(stream: nat, ev: Event, queued: int)
    | AtLocal(stream: nat, ev: Event, queued: int)
    | Downward(answer: bool, buffered: int)
    | Upward(answer: bool, buffered: int)
    | ServerPoll(level: int)
    | AgentPoll(level: int)
    | TunnelAnswer(reqId: nat, tunnel: nat)

  /** How many frames were delivered each way, the tunnel each OPEN frame names, and all streams
      whose sockets still have listeners. */
  datatype Wire = Wire(down: nat, up: nat, named: map<nat, nat>, public: seq<Stream>, local: seq<ClientStream>)

  // ---- the network's side ------------------------------------------------------------

  /** The WebSocket of one side fills up beyond the limit. */
  function Rise(server: bool, newly: bool): seq<NetAction> {
    if !newly then [] else [if server then ServerCongestion(true) else AgentCongestion(true)]
  }

  function Risen(n: Net, server: bool, newly: bool): Net {
    if !newly then n
    else if server then n.(server := PauseAll(n.server, true))
    else n.(agent := PauseAll(n.agent, true))
  }

  lemma NoActs(n: Net)
    ensures NetRuns(n, []) && NetAfter(n, []) == n
  {
  }

  lemma OneAct(n: Net, act: NetAction)
    requires NetCan(n, act)
    ensures NetRuns(n, [act]) && NetAfter(n, [act]) == NetNext(n, act)
  {
    hide NetCan, NetNext;
    var m := NetNext(n, act);
    var rest := [act][1..];
    assert rest == [];
    assert NetRuns(m, rest) && NetAfter(m, rest) == m;
  }

  /** An action, after which its sender may be congested. */
  lemma ActThenRise(n: Net, act: NetAction, server: bool, newly: bool)
    requires NetInv(n) && NetCan(n, act)
    ensures var acts := [act] + Rise(server, newly);
            && NetRuns(n, acts) && NetInv(NetAfter(n, acts)) && NetAfter(n, acts).window == n.window
            && NetAfter(n, acts) == Risen(NetNext(n, act), server, newly)
  {
    OneAct(n, act);
    var m := NetNext(n, act);
    if newly {
      OneAct(m, Rise(server, newly)[0]);
      RunsAppend(n, [act], Rise(server, newly));
    } else {
      assert [act] + Rise(server, newly) == [act];
    }
    hide NetInv, NetRuns, NetAfter;
    SessionInv(n, [act] + Rise(server, newly));
  }

  /** A connection: the OPEN frame may congest the WebSocket, and so may the preread bytes. */
  lemma RiseThenAct(n: Net, act: NetAction, newly: bool)
    requires NetInv(n) && act.Accept? && NetCan(n, act)
    ensures var acts := Rise(true, newly) + [act];
            && NetCan(Risen(n, true, newly), act)
            && NetRuns(n, acts) && NetInv(NetAfter(n, acts)) && NetAfter(n, acts).window == n.window
            && NetAfter(n, acts) == NetNext(Risen(n, true, newly), act)
  {
    OneAct(Risen(n, true, newly), act);
    if newly {
      OneAct(n, Rise(true, newly)[0]);
      RunsAppend(n, Rise(true, newly), [act]);
    } else {
      assert Rise(true, newly) + [act] == [act];
    }
    hide NetInv, NetRuns, NetAfter;
    SessionInv(n, Rise(true, newly) + [act]);
  }

  lemma Growing(out: seq<Frame>, k: nat, more: seq<Frame>)
    requires k <= |out|
    ensures (out + more)[k..] == out[k..] + more
  {
  }

  lemma TagAppend(id: nat, a: seq<Msg>, b: seq<Msg>)
    ensures Tag(id, a + b) == Tag(id, a) + Tag(id, b)
  {
  }

  // ---- the two sessions --------------------------------------------------------------

  ghost predicate ServerOk(s: AgentSession, ts: seq<Tunnel>, public: seq<Stream>)
    reads s, s.repr, s.past, s.tunnels, ts
  {
    && s.Valid() && !s.closed && s.online
    && (forall t :: t in s.tunnels ==> t in ts)
    && (forall t :: t in ts ==> t in s.tunnels || t.openConns == 0)
    && (forall p :: p in public ==> p in s.repr)
    && (s.wrapped <==> |public| >= MAX_STREAM_ID) && (!s.wrapped ==> s.nextStreamId == |public| + 1)
  }

  /** What the agent serves is what the tunnels are for. */
  ghost predicate AgentOk(a: Agent, served: seq<Role>, local: seq<ClientStream>)
    reads a, a.repr, a.past
  {
    && a.Valid() && a.online
    && (forall t :: t in a.tunnels ==> t < |served| && a.tunnels[t] == served[t])
    && (forall l :: l in local ==> l in a.repr)
  }

  /** The two maps of ends, and the frames not yet delivered, are those of the network. */
  ghost predicate Matching(s: AgentSession, a: Agent, served: seq<Role>, w: Wire, n: Net)
    reads s`ends, s`out, a`ends, a`out, a`window
  {
    && n.window == s.window == a.window
    && n.server == s.ends && n.agent == a.ends
    && w.down <= |s.out| && n.down == s.out[w.down..]
    && w.up <= |a.out| && n.up == a.out[w.up..]
    && Named(served, w.named, n.roles)
  }

  ghost predicate Named(served: seq<Role>, named: map<nat, nat>, roles: map<nat, Role>) {
    forall id :: id in roles ==> id in named && named[id] < |served| && roles[id] == served[named[id]]
  }

  ghost predicate Joined(s: AgentSession, a: Agent, ts: seq<Tunnel>, served: seq<Role>, w: Wire, n: Net)
    reads s, s.repr, s.past, s.tunnels, ts, a, a.repr, a.past
  {
    && |ts| == |served| && (forall i :: 0 <= i < |served| ==> served[i].agent)
    && ServerOk(s, ts, w.public) && AgentOk(a, served, w.local) && Matching(s, a, served, w, n) && NetInv(n)
  }

  /** The front frame of the agent's reaches the server. */
  method Upwards(s: AgentSession, a: Agent, ts: seq<Tunnel>, served: seq<Role>, w: Wire, ghost n: Net, h: Happening)
    returns (w': Wire, ghost more: seq<NetAction>)
    requires Joined(s, a, ts, served, w, n) && h.Upward?
    modifies s, s.repr, ts
    ensures NetRuns(n, more) && Joined(s, a, ts, served, w', NetAfter(n, more))
    ensures w.up < old(|a.out|) ==> w'.up == w.up + 1 && more != [] && more[0] == FrameToServer(h.answer)
    ensures s.repr == old(s.repr)
  {
    hide AgentSession.Valid, Agent.Valid, AgentOk, NetInv, OnFrame, PauseAll, Named;
    w', more := w, [];
    if w.up >= |a.out| { return; }
    ghost var sent := OnFrame(s.ends, a.out[w.up], h.answer).sent;
    ghost var was := s.congested;
    Growing(s.out, w.down, sent);
    s.HandleFrame(a.out[w.up], h.answer, h.buffered);
    ActThenRise(n, FrameToServer(h.answer), true, s.congested && !was);
    w' := w.(up := w.up + 1);
    more := [FrameToServer(h.answer)] + Rise(true, s.congested && !was);
  }

  /** The front frame of the server's reaches the agent, which takes it for its OPEN's tunnel. */
  method Downwards(s: AgentSession, a: Agent, ts: seq<Tunnel>, served: seq<Role>, w: Wire, ghost n: Net, h: Happening)
    returns (w': Wire, ghost more: seq<NetAction>)
    requires Joined(s, a, ts, served, w, n) && h.Downward?
    modifies a, a.repr
    ensures NetRuns(n, more) && Joined(s, a, ts, served, w', NetAfter(n, more))
    ensures w.down < old(|s.out|) ==>
      w'.down == w.down + 1 && more != [] && more[0].FrameToAgent? && more[0].flushed == h.answer
    ensures old(a.repr) <= a.repr && fresh(a.repr - old(a.repr))
  {
    hide AgentSession.Valid, Agent.Valid, ServerOk, NetInv, OnFrame, OnOpen, PauseAll;
    w', more := w, [];
    if w.down >= |s.out| { return; }
    hide NetRuns, NetAfter;
    var f := s.out[w.down];
    InNetwork(n);
    var tunnel := w.named[f.id];
    NotYetThere(a, n);
    ghost var was, ends, out := a.congested, a.ends, a.out;
    a.HandleFrame(f, tunnel, h.answer, h.buffered);
    DeliveryIsFrame(s, a, served, w, n, h, was, ends, out);
    w' := w.(down := w.down + 1);
    if f.msg.Open? && tunnel in a.tunnels {
      InRepr(a, f.id);
      w' := w'.(local := w.local + [a.streams[f.id]]);
    }
    more := [FrameToAgent(h.answer, tunnel in a.tunnels, was)] + Rise(false, a.congested && !was);
  }

  lemma DeliveryIsFrame(
    s: AgentSession, a: Agent, served: seq<Role>, w: Wire, n: Net, h: Happening, was: bool, ends: Ends, out: seq<Frame>)
    requires h.Downward? && NetInv(n) && n.window == s.window == a.window && n.server == s.ends && n.agent == ends
    requires w.down < |s.out| && n.down == s.out[w.down..] && w.up <= |out| && n.up == out[w.up..]
    requires Named(served, w.named, n.roles) && s.out[w.down].id in n.roles
    requires forall t :: t in a.tunnels ==> t < |served| && a.tunnels[t] == served[t]
    requires var f := s.out[w.down];
             var m := OnMessage(ends, f, Spec(a.tunnels, w.named[f.id]), a.window, was, h.answer);
             && a.out == out + m.sent
             && a.ends == if a.congested && !was then PauseAll(m.ends, true) else m.ends
    ensures var f := s.out[w.down];
            var acts := [FrameToAgent(h.answer, w.named[f.id] in a.tunnels, was)] + Rise(false, a.congested && !was);
            && NetRuns(n, acts) && NetInv(NetAfter(n, acts))
            && Matching(s, a, served, w.(down := w.down + 1), NetAfter(n, acts))
  {
    hide NetInv, OnFrame, OnOpen, PauseAll;
    var f := s.out[w.down];
    var tunnel := w.named[f.id];
    Growing(out, w.up, OnMessage(ends, f, Spec(a.tunnels, tunnel), a.window, was, h.answer).sent);
    ActThenRise(n, FrameToAgent(h.answer, tunnel in a.tunnels, was), false, a.congested && !was);
  }

  lemma InNetwork(n: Net)
    requires NetInv(n) && n.down != []
    ensures n.down[0].id in n.roles && (n.down[0].msg.Open? ==> n.down[0].id !in n.agent)
  {
    FrontOfView(n);
  }

  /** The OPEN that is in front finds its id free. */
  lemma NotYetThere(a: Agent, n: Net)
    requires a.Valid() && n.agent == a.ends
    ensures forall id :: id !in n.agent ==> id !in a.streams
  {
    a.ListedMeansLive();
  }

  lemma InRepr(a: Agent, id: nat)
    requires a.Valid() && id in a.streams
    ensures a.streams[id] in a.repr
  {
    a.ListedMeansLive();
  }

  method PublicEvent(s: AgentSession, a: Agent, ts: seq<Tunnel>, served: seq<Role>, w: Wire, ghost n: Net, h: Happening)
    returns (ghost more: seq<NetAction>)
    requires Joined(s, a, ts, served, w, n) && h.AtPublic?
    modifies s, s.repr, ts
    ensures NetRuns(n, more) && Joined(s, a, ts, served, w, NetAfter(n, more))
    ensures h.stream < |w.public| && !h.ev.Congested? && old(w.public[h.stream].Ready(h.ev)) ==>
      w.public[h.stream] in s.past || (more != [] && more[0] == ServerEvent(w.public[h.stream].id, h.ev))
    ensures s.repr == old(s.repr)
  {
    hide AgentSession.Valid, Agent.Valid, NetInv, AgentOk, OnEvent, PauseAll, Named, Stream.View, Stream.Ready;
    more := [];
    if h.stream >= |w.public| || h.ev.Congested? { return; }
    var p := w.public[h.stream];
    if !p.Ready(h.ev) { return; }
    ghost var was, ends, out := s.congested, s.ends, s.out;
    s.OnSocketEvent(p, h.ev, h.queued);
    if p !in s.past {
      Growing(out, w.down, OnEvent(ends, p.id, h.ev).sent);
      ActThenRise(n, ServerEvent(p.id, h.ev), true, s.congested && !was);
      more := [ServerEvent(p.id, h.ev)] + Rise(true, s.congested && !was);
    }
  }

  method LocalEvent(s: AgentSession, a: Agent, ts: seq<Tunnel>, served: seq<Role>, w: Wire, ghost n: Net, h: Happening)
    returns (ghost more: seq<NetAction>)
    requires Joined(s, a, ts, served, w, n) && h.AtLocal?
    modifies a, a.repr
    ensures NetRuns(n, more) && Joined(s, a, ts, served, w, NetAfter(n, more))
    ensures h.stream < |w.local| && !h.ev.Congested? && old(w.local[h.stream].Ready(h.ev)) ==>
      w.local[h.stream] in a.past || (more != [] && more[0] == AgentEvent(w.local[h.stream].id, h.ev))
    ensures a.repr == old(a.repr)
  {
    hide AgentSession.Valid, Agent.Valid, NetInv, ServerOk, OnEvent, PauseAll, Named;
    hide ClientStream.View, ClientStream.Ready;
    more := [];
    if h.stream >= |w.local| || h.ev.Congested? { return; }
    var l := w.local[h.stream];
    if !l.Ready(h.ev) { return; }
    ghost var was, ends, out := a.congested, a.ends, a.out;
    a.OnStreamEvent(l, h.ev, h.queued);
    if l !in a.past {
      Growing(out, w.up, OnEvent(ends, l.id, h.ev).sent);
      ActThenRise(n, AgentEvent(l.id, h.ev), false, a.congested && !was);
      more := [AgentEvent(l.id, h.ev)] + Rise(false, a.congested && !was);
    }
  }

  /** A public connection becomes a stream, while there are ids that were never used. */
  method Accepting(s: AgentSession, a: Agent, ts: seq<Tunnel>, served: seq<Role>, w: Wire, ghost n: Net, h: Happening)
    returns (w': Wire, ghost more: seq<NetAction>)
    requires Joined(s, a, ts, served, w, n) && h.Connection?
    modifies s, s.repr, ts
    ensures NetRuns(n, more) && Joined(s, a, ts, served, w', NetAfter(n, more))
    ensures |w.public| < MAX_STREAM_ID && h.tunnel < |ts| ==>
      |w'.public| == |w.public| + 1 && Accepts(more, served[h.tunnel], h.preread)
    ensures old(s.repr) <= s.repr && fresh(s.repr - old(s.repr))
  {
    w', more := w, [];
    if |w.public| < MAX_STREAM_ID && h.tunnel < |ts| { w', more := OpenOne(s, a, ts, served, w, n, h); }
  }

  method OpenOne(s: AgentSession, a: Agent, ts: seq<Tunnel>, served: seq<Role>, w: Wire, ghost n: Net, h: Happening)
    returns (w': Wire, ghost more: seq<NetAction>)
    requires Joined(s, a, ts, served, w, n) && h.Connection? && |w.public| < MAX_STREAM_ID && h.tunnel < |ts|
    modifies s, s.repr, ts
    ensures NetRuns(n, more) && Joined(s, a, ts, served, w', NetAfter(n, more))
    ensures |w'.public| == |w.public| + 1 && Accepts(more, served[h.tunnel], h.preread)
    ensures old(s.repr) <= s.repr && fresh(s.repr - old(s.repr))
  {
    hide AgentSession.Valid, AgentOk, NetInv, AgentSession.Opened, NetRuns, NetAfter;
    ghost var was, ends, out := s.congested, s.ends, s.out;
    var r := s.OpenStream(ts[h.tunnel], h.preread, h.afterOpen, h.afterHead);
    w' := w.(named := w.named[r.value := h.tunnel], public := w.public + [s.streams[r.value]]);
    more := OpenActs(s, served[h.tunnel], h, r.value, was);
    OpeningIsAccept(s, a, served, w, n, h, r.value, was, ends, out);
  }

  predicate Accepts(acts: seq<NetAction>, role: Role, preread: Bytes) {
    acts != [] && var act := acts[|acts| - 1]; act.Accept? && act.role == role && act.preread == preread
  }

  ghost function OpenActs(s: AgentSession, role: Role, h: Happening, id: nat, was: bool): seq<NetAction>
    requires h.Connection?
    reads s`congested
  {
    var told := was || h.afterOpen > s.wsMaxBuffered;
    Rise(true, s.congested && !was) + [Accept(id, role, h.preread, told, h.afterHead > s.wsMaxBuffered)]
  }

  lemma OpeningIsAccept(
    s: AgentSession, a: Agent, served: seq<Role>, w: Wire, n: Net, h: Happening, id: nat,
    was: bool, ends: Ends, out: seq<Frame>)
    requires h.Connection? && h.tunnel < |served| && served[h.tunnel].agent && NetInv(n) && id !in ends
    requires n.window == s.window == a.window && n.server == ends && n.agent == a.ends && s.Up()
    requires w.down <= |out| && n.down == out[w.down..] && w.up <= |a.out| && n.up == a.out[w.up..]
    requires Named(served, w.named, n.roles) && s.Opened(ends, was, out, id, h.preread, h.afterOpen, h.afterHead)
    ensures var acts := OpenActs(s, served[h.tunnel], h, id, was);
            && NetRuns(n, acts) && NetInv(NetAfter(n, acts))
            && Matching(s, a, served, w.(named := w.named[id := h.tunnel]), NetAfter(n, acts))
  {
    hide NetInv, PauseAll, OpenServer, Tag;
    var told := was || h.afterOpen > s.wsMaxBuffered;
    var act := Accept(id, served[h.tunnel], h.preread, told, h.afterHead > s.wsMaxBuffered);
    var sent := OpenServer(s.window, h.preread, told, h.afterHead > s.wsMaxBuffered).sent;
    NewRole(n, id);
    TagAppend(id, [Open], sent);
    assert out + Tag(id, [Open]) + Tag(id, sent) == out + (Tag(id, [Open]) + Tag(id, sent));
    Growing(out, w.down, Tag(id, [Open] + sent));
    RiseThenAct(n, act, s.congested && !was);
  }

  lemma NewRole(n: Net, id: nat)
    requires NetInv(n) && id !in n.server
    ensures id !in n.roles
  {
  }

  method Polling(s: AgentSession, a: Agent, ts: seq<Tunnel>, served: seq<Role>, w: Wire, ghost n: Net, h: Happening)
    returns (ghost more: seq<NetAction>)
    requires Joined(s, a, ts, served, w, n) && (h.ServerPoll? || h.AgentPoll?)
    modifies s, s.repr, a, a.repr
    ensures NetRuns(n, more) && Joined(s, a, ts, served, w, NetAfter(n, more))
    ensures h.ServerPoll? && old(s.congested) && h.level <= s.wsMaxBuffered / 2 ==> more == [ServerCongestion(false)]
    ensures h.AgentPoll? && old(a.congested) && h.level <= WS_MAX_BUFFERED / 2 ==> more == [AgentCongestion(false)]
    ensures s.repr == old(s.repr) && a.repr == old(a.repr)
  {
    hide AgentSession.Sound, AgentSession.IdsOk, Agent.Valid, NetInv, PauseAll, Named;
    ghost var fell;
    if h.ServerPoll? {
      fell := s.congested;
      s.PollCongestion(h.level);
      fell := fell && !s.congested;
    } else {
      fell := a.congested;
      a.PollCongestion(h.level, false);
      fell := fell && !a.congested;
    }
    more := Fall(h.ServerPoll?, fell);
    FallAct(n, h.ServerPoll?, fell);
  }

  /** The WebSocket of one side has drained far enough. */
  function Fall(server: bool, fell: bool): seq<NetAction> {
    if !fell then [] else [if server then ServerCongestion(false) else AgentCongestion(false)]
  }

  lemma FallAct(n: Net, server: bool, fell: bool)
    requires NetInv(n)
    ensures var acts := Fall(server, fell);
            && NetRuns(n, acts) && NetInv(NetAfter(n, acts))
            && NetAfter(n, acts) == if !fell then n
                                    else if server then n.(server := PauseAll(n.server, false))
                                    else n.(agent := PauseAll(n.agent, false))
  {
    var acts := Fall(server, fell);
    if fell { OneAct(n, acts[0]); }
    SessionInv(n, acts);
  }

  /** The server says which tunnel it opened for a request. */
  method Serve(s: AgentSession, a: Agent, ts: seq<Tunnel>, served: seq<Role>, w: Wire, ghost n: Net, h: Happening)
    requires Joined(s, a, ts, served, w, n) && h.TunnelAnswer?
    modifies a
    ensures Joined(s, a, ts, served, w, n) && a.repr == old(a.repr)
  {
    hide AgentSession.Valid, Agent.Valid, NetInv;
    if h.reqId !in a.pending || h.tunnel >= |served| || a.pending[h.reqId] != served[h.tunnel] { return; }
    a.OnTunnelOk(h.reqId, Some(h.tunnel));
  }

  /** One happening: a frame that is there is delivered, an event raised, a connection accepted,
      and congestion ends when its poll finds it over, each by its own action of the network. */
  method Next(s: AgentSession, a: Agent, ts: seq<Tunnel>, served: seq<Role>, w: Wire, ghost n: Net, h: Happening)
    returns (w': Wire, ghost more: seq<NetAction>)
    requires Joined(s, a, ts, served, w, n)
    modifies s, s.repr, ts, a, a.repr
    ensures NetRuns(n, more) && Joined(s, a, ts, served, w', NetAfter(n, more))
    ensures h.Upward? && w.up < old(|a.out|) ==> w'.up == w.up + 1 && more != [] && more[0] == FrameToServer(h.answer)
    ensures h.Downward? && w.down < old(|s.out|) ==>
      w'.down == w.down + 1 && more != [] && more[0].FrameToAgent? && more[0].flushed == h.answer
    ensures h.AtPublic? && h.stream < |w.public| && !h.ev.Congested? && old(w.public[h.stream].Ready(h.ev)) ==>
      w.public[h.stream] in s.past || (more != [] && more[0] == ServerEvent(w.public[h.stream].id, h.ev))
    ensures h.AtLocal? && h.stream < |w.local| && !h.ev.Congested? && old(w.local[h.stream].Ready(h.ev)) ==>
      w.local[h.stream] in a.past || (more != [] && more[0] == AgentEvent(w.local[h.stream].id, h.ev))
    ensures h.Connection? && |w.public| < MAX_STREAM_ID && h.tunnel < |ts| ==>
      |w'.public| == |w.public| + 1 && Accepts(more, served[h.tunnel], h.preread)
    ensures h.ServerPoll? && old(s.congested) && h.level <= s.wsMaxBuffered / 2 ==> more == [ServerCongestion(false)]
    ensures h.AgentPoll? && old(a.congested) && h.level <= WS_MAX_BUFFERED / 2 ==> more == [AgentCongestion(false)]
    ensures old(s.repr) <= s.repr && fresh(s.repr - old(s.repr))
    ensures old(a.repr) <= a.repr && fresh(a.repr - old(a.repr))
  {
    hide Joined;
    w', more := w, [];
    match h {
      case Connection(_, _, _, _) => w', more := Accepting(s, a, ts, served, w, n, h);
      case AtPublic(_, _, _) => more := PublicEvent(s, a, ts, served, w, n, h);
      case AtLocal(_, _, _) => more := LocalEvent(s, a, ts, served, w, n, h);
      case Downward(_, _) => w', more := Downwards(s, a, ts, served, w, n, h);
      case Upward(_, _) => w', more := Upwards(s, a, ts, served, w, n, h);
      case TunnelAnswer(_, _) => Serve(s, a, ts, served, w, n, h);
      case _ => more := Polling(s, a, ts, served, w, n, h);
    }
  }

  /** The sockets of one connection: each was written, as its side writes it, a prefix of what
      the other was read, and half-closed only behind all of it. */
  ghost predicate Bridged(s: AgentSession, a: Agent, id: nat)
    reads s`all, a`all, s.all.Values, a.all.Values
  {
    && id in s.all && id in a.all
    && Pipe(s.all[id].View(), a.all[id].View()) && Pipe(a.all[id].View(), s.all[id].View())
  }

  lemma AllBridged(s: AgentSession, a: Agent, ts: seq<Tunnel>, served: seq<Role>, w: Wire, acts: seq<NetAction>)
    requires NetRuns(Idle(s.window), acts)
    requires Joined(s, a, ts, served, w, NetAfter(Idle(s.window), acts))
    ensures forall id :: id in a.all ==> Bridged(s, a, id)
  {
    hide NetRuns, NetAfter, Pipe;
    var n := NetAfter(Idle(s.window), acts);
    forall id | id in a.all ensures Bridged(s, a, id) {
      KnownToBoth(s, a, n, id);
      SessionPipes(s.window, acts, id);
    }
  }

  lemma KnownToBoth(s: AgentSession, a: Agent, n: Net, id: nat)
    requires s.Valid() && a.Valid() && n.server == s.ends && n.agent == a.ends && NetInv(n) && id in a.all
    ensures id in n.roles && id in s.all && id in n.agent && AgentEnd(n, id) == a.all[id].View()
    ensures n.server[id] == s.all[id].View()
  {
    assert id in n.agent.Keys;
  }

  lemma AtFirst(s: AgentSession, a: Agent, ts: seq<Tunnel>, served: seq<Role>)
    requires s.Valid() && s.ends == map[] && s.out == [] && s.online && !s.closed && s.tunnels == {}
    requires s.nextStreamId == 1 && !s.wrapped && |ts| == |served| && forall t :: t in ts ==> t.openConns == 0
    requires a.Valid() && a.ends == map[] && a.out == [] && a.online && a.window == s.window
    requires forall i :: 0 <= i < |served| ==> served[i].agent
    requires forall t :: t in a.tunnels ==> t < |served| && a.tunnels[t] == served[t]
    ensures Joined(s, a, ts, served, Wire(0, 0, map[], [], []), Idle(s.window))
  {
    hide AgentSession.Valid, Agent.Valid, NetInv;
    IdleInv(s.window);
  }

  method Run(s: AgentSession, a: Agent, ts: seq<Tunnel>, served: seq<Role>, schedule: seq<Happening>)
    returns (w: Wire, ghost acts: seq<NetAction>)
    requires Joined(s, a, ts, served, Wire(0, 0, map[], [], []), Idle(s.window)) && s.repr == {}
    modifies s, ts, a, a.repr
    ensures NetRuns(Idle(s.window), acts) && Joined(s, a, ts, served, w, NetAfter(Idle(s.window), acts))
  {
    hide *;
    w, acts := Wire(0, 0, map[], [], []), [];
    NoActs(Idle(s.window));
    for i := 0 to |schedule|
      invariant NetRuns(Idle(s.window), acts) && Joined(s, a, ts, served, w, NetAfter(Idle(s.window), acts))
      invariant fresh(s.repr) && fresh(a.repr - old(a.repr))
    {
      ghost var more;
      ghost var n := NetAfter(Idle(s.window), acts);
      w, more := Next(s, a, ts, served, w, n, schedule[i]);
      RunsAppend(Idle(s.window), acts, more);
      acts := acts + more;
    }
  }

  lemma JoinedMatches(s: AgentSession, a: Agent, ts: seq<Tunnel>, served: seq<Role>, w: Wire, n: Net)
    requires Joined(s, a, ts, served, w, n)
    ensures Matching(s, a, served, w, n)
  {
  }

  /** Whatever the two sessions do together, from a fresh session and an agent that has just
      connected, is a run of the network: its ends are theirs, and its frames in flight those
      sent and not yet delivered. So the sockets of each connection are bridged. */
  method Drive(s: AgentSession, a: Agent, ts: seq<Tunnel>, served: seq<Role>, schedule: seq<Happening>)
    returns (w: Wire, ghost acts: seq<NetAction>)
    requires s.Valid() && s.ends == map[] && s.out == [] && s.online && !s.closed && s.repr == {} && s.tunnels == {}
    requires s.nextStreamId == 1 && !s.wrapped && |ts| == |served| && forall t :: t in ts ==> t.openConns == 0
    requires a.Valid() && a.ends == map[] && a.out == [] && a.online && a.window == s.window
    requires forall i :: 0 <= i < |served| ==> served[i].agent
    requires forall t :: t in a.tunnels ==> t < |served| && a.tunnels[t] == served[t]
    modifies s, ts, a, a.repr
    ensures NetRuns(Idle(s.window), acts)
    ensures Matching(s, a, served, w, NetAfter(Idle(s.window), acts))
    ensures forall id :: id in a.all ==> Bridged(s, a, id)
  {
    hide AgentSession.Valid, Agent.Valid, Joined, Matching, Bridged, Idle;
    AtFirst(s, a, ts, served);
    w, acts := Run(s, a, ts, served, schedule);
    AllBridged(s, a, ts, served, w, acts);
    JoinedMatches(s, a, ts, served, w, NetAfter(Idle(s.window), acts));
  }
}
