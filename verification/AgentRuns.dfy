/** Whole lives of the agent: sessions one after the other, any schedule of handshakes, messages,
    dials, socket events, polls and lost connections, through the methods of the agent itself. */
module AgentRuns {
  import opened ClientSession
  import opened ClientStream
  import opened Endpoint
  import opened Frames
  import opened Mux
  import opened Options
  import opened SessionMaps

  /** What the agent's event loop brings. Streams are named by the order in which they came. */
  datatype Happening =
    | Online
    | Handshake(advertised: Option<int>)
    | Register
    | Message(m: Inbound, answer: bool, buffered: int)
    | OnSocket(stream: nat, ev: Event, queued: int)
    | Poll(level: int)
    | Gone

  /** A stream is in the map until it has finished, and no longer; all are finished between
      two sessions. */
  ghost predicate Tidy(a: Agent, made: seq<ClientStream>)
    reads a, made
  {
    && (forall l :: l in made ==> (l.finished <==> !(l.id in a.streams && a.streams[l.id] == l)))
    && (!a.online ==> forall l :: l in made ==> l.finished)
  }

  ghost predicate Living(a: Agent, made: seq<ClientStream>)
    reads a, a.repr, a.past
  {
    && a.Valid() && a.repr == (set l | l in made) && (!a.online ==> a.streams == map[])
    && AllKnow(a.ends, a.congested)
  }

  /** An OPEN for an id that is live: what the server does only after all ids are used up. */
  predicate Clashes(a: Agent, m: Inbound)
    reads a`tunnels, a`streams
  {
    m.StreamFrame? && m.frame.msg.Open? && m.tunnelId in a.tunnels && m.frame.id in a.streams
  }

  method Hear(a: Agent, made: seq<ClientStream>, h: Happening) returns (made': seq<ClientStream>)
    requires Living(a, made) && h.Message? && a.online && !Clashes(a, h.m)
    modifies a, a.repr
    ensures Living(a, made') && old(a.repr) <= a.repr && fresh(a.repr - old(a.repr))
  {
    hide Agent.Valid, PauseAll, OnMessage, AllKnow;
    var accepted := h.m.StreamFrame? && h.m.frame.msg.Open? && h.m.tunnelId in a.tunnels;
    MessageKeepsKnowing(a, h.m, h.answer);
    AllTold(a.ends, true);
    a.HandleMessage(h.m, h.answer, h.buffered);
    made' := if accepted then made + [a.streams[h.m.frame.id]] else made;
  }

  lemma MessageKeepsKnowing(a: Agent, m: Inbound, answer: bool)
    requires AllKnow(a.ends, a.congested)
    ensures m.StreamFrame? ==>
      var h := OnMessage(a.ends, m.frame, Spec(a.tunnels, m.tunnelId), a.window, a.congested, answer);
      AllKnow(h.ends, a.congested) && AllKnow(PauseAll(h.ends, true), true)
  {
    if m.StreamFrame? {
      hide AllKnow, PauseAll, OnOpen, OnFrame;
      FrameKeepsKnowing(a.ends, m.frame, answer, a.congested);
      OpenedKnows(a.ends, m.frame.id, Spec(a.tunnels, m.tunnelId), a.window, a.congested);
      AllTold(OnMessage(a.ends, m.frame, Spec(a.tunnels, m.tunnelId), a.window, a.congested, answer).ends, true);
    }
  }

  method Raise(a: Agent, made: seq<ClientStream>, h: Happening)
    requires Living(a, made) && h.OnSocket?
    modifies a, a.repr
    ensures Living(a, made) && a.repr == old(a.repr)
  {
    hide Agent.Valid, PauseAll, OnEvent, ClientStream.Ready, ClientStream.View, AllKnow;
    if h.stream >= |made| || h.ev.Congested? || !made[h.stream].Ready(h.ev) { return; }
    ghost var ends, congested, l := a.ends, a.congested, made[h.stream];
    a.OnStreamEvent(made[h.stream], h.ev, h.queued);
    if l !in a.past {
      EventKeepsKnowing(ends, l.id, h.ev, congested);
      AllTold(OnEvent(ends, l.id, h.ev).ends, true);
    }
  }

  method Step(a: Agent, specs: seq<Role>, made: seq<ClientStream>, h: Happening)
    requires Living(a, made) && !h.Message? && !h.OnSocket? && forall i :: 0 <= i < |specs| ==> specs[i].agent
    modifies a, a.repr
    ensures Living(a, made) && a.repr == old(a.repr)
  {
    hide Agent.Valid, PauseAll, Requests;
    AllTold(a.ends, false);
    match h {
      case Online => if !a.online { a.Connected(); }
      case Handshake(advertised) => a.HandleHandshake(advertised);
      case Register => a.RegisterTunnels(specs);
      case Poll(level) => a.PollCongestion(level, !a.online);
      case Gone => a.TeardownSession();
      case _ => assert false;
    }
  }

  /** Over every life of the agent the map holds exactly the streams that have not finished, each
      of them knows whether the session is congested, and none outlives it, unless an OPEN names
      an id that is live. The life up to the first such OPEN is `lived` long. */
  method Live(a: Agent, specs: seq<Role>, life: seq<Happening>) returns (made: seq<ClientStream>, lived: nat)
    requires a.Valid() && a.repr == {} && !a.online && a.streams == map[]
    requires forall i :: 0 <= i < |specs| ==> specs[i].agent
    modifies a
    ensures a.Valid() && Tidy(a, made) && AllKnow(a.ends, a.congested) && lived <= |life|
    ensures lived == |life| || (life[lived].Message? && a.online && Clashes(a, life[lived].m))
  {
    NoStreamsYet(a);
    hide Agent.Valid, Clashes;
    made, lived := [], 0;
    while lived < |life|
      invariant Living(a, made) && fresh(a.repr) && lived <= |life|
    {
      var h := life[lived];
      if h.Message? {
        if a.online {
          if Clashes(a, h.m) { break; }
          made := Hear(a, made, h);
        }
      } else if h.OnSocket? {
        Raise(a, made, h);
      } else {
        Step(a, specs, made, h);
      }
      lived := lived + 1;
    }
    LivingIsTidy(a, made);
  }

  lemma NoStreamsYet(a: Agent)
    requires a.Valid() && a.repr == {}
    ensures a.ends == map[]
  {
    assert a.ends.Keys == {};
  }

  lemma LivingIsTidy(a: Agent, made: seq<ClientStream>)
    requires Living(a, made)
    ensures Tidy(a, made)
  {
    hide Agent.Listed, Agent.Dialling, Agent.Configured, ClientStream.View;
    a.ListedMeansLive();
    forall l | l in made ensures l.finished <==> !(l.id in a.streams && a.streams[l.id] == l) {
      LifeInView(l);
      a.FromThePast(l);
    }
  }
}
