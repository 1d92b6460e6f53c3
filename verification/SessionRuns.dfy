/** Whole lives of a server session: any schedule of connections, frames, socket events, polls
    and teardown, through the methods of the session itself. */
module SessionRuns {
  import Codec
  import opened Endpoint
  import opened Frames
  import opened Mux
  import opened Options
  import opened ServerSession
  import opened ServerStream
  import opened SessionMaps

  /** What the server's event loop brings. Tunnels and streams are named by their place in the
      lists of those that there are. */
  datatype Happening =
    | Connection(tunnel: nat, preread: Bytes, afterOpen: int, afterHead: int)
    | Arrival(frame: Codec.Decoded, answer: bool, buffered: int)
    | OnSocket(stream: nat, ev: Event, queued: int)
    | Poll(level: int)
    | Closing
    | Gone

  predicate AllOver(ends: Ends) {
    forall id :: id in ends ==> ends[id].finished
  }

  lemma FrameAfterAll(ends: Ends, d: Codec.Decoded, answer: bool)
    requires AllOver(ends)
    ensures AllOver(OnDecoded(ends, d, answer).ends)
  {
  }

  lemma EventAfterAll(ends: Ends, id: nat, ev: Event)
    requires AllOver(ends) && id in ends && Enabled(ends[id], ev)
    ensures AllOver(OnEvent(ends, id, ev).ends)
  {
    DeadHandle(ends[id], ev);
  }

  lemma PauseAfterAll(ends: Ends, on: bool)
    requires AllOver(ends)
    ensures AllOver(PauseAll(ends, on))
  {
  }

  lemma OverKnow(ends: Ends, congested: bool)
    requires AllOver(ends)
    ensures AllKnow(ends, congested)
  {
  }

  lemma DestroyedAreOver(ends: Ends, tell: bool)
    ensures AllOver(DestroyAll(ends, tell))
  {
  }

  /** The ids given out so far: 1, 2, 3 and so on until the id space is used up. */
  predicate InSequence(ids: seq<nat>, next: nat, wrapped: bool) {
    && (wrapped <==> |ids| >= MAX_STREAM_ID)
    && (!wrapped ==> next == |ids| + 1)
    && (forall i :: 0 <= i < |ids| && i < MAX_STREAM_ID ==> ids[i] == i + 1)
    && (forall i :: 0 <= i < |ids| ==> 1 <= ids[i] <= MAX_STREAM_ID)
  }

  ghost predicate Living(session: AgentSession, ts: seq<Tunnel>, made: seq<Stream>, ids: seq<nat>)
    reads session, session.repr, session.past, session.tunnels, ts
  {
    && session.Valid()
    && (forall t :: t in session.tunnels ==> t in ts)
    && (forall t :: t in ts ==> t in session.tunnels || t.openConns == 0)
    && (forall s :: s in made ==> s in session.repr)
    && (session.closed ==> AllOver(session.ends))
    && AllKnow(session.ends, session.congested)
    && InSequence(ids, session.nextStreamId, session.wrapped)
  }

  /** A connection for a tunnel of the session; the frontends refuse it once the session is
      closed. */
  method Connect(session: AgentSession, ts: seq<Tunnel>, made: seq<Stream>, ids: seq<nat>, h: Happening)
    returns (made': seq<Stream>, ids': seq<nat>)
    requires Living(session, ts, made, ids) && h.Connection?
    modifies session, session.repr, ts
    ensures Living(session, ts, made', ids') && session.closed == old(session.closed)
    ensures old(session.closed || !session.online) ==> session.out == old(session.out)
    ensures old(session.repr) <= session.repr && fresh(session.repr - old(session.repr))
  {
    hide AgentSession.Valid, AllOver, AgentSession.Opened, AllKnow;
    made', ids' := made, ids;
    if session.closed || h.tunnel >= |ts| { return; }
    ghost var ends, congested, out := session.ends, session.congested, session.out;
    var r := session.OpenStream(ts[h.tunnel], h.preread, h.afterOpen, h.afterHead);
    if r.Some? {
      OpeningKeepsKnowing(session, ends, congested, out, r.value, h);
      made' := made + [session.streams[r.value]];
      ids' := ids + [r.value];
    }
  }

  lemma OpeningKeepsKnowing(
    session: AgentSession, ends: Ends, congested: bool, out: seq<Frame>, id: nat, h: Happening)
    requires h.Connection? && AllKnow(ends, congested)
    requires session.Opened(ends, congested, out, id, h.preread, h.afterOpen, h.afterHead)
    ensures AllKnow(session.ends, session.congested)
    ensures session.closed || !session.online ==> session.out == out
  {
    var told := congested || (session.Up() && h.afterOpen > session.wsMaxBuffered);
    var congests := session.Up() && h.afterHead > session.wsMaxBuffered;
    AllTold(ends, true);
    hide OpenServer, PauseAll, AllKnow;
    AcceptedKnows(if session.congested && !congested then PauseAll(ends, true) else ends,
                  id, session.window, h.preread, told, congests);
  }

  method Hear(session: AgentSession, ts: seq<Tunnel>, made: seq<Stream>, ids: seq<nat>, h: Happening)
    requires Living(session, ts, made, ids) && h.Arrival?
    modifies session, session.repr, ts
    ensures Living(session, ts, made, ids) && session.repr == old(session.repr) && session.closed == old(session.closed)
    ensures old(session.closed || !session.online) ==> session.out == old(session.out)
  {
    hide AgentSession.Valid, AllOver, OnDecoded, PauseAll, InSequence, AllKnow;
    if h.frame.Malformed? { return; }
    ghost var ends := session.ends;
    DecodedKeepsKnowing(ends, h.frame, h.answer, session.congested);
    var forRegistry := session.HandleMessage(h.frame, h.answer, h.buffered);
    AllTold(OnDecoded(ends, h.frame, h.answer).ends, true);
    if session.closed {
      FrameAfterAll(ends, h.frame, h.answer);
      PauseAfterAll(OnDecoded(ends, h.frame, h.answer).ends, true);
    }
  }

  lemma DecodedKeepsKnowing(ends: Ends, d: Codec.Decoded, answer: bool, congested: bool)
    requires AllKnow(ends, congested)
    ensures AllKnow(OnDecoded(ends, d, answer).ends, congested)
  {
    if d.Stream? && Codec.Meaning(d).Some? { FrameKeepsKnowing(ends, Codec.Meaning(d).value, answer, congested); }
  }

  method Raise(session: AgentSession, ts: seq<Tunnel>, made: seq<Stream>, ids: seq<nat>, h: Happening)
    requires Living(session, ts, made, ids) && h.OnSocket?
    modifies session, session.repr, ts
    ensures Living(session, ts, made, ids) && session.repr == old(session.repr) && session.closed == old(session.closed)
    ensures old(session.closed || !session.online) ==> session.out == old(session.out)
  {
    hide AgentSession.Valid, AllOver, OnEvent, PauseAll, InSequence, Stream.View, Stream.Ready, AllKnow;
    if h.stream >= |made| || h.ev.Congested? { return; }
    var s := made[h.stream];
    if !s.Ready(h.ev) { return; }
    ghost var ends, congested := session.ends, session.congested;
    session.OnSocketEvent(s, h.ev, h.queued);
    if s !in session.past {
      EventKeepsKnowing(ends, s.id, h.ev, congested);
      AllTold(OnEvent(ends, s.id, h.ev).ends, true);
    }
    if session.closed && s !in session.past {
      EventAfterAll(ends, s.id, h.ev);
      PauseAfterAll(OnEvent(ends, s.id, h.ev).ends, true);
    }
  }

  method PollOrEnd(session: AgentSession, ts: seq<Tunnel>, made: seq<Stream>, ids: seq<nat>, h: Happening)
    requires Living(session, ts, made, ids) && (h.Poll? || h.Closing? || h.Gone?)
    modifies session, session.repr, ts
    ensures Living(session, ts, made, ids) && session.repr == old(session.repr)
    ensures old(session.closed) || h.Gone? ==> session.closed
    ensures session.out == old(session.out)
  {
    hide AgentSession.Sound, AgentSession.IdsOk, AllOver, PauseAll, DestroyAll, InSequence, AllKnow;
    ghost var ends := session.ends;
    AllTold(ends, false);
    match h {
      case Poll(level) =>
        session.PollCongestion(level);
        if session.closed { PauseAfterAll(ends, false); }
      case Closing => session.OnWebSocketClosing();
      case Gone =>
        session.Destroy();
        DestroyedAreOver(if old(session.congested) then PauseAll(ends, false) else ends, true);
        if !old(session.closed) { OverKnow(session.ends, false); }
      case _ => assert false;
    }
  }

  /** Over every life of a session the count of each tunnel is the number of its live streams,
      and it is zero once the session is gone; the ids given out are 1, 2, 3 and so on up to
      the last, so that none comes twice before as many streams were opened. */
  method Live(session: AgentSession, ts: seq<Tunnel>, life: seq<Happening>) returns (ids: seq<nat>)
    requires session.Valid() && session.repr == {} && session.tunnels == {} && session.nextStreamId == 1
    requires !session.wrapped && !session.closed && forall t :: t in ts ==> t.openConns == 0
    modifies session, ts
    ensures session.Valid()
    ensures forall t :: t in ts ==> t.openConns == |session.LiveFor(t)|
    ensures Gone in life ==> session.closed && forall t :: t in ts ==> t.openConns == 0
    ensures InSequence(ids, session.nextStreamId, session.wrapped)
    ensures AllKnow(session.ends, session.congested)
  {
    NoStreamsYet(session);
    hide AgentSession.Valid;
    var made: seq<Stream> := [];
    ids := [];
    for i := 0 to |life|
      invariant Living(session, ts, made, ids) && fresh(session.repr)
      invariant Gone in life[..i] ==> session.closed
    {
      assert life[..i + 1] == life[..i] + [life[i]];
      made, ids := Next(session, ts, made, ids, life[i]);
    }
    assert life[..|life|] == life;
    Counts(session, ts, made, ids);
  }

  method Next(session: AgentSession, ts: seq<Tunnel>, made: seq<Stream>, ids: seq<nat>, h: Happening)
    returns (made': seq<Stream>, ids': seq<nat>)
    requires Living(session, ts, made, ids)
    modifies session, session.repr, ts
    ensures Living(session, ts, made', ids')
    ensures old(session.repr) <= session.repr && fresh(session.repr - old(session.repr))
    ensures old(session.closed || !session.online) ==> session.out == old(session.out)
    ensures old(session.closed) || h.Gone? ==> session.closed
  {
    hide Living;
    made', ids' := made, ids;
    match h {
      case Connection(_, _, _, _) => made', ids' := Connect(session, ts, made, ids, h);
      case Arrival(_, _, _) => Hear(session, ts, made, ids, h);
      case OnSocket(_, _, _) => Raise(session, ts, made, ids, h);
      case _ => PollOrEnd(session, ts, made, ids, h);
    }
  }

  lemma NoStreamsYet(session: AgentSession)
    requires session.Valid() && session.repr == {}
    ensures session.ends == map[]
  {
    assert session.ends.Keys == {};
  }

  lemma Counts(session: AgentSession, ts: seq<Tunnel>, made: seq<Stream>, ids: seq<nat>)
    requires Living(session, ts, made, ids)
    ensures forall t :: t in ts ==> t.openConns == |session.LiveFor(t)|
    ensures session.closed ==> forall t :: t in ts ==> t.openConns == 0
  {
    hide AgentSession.Valid;
    forall t | t in ts
      ensures t.openConns == |session.LiveFor(t)| && (session.closed ==> t.openConns == 0)
    {
      session.OpenConnsAreLive(t);
      if session.closed { assert session.LiveFor(t) == {}; }
    }
  }
}
