/** client-node/src/agent.ts: the agent's end of the multiplexer, across the sessions it
    opens one after the other: the map of its streams, the tunnels it registered, the
    handshake's window, congestion and teardown. */
module ClientSession {
  import opened ClientStream
  import opened Endpoint
  import opened Frames
  import opened Mux
  import opened Options
  import opened SessionMaps

  const WS_MAX_BUFFERED: int := 8 * 1024 * 1024

  /** A stream whose dial is still out has seen neither end of its bytes. */
  predicate Undialled(e: End) {
    e.connected || e.finished || (!e.src.sentEof && !e.snk.receivedEof)
  }

  ghost predicate AllUndialled(ends: Ends) {
    forall id :: id in ends ==> Undialled(ends[id])
  }

  ghost predicate Traces(repr: set<ClientStream>, past: set<ClientStream>, all: map<nat, ClientStream>) {
    && past <= repr
    && (forall s :: s in repr ==> s in past || (s.id in all && all[s.id] == s))
    && (forall id :: id in all ==> all[id] in repr && all[id] !in past)
  }

  class Agent {
    var streams: map<nat, ClientStream>
    /** Tunnel id -> what was registered under it, so that OPEN knows where to dial. */
    var tunnels: map<nat, Role>
    /** Request id -> what was asked for, until the server answers. */
    var pending: map<nat, Role>
    var window: nat
    var congested: bool
    /** There is a WebSocket, and it is open. */
    var online: bool
    /** The stream frames handed to the current WebSocket, in order, and the OPEN_TUNNEL
        requests, by request id. */
    var out: seq<Frame>
    var asked: seq<(nat, Role)>
    /** The latest stream of every id of this session, finished ones included. */
    ghost var all: map<nat, ClientStream>
    /** Their ends, as values. */
    ghost var ends: Ends
    /** Streams that no id leads to any more, most of them of earlier sessions. */
    ghost var past: set<ClientStream>
    ghost var repr: set<ClientStream>

    ghost predicate Linked()
      reads `streams, `all
    {
      && (forall id :: id in all ==> all[id].id == id)
      && (forall id :: id in streams ==> id in all && streams[id] == all[id])
    }

    ghost predicate Mirrored()
      reads `all, `ends, `repr, repr
    {
      && ends.Keys == all.Keys
      && (forall id :: id in all ==> all[id] in repr && all[id].Valid())
      && (forall id :: id in all ==> ends[id] == all[id].View())
    }

    ghost predicate Dialling()
      reads `ends
    {
      AllUndialled(ends)
    }

    ghost predicate Configured()
      reads `tunnels, `pending, `window
    {
      && (forall t :: t in tunnels ==> tunnels[t].agent)
      && (forall t :: t in pending ==> pending[t].agent)
      && window > 0
    }

    /** Nothing is left to happen to the streams of the past. */
    ghost predicate Buried()
      reads `past, past
    {
      forall s :: s in past ==> s.finished && s.Valid()
    }

    /** Every stream ever opened is of the past or the latest of its id. */
    ghost predicate Traced()
      reads `repr, `past, `all
    {
      Traces(repr, past, all)
    }

    ghost predicate Listed()
      reads `streams, `ends
    {
      InMap(ends, streams.Keys)
    }

    ghost predicate Valid()
      reads this, repr, past
    {
      Linked() && Mirrored() && Dialling() && Configured() && Buried() && Traced() && Listed()
    }

    ghost function After(frames: seq<Frame>): seq<Frame>
      reads this
    {
      if online then out + frames else out
    }

    constructor ()
      ensures Valid() && ends == map[] && past == {} && repr == {} && !online && window == 256 * 1024
    {
      streams, tunnels, pending, window := map[], map[], map[], 256 * 1024;
      congested, online, out, asked := false, false, [], [];
      all, ends, past, repr := map[], map[], {}, {};
    }

    // ---- lifecycle ----

    method Connected()
      requires Valid()
      modifies `online, `out, `asked
      ensures Valid() && online && out == [] && asked == []
    {
      hide Linked, Mirrored, Dialling, Configured, Buried, Traced, Listed;
      online := true;
      out := [];
      asked := [];
    }

    /** HELLO_OK: an advertised window that is not a positive number is ignored. */
    method HandleHandshake(advertised: Option<int>)
      requires Valid()
      modifies `window
      ensures Valid()
      ensures window == if advertised.Some? && advertised.value > 0 then advertised.value else old(window)
    {
      hide Linked, Mirrored, Dialling, Buried, Traced, Listed;
      if advertised.Some? && advertised.value > 0 { window := advertised.value; }
    }

    /** Asks for all configured tunnels, in order. */
    method RegisterTunnels(specs: seq<Role>)
      requires Valid() && forall i :: 0 <= i < |specs| ==> specs[i].agent
      modifies `pending, `asked
      ensures Valid() && asked == if online then old(asked) + Requests(specs) else old(asked)
      ensures online ==> forall i: nat :: i < |specs| ==>
        |asked| > |old(asked)| + i && asked[|old(asked)| + i] == (i, specs[i])
      ensures forall r: nat :: r in pending <==> r in old(pending) || r < |specs|
      ensures forall r: nat :: r in pending ==> pending[r] == if r < |specs| then specs[r] else old(pending)[r]
    {
      hide Linked, Mirrored, Dialling, Buried, Traced, Listed;
      for i := 0 to |specs|
        invariant asked == if online then old(asked) + Requests(specs)[..i] else old(asked)
        invariant forall r: nat :: r in pending <==> r in old(pending) || r < i
        invariant forall r: nat :: r in pending ==> pending[r] == if r < i then specs[r] else old(pending)[r]
      {
        pending := pending[i := specs[i]];
        if online { asked := asked + [(i, specs[i])]; }
      }
    }

    /** TUNNEL_OK. A missing tunnel id is none. */
    method OnTunnelOk(reqId: nat, tunnelId: Option<nat>)
      requires Valid()
      modifies `pending, `tunnels
      ensures Valid() && pending == old(pending) - {reqId}
      ensures tunnels == if reqId in old(pending) && tunnelId.Some?
                         then old(tunnels)[tunnelId.value := old(pending)[reqId]] else old(tunnels)
    {
      hide Linked, Mirrored, Dialling, Buried, Traced, Listed;
      var spec := if reqId in pending then Some(pending[reqId]) else None;
      pending := pending - {reqId};
      if spec.Some? && tunnelId.Some? { tunnels := tunnels[tunnelId.value := spec.value]; }
    }

    method OnError(reqId: nat)
      requires Valid()
      modifies `pending
      ensures Valid() && pending == old(pending) - {reqId}
    {
      hide Linked, Mirrored, Dialling, Buried, Traced, Listed;
      pending := pending - {reqId};
    }

    method Send(id: nat, sent: seq<Msg>)
      modifies this`out
      ensures out == old(After(Tag(id, sent)))
    {
      if !online { return; }
      out := out + Tag(id, sent);
    }

    method OnStreamFinished(id: nat)
      modifies `streams
      ensures old(Linked()) ==> Linked()
      ensures streams == old(streams) - {id}
    {
      streams := streams - {id};
    }

    /** What a handler of stream `id` asked of the agent. */
    method Settle(id: nat, sent: seq<Msg>, reported: bool)
      requires Linked()
      modifies `out, `streams
      ensures Linked() && out == old(After(Tag(id, sent)))
      ensures streams == if reported then old(streams) - {id} else old(streams)
      ensures streams.Keys == if reported then old(streams.Keys) - {id} else old(streams.Keys)
    {
      Send(id, sent);
      if reported { OnStreamFinished(id); }
    }

    // ---- frames ----

    /** What the server sends: the two kinds of answers to a request for a tunnel, control
        frames of no concern, or a stream frame, whose OPEN names a tunnel. One of a type that
        the agent does not know is ignored by a stream that is live. */
    method HandleMessage(m: Inbound, answer: bool, buffered: int)
      requires Valid()
      modifies `streams, `all, `ends, `past, `repr, `out, `congested, `tunnels, `pending, repr
      ensures Valid() <==>
        !(m.StreamFrame? && m.frame.msg.Open? && m.tunnelId in old(tunnels) && m.frame.id in old(streams))
      ensures old(past) <= past && old(repr) <= repr && fresh(repr - old(repr))
      ensures if m.StreamFrame? && m.frame.msg.Open? && m.tunnelId in old(tunnels)
              then m.frame.id in streams && repr == old(repr) + {streams[m.frame.id]}
              else repr == old(repr)
      ensures !m.StreamFrame? && !m.UnknownFrame? ==>
        ends == old(ends) && out == old(out) && congested == old(congested)
      ensures m.UnknownFrame? ==>
        && var live := m.id in old(ends) && !old(ends)[m.id].finished;
           && out == (if live || !online then old(out) else old(out) + [Frame(m.id, Reset)])
           && congested == (old(congested) || (out != old(out) && buffered > WS_MAX_BUFFERED))
           && ends == if congested && !old(congested) then PauseAll(old(ends), true) else old(ends)
      ensures m.StreamFrame? ==>
        && tunnels == old(tunnels) && pending == old(pending)
        && var h := OnMessage(old(ends), m.frame, Spec(tunnels, m.tunnelId), window, old(congested), answer);
           && out == (if online then old(out) + h.sent else old(out))
           && congested == (old(congested) || (out != old(out) && buffered > WS_MAX_BUFFERED))
           && ends == if congested && !old(congested) then PauseAll(h.ends, true) else h.ends
    {
      hide Linked, Mirrored, Dialling, Configured, Buried, Traced, Listed, OnMessage, PauseAll;
      match m {
        case TunnelOk(reqId, tunnelId) => OnTunnelOk(reqId, tunnelId);
        case Refused(reqId) => OnError(reqId);
        case OtherControl =>
        case StreamFrame(frame, tunnelId) => HandleFrame(frame, tunnelId, answer, buffered);
        case UnknownFrame(id) => HandleUnknown(id, buffered);
      }
    }

    /** A stream frame of a type that the agent does not know, or a grant cut short. */
    method HandleUnknown(id: nat, buffered: int)
      requires Valid()
      modifies `ends, `out, `congested, repr
      ensures Valid()
      ensures id in streams <==> id in old(ends) && !old(ends)[id].finished
      ensures out == if id in streams || !online then old(out) else old(out) + [Frame(id, Reset)]
      ensures congested == (old(congested) || (out != old(out) && buffered > WS_MAX_BUFFERED))
      ensures ends == if congested && !old(congested) then PauseAll(old(ends), true) else old(ends)
    {
      hide Linked, Mirrored, Dialling, Configured, Buried, Traced, Listed, PauseAll;
      ListedMeansLive();
      if id in streams { return; }
      var before := |out|;
      assert Tag(id, [Reset]) == [Frame(id, Reset)];
      Send(id, [Reset]);
      if |out| > before { CheckCongestion(buffered); }
    }

    /** `tunnelId` is what an OPEN frame names; `answer` the local socket's to a write;
        `buffered` what the WebSocket has queued after the last frame sent, if any. */
    method HandleFrame(f: Frame, tunnelId: nat, answer: bool, buffered: int)
      requires Valid()
      modifies `streams, `all, `ends, `past, `repr, `out, `congested, repr
      ensures !f.msg.Open? ==> Valid() && repr == old(repr) && past == old(past) && all == old(all)
      ensures f.msg.Open? ==> (Valid() <==> tunnelId !in tunnels || f.id !in old(streams))
      ensures old(past) <= past && old(repr) <= repr && fresh(repr - old(repr))
      ensures f.msg.Open? && tunnelId in tunnels ==>
        && f.id in streams && streams[f.id] !in old(repr) && streams == old(streams)[f.id := streams[f.id]]
        && repr == old(repr) + {streams[f.id]}
      ensures f.msg.Open? && tunnelId !in tunnels ==> repr == old(repr)
      ensures var h := OnMessage(old(ends), f, Spec(tunnels, tunnelId), window, old(congested), answer);
              && out == (if online then old(out) + h.sent else old(out))
              && congested == (old(congested) || (out != old(out) && buffered > WS_MAX_BUFFERED))
              && ends == if congested && !old(congested) then PauseAll(h.ends, true) else h.ends
    {
      hide OnMessage, Linked, Mirrored, Dialling, Configured, Buried, Traced, Listed, PauseAll;
      RefusedOnly(ends, f, Spec(tunnels, tunnelId), window, congested, answer);
      var before := |out|;
      Relay(f, tunnelId, answer);
      if |out| > before { CheckCongestion(buffered); }
    }

    method Relay(f: Frame, tunnelId: nat, answer: bool)
      requires Valid()
      modifies `streams, `all, `ends, `past, `repr, `out, repr
      ensures !f.msg.Open? ==> Valid() && repr == old(repr) && past == old(past) && all == old(all)
      ensures f.msg.Open? ==> (Valid() <==> tunnelId !in tunnels || f.id !in old(streams))
      ensures old(past) <= past && old(repr) <= repr && fresh(repr - old(repr))
      ensures f.msg.Open? && tunnelId in tunnels ==>
        && f.id in streams && streams[f.id] !in old(repr) && streams == old(streams)[f.id := streams[f.id]]
        && repr == old(repr) + {streams[f.id]}
      ensures f.msg.Open? && tunnelId !in tunnels ==> repr == old(repr)
      ensures var h := OnMessage(old(ends), f, Spec(tunnels, tunnelId), window, congested, answer);
              ends == h.ends && out == if online then old(out) + h.sent else old(out)
    {
      hide OnOpen, OnFrame, Linked, Mirrored, Dialling, Buried, InMap;
      if f.msg.Open? {
        OnStreamOpen(f.id, tunnelId);
        return;
      }
      ListedMeansLive();
      if f.id !in streams {
        // Frames of a stream that ended here can still be on their way.
        DeadFrame(ends, f, answer);
        if f.msg != Reset { Send(f.id, [Reset]); }
      } else {
        LiveFrame(ends, f, answer);
        HandleKnown(f.id, f.msg, answer);
      }
    }

    /** A frame for a stream in the map. */
    method HandleKnown(id: nat, m: Msg, answer: bool)
      requires Valid() && id in streams && streams[id] in repr && id in ends && !ends[id].finished
      modifies `ends, `out, `streams, repr
      ensures Valid()
      ensures ends == old(ends)[id := Endpoint.Dispatch(old(ends[id]), m, answer).e]
      ensures out == old(After(Tag(id, Endpoint.Dispatch(ends[id], m, answer).sent)))
    {
      hide Endpoint.Dispatch, InMap, Linked, Mirrored, Buried, Traced, AllUndialled;
      InMapStep(ends, streams.Keys, id, Endpoint.Dispatch(ends[id], m, answer).e);
      UndialledDispatch(ends, id, m, answer);
      var sent, reported := DispatchOne(id, m, answer);
      Settle(id, sent, reported);
    }

    /** One stream handles a frame; the others do not notice. */
    method DispatchOne(id: nat, m: Msg, answer: bool) returns (sent: seq<Msg>, reported: bool)
      requires Linked() && Mirrored() && Buried() && id in streams && !ends[id].finished
      modifies streams[id], `ends
      ensures Mirrored() && Buried() && ends == old(ends)[id := ends[id]]
      ensures Out(ends[id], sent) == Endpoint.Dispatch(old(ends[id]), m, answer)
      ensures reported <==> ends[id].finished
    {
      hide Endpoint.Dispatch, ClientStream.View, ClientStream.Valid;
      LifeInView(streams[id]);
      sent, reported := streams[id].Dispatch(m, answer);
      LifeInView(streams[id]);
      ends := ends[id := all[id].View()];
    }

    // ---- the dial and the local sockets ----

    /** Something happens to a stream's own socket, in this session or long after the one it
        belongs to. The streams of the past touch neither the map nor the WebSocket. */
    method OnStreamEvent(s: ClientStream, ev: Event, buffered: int)
      requires Valid() && s in repr && Enabled(s.View(), ev) && !ev.Congested?
      modifies `ends, `out, `streams, `congested, repr
      ensures Valid()
      ensures streams.Keys <= old(streams.Keys)
      ensures s in past ==>
        streams == old(streams) && ends == old(ends) && out == old(out) && congested == old(congested) && s.finished
      ensures s !in past ==>
        && s.id in old(ends) && old(ends)[s.id] == old(s.View()) && Enabled(old(ends)[s.id], ev)
        && var h := OnEvent(old(ends), s.id, ev);
           && out == (if online then old(out) + h.sent else old(out))
           && congested == (old(congested) || (out != old(out) && buffered > WS_MAX_BUFFERED))
           && ends == if congested && !old(congested) then PauseAll(h.ends, true) else h.ends
    {
      hide OnEvent, Linked, Mirrored, Dialling, Buried, Traced, Listed, PauseAll, ClientStream.View;
      var before := |out|;
      HandleEvent(s, ev);
      if |out| > before { CheckCongestion(buffered); }
    }

    method HandleEvent(s: ClientStream, ev: Event)
      requires Valid() && s in repr && Enabled(s.View(), ev) && !ev.Congested?
      modifies `ends, `out, `streams, repr
      ensures Valid()
      ensures streams.Keys <= old(streams.Keys)
      ensures s in past ==> streams == old(streams) && ends == old(ends) && out == old(out) && s.finished
      ensures s !in past ==>
        && s.id in old(ends) && old(ends)[s.id] == old(s.View()) && Enabled(old(ends)[s.id], ev)
        && ends == OnEvent(old(ends), s.id, ev).ends
        && out == old(After(OnEvent(ends, s.id, ev).sent))
    {
      hide Handle, InMap, Linked, Mirrored, Buried, AllUndialled, ClientStream.View;
      FromThePast(s);
      if s !in past {
        UndialledHandle(ends, s.id, ev);
        InMapEvent(ends, streams.Keys, s.id, ev);
      }
      var sent, reported := RaiseEvent(s, ev);
      assert s in past ==> Tag(s.id, sent) == [];
      Settle(s.id, sent, reported);
    }

    lemma FromThePast(s: ClientStream)
      requires Valid() && s in repr
      ensures s in past ==> s.finished
      ensures s !in past ==> s.id in ends && s.id in all && all[s.id] == s && ends[s.id] == s.View()
    {
    }

    method RaiseEvent(s: ClientStream, ev: Event) returns (sent: seq<Msg>, reported: bool)
      requires Linked() && Mirrored() && Buried() && Traced() && Enabled(s.View(), ev) && !ev.Congested?
      requires s in past || (s.id in all && all[s.id] == s && Undialled(ends[s.id]))
      modifies s, `ends
      ensures Mirrored() && Buried()
      ensures s in past ==> ends == old(ends) && sent == [] && !reported && s.finished
      ensures s !in past ==>
        && ends == old(ends)[s.id := ends[s.id]]
        && Out(ends[s.id], sent) == Handle(old(ends[s.id]), ev)
        && (reported <==> ends[s.id].finished && !old(ends[s.id].finished))
    {
      hide Handle, ClientStream.View, ClientStream.Valid;
      LifeInView(s);
      if s in past { DeadHandle(s.View(), ev); }
      sent, reported := s.OnEvent(ev);
      LifeInView(s);
      if s !in past { ends := ends[s.id := s.View()]; }
    }

    /** OPEN. The TypeScript does not look whether the id is taken: if it is, the stream that
        held it is left behind unfinished, and when it ends it takes the new one's place in
        the map away. */
    method OnStreamOpen(id: nat, tunnelId: nat)
      requires Valid()
      modifies `streams, `all, `ends, `past, `repr, `out
      ensures Valid() <==> tunnelId !in tunnels || id !in old(streams)
      ensures old(past) <= past && old(repr) <= repr && fresh(repr - old(repr))
      ensures var h := OnOpen(old(ends), id, Spec(tunnels, tunnelId), window, congested);
              ends == h.ends && out == if online then old(out) + h.sent else old(out)
      ensures tunnelId in tunnels ==>
        && id in streams && id in all && streams[id] == all[id]
        && streams[id] !in old(repr) && streams == old(streams)[id := streams[id]]
        && repr == old(repr) + {streams[id]}
      ensures tunnelId !in tunnels ==> repr == old(repr)
    {
      hide Linked, Mirrored, Buried, Traced, Listed, ClientStream.View, ClientStream.Valid;
      if tunnelId !in tunnels {
        Send(id, [Reset]);
        assert Tag(id, [Reset]) == [Frame(id, Reset)];
        return;
      }
      var stream := new ClientStream(id, tunnels[tunnelId], window);
      if congested { stream.SetGlobalPause(true); }
      Enter(id, stream);
    }

    /** How that comes about: the socket of the old stream closes. */
    method ClashThenClose(id: nat, tunnelId: nat)
      requires Valid() && id in streams && tunnelId in tunnels
      modifies this, repr
      ensures id !in streams && id in ends && !ends[id].finished
    {
      hide Mirrored, Linked, Dialling, Configured, Buried, Traced, Listed, ClientStream.View;
      ListedMeansLive();
      var before := streams[id];
      LifeInView(before);
      OnStreamOpen(id, tunnelId);
      var reported := before.Finish();
      if reported { OnStreamFinished(before.id); }
    }

    method Enter(id: nat, stream: ClientStream)
      requires Valid() && stream !in repr && stream.id == id && stream.Valid()
      requires !stream.View().finished && Undialled(stream.View())
      modifies `streams, `all, `ends, `repr, `past
      ensures Valid() <==> id !in old(streams)
      ensures repr == old(repr) + {stream} && old(past) <= past
      ensures ends == old(ends)[id := stream.View()]
      ensures streams == old(streams)[id := stream] && all == old(all)[id := stream]
    {
      hide Mirrored, Dialling, Buried, Traced, ClientStream.View, ClientStream.Valid, Undialled;
      Record(id, stream);
      streams := streams[id := stream];
    }

    /** From now on `id` leads to `stream`; what it led to so far is left to itself. */
    ghost method Record(id: nat, stream: ClientStream)
      requires Valid() && stream !in repr && stream.id == id && stream.Valid() && Undialled(stream.View())
      modifies `all, `ends, `repr, `past
      ensures Mirrored() && Dialling() && Traced()
      ensures Buried() <==> id !in streams
      ensures repr == old(repr) + {stream} && all == old(all)[id := stream] && ends == old(ends)[id := stream.View()]
      ensures past == if id in old(all) then old(past) + {old(all)[id]} else old(past)
    {
      hide Linked, Mirrored, Configured, Buried, ClientStream.View, ClientStream.Valid, AllUndialled, Traces, Listed;
      IdsAgree();
      UndialledOne(ends, id, stream.View());
      TracesOne(repr, past, all, id, stream);
      Supersede(id);
      Mirror(id, stream);
    }

    ghost method Mirror(id: nat, stream: ClientStream)
      requires Mirrored() && stream.Valid()
      modifies `all, `ends, `repr
      ensures Mirrored()
      ensures repr == old(repr) + {stream} && all == old(all)[id := stream] && ends == old(ends)[id := stream.View()]
    {
      hide ClientStream.View, ClientStream.Valid;
      all := all[id := stream];
      ends := ends[id := stream.View()];
      repr := repr + {stream};
    }

    lemma IdsAgree()
      requires Linked()
      ensures forall id :: id in all ==> all[id].id == id
    {
    }

    ghost method Supersede(id: nat)
      requires Valid()
      modifies `past
      ensures past == if id in all then old(past) + {all[id]} else old(past)
      ensures Buried() <==> id !in streams
    {
      hide ClientStream.View, ClientStream.Valid, AllUndialled, Traces, InMap;
      ListedMeansLive();
      if id in all {
        LifeInView(all[id]);
        past := past + {all[id]};
      }
    }

    // ---- congestion ----

    method PauseOne(id: nat, on: bool)
      requires Linked() && Mirrored() && Buried() && Traced() && id in streams
      modifies repr, `ends
      ensures Mirrored() && Buried() && ends == old(ends)[id := Endpoint.SetGlobalPause(old(ends)[id], on)]
    {
      hide Endpoint.SetGlobalPause, ClientStream.View, ClientStream.Valid;
      streams[id].SetGlobalPause(on);
      ends := ends[id := all[id].View()];
    }

    method PauseStreams(on: bool)
      requires Linked() && Mirrored() && Buried() && Traced() && InMap(ends, streams.Keys) && streams.Keys <= ends.Keys
      modifies repr, `ends
      ensures Mirrored() && Buried() && InMap(ends, streams.Keys) && ends == PauseAll(old(ends), on)
    {
      hide Endpoint.SetGlobalPause, Linked, Mirrored, Buried, Traced, InMap, PausedFor, PauseAll;
      var rest := streams.Keys;
      PausedForNone(ends, on);
      assert streams.Keys - rest == {};
      while rest != {}
        invariant rest <= streams.Keys <= old(ends).Keys && Linked() && Mirrored() && Buried()
        invariant ends == PausedFor(old(ends), streams.Keys - rest, on)
        decreases |rest|
      {
        var id :| id in rest;
        PausedForMore(old(ends), streams.Keys - rest, id, on);
        LessOne(streams.Keys, rest, id);
        PauseOne(id, on);
        rest := rest - {id};
      }
      assert streams.Keys - rest == streams.Keys;
      PausedForAll(old(ends), streams.Keys, on);
    }

    /** What `send` does last: `buffered` is what the WebSocket has queued by then. */
    method CheckCongestion(buffered: int)
      requires Valid()
      modifies repr, `ends, `congested
      ensures Valid()
      ensures congested == (old(congested) || buffered > WS_MAX_BUFFERED)
      ensures ends == if congested && !old(congested) then PauseAll(old(ends), true) else old(ends)
    {
      hide PauseAll, Linked, Mirrored, Buried, Traced, InMap, Undialled;
      if congested || buffered <= WS_MAX_BUFFERED { return; }
      congested := true;
      LiveAreEnds(ends, streams.Keys);
      UndialledPause(ends, true);
      PauseStreams(true);
    }

    /** The poll while congested: streams flow again below half the limit, or when the
        WebSocket is gone. */
    method PollCongestion(buffered: int, gone: bool)
      requires Valid()
      modifies repr, `ends, `congested
      ensures Valid()
      ensures congested == (old(congested) && !gone && buffered > WS_MAX_BUFFERED / 2)
      ensures ends == if old(congested) && !congested then PauseAll(old(ends), false) else old(ends)
    {
      if gone || buffered <= WS_MAX_BUFFERED / 2 { ClearCongestion(); }
    }

    method ClearCongestion()
      requires Valid()
      modifies repr, `ends, `congested
      ensures Valid() && !congested
      ensures ends == if old(congested) then PauseAll(old(ends), false) else old(ends)
    {
      hide PauseAll, Linked, Mirrored, Buried, Traced, InMap, Undialled;
      if !congested { return; }
      congested := false;
      LiveAreEnds(ends, streams.Keys);
      UndialledPause(ends, false);
      PauseStreams(false);
    }

    // ---- teardown ----

    method DestroyEnd(id: nat) returns (sent: seq<Msg>, reported: bool)
      requires Linked() && Mirrored() && Buried() && id in streams && !ends[id].finished
      modifies streams[id], `ends
      ensures Mirrored() && Buried() && ends == old(ends)[id := Endpoint.Destroy(old(ends)[id], false).e]
      ensures reported && sent == Endpoint.Destroy(old(ends)[id], false).sent
    {
      hide Endpoint.Destroy, ClientStream.View, ClientStream.Valid;
      DestroyFinishes(ends[id], false);
      LifeInView(streams[id]);
      sent, reported := streams[id].Destroy(false);
      LifeInView(streams[id]);
      ends := ends[id := all[id].View()];
    }

    method DestroyOne(id: nat)
      requires Linked() && Mirrored() && Buried() && id in streams && !ends[id].finished && streams[id] in repr
      modifies repr, `ends, `out, `streams
      ensures Linked() && Mirrored() && Buried() && out == old(out)
      ensures streams.Keys == old(streams.Keys) - {id}
      ensures ends == old(ends)[id := Endpoint.Destroy(old(ends)[id], false).e]
    {
      hide Linked, Mirrored, Buried;
      var sent, reported := DestroyEnd(id);
      assert Tag(id, sent) == [];
      Settle(id, sent, reported);
    }

    method DestroyStreams()
      requires Valid()
      modifies repr, `ends, `out, `streams
      ensures Linked() && Mirrored() && Buried() && streams == map[] && out == old(out)
      ensures ends == DestroyAll(old(ends), false) && InMap(ends, {})
    {
      hide Endpoint.Destroy, Linked, Mirrored, Buried, Traced, InMap, Dialling, DestroyedFor, DestroyAll;
      ghost var live := streams.Keys;
      DestroyedForNone(ends, false);
      assert live - streams.Keys == {};
      LiveAreEnds(ends, live);
      while streams.Keys != {}
        invariant streams.Keys <= live <= old(ends).Keys && Linked() && Mirrored() && Buried() && out == old(out)
        invariant ends == DestroyedFor(old(ends), live - streams.Keys, false)
        decreases |streams.Keys|
      {
        ghost var done := live - streams.Keys;
        var id :| id in streams.Keys;
        DestroyedForMore(old(ends), live, done, id, false);
        StreamsInRepr(id);
        LessOne(live, streams.Keys, id);
        DestroyOne(id);
      }
      assert live - streams.Keys == live;
      DestroyedForAll(old(ends), live, false);
    }

    lemma StreamsInRepr(id: nat)
      requires Linked() && Mirrored() && id in streams
      ensures streams[id] in repr
    {
    }

    /** The WebSocket is gone, or the handshake failed: every stream of the session is
        finished, without a word to the server, and the agent forgets the session. */
    method TeardownSession()
      requires Valid()
      modifies this, repr
      ensures Valid() && !online && !congested && out == old(out) && window == old(window)
      ensures streams == map[] && tunnels == map[] && pending == map[] && ends == map[]
      ensures repr == old(repr) && past == repr
      ensures forall id :: id in old(streams) && old(streams[id].connected) ==> old(streams)[id].destroyed
    {
      hide Linked, Mirrored, Dialling, Configured, Buried, Listed, Traced;
      WindowIsPositive();
      EndStreams();
      streams := map[];
      tunnels := map[];
      pending := map[];
      online := false;
      AllForgotten();
    }

    method EndStreams()
      requires Valid()
      modifies repr, `ends, `out, `streams, `congested, `all, `past
      ensures Mirrored() && Buried() && Traced() && !congested && out == old(out)
      ensures all == map[] && ends == map[] && repr == old(repr) && past == repr
      ensures forall id :: id in old(streams) && old(streams[id].connected) ==> old(streams)[id].destroyed
    {
      hide DestroyAll, PauseAll, Linked, Mirrored, Dialling, Configured, Buried, InMap, Traced;
      ghost var before, was := ends, streams;
      ListedMeansLive();
      EndsTell();
      ClearCongestion();
      ghost var released := ends;
      DestroyStreams();
      EndsTell();
      AllDestroyed(before, released, was);
      Bury();
    }

    lemma EndsTell()
      requires Linked() && Mirrored()
      ensures forall id :: id in all ==>
        id in ends && all[id].connected == ends[id].connected && all[id].destroyed == ends[id].destroyed
    {
    }

    /** Congestion ended, then all live streams were torn down. */
    lemma AllDestroyed(before: Ends, released: Ends, was: map<nat, ClientStream>)
      requires released == before || released == PauseAll(before, false)
      requires ends == DestroyAll(released, false)
      requires forall id :: id in all ==> id in ends && all[id].destroyed == ends[id].destroyed
      requires forall id :: id in was ==> id in before && !before[id].finished && id in all && all[id] == was[id]
      ensures forall id :: id in was && before[id].connected ==> was[id].destroyed
    {
      forall id | id in was && before[id].connected ensures was[id].destroyed {
        if released != before { PausedSocketsStay(before, false, id); }
        SocketsDestroyed(released, false, id);
      }
    }

    /** All streams have ended: no id leads to one any more. */
    ghost method Bury()
      requires Mirrored() && Buried() && Traced() && InMap(ends, {})
      modifies `past, `all, `ends
      ensures past == repr && all == map[] && ends == map[]
      ensures Buried() && Mirrored() && Traced()
    {
      past := repr;
      all := map[];
      ends := map[];
    }

    lemma WindowIsPositive()
      requires Configured()
      ensures window > 0
    {
    }

    lemma AllForgotten()
      requires streams == map[] && tunnels == map[] && pending == map[] && all == map[] && ends == map[] && window > 0
      ensures Linked() && Dialling() && Configured() && Listed()
    {
    }

    /** A stream of the last session is still dialling, or its socket still closing, when the
        next session opens a stream of the same id: whatever becomes of the old one, the new
        one is in the map as OPEN left it, and nothing was sent. */
    method LateEvent(s: ClientStream, specs: seq<Role>, reqId: nat, tunnelId: nat, ev: Event, buffered: int)
      requires Valid() && s in repr && reqId < |specs| && !ev.Congested?
      requires forall i :: 0 <= i < |specs| ==> specs[i].agent
      modifies this, repr
      ensures Valid() && out == [] && s in past && s.finished
      ensures s.id in streams && streams[s.id] != s && ends == map[s.id := NewEnd(specs[reqId], window)]
    {
      hide Linked, Mirrored, Dialling, Configured, Buried, Traced, Listed, PauseAll, ClientStream.View, OnMessage;
      NextSession(specs, reqId, tunnelId);
      FirstOpen(s.id, specs[reqId], window);
      HandleFrame(Frame(s.id, Open), tunnelId, true, buffered);
      if s.Ready(ev) { OnStreamEvent(s, ev, buffered); }
      PastIsFinished(s);
    }

    /** The agent reconnects, and the server serves the tunnel it asked for as `reqId`. */
    method NextSession(specs: seq<Role>, reqId: nat, tunnelId: nat)
      requires Valid() && reqId < |specs| && forall i :: 0 <= i < |specs| ==> specs[i].agent
      modifies this, repr
      ensures Valid() && online && !congested && out == [] && window == old(window)
      ensures ends == map[] && streams == map[] && repr == old(repr) && past == repr
      ensures tunnels == map[tunnelId := specs[reqId]]
    {
      hide Valid, Requests;
      Reconnect();
      RegisterTunnels(specs);
      assert pending[reqId] == specs[reqId];
      OnTunnelOk(reqId, Some(tunnelId));
    }

    method Reconnect()
      requires Valid()
      modifies this, repr
      ensures Valid() && online && !congested && out == [] && asked == [] && window == old(window)
      ensures ends == map[] && streams == map[] && tunnels == map[] && pending == map[]
      ensures repr == old(repr) && past == repr
    {
      hide Linked, Mirrored, Dialling, Configured, Buried, Traced, Listed;
      TeardownSession();
      Connected();
    }

    lemma PastIsFinished(s: ClientStream)
      requires Buried() && s in past
      ensures s.finished
    {
    }

    lemma ListedMeansLive()
      requires Linked() && Mirrored() && Listed()
      ensures forall id :: id in streams <==> id in ends && !ends[id].finished
      ensures forall id :: id in streams ==>
        && streams[id] in repr && id in all && streams[id] == all[id]
        && streams[id].id == id && !streams[id].View().finished
    {
    }
  }

  lemma LifeInView(s: ClientStream)
    ensures s.finished == s.View().finished
    ensures s.View().src.sentEof == s.sentEof && s.View().snk.receivedEof == s.receivedEof
    ensures s.View().connected == s.connected
  {
  }

  lemma UndialledDispatch(ends: Ends, id: nat, m: Msg, answer: bool)
    requires AllUndialled(ends) && id in ends
    ensures AllUndialled(ends[id := Endpoint.Dispatch(ends[id], m, answer).e])
  {
  }

  lemma UndialledHandle(ends: Ends, id: nat, ev: Event)
    requires AllUndialled(ends) && id in ends && Enabled(ends[id], ev)
    ensures Undialled(ends[id]) && AllUndialled(ends[id := Handle(ends[id], ev).e])
  {
  }

  lemma UndialledPause(m: Ends, on: bool)
    requires AllUndialled(m)
    ensures AllUndialled(PauseAll(m, on))
  {
  }

  lemma UndialledOne(m: Ends, id: nat, e: End)
    requires AllUndialled(m) && Undialled(e)
    ensures AllUndialled(m[id := e])
  {
  }

  lemma TracesOne(
    repr: set<ClientStream>, past: set<ClientStream>, all: map<nat, ClientStream>, id: nat, s: ClientStream)
    requires Traces(repr, past, all) && s !in repr && s.id == id && forall j :: j in all ==> all[j].id == j
    ensures Traces(repr + {s}, if id in all then past + {all[id]} else past, all[id := s])
  {
  }

  /** What the server's messages are to the agent. */
  datatype Inbound =
    | TunnelOk(reqId: nat, served: Option<nat>) | Refused(failed: nat) | OtherControl
    | StreamFrame(frame: Frame, tunnelId: nat) | UnknownFrame(id: nat)

  /** The whole of `handleFrame` for a stream frame, on the map of ends. */
  function OnMessage(ends: Ends, f: Frame, spec: Option<Role>, window: int, congested: bool, answer: bool): Half {
    if f.msg.Open? then OnOpen(ends, f.id, spec, window, congested) else OnFrame(ends, f, answer)
  }

  lemma RefusedOnly(ends: Ends, f: Frame, spec: Option<Role>, window: int, congested: bool, answer: bool)
    ensures f.msg.Open? && spec.Some? ==> OnMessage(ends, f, spec, window, congested, answer).sent == []
  {
  }

  lemma FirstOpen(id: nat, role: Role, window: int)
    ensures OnMessage(map[], Frame(id, Open), Some(role), window, false, true)
            == Half(map[id := NewEnd(role, window)], [])
  {
  }

  function Requests(specs: seq<Role>): seq<(nat, Role)> {
    seq(|specs|, i requires 0 <= i < |specs| => (i, specs[i]))
  }

  function Spec(tunnels: map<nat, Role>, tunnelId: nat): Option<Role> {
    if tunnelId in tunnels then Some(tunnels[tunnelId]) else None
  }
}
