/** server/src/agent.ts: the server's end of one WebSocket: the map of its streams, id
    allocation, the answers to unknown streams, congestion, teardown, and the number of
    open connections of each tunnel. */
module ServerSession {
  import Codec
  import opened Frames
  import opened Endpoint
  import opened Mux
  import opened Options
  import opened ServerStream
  import opened SessionMaps
  import opened Sockets

  const MAX_STREAM_ID: nat := 0xffff_fffe
  const ALLOC_ATTEMPTS: nat := 1024

  /** A frame off the wire, on the map of ends: a stream frame that means nothing is ignored
      by a stream that is live. */
  function OnDecoded(ends: Ends, d: Codec.Decoded, answer: bool): Half {
    match d
    case Stream(_, id, _) =>
      if Codec.Meaning(d).Some? then OnFrame(ends, Codec.Meaning(d).value, answer)
      else Half(ends, if id in ends && !ends[id].finished then [] else [Frame(id, Reset)])
    case _ => Half(ends, [])
  }

  class Tunnel {
    var openConns: int
    var totalConns: nat

    constructor ()
      ensures openConns == 0 && totalConns == 0
    {
      openConns, totalConns := 0, 0;
    }
  }

  /** A frame of an unknown type is to a stream that is over what any other is. */
  lemma UnknownFrameIs(ends: Ends, d: Codec.Decoded, answer: bool)
    requires d.Stream? && Codec.Meaning(d).None?
    ensures d.id in ends && !ends[d.id].finished ==> OnDecoded(ends, d, answer) == Half(ends, [])
    ensures d.id !in ends || ends[d.id].finished ==>
      OnDecoded(ends, d, answer) == OnFrame(ends, Frame(d.id, Eof), answer)
  {
    hide Codec.Meaning;
    if d.id !in ends || ends[d.id].finished { DeadFrame(ends, Frame(d.id, Eof), answer); }
    assert Tag(d.id, [Reset]) == [Frame(d.id, Reset)];
  }

  /** The connections of tunnel `t`. */
  ghost function Conns(m: map<nat, Tunnel>, t: Tunnel): set<nat> {
    set id | id in m && m[id] == t
  }

  lemma ConnsAdd(m: map<nat, Tunnel>, id: nat, t: Tunnel, u: Tunnel)
    requires id !in m
    ensures |Conns(m[id := t], u)| == |Conns(m, u)| + (if t == u then 1 else 0)
  {
    assert Conns(m[id := t], u) == Conns(m, u) + (if t == u then {id} else {});
  }

  lemma ConnsRemove(m: map<nat, Tunnel>, id: nat, u: Tunnel)
    requires id in m
    ensures |Conns(m - {id}, u)| == |Conns(m, u)| - (if m[id] == u then 1 else 0)
  {
    assert Conns(m - {id}, u) == Conns(m, u) - {id};
  }

  lemma ConnsRemoveAll(m: map<nat, Tunnel>, id: nat)
    requires id in m
    ensures forall u {:trigger Conns(m - {id}, u)} ::
      |Conns(m - {id}, u)| == |Conns(m, u)| - (if m[id] == u then 1 else 0)
  {
    forall u ensures |Conns(m - {id}, u)| == |Conns(m, u)| - (if m[id] == u then 1 else 0) {
      ConnsRemove(m, id, u);
    }
  }

  /** The id after `id`, around the end of the id space. */
  function NextId(id: nat): nat {
    if id >= MAX_STREAM_ID then 1 else id + 1
  }

  /** The id `steps` after `id`. */
  function IdAfter(id: nat, steps: nat): nat {
    if id + steps <= MAX_STREAM_ID then id + steps else id + steps - MAX_STREAM_ID
  }

  /** The ids used so far: those below the next one, or all once they have wrapped around. */
  ghost predicate IdSpace(used: set<nat>, next: nat, wrapped: bool) {
    && 1 <= next <= MAX_STREAM_ID
    && forall id :: id in used <==> 1 <= id <= MAX_STREAM_ID && (wrapped || id < next)
  }

  ghost predicate Traces(repr: set<Stream>, past: set<Stream>, all: map<nat, Stream>) {
    && past <= repr
    && (forall s :: s in repr ==> s in past || (s.id in all && all[s.id] == s))
    && (forall id :: id in all ==> all[id] in repr && all[id] !in past)
  }

  lemma TracesOne(repr: set<Stream>, past: set<Stream>, all: map<nat, Stream>, id: nat, s: Stream)
    requires Traces(repr, past, all) && s !in repr && s.id == id && forall j :: j in all ==> all[j].id == j
    ensures Traces(repr + {s}, if id in all then past + {all[id]} else past, all[id := s])
  {
  }

  class AgentSession {
    const window: int
    const wsMaxBuffered: int
    var streams: map<nat, Stream>
    var streamTunnels: map<nat, Tunnel>
    var nextStreamId: nat
    var congested: bool
    var closed: bool
    /** The WebSocket is OPEN. */
    var online: bool
    /** The frames handed to the WebSocket, in order. */
    var out: seq<Frame>
    /** The latest stream of every id, finished ones included. */
    ghost var all: map<nat, Stream>
    /** Their ends, as values. */
    ghost var ends: Ends
    /** All streams ever opened, and those of them whose id was given to another one. */
    ghost var repr: set<Stream>
    ghost var past: set<Stream>
    /** The tunnel each id was last opened for, and all tunnels seen. */
    ghost var bookedFor: map<nat, Tunnel>
    ghost var tunnels: set<Tunnel>
    /** The id space was used up, so that every id from now on was used before. */
    ghost var wrapped: bool

    /** The maps agree, whatever state the streams are in. */
    ghost predicate Linked()
      reads `streams, `all
    {
      && (forall id :: id in all ==> all[id].id == id)
      && (forall id :: id in streams ==> id in all && streams[id] == all[id])
    }

    ghost predicate IdsOk()
      reads `nextStreamId, `wrapped, `all
    {
      IdSpace(all.Keys, nextStreamId, wrapped)
    }

    /** Every live stream counts for its tunnel, once, and nothing else does. */
    ghost predicate Counted()
      reads `streamTunnels, `bookedFor, `tunnels, tunnels`openConns
    {
      && (forall id :: id in streamTunnels ==> id in bookedFor && streamTunnels[id] == bookedFor[id])
      && (forall id :: id in bookedFor ==> bookedFor[id] in tunnels)
      && (forall t :: t in tunnels ==> t.openConns == |Conns(streamTunnels, t)|)
    }

    ghost predicate Accounted()
      reads `streams, `streamTunnels, `bookedFor, `tunnels, tunnels`openConns
    {
      streamTunnels.Keys == streams.Keys && Counted()
    }

    /** A stream is in the map exactly while it is not finished. */
    ghost predicate Listed()
      reads `streams, `ends
    {
      InMap(ends, streams.Keys)
    }

    /** `ends` tells what the streams are. */
    ghost predicate Mirrored()
      reads `all, `ends, `repr, repr
    {
      && ends.Keys == all.Keys
      && (forall id :: id in all ==> all[id] in repr)
      && (forall id :: id in all ==> ends[id] == all[id].View())
    }

    ghost predicate Traced()
      reads `repr, `past, `all
    {
      Traces(repr, past, all)
    }

    /** Nothing is left to happen to the streams of the past. */
    ghost predicate Buried()
      reads `past, past
    {
      forall s :: s in past ==> s.View().finished
    }

    /** All but the ids: what holds also while a new one is being given out. */
    ghost predicate Sound()
      reads `streams, `streamTunnels, `all, `ends, `repr, `past, `tunnels, `bookedFor
      reads repr, past, tunnels`openConns
    {
      Linked() && Accounted() && Mirrored() && Listed() && Traced() && Buried()
    }

    ghost predicate Valid()
      reads this, repr, past, tunnels`openConns
    {
      Sound() && IdsOk()
    }

    /** The live ids that were opened for `t`. */
    ghost function LiveFor(t: Tunnel): set<nat>
      reads `bookedFor, `ends
    {
      set id | id in bookedFor && id in ends && !ends[id].finished && bookedFor[id] == t
    }

    /** A tunnel's count is the number of live streams that were opened for it. */
    lemma OpenConnsAreLive(t: Tunnel)
      requires Valid()
      ensures t in tunnels ==> t.openConns == |LiveFor(t)|
      ensures t !in tunnels ==> LiveFor(t) == {}
    {
      if t in tunnels { assert Conns(streamTunnels, t) == LiveFor(t); }
    }

    /** `out` after sending `frames`: a session that is gone sends nothing, nor does one whose
        WebSocket is not open. */
    ghost function After(frames: seq<Frame>): seq<Frame>
      reads `closed, `online, `out
    {
      if closed || !online then out else out + frames
    }

    constructor (window: int, wsMaxBuffered: int)
      ensures Valid() && ends == map[] && out == [] && !closed && online && !congested
      ensures this.window == window && this.wsMaxBuffered == wsMaxBuffered
      ensures nextStreamId == 1 && !wrapped && tunnels == {} && repr == {} && bookedFor == map[]
    {
      this.window, this.wsMaxBuffered := window, wsMaxBuffered;
      streams, streamTunnels, nextStreamId, congested, closed, out := map[], map[], 1, false, false, [];
      online, all, ends, repr, past, tunnels, wrapped, bookedFor := true, map[], map[], {}, {}, {}, false, map[];
    }

    /** The WebSocket is no longer OPEN. */
    method OnWebSocketClosing()
      requires Valid()
      modifies `online
      ensures Valid() && !online
    {
      hide Linked, Accounted, Mirrored, Listed, Traced, Buried, IdSpace;
      online := false;
    }

    method Send(id: nat, sent: seq<Msg>)
      modifies this`out
      ensures out == old(After(Tag(id, sent)))
    {
      if closed || !online { return; }
      out := out + Tag(id, sent);
    }

    // ---- stream ids ----

    /** The first id that is not live, from `nextStreamId` on, around the id space: it
        fails only when 1024 ids in a row are live, hence never with fewer live streams. Until
        the ids have wrapped around it is the next one, used never before; from then on it
        was used before. They wrap around with the last id of the space. */
    method AllocStreamId() returns (r: Option<nat>, ghost skipped: nat)
      requires Linked() && IdsOk()
      modifies `nextStreamId, `wrapped
      ensures r.Some? ==> 1 <= r.value <= MAX_STREAM_ID && r.value !in streams && nextStreamId == NextId(r.value)
      ensures r.Some? ==> skipped < ALLOC_ATTEMPTS && r.value == IdAfter(old(nextStreamId), skipped)
      ensures forall j: nat :: j < skipped ==> IdAfter(old(nextStreamId), j) in streams
      ensures r.None? ==> skipped == ALLOC_ATTEMPTS && old(wrapped)
      ensures |streams| < ALLOC_ATTEMPTS ==> r.Some?
      ensures !old(wrapped) ==> r == Some(old(nextStreamId))
      ensures wrapped <==> old(wrapped) || r == Some(MAX_STREAM_ID)
      ensures r.Some? ==> (r.value in all <==> old(wrapped))
      ensures IdSpace(if r.Some? then all.Keys + {r.value} else all.Keys, nextStreamId, wrapped)
    {
      for i := 0 to ALLOC_ATTEMPTS
        invariant nextStreamId == IdAfter(old(nextStreamId), i)
        invariant forall j: nat :: j < i ==> IdAfter(old(nextStreamId), j) in streams
        invariant wrapped == old(wrapped) && (i > 0 ==> wrapped)
      {
        var id := nextStreamId;
        nextStreamId := if nextStreamId >= MAX_STREAM_ID then 1 else nextStreamId + 1;
        if id !in streams {
          if id == MAX_STREAM_ID { wrapped := true; }
          return Some(id), i;
        }
      }
      ManyIds(old(nextStreamId), ALLOC_ATTEMPTS, streams.Keys);
      return None, ALLOC_ATTEMPTS;
    }

    // ---- the end of a stream ----

    method OnStreamFinished(id: nat)
      requires Linked() && Accounted()
      modifies `streams, `streamTunnels, tunnels`openConns
      ensures Linked() && Accounted() && streams == old(streams) - {id}
    {
      hide Conns;
      if id !in streams {
        assert streams - {id} == streams;
        return;
      }
      var tunnel := streamTunnels[id];
      ConnsRemoveAll(streamTunnels, id);
      streams := streams - {id};
      tunnel.openConns := if tunnel.openConns - 1 < 0 then 0 else tunnel.openConns - 1;
      streamTunnels := streamTunnels - {id};
    }

    /** What a handler of stream `id` asked of the session. */
    method Settle(id: nat, sent: seq<Msg>, reported: bool)
      requires Linked() && Accounted()
      modifies `out, `streams, `streamTunnels, tunnels`openConns
      ensures Linked() && Accounted() && out == old(After(Tag(id, sent)))
      ensures streams == if reported then old(streams) - {id} else old(streams)
      ensures streams.Keys == if reported then old(streams.Keys) - {id} else old(streams.Keys)
    {
      Send(id, sent);
      if reported { OnStreamFinished(id); }
    }

    // ---- inbound frames ----

    /** One stream handles a frame; the others do not notice. */
    method Dispatch(id: nat, m: Msg, answer: bool) returns (sent: seq<Msg>, reported: bool)
      requires Linked() && Mirrored() && Traced() && Buried() && id in streams && !ends[id].finished
      modifies streams[id], `ends
      ensures Mirrored() && Buried() && ends == old(ends)[id := ends[id]]
      ensures Out(ends[id], sent) == Endpoint.Dispatch(old(ends[id]), m, answer)
      ensures reported <==> ends[id].finished
    {
      hide Endpoint.Dispatch, Stream.View;
      sent, reported := streams[id].Dispatch(m, answer);
      ends := ends[id := all[id].View()];
    }

    /** `answer` is the public socket's answer to a write, `buffered` what the WebSocket has
        queued after the last frame sent, if any. */
    method HandleFrame(f: Frame, answer: bool, buffered: int)
      requires Valid()
      modifies `ends, `out, `streams, `streamTunnels, `congested, repr, tunnels`openConns
      ensures Valid()
      ensures var h := OnFrame(old(ends), f, answer);
              && out == old(After(h.sent))
              && congested == (old(congested) || (out != old(out) && buffered > wsMaxBuffered))
              && ends == if congested && !old(congested) then PauseAll(h.ends, true) else h.ends
    {
      hide OnFrame, PauseAll, Linked, Accounted, Mirrored, Listed, Traced, Buried, IdSpace;
      var before := |out|;
      Relay(f, answer);
      if |out| > before { CheckCongestion(buffered); }
    }

    /** Any frame the session can decode; those about tunnels are for the registry. */
    method HandleMessage(d: Codec.Decoded, answer: bool, buffered: int) returns (forRegistry: bool)
      requires Valid() && !d.Malformed?
      modifies `ends, `out, `streams, `streamTunnels, `congested, repr, tunnels`openConns
      ensures Valid()
      ensures forRegistry <==> d.ControlFrame? && d.kind in {Codec.OPEN_TUNNEL, Codec.CLOSE_TUNNEL}
      ensures var h := OnDecoded(old(ends), d, answer);
              && out == old(After(h.sent))
              && congested == (old(congested) || (out != old(out) && buffered > wsMaxBuffered))
              && ends == if congested && !old(congested) then PauseAll(h.ends, true) else h.ends
    {
      hide OnFrame, PauseAll, Sound, IdSpace, Codec.Meaning;
      match d {
        case ControlFrame(kind, _) => forRegistry := kind == Codec.OPEN_TUNNEL || kind == Codec.CLOSE_TUNNEL;
        case Stream(_, id, _) =>
          forRegistry := false;
          var meaning := Codec.Meaning(d);
          if meaning.Some? {
            HandleFrame(meaning.value, answer, buffered);
          } else {
            HandleUnknown(id, buffered);
          }
      }
    }

    /** A stream frame of a type that the session does not know, or a grant cut short. */
    method HandleUnknown(id: nat, buffered: int)
      requires Valid()
      modifies `ends, `out, `congested, repr
      ensures Valid()
      ensures out == if id in streams then old(out) else old(After([Frame(id, Reset)]))
      ensures id in streams <==> id in old(ends) && !old(ends)[id].finished
      ensures congested == (old(congested) || (out != old(out) && buffered > wsMaxBuffered))
      ensures ends == if congested && !old(congested) then PauseAll(old(ends), true) else old(ends)
    {
      hide PauseAll, Linked, Accounted, Mirrored, Traced, Buried, IdSpace;
      if id in streams { return; }
      var before := |out|;
      assert Tag(id, [Reset]) == [Frame(id, Reset)];
      Send(id, [Reset]);
      if |out| > before { CheckCongestion(buffered); }
    }

    method Relay(f: Frame, answer: bool)
      requires Sound()
      modifies `ends, `out, `streams, `streamTunnels, repr, tunnels`openConns
      ensures Sound()
      ensures ends == OnFrame(old(ends), f, answer).ends && out == old(After(OnFrame(ends, f, answer).sent))
    {
      hide OnFrame, Accounted, Buried, Traces;
      if f.id !in streams {
        // The agent had not yet heard that this stream is over.
        DeadFrame(ends, f, answer);
        if f.msg != Reset { Send(f.id, [Reset]); }
      } else {
        LiveFrame(ends, f, answer);
        HandleKnown(f.id, f.msg, answer);
      }
    }

    /** A frame for a stream in the map. */
    method HandleKnown(id: nat, m: Msg, answer: bool)
      requires Sound() && id in streams && streams[id] in repr && id in ends && !ends[id].finished
      modifies `ends, `out, `streams, `streamTunnels, repr, tunnels`openConns
      ensures Sound()
      ensures ends == old(ends)[id := Endpoint.Dispatch(old(ends[id]), m, answer).e]
      ensures out == old(After(Tag(id, Endpoint.Dispatch(ends[id], m, answer).sent)))
    {
      hide Endpoint.Dispatch, InMap, Linked, Accounted, Mirrored, Buried, Traced;
      InMapStep(ends, streams.Keys, id, Endpoint.Dispatch(ends[id], m, answer).e);
      var sent, reported := Dispatch(id, m, answer);
      Settle(id, sent, reported);
    }

    /** The listeners of a public socket, whatever has become of its stream. */
    method OnSocketEvent(s: Stream, ev: Event, buffered: int)
      requires Valid() && s in repr && Enabled(s.View(), ev) && !ev.Congested?
      modifies `ends, `out, `streams, `streamTunnels, `congested, repr, tunnels`openConns
      ensures Valid()
      ensures s in past ==>
        streams == old(streams) && ends == old(ends) && out == old(out) && congested == old(congested)
      ensures s !in past ==>
        && s.id in old(ends) && old(ends)[s.id] == old(s.View()) && Enabled(old(ends)[s.id], ev)
        && var h := OnEvent(old(ends), s.id, ev);
           && out == old(After(h.sent))
           && congested == (old(congested) || (out != old(out) && buffered > wsMaxBuffered))
           && ends == if congested && !old(congested) then PauseAll(h.ends, true) else h.ends
    {
      hide OnEvent, PauseAll, Linked, Accounted, Mirrored, Listed, Traced, Buried, IdSpace, Stream.View;
      var before := |out|;
      HandleEvent(s, ev);
      if |out| > before { CheckCongestion(buffered); }
    }

    method HandleEvent(s: Stream, ev: Event)
      requires Sound() && s in repr && Enabled(s.View(), ev) && !ev.Congested?
      modifies `ends, `out, `streams, `streamTunnels, repr, tunnels`openConns
      ensures Sound()
      ensures s in past ==> streams == old(streams) && ends == old(ends) && out == old(out)
      ensures s !in past ==>
        && s.id in old(ends) && old(ends)[s.id] == old(s.View()) && Enabled(old(ends)[s.id], ev)
        && ends == OnEvent(old(ends), s.id, ev).ends && out == old(After(OnEvent(ends, s.id, ev).sent))
    {
      hide Handle, InMap, Linked, Accounted, Mirrored, Buried, Stream.View;
      FromThePast(s);
      if s !in past { InMapEvent(ends, streams.Keys, s.id, ev); }
      var sent, reported := RaiseEvent(s, ev);
      assert s in past ==> Tag(s.id, sent) == [];
      Settle(s.id, sent, reported);
    }

    lemma FromThePast(s: Stream)
      requires Sound() && s in repr
      ensures s in past ==> s.View().finished
      ensures s !in past ==> s.id in ends && s.id in all && all[s.id] == s && ends[s.id] == s.View()
    {
    }

    method RaiseEvent(s: Stream, ev: Event) returns (sent: seq<Msg>, reported: bool)
      requires Linked() && Mirrored() && Traced() && Buried() && Enabled(s.View(), ev) && !ev.Congested?
      requires s in past || (s.id in all && all[s.id] == s)
      modifies s, `ends
      ensures Mirrored() && Buried()
      ensures s in past ==> ends == old(ends) && sent == [] && !reported
      ensures s !in past ==>
        && ends == old(ends)[s.id := ends[s.id]]
        && Out(ends[s.id], sent) == Handle(old(ends[s.id]), ev)
        && (reported <==> ends[s.id].finished && !old(ends[s.id].finished))
    {
      hide Handle, Stream.View;
      if s in past { DeadHandle(s.View(), ev); }
      sent, reported := s.OnEvent(ev);
      if s !in past { ends := ends[s.id := s.View()]; }
    }

    // ---- congestion on the shared socket ----

    method PauseOne(id: nat, on: bool)
      requires Linked() && Mirrored() && Traced() && Buried() && id in streams
      modifies repr, `ends
      ensures Mirrored() && Buried() && ends == old(ends)[id := Endpoint.SetGlobalPause(old(ends)[id], on)]
    {
      hide Endpoint.SetGlobalPause, Stream.View;
      streams[id].SetGlobalPause(on);
      ends := ends[id := all[id].View()];
    }

    method PauseStreams(on: bool)
      requires Linked() && Mirrored() && Traced() && Buried() && InMap(ends, streams.Keys) && streams.Keys <= ends.Keys
      modifies repr, `ends
      ensures Mirrored() && Buried() && InMap(ends, streams.Keys) && ends == PauseAll(old(ends), on)
    {
      hide Endpoint.SetGlobalPause, Linked, Mirrored, Traced, Buried, InMap, PausedFor, PauseAll;
      var rest := streams.Keys;
      PausedForNone(ends, on);
      assert streams.Keys - rest == {};
      while rest != {}
        invariant rest <= streams.Keys <= old(ends).Keys && Linked() && Mirrored() && Buried()
        invariant ends == PausedFor(old(ends), streams.Keys - rest, on)
        decreases |rest|
      {
        var id :| id in rest;
        PausedForMore(old(ends), streams.Keys - rest, id, on);
        LessOne(streams.Keys, rest, id);
        PauseOne(id, on);
        rest := rest - {id};
      }
      assert streams.Keys - rest == streams.Keys;
      PausedForAll(old(ends), streams.Keys, on);
    }

    /** What `send` does last: `buffered` is what the WebSocket has queued by then. */
    method CheckCongestion(buffered: int)
      requires Sound()
      modifies repr, `ends, `congested
      ensures Sound()
      ensures congested == (old(congested) || buffered > wsMaxBuffered)
      ensures ends == if congested && !old(congested) then PauseAll(old(ends), true) else old(ends)
    {
      hide PauseAll, Linked, Accounted, Mirrored, Traced, Buried, InMap;
      if congested || buffered <= wsMaxBuffered { return; }
      congested := true;
      LiveAreEnds(ends, streams.Keys);
      PauseStreams(true);
    }

    /** The poll while congested: streams flow again below half the limit. */
    method PollCongestion(buffered: int)
      requires Sound()
      modifies repr, `ends, `congested
      ensures Sound()
      ensures congested == (old(congested) && !closed && buffered > wsMaxBuffered / 2)
      ensures ends == if old(congested) && !congested then PauseAll(old(ends), false) else old(ends)
    {
      if closed || buffered <= wsMaxBuffered / 2 { ClearCongestion(); }
    }

    method ClearCongestion()
      requires Sound()
      modifies repr, `ends, `congested
      ensures Sound() && !congested
      ensures ends == if old(congested) then PauseAll(old(ends), false) else old(ends)
    {
      hide PauseAll, Linked, Accounted, Mirrored, Traced, Buried, InMap;
      if !congested { return; }
      congested := false;
      LiveAreEnds(ends, streams.Keys);
      PauseStreams(false);
    }

    // ---- opening a stream ----

    /** Whether a frame sent now goes out. */
    predicate Up()
      reads `closed, `online
    {
      !closed && online
    }

    method Count(id: nat, tunnel: Tunnel)
      requires Counted() && id !in streamTunnels && (tunnel in tunnels || tunnel.openConns == 0)
      modifies `streamTunnels, `tunnels, `bookedFor, tunnel
      ensures Counted() && streamTunnels == old(streamTunnels)[id := tunnel]
      ensures tunnels == old(tunnels) + {tunnel} && bookedFor == old(bookedFor)[id := tunnel]
      ensures tunnel.openConns == old(tunnel.openConns) + 1 && tunnel.totalConns == old(tunnel.totalConns) + 1
    {
      NoConns(streamTunnels, tunnels, tunnel);
      ConnsAddAll(streamTunnels, id, tunnel);
      hide Conns;
      streamTunnels := streamTunnels[id := tunnel];
      tunnel.openConns := tunnel.openConns + 1;
      tunnel.totalConns := tunnel.totalConns + 1;
      tunnels := tunnels + {tunnel};
      bookedFor := bookedFor[id := tunnel];
    }

    method Enter(id: nat, stream: Stream)
      requires Linked() && Mirrored() && Listed() && Traced() && Buried() && id !in streams
      requires stream !in repr && stream.id == id && !stream.View().finished
      modifies `streams, `all, `ends, `repr, `past
      ensures Linked() && Mirrored() && Listed() && Traced() && Buried()
      ensures repr == old(repr) + {stream} && old(past) <= past
      ensures ends == old(ends)[id := stream.View()]
      ensures streams == old(streams)[id := stream] && all == old(all)[id := stream]
    {
      hide Mirrored, Traced, Buried, Stream.View;
      Record(id, stream);
      streams := streams[id := stream];
    }

    /** From now on `id` leads to `stream`; a finished one that had it is of the past. */
    ghost method Record(id: nat, stream: Stream)
      requires Linked() && Mirrored() && Listed() && Traced() && Buried() && id !in streams
      requires stream !in repr && stream.id == id
      modifies `all, `ends, `repr, `past
      ensures Mirrored() && Traced() && Buried()
      ensures repr == old(repr) + {stream} && all == old(all)[id := stream] && ends == old(ends)[id := stream.View()]
      ensures old(past) <= past
    {
      hide Stream.View, Traces;
      TracesOne(repr, past, all, id, stream);
      if id in all { past := past + {all[id]}; }
      all := all[id := stream];
      ends := ends[id := stream.View()];
      repr := repr + {stream};
    }

    /** Enters a new stream for `tunnel` in all the maps. */
    method Register(id: nat, tunnel: Tunnel)
      requires Sound() && id !in streams && (tunnel in tunnels || tunnel.openConns == 0)
      modifies `streams, `streamTunnels, `all, `ends, `repr, `past, `tunnels, `bookedFor, tunnel
      ensures Sound() && old(repr) <= repr && fresh(repr - old(repr))
      ensures tunnels == old(tunnels) + {tunnel} && bookedFor == old(bookedFor)[id := tunnel]
      ensures ends == old(ends)[id := NewEnd(PUBLIC, window)]
      ensures id in streams && streams[id] in repr && all == old(all)[id := streams[id]]
      ensures tunnel.openConns == old(tunnel.openConns) + 1 && tunnel.totalConns == old(tunnel.totalConns) + 1
    {
      hide Stream.View, Conns, Counted, Linked, Mirrored, Traced, Buried, InMap;
      var stream := new Stream(id, window);
      Enter(id, stream);
      Count(id, tunnel);
    }

    method PrereadOne(id: nat, head: Bytes) returns (sent: seq<Msg>)
      requires Linked() && Mirrored() && Traced() && Buried() && id in streams && head != []
      modifies repr, `ends
      ensures Mirrored() && Buried() && ends == old(ends)[id := ends[id]]
      ensures Out(ends[id], sent) == OnChunk(old(ends)[id], head)
    {
      hide OnChunk, Stream.View;
      sent := streams[id].WritePreread(head);
      ends := ends[id := all[id].View()];
    }

    method ResumeOne(id: nat)
      requires Linked() && Mirrored() && Traced() && Buried() && id in streams
      modifies repr, `ends
      ensures Mirrored() && Buried() && ends == old(ends)[id := ends[id]]
      ensures ends[id] == Resumed(old(ends)[id])
    {
      hide Stream.View;
      streams[id].Resume();
      ends := ends[id := all[id].View()];
    }

    /** The preread bytes go out first. `afterHead` is what the WebSocket has queued then. */
    method SendPreread(id: nat, head: Bytes, afterHead: int)
      requires Sound() && id in streams && id in ends && head != []
      modifies `out, `congested, `ends, repr
      ensures Sound() && congested == (old(congested) || (Up() && afterHead > wsMaxBuffered))
      ensures out == old(After(Tag(id, OnChunk(ends[id], head).sent)))
      ensures var m := old(ends)[id := OnChunk(old(ends)[id], head).e];
              ends == if congested && !old(congested) then PauseAll(m, true) else m
    {
      hide OnChunk, PauseAll, Linked, Accounted, Mirrored, Traced, Buried, InMap;
      ChunkKeepsLife(ends, streams.Keys, id, head);
      var sent := PrereadOne(id, head);
      Send(id, sent);
      if Up() { CheckCongestion(afterHead); }
    }

    /** Tells a stream that opens during congestion. */
    method TellNew(id: nat)
      requires Sound() && id in streams && id in ends
      modifies `ends, repr
      ensures Sound() && id in ends
      ensures ends == if congested then old(ends)[id := Endpoint.SetGlobalPause(old(ends)[id], true)] else old(ends)
    {
      hide Endpoint.SetGlobalPause, Linked, Accounted, Mirrored, Traced, Buried, InMap;
      PauseKeepsLife(ends, streams.Keys, id);
      if congested { PauseOne(id, true); }
    }

    method ResumeNew(id: nat)
      requires Sound() && id in streams && id in ends
      modifies `ends, repr
      ensures Sound() && ends == old(ends)[id := Resumed(old(ends)[id])]
    {
      hide Linked, Accounted, Mirrored, Traced, Buried, InMap;
      ResumeKeepsLife(ends, streams.Keys, id);
      ResumeOne(id);
    }

    /** `openStream` after the OPEN frame. */
    method Bridge(id: nat, tunnel: Tunnel, preread: Bytes, afterHead: int)
      requires Sound() && id !in streams && (tunnel in tunnels || tunnel.openConns == 0)
      modifies `streams, `streamTunnels, `all, `ends, `repr, `past, `tunnels, `bookedFor, `out, `congested, repr, tunnel
      ensures Sound() && old(repr) <= repr && fresh(repr - old(repr)) && id in streams && streams[id] in repr
      ensures tunnels == old(tunnels) + {tunnel} && bookedFor == old(bookedFor)[id := tunnel]
      ensures all == old(all)[id := streams[id]]
      ensures congested == (old(congested) || (Up() && preread != [] && afterHead > wsMaxBuffered))
      ensures var o := OpenServer(window, preread, old(congested), Up() && afterHead > wsMaxBuffered);
              && ends == (if congested && !old(congested) then PauseAll(old(ends), true) else old(ends))[id := o.e]
              && out == if Up() then old(out) + Tag(id, o.sent) else old(out)
      ensures tunnel.openConns == old(tunnel.openConns) + 1 && tunnel.totalConns == old(tunnel.totalConns) + 1
    {
      hide PauseAll, OpenServer, Sound;
      ghost var before := ends;
      Register(id, tunnel);
      Introduce(id, preread, afterHead, before);
    }

    /** Tells the new stream of congestion, sends its preread bytes, and resumes its socket. */
    method Introduce(id: nat, preread: Bytes, afterHead: int, ghost before: Ends)
      requires Sound() && id in streams && ends == before[id := NewEnd(PUBLIC, window)]
      modifies `ends, `out, `congested, repr
      ensures Sound()
      ensures congested == (old(congested) || (Up() && preread != [] && afterHead > wsMaxBuffered))
      ensures var o := OpenServer(window, preread, old(congested), Up() && afterHead > wsMaxBuffered);
              && ends == (if congested && !old(congested) then PauseAll(before, true) else before)[id := o.e]
              && out == if Up() then old(out) + Tag(id, o.sent) else old(out)
    {
      hide OnChunk, PauseAll, OpenServer, Endpoint.SetGlobalPause, Resumed, NewEnd, Sound;
      ghost var told := congested;
      TellNew(id);
      if |preread| > 0 { SendPreread(id, preread, afterHead); }
      OpeningInOne(before, id, window, preread, told, Up() && afterHead > wsMaxBuffered);
      ResumeNew(id);
    }

    /** A new public connection becomes a stream. `afterOpen` and `afterHead` are
        what the WebSocket has queued once the OPEN frame, and then the preread bytes, went
        out. The connection is booked for its tunnel under an id that is not live; that id is
        the next one, never used before, until the ids have wrapped around, and a used one
        from then on. */
    method OpenStream(tunnel: Tunnel, preread: Bytes, afterOpen: int, afterHead: int) returns (r: Option<nat>)
      requires Valid() && (tunnel in tunnels || tunnel.openConns == 0)
      modifies `nextStreamId, `wrapped
      modifies `streams, `streamTunnels, `all, `ends, `repr, `past, `tunnels, `bookedFor, `out, `congested, repr, tunnel
      ensures Valid() && old(repr) <= repr && fresh(repr - old(repr))
      ensures r.None? ==> |old(streams)| >= ALLOC_ATTEMPTS && old(wrapped)
                          && unchanged(`ends, `out, `congested, `tunnels, `bookedFor, `repr, tunnel)
      ensures !old(wrapped) ==> r == Some(old(nextStreamId))
      ensures wrapped <==> old(wrapped) || r == Some(MAX_STREAM_ID)
      ensures r.Some? ==>
        && 1 <= r.value <= MAX_STREAM_ID && r.value !in old(streams) && nextStreamId == NextId(r.value)
        && (r.value in old(ends) <==> old(wrapped))
        && Booked(r.value, tunnel, old(tunnels), old(bookedFor))
        && tunnel.openConns == old(tunnel.openConns) + 1 && tunnel.totalConns == old(tunnel.totalConns) + 1
      ensures r.Some? ==> Opened(old(ends), old(congested), old(out), r.value, preread, afterOpen, afterHead)
    {
      hide Opened, Booked, Sound, IdSpace, Linked, NextId;
      SoundIds();
      r := TakeId();
      if r.None? { return; }
      Announce(r.value, tunnel, preread, afterOpen, afterHead);
    }

    method TakeId() returns (r: Option<nat>)
      requires Linked() && IdsOk()
      modifies `nextStreamId, `wrapped
      ensures r.None? ==> |streams| >= ALLOC_ATTEMPTS && old(wrapped)
      ensures !old(wrapped) ==> r == Some(old(nextStreamId))
      ensures wrapped <==> old(wrapped) || r == Some(MAX_STREAM_ID)
      ensures r.Some? ==>
        && 1 <= r.value <= MAX_STREAM_ID && r.value !in streams && nextStreamId == NextId(r.value)
        && (r.value in all <==> old(wrapped))
      ensures IdSpace(if r.Some? then all.Keys + {r.value} else all.Keys, nextStreamId, wrapped)
    {
      hide IdSpace, Linked;
      ghost var skipped;
      r, skipped := AllocStreamId();
    }

    /** `openStream` once it has an id. */
    method Announce(id: nat, tunnel: Tunnel, preread: Bytes, afterOpen: int, afterHead: int)
      requires Sound() && id !in streams && (tunnel in tunnels || tunnel.openConns == 0)
      modifies `streams, `streamTunnels, `all, `ends, `repr, `past, `tunnels, `bookedFor, `out, `congested, repr, tunnel
      ensures Sound() && old(repr) <= repr && fresh(repr - old(repr))
      ensures Booked(id, tunnel, old(tunnels), old(bookedFor)) && all.Keys == old(all.Keys) + {id}
      ensures Opened(old(ends), old(congested), old(out), id, preread, afterOpen, afterHead)
      ensures tunnel.openConns == old(tunnel.openConns) + 1 && tunnel.totalConns == old(tunnel.totalConns) + 1
    {
      hide PauseAll, OpenServer, Linked, Accounted, Mirrored, Traced, Buried, InMap, Tag;
      Send(id, [Open]);
      if Up() { CheckCongestion(afterOpen); }
      Bridge(id, tunnel, preread, afterHead);
    }

    /** Stream `id` is in the map, and booked for `tunnel`. */
    ghost predicate Booked(id: nat, tunnel: Tunnel, tunnels0: set<Tunnel>, bookedFor0: map<nat, Tunnel>)
      reads `streams, `repr, `tunnels, `bookedFor
    {
      && id in streams && streams[id] in repr
      && tunnels == tunnels0 + {tunnel} && bookedFor == bookedFor0[id := tunnel]
    }

    /** What opening stream `id` made of the ends, the congestion flag and the WebSocket. */
    ghost predicate Opened(
      ends0: Ends, congested0: bool, out0: seq<Frame>, id: nat, preread: Bytes, afterOpen: int, afterHead: int)
      reads `ends, `congested, `out, `closed, `online
    {
      var told := congested0 || (Up() && afterOpen > wsMaxBuffered);
      var o := OpenServer(window, preread, told, Up() && afterHead > wsMaxBuffered);
      && congested == (told || (Up() && preread != [] && afterHead > wsMaxBuffered))
      && ends == (if congested && !congested0 then PauseAll(ends0, true) else ends0)[id := o.e]
      && out == if Up() then out0 + Tag(id, [Open]) + Tag(id, o.sent) else out0
    }

    lemma SoundIds()
      requires Sound()
      ensures Linked() && ends.Keys == all.Keys
    {
    }

    // ---- teardown ----

    method DestroyEnd(id: nat) returns (sent: seq<Msg>)
      requires Linked() && Mirrored() && Traced() && Buried() && id in streams && !ends[id].finished
      modifies streams[id], `ends
      ensures Mirrored() && Buried() && ends == old(ends)[id := Endpoint.Destroy(old(ends)[id], true).e]
    {
      hide Endpoint.Destroy, Stream.View;
      ghost var reported;
      sent, reported := streams[id].Destroy(true);
      ends := ends[id := all[id].View()];
    }

    method DestroyOne(id: nat)
      requires Linked() && Mirrored() && Traced() && Buried() && Accounted() && closed
      requires id in streams && !ends[id].finished && streams[id] in repr
      modifies repr, `ends, `out, `streams, `streamTunnels, tunnels`openConns
      ensures Linked() && Mirrored() && Buried() && Accounted() && out == old(out)
      ensures streams.Keys == old(streams.Keys) - {id}
      ensures ends == old(ends)[id := Endpoint.Destroy(old(ends)[id], true).e]
    {
      hide Endpoint.Destroy, Stream.View, Accounted, Linked, Mirrored, Traced, Buried;
      var sent := DestroyEnd(id);
      Settle(id, sent, true);
    }

    /** Called once the WebSocket is gone: every stream is torn down without a word to the
        agent, and every tunnel is rid of its connections. */
    method Destroy()
      requires Valid()
      modifies `ends, `out, `streams, `streamTunnels, `congested, `closed, repr, tunnels`openConns
      ensures Valid() && closed && out == old(out)
      ensures old(closed) ==> ends == old(ends) && streams == old(streams) && congested == old(congested)
      ensures !old(closed) ==>
        && streams == map[] && streamTunnels == map[] && !congested
        && (forall t :: t in tunnels ==> t.openConns == 0)
        && ends == DestroyAll(if old(congested) then PauseAll(old(ends), false) else old(ends), true)
        && forall id :: id in old(streams) ==> old(streams)[id].destroyed
    {
      hide Linked, Accounted, Mirrored, Traced, Buried, InMap, PauseAll, DestroyAll, IdSpace, Conns;
      if closed { return; }
      closed := true;
      LiveSockets();
      ClearCongestion();
      ghost var released, was := ends, streams;
      LiveSockets();
      DestroyStreams();
      AllDestroyed(released, was);
      NoConnsLeft();
      streams := map[];
      streamTunnels := map[];
    }

    lemma LiveSockets()
      requires Sound()
      ensures forall id :: id in streams ==>
        id in ends && !ends[id].finished && ends[id].connected && id in all && all[id] == streams[id]
    {
    }

    lemma AllDestroyed(released: Ends, was: map<nat, Stream>)
      requires Mirrored() && ends == DestroyAll(released, true)
      requires forall id :: id in was ==>
        id in released && !released[id].finished && released[id].connected && id in all && all[id] == was[id]
      ensures forall id :: id in was ==> was[id].destroyed
    {
      forall id | id in was ensures was[id].destroyed {
        SocketsDestroyed(released, true, id);
        assert ends[id] == all[id].View();
      }
    }

    lemma NoConnsLeft()
      requires Accounted() && streamTunnels == map[]
      ensures forall t :: t in tunnels ==> t.openConns == 0
    {
      NoStreamsNoConns(streamTunnels);
    }

    method DestroyStreams()
      requires Sound() && closed
      modifies repr, `ends, `out, `streams, `streamTunnels, tunnels`openConns
      ensures Sound() && streams == map[] && streamTunnels == map[] && out == old(out)
      ensures ends == DestroyAll(old(ends), true)
    {
      hide Linked, Accounted, Mirrored, Traced, Buried, InMap, DestroyedFor, DestroyAll;
      ghost var live := streams.Keys;
      LiveAreEnds(ends, live);
      DestroyEach(live);
      DestroyedForAll(old(ends), live, true);
      NoStreamsNoConnections();
    }

    /** All but the streams' lives. */
    ghost predicate Together()
      reads `streams, `streamTunnels, `all, `ends, `repr, `past, `tunnels, `bookedFor
      reads repr, past, tunnels`openConns
    {
      Linked() && Accounted() && Mirrored() && Traced() && Buried()
    }

    method DestroyEach(ghost live: set<nat>)
      requires Together() && closed && live == streams.Keys <= ends.Keys && InMap(ends, live)
      modifies repr, `ends, `out, `streams, `streamTunnels, tunnels`openConns
      ensures Together() && streams.Keys == {} && out == old(out)
      ensures ends == DestroyedFor(old(ends), live, true)
    {
      hide Together, InMap, DestroyedFor;
      DestroyedForNone(ends, true);
      assert live - streams.Keys == {};
      while streams.Keys != {}
        invariant streams.Keys <= live && Together() && out == old(out)
        invariant ends == DestroyedFor(old(ends), live - streams.Keys, true)
        decreases |streams.Keys|
      {
        var id :| id in streams.Keys;
        DestroyedForMore(old(ends), live, live - streams.Keys, id, true);
        LessOne(live, streams.Keys, id);
        DestroyNext(id);
      }
      assert live - streams.Keys == live;
    }

    method DestroyNext(id: nat)
      requires Together() && closed && id in streams && id in ends && !ends[id].finished
      modifies repr, `ends, `out, `streams, `streamTunnels, tunnels`openConns
      ensures Together() && streams.Keys == old(streams.Keys) - {id} && out == old(out)
      ensures ends == old(ends)[id := Endpoint.Destroy(old(ends)[id], true).e]
    {
      hide Linked, Accounted, Mirrored, Traced, Buried, Endpoint.Destroy;
      StreamsInRepr(id);
      DestroyOne(id);
    }

    lemma StreamsInRepr(id: nat)
      requires Linked() && Mirrored() && id in streams
      ensures streams[id] in repr
    {
    }

    lemma NoStreamsNoConnections()
      requires Accounted() && streams.Keys == {}
      ensures streams == map[] && streamTunnels == map[]
    {
    }
  }

  lemma NoStreamsNoConns(m: map<nat, Tunnel>)
    ensures m == map[] ==> forall t {:trigger Conns(m, t)} :: |Conns(m, t)| == 0
  {
    if m == map[] {
      forall t ensures |Conns(m, t)| == 0 { assert Conns(m, t) == {}; }
    }
  }

  /** The steps of `openStream` on the map of ends, put together. */
  lemma OpeningInOne(m: Ends, id: nat, window: int, preread: Bytes, told: bool, congests: bool)
    ensures var e0 := NewEnd(PUBLIC, window);
            var m1 := if told then m[id := e0][id := Endpoint.SetGlobalPause(e0, true)] else m[id := e0];
            var o := OnChunk(m1[id], preread);
            var m2 := m1[id := o.e];
            var m3 := if preread == [] then m1 else if congests && !told then PauseAll(m2, true) else m2;
            var p := OpenServer(window, preread, told, congests);
            && id in m3
            && m3[id := Resumed(m3[id])]
               == (if preread != [] && congests && !told then PauseAll(m, true) else m)[id := p.e]
            && p.sent == (if preread == [] then [] else o.sent)
  {
  }

  function Resumed(e: End): End {
    e.(src := e.src.(reading := true))
  }

  lemma ChunkKeepsLife(m: Ends, live: set<nat>, id: nat, head: Bytes)
    requires InMap(m, live) && id in m
    ensures InMap(m[id := OnChunk(m[id], head).e], live)
  {
  }

  lemma PauseKeepsLife(m: Ends, live: set<nat>, id: nat)
    requires InMap(m, live) && id in m
    ensures InMap(m[id := Endpoint.SetGlobalPause(m[id], true)], live)
  {
  }

  lemma ResumeKeepsLife(m: Ends, live: set<nat>, id: nat)
    requires InMap(m, live) && id in m
    ensures InMap(m[id := Resumed(m[id])], live)
  {
  }

  lemma NoConns(m: map<nat, Tunnel>, known: set<Tunnel>, t: Tunnel)
    requires forall id :: id in m ==> m[id] in known
    ensures t !in known ==> |Conns(m, t)| == 0
  {
    if t !in known { assert Conns(m, t) == {}; }
  }

  lemma ConnsAddAll(m: map<nat, Tunnel>, id: nat, t: Tunnel)
    requires id !in m
    ensures forall u {:trigger Conns(m[id := t], u)} ::
      |Conns(m[id := t], u)| == |Conns(m, u)| + (if t == u then 1 else 0)
  {
    forall u ensures |Conns(m[id := t], u)| == |Conns(m, u)| + (if t == u then 1 else 0) {
      ConnsAdd(m, id, t, u);
    }
  }

  /** `n` ids in a row are `n` different ones. */
  lemma {:induction false} ManyIds(next: nat, n: nat, live: set<nat>)
    requires 1 <= next <= MAX_STREAM_ID && n <= MAX_STREAM_ID
    requires forall j: nat :: j < n ==> IdAfter(next, j) in live
    ensures |live| >= n
  {
    if n > 0 { ManyIds(next, n - 1, live - {IdAfter(next, n - 1)}); }
  }
}
