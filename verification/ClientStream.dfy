/** client-node/src/stream.ts: the agent's end of a stream, in place, with its dial, the
    frames queued meanwhile, and the request head held back for rewriting. */
module ClientStream {
  import opened Frames
  import opened HostHeader
  import opened Endpoint
  import opened Sockets

  class ClientStream {
    const id: nat
    const role: Role
    /** The socket `open` dials. The TypeScript's nullable `socket` field is set exactly
        when `connected` is; until then these are the fresh socket's. */
    var readable: Readable
    var writable: Writable
    var destroyed: bool
    var connected: bool
    var sendCredit: int
    var recvUnacked: nat
    var pausedForCredit: bool
    var pausedGlobally: bool
    var sentEof: bool
    var receivedEof: bool
    var finished: bool
    var queued: seq<Bytes>
    var queuedEof: bool
    var headBuf: seq<Bytes>
    var headLen: nat
    var headDone: bool
    ghost var taken: Bytes
    ghost var cut: nat

    ghost predicate Valid()
      reads `headBuf, `headLen, `headDone
    {
      role.agent && (!headDone ==> headLen == |Flat(headBuf)|)
    }

    ghost function SourceView(): Source
      reads `sendCredit, `pausedForCredit, `pausedGlobally, `sentEof, `readable
    {
      Source(sendCredit, pausedForCredit, pausedGlobally, sentEof, readable.read, readable.reading)
    }

    ghost function SinkView(): Sink
      reads `recvUnacked, `receivedEof, `queued, `queuedEof, `headBuf, `headDone, `cut, `taken, `writable
    {
      Sink(recvUnacked, receivedEof, queued, queuedEof, Head(headBuf, headDone, cut), taken,
           writable.written, writable.needDrain, writable.halfClosed)
    }

    ghost function View(): End
      reads this
    {
      End(role, connected, finished, destroyed, SourceView(), SinkView())
    }

    constructor (id: nat, role: Role, window: int)
      requires role.agent
      ensures Valid() && this.id == id && this.role == role
      ensures View() == NewEnd(role, window)
    {
      this.id, this.role, connected, sendCredit, recvUnacked := id, role, false, window, 0;
      pausedForCredit, pausedGlobally, sentEof, receivedEof, finished := false, false, false, false, false;
      queued, queuedEof, headBuf, headLen, headDone := [], false, [], 0, !role.rewrite;
      taken, cut := [], 0;
      readable, writable, destroyed := Readable([], false), Writable([], false, false), false;
    }

    /** What the socket layer can raise now. */
    predicate Ready(ev: Event)
      reads this
      ensures Ready(ev) <==> Enabled(View(), ev)
    {
      match ev
      case Chunk(data) => connected && readable.reading && data != []
      case Drained => writable.needDrain
      case Connected(answers) => role.agent && !connected && |answers| == |queued| + 1
      case DialFailed => role.agent && !connected
      case Congested(_) => true
      case _ => connected
    }

    // ---- establishing the local connection ----

    /** The connect timer or an error came first. */
    method DialFailed() returns (sent: seq<Msg>, reported: bool)
      requires Valid()
      modifies this`finished
      ensures Valid() && Out(View(), sent) == OnDialFailed(old(View()))
      ensures reported <==> finished && !old(finished)
    {
      if finished { return [], false; }
      finished := true;
      sent, reported := [Reset], true;
    }

    /** The dial succeeded. `answers` are the answers to the writes that follow at once. */
    method Attach(answers: seq<bool>) returns (sent: seq<Msg>, reported: bool)
      requires Valid() && !connected && |answers| == |queued| + 1 && (finished || (!sentEof && !receivedEof))
      modifies this
      ensures Valid() && Out(View(), sent) == Endpoint.Attach(old(View()), answers)
      ensures reported <==> finished && !old(finished)
    {
      hide DrainQueue, Valid, SourceView, SinkView;
      sent, reported := [], false;
      if finished {
        destroyed := true;
        return;
      }
      sent, reported := Bridge(answers);
    }

    /** From now on the socket's listeners are in place. */
    method Bridge(answers: seq<bool>) returns (sent: seq<Msg>, reported: bool)
      requires Valid() && !connected && |answers| == |queued| + 1 && !finished && !sentEof && !receivedEof
      modifies this
      ensures Valid() && Out(View(), sent) == Endpoint.Attach(old(View()), answers)
      ensures !reported && !finished
    {
      hide DrainQueue, Valid, SinkView;
      QueueInView();
      ghost var e := View();
      connected := true;
      sent, reported := WriteQueue(answers);
      readable := if pausedGlobally then readable.Pause() else readable.Resume();
      assert View() == Endpoint.Attach(e, answers).e;
    }

    lemma QueueInView()
      ensures SinkView().queued == queued
    {
    }

    /** The queued frames, then a queued EOF. */
    method WriteQueue(answers: seq<bool>) returns (sent: seq<Msg>, reported: bool)
      requires Valid() && connected && !finished && !sentEof && !receivedEof && |answers| == |queued| + 1
      modifies `recvUnacked, `receivedEof, `queued, `queuedEof, `writable, `finished
      modifies `headBuf, `headLen, `headDone, `cut, `taken
      ensures Valid() && !finished && !reported
      ensures SinkOut(SinkView(), sent) == DrainQueue(role, old(SinkView()), answers)
    {
      hide Endpoint.WriteAll, Endpoint.TakeEof, Valid;
      sent := WriteFrames(answers);
      queued := [];
      ghost var k1 := SinkView();
      reported := false;
      if queuedEof {
        var more;
        more, reported := OnEof(answers[|answers| - 1]);
        assert SinkOut(SinkView(), more) == Endpoint.TakeEof(role, k1, answers[|answers| - 1]);
        sent := sent + more;
      }
    }

    method WriteFrames(answers: seq<bool>) returns (sent: seq<Msg>)
      requires Valid() && connected && !finished && |answers| == |queued| + 1
      modifies this`recvUnacked, this`taken, this`headBuf, this`headLen, this`headDone, this`cut
      modifies `writable
      ensures Valid()
      ensures SinkOut(SinkView(), sent) == WriteAll(role, old(SinkView()), queued, answers)
    {
      hide Endpoint.WriteLocal;
      ghost var k := SinkView();
      sent := [];
      for i := 0 to |queued|
        invariant Valid()
        invariant var rest := WriteAll(role, SinkView(), queued[i..], answers[i..]);
                  WriteAll(role, k, queued, answers) == SinkOut(rest.snk, sent + rest.acks)
      {
        Peel(role, SinkView(), queued, answers, i);
        var more := WriteLocal(queued[i], answers[i]);
        ghost var rest := WriteAll(role, SinkView(), queued[i + 1..], answers[i + 1..]);
        assert sent + (more + rest.acks) == sent + more + rest.acks;
        sent := sent + more;
      }
    }

    // ---- local -> server ----

    method OnLocalData(chunk: Bytes) returns (sent: seq<Msg>)
      requires Valid() && connected
      modifies this
      ensures Valid() && Out(View(), sent) == OnChunk(old(View()), chunk)
    {
      hide Valid, SinkView;
      if finished || sentEof { return []; }
      readable := readable.Read(chunk);
      sent := [Data(chunk)];
      sendCredit := sendCredit - |chunk|;
      if sendCredit <= 0 && !pausedForCredit {
        pausedForCredit := true;
        readable := readable.Pause();
      }
    }

    method OnLocalEnd() returns (sent: seq<Msg>, reported: bool)
      requires Valid()
      modifies this
      ensures Valid() && Out(View(), sent) == OnEnded(old(View()))
      ensures reported <==> finished && !old(finished)
    {
      if finished || sentEof { return [], false; }
      sentEof := true;
      sent, reported := [Eof], false;
      if receivedEof { reported := Finish(); }
    }

    method OnAck(bytes: nat)
      requires Valid()
      modifies this
      ensures Valid() && Out(View(), []) == Endpoint.OnAck(old(View()), bytes)
    {
      if finished { return; }
      sendCredit := sendCredit + bytes;
      MaybeResume();
    }

    // ---- server -> local ----

    method OnData(payload: Bytes, answer: bool) returns (sent: seq<Msg>)
      requires Valid()
      modifies this
      ensures Valid()
      ensures Out(View(), sent) == Endpoint.OnData(old(View()), payload, answer)
    {
      hide Endpoint.WriteLocal, Valid;
      if finished || receivedEof { return []; }
      if !connected {
        queued := queued + [payload];
        return [];
      }
      sent := WriteLocal(payload, answer);
    }

    method WriteLocal(payload: Bytes, answer: bool) returns (sent: seq<Msg>)
      requires Valid() && connected && !finished
      modifies this`recvUnacked, this`taken, this`headBuf, this`headLen, this`headDone, this`cut
      modifies `writable
      ensures Valid()
      ensures SinkOut(SinkView(), sent) == Endpoint.WriteLocal(role, old(SinkView()), payload, answer)
    {
      recvUnacked := recvUnacked + |payload|;
      taken := taken + payload;
      ghost var k1 := SinkView();
      var out := payload;
      if !headDone { out := ConsumeHead(payload); }
      assert (SinkView(), out) == if k1.head.done then (k1, payload) else Endpoint.ConsumeHead(role, k1, payload);
      sent := HandOver(out, answer);
    }

    /** Hands `out` to the socket and acknowledges as soon as it may. */
    method HandOver(out: Bytes, answer: bool) returns (sent: seq<Msg>)
      requires !finished
      modifies `recvUnacked, `writable
      ensures SinkOut(SinkView(), sent) ==
        if out == [] then Endpoint.FlushAck(old(SinkView()))
        else
          var k := SocketWrite(old(SinkView()), out, answer);
          if answer then Endpoint.FlushAck(k) else SinkOut(k, [])
    {
      if |out| == 0 {
        sent := FlushAck();
        return;
      }
      sent := [];
      var flushed := answer;
      writable := writable.Write(out, answer);
      if flushed { sent := FlushAck(); }
    }

    /** Keeps `chunk` with the rest of the head, or lets the whole go, its Host replaced. */
    method ConsumeHead(chunk: Bytes) returns (out: Bytes)
      requires !headDone && headLen == |Flat(headBuf)|
      modifies this`headBuf, this`headLen, this`headDone, this`cut
      ensures !headDone ==> headLen == |Flat(headBuf)|
      ensures var head := Flat(old(headBuf) + [chunk]);
              if HoldsBack(head)
              then out == [] && headBuf == old(headBuf) + [chunk] && !headDone && cut == old(cut)
              else out == RewriteHost(Node, head, role.target) && headBuf == [] && headDone && cut == |taken|
    {
      headBuf := headBuf + [chunk];
      headLen := headLen + |chunk|;
      var head := Flat(headBuf);
      FlatAppend(old(headBuf), [chunk]);
      assert Flat([chunk]) == chunk;
      if IndexOfTerminator(head, 0) == -1 && headLen < MAX_HEAD_BUFFER { return []; }
      headBuf := [];
      headLen := 0;
      headDone := true;
      cut := |taken|;
      out := RewriteHost(Node, head, role.target);
    }

    method OnEof(answer: bool) returns (sent: seq<Msg>, reported: bool)
      requires Valid()
      modifies `recvUnacked, `receivedEof, `queuedEof, `headBuf, `headLen, `headDone, `cut, `writable, `finished
      ensures Valid() && Out(View(), sent) == Endpoint.OnEof(old(View()), answer)
      ensures reported <==> finished && !old(finished)
    {
      hide Endpoint.TakeEof, Valid;
      if finished || receivedEof { return [], false; }
      if !connected {
        queuedEof := true;
        return [], false;
      }
      sent := TakeEof(answer);
      assert SourceView() == old(SourceView());
      reported := false;
      if sentEof { reported := Finish(); }
    }

    method TakeEof(answer: bool) returns (sent: seq<Msg>)
      requires Valid() && connected && !finished
      modifies this`recvUnacked, this`receivedEof, this`headBuf, this`headDone, this`cut
      modifies `writable
      ensures Valid() && SinkOut(SinkView(), sent) == Endpoint.TakeEof(role, old(SinkView()), answer)
    {
      hide RewriteHost;
      receivedEof := true;
      // The held head goes first, complete or not.
      if |headBuf| > 0 {
        var head := Flat(headBuf);
        headBuf := [];
        headDone := true;
        cut := |taken|;
        writable := writable.Write(RewriteHost(Node, head, role.target), answer);
      }
      sent := FlushAck();
      writable := writable.End();
    }

    method FlushAck() returns (sent: seq<Msg>)
      modifies this`recvUnacked
      ensures old(recvUnacked) == 0 || finished ==> sent == [] && recvUnacked == old(recvUnacked)
      ensures old(recvUnacked) > 0 && !finished ==> sent == [Ack(old(recvUnacked))] && recvUnacked == 0
    {
      if recvUnacked == 0 || finished { return []; }
      var n := recvUnacked;
      recvUnacked := 0;
      sent := [Ack(n)];
    }

    method OnDrain() returns (sent: seq<Msg>)
      requires Valid()
      modifies this
      ensures Valid() && Out(View(), sent) == OnDrained(old(View()))
    {
      writable := writable.Drained();
      sent := FlushAck();
    }

    // ---- backpressure on the shared WebSocket ----

    method SetGlobalPause(paused: bool)
      requires Valid()
      modifies this
      ensures Valid() && View() == Endpoint.SetGlobalPause(old(View()), paused)
    {
      if pausedGlobally == paused || finished { return; }
      pausedGlobally := paused;
      if paused {
        if connected { readable := readable.Pause(); }
      } else {
        MaybeResume();
      }
    }

    method MaybeResume()
      requires Valid()
      modifies this
      ensures Valid() && View() == Endpoint.MaybeResume(old(View()))
    {
      if finished || pausedGlobally || sendCredit <= 0 { return; }
      if !pausedForCredit { return; }
      pausedForCredit := false;
      if connected { readable := readable.Resume(); }
    }

    /** The frame handlers of a stream that is in the session's map. */
    method Dispatch(m: Msg, answer: bool) returns (sent: seq<Msg>, reported: bool)
      requires Valid()
      modifies this
      ensures Valid() && Out(View(), sent) == Endpoint.Dispatch(old(View()), m, answer)
      ensures reported <==> finished && !old(finished)
    {
      hide Endpoint.OnData, Endpoint.OnEof, Endpoint.OnAck, Endpoint.Destroy;
      sent, reported := [], false;
      match m {
        case Data(payload) =>
          DataKeepsLife(View(), payload, answer);
          sent := OnData(payload, answer);
        case Eof => sent, reported := OnEof(answer);
        case Ack(n) =>
          AckKeepsLife(View(), n);
          OnAck(n);
        case Reset => reported := OnReset();
        case Open =>
      }
    }

    /** The outcome of the dial, and the listeners on the local socket. */
    method OnEvent(ev: Event) returns (sent: seq<Msg>, reported: bool)
      requires Valid() && Enabled(View(), ev) && !ev.Congested?
      requires ev.Connected? ==> finished || (!sentEof && !receivedEof)
      modifies this
      ensures Valid() && Out(View(), sent) == Handle(old(View()), ev)
      ensures reported <==> finished && !old(finished)
    {
      hide Endpoint.Attach, OnDialFailed, OnChunk, OnEnded, OnDrained, Endpoint.Destroy;
      sent, reported := [], false;
      match ev {
        case Connected(answers) => sent, reported := Attach(answers);
        case DialFailed => sent, reported := DialFailed();
        case Chunk(data) =>
          ChunkKeepsLife(View(), data);
          sent := OnLocalData(data);
        case Ended => sent, reported := OnLocalEnd();
        case Drained =>
          DrainKeepsLife(View());
          sent := OnDrain();
        case Errored => sent, reported := Destroy(true);
        case Closed => reported := Finish();
        case _ => assert false;
      }
    }

    // ---- teardown ----

    method OnReset() returns (reported: bool)
      requires Valid()
      modifies this
      ensures Valid() && Out(View(), []) == Endpoint.Destroy(old(View()), false)
      ensures reported <==> finished && !old(finished)
    {
      var sent;
      sent, reported := Destroy(false);
    }

    method Destroy(tellPeer: bool) returns (sent: seq<Msg>, reported: bool)
      requires Valid()
      modifies this
      ensures Valid() && Out(View(), sent) == Endpoint.Destroy(old(View()), tellPeer)
      ensures reported <==> finished && !old(finished)
    {
      if finished { return [], false; }
      finished := true;
      sent := if tellPeer then [Reset] else [];
      if connected { destroyed := true; }
      reported := true;
    }

    method Finish() returns (reported: bool)
      modifies this`finished
      ensures View() == Endpoint.Finish(old(View()))
      ensures reported <==> finished && !old(finished)
    {
      if finished { return false; }
      finished := true;
      reported := true;
    }
  }

  lemma DataKeepsLife(e: End, payload: Bytes, answer: bool)
    ensures Endpoint.OnData(e, payload, answer).e.finished == e.finished
  {
  }

  lemma AckKeepsLife(e: End, n: nat)
    ensures Endpoint.OnAck(e, n).e.finished == e.finished
  {
  }

  lemma ChunkKeepsLife(e: End, data: Bytes)
    ensures OnChunk(e, data).e.finished == e.finished
  {
  }

  lemma DrainKeepsLife(e: End)
    ensures OnDrained(e).e.finished == e.finished
  {
  }

  lemma Peel(r: Role, k: Sink, frames: seq<Bytes>, answers: seq<bool>, i: nat)
    requires i < |frames| <= |answers|
    ensures var o := WriteLocal(r, k, frames[i], answers[i]);
            var p := WriteAll(r, o.snk, frames[i + 1..], answers[i + 1..]);
            WriteAll(r, k, frames[i..], answers[i..]) == SinkOut(p.snk, o.acks + p.acks)
  {
    assert frames[i..][1..] == frames[i + 1..] && answers[i..][1..] == answers[i + 1..];
  }
}
