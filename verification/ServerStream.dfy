/** server/src/stream.ts: the public end of a stream, in place. Every handler is proved to
    do what Endpoint says. `sent` collects the calls to `peer.send`, in order; `reported`
    says that `peer.onStreamFinished` was called. */
module Sockets {
  import opened Frames

  // A `net.Socket` is a duplex: its stream sees a readable and a writable half, each with
  // its whole traffic as history.

  /** `read` is what the stream accepted; a socket that is not `reading` is paused. */
  datatype Readable = Readable(read: Bytes, reading: bool) {
    function Read(data: Bytes): Readable {
      this.(read := read + data)
    }

    function Pause(): Readable {
      this.(reading := false)
    }

    function Resume(): Readable {
      this.(reading := true)
    }
  }

  datatype Writable = Writable(written: Bytes, needDrain: bool, halfClosed: bool) {
    /** `answer` is what `write` returns: false obliges the kernel to a later `drain`. */
    function Write(data: Bytes, answer: bool): Writable {
      this.(written := written + data, needDrain := needDrain || !answer)
    }

    function Drained(): Writable {
      this.(needDrain := false)
    }

    function End(): Writable {
      this.(halfClosed := true)
    }
  }
}

module ServerStream {
  import opened Frames
  import opened Endpoint
  import opened Sockets

  class Stream {
    const id: nat
    var readable: Readable
    var writable: Writable
    var destroyed: bool
    var sendCredit: int
    var recvUnacked: nat
    var pausedForCredit: bool
    var pausedGlobally: bool
    var sentEof: bool
    var receivedEof: bool
    var finished: bool
    ghost var taken: Bytes

    ghost function View(): End
      reads this
    {
      End(PUBLIC, true, finished, destroyed,
          Source(sendCredit, pausedForCredit, pausedGlobally, sentEof, readable.read, readable.reading),
          Sink(recvUnacked, receivedEof, [], false, Head([], true, 0),
               taken, writable.written, writable.needDrain, writable.halfClosed))
    }

    /** The frontend hands over a paused socket from which nothing was bridged yet. */
    constructor (id: nat, window: int)
      ensures this.id == id && View() == NewEnd(PUBLIC, window)
    {
      this.id, sendCredit, recvUnacked := id, window, 0;
      readable, writable, destroyed := Readable([], false), Writable([], false, false), false;
      pausedForCredit, pausedGlobally, sentEof, receivedEof, finished := false, false, false, false, false;
      taken := [];
    }

    /** What the socket layer can raise now. */
    predicate Ready(ev: Event)
      reads this
      ensures Ready(ev) <==> Enabled(View(), ev)
    {
      match ev
      case Chunk(data) => readable.reading && data != []
      case Drained => writable.needDrain
      case Connected(_) => false
      case DialFailed => false
      case _ => true
    }

    // ---- public side -> agent ----

    method OnSocketData(chunk: Bytes) returns (sent: seq<Msg>)
      modifies this
      ensures Out(View(), sent) == OnChunk(old(View()), chunk)
    {
      if finished || sentEof { return []; }
      readable := readable.Read(chunk);
      sent := [Data(chunk)];
      sendCredit := sendCredit - |chunk|;
      if sendCredit <= 0 && !pausedForCredit {
        pausedForCredit := true;
        readable := readable.Pause();
      }
    }

    method OnSocketEnd() returns (sent: seq<Msg>, reported: bool)
      modifies this
      ensures Out(View(), sent) == OnEnded(old(View()))
      ensures reported <==> finished && !old(finished)
    {
      if finished || sentEof { return [], false; }
      sentEof := true;
      sent := [Eof];
      reported := false;
      if receivedEof { reported := Finish(); }
    }

    method WritePreread(head: Bytes) returns (sent: seq<Msg>)
      modifies this
      ensures Out(View(), sent) == if head == [] then Out(old(View()), []) else OnChunk(old(View()), head)
    {
      if |head| == 0 { return []; }
      sent := OnSocketData(head);
    }

    // ---- agent -> public side ----

    method OnData(payload: Bytes, answer: bool) returns (sent: seq<Msg>)
      modifies this
      ensures Out(View(), sent) == Endpoint.OnData(old(View()), payload, answer)
    {
      if finished || receivedEof { return []; }
      var flushed := answer;
      writable := writable.Write(payload, answer);
      taken := taken + payload;
      recvUnacked := recvUnacked + |payload|;
      sent := [];
      if flushed { sent := FlushAck(); }
    }

    method OnEof() returns (sent: seq<Msg>, reported: bool)
      modifies this
      ensures forall answer: bool :: Out(View(), sent) == Endpoint.OnEof(old(View()), answer)
      ensures reported <==> finished && !old(finished)
    {
      if finished || receivedEof { return [], false; }
      receivedEof := true;
      sent := FlushAck();
      writable := writable.End();
      reported := false;
      if sentEof { reported := Finish(); }
    }

    method OnAck(bytes: nat)
      modifies this
      ensures Out(View(), []) == Endpoint.OnAck(old(View()), bytes)
    {
      if finished { return; }
      sendCredit := sendCredit + bytes;
      MaybeResume();
    }

    method OnReset() returns (reported: bool)
      modifies this
      ensures Out(View(), []) == Endpoint.Destroy(old(View()), false)
      ensures reported <==> finished && !old(finished)
    {
      var sent;
      sent, reported := Destroy(false);
    }

    method FlushAck() returns (sent: seq<Msg>)
      modifies this`recvUnacked
      ensures old(recvUnacked) == 0 || finished ==> sent == [] && recvUnacked == old(recvUnacked)
      ensures old(recvUnacked) > 0 && !finished ==> sent == [Ack(old(recvUnacked))] && recvUnacked == 0
    {
      if recvUnacked == 0 || finished { return []; }
      var n := recvUnacked;
      recvUnacked := 0;
      sent := [Ack(n)];
    }

    method OnDrain() returns (sent: seq<Msg>)
      modifies this
      ensures Out(View(), sent) == OnDrained(old(View()))
    {
      writable := writable.Drained();
      sent := FlushAck();
    }

    // ---- backpressure on the shared WebSocket ----

    method SetGlobalPause(paused: bool)
      modifies this
      ensures View() == Endpoint.SetGlobalPause(old(View()), paused)
    {
      if pausedGlobally == paused || finished { return; }
      pausedGlobally := paused;
      if paused { readable := readable.Pause(); } else { MaybeResume(); }
    }

    method MaybeResume()
      modifies this
      ensures View() == Endpoint.MaybeResume(old(View()))
    {
      if finished || pausedGlobally || sendCredit <= 0 { return; }
      if !pausedForCredit { return; }
      pausedForCredit := false;
      readable := readable.Resume();
    }

    /** The frame handlers of a stream that is in the session's map. */
    method Dispatch(m: Msg, answer: bool) returns (sent: seq<Msg>, reported: bool)
      modifies this
      ensures Out(View(), sent) == Endpoint.Dispatch(old(View()), m, answer)
      ensures reported <==> View().finished && !old(View().finished)
    {
      sent, reported := [], false;
      match m {
        case Data(payload) => sent := OnData(payload, answer);
        case Eof => sent, reported := OnEof();
        case Ack(n) => OnAck(n);
        case Reset => reported := OnReset();
        case Open =>
      }
    }

    /** The listeners on the public socket. */
    method OnEvent(ev: Event) returns (sent: seq<Msg>, reported: bool)
      requires Enabled(View(), ev) && !ev.Congested?
      modifies this
      ensures Out(View(), sent) == Handle(old(View()), ev)
      ensures reported <==> View().finished && !old(View().finished)
    {
      sent, reported := [], false;
      match ev {
        case Chunk(data) => sent := OnSocketData(data);
        case Ended => sent, reported := OnSocketEnd();
        case Drained => sent := OnDrain();
        case Errored => sent, reported := Destroy(true);
        case Closed => reported := Finish();
        case _ => assert false;
      }
    }

    /** The last step of `openStream`, whatever paused the socket before. */
    method Resume()
      modifies `readable
      ensures View() == old(View()).(src := old(View()).src.(reading := true))
    {
      readable := readable.Resume();
    }

    // ---- teardown ----

    method Destroy(tellPeer: bool) returns (sent: seq<Msg>, reported: bool)
      modifies this
      ensures Out(View(), sent) == Endpoint.Destroy(old(View()), tellPeer)
      ensures reported <==> finished && !old(finished)
    {
      if finished { return [], false; }
      finished := true;
      sent := if tellPeer then [Reset] else [];
      destroyed := true;
      reported := true;
    }

    method Finish() returns (reported: bool)
      modifies this`finished
      ensures View() == Endpoint.Finish(old(View()))
      ensures reported <==> finished && !old(finished)
    {
      if finished { return false; }
      finished := true;
      reported := true;
    }
  }
}
