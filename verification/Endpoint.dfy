/** One end of a stream as a value: what every handler of the server's `Stream` and of the
    agent's `ClientStream` does to it. The two classes are proved to do exactly this (see
    ServerStream.dfy and ClientStream.dfy); everything about whole runs is proved here and
    in the modules above. */
module Endpoint {
  import opened Frames
  import opened HostHeader

  /** What an end is for: the agent's end dials and may rewrite the Host line; the
      server's end is born connected, and nothing is ever queued or held back there. */
  datatype Role = Role(agent: bool, rewrite: bool, target: Bytes)

  /** The server's end. */
  const PUBLIC := Role(false, false, [])

  /** Local socket -> peer. `read` is the history of the bytes accepted from the socket,
      `reading` says that the socket is not paused. */
  datatype Source = Source(
    credit: int, pausedForCredit: bool, pausedGlobally: bool, sentEof: bool, read: Bytes, reading: bool)

  /** The request head held back for rewriting. `cut` is the length it went out at. */
  datatype Head = Head(buf: seq<Bytes>, done: bool, cut: nat)

  /** Peer -> local socket. `taken` is the history of the payload bytes consumed from the
      peer, `written` that of the bytes handed to the socket; `needDrain` says that a
      `drain` event is due, `halfClosed` that the socket's `end` was called. */
  datatype Sink = Sink(
    unacked: nat, receivedEof: bool, queued: seq<Bytes>, queuedEof: bool, head: Head,
    taken: Bytes, written: Bytes, needDrain: bool, halfClosed: bool)

  datatype End = End(
    role: Role, connected: bool, finished: bool, destroyed: bool, src: Source, snk: Sink)

  /** An end after a handler ran, and what the handler sent meanwhile. */
  datatype Out = Out(e: End, sent: seq<Msg>)

  datatype SinkOut = SinkOut(snk: Sink, acks: seq<Msg>)

  /** What happens to an end other than a frame arriving. */
  datatype Event =
    | Chunk(data: Bytes) | Ended | Drained | Errored | Closed
    | Connected(flushed: seq<bool>) | DialFailed | Congested(on: bool)

  function NewEnd(role: Role, window: int): End {
    End(role, !role.agent, false, false,
        Source(window, false, false, false, [], false),
        Sink(0, false, [], false, Head([], !role.rewrite, 0), [], [], false, false))
  }

  // ---- local socket -> peer ----------------------------------------------------------

  function OnChunk(e: End, data: Bytes): Out {
    if e.finished || e.src.sentEof then Out(e, [])
    else
      var credit := e.src.credit - |data|;
      var s := e.src.(read := e.src.read + data, credit := credit);
      Out(e.(src := if credit <= 0 && !s.pausedForCredit
                    then s.(pausedForCredit := true, reading := Flow(e, false)) else s),
          [Data(data)])
  }

  function OnEnded(e: End): Out {
    if e.finished || e.src.sentEof then Out(e, [])
    else Out(e.(src := e.src.(sentEof := true), finished := e.snk.receivedEof), [Eof])
  }

  // ---- peer -> local socket ----------------------------------------------------------

  function FlushAck(k: Sink): SinkOut {
    if k.unacked == 0 then SinkOut(k, []) else SinkOut(k.(unacked := 0), [Ack(k.unacked)])
  }

  function SocketWrite(k: Sink, out: Bytes, flushed: bool): Sink {
    k.(written := k.written + out, needDrain := k.needDrain || !flushed)
  }

  /** The sink after one more chunk of the head, and what that releases. */
  function ConsumeHead(r: Role, k: Sink, payload: Bytes): (Sink, Bytes) {
    var buf := k.head.buf + [payload];
    if HoldsBack(Flat(buf)) then (k.(head := k.head.(buf := buf)), [])
    else (k.(head := Head([], true, |k.taken|)), RewriteHost(Node, Flat(buf), r.target))
  }

  /** `flushed` is what the socket's `write` answers. */
  function WriteLocal(r: Role, k: Sink, payload: Bytes, flushed: bool): SinkOut {
    var k1 := k.(unacked := k.unacked + |payload|, taken := k.taken + payload);
    var (k2, out) := if k1.head.done then (k1, payload) else ConsumeHead(r, k1, payload);
    if out == [] && r.agent then FlushAck(k2)
    else
      var k3 := SocketWrite(k2, out, flushed);
      if flushed then FlushAck(k3) else SinkOut(k3, [])
  }

  function OnData(e: End, payload: Bytes, flushed: bool): Out {
    if e.finished || e.snk.receivedEof then Out(e, [])
    else if !e.connected then Out(e.(snk := e.snk.(queued := e.snk.queued + [payload])), [])
    else
      var o := WriteLocal(e.role, e.snk, payload, flushed);
      Out(e.(snk := o.snk), o.acks)
  }

  /** The half-close. `flushed` answers the write of a head still held back, if any. */
  function TakeEof(r: Role, k: Sink, flushed: bool): SinkOut {
    var k1 := if k.head.buf == [] then k
              else SocketWrite(k.(head := Head([], true, |k.taken|)),
                               RewriteHost(Node, Flat(k.head.buf), r.target), flushed);
    FlushAck(k1.(receivedEof := true, halfClosed := true))
  }

  function OnEof(e: End, flushed: bool): Out {
    if e.finished || e.snk.receivedEof then Out(e, [])
    else if !e.connected then Out(e.(snk := e.snk.(queuedEof := true)), [])
    else
      var o := TakeEof(e.role, e.snk, flushed);
      Out(e.(snk := o.snk, finished := e.src.sentEof), o.acks)
  }

  /** `pause` and `resume` of a socket that may not be there yet. */
  function Flow(e: End, on: bool): bool {
    if e.connected then on else e.src.reading
  }

  function MaybeResume(e: End): End {
    if e.finished || e.src.pausedGlobally || e.src.credit <= 0 || !e.src.pausedForCredit then e
    else e.(src := e.src.(pausedForCredit := false, reading := Flow(e, true)))
  }

  function OnAck(e: End, bytes: nat): Out {
    if e.finished then Out(e, []) else Out(MaybeResume(e.(src := e.src.(credit := e.src.credit + bytes))), [])
  }

  // ---- backpressure and teardown -----------------------------------------------------

  function SetGlobalPause(e: End, on: bool): End {
    if e.src.pausedGlobally == on || e.finished then e
    else if on then e.(src := e.src.(pausedGlobally := true, reading := Flow(e, false)))
    else MaybeResume(e.(src := e.src.(pausedGlobally := false)))
  }

  /** The socket field is unset until the dial succeeds; only an attached one is destroyed. */
  function Destroy(e: End, tellPeer: bool): Out {
    if e.finished then Out(e, [])
    else Out(e.(finished := true, destroyed := e.destroyed || e.connected), if tellPeer then [Reset] else [])
  }

  function Finish(e: End): End {
    e.(finished := true)
  }

  // ---- the agent's dial --------------------------------------------------------------

  function OnDialFailed(e: End): Out {
    if e.finished then Out(e, []) else Out(e.(finished := true), [Reset])
  }

  function WriteAll(r: Role, k: Sink, frames: seq<Bytes>, flushed: seq<bool>): SinkOut
    requires |frames| <= |flushed|
    decreases |frames|
  {
    if frames == [] then SinkOut(k, [])
    else
      var o := WriteLocal(r, k, frames[0], flushed[0]);
      var p := WriteAll(r, o.snk, frames[1..], flushed[1..]);
      SinkOut(p.snk, o.acks + p.acks)
  }

  /** What the connected socket gets at once: the queued frames, then a queued EOF. */
  function DrainQueue(r: Role, k: Sink, flushed: seq<bool>): SinkOut
    requires |flushed| == |k.queued| + 1
  {
    var o := WriteAll(r, k, k.queued, flushed);
    var k1 := o.snk.(queued := []);
    if !k1.queuedEof then SinkOut(k1, o.acks)
    else
      var p := TakeEof(r, k1, flushed[|k.queued|]);
      SinkOut(p.snk, o.acks + p.acks)
  }

  /** `flushed` holds the answer to each write of a queued frame, then the one for a head
      written because of a queued EOF. */
  function Attach(e: End, flushed: seq<bool>): Out
    requires |flushed| == |e.snk.queued| + 1
  {
    if e.finished then Out(e.(destroyed := true), [])
    else
      var o := DrainQueue(e.role, e.snk, flushed);
      Out(e.(connected := true, snk := o.snk, finished := o.snk.receivedEof && e.src.sentEof,
             src := e.src.(reading := !e.src.pausedGlobally)), o.acks)
  }

  // ---- one step of an end ------------------------------------------------------------

  /** Which events the socket layer can raise: a paused socket emits no data, and `drain`
      follows a refused write. */
  predicate Enabled(e: End, ev: Event) {
    match ev
    case Chunk(data) => e.connected && e.src.reading && data != []
    case Drained => e.snk.needDrain
    case Connected(flushed) => e.role.agent && !e.connected && |flushed| == |e.snk.queued| + 1
    case DialFailed => e.role.agent && !e.connected
    case Congested(_) => true
    case _ => e.connected
  }

  function OnDrained(e: End): Out {
    var e1 := e.(snk := e.snk.(needDrain := false));
    if e.finished then Out(e1, [])
    else
      var o := FlushAck(e1.snk);
      Out(e1.(snk := o.snk), o.acks)
  }

  function Handle(e: End, ev: Event): Out
    requires Enabled(e, ev)
  {
    match ev
    case Chunk(data) => OnChunk(e, data)
    case Ended => OnEnded(e)
    case Drained => OnDrained(e)
    case Errored => Destroy(e, true)
    case Closed => Out(Finish(e), [])
    case Connected(flushed) => Attach(e, flushed)
    case DialFailed => OnDialFailed(e)
    case Congested(on) => Out(SetGlobalPause(e, on), [])
  }

  /** A frame for a stream that is in its session's map. */
  function Dispatch(e: End, m: Msg, flushed: bool): Out {
    match m
    case Open => Out(e, [])
    case Data(p) => OnData(e, p, flushed)
    case Eof => OnEof(e, flushed)
    case Ack(n) => OnAck(e, n)
    case Reset => Destroy(e, false)
  }

  /** A frame as the session handles it: a finished stream is in no map any more, and
      anything but a RESET for it is answered with one. */
  function Receive(e: End, m: Msg, flushed: bool): Out {
    if e.finished then Out(e, if m.Reset? then [] else [Reset]) else Dispatch(e, m, flushed)
  }

  /** Anything that can happen to one end. */
  datatype Step = Raises(ev: Event) | Arrives(m: Msg, flushed: bool)

  predicate Possible(e: End, st: Step) {
    st.Raises? ==> Enabled(e, st.ev)
  }

  function Respond(e: End, st: Step): Out
    requires Possible(e, st)
  {
    match st
    case Raises(ev) => Handle(e, ev)
    case Arrives(m, flushed) => Receive(e, m, flushed)
  }

  /** The server's end after `openStream`: `congested` is the session's flag when the new
      stream is told about it, `congests` whether sending the preread bytes raises it. The
      closing `resume` is unconditional. */
  function OpenServer(window: int, preread: Bytes, congested: bool, congests: bool): Out {
    var e := SetGlobalPause(NewEnd(PUBLIC, window), congested);
    var o := if preread == [] then Out(e, []) else OnChunk(e, preread);
    var e1 := if preread != [] && congests then SetGlobalPause(o.e, true) else o.e;
    Out(e1.(src := e1.src.(reading := true)), o.sent)
  }

  // ---- what every end keeps ----------------------------------------------------------

  /** What must have reached the local socket, as a function of the payload bytes consumed. */
  function Image(r: Role, k: Sink): Bytes {
    if !r.rewrite then k.taken
    else if !k.head.done || k.head.cut > |k.taken| then []
    else RewriteHost(Node, k.taken[..k.head.cut], r.target) + k.taken[k.head.cut..]
  }

  /** Only an incomplete head is held back, and it is cut no earlier than it is complete,
      unless the stream ends first; then nothing is held back. */
  predicate HeadOk(r: Role, k: Sink) {
    if k.head.done then
      && k.head.buf == []
      && (r.rewrite ==> k.head.cut <= |k.taken|)
      && (r.rewrite && HoldsBack(k.taken[..k.head.cut]) ==> k.receivedEof && k.head.cut == |k.taken|)
    else
      && r.rewrite && Flat(k.head.buf) == k.taken && HoldsBack(k.taken)
      && (k.receivedEof ==> k.taken == [])
  }

  predicate SinkOk(r: Role, k: Sink) {
    && (r.rewrite ==> r.agent)
    && HeadOk(r, k) && k.written == Image(r, k)
    && (k.halfClosed <==> k.receivedEof)
    && (forall i :: 0 <= i < |k.queued| ==> k.queued[i] != [])
  }

  predicate Untouched(e: End) {
    && !e.src.sentEof && !e.src.pausedForCredit && e.src.read == [] && !e.src.reading
    && !e.snk.receivedEof && e.snk.unacked == 0 && e.snk.taken == [] && e.snk.written == []
    && !e.snk.needDrain && e.snk.head.buf == [] && e.snk.head.done == !e.role.rewrite
  }

  predicate Local(e: End) {
    && SinkOk(e.role, e.snk)
    && (!e.role.agent ==> e.connected && !e.snk.queuedEof)
    && (!e.connected ==> Untouched(e))
    && (e.connected ==> e.snk.queued == [])
    && (e.connected && e.snk.queuedEof && !e.finished ==> e.snk.receivedEof)
    && (e.src.sentEof && e.snk.receivedEof ==> e.finished)
    && (!e.finished && e.snk.unacked > 0 ==> e.snk.needDrain)
    && (!e.finished && e.src.pausedForCredit && !e.src.pausedGlobally ==> e.src.credit <= 0)
  }

  // ---- what one step may do ----------------------------------------------------------

  predicate GoodMsg(m: Msg) {
    match m
    case Data(p) => p != []
    case Ack(n) => n > 0
    case _ => true
  }

  /** What a step of `e` that leads to `f` may send: acknowledgements, or one message. */
  predicate GoodSend(e: End, f: End, sent: seq<Msg>) {
    && (AcksOnly(sent) || (|sent| == 1 && !sent[0].Open? && GoodMsg(sent[0])))
    && (sent != [] && (sent[0].Data? || sent[0].Eof?) ==> !e.src.sentEof)
    && (sent != [] && sent[0].Reset? ==> f.finished)
    && (sent != [] && !sent[0].Reset? ==> !e.finished)
  }

  predicate AcksOnly(q: seq<Msg>) {
    forall i :: 0 <= i < |q| ==> q[i].Ack? && q[i].bytes > 0
  }

  /** A finished end only lets its socket run out. */
  predicate Frozen(e: End, f: End) {
    && f == e.(destroyed := f.destroyed, snk := f.snk, src := f.src)
    && f.snk == e.snk.(needDrain := f.snk.needDrain)
    && f.src == e.src
    && (f.snk.needDrain ==> e.snk.needDrain)
  }

  /** How the sending half moved. */
  predicate SourceEffect(s: Source, inp: seq<Msg>, t: Source, sent: seq<Msg>) {
    && t.read == s.read + DataOf(sent)
    && t.sentEof == (s.sentEof || Eof in sent)
    && t.credit == s.credit - |DataOf(sent)| + AckSum(inp)
  }

  /** How the receiving half moved. */
  predicate SinkEffect(k: Sink, inp: seq<Msg>, l: Sink, sent: seq<Msg>) {
    && l.taken + Flat(l.queued) == k.taken + Flat(k.queued) + DataOf(inp)
    && (l.receivedEof || l.queuedEof) == (k.receivedEof || k.queuedEof || Eof in inp)
    && l.unacked + |Flat(l.queued)| + AckSum(sent) == k.unacked + |Flat(k.queued)| + |DataOf(inp)|
  }

  /** The summary of a step of an end that consumed `inp` (at most one message): how the
      histories, the credit and the EOF flags moved, whichever handler ran. */
  predicate Effect(e: End, inp: seq<Msg>, o: Out) {
    && GoodSend(e, o.e, o.sent)
    && o.e.role == e.role
    && (e.connected ==> o.e.connected)
    && if e.finished then
         Frozen(e, o.e) && o.sent == (if inp == [] || inp[0].Reset? then [] else [Reset])
       else
         SourceEffect(e.src, inp, o.e.src, o.sent) && SinkEffect(e.snk, inp, o.e.snk, o.sent)
  }

  /** What a FIFO peer that keeps the protocol can send to `e`. */
  predicate Welcome(e: End, m: Msg) {
    && GoodMsg(m)
    && (m.Data? || m.Eof? ==> !e.snk.receivedEof && !e.snk.queuedEof)
  }

  /** What arrives is what such a peer sends. */
  predicate Lawful(e: End, st: Step) {
    st.Arrives? && !st.m.Open? ==> GoodMsg(st.m) && (e.finished || Welcome(e, st.m))
  }

  // ---- work left ---------------------------------------------------------------------

  /** Weight of the work an end still holds: queued and unacknowledged bytes, a due drain,
      an unfinished dial. */
  function Load(e: End): nat {
    SinkLoad(e.snk) + (if e.connected then 0 else 1)
  }

  function SinkLoad(k: Sink): nat {
    5 * |Flat(k.queued)| + 3 * k.unacked + (if k.needDrain then 1 else 0)
  }

  function Weight(m: Msg): nat {
    match m
    case Open => 2
    case Data(p) => 6 * |p|
    case Eof => 2
    case Ack(n) => 2 * n
    case Reset => 1
  }

  function Weigh(q: seq<Msg>): nat {
    if q == [] then 0 else Weight(q[0]) + Weigh(q[1..])
  }

  lemma {:induction false} WeighAppend(a: seq<Msg>, b: seq<Msg>)
    ensures Weigh(a + b) == Weigh(a) + Weigh(b)
  {
    if a == [] {
      assert a + b == b;
    } else {
      assert (a + b)[1..] == a[1..] + b;
      WeighAppend(a[1..], b);
    }
  }
}
