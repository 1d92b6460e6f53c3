/** Every handler keeps the local invariant and fits the summary `Effect`; deliveries,
    drains and dials use up work. */
module EndpointProofs {
  import opened Frames
  import opened HostHeader
  import opened Endpoint

  lemma SumsOne(m: Msg)
    ensures DataOf([m]) == if m.Data? then m.payload else []
    ensures AckSum([m]) == if m.Ack? then m.bytes else 0
    ensures Weigh([m]) == Weight(m)
    ensures m.Data? ==> Flat([m.payload]) == m.payload
  {
    assert [m][1..] == [];
    if m.Data? { assert [m.payload][1..] == []; }
  }

  lemma {:induction false} AcksSums(q: seq<Msg>)
    requires AcksOnly(q)
    ensures Weigh(q) == 2 * AckSum(q) && DataOf(q) == [] && Eof !in q && Reset !in q
  {
    if q != [] { AcksSums(q[1..]); }
  }

  lemma FlushStep(k: Sink)
    ensures var o := FlushAck(k);
            && o.snk == k.(unacked := 0) && AcksOnly(o.acks) && AckSum(o.acks) == k.unacked
  {
    SumsOne(Ack(k.unacked));
  }

  // ---- writing to the local socket ---------------------------------------------------

  lemma OneMore(buf: seq<Bytes>, payload: Bytes)
    ensures Flat(buf + [payload]) == Flat(buf) + payload
    ensures Flat([]) == []
  {
    FlatAppend(buf, [payload]);
    SumsOne(Data(payload));
  }

  lemma ConsumeHeadStep(r: Role, k: Sink, payload: Bytes)
    requires r.rewrite && !k.head.done && !k.receivedEof && Flat(k.head.buf) + payload == k.taken
    ensures var (l, out) := ConsumeHead(r, k, payload);
            && HeadOk(r, l) && Image(r, l) == out
            && l == k.(head := l.head)
  {
    hide RewriteHost, HoldsBack, Flat;
    OneMore(k.head.buf, payload);
    assert k.taken[..|k.taken|] == k.taken && k.taken[|k.taken|..] == [];
  }

  /** The sink after one payload, before acknowledging it, and what the socket gets. */
  function Intake(r: Role, k: Sink, payload: Bytes): (Sink, Bytes) {
    var k1 := k.(unacked := k.unacked + |payload|, taken := k.taken + payload);
    if k1.head.done then (k1, payload) else ConsumeHead(r, k1, payload)
  }

  lemma IntakeStep(r: Role, k: Sink, payload: Bytes)
    requires HeadOk(r, k) && !k.receivedEof
    ensures var (l, out) := Intake(r, k, payload);
            && HeadOk(r, l) && Image(r, l) == Image(r, k) + out
            && l == k.(head := l.head, unacked := k.unacked + |payload|, taken := k.taken + payload)
  {
    hide RewriteHost, HoldsBack;
    var k1 := k.(unacked := k.unacked + |payload|, taken := k.taken + payload);
    if !k.head.done {
      ConsumeHeadStep(r, k1, payload);
    } else if r.rewrite {
      assert k1.taken[..k.head.cut] == k.taken[..k.head.cut];
      assert k1.taken[k.head.cut..] == k.taken[k.head.cut..] + payload;
    }
  }

  /** `data` was handed on: its bytes are owed until acknowledged, and what the socket got
      is again the image of what was consumed. */
  predicate Handed(r: Role, k: Sink, data: Bytes, o: SinkOut) {
    && SinkOk(r, o.snk) && (o.snk.unacked > 0 ==> o.snk.needDrain)
    && AcksOnly(o.acks) && o.snk.unacked + AckSum(o.acks) == k.unacked + |data|
    && o.snk.taken == k.taken + data
    && o.snk.queued == k.queued && o.snk.queuedEof == k.queuedEof && !o.snk.receivedEof
  }

  lemma HeadStays(r: Role, k: Sink, l: Sink)
    requires l.head == k.head && l.taken == k.taken && l.receivedEof == k.receivedEof
    ensures HeadOk(r, l) == HeadOk(r, k) && Image(r, l) == Image(r, k)
  {
  }

  lemma WriteLocalStep(r: Role, k: Sink, payload: Bytes, flushed: bool)
    requires SinkOk(r, k) && !k.receivedEof && (k.unacked > 0 ==> k.needDrain)
    ensures Handed(r, k, payload, WriteLocal(r, k, payload, flushed))
  {
    hide HeadOk, Image, RewriteHost, HoldsBack;
    IntakeStep(r, k, payload);
    var (k2, out) := Intake(r, k, payload);
    FlushStep(k2);
    FlushStep(SocketWrite(k2, out, flushed));
    HeadStays(r, k2, WriteLocal(r, k, payload, flushed).snk);
    if out == [] { assert k2.written + out == k2.written; }
  }

  lemma HandedTwice(r: Role, k: Sink, a: Bytes, b: Bytes, o: SinkOut, p: SinkOut)
    requires Handed(r, k, a, o) && Handed(r, o.snk, b, p)
    ensures Handed(r, k, a + b, SinkOut(p.snk, o.acks + p.acks))
  {
    AckSumAppend(o.acks, p.acks);
    assert k.taken + (a + b) == k.taken + a + b;
  }

  lemma {:induction false} WriteAllStep(r: Role, k: Sink, frames: seq<Bytes>, flushed: seq<bool>)
    requires SinkOk(r, k) && !k.receivedEof && (k.unacked > 0 ==> k.needDrain) && |frames| <= |flushed|
    ensures Handed(r, k, Flat(frames), WriteAll(r, k, frames, flushed))
    ensures frames == [] ==> WriteAll(r, k, frames, flushed).snk == k
    decreases |frames|
  {
    if frames == [] {
      assert k.taken + [] == k.taken;
    } else {
      var o := WriteLocal(r, k, frames[0], flushed[0]);
      WriteLocalStep(r, k, frames[0], flushed[0]);
      WriteAllStep(r, o.snk, frames[1..], flushed[1..]);
      HandedTwice(r, k, frames[0], Flat(frames[1..]), o, WriteAll(r, o.snk, frames[1..], flushed[1..]));
    }
  }

  lemma TakeEofStep(r: Role, k: Sink, flushed: bool)
    requires SinkOk(r, k) && !k.receivedEof
    ensures var o := TakeEof(r, k, flushed);
            && SinkOk(r, o.snk) && o.snk.unacked == 0
            && AcksOnly(o.acks) && AckSum(o.acks) == k.unacked
            && o.snk.taken == k.taken && o.snk.queued == k.queued && o.snk.queuedEof == k.queuedEof
            && o.snk.receivedEof && (k.head.buf == [] ==> o.snk.needDrain == k.needDrain)
  {
    hide RewriteHost, HoldsBack;
    assert k.taken[..|k.taken|] == k.taken && k.taken[|k.taken|..] == [];
    var k1 := if k.head.buf == [] then k
              else SocketWrite(k.(head := Head([], true, |k.taken|)),
                               RewriteHost(Node, Flat(k.head.buf), r.target), flushed);
    FlushStep(k1.(receivedEof := true, halfClosed := true));
  }

  lemma DrainQueueStep(r: Role, k: Sink, flushed: seq<bool>)
    requires SinkOk(r, k) && !k.receivedEof && k.unacked == 0 && k.taken == [] && !k.needDrain
    requires k.head.buf == [] && |flushed| == |k.queued| + 1
    ensures var o := DrainQueue(r, k, flushed);
            && SinkOk(r, o.snk) && (o.snk.unacked > 0 ==> o.snk.needDrain)
            && AcksOnly(o.acks) && o.snk.unacked + AckSum(o.acks) == |Flat(k.queued)|
            && o.snk.taken == Flat(k.queued) && o.snk.queued == []
            && o.snk.queuedEof == o.snk.receivedEof == k.queuedEof
            && (k.queued == [] ==> !o.snk.needDrain)
  {
    hide WriteAll, Endpoint.TakeEof, HeadOk, Image;
    WriteAllStep(r, k, k.queued, flushed);
    HeadStays(r, WriteAll(r, k, k.queued, flushed).snk, WriteAll(r, k, k.queued, flushed).snk.(queued := []));
    var o := WriteAll(r, k, k.queued, flushed);
    var k1 := o.snk.(queued := []);
    if k1.queuedEof {
      TakeEofStep(r, k1, flushed[|k.queued|]);
      AckSumAppend(o.acks, TakeEof(r, k1, flushed[|k.queued|]).acks);
    }
  }

  // ---- the events of the local socket ------------------------------------------------

  lemma ChunkStep(e: End, data: Bytes)
    requires Local(e) && Enabled(e, Chunk(data))
    ensures Local(OnChunk(e, data).e) && Effect(e, [], OnChunk(e, data))
  {
    SumsOne(Data(data));
    assert e.snk.taken + Flat(e.snk.queued) + DataOf([]) == e.snk.taken + Flat(e.snk.queued);
    assert e.src.read + DataOf([]) == e.src.read;
  }

  lemma AttachStep(e: End, flushed: seq<bool>)
    requires Local(e) && Enabled(e, Connected(flushed)) && !e.finished
    ensures var o := Attach(e, flushed);
            && Local(o.e) && Effect(e, [], o)
            && o.e.connected && !o.e.finished
            && Load(o.e) + Weigh(o.sent) < Load(e)
  {
    DrainQueueStep(e.role, e.snk, flushed);
    var o := DrainQueue(e.role, e.snk, flushed);
    AcksSums(o.acks);
    assert Flat(e.snk.queued) + Flat([]) == [] + Flat(e.snk.queued) + DataOf([]);
    if e.snk.queued != [] {
      assert |Flat(e.snk.queued)| >= |e.snk.queued[0]| >= 1;
    }
  }

  lemma DrainedStep(e: End)
    requires Local(e) && e.snk.needDrain
    ensures var o := OnDrained(e);
            && Local(o.e) && Effect(e, [], o)
            && Load(o.e) + Weigh(o.sent) < Load(e)
  {
    FlushStep(e.snk.(needDrain := false));
    AcksSums(FlushAck(e.snk.(needDrain := false)).acks);
    NoInput(e);
  }

  lemma NoInput(e: End)
    ensures DataOf([]) == [] && AckSum([]) == 0 && Flat([]) == []
    ensures e.snk.taken + Flat(e.snk.queued) + DataOf([]) == e.snk.taken + Flat(e.snk.queued)
    ensures e.src.read + DataOf([]) == e.src.read
  {
  }

  lemma EndedStep(e: End)
    requires Local(e) && e.connected
    ensures Local(OnEnded(e).e) && Effect(e, [], OnEnded(e))
  {
    NoInput(e);
    SumsOne(Eof);
  }

  lemma AbortStep(e: End, ev: Event)
    requires Local(e) && Enabled(e, ev) && (ev.Errored? || ev.Closed? || ev.DialFailed?)
    ensures Local(Handle(e, ev).e) && Effect(e, [], Handle(e, ev))
  {
    NoInput(e);
    SumsOne(Reset);
  }

  lemma CongestedStep(e: End, on: bool)
    requires Local(e)
    ensures Local(SetGlobalPause(e, on)) && Effect(e, [], Out(SetGlobalPause(e, on), []))
  {
    NoInput(e);
  }

  lemma FinishedAttachStep(e: End, flushed: seq<bool>)
    requires Local(e) && Enabled(e, Connected(flushed)) && e.finished
    ensures Local(Attach(e, flushed).e) && Effect(e, [], Attach(e, flushed))
  {
  }

  lemma HandleStep(e: End, ev: Event)
    requires Local(e) && Enabled(e, ev)
    ensures Local(Handle(e, ev).e) && Effect(e, [], Handle(e, ev))
  {
    match ev {
      case Chunk(data) => ChunkStep(e, data);
      case Drained => DrainedStep(e);
      case Connected(flushed) => if e.finished { FinishedAttachStep(e, flushed); } else { AttachStep(e, flushed); }
      case Ended => EndedStep(e);
      case Congested(on) => CongestedStep(e, on);
      case _ => AbortStep(e, ev);
    }
  }

  // ---- frames ------------------------------------------------------------------------

  lemma QueueDataStep(e: End, payload: Bytes, flushed: bool)
    requires Local(e) && !e.finished && Welcome(e, Data(payload)) && !e.connected
    ensures var o := OnData(e, payload, flushed);
            && Local(o.e) && Effect(e, [Data(payload)], o)
            && Load(o.e) + Weigh(o.sent) < Load(e) + Weight(Data(payload))
  {
    hide Flat, DataOf, AckSum, HeadOk, Image;
    SumsOne(Data(payload));
    NoInput(e);
    FlatAppend(e.snk.queued, [payload]);
    HeadStays(e.role, e.snk, OnData(e, payload, flushed).e.snk);
    assert [] + (Flat(e.snk.queued) + payload) == [] + Flat(e.snk.queued) + payload;
  }

  lemma WriteDataStep(e: End, payload: Bytes, flushed: bool)
    requires Local(e) && !e.finished && Welcome(e, Data(payload)) && e.connected
    ensures var o := OnData(e, payload, flushed);
            && Local(o.e) && Effect(e, [Data(payload)], o)
            && Load(o.e) + Weigh(o.sent) < Load(e) + Weight(Data(payload))
  {
    hide WriteLocal, SinkOk, Image, Untouched;
    SumsOne(Data(payload));
    NoInput(e);
    WriteLocalStep(e.role, e.snk, payload, flushed);
    AcksSums(OnData(e, payload, flushed).sent);
    assert e.snk.taken + Flat([]) + payload == e.snk.taken + payload + Flat([]);
  }

  lemma ReceiveEofStep(e: End, flushed: bool)
    requires Local(e) && !e.finished && Welcome(e, Eof)
    ensures var o := OnEof(e, flushed);
            && Local(o.e) && Effect(e, [Eof], o)
            && Load(o.e) + Weigh(o.sent) < Load(e) + Weight(Eof)
  {
    SumsOne(Eof);
    NoInput(e);
    if e.connected {
      TakeEofStep(e.role, e.snk, flushed);
      AcksSums(OnEof(e, flushed).sent);
    }
  }

  lemma ReceiveAckStep(e: End, n: nat)
    requires Local(e) && !e.finished && n > 0
    ensures var o := OnAck(e, n);
            Local(o.e) && Effect(e, [Ack(n)], o) && Load(o.e) <= Load(e)
  {
    SumsOne(Ack(n));
    NoInput(e);
  }

  lemma ReceiveResetStep(e: End, m: Msg, flushed: bool)
    requires Local(e) && !m.Open? && GoodMsg(m) && (e.finished || m.Reset?)
    ensures var o := Receive(e, m, flushed);
            && Local(o.e) && Effect(e, [m], o)
            && Load(o.e) + Weigh(o.sent) < Load(e) + Weight(m)
  {
    SumsOne(m);
    SumsOne(Reset);
    NoInput(e);
  }

  /** Any frame but OPEN: the end stays sound, the step fits the summary, and strictly
      less work is left than before. */
  lemma ReceiveStep(e: End, m: Msg, flushed: bool)
    requires Local(e) && !m.Open? && GoodMsg(m) && (e.finished || Welcome(e, m))
    ensures var o := Receive(e, m, flushed);
            && Local(o.e) && Effect(e, [m], o)
            && Load(o.e) + Weigh(o.sent) < Load(e) + Weight(m)
  {
    if e.finished {
      ReceiveResetStep(e, m, flushed);
    } else {
      match m {
        case Data(p) => if e.connected { WriteDataStep(e, p, flushed); } else { QueueDataStep(e, p, flushed); }
        case Eof => ReceiveEofStep(e, flushed);
        case Ack(n) => ReceiveAckStep(e, n);
        case Reset => ReceiveResetStep(e, m, flushed);
      }
    }
  }

  // ---- new ends ----------------------------------------------------------------------

  lemma OpenServerStep(window: int, preread: Bytes, congested: bool, congests: bool)
    ensures var o := OpenServer(window, preread, congested, congests);
            && Local(o.e) && !o.e.finished && !o.e.src.sentEof && !o.e.role.agent
            && o.e.src.read == DataOf(o.sent) == preread
            && o.e.snk == NewEnd(PUBLIC, window).snk
            && o.e.src.credit == window - |preread|
            && o.sent == (if preread == [] then [] else [Data(preread)])
  {
    SumsOne(Data(preread));
  }
}
