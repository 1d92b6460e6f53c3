/** Effect by effect, exactly what brings it about at either end of a stream: each kind of frame
    sent, each byte read or written, and each change of the socket. */
module EndpointLaws {
  import opened Frames
  import opened HostHeader
  import opened Endpoint
  import opened EndpointProofs

  // ---- frames sent -------------------------------------------------------------------

  /** An error of the socket, or a dial that fails, while the stream lives. */
  predicate Aborts(e: End, st: Step) {
    !e.finished && (st == Raises(Errored) || st == Raises(DialFailed))
  }

  /** A frame for a stream that is over. */
  predicate FindsFinished(e: End, st: Step) {
    e.finished && st.Arrives? && !st.m.Reset?
  }

  /** The socket was read, and the stream takes what was read. */
  predicate Reads(e: End, st: Step) {
    !e.finished && !e.src.sentEof && st.Raises? && st.ev.Chunk?
  }

  predicate ReadsEnd(e: End, st: Step) {
    !e.finished && !e.src.sentEof && st == Raises(Ended)
  }

  /** A step that moves bytes to the socket, or learns that the socket took some. */
  predicate Hands(st: Step) {
    match st
    case Raises(ev) => ev.Drained? || ev.Connected?
    case Arrives(m, _) => m.Data? || m.Eof?
  }

  /** Such steps of a live stream send acknowledgements and nothing else. */
  lemma HandsSendAcks(e: End, st: Step)
    requires Local(e) && Possible(e, st) && Lawful(e, st) && !e.finished && Hands(st)
    ensures AcksOnly(Respond(e, st).sent)
  {
    hide WriteLocal, Endpoint.TakeEof, DrainQueue, HeadOk, Image;
    match st {
      case Raises(ev) =>
        if ev.Drained? { FlushStep(e.snk.(needDrain := false)); }
        if ev.Connected? { DrainQueueStep(e.role, e.snk, ev.flushed); }
      case Arrives(m, flushed) =>
        if e.connected {
          if m.Data? { WriteLocalStep(e.role, e.snk, m.payload, flushed); }
          if m.Eof? { TakeEofStep(e.role, e.snk, flushed); }
        }
    }
  }

  /** All that a step may send: acknowledgements for bytes handed over, what was read from the
      socket, its end, or a RESET. The first is the only case with more than one frame. */
  lemma SentIs(e: End, st: Step)
    requires Local(e) && Possible(e, st) && Lawful(e, st)
    ensures var sent := Respond(e, st).sent;
            if Aborts(e, st) || FindsFinished(e, st) then sent == [Reset]
            else if Reads(e, st) then sent == [Data(st.ev.data)]
            else if ReadsEnd(e, st) then sent == [Eof]
            else if !e.finished && Hands(st) then AcksOnly(sent)
            else sent == []
  {
    if !e.finished && Hands(st) { HandsSendAcks(e, st); }
    hide WriteLocal, Endpoint.TakeEof, DrainQueue, FlushAck, Local;
  }

  lemma InAcks(q: seq<Msg>)
    requires AcksOnly(q)
    ensures Reset !in q && Eof !in q && forall p :: Data(p) !in q
  {
  }

  /** A RESET is sent for exactly two reasons; the close of a socket is none of them. */
  lemma ResetIff(e: End, st: Step)
    requires Local(e) && Possible(e, st) && Lawful(e, st)
    ensures Reset in Respond(e, st).sent <==> Aborts(e, st) || FindsFinished(e, st)
  {
    SentIs(e, st);
    hide Respond, Local;
    if AcksOnly(Respond(e, st).sent) { InAcks(Respond(e, st).sent); }
  }

  lemma ReadIs(e: End, st: Step)
    requires Local(e) && Possible(e, st) && Lawful(e, st)
    ensures Respond(e, st).e.src.read == e.src.read + if Reads(e, st) then st.ev.data else []
  {
    assert e.src.read + [] == e.src.read;
    if !(st.Arrives? && st.m.Open?) {
      hide Local, Lawful, GoodSend, SinkEffect, Respond, Possible, DataOf;
      StepFits(e, st);
      DataSent(e, st);
    }
  }

  lemma DataSent(e: End, st: Step)
    requires Local(e) && Possible(e, st) && Lawful(e, st)
    ensures DataOf(Respond(e, st).sent) == if Reads(e, st) then st.ev.data else []
  {
    hide Local, Lawful, Respond, Possible, DataOf;
    SentIs(e, st);
    SumsOne(Reset);
    SumsOne(Eof);
    assert DataOf([]) == [] by { AcksSums([]); }
    if Reads(e, st) { SumsOne(Data(st.ev.data)); }
    else if AcksOnly(Respond(e, st).sent) { AcksSums(Respond(e, st).sent); }
  }

  lemma StepFits(e: End, st: Step)
    requires Local(e) && Possible(e, st) && Lawful(e, st) && !(st.Arrives? && st.m.Open?)
    ensures Effect(e, if st.Arrives? then [st.m] else [], Respond(e, st))
  {
    match st {
      case Raises(ev) => HandleStep(e, ev);
      case Arrives(m, flushed) => ReceiveStep(e, m, flushed);
    }
  }

  /** Everything read from a live stream's socket is sent as it is, and nothing else is. */
  lemma DataIff(e: End, st: Step, p: Bytes)
    requires Local(e) && Possible(e, st) && Lawful(e, st)
    ensures Data(p) in Respond(e, st).sent <==> Reads(e, st) && st.ev.data == p
    ensures Respond(e, st).e.src.read == e.src.read + if Reads(e, st) then st.ev.data else []
  {
    SentIs(e, st);
    ReadIs(e, st);
    if AcksOnly(Respond(e, st).sent) { InAcks(Respond(e, st).sent); }
    hide Respond, Local, Lawful, Possible, Aborts, FindsFinished;
  }

  lemma EofIff(e: End, st: Step)
    requires Local(e) && Possible(e, st) && Lawful(e, st)
    ensures Eof in Respond(e, st).sent <==> ReadsEnd(e, st)
    ensures Respond(e, st).e.src.sentEof <==> e.src.sentEof || ReadsEnd(e, st)
  {
    SentIs(e, st);
    hide WriteLocal, Endpoint.TakeEof, DrainQueue, FlushAck, Local;
    if AcksOnly(Respond(e, st).sent) { InAcks(Respond(e, st).sent); }
  }

  // ---- the life of a stream and of its socket ------------------------------------------

  /** The second of the two EOFs. */
  predicate ExchangesEofs(e: End, st: Step) {
    || (ReadsEnd(e, st) && e.snk.receivedEof)
    || (!e.finished && e.connected && st.Arrives? && st.m.Eof? && e.src.sentEof)
  }

  predicate ResetArrives(e: End, st: Step) {
    !e.finished && st.Arrives? && st.m.Reset?
  }

  lemma HandsFinish(e: End, st: Step)
    requires Local(e) && Possible(e, st) && Lawful(e, st) && !e.finished && Hands(st)
    ensures Respond(e, st).e.finished <==> ExchangesEofs(e, st)
  {
    hide WriteLocal, Endpoint.TakeEof, DrainQueue, FlushAck, SinkOk;
    if st.Raises? && st.ev.Connected? { AttachStep(e, st.ev.flushed); }
  }

  /** A stream is over after an abort of either side, both EOFs, or the close of its socket. */
  lemma FinishedIff(e: End, st: Step)
    requires Local(e) && Possible(e, st) && Lawful(e, st)
    ensures Respond(e, st).e.finished <==>
      e.finished || Aborts(e, st) || ResetArrives(e, st) || ExchangesEofs(e, st) || st == Raises(Closed)
  {
    if !e.finished && Hands(st) { HandsFinish(e, st); }
    hide WriteLocal, Endpoint.TakeEof, DrainQueue, FlushAck, Local, Lawful, Flow;
  }

  /** The socket is destroyed by an abort of either side, as far as there is one, and when a
      dial brings one to a stream that is over. */
  lemma DestroyedIff(e: End, st: Step)
    requires Local(e) && Possible(e, st) && Lawful(e, st)
    ensures Respond(e, st).e.destroyed <==>
      || e.destroyed
      || ((Aborts(e, st) || ResetArrives(e, st)) && e.connected)
      || (e.finished && st.Raises? && st.ev.Connected?)
  {
    hide WriteLocal, Endpoint.TakeEof, DrainQueue, FlushAck, HeadOk, Image;
  }

  lemma ConnectedIff(e: End, st: Step)
    requires Local(e) && Possible(e, st) && Lawful(e, st)
    ensures Respond(e, st).e.connected <==> e.connected || (!e.finished && st.Raises? && st.ev.Connected?)
    ensures Respond(e, st).e.role == e.role
  {
    hide WriteLocal, Endpoint.TakeEof, DrainQueue, FlushAck, Local, Lawful, Flow;
  }

  /** The socket's sending half is closed by the peer's EOF, at once or when the dial succeeds. */
  lemma HalfClosedIff(e: End, st: Step)
    requires Local(e) && Possible(e, st) && Lawful(e, st)
    ensures Respond(e, st).e.snk.halfClosed <==>
      || e.snk.halfClosed
      || (!e.finished && e.connected && st.Arrives? && st.m.Eof?)
      || (!e.finished && e.snk.queuedEof && st.Raises? && st.ev.Connected?)
  {
    hide WriteLocal, Endpoint.TakeEof, DrainQueue, HeadOk, Image;
    if !e.finished {
      if st.Raises? && st.ev.Connected? { DrainQueueStep(e.role, e.snk, st.ev.flushed); }
      if st.Arrives? && e.connected {
        if st.m.Data? { WriteLocalStep(e.role, e.snk, st.m.payload, st.flushed); }
        if st.m.Eof? { TakeEofStep(e.role, e.snk, st.flushed); }
      }
    }
  }

  /** A live stream knows whether its session is congested; one that is over does not care. */
  lemma PausedGloballyIff(e: End, st: Step)
    requires Possible(e, st)
    ensures Respond(e, st).e.src.pausedGlobally ==
      if !e.finished && st.Raises? && st.ev.Congested? then st.ev.on else e.src.pausedGlobally
  {
    hide WriteLocal, Endpoint.TakeEof, DrainQueue, FlushAck, Flow;
  }

  // ---- acknowledgements --------------------------------------------------------------

  /** With `fed` and no more of a stream, its head would be incomplete. */
  predicate HeadOpen(r: Role, fed: Bytes) {
    r.rewrite && HoldsBack(fed)
  }

  lemma HeldIff(r: Role, k: Sink, p: Bytes)
    requires HeadOk(r, k) && !k.receivedEof && p != []
    ensures HeadOpen(r, k.taken + p) <==> !k.head.done && HoldsBack(Flat(k.head.buf + [p]))
    ensures !k.head.done ==> Flat(k.head.buf + [p]) == k.taken + p
  {
    OneMore(k.head.buf, p);
    if k.head.done && r.rewrite {
      HeldPrefix(k.taken + p, k.head.cut);
      assert (k.taken + p)[..k.head.cut] == k.taken[..k.head.cut];
    }
  }

  /** A payload is acknowledged, together with all bytes owed before, if the socket took it or
      the head buffer keeps it; a refused write is owed until the socket drains. */
  lemma WriteAcks(r: Role, k: Sink, p: Bytes, flushed: bool)
    requires SinkOk(r, k) && !k.receivedEof && p != []
    ensures var o := WriteLocal(r, k, p, flushed);
            var settled := flushed || HeadOpen(r, k.taken + p);
            && o.snk.taken == k.taken + p && o.snk.receivedEof == k.receivedEof
            && o.acks == (if settled then [Ack(k.unacked + |p|)] else [])
            && o.snk.unacked == (if settled then 0 else k.unacked + |p|)
            && o.snk.needDrain == (k.needDrain || !settled)
  {
    HeldIff(r, k, p);
    OneMore(k.head.buf, p);
    if !k.head.done { RewrittenIsSome(Node, k.taken + p, r.target); }
    hide HoldsBack, RewriteHost, Image;
  }

  /** So a refused write of payload sends no acknowledgement, unless the head keeps all of it. */
  lemma RefusedWriteIsOwed(e: End, p: Bytes)
    requires Local(e) && !e.finished && e.connected && Welcome(e, Data(p)) && !HeadOpen(e.role, e.snk.taken + p)
    ensures var o := Respond(e, Arrives(Data(p), false));
            o.sent == [] && o.e.snk.unacked == e.snk.unacked + |p| && o.e.snk.needDrain
  {
    WriteAcks(e.role, e.snk, p, false);
    hide WriteLocal, HeadOpen;
  }
}
