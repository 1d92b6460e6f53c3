/** Credit means what it says: over every run an end has granted its peer exactly the bytes its
    own socket was seen to accept, or the head buffer keeps. What the socket accepted is read
    off the events and the answers to the writes. */
module Backpressure {
  import opened Frames
  import opened HostHeader
  import opened Endpoint
  import opened EndpointProofs
  import opened EndpointLaws

  /** A ledger kept beside an end: the payload bytes that reached its socket or its head buffer,
      the payloads that wait for the dial, how many bytes were handed over by the last write
      answered true, the last drain or the half-close, how many the head buffer kept, and how
      many were granted back. */
  datatype Ledger = Ledger(fed: Bytes, waiting: seq<Bytes>, accepted: nat, kept: nat, granted: nat)

  const BLANK := Ledger([], [], 0, 0, 0)

  /** One payload, and the socket's answer. */
  function Fed(r: Role, l: Ledger, p: Bytes, flushed: bool): Ledger {
    var m := l.(fed := l.fed + p);
    if HeadOpen(r, m.fed) then m.(kept := |m.fed|)
    else if flushed then m.(accepted := |m.fed|)
    else m
  }

  function FedAll(r: Role, l: Ledger, ps: seq<Bytes>, flushed: seq<bool>): Ledger
    decreases |ps|
  {
    if ps == [] || flushed == [] then l else FedAll(r, Fed(r, l, ps[0], flushed[0]), ps[1..], flushed[1..])
  }

  /** All that was fed has left for the socket, and it took it. */
  function AllTaken(l: Ledger): Ledger {
    l.(accepted := |l.fed|)
  }

  /** The ledger after a step of a live end. */
  function Entry(e: End, l: Ledger, st: Step): Ledger
    requires Possible(e, st)
  {
    match st
    case Raises(ev) =>
      if ev.Drained? then (if HeadOpen(e.role, l.fed) && !e.snk.receivedEof then l else AllTaken(l))
      else if ev.Connected? then
        var m := FedAll(e.role, l, l.waiting, ev.flushed).(waiting := []);
        if e.snk.queuedEof then AllTaken(m) else m
      else l
    case Arrives(m, flushed) =>
      if e.snk.receivedEof then l
      else if m.Data? then
        if e.connected then Fed(e.role, l, m.payload, flushed) else l.(waiting := l.waiting + [m.payload])
      else if m.Eof? && e.connected then AllTaken(l)
      else l
  }

  function Noted(e: End, l: Ledger, st: Step): Ledger
    requires Possible(e, st)
  {
    var m := if e.finished then l else Entry(e, l, st);
    m.(granted := l.granted + AckSum(Respond(e, st).sent))
  }

  function Larger(a: nat, b: nat): nat {
    if a < b then b else a
  }

  /** Grants never run ahead of what was accepted or kept, and do not lag behind it while the
      stream lives; only a head is kept, and less than the buffer takes. */
  predicate Backed(e: End, l: Ledger) {
    && l.granted <= Larger(l.accepted, l.kept)
    && (!e.finished ==> l.granted == Larger(l.accepted, l.kept))
    && l.kept < MAX_HEAD_BUFFER && (!e.role.rewrite ==> l.kept == 0)
  }

  /** The ledger tells the sink's counters, once `granted` bytes were granted. */
  predicate Even(r: Role, k: Sink, l: Ledger, granted: nat) {
    && l.fed == k.taken && granted + k.unacked == |l.fed|
    && l.accepted <= |l.fed| && l.kept <= |l.fed|
    && (HeadOpen(r, l.fed) && !k.receivedEof ==> l.kept == |l.fed|)
    && l.kept < MAX_HEAD_BUFFER && (!r.rewrite ==> l.kept == 0)
  }

  predicate Exact(l: Ledger, granted: nat) {
    granted == Larger(l.accepted, l.kept)
  }

  lemma FedStep(r: Role, k: Sink, l: Ledger, granted: nat, p: Bytes, flushed: bool)
    requires SinkOk(r, k) && !k.receivedEof && p != [] && Even(r, k, l, granted) && Exact(l, granted)
    ensures var (o, m) := (WriteLocal(r, k, p, flushed), Fed(r, l, p, flushed));
            var g := granted + AckSum(o.acks);
            Even(r, o.snk, m, g) && Exact(m, g) && m.waiting == l.waiting && m.granted == l.granted
  {
    WriteAcks(r, k, p, flushed);
    SumsOne(Ack(k.unacked + |p|));
    hide WriteLocal, SinkOk;
  }

  lemma {:induction false} FedAllStep(
    r: Role, k: Sink, l: Ledger, granted: nat, ps: seq<Bytes>, flushed: seq<bool>)
    requires SinkOk(r, k) && !k.receivedEof && (k.unacked > 0 ==> k.needDrain) && |ps| <= |flushed|
    requires (forall i :: 0 <= i < |ps| ==> ps[i] != []) && Even(r, k, l, granted) && Exact(l, granted)
    ensures var (o, m) := (WriteAll(r, k, ps, flushed), FedAll(r, l, ps, flushed));
            var g := granted + AckSum(o.acks);
            && Even(r, o.snk, m, g) && Exact(m, g) && m.waiting == l.waiting && m.granted == l.granted
            && SinkOk(r, o.snk) && !o.snk.receivedEof
            && o.snk.queuedEof == k.queuedEof && o.snk.queued == k.queued
    decreases |ps|
  {
    hide WriteLocal, SinkOk, Fed, Even, Exact;
    if ps != [] {
      var o := WriteLocal(r, k, ps[0], flushed[0]);
      FedStep(r, k, l, granted, ps[0], flushed[0]);
      WriteLocalStep(r, k, ps[0], flushed[0]);
      FedAllStep(r, o.snk, Fed(r, l, ps[0], flushed[0]), granted + AckSum(o.acks), ps[1..], flushed[1..]);
      AckSumAppend(o.acks, WriteAll(r, o.snk, ps[1..], flushed[1..]).acks);
    }
  }

  /** The ledger is in step with its end. */
  predicate Kept(e: End, l: Ledger) {
    Even(e.role, e.snk, l, l.granted) && l.waiting == e.snk.queued && Backed(e, l)
  }

  lemma KeptHands(e: End, l: Ledger, st: Step)
    requires Local(e) && Possible(e, st) && Lawful(e, st) && !e.finished && Hands(st) && Kept(e, l)
    ensures Kept(Respond(e, st).e, Noted(e, l, st))
  {
    match st {
      case Raises(ev) => if ev.Drained? { KeptDrain(e, l); } else { KeptDial(e, l, ev.flushed); }
      case Arrives(m, flushed) =>
        if m.Data? { KeptData(e, l, m.payload, flushed); } else { KeptEof(e, l, flushed); }
    }
  }

  lemma KeptDrain(e: End, l: Ledger)
    requires Local(e) && e.snk.needDrain && !e.finished && Kept(e, l)
    ensures Kept(Respond(e, Raises(Drained)).e, Noted(e, l, Raises(Drained)))
  {
    FlushStep(e.snk.(needDrain := false));
    hide SinkOk, HeadOpen;
  }

  /** What a payload makes of the end, as far as the ledger is concerned. */
  lemma DataIs(e: End, p: Bytes, flushed: bool)
    requires !e.finished && Welcome(e, Data(p))
    ensures var o := Respond(e, Arrives(Data(p), flushed));
            && o.e == e.(snk := o.e.snk)
            && if e.connected then SinkOut(o.e.snk, o.sent) == WriteLocal(e.role, e.snk, p, flushed)
               else o.sent == [] && o.e.snk == e.snk.(queued := e.snk.queued + [p])
  {
    hide WriteLocal;
  }

  lemma KeptData(e: End, l: Ledger, p: Bytes, flushed: bool)
    requires Local(e) && !e.finished && Welcome(e, Data(p)) && Kept(e, l)
    ensures Kept(Respond(e, Arrives(Data(p), flushed)).e, Noted(e, l, Arrives(Data(p), flushed)))
  {
    DataIs(e, p, flushed);
    SinkIsOk(e);
    hide Local, WriteLocal, SinkOk, HeadOpen, Fed, Respond;
    if e.connected {
      FedStep(e.role, e.snk, l, l.granted, p, flushed);
      WrittenQueue(e.role, e.snk, p, flushed);
    }
  }

  lemma WrittenQueue(r: Role, k: Sink, p: Bytes, flushed: bool)
    ensures WriteLocal(r, k, p, flushed).snk.queued == k.queued
  {
  }

  lemma SinkIsOk(e: End)
    requires Local(e)
    ensures SinkOk(e.role, e.snk)
  {
  }

  lemma EofStep(r: Role, k: Sink, l: Ledger, granted: nat, flushed: bool)
    requires SinkOk(r, k) && !k.receivedEof && Even(r, k, l, granted) && Exact(l, granted)
    ensures var o := Endpoint.TakeEof(r, k, flushed);
            var g := granted + AckSum(o.acks);
            && Even(r, o.snk, AllTaken(l), g) && Exact(AllTaken(l), g) && o.snk.queued == k.queued
  {
    TakeEofStep(r, k, flushed);
    hide Endpoint.TakeEof, SinkOk, HeadOpen;
  }

  lemma KeptEof(e: End, l: Ledger, flushed: bool)
    requires Local(e) && !e.finished && Welcome(e, Eof) && Kept(e, l)
    ensures Kept(Respond(e, Arrives(Eof, flushed)).e, Noted(e, l, Arrives(Eof, flushed)))
  {
    SinkIsOk(e);
    hide Local, SinkOk, HeadOpen, Endpoint.TakeEof;
    if e.connected { EofStep(e.role, e.snk, l, l.granted, flushed); }
  }

  lemma Unqueue(r: Role, k: Sink, l: Ledger, granted: nat)
    requires SinkOk(r, k) && Even(r, k, l, granted)
    ensures SinkOk(r, k.(queued := [])) && Even(r, k.(queued := []), l, granted)
  {
    HeadStays(r, k, k.(queued := []));
    hide HeadOk, Image;
  }

  lemma QueuedSome(r: Role, k: Sink)
    requires SinkOk(r, k)
    ensures forall i :: 0 <= i < |k.queued| ==> k.queued[i] != []
  {
  }

  lemma QueueStep(r: Role, k: Sink, l: Ledger, granted: nat, flushed: seq<bool>)
    requires SinkOk(r, k) && !k.receivedEof && (k.unacked > 0 ==> k.needDrain) && |flushed| == |k.queued| + 1
    requires Even(r, k, l, granted) && Exact(l, granted)
    ensures var (o, m) := (WriteAll(r, k, k.queued, flushed), FedAll(r, l, k.queued, flushed));
            var (k1, g) := (o.snk.(queued := []), granted + AckSum(o.acks));
            && SinkOk(r, k1) && !k1.receivedEof && k1.queuedEof == k.queuedEof
            && Even(r, k1, m, g) && Exact(m, g) && m.granted == l.granted && m.waiting == l.waiting
  {
    hide WriteAll, FedAll, SinkOk, Even, Exact, AckSum;
    QueuedSome(r, k);
    FedAllStep(r, k, l, granted, k.queued, flushed);
    var o, m := WriteAll(r, k, k.queued, flushed), FedAll(r, l, k.queued, flushed);
    Unqueue(r, o.snk, m, granted + AckSum(o.acks));
  }

  /** The queue leaves for the socket the dial brought, and a queued EOF behind it. */
  lemma DialStep(r: Role, k: Sink, l: Ledger, granted: nat, flushed: seq<bool>)
    requires SinkOk(r, k) && !k.receivedEof && (k.unacked > 0 ==> k.needDrain) && |flushed| == |k.queued| + 1
    requires Even(r, k, l, granted) && Exact(l, granted)
    ensures var (m, o) := (FedAll(r, l, k.queued, flushed), DrainQueue(r, k, flushed));
            var (n, g) := (if k.queuedEof then AllTaken(m) else m, granted + AckSum(o.acks));
            && Even(r, o.snk, n, g) && Exact(n, g) && n.granted == l.granted && o.snk.queued == []
  {
    hide WriteAll, FedAll, SinkOk, Even, Exact, Endpoint.TakeEof, AckSum;
    QueueStep(r, k, l, granted, flushed);
    if k.queuedEof {
      var o, m := WriteAll(r, k, k.queued, flushed), FedAll(r, l, k.queued, flushed);
      var k1 := o.snk.(queued := []);
      EofStep(r, k1, m, granted + AckSum(o.acks), flushed[|k.queued|]);
      AckSumAppend(o.acks, Endpoint.TakeEof(r, k1, flushed[|k.queued|]).acks);
    }
  }

  /** What the dial makes of the end, as far as the ledger is concerned. */
  lemma DialIs(e: End, flushed: seq<bool>)
    requires Enabled(e, Connected(flushed)) && !e.finished
    ensures var (o, d) := (Respond(e, Raises(Connected(flushed))), DrainQueue(e.role, e.snk, flushed));
            o.e.snk == d.snk && o.sent == d.acks && o.e.role == e.role
  {
  }

  lemma KeptDial(e: End, l: Ledger, flushed: seq<bool>)
    requires Local(e) && Enabled(e, Connected(flushed)) && !e.finished && Kept(e, l)
    ensures Kept(Respond(e, Raises(Connected(flushed))).e, Noted(e, l, Raises(Connected(flushed))))
  {
    UndialledSink(e);
    DialIs(e, flushed);
    DialStep(e.role, e.snk, l, l.granted, flushed);
    BothUnwaiting(e.role, l, l.waiting, flushed, e.snk.queuedEof);
    hide Local, DrainQueue, FedAll, HeadOpen, Respond, Enabled;
  }

  lemma UndialledSink(e: End)
    requires Local(e) && !e.connected
    ensures SinkOk(e.role, e.snk) && !e.snk.receivedEof && e.snk.unacked == 0
  {
  }

  /** It does not matter when the waiting payloads are struck off. */
  lemma BothUnwaiting(r: Role, l: Ledger, ps: seq<Bytes>, flushed: seq<bool>, eof: bool)
    ensures var m := FedAll(r, l, ps, flushed);
            (if eof then AllTaken(m.(waiting := [])) else m.(waiting := []))
            == (if eof then AllTaken(m) else m).(waiting := [])
  {
    hide FedAll;
  }

  /** Every step keeps the ledger. */
  lemma KeptStep(e: End, l: Ledger, st: Step)
    requires Local(e) && Possible(e, st) && Lawful(e, st) && Kept(e, l)
    ensures Kept(Respond(e, st).e, Noted(e, l, st))
  {
    if !e.finished && Hands(st) {
      KeptHands(e, l, st);
    } else {
      KeptOther(e, l, st);
    }
  }

  /** The other steps leave the sink alone, but for a drain that nobody waits for. */
  lemma SinkStays(e: End, st: Step)
    requires Local(e) && Possible(e, st) && Lawful(e, st) && (e.finished || !Hands(st))
    ensures var o := Respond(e, st);
            && o.e.snk == e.snk.(needDrain := o.e.snk.needDrain) && o.e.role == e.role
            && AckSum(o.sent) == 0 && (e.finished ==> o.e.finished)
  {
    NoAcksSent(e, st);
    hide Local, Lawful, AckSum, Flow, MaybeResume;
  }

  lemma NoAcksSent(e: End, st: Step)
    requires Local(e) && Possible(e, st) && Lawful(e, st) && (e.finished || !Hands(st))
    ensures AckSum(Respond(e, st).sent) == 0
  {
    SentIs(e, st);
    SumsOne(Reset);
    SumsOne(Eof);
    if st.Raises? && st.ev.Chunk? { SumsOne(Data(st.ev.data)); }
    hide Local, Lawful, AckSum, Respond;
  }

  lemma KeptOther(e: End, l: Ledger, st: Step)
    requires Local(e) && Possible(e, st) && Lawful(e, st) && Kept(e, l) && (e.finished || !Hands(st))
    ensures Kept(Respond(e, st).e, Noted(e, l, st))
  {
    SinkStays(e, st);
    hide Local, Respond, HeadOpen;
  }
}
