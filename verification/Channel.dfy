/** One stream between the server and the agent: its two ends and the frames in flight on
    the two FIFO directions of the shared WebSocket. */
module Channel {
  import opened Frames
  import opened Endpoint
  import opened EndpointProofs

  /** `known` says that the agent has processed the OPEN frame; until then its end is
      only the one it is going to create. */
  datatype Chan = Chan(window: int, known: bool, s: End, c: End, down: seq<Msg>, up: seq<Msg>)

  /** `flushed` is the answer of a socket's `write`; `accept` whether the agent knows the
      tunnel named in an OPEN frame, `congested` the agent's congestion flag at that time. */
  datatype Action =
    | AtServer(ev: Event)
    | AtAgent(ev: Event)
    | ToAgent(flushed: bool, accept: bool, congested: bool)
    | ToServer(flushed: bool)

  function Start(window: int, role: Role, preread: Bytes, congested: bool, congests: bool): Chan {
    var o := OpenServer(window, preread, congested, congests);
    Chan(window, false, o.e, NewEnd(role, window), [Open] + o.sent, [])
  }

  predicate CanDo(x: Chan, a: Action) {
    match a
    case AtServer(ev) => Enabled(x.s, ev)
    case AtAgent(ev) => x.known && Enabled(x.c, ev)
    case ToAgent(_, _, _) => x.down != []
    case ToServer(_) => x.up != []
  }

  /** The agent's end created for an OPEN frame; a refused one never existed, which is the
      same as having finished. */
  function Accepted(x: Chan, accept: bool, congested: bool): Out {
    var e := NewEnd(x.c.role, x.window);
    if accept then Out(SetGlobalPause(e, congested), []) else Out(Finish(e), [Reset])
  }

  function Next(x: Chan, a: Action): Chan
    requires CanDo(x, a)
  {
    match a
    case AtServer(ev) =>
      var o := Handle(x.s, ev);
      x.(s := o.e, down := x.down + o.sent)
    case AtAgent(ev) =>
      var o := Handle(x.c, ev);
      x.(c := o.e, up := x.up + o.sent)
    case ToAgent(flushed, accept, congested) =>
      var o := if x.down[0].Open? then Accepted(x, accept, congested) else Receive(x.c, x.down[0], flushed);
      x.(known := x.known || x.down[0].Open?, c := o.e, down := x.down[1..], up := x.up + o.sent)
    case ToServer(flushed) =>
      var o := Receive(x.s, x.up[0], flushed);
      x.(s := o.e, up := x.up[1..], down := x.down + o.sent)
  }

  predicate Runs(x: Chan, acts: seq<Action>)
    decreases |acts|
  {
    acts == [] || (CanDo(x, acts[0]) && Runs(Next(x, acts[0]), acts[1..]))
  }

  function After(x: Chan, acts: seq<Action>): Chan
    requires Runs(x, acts)
    decreases |acts|
  {
    if acts == [] then x else After(Next(x, acts[0]), acts[1..])
  }

  // ---- the invariant -----------------------------------------------------------------

  /** What an end sends, in order: nothing but control after EOF, only RESETs after RESET,
      no empty payloads, no empty grants, OPEN only in front. */
  ghost predicate Ordered(q: seq<Msg>) {
    && (forall i :: 0 <= i < |q| ==> GoodMsg(q[i]))
    && (forall i :: 0 < i < |q| ==> !q[i].Open?)
    && (forall i, j :: 0 <= i < j < |q| && q[i].Eof? ==> !q[j].Data? && !q[j].Eof?)
    && (forall i, j :: 0 <= i < j < |q| && q[i].Reset? ==> q[j].Reset?)
  }

  predicate NoMore(q: seq<Msg>) {
    forall i :: 0 <= i < |q| ==> !q[i].Data? && !q[i].Eof?
  }

  /** All payload bytes an end got from its peer so far. */
  function Arrived(e: End): Bytes {
    e.snk.taken + Flat(e.snk.queued)
  }

  predicate SawEof(e: End) {
    e.snk.receivedEof || e.snk.queuedEof
  }

  /** Where the window is: unused credit, bytes in flight, bytes queued, bytes owed, and
      credit on its way back. */
  function WindowUse(snd: End, rcv: End, q: seq<Msg>, back: seq<Msg>): int {
    snd.src.credit + |DataOf(q)| + |Flat(rcv.snk.queued)| + rcv.snk.unacked + AckSum(back)
  }

  ghost predicate InOrder(snd: End, q: seq<Msg>) {
    && Ordered(q)
    && (Eof in q ==> snd.src.sentEof)
    && (Reset in q ==> snd.finished)
  }

  /** No byte is lost, repeated or reordered on the way, and an EOF comes behind them all. */
  ghost predicate Lossless(snd: End, rcv: End, q: seq<Msg>) {
    && Arrived(rcv) <= snd.src.read
    && (SawEof(rcv) ==> snd.src.sentEof && Arrived(rcv) == snd.src.read && NoMore(q))
    && (!rcv.finished ==> snd.src.read == Arrived(rcv) + DataOf(q))
    && (!rcv.finished && snd.src.sentEof ==> Eof in q || SawEof(rcv))
  }

  /** The window is conserved; once the sender is gone, returning credit is dropped. */
  predicate Conserved(window: int, snd: End, rcv: End, q: seq<Msg>, back: seq<Msg>) {
    && (!rcv.finished ==> WindowUse(snd, rcv, q, back) <= window)
    && (!rcv.finished && !snd.finished ==> WindowUse(snd, rcv, q, back) == window)
  }

  /** One direction, from `snd` to `rcv`: `q` is in flight that way, `back` the other way. */
  ghost predicate Dir(window: int, snd: End, rcv: End, q: seq<Msg>, back: seq<Msg>) {
    InOrder(snd, q) && Lossless(snd, rcv, q) && Conserved(window, snd, rcv, q, back)
  }

  ghost predicate Inv(x: Chan) {
    && Local(x.s) && !x.s.role.agent
    && Local(x.c) && x.c.role.agent
    && Dir(x.window, x.s, x.c, x.down, x.up)
    && Dir(x.window, x.c, x.s, x.up, x.down)
    && Open !in x.up
    && (x.known ==> Open !in x.down)
    && (!x.known ==> x.down != [] && x.down[0].Open? && x.c == NewEnd(x.c.role, x.window) && x.up == [])
  }

  // ---- one direction at a time -------------------------------------------------------

  lemma SentSums(e: End, f: End, sent: seq<Msg>)
    requires GoodSend(e, f, sent)
    ensures DataOf(sent) != [] || Eof in sent ==> |sent| == 1 && !e.src.sentEof && !e.finished
    ensures Reset in sent ==> sent == [Reset] && f.finished
    ensures Open !in sent
    ensures forall i :: 0 <= i < |sent| ==> GoodMsg(sent[i])
    ensures forall i :: 0 <= i < |sent| && (sent[i].Data? || sent[i].Eof?) ==> !e.src.sentEof && |sent| == 1
    ensures forall i :: 0 <= i < |sent| && !sent[i].Reset? ==> !e.finished
  {
    if AcksOnly(sent) {
      AcksSums(sent);
    } else {
      assert sent == [sent[0]];
      SumsOne(sent[0]);
    }
  }

  lemma OrderSend(e: End, inp: seq<Msg>, o: Out, q: seq<Msg>)
    requires InOrder(e, q) && Effect(e, inp, o)
    ensures InOrder(o.e, q + o.sent)
  {
    var sent := o.sent;
    SentSums(e, o.e, sent);
    var r := q + sent;
    forall i | 0 <= i < |r| ensures GoodMsg(r[i]) && (i > 0 ==> !r[i].Open?) {
      assert r[i] == if i < |q| then q[i] else sent[i - |q|];
    }
    forall i, j | 0 <= i < j < |r|
      ensures r[i].Eof? ==> !r[j].Data? && !r[j].Eof?
      ensures r[i].Reset? ==> r[j].Reset?
    {
      if j >= |q| && i < |q| {
        assert r[i] == q[i] && r[j] == sent[j - |q|];
        assert q[i] in q;
      }
    }
  }

  lemma LosslessSend(snd: End, rcv: End, q: seq<Msg>, inp: seq<Msg>, o: Out)
    requires Lossless(snd, rcv, q) && Effect(snd, inp, o)
    ensures Lossless(o.e, rcv, q + o.sent)
  {
    hide Arrived, SawEof, Effect, NoMore, DataOf;
    var a, d := Arrived(rcv), DataOf(o.sent);
    SentOnSource(snd, inp, o, q);
    DataOfAppend(q, o.sent);
    if snd.src.sentEof {
      assert DataOf(q) + d == DataOf(q);
    } else {
      assert a + (DataOf(q) + d) == a + DataOf(q) + d;
    }
  }

  /** What a step sends, as its own half of the direction sees it. */
  lemma SentOnSource(e: End, inp: seq<Msg>, o: Out, q: seq<Msg>)
    requires Effect(e, inp, o)
    ensures o.e.src.read == e.src.read + DataOf(o.sent)
    ensures e.src.read <= o.e.src.read
    ensures o.e.src.sentEof == (e.src.sentEof || Eof in o.sent)
    ensures e.src.sentEof ==> DataOf(o.sent) == [] && o.e.src.read == e.src.read && (NoMore(q) ==> NoMore(q + o.sent))
  {
    SentSums(e, o.e, o.sent);
    if DataOf(o.sent) == [] { assert e.src.read + [] == e.src.read; }
  }

  lemma ConservedSend(window: int, snd: End, rcv: End, q: seq<Msg>, back: seq<Msg>, inp: seq<Msg>, o: Out)
    requires Conserved(window, snd, rcv, q, inp + back) && Effect(snd, inp, o)
    ensures Conserved(window, o.e, rcv, q + o.sent, back)
  {
    SentSums(snd, o.e, o.sent);
    DataOfAppend(q, o.sent);
    AckSumAppend(inp, back);
  }

  /** A step of the sending end keeps its direction. */
  lemma DirSend(window: int, snd: End, rcv: End, q: seq<Msg>, back: seq<Msg>, inp: seq<Msg>, o: Out)
    requires Dir(window, snd, rcv, q, inp + back) && Effect(snd, inp, o)
    ensures Dir(window, o.e, rcv, q + o.sent, back)
  {
    OrderSend(snd, inp, o, q);
    LosslessSend(snd, rcv, q, inp, o);
    ConservedSend(window, snd, rcv, q, back, inp, o);
  }

  lemma {:induction false} NoMoreData(q: seq<Msg>)
    requires NoMore(q)
    ensures DataOf(q) == [] && Eof !in q
  {
    if q != [] { NoMoreData(q[1..]); }
  }

  lemma OrderReceive(snd: End, inp: seq<Msg>, q: seq<Msg>)
    requires InOrder(snd, inp + q)
    ensures InOrder(snd, q)
    ensures inp == [Eof] ==> NoMore(q)
  {
    var all := inp + q;
    assert forall i :: 0 <= i < |q| ==> q[i] == all[i + |inp|];
    if inp == [Eof] { assert all[0] == Eof; }
  }

  lemma LosslessReceive(snd: End, rcv: End, inp: seq<Msg>, q: seq<Msg>, o: Out)
    requires InOrder(snd, inp + q) && Lossless(snd, rcv, inp + q) && Effect(rcv, inp, o) && |inp| <= 1
    ensures Lossless(snd, o.e, q)
  {
    var all := inp + q;
    assert forall i :: 0 <= i < |q| ==> q[i] == all[i + |inp|];
    DataOfAppend(inp, q);
    OrderReceive(snd, inp, q);
    if !rcv.finished {
      assert Arrived(o.e) + DataOf(q) == Arrived(rcv) + (DataOf(inp) + DataOf(q));
      if NoMore(q) { NoMoreData(q); }
      if SawEof(rcv) { NoMoreData(all); }
      if Eof in inp { assert inp == [Eof]; }
    }
  }

  lemma ConservedReceive(window: int, snd: End, rcv: End, inp: seq<Msg>, q: seq<Msg>, back: seq<Msg>, o: Out)
    requires Conserved(window, snd, rcv, inp + q, back) && Effect(rcv, inp, o)
    ensures Conserved(window, snd, o.e, q, back + o.sent)
  {
    DataOfAppend(inp, q);
    AckSumAppend(back, o.sent);
  }

  /** A step of the receiving end keeps its direction. */
  lemma DirReceive(window: int, snd: End, rcv: End, inp: seq<Msg>, q: seq<Msg>, back: seq<Msg>, o: Out)
    requires Dir(window, snd, rcv, inp + q, back) && Effect(rcv, inp, o) && |inp| <= 1
    ensures Dir(window, snd, o.e, q, back + o.sent)
  {
    OrderReceive(snd, inp, q);
    LosslessReceive(snd, rcv, inp, q, o);
    ConservedReceive(window, snd, rcv, inp, q, back, o);
  }

  // ---- every step keeps the invariant ------------------------------------------------

  lemma ServerStep(x: Chan, ev: Event)
    requires Inv(x) && Enabled(x.s, ev)
    ensures Inv(Next(x, AtServer(ev)))
  {
    var o := Handle(x.s, ev);
    HandleStep(x.s, ev);
    SentSums(x.s, o.e, o.sent);
    assert [] + x.up == x.up;
    DirSend(x.window, x.s, x.c, x.down, x.up, [], o);
    DirReceive(x.window, x.c, x.s, [], x.up, x.down, o);
  }

  lemma AgentStep(x: Chan, ev: Event)
    requires Inv(x) && x.known && Enabled(x.c, ev)
    ensures Inv(Next(x, AtAgent(ev)))
  {
    var o := Handle(x.c, ev);
    HandleStep(x.c, ev);
    SentSums(x.c, o.e, o.sent);
    assert [] + x.down == x.down;
    DirSend(x.window, x.c, x.s, x.up, x.down, [], o);
    DirReceive(x.window, x.s, x.c, [], x.down, x.up, o);
  }

  /** The head of a direction reaches its receiver. */
  lemma Deliver(window: int, snd: End, rcv: End, q: seq<Msg>, back: seq<Msg>, flushed: bool)
    requires Dir(window, snd, rcv, q, back) && Dir(window, rcv, snd, back, q)
    requires Local(rcv) && q != [] && !q[0].Open?
    ensures var o := Receive(rcv, q[0], flushed);
            && Local(o.e) && Effect(rcv, [q[0]], o)
            && Dir(window, snd, o.e, q[1..], back + o.sent)
            && Dir(window, o.e, snd, back + o.sent, q[1..])
            && Load(o.e) + Weigh(o.sent) < Load(rcv) + Weight(q[0])
  {
    var o := Receive(rcv, q[0], flushed);
    assert q == [q[0]] + q[1..];
    ReceiveStep(rcv, q[0], flushed);
    DirSend(window, rcv, snd, back, q[1..], [q[0]], o);
    DirReceive(window, snd, rcv, [q[0]], q[1..], back, o);
  }

  lemma NoOpen(e: End, inp: seq<Msg>, o: Out, q: seq<Msg>)
    requires Effect(e, inp, o)
    ensures Open in q + o.sent ==> Open in q
  {
    SentSums(e, o.e, o.sent);
  }

  lemma TailHasNoOpen(q: seq<Msg>)
    requires Ordered(q) && q != []
    ensures Open !in q[1..]
  {
  }

  lemma ToServerStep(x: Chan, flushed: bool)
    requires Inv(x) && x.up != []
    ensures Inv(Next(x, ToServer(flushed)))
  {
    var m, o := x.up[0], Receive(x.s, x.up[0], flushed);
    assert m in x.up && x.known;
    Deliver(x.window, x.c, x.s, x.up, x.down, flushed);
    NoOpen(x.s, [m], o, x.down);
    TailHasNoOpen(x.up);
    var y := Next(x, ToServer(flushed));
    assert y == Chan(x.window, true, o.e, x.c, x.down + o.sent, x.up[1..]);
  }

  lemma ToAgentStep(x: Chan, flushed: bool, accept: bool, congested: bool)
    requires Inv(x) && x.down != []
    ensures Inv(Next(x, ToAgent(flushed, accept, congested)))
  {
    var m := x.down[0];
    assert m in x.down;
    TailHasNoOpen(x.down);
    if m.Open? {
      OpenStep(x, flushed, accept, congested);
    } else {
      Deliver(x.window, x.s, x.c, x.down, x.up, flushed);
      NoOpen(x.c, [m], Receive(x.c, m, flushed), x.up);
    }
  }

  /** What the agent makes of an OPEN frame, as a step of the end it creates. */
  lemma AcceptedStep(x: Chan, accept: bool, congested: bool)
    requires x.c == NewEnd(x.c.role, x.window) && x.c.role.agent
    ensures var o := Accepted(x, accept, congested);
            Local(o.e) && Effect(x.c, [Open], o) && Load(o.e) + Weigh(o.sent) < Load(x.c) + Weight(Open)
  {
    SumsOne(Open);
    SumsOne(Reset);
    NoInput(x.c);
  }

  lemma InvParts(x: Chan)
    requires Inv(x)
    ensures Ordered(x.down) && Ordered(x.up)
    ensures x.down != [] && x.down[0].Open? ==> !x.known
  {
  }

  lemma OpenStep(x: Chan, flushed: bool, accept: bool, congested: bool)
    requires Inv(x) && x.down != [] && x.down[0].Open?
    ensures Inv(Next(x, ToAgent(flushed, accept, congested)))
  {
    hide Effect, Dir, Local, Accepted, NewEnd, Ordered;
    var o := Accepted(x, accept, congested);
    assert x.down[0] in x.down;
    InvParts(x);
    AcceptedStep(x, accept, congested);
    NoOpen(x.c, [Open], o, x.up);
    TailHasNoOpen(x.down);
    assert x.down == [Open] + x.down[1..];
    DirSend(x.window, x.c, x.s, x.up, x.down[1..], [Open], o);
    DirReceive(x.window, x.s, x.c, [Open], x.down[1..], x.up, o);
  }

  lemma StepKeepsInv(x: Chan, a: Action)
    requires Inv(x) && CanDo(x, a)
    ensures Inv(Next(x, a))
  {
    match a {
      case AtServer(ev) => ServerStep(x, ev);
      case AtAgent(ev) => AgentStep(x, ev);
      case ToAgent(flushed, accept, congested) => ToAgentStep(x, flushed, accept, congested);
      case ToServer(flushed) => ToServerStep(x, flushed);
    }
  }

  lemma FirstFrames(preread: Bytes, sent: seq<Msg>)
    requires sent == if preread == [] then [] else [Data(preread)]
    ensures Ordered([Open] + sent) && Eof !in [Open] + sent && Reset !in [Open] + sent
    ensures DataOf([Open] + sent) == preread && AckSum([Open] + sent) == 0
  {
    SumsOne(Open);
    SumsOne(Data(preread));
    DataOfAppend([Open], sent);
    AckSumAppend([Open], sent);
  }

  lemma StartInv(window: int, role: Role, preread: Bytes, congested: bool, congests: bool)
    requires role.agent
    ensures Inv(Start(window, role, preread, congested, congests))
  {
    OpenServerStep(window, preread, congested, congests);
    var x := Start(window, role, preread, congested, congests);
    FirstFrames(preread, OpenServer(window, preread, congested, congests).sent);
    NoInput(x.c);
    assert Arrived(x.c) == [] && Arrived(x.s) == [];
    assert x.s.snk.unacked == 0 && x.s.snk.queued == [];
  }

  /** Every run of a stream, from its opening on, keeps the invariant. */
  lemma {:induction false} RunKeepsInv(x: Chan, acts: seq<Action>)
    requires Inv(x) && Runs(x, acts)
    ensures Inv(After(x, acts))
    decreases |acts|
  {
    if acts != [] {
      StepKeepsInv(x, acts[0]);
      RunKeepsInv(Next(x, acts[0]), acts[1..]);
    }
  }
}
