/** What holds of every run of a stream: it is a reliable half-closable pipe in both
    directions, its credit is conserved, it always settles, and closing it gracefully
    cannot be mistaken for an abort. */
module ChannelTheorems {
  import opened Frames
  import opened HostHeader
  import opened Endpoint
  import opened EndpointProofs
  import opened Channel

  // ---- the pipe ----------------------------------------------------------------------

  /** `rcv` has got a prefix of what `snd` read, its socket the image of that prefix, and
      it half-closed its socket only after all of it. */
  ghost predicate Pipe(snd: End, rcv: End) {
    && rcv.snk.taken <= snd.src.read
    && rcv.snk.written == Image(rcv.role, rcv.snk)
    && (rcv.snk.halfClosed ==> snd.src.sentEof && rcv.snk.taken == snd.src.read)
  }

  lemma DirPipe(window: int, snd: End, rcv: End, q: seq<Msg>, back: seq<Msg>)
    requires Dir(window, snd, rcv, q, back) && Local(rcv)
    ensures Pipe(snd, rcv)
  {
    if rcv.snk.halfClosed {
      assert Arrived(rcv) == rcv.snk.taken + [];
    }
  }

  /** Every stream refines a pair of byte pipes, whatever the schedule, the sockets'
      answers, aborts and congestion: from the bytes preread on, nothing is lost,
      duplicated or reordered, and a half-close comes exactly behind the last byte. */
  lemma PipeRefinement(window: int, role: Role, preread: Bytes, congested: bool, congests: bool, acts: seq<Action>)
    requires role.agent && Runs(Start(window, role, preread, congested, congests), acts)
    ensures var y := After(Start(window, role, preread, congested, congests), acts);
            && preread <= y.s.src.read
            && Pipe(y.s, y.c) && Pipe(y.c, y.s)
            && y.s.snk.written == y.s.snk.taken
            && (!role.rewrite ==> y.c.snk.written == y.c.snk.taken)
  {
    var x := Start(window, role, preread, congested, congests);
    StartInv(window, role, preread, congested, congests);
    OpenServerStep(window, preread, congested, congests);
    RunKeepsInv(x, acts);
    ReadGrows(x, acts);
    var y := After(x, acts);
    DirPipe(window, y.s, y.c, y.down, y.up);
    DirPipe(window, y.c, y.s, y.up, y.down);
  }

  lemma StepGrows(x: Chan, a: Action)
    requires Inv(x) && CanDo(x, a)
    ensures var y := Next(x, a);
            && y.window == x.window && y.s.role == x.s.role && y.c.role == x.c.role
            && x.s.src.read <= y.s.src.read
            && (x.s.finished ==> y.s.finished) && (x.known && x.c.finished ==> y.c.finished)
            && (x.known ==> y.known)
  {
    StepKeepsInv(x, a);
    match a {
      case AtServer(ev) => HandleStep(x.s, ev);
      case AtAgent(ev) => HandleStep(x.c, ev);
      case ToAgent(flushed, accept, congested) =>
        assert x.down[0] in x.down;
        if !x.down[0].Open? { Deliver(x.window, x.s, x.c, x.down, x.up, flushed); }
      case ToServer(flushed) =>
        assert x.up[0] in x.up;
        Deliver(x.window, x.c, x.s, x.up, x.down, flushed);
    }
  }

  /** What was read stays read, and both ends keep their roles. */
  lemma {:induction false} ReadGrows(x: Chan, acts: seq<Action>)
    requires Inv(x) && Runs(x, acts)
    ensures var y := After(x, acts);
            && y.window == x.window && y.s.role == x.s.role && y.c.role == x.c.role
            && x.s.src.read <= y.s.src.read
            && (x.s.finished ==> y.s.finished) && (x.known && x.c.finished ==> y.c.finished)
            && (x.known ==> y.known)
    decreases |acts|
  {
    if acts != [] {
      StepGrows(x, acts[0]);
      StepKeepsInv(x, acts[0]);
      ReadGrows(Next(x, acts[0]), acts[1..]);
    }
  }

  /** With Host rewriting, and a request whose head is complete within the limit and holds
      the first Host line, the local service gets either nothing yet or exactly the bytes
      taken so far with that one line replaced, however the stream was split. */
  lemma RewrittenPipe(x: Chan, k: nat)
    requires Inv(x) && x.c.role.rewrite
    requires HeadEnd(x.c.snk.taken, k) && k + 4 <= MAX_HEAD_BUFFER
    requires FindHost(Node, x.c.snk.taken, 0) < k || FindHost(Node, x.c.snk.taken, 0) == |x.c.snk.taken|
    ensures x.c.snk.written == RewriteHost(Node, x.c.snk.taken, x.c.role.target)
  {
    var t, cut := x.c.snk.taken, x.c.snk.head.cut;
    IndexOfTerminatorIsFirst(t, 0);
    assert x.c.snk.head.done;
    if cut < k + 4 {
      assert !HoldsBack(t[..cut]);
      IndexOfTerminatorIsFirst(t[..cut], 0);
      TerminatorPrefix(t, cut, IndexOfTerminator(t[..cut], 0));
    } else {
      RewriteOfPrefix(Node, t, k, cut, x.c.role.target);
    }
  }

  /** A request that is over before its head is complete, or fills the buffer, is not lost: once
      the agent half-closed its socket behind the former, and as soon as it has the latter, the
      first Host line is replaced in all of it, if that line ends within the limit. */
  lemma UnfinishedHeadIsSent(x: Chan)
    requires Inv(x) && x.c.role.rewrite
    ensures var t := x.c.snk.taken;
            && (HoldsBack(t) && x.c.snk.halfClosed ==> x.c.snk.written == RewriteHost(Node, t, x.c.role.target))
            && (HoldsBack(t) && !x.c.snk.halfClosed ==> x.c.snk.written == [])
            && (LongHead(t) && SplitsAgree(Node, x.c.role.target, t) ==>
                 x.c.snk.written == RewriteHost(Node, t, x.c.role.target))
  {
    var t, k := x.c.snk.taken, x.c.snk.head;
    if k.done { HeldPrefix(t, k.cut); }
    assert t[..|t|] == t && t[|t|..] == [];
    if LongHead(t) && SplitsAgree(Node, x.c.role.target, t) { LongHeadIsSent(x.c.role, x.c.snk); }
  }

  lemma LongHeadIsSent(r: Role, k: Sink)
    requires SinkOk(r, k) && r.rewrite && LongHead(k.taken) && SplitsAgree(Node, r.target, k.taken)
    ensures k.written == RewriteHost(Node, k.taken, r.target)
  {
    var t := k.taken;
    assert t[..|t|] == t;
    LongHeadHolds(t, |t|);
    LongHeadHolds(t, k.head.cut);
    LongHeadIndependentIff(Node, r.target, t);
    WholeLineInPrefix(Node, t, k.head.cut, r.target);
  }

  // ---- credit ------------------------------------------------------------------------

  /** While a stream is live at both ends, every byte of the window of each direction is
      accounted for, at every step of every run. */
  lemma CreditConserved(window: int, role: Role, preread: Bytes, congested: bool, congests: bool, acts: seq<Action>)
    requires role.agent && Runs(Start(window, role, preread, congested, congests), acts)
    ensures var y := After(Start(window, role, preread, congested, congests), acts);
            !y.s.finished && !y.c.finished ==>
              && y.s.src.credit + |DataOf(y.down)| + |Flat(y.c.snk.queued)| + y.c.snk.unacked + AckSum(y.up) == window
              && y.c.src.credit + |DataOf(y.up)| + |Flat(y.s.snk.queued)| + y.s.snk.unacked + AckSum(y.down) == window
  {
    StartWindow(window, role, preread, congested, congests);
    hide Start, Local, InOrder, Lossless, CanDo, Next;
    var x := Start(window, role, preread, congested, congests);
    StartInv(window, role, preread, congested, congests);
    RunKeepsInv(x, acts);
    ReadGrows(x, acts);
  }

  lemma StartWindow(window: int, role: Role, preread: Bytes, congested: bool, congests: bool)
    ensures Start(window, role, preread, congested, congests).window == window
  {
  }

  // ---- closing gracefully ------------------------------------------------------------

  /** An end that has both EOFs behind it has got all its peer ever reads, half-closed behind
      it, and a RESET it sends finds its peer finished. */
  ghost predicate ClosedForBoth(snd: End, rcv: End, q: seq<Msg>) {
    snd.src.sentEof && snd.snk.receivedEof ==>
      && rcv.src.sentEof && snd.snk.taken == rcv.src.read && snd.snk.halfClosed
      && snd.snk.written == Image(snd.role, snd.snk)
      && (q != [] && q[0].Reset? ==> rcv.finished)
  }

  lemma LateReset(window: int, snd: End, rcv: End, q: seq<Msg>, back: seq<Msg>)
    requires Dir(window, snd, rcv, q, back) && Dir(window, rcv, snd, back, q) && Local(rcv) && Local(snd)
    ensures ClosedForBoth(snd, rcv, q)
  {
    DirPipe(window, rcv, snd, back, q);
    if snd.src.sentEof && snd.snk.receivedEof && q != [] && q[0].Reset? {
      assert q[0] in q;
      assert forall i :: 0 < i < |q| ==> q[i].Reset?;
      assert rcv.src.sentEof;
    }
  }

  /** Over every run, whatever was aborted: an end that finished by exchanging EOFs has got
      and delivered everything, and the RESETs that late frames draw from it abort nobody. */
  lemma LateResetsAreHarmless(
    window: int, role: Role, preread: Bytes, congested: bool, congests: bool, acts: seq<Action>)
    requires role.agent && Runs(Start(window, role, preread, congested, congests), acts)
    ensures var y := After(Start(window, role, preread, congested, congests), acts);
            ClosedForBoth(y.s, y.c, y.down) && ClosedForBoth(y.c, y.s, y.up)
  {
    hide Start, ClosedForBoth;
    var x := Start(window, role, preread, congested, congests);
    StartInv(window, role, preread, congested, congests);
    RunKeepsInv(x, acts);
    var y := After(x, acts);
    LateReset(y.window, y.s, y.c, y.down, y.up);
    LateReset(y.window, y.c, y.s, y.up, y.down);
  }

  /** The action aborts no live end: no socket error, early close, failed dial or refused
      OPEN; an end that is finished may close, or fail, as it likes. */
  predicate Gentle(x: Chan, a: Action) {
    match a
    case AtServer(ev) => x.s.finished || (!ev.Errored? && !ev.Closed?)
    case AtAgent(ev) => x.c.finished || (!ev.Errored? && !ev.Closed? && !ev.DialFailed?)
    case ToAgent(_, accept, _) => x.down != [] && x.down[0].Open? ==> accept
    case ToServer(_) => true
  }

  predicate AllGentle(x: Chan, acts: seq<Action>)
    requires Runs(x, acts)
    decreases |acts|
  {
    acts == [] || (Gentle(x, acts[0]) && AllGentle(Next(x, acts[0]), acts[1..]))
  }

  /** Only the exchange of both EOFs finished the ends that are finished. */
  predicate Polite(x: Chan) {
    PoliteEnd(x.s) && PoliteEnd(x.c)
  }

  predicate PoliteEnd(e: End) {
    e.finished ==> e.src.sentEof && e.snk.receivedEof
  }

  /** A RESET at the front of a direction finds its receiver finished. */
  predicate ResetsFindFinished(x: Chan) {
    && (x.down != [] && x.down[0].Reset? ==> x.c.finished)
    && (x.up != [] && x.up[0].Reset? ==> x.s.finished)
  }

  lemma PoliteResets(x: Chan)
    requires Inv(x) && Polite(x)
    ensures ResetsFindFinished(x)
  {
    LateReset(x.window, x.s, x.c, x.down, x.up);
    LateReset(x.window, x.c, x.s, x.up, x.down);
    assert x.down != [] ==> x.down[0] in x.down;
    assert x.up != [] ==> x.up[0] in x.up;
  }

  lemma PoliteHandle(e: End, ev: Event)
    requires Local(e) && Enabled(e, ev) && PoliteEnd(e)
    requires e.finished || (!ev.Errored? && !ev.Closed? && !ev.DialFailed?)
    ensures PoliteEnd(Handle(e, ev).e)
  {
    if e.finished { HandleStep(e, ev); }
    else if ev.Connected? { AttachStep(e, ev.flushed); }
  }

  lemma PoliteReceive(e: End, m: Msg, flushed: bool)
    requires PoliteEnd(e) && (m.Reset? ==> e.finished)
    ensures PoliteEnd(Receive(e, m, flushed).e)
  {
  }

  lemma PoliteStep(x: Chan, a: Action)
    requires Inv(x) && Polite(x) && CanDo(x, a) && Gentle(x, a)
    ensures Polite(Next(x, a))
  {
    PoliteResets(x);
    hide Dir, PoliteEnd, Handle, Receive;
    match a {
      case AtServer(ev) => PoliteHandle(x.s, ev);
      case AtAgent(ev) => PoliteHandle(x.c, ev);
      case ToAgent(flushed, accept, congested) =>
        if x.down[0].Open? { AcceptedIsPolite(x, congested); } else { PoliteReceive(x.c, x.down[0], flushed); }
      case ToServer(flushed) => PoliteReceive(x.s, x.up[0], flushed);
    }
  }

  lemma AcceptedIsPolite(x: Chan, congested: bool)
    ensures PoliteEnd(Accepted(x, true, congested).e)
  {
  }

  lemma {:induction false} PoliteRun(x: Chan, acts: seq<Action>)
    requires Inv(x) && Polite(x) && Runs(x, acts) && AllGentle(x, acts)
    ensures Polite(After(x, acts)) && ResetsFindFinished(After(x, acts))
    decreases |acts|
  {
    hide Inv, Polite, ResetsFindFinished, CanDo, Next;
    if acts == [] {
      PoliteResets(x);
    } else {
      StepKeepsInv(x, acts[0]);
      PoliteStep(x, acts[0]);
      PoliteRun(Next(x, acts[0]), acts[1..]);
    }
  }

  /** A late frame for a stream that one end has closed gracefully is answered with RESET,
      but in a run that aborts no live end no RESET ever reaches one; and an end that is
      finished has delivered and received everything. */
  lemma GracefulClose(window: int, role: Role, preread: Bytes, congested: bool, congests: bool, acts: seq<Action>)
    requires role.agent && Runs(Start(window, role, preread, congested, congests), acts)
    requires AllGentle(Start(window, role, preread, congested, congests), acts)
    ensures var y := After(Start(window, role, preread, congested, congests), acts);
            && ResetsFindFinished(y)
            && (y.s.finished ==> y.s.snk.taken == y.c.src.read && y.c.src.sentEof)
            && (y.c.finished ==> y.c.snk.taken == y.s.src.read && y.s.src.sentEof)
  {
    var x := Start(window, role, preread, congested, congests);
    StartInv(window, role, preread, congested, congests);
    OpenServerStep(window, preread, congested, congests);
    PoliteRun(x, acts);
    LateResetsAreHarmless(window, role, preread, congested, congests, acts);
  }

  // ---- settling ----------------------------------------------------------------------

  /** Work left in the whole stream. */
  function Work(x: Chan): nat {
    Load(x.s) + Load(x.c) + Weigh(x.down) + Weigh(x.up)
  }

  /** Deliveries, drains and a dial that succeeds: what the network and the sockets owe. */
  predicate Owed(x: Chan, a: Action) {
    match a
    case AtServer(ev) => ev.Drained?
    case AtAgent(ev) => ev.Drained? || (ev.Connected? && !x.c.finished)
    case _ => true
  }

  lemma OwedStepWorks(x: Chan, a: Action)
    requires Inv(x) && CanDo(x, a) && Owed(x, a)
    ensures Work(Next(x, a)) < Work(x)
  {
    hide Effect, InOrder, Lossless, Conserved, Attach, Receive, Load, Weight;
    match a {
      case AtServer(ev) =>
        DrainedStep(x.s);
        WeighAppend(x.down, Handle(x.s, ev).sent);
      case AtAgent(ev) =>
        if ev.Drained? { DrainedStep(x.c); } else { AttachStep(x.c, ev.flushed); }
        WeighAppend(x.up, Handle(x.c, ev).sent);
      case ToAgent(flushed, accept, congested) =>
        assert x.down[0] in x.down;
        if x.down[0].Open? {
          AcceptedStep(x, accept, congested);
          WeighAppend(x.up, Accepted(x, accept, congested).sent);
        } else {
          Deliver(x.window, x.s, x.c, x.down, x.up, flushed);
          WeighAppend(x.up, Receive(x.c, x.down[0], flushed).sent);
        }
      case ToServer(flushed) =>
        assert x.up[0] in x.up;
        Deliver(x.window, x.c, x.s, x.up, x.down, flushed);
        WeighAppend(x.down, Receive(x.s, x.up[0], flushed).sent);
    }
  }

  ghost predicate OwedRun(x: Chan, acts: seq<Action>)
    decreases |acts|
  {
    acts == [] || (CanDo(x, acts[0]) && Owed(x, acts[0]) && OwedRun(Next(x, acts[0]), acts[1..]))
  }

  /** Nothing is owed any more. */
  predicate Settled(x: Chan) {
    && x.known && x.down == [] && x.up == []
    && !x.s.snk.needDrain && !x.c.snk.needDrain
    && (x.c.connected || x.c.finished)
  }

  lemma SettledIff(x: Chan)
    requires Inv(x)
    ensures Settled(x) <==> forall a :: CanDo(x, a) ==> !Owed(x, a)
  {
    if !Settled(x) {
      var yes := seq(|x.c.snk.queued| + 1, _ => true);
      if x.down != [] { assert CanDo(x, ToAgent(true, true, false)) && Owed(x, ToAgent(true, true, false)); }
      else if x.up != [] { assert CanDo(x, ToServer(true)) && Owed(x, ToServer(true)); }
      else if x.s.snk.needDrain { assert CanDo(x, AtServer(Drained)) && Owed(x, AtServer(Drained)); }
      else if x.c.snk.needDrain { assert CanDo(x, AtAgent(Drained)) && Owed(x, AtAgent(Drained)); }
      else { assert CanDo(x, AtAgent(Connected(yes))) && Owed(x, AtAgent(Connected(yes))); }
    }
  }

  /** The whole window is back, no end waits for credit, every byte was handed over. */
  predicate Replenished(x: Chan) {
    && x.s.src.credit == x.window && x.c.src.credit == x.window
    && x.c.snk.taken == x.s.src.read && x.s.snk.written == x.c.src.read
    && (x.window > 0 && !x.s.src.pausedGlobally ==> !x.s.src.pausedForCredit)
    && (x.window > 0 && !x.c.src.pausedGlobally ==> !x.c.src.pausedForCredit)
  }

  /** A settled live stream has its whole window back, holds nothing, waits for no credit,
      and has handed over every byte. */
  lemma SettledStream(x: Chan)
    requires Inv(x) && Settled(x) && !x.s.finished && !x.c.finished
    ensures Replenished(x)
  {
    assert x.c.snk.queued == [] && x.s.snk.queued == [];
    assert x.c.snk.unacked == 0 && x.s.snk.unacked == 0;
    assert x.c.snk.taken + [] + [] == x.c.snk.taken;
    assert x.s.snk.taken + [] + [] == x.s.snk.taken;
  }

  /** Credit never stalls: any run of owed steps is shorter than the work it starts with,
      and when none is left the stream has its whole window back. */
  lemma {:induction false} NoCreditStall(x: Chan, acts: seq<Action>)
    requires Inv(x) && OwedRun(x, acts)
    ensures Runs(x, acts) && |acts| + Work(After(x, acts)) <= Work(x)
    ensures var y := After(x, acts);
            y.window == x.window && (Settled(y) && !y.s.finished && !y.c.finished ==> Replenished(y))
    decreases |acts|
  {
    hide Inv, Settled, Replenished, Work, CanDo, Owed, Next;
    if acts == [] {
      if Settled(x) && !x.s.finished && !x.c.finished { SettledStream(x); }
    } else {
      OwedStepWorks(x, acts[0]);
      StepKeepsInv(x, acts[0]);
      StepGrows(x, acts[0]);
      NoCreditStall(Next(x, acts[0]), acts[1..]);
    }
  }

  /** From every reachable state the owed steps can be taken until the stream settles. */
  lemma {:induction false} CanSettle(x: Chan) returns (acts: seq<Action>)
    requires Inv(x)
    ensures OwedRun(x, acts) && Runs(x, acts) && Settled(After(x, acts))
    decreases Work(x)
  {
    if Settled(x) {
      acts := [];
    } else {
      SettledIff(x);
      var a :| CanDo(x, a) && Owed(x, a);
      OwedStepWorks(x, a);
      StepKeepsInv(x, a);
      var rest := CanSettle(Next(x, a));
      acts := [a] + rest;
      assert acts[1..] == rest;
    }
  }

  // ---- resets ------------------------------------------------------------------------

  /** Once both ends dropped the stream, what is still in flight dies out: every delivery
      uses up work, RESET is never answered, and in the end no frame is left. */
  lemma ResetQuiescence(x: Chan, acts: seq<Action>)
    requires Inv(x) && x.known && x.s.finished && x.c.finished && OwedRun(x, acts)
    ensures Runs(x, acts) && |acts| <= Work(x)
    ensures var y := After(x, acts);
            && y.s.finished && y.c.finished
            && ((forall a :: CanDo(y, a) ==> !Owed(y, a)) ==> y.down == [] && y.up == [])
  {
    NoCreditStall(x, acts);
    RunKeepsInv(x, acts);
    ReadGrows(x, acts);
    SettledIff(After(x, acts));
  }

  lemma ResetNotAnswered(e: End, flushed: bool)
    ensures Receive(e, Reset, flushed).sent == [] && Receive(e, Reset, flushed).e.finished
  {
  }

  // ---- acknowledging a head that is held back ------------------------------------------

  /** Payload bytes granted back to the peer, and those whose image the socket got. */
  function Acked(k: Sink): int {
    |k.taken| - k.unacked
  }

  function HandedOver(k: Sink): int {
    |k.taken| - |Flat(k.head.buf)|
  }

  /** A head held back leaves no drain due: nothing was written yet. */
  predicate NothingWritten(k: Sink) {
    !k.head.done ==> !k.needDrain
  }

  lemma WriteNothing(r: Role, k: Sink, payload: Bytes, flushed: bool)
    requires r.agent && NothingWritten(k)
    ensures NothingWritten(WriteLocal(r, k, payload, flushed).snk)
  {
    hide RewriteHost, HoldsBack, Flat;
  }

  lemma {:induction false} WriteAllNothing(r: Role, k: Sink, frames: seq<Bytes>, flushed: seq<bool>)
    requires r.agent && NothingWritten(k) && |frames| <= |flushed|
    ensures NothingWritten(WriteAll(r, k, frames, flushed).snk)
    decreases |frames|
  {
    hide WriteLocal;
    if frames != [] {
      WriteNothing(r, k, frames[0], flushed[0]);
      WriteAllNothing(r, WriteLocal(r, k, frames[0], flushed[0]).snk, frames[1..], flushed[1..]);
    }
  }

  lemma HandleNothing(e: End, ev: Event)
    requires e.role.agent && Enabled(e, ev) && NothingWritten(e.snk)
    ensures NothingWritten(Handle(e, ev).e.snk) && Handle(e, ev).e.role == e.role
  {
    if ev.Connected? { WriteAllNothing(e.role, e.snk, e.snk.queued, ev.flushed); }
  }

  lemma ReceiveNothing(e: End, m: Msg, flushed: bool)
    requires e.role.agent && NothingWritten(e.snk)
    ensures NothingWritten(Receive(e, m, flushed).e.snk) && Receive(e, m, flushed).e.role == e.role
  {
    hide RewriteHost, HoldsBack, Flat, WriteLocal;
    if m.Data? { WriteNothing(e.role, e.snk, m.payload, flushed); }
  }

  lemma {:induction false} NothingWrittenRun(x: Chan, acts: seq<Action>)
    requires x.c.role.agent && NothingWritten(x.c.snk) && Runs(x, acts)
    ensures NothingWritten(After(x, acts).c.snk)
    decreases |acts|
  {
    hide Handle, Receive;
    if acts != [] {
      match acts[0] {
        case AtAgent(ev) => HandleNothing(x.c, ev);
        case ToAgent(flushed, _, _) => ReceiveNothing(x.c, x.down[0], flushed);
        case _ =>
      }
      NothingWrittenRun(Next(x, acts[0]), acts[1..]);
    }
  }

  /** The agent acknowledges ahead of its socket exactly while it holds a head back, and then
      less than a full head buffer: in every reachable state of a live stream. */
  lemma EarlyAckIff(window: int, role: Role, preread: Bytes, congested: bool, congests: bool, acts: seq<Action>)
    requires role.agent && Runs(Start(window, role, preread, congested, congests), acts)
    ensures var k := After(Start(window, role, preread, congested, congests), acts).c.snk;
            !After(Start(window, role, preread, congested, congests), acts).c.finished ==>
              && (Acked(k) <= HandedOver(k) <==> Flat(k.head.buf) == [])
              && Acked(k) - HandedOver(k) < MAX_HEAD_BUFFER
              && (Flat(k.head.buf) != [] ==> k.written == [] && HandedOver(k) == 0 && Acked(k) == |k.taken|)
  {
    var x := Start(window, role, preread, congested, congests);
    StartInv(window, role, preread, congested, congests);
    RunKeepsInv(x, acts);
    NothingWrittenRun(x, acts);
    HeldIsAcked(After(x, acts).c);
    hide Inv, Start;
    StartRole(window, role, preread, congested, congests);
    ReadGrows(x, acts);
  }

  lemma StartRole(window: int, role: Role, preread: Bytes, congested: bool, congests: bool)
    ensures Start(window, role, preread, congested, congests).c.role == role
  {
  }

  lemma HeldIsAcked(e: End)
    requires Local(e) && NothingWritten(e.snk)
    ensures !e.finished ==>
      var k := e.snk;
      && (Acked(k) <= HandedOver(k) <==> Flat(k.head.buf) == [])
      && Acked(k) - HandedOver(k) < MAX_HEAD_BUFFER
      && (Flat(k.head.buf) != [] ==> k.written == [] && HandedOver(k) == 0 && Acked(k) == |k.taken|)
  {
  }

  /** The first chunk of a request shows it: acknowledged in full, and not a byte written. */
  lemma EarlyAck(role: Role, window: int, payload: Bytes)
    requires role.agent && role.rewrite && payload != [] && HoldsBack(payload)
    ensures var e := Attach(NewEnd(role, window), [true]).e;
            var o := Receive(e, Data(payload), true);
            o.sent == [Ack(|payload|)] && o.e.snk.written == [] && o.e.snk.head.buf == [payload]
  {
    assert [] + [payload] == [payload];
    SumsOne(Data(payload));
  }

  // ---- aborts ------------------------------------------------------------------------

  /** Finished by destroying its socket, or without ever getting one. */
  predicate Aborted(e: End) {
    e.finished && (e.destroyed || !e.connected)
  }

  /** An aborted `snd` has reached `rcv`, or a RESET is on its way. */
  predicate Told(snd: End, rcv: End, q: seq<Msg>) {
    && (Aborted(snd) ==> rcv.finished || Reset in q)
    && (snd.destroyed ==> snd.finished)
  }

  predicate AbortsTold(x: Chan) {
    Told(x.s, x.c, x.down) && Told(x.c, x.s, x.up)
  }

  lemma HandleTells(e: End, ev: Event)
    requires Local(e) && Enabled(e, ev) && (e.destroyed ==> e.finished)
    ensures var o := Handle(e, ev);
            && (Aborted(o.e) ==> Aborted(e) || Reset in o.sent)
            && (o.e.destroyed ==> o.e.finished) && (e.finished ==> o.e.finished)
  {
    if ev.Connected? && !e.finished { AttachStep(e, ev.flushed); }
    hide Local;
  }

  lemma ReceiveTells(e: End, m: Msg, flushed: bool)
    requires Local(e) && (e.destroyed ==> e.finished)
    ensures var o := Receive(e, m, flushed);
            && (Aborted(o.e) ==> Aborted(e) || m.Reset?)
            && (o.e.destroyed ==> o.e.finished) && (e.finished || m.Reset? ==> o.e.finished)
  {
    hide WriteLocal, TakeEof, SinkOk;
  }

  /** `snd` took a step of its own and sent `sent`. */
  lemma ToldAfterSend(snd: End, rcv: End, q: seq<Msg>, f: End, sent: seq<Msg>)
    requires Told(snd, rcv, q) && (Aborted(f) ==> Aborted(snd) || Reset in sent || rcv.finished)
    requires f.destroyed ==> f.finished
    ensures Told(f, rcv, q + sent)
  {
  }

  /** `rcv` took the front message of `q`, or a step of its own. */
  lemma ToldAfterReceive(snd: End, rcv: End, q: seq<Msg>, inp: seq<Msg>, f: End)
    requires Told(snd, rcv, inp + q) && (rcv.finished ==> f.finished) && (Reset in inp ==> f.finished)
    ensures Told(snd, f, q)
  {
  }

  lemma ToldStep(x: Chan, a: Action)
    requires Inv(x) && CanDo(x, a) && AbortsTold(x)
    ensures AbortsTold(Next(x, a))
  {
    hide Local, Dir, Aborted, Told, Handle, Receive, NewEnd;
    match a {
      case AtServer(ev) => ToldAtEnd(x.s, x.c, x.down, x.up, ev);
      case AtAgent(ev) => ToldAtEnd(x.c, x.s, x.up, x.down, ev);
      case ToAgent(flushed, accept, congested) =>
        assert x.down[0] in x.down;
        if x.down[0].Open? {
          ToldOpen(x, accept, congested);
        } else {
          ToldDelivery(x.window, x.s, x.c, x.down, x.up, flushed);
        }
      case ToServer(flushed) =>
        ToldDelivery(x.window, x.c, x.s, x.up, x.down, flushed);
    }
  }

  lemma ToldAtEnd(e: End, peer: End, q: seq<Msg>, back: seq<Msg>, ev: Event)
    requires Local(e) && Enabled(e, ev) && Told(e, peer, q) && Told(peer, e, back)
    ensures var o := Handle(e, ev); Told(o.e, peer, q + o.sent) && Told(peer, o.e, back)
  {
    HandleTells(e, ev);
    hide Local, Handle, Aborted;
    var o := Handle(e, ev);
    ToldAfterSend(e, peer, q, o.e, o.sent);
    assert [] + back == back;
    ToldAfterReceive(peer, e, back, [], o.e);
  }

  lemma ToldDelivery(window: int, snd: End, rcv: End, q: seq<Msg>, back: seq<Msg>, flushed: bool)
    requires Dir(window, snd, rcv, q, back) && Local(rcv) && q != []
    requires Told(snd, rcv, q) && Told(rcv, snd, back)
    ensures var o := Receive(rcv, q[0], flushed);
            Told(snd, o.e, q[1..]) && Told(o.e, snd, back + o.sent)
  {
    ReceiveTells(rcv, q[0], flushed);
    assert q[0] in q && q == [q[0]] + q[1..];
    assert q[0].Reset? ==> snd.finished;
    hide Local, Dir, Receive, Aborted;
    var o := Receive(rcv, q[0], flushed);
    ToldAfterReceive(snd, rcv, q[1..], [q[0]], o.e);
    ToldAfterSend(rcv, snd, back, o.e, o.sent);
  }

  lemma ToldOpen(x: Chan, accept: bool, congested: bool)
    requires Inv(x) && x.down != [] && x.down[0].Open? && AbortsTold(x)
    ensures var o := Accepted(x, accept, congested);
            Told(x.s, o.e, x.down[1..]) && Told(o.e, x.s, x.up + o.sent)
  {
    assert x.down[0] in x.down && x.down == [Open] + x.down[1..];
    hide Local, Dir;
  }

  lemma {:induction false} ToldRun(x: Chan, acts: seq<Action>)
    requires Inv(x) && AbortsTold(x) && Runs(x, acts)
    ensures AbortsTold(After(x, acts))
    decreases |acts|
  {
    hide Inv, AbortsTold, CanDo, Next;
    if acts != [] {
      StepKeepsInv(x, acts[0]);
      ToldStep(x, acts[0]);
      ToldRun(Next(x, acts[0]), acts[1..]);
    }
  }

  /** Every abort reaches the other end: over every run an aborted end's peer is finished, or
      has a RESET coming. */
  lemma AbortsReachThePeer(window: int, role: Role, preread: Bytes, congested: bool, congests: bool, acts: seq<Action>)
    requires role.agent && Runs(Start(window, role, preread, congested, congests), acts)
    ensures AbortsTold(After(Start(window, role, preread, congested, congests), acts))
  {
    var x := Start(window, role, preread, congested, congests);
    StartInv(window, role, preread, congested, congests);
    OpenServerStep(window, preread, congested, congests);
    assert AbortsTold(x);
    ToldRun(x, acts);
  }

  /** Finished without an abort and without both EOFs: its socket closed, and nobody was told. */
  predicate ClosedSilently(e: End) {
    e.finished && !Aborted(e) && !(e.src.sentEof && e.snk.receivedEof)
  }

  /** Once nothing is owed, only a silent close can have left a live end without its peer. */
  lemma OnlySilentCloseIsMissed(x: Chan)
    requires Inv(x) && AbortsTold(x) && Settled(x)
    ensures x.s.finished && !x.c.finished ==> ClosedSilently(x.s)
    ensures x.c.finished && !x.s.finished ==> ClosedSilently(x.c)
  {
    if x.s.finished && !x.c.finished { LateReset(x.window, x.s, x.c, x.down, x.up); }
    if x.c.finished && !x.s.finished { LateReset(x.window, x.c, x.s, x.up, x.down); }
  }
}
