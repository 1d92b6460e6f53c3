/** When a stream's socket reads: the two causes for pausing it, credit and congestion, as
    written and with a repaired guard; and how far a sender can overshoot its window. */
module Pausing {
  import opened Codec
  import opened Frames
  import opened Endpoint
  import opened EndpointProofs
  import opened Channel

  /** The guard on `pausedForCredit` dropped: whatever paused the socket, it resumes. */
  function RepairedResume(e: End): End {
    if e.finished || e.src.pausedGlobally || e.src.credit <= 0 then e
    else e.(src := e.src.(pausedForCredit := false, reading := Flow(e, true)))
  }

  function Do(e: End, st: Step, repaired: bool): End
    requires Possible(e, st)
  {
    if repaired && st == Raises(Congested(false)) && e.src.pausedGlobally && !e.finished
    then RepairedResume(e.(src := e.src.(pausedGlobally := false)))
    else if repaired && st.Arrives? && st.m.Ack? && !e.finished
    then RepairedResume(e.(src := e.src.(credit := e.src.credit + st.m.bytes)))
    else Respond(e, st).e
  }

  predicate CanRun(e: End, steps: seq<Step>, repaired: bool)
    decreases |steps|
  {
    steps == [] || (Possible(e, steps[0]) && CanRun(Do(e, steps[0], repaired), steps[1..], repaired))
  }

  function EndAfter(e: End, steps: seq<Step>, repaired: bool): End
    requires CanRun(e, steps, repaired)
    decreases |steps|
  {
    if steps == [] then e else EndAfter(Do(e, steps[0], repaired), steps[1..], repaired)
  }

  /** The intended meaning of the two flags. */
  predicate ReadsExactlyWhenAllowed(e: End) {
    e.connected && !e.finished ==> (e.src.reading <==> e.src.credit > 0 && !e.src.pausedGlobally)
  }

  /** The invariant behind "reads only when allowed". */
  predicate OnlyWhen(e: End) {
    && (!e.connected ==> !e.src.reading && e.src.credit > 0 && !e.src.pausedForCredit)
    && (!e.finished ==>
         && (e.src.reading ==> e.src.credit > 0 && !e.src.pausedGlobally && !e.src.pausedForCredit)
         && (e.src.credit <= 0 ==> e.src.pausedForCredit)
         && (e.src.pausedForCredit && !e.src.pausedGlobally ==> e.src.credit <= 0))
  }

  /** How the two kinds of ends begin. */
  ghost predicate Begins(e: End, window: int) {
    || (exists preread :: e == OpenServer(window, preread, false, false).e && |preread| < window)
    || (window > 0 && exists role: Role, congested: bool ::
          role.agent && e == SetGlobalPause(NewEnd(role, window), congested))
  }

  lemma BeginsOnlyWhen(e: End, window: int)
    requires Begins(e, window)
    ensures OnlyWhen(e) && ReadsExactlyWhenAllowed(e) && (!e.connected || e.src.reading)
  {
  }

  lemma SinkKeepsSource(e: End, m: Msg, flushed: bool)
    requires !e.finished && (m.Data? || m.Eof?)
    ensures Receive(e, m, flushed).e.src == e.src && Receive(e, m, flushed).e.connected == e.connected
  {
  }

  lemma OnlyWhenStep(e: End, st: Step, repaired: bool)
    requires OnlyWhen(e) && Possible(e, st)
    ensures OnlyWhen(Do(e, st, repaired))
  {
    hide DrainQueue, WriteLocal, Endpoint.TakeEof, FlushAck;
    if st.Arrives? && !e.finished && (st.m.Data? || st.m.Eof?) {
      SinkKeepsSource(e, st.m, st.flushed);
    }
  }

  /** As written, a live socket reads only while it has credit and is not congested. */
  lemma {:induction false} ReadsOnlyWhenAllowed(e: End, steps: seq<Step>, repaired: bool)
    requires OnlyWhen(e) && CanRun(e, steps, repaired)
    ensures var f := EndAfter(e, steps, repaired);
            OnlyWhen(f) && (!f.finished && f.src.reading ==> f.src.credit > 0 && !f.src.pausedGlobally)
    decreases |steps|
  {
    if steps != [] {
      OnlyWhenStep(e, steps[0], repaired);
      ReadsOnlyWhenAllowed(Do(e, steps[0], repaired), steps[1..], repaired);
    }
  }

  /** So it is from either kind of opening on: an uncongested one at the server with a preread
      below the window, and any one at the agent. */
  lemma FromTheOpening(e: End, window: int, steps: seq<Step>)
    requires Begins(e, window)
    ensures CanRun(e, steps, false) ==>
      var f := EndAfter(e, steps, false);
      !f.finished && f.src.reading ==> f.src.credit > 0 && !f.src.pausedGlobally
    ensures CanRun(e, steps, false) && NoCongestion(steps) && !e.src.pausedGlobally ==>
      ReadsExactlyWhenAllowed(EndAfter(e, steps, false))
    ensures CanRun(e, steps, false) ==> (AlwaysExact(e, steps) <==> EveryReleaseIsDue(e, steps))
    ensures CanRun(e, steps, true) ==> ReadsExactlyWhenAllowed(EndAfter(e, steps, true))
  {
    hide Begins, OnlyWhen, ReadsExactlyWhenAllowed;
    BeginsOnlyWhen(e, window);
    if CanRun(e, steps, false) {
      ReadsOnlyWhenAllowed(e, steps, false);
      AlwaysExactIff(e, steps);
      if NoCongestion(steps) && !e.src.pausedGlobally { TwoCausePausing(e, steps, false); }
    }
    if CanRun(e, steps, true) { TwoCausePausing(e, steps, true); }
  }

  /** An end finishes once: from then on it accepts nothing from its socket and hands it
      nothing, whatever still happens. */
  lemma {:induction false} FinishedForGood(e: End, steps: seq<Step>)
    requires e.finished && CanRun(e, steps, false)
    ensures var f := EndAfter(e, steps, false);
            && f.finished && f.src.read == e.src.read && f.snk.written == e.snk.written
            && f.snk.halfClosed == e.snk.halfClosed
    decreases |steps|
  {
    if steps != [] { FinishedForGood(Do(e, steps[0], false), steps[1..]); }
  }

  /** What has become of the local socket of a finished end: it was destroyed, it was half-
      closed in both directions, it closed of itself, or it is not there yet. */
  predicate LetGo(e: End, closed: bool) {
    e.finished ==> e.destroyed || (e.src.sentEof && e.snk.halfClosed) || closed || !e.connected
  }

  predicate ClosesItself(st: Step) {
    st.Raises? && st.ev.Closed?
  }

  lemma LetGoStep(e: End, st: Step, closed: bool)
    requires Local(e) && Possible(e, st) && LetGo(e, closed)
    requires Lawful(e, st)
    ensures LetGo(Do(e, st, false), closed || ClosesItself(st))
    ensures e.finished && st.Raises? && st.ev.Connected? ==> Do(e, st, false).destroyed
    ensures Local(Do(e, st, false))
  {
    hide Effect, Untouched, Load, Weigh, Weight, HeadOk, Image;
    match st {
      case Raises(ev) => HandleStep(e, ev);
      case Arrives(m, flushed) => if !m.Open? { ReceiveStep(e, m, flushed); }
    }
  }

  /** The frames of `steps` are such as a peer that keeps the protocol sends. */
  ghost predicate Proper(e: End, steps: seq<Step>)
    requires CanRun(e, steps, false)
    decreases |steps|
  {
    steps == [] || (Lawful(e, steps[0]) && Proper(Do(e, steps[0], false), steps[1..]))
  }

  /** No socket is forgotten: whenever an end is finished, its socket has been let go, and
      one that a late dial brings is destroyed at once. */
  lemma {:induction false} NoSocketIsForgotten(e: End, steps: seq<Step>, closed: bool)
    requires Local(e) && LetGo(e, closed) && CanRun(e, steps, false) && Proper(e, steps)
    ensures LetGo(EndAfter(e, steps, false), closed || exists i :: 0 <= i < |steps| && ClosesItself(steps[i]))
    decreases |steps|
  {
    if steps != [] {
      var rest := steps[1..];
      LetGoStep(e, steps[0], closed);
      NoSocketIsForgotten(Do(e, steps[0], false), rest, closed || ClosesItself(steps[0]));
      if exists i :: 0 <= i < |rest| && ClosesItself(rest[i]) {
        var i :| 0 <= i < |rest| && ClosesItself(rest[i]);
        assert ClosesItself(steps[i + 1]);
      }
    }
  }

  predicate NoCongestion(steps: seq<Step>) {
    forall i :: 0 <= i < |steps| ==> steps[i] != Raises(Congested(true))
  }

  lemma ExactStep(e: End, st: Step, repaired: bool)
    requires OnlyWhen(e) && ReadsExactlyWhenAllowed(e) && Possible(e, st)
    requires repaired || (st != Raises(Congested(true)) && !e.src.pausedGlobally)
    ensures ReadsExactlyWhenAllowed(Do(e, st, repaired))
    ensures !repaired ==> !Do(e, st, repaired).src.pausedGlobally
  {
    hide DrainQueue, WriteLocal, Endpoint.TakeEof, FlushAck;
    if st.Arrives? && !e.finished && (st.m.Data? || st.m.Eof?) {
      SinkKeepsSource(e, st.m, st.flushed);
    }
  }

  /** With the repaired guard the socket reads exactly when it may, over every order of
      credit exhaustion, acknowledgements, congestion on and congestion off. As written
      the same holds of the runs without congestion. */
  lemma {:induction false} TwoCausePausing(e: End, steps: seq<Step>, repaired: bool)
    requires OnlyWhen(e) && ReadsExactlyWhenAllowed(e) && CanRun(e, steps, repaired)
    requires repaired || (NoCongestion(steps) && !e.src.pausedGlobally)
    ensures ReadsExactlyWhenAllowed(EndAfter(e, steps, repaired))
    decreases |steps|
  {
    if steps != [] {
      OnlyWhenStep(e, steps[0], repaired);
      ExactStep(e, steps[0], repaired);
      TwoCausePausing(Do(e, steps[0], repaired), steps[1..], repaired);
    }
  }

  /** The end of congestion finds the socket as the guard needs it. */
  predicate ReleaseIsDue(e: End, st: Step) {
    st == Raises(Congested(false)) && e.connected && !e.finished && e.src.pausedGlobally ==>
      e.src.credit <= 0 || e.src.pausedForCredit
  }

  lemma ExactStepIff(e: End, st: Step)
    requires OnlyWhen(e) && ReadsExactlyWhenAllowed(e) && Possible(e, st)
    ensures ReadsExactlyWhenAllowed(Do(e, st, false)) <==> ReleaseIsDue(e, st)
  {
    hide DrainQueue, WriteLocal, Endpoint.TakeEof, FlushAck;
    if st.Arrives? && !e.finished && (st.m.Data? || st.m.Eof?) {
      SinkKeepsSource(e, st.m, st.flushed);
    }
  }

  ghost predicate AlwaysExact(e: End, steps: seq<Step>)
    requires CanRun(e, steps, false)
    decreases |steps|
  {
    ReadsExactlyWhenAllowed(e) && (steps == [] || AlwaysExact(Do(e, steps[0], false), steps[1..]))
  }

  predicate EveryReleaseIsDue(e: End, steps: seq<Step>)
    requires CanRun(e, steps, false)
    decreases |steps|
  {
    steps == [] || (ReleaseIsDue(e, steps[0]) && EveryReleaseIsDue(Do(e, steps[0], false), steps[1..]))
  }

  /** As written, over every order of events: the socket reads exactly when it may in every
      state of a run if and only if each end of congestion finds a socket that has no credit
      or was paused for credit, too. */
  lemma {:induction false} AlwaysExactIff(e: End, steps: seq<Step>)
    requires OnlyWhen(e) && ReadsExactlyWhenAllowed(e) && CanRun(e, steps, false)
    ensures AlwaysExact(e, steps) <==> EveryReleaseIsDue(e, steps)
    decreases |steps|
  {
    hide OnlyWhen, ReadsExactlyWhenAllowed, ReleaseIsDue;
    if steps != [] {
      OnlyWhenStep(e, steps[0], false);
      ExactStepIff(e, steps[0]);
      if ReleaseIsDue(e, steps[0]) { AlwaysExactIff(Do(e, steps[0], false), steps[1..]); }
    }
  }

  /** Where the guard as written fails: when congestion ends, the socket reads as it should
      if and only if it has no credit or was also paused for credit. */
  lemma CongestionOffIff(e: End)
    requires OnlyWhen(e) && e.connected && !e.finished && e.src.pausedGlobally
    ensures var f := Do(e, Raises(Congested(false)), false);
            && !f.src.pausedGlobally && f.src.credit == e.src.credit
            && (ReadsExactlyWhenAllowed(f) <==> e.src.credit <= 0 || e.src.pausedForCredit)
  {
  }

  /** Paused, with nothing left that would ever resume it. */
  predicate Stuck(e: End) {
    && e.connected && !e.src.reading && !e.src.pausedForCredit && !e.src.pausedGlobally
  }

  /** A stream that congestion alone had paused never reads again, whatever happens. */
  lemma {:induction false} StuckForever(e: End, steps: seq<Step>)
    requires e.connected && !e.src.reading && !e.src.pausedForCredit && CanRun(e, steps, false)
    ensures !EndAfter(e, steps, false).src.reading && EndAfter(e, steps, false).src.read == e.src.read
    decreases |steps|
  {
    if steps != [] {
      if steps[0].Arrives? && !e.finished && (steps[0].m.Data? || steps[0].m.Eof?) {
        SinkKeepsSource(e, steps[0].m, steps[0].flushed);
      }
      StuckForever(Do(e, steps[0], false), steps[1..]);
    }
  }

  /** The shortest way there: one congestion episode on a fresh stream. */
  lemma CongestionEpisodeSticks(window: int)
    requires window > 0
    ensures var e := OpenServer(window, [], false, false).e;
            var steps := [Raises(Congested(true)), Raises(Congested(false))];
            && Begins(e, window) && CanRun(e, steps, false)
            && Stuck(EndAfter(e, steps, false)) && !ReadsExactlyWhenAllowed(EndAfter(e, steps, false))
  {
    var e := OpenServer(window, [], false, false).e;
    var steps := [Raises(Congested(true)), Raises(Congested(false))];
    assert steps[1..] == [Raises(Congested(false))] && steps[1..][1..] == [];
    var f := Do(e, steps[0], false);
    assert CanRun(f, steps[1..], false);
    assert EndAfter(e, steps, false) == Do(f, Raises(Congested(false)), false);
  }

  /** The unconditional `resume` at the end of `openStream` is right if and only if the
      session is not congested and the preread leaves credit. */
  lemma OpenResumeIff(window: int, preread: Bytes, congested: bool, congests: bool)
    ensures ReadsExactlyWhenAllowed(OpenServer(window, preread, congested, congests).e)
            <==> |preread| < window && !congested && !(congests && preread != [])
  {
  }

  // ---- congestion raised in the middle of a handler -----------------------------------

  /** A handler that sends may learn of congestion in the middle, from inside `send`. For a
      stream it does not finish, that is the same as learning of it right afterwards, or
      right before. */
  lemma CongestionWhileReading(e: End, data: Bytes)
    requires !e.finished
    ensures SetGlobalPause(OnChunk(e, data).e, true) == OnChunk(SetGlobalPause(e, true), data).e
  {
  }

  lemma CongestionWhileHandling(e: End, ev: Event)
    requires !ev.Chunk? && Enabled(e, ev) && Enabled(SetGlobalPause(e, true), ev)
    requires !Handle(e, ev).e.finished && Handle(e, ev).sent != []
    ensures SetGlobalPause(Handle(e, ev).e, true) == Handle(SetGlobalPause(e, true), ev).e
  {
  }

  lemma CongestionWhileReceiving(e: End, m: Msg, flushed: bool)
    requires Receive(e, m, flushed).sent != [] && !Receive(e, m, flushed).e.finished && !e.finished
    ensures SetGlobalPause(Receive(e, m, flushed).e, true) == Receive(SetGlobalPause(e, true), m, flushed).e
  {
  }

  // ---- overshoot ----------------------------------------------------------------------

  /** Credit stays above `-most`, and a socket without credit does not read. */
  predicate Bounded(e: End, most: nat) {
    && (!e.connected ==> e.src.credit > 0 && !e.src.pausedForCredit)
    && e.src.credit + most > 0
    && (!e.finished && e.src.reading ==> e.src.credit > 0 && !e.src.pausedForCredit)
  }

  predicate SmallChunk(a: Action, most: nat) {
    match a
    case AtServer(ev) => ev.Chunk? ==> |ev.data| <= most
    case AtAgent(ev) => ev.Chunk? ==> |ev.data| <= most
    case _ => true
  }

  /** Every grant in flight can be written as a number up to `limit`. */
  predicate AcksFit(q: seq<Msg>, limit: int) {
    forall i :: 0 <= i < |q| && q[i].Ack? ==> q[i].bytes <= limit
  }

  lemma BoundedHandle(e: End, ev: Event, most: nat)
    requires Bounded(e, most) && Enabled(e, ev) && most > 0 && (ev.Chunk? ==> |ev.data| <= most)
    ensures Bounded(Handle(e, ev).e, most)
  {
  }

  lemma BoundedReceive(e: End, m: Msg, flushed: bool, most: nat)
    requires Bounded(e, most)
    ensures Bounded(Receive(e, m, flushed).e, most)
  {
    if !e.finished && (m.Data? || m.Eof?) { SinkKeepsSource(e, m, flushed); }
  }

  predicate Tame(x: Chan, most: nat) {
    && Bounded(x.s, most) && Bounded(x.c, most)
    && AcksFit(x.down, x.window + most - 1) && AcksFit(x.up, x.window + most - 1)
  }

  lemma {:induction false} SumHolds(q: seq<Msg>, i: nat)
    requires i < |q| && q[i].Ack?
    ensures q[i].bytes <= AckSum(q)
  {
    if i > 0 { SumHolds(q[1..], i - 1); }
  }

  /** Bytes owed and not yet acknowledged stay within the window and one chunk. */
  lemma OwedBytes(window: int, snd: End, rcv: End, q: seq<Msg>, back: seq<Msg>, most: nat)
    requires Dir(window, snd, rcv, q, back) && !rcv.finished && Bounded(snd, most)
    ensures |DataOf(q)| + |Flat(rcv.snk.queued)| + rcv.snk.unacked + AckSum(back) <= window + most - 1
  {
  }

  /** The grants a step of the receiving end sends fit, too. */
  lemma SentAcksFit(window: int, snd: End, rcv: End, inp: seq<Msg>, q: seq<Msg>, back: seq<Msg>, o: Out, most: nat)
    requires Dir(window, snd, rcv, inp + q, back) && Bounded(snd, most) && Effect(rcv, inp, o)
    requires AcksFit(back, window + most - 1)
    ensures AcksFit(back + o.sent, window + most - 1)
  {
    DataOfAppend(inp, q);
    forall i | 0 <= i < |o.sent| && o.sent[i].Ack? ensures o.sent[i].bytes <= window + most - 1 {
      assert !rcv.finished;
      SumHolds(o.sent, i);
    }
  }

  lemma TameServer(x: Chan, ev: Event, most: nat)
    requires Inv(x) && Tame(x, most) && Enabled(x.s, ev) && (ev.Chunk? ==> |ev.data| <= most) && most > 0
    ensures Tame(Next(x, AtServer(ev)), most)
  {
    HandleStep(x.s, ev);
    BoundedHandle(x.s, ev, most);
    assert [] + x.up == x.up;
    SentAcksFit(x.window, x.c, x.s, [], x.up, x.down, Handle(x.s, ev), most);
  }

  lemma TameAgent(x: Chan, ev: Event, most: nat)
    requires Inv(x) && Tame(x, most) && Enabled(x.c, ev) && (ev.Chunk? ==> |ev.data| <= most) && most > 0
    requires x.known
    ensures Tame(Next(x, AtAgent(ev)), most)
  {
    HandleStep(x.c, ev);
    BoundedHandle(x.c, ev, most);
    assert [] + x.down == x.down;
    SentAcksFit(x.window, x.s, x.c, [], x.down, x.up, Handle(x.c, ev), most);
  }

  lemma TameToServer(x: Chan, flushed: bool, most: nat)
    requires Inv(x) && Tame(x, most) && x.up != [] && most > 0
    ensures Tame(Next(x, ToServer(flushed)), most)
  {
    hide Local, Dir, Effect, Bounded, Receive, Load, Weigh, Weight;
    assert x.up[0] in x.up;
    Deliver(x.window, x.c, x.s, x.up, x.down, flushed);
    BoundedReceive(x.s, x.up[0], flushed, most);
    assert x.up == [x.up[0]] + x.up[1..];
    SentAcksFit(x.window, x.c, x.s, [x.up[0]], x.up[1..], x.down, Receive(x.s, x.up[0], flushed), most);
  }

  lemma TameStep(x: Chan, a: Action, most: nat)
    requires Inv(x) && Tame(x, most) && CanDo(x, a) && SmallChunk(a, most) && most > 0 && x.window > 0
    ensures Tame(Next(x, a), most)
  {
    match a {
      case AtServer(ev) => TameServer(x, ev, most);
      case AtAgent(ev) => TameAgent(x, ev, most);
      case ToAgent(flushed, accept, congested) => TameToAgent(x, flushed, accept, congested, most);
      case ToServer(flushed) => TameToServer(x, flushed, most);
    }
  }

  lemma TameToAgent(x: Chan, flushed: bool, accept: bool, congested: bool, most: nat)
    requires Inv(x) && Tame(x, most) && x.down != [] && most > 0 && x.window > 0
    ensures Tame(Next(x, ToAgent(flushed, accept, congested)), most)
  {
    assert x.down == [x.down[0]] + x.down[1..];
    assert x.down[0] in x.down;
    hide Local, Dir, Effect, Receive, Load, Weigh, Weight;
    if !x.down[0].Open? {
      Deliver(x.window, x.s, x.c, x.down, x.up, flushed);
      BoundedReceive(x.c, x.down[0], flushed, most);
      SentAcksFit(x.window, x.s, x.c, [x.down[0]], x.down[1..], x.up, Receive(x.c, x.down[0], flushed), most);
    }
  }

  lemma {:induction false} TameRun(x: Chan, acts: seq<Action>, most: nat)
    requires Inv(x) && Tame(x, most) && Runs(x, acts) && most > 0 && x.window > 0
    requires forall i :: 0 <= i < |acts| ==> SmallChunk(acts[i], most)
    ensures Tame(After(x, acts), most) && After(x, acts).window == x.window
    decreases |acts|
  {
    if acts != [] {
      TameStep(x, acts[0], most);
      StepKeepsInv(x, acts[0]);
      TameRun(Next(x, acts[0]), acts[1..], most);
    }
  }

  lemma StartTame(window: int, role: Role, preread: Bytes, congested: bool, congests: bool, most: nat)
    requires role.agent && most > 0 && |preread| < window
    ensures var x := Start(window, role, preread, congested, congests);
            Tame(x, most) && x.window == window
  {
  }

  /** With socket chunks of at most `most` bytes and a preread below the window, a sender
      overshoots by less than one chunk, what is unacknowledged in a direction stays below
      the window and one chunk, and so does every single grant: all of them fit the u32
      field of an ACK frame when that bound does. */
  lemma OvershootBound(window: int, role: Role, preread: Bytes, congested: bool, congests: bool,
                       acts: seq<Action>, most: nat)
    requires role.agent && most > 0 && |preread| < window
    requires Runs(Start(window, role, preread, congested, congests), acts)
    requires forall i :: 0 <= i < |acts| ==> SmallChunk(acts[i], most)
    ensures var y := After(Start(window, role, preread, congested, congests), acts);
            && y.s.src.credit + most > 0 && y.c.src.credit + most > 0
            && (!y.c.finished ==>
                 |DataOf(y.down)| + |Flat(y.c.snk.queued)| + y.c.snk.unacked + AckSum(y.up) <= window + most - 1)
            && (!y.s.finished ==>
                 |DataOf(y.up)| + |Flat(y.s.snk.queued)| + y.s.snk.unacked + AckSum(y.down) <= window + most - 1)
            && AcksFit(y.down, window + most - 1) && AcksFit(y.up, window + most - 1)
  {
    var x := Start(window, role, preread, congested, congests);
    StartInv(window, role, preread, congested, congests);
    StartTame(window, role, preread, congested, congests, most);
    hide Start, Local, InOrder, Lossless, Conserved, SmallChunk, Next, CanDo;
    RunKeepsInv(x, acts);
    TameRun(x, acts, most);
    var y := After(x, acts);
    if !y.c.finished { OwedBytes(window, y.s, y.c, y.down, y.up, most); }
    if !y.s.finished { OwedBytes(window, y.c, y.s, y.up, y.down, most); }
  }

  /** So every coalesced grant can be written into its field of an ACK frame. */
  lemma GrantsFitTheField(window: int, role: Role, preread: Bytes, congested: bool, congests: bool,
                          acts: seq<Action>, most: nat, id: nat)
    requires role.agent && most > 0 && |preread| < window && window + most - 1 < TWO_32 && IsU32(id)
    requires Runs(Start(window, role, preread, congested, congests), acts)
    requires forall i :: 0 <= i < |acts| ==> SmallChunk(acts[i], most)
    ensures var y := After(Start(window, role, preread, congested, congests), acts);
            forall f :: f in Tag(id, y.down) || f in Tag(id, y.up) ==> Encodable(f)
  {
    OvershootBound(window, role, preread, congested, congests, acts, most);
    var y := After(Start(window, role, preread, congested, congests), acts);
    AcksEncodable(y.down, id, window + most - 1);
    AcksEncodable(y.up, id, window + most - 1);
  }

  lemma AcksEncodable(q: seq<Msg>, id: nat, limit: int)
    requires AcksFit(q, limit) && limit < TWO_32 && IsU32(id)
    ensures forall f :: f in Tag(id, q) ==> Encodable(f)
  {
  }

  function Chunks(data: seq<Bytes>): seq<Step> {
    seq(|data|, i requires 0 <= i < |data| => Raises(Chunk(data[i])))
  }

  /** A preread that uses up the window defeats the bound altogether: the final `resume`
      leaves the socket reading, and the flag that says so is already set, so it goes on
      reading without any grant. */
  lemma {:induction false} FullPrereadRunsAway(e: End, data: seq<Bytes>)
    requires e.connected && !e.finished && !e.src.sentEof && e.src.reading && e.src.pausedForCredit
    requires forall i :: 0 <= i < |data| ==> data[i] != []
    ensures CanRun(e, Chunks(data), false)
    ensures var f := EndAfter(e, Chunks(data), false);
            f.src.credit == e.src.credit - |Flat(data)| && f.src.reading
    decreases |data|
  {
    if data != [] {
      assert Chunks(data)[1..] == Chunks(data[1..]);
      FullPrereadRunsAway(Do(e, Chunks(data)[0], false), data[1..]);
    }
  }

  /** So a fresh stream is safe from running away if and only if its preread is shorter
      than the window. */
  lemma PrereadSafeIff(window: int, preread: Bytes, congested: bool, congests: bool)
    requires window > 0
    ensures var e := OpenServer(window, preread, congested, congests).e;
            && (|preread| < window ==> Bounded(e, 1))
            && (|preread| >= window ==>
                 forall data: seq<Bytes> :: (forall i :: 0 <= i < |data| ==> data[i] != []) ==>
                   && CanRun(e, Chunks(data), false)
                   && EndAfter(e, Chunks(data), false).src.credit == window - |preread| - |Flat(data)|)
  {
    var e := OpenServer(window, preread, congested, congests).e;
    if |preread| >= window {
      forall data: seq<Bytes> | forall i :: 0 <= i < |data| ==> data[i] != []
        ensures CanRun(e, Chunks(data), false)
             && EndAfter(e, Chunks(data), false).src.credit == window - |preread| - |Flat(data)|
      {
        FullPrereadRunsAway(e, data);
      }
    }
  }
}
