/** Whole runs of a stream told by what happened to it: what its sockets were read, what they
    were seen to accept, and why each RESET was sent. */
module ChannelHistories {
  import opened Frames
  import opened Endpoint
  import opened EndpointProofs
  import opened EndpointLaws
  import opened Backpressure
  import opened Channel

  // ---- an action, end by end ---------------------------------------------------------

  datatype Side = Server | Agent

  function EndOf(x: Chan, side: Side): End {
    if side.Server? then x.s else x.c
  }

  /** The frames of an end that are on their way. */
  function Flight(x: Chan, side: Side): seq<Msg> {
    if side.Server? then x.down else x.up
  }

  /** What an action is for one of the ends, if anything. OPEN creates the agent's. */
  function StepAt(x: Chan, a: Action, side: Side): (st: seq<Step>)
    requires CanDo(x, a)
    ensures |st| <= 1 && (st != [] ==> Possible(EndOf(x, side), st[0]))
  {
    match a
    case AtServer(ev) => if side.Server? then [Raises(ev)] else []
    case AtAgent(ev) => if side.Agent? then [Raises(ev)] else []
    case ToServer(flushed) => if side.Server? then [Arrives(x.up[0], flushed)] else []
    case ToAgent(flushed, _, _) =>
      if side.Agent? && !x.down[0].Open? then [Arrives(x.down[0], flushed)] else []
  }

  /** The action takes the front frame that `side` has sent. */
  predicate Delivers(a: Action, side: Side) {
    if side.Server? then a.ToAgent? else a.ToServer?
  }

  /** The agent takes, or refuses, an OPEN frame. */
  predicate Opens(x: Chan, a: Action) {
    a.ToAgent? && x.down != [] && x.down[0].Open?
  }

  function SentBy(x: Chan, a: Action, side: Side): seq<Msg>
    requires CanDo(x, a)
  {
    var st := StepAt(x, a, side);
    if st != [] then Respond(EndOf(x, side), st[0]).sent
    else if side.Agent? && Opens(x, a) && !a.accept then [Reset]
    else []
  }

  lemma WelcomeFront(window: int, snd: End, rcv: End, q: seq<Msg>, back: seq<Msg>)
    requires Dir(window, snd, rcv, q, back) && q != []
    ensures GoodMsg(q[0]) && (q[0].Open? || rcv.finished || Welcome(rcv, q[0]))
  {
    assert q[0] in q;
  }

  lemma StepIsLawful(x: Chan, a: Action, side: Side)
    requires Inv(x) && CanDo(x, a)
    ensures Local(EndOf(x, side))
    ensures var st := StepAt(x, a, side); st != [] ==> Lawful(EndOf(x, side), st[0])
  {
    if a.ToServer? { WelcomeFront(x.window, x.c, x.s, x.up, x.down); }
    if a.ToAgent? { WelcomeFront(x.window, x.s, x.c, x.down, x.up); }
    hide Local, Dir;
  }

  /** An action is a step of its ends, and what they send comes behind what is on its way. */
  lemma NextIs(x: Chan, a: Action, side: Side)
    requires CanDo(x, a)
    ensures var (y, st) := (Next(x, a), StepAt(x, a, side));
            && (st != [] ==> EndOf(y, side) == Respond(EndOf(x, side), st[0]).e)
            && (st == [] && (side.Server? || !Opens(x, a)) ==> EndOf(y, side) == EndOf(x, side))
            && (side.Agent? && Opens(x, a) ==> EndOf(y, side) == Accepted(x, a.accept, a.congested).e)
    ensures Delivers(a, side) ==> Flight(x, side) != []
    ensures Flight(Next(x, a), side)
            == (if Delivers(a, side) then Flight(x, side)[1..] else Flight(x, side)) + SentBy(x, a, side)
  {
    hide Handle, Receive, NewEnd, SetGlobalPause;
  }

  /** A new end has no history. */
  lemma AcceptedIsNew(x: Chan, accept: bool, congested: bool)
    ensures var (e, f) := (NewEnd(x.c.role, x.window), Accepted(x, accept, congested).e);
            && f.snk == e.snk && f.role == e.role && f.src.read == e.src.read && f.src.sentEof == e.src.sentEof
  {
  }

  // ---- what the sockets were read ------------------------------------------------------

  /** What the socket of `side` was read while the stream took it, over a run. */
  function Offered(x: Chan, acts: seq<Action>, side: Side): Bytes
    requires Runs(x, acts)
    decreases |acts|
  {
    if acts == [] then []
    else
      var st := StepAt(x, acts[0], side);
      (if st != [] && Reads(EndOf(x, side), st[0]) then st[0].ev.data else [])
      + Offered(Next(x, acts[0]), acts[1..], side)
  }

  /** And whether its end was read. */
  predicate OfferedEnd(x: Chan, acts: seq<Action>, side: Side)
    requires Runs(x, acts)
    decreases |acts|
  {
    && acts != []
    && var st := StepAt(x, acts[0], side);
       || (st != [] && ReadsEnd(EndOf(x, side), st[0]))
       || OfferedEnd(Next(x, acts[0]), acts[1..], side)
  }

  lemma OfferedStep(x: Chan, a: Action, side: Side)
    requires Inv(x) && CanDo(x, a)
    ensures var (e, f, st) := (EndOf(x, side), EndOf(Next(x, a), side), StepAt(x, a, side));
            && f.src.read == e.src.read + (if st != [] && Reads(e, st[0]) then st[0].ev.data else [])
            && (f.src.sentEof <==> e.src.sentEof || (st != [] && ReadsEnd(e, st[0])))
  {
    var e, st := EndOf(x, side), StepAt(x, a, side);
    NextIs(x, a, side);
    StepIsLawful(x, a, side);
    if st != [] {
      DataIff(e, st[0], []);
      EofIff(e, st[0]);
    } else if side.Agent? && Opens(x, a) {
      AcceptedIsNew(x, a.accept, a.congested);
      assert x.down[0] in x.down;
    }
    assert e.src.read + [] == e.src.read;
    hide Local, Dir, Respond, Accepted, Next, NewEnd;
  }

  lemma {:induction false} OfferedRun(x: Chan, acts: seq<Action>, side: Side)
    requires Inv(x) && Runs(x, acts)
    ensures var (e, f) := (EndOf(x, side), EndOf(After(x, acts), side));
            && f.src.read == e.src.read + Offered(x, acts, side)
            && (f.src.sentEof <==> e.src.sentEof || OfferedEnd(x, acts, side))
    decreases |acts|
  {
    hide Inv, Next, CanDo, Reads, ReadsEnd, StepAt;
    if acts == [] {
      assert EndOf(x, side).src.read + [] == EndOf(x, side).src.read;
    } else {
      StepKeepsInv(x, acts[0]);
      OfferedStep(x, acts[0], side);
      OfferedRun(Next(x, acts[0]), acts[1..], side);
      Rejoin(EndOf(x, side).src.read, EndOf(Next(x, acts[0]), side).src.read,
             Offered(x, acts, side), Offered(Next(x, acts[0]), acts[1..], side));
    }
  }

  lemma Rejoin(before: Bytes, next: Bytes, all: Bytes, rest: Bytes)
    requires |all| >= |rest| && all == all[..|all| - |rest|] + rest && next == before + all[..|all| - |rest|]
    ensures next + rest == before + all
  {
  }

  /** Over every run: an end has sent the preread, if it is the server's, and then exactly the
      bytes its socket was read, each once and in order; and EOF once the socket's end was. */
  lemma ReadIsOffered(
    window: int, role: Role, preread: Bytes, congested: bool, congests: bool, acts: seq<Action>, side: Side)
    requires role.agent && Runs(Start(window, role, preread, congested, congests), acts)
    ensures var x := Start(window, role, preread, congested, congests);
            var e := EndOf(After(x, acts), side);
            && e.src.read == (if side.Server? then preread else []) + Offered(x, acts, side)
            && (e.src.sentEof <==> OfferedEnd(x, acts, side))
  {
    var x := Start(window, role, preread, congested, congests);
    StartInv(window, role, preread, congested, congests);
    OpenServerStep(window, preread, congested, congests);
    OfferedRun(x, acts, side);
  }

  // ---- what the sockets accepted -------------------------------------------------------

  function LedgerAfter(x: Chan, acts: seq<Action>, side: Side, l: Ledger): Ledger
    requires Runs(x, acts)
    decreases |acts|
  {
    if acts == [] then l
    else
      var st := StepAt(x, acts[0], side);
      LedgerAfter(Next(x, acts[0]), acts[1..], side, if st == [] then l else Noted(EndOf(x, side), l, st[0]))
  }

  lemma LedgerStep(x: Chan, a: Action, side: Side, l: Ledger)
    requires Inv(x) && CanDo(x, a) && Kept(EndOf(x, side), l)
    ensures var st := StepAt(x, a, side);
            Kept(EndOf(Next(x, a), side), if st == [] then l else Noted(EndOf(x, side), l, st[0]))
  {
    var e, st := EndOf(x, side), StepAt(x, a, side);
    NextIs(x, a, side);
    StepIsLawful(x, a, side);
    if st != [] {
      KeptStep(e, l, st[0]);
    } else if side.Agent? && Opens(x, a) {
      AcceptedIsNew(x, a.accept, a.congested);
      assert x.down[0] in x.down;
    }
    hide Local, Dir, Respond, Accepted, Next, Noted, HeadOpen;
  }

  lemma {:induction false} LedgerRun(x: Chan, acts: seq<Action>, side: Side, l: Ledger)
    requires Inv(x) && Runs(x, acts) && Kept(EndOf(x, side), l)
    ensures Kept(EndOf(After(x, acts), side), LedgerAfter(x, acts, side, l))
    decreases |acts|
  {
    hide Inv, Next, CanDo, Kept, Noted, StepAt;
    if acts != [] {
      var st := StepAt(x, acts[0], side);
      StepKeepsInv(x, acts[0]);
      LedgerStep(x, acts[0], side, l);
      LedgerRun(Next(x, acts[0]), acts[1..], side, if st == [] then l else Noted(EndOf(x, side), l, st[0]));
    }
  }

  /** Over every run an end has granted its peer no more than the bytes its own socket was seen
      to accept, by a write answered true, a drain, or the half-close; while it lives it has
      granted all of those, and what the head buffer kept: at the server's end nothing, at a
      rewriting agent's less than the buffer takes. */
  lemma GrantsAreBacked(
    window: int, role: Role, preread: Bytes, congested: bool, congests: bool, acts: seq<Action>, side: Side)
    requires role.agent && Runs(Start(window, role, preread, congested, congests), acts)
    ensures var x := Start(window, role, preread, congested, congests);
            var (e, l) := (EndOf(After(x, acts), side), LedgerAfter(x, acts, side, BLANK));
            && Backed(e, l) && l.fed == e.snk.taken && l.granted + e.snk.unacked == |l.fed|
            && (side.Server? || !role.rewrite ==> l.kept == 0)
  {
    hide Start, Inv, LedgerAfter, HeadOpen;
    var x := Start(window, role, preread, congested, congests);
    StartInv(window, role, preread, congested, congests);
    StartKept(window, role, preread, congested, congests, side);
    LedgerRun(x, acts, side, BLANK);
    RolesStay(x, acts, side);
  }

  lemma StartKept(window: int, role: Role, preread: Bytes, congested: bool, congests: bool, side: Side)
    ensures var e := EndOf(Start(window, role, preread, congested, congests), side);
            Kept(e, BLANK) && e.role == if side.Server? then PUBLIC else role
  {
    OpenServerStep(window, preread, congested, congests);
    hide Local;
  }

  lemma {:induction false} RolesStay(x: Chan, acts: seq<Action>, side: Side)
    requires Inv(x) && Runs(x, acts)
    ensures EndOf(After(x, acts), side).role == EndOf(x, side).role
    decreases |acts|
  {
    if acts != [] {
      var st := StepAt(x, acts[0], side);
      NextIs(x, acts[0], side);
      StepIsLawful(x, acts[0], side);
      StepKeepsInv(x, acts[0]);
      if st != [] { ConnectedIff(EndOf(x, side), st[0]); }
      hide Inv, CanDo, Next, Respond;
      RolesStay(Next(x, acts[0]), acts[1..], side);
    }
  }

  // ---- why each RESET was sent ---------------------------------------------------------

  /** An error of the socket or a failed dial of a live end, a frame that found its end finished,
      or a refused OPEN. */
  predicate SendsReset(x: Chan, a: Action, side: Side)
    requires CanDo(x, a)
  {
    var st := StepAt(x, a, side);
    || (st != [] && (Aborts(EndOf(x, side), st[0]) || FindsFinished(EndOf(x, side), st[0])))
    || (side.Agent? && Opens(x, a) && !a.accept)
  }

  function Causes(x: Chan, acts: seq<Action>, side: Side): nat
    requires Runs(x, acts)
    decreases |acts|
  {
    if acts == [] then 0
    else (if SendsReset(x, acts[0], side) then 1 else 0) + Causes(Next(x, acts[0]), acts[1..], side)
  }

  /** How many RESETs of `side` were delivered. */
  function ResetsDelivered(x: Chan, acts: seq<Action>, side: Side): nat
    requires Runs(x, acts)
    decreases |acts|
  {
    if acts == [] then 0
    else
      (if Delivers(acts[0], side) && Flight(x, side) != [] && Flight(x, side)[0].Reset? then 1 else 0)
      + ResetsDelivered(Next(x, acts[0]), acts[1..], side)
  }

  function Resets(q: seq<Msg>): nat {
    multiset(q)[Reset]
  }

  lemma ResetsSent(x: Chan, a: Action, side: Side)
    requires Inv(x) && CanDo(x, a)
    ensures Resets(SentBy(x, a, side)) == if SendsReset(x, a, side) then 1 else 0
  {
    var st := StepAt(x, a, side);
    StepIsLawful(x, a, side);
    hide Local, Inv, Next, Aborts, FindsFinished;
    if st != [] { OneReset(EndOf(x, side), st[0]); }
  }

  lemma OneReset(e: End, st: Step)
    requires Local(e) && Possible(e, st) && Lawful(e, st)
    ensures Resets(Respond(e, st).sent) == if Aborts(e, st) || FindsFinished(e, st) then 1 else 0
  {
    SentIs(e, st);
    ResetIff(e, st);
    hide Local, Respond, Possible, Lawful;
  }

  lemma ResetsStep(x: Chan, a: Action, side: Side)
    requires Inv(x) && CanDo(x, a)
    ensures Resets(Flight(Next(x, a), side))
            == Resets(Flight(x, side)) + (if SendsReset(x, a, side) then 1 else 0)
               - (if Delivers(a, side) && Flight(x, side) != [] && Flight(x, side)[0].Reset? then 1 else 0)
  {
    NextIs(x, a, side);
    ResetsSent(x, a, side);
    hide Inv, Next, SentBy, SendsReset, Resets;
    var q, sent := Flight(x, side), SentBy(x, a, side);
    ResetsAppend(q, sent);
    if q != [] {
      ResetsAppend(q[1..], sent);
      ResetsHead(q);
    }
  }

  lemma ResetsAppend(p: seq<Msg>, q: seq<Msg>)
    ensures Resets(p + q) == Resets(p) + Resets(q)
  {
  }

  lemma ResetsHead(q: seq<Msg>)
    requires q != []
    ensures Resets(q) == Resets(q[1..]) + if q[0].Reset? then 1 else 0
  {
    assert q == [q[0]] + q[1..];
  }

  /** Over every run the RESETs sent are as many as there were aborts of the live end, frames
      that found it finished, and refusals of its OPEN: each of these sends one, and nothing
      else does. The close of a socket, in particular, is not told. */
  lemma {:induction false} ResetsCounted(x: Chan, acts: seq<Action>, side: Side)
    requires Inv(x) && Runs(x, acts)
    ensures Resets(Flight(After(x, acts), side)) + ResetsDelivered(x, acts, side)
            == Resets(Flight(x, side)) + Causes(x, acts, side)
    decreases |acts|
  {
    hide Inv, Next, CanDo, SendsReset, Resets;
    if acts != [] {
      StepKeepsInv(x, acts[0]);
      ResetsStep(x, acts[0], side);
      ResetsCounted(Next(x, acts[0]), acts[1..], side);
    }
  }

  /** So from its opening on. */
  lemma EveryResetHasItsCause(
    window: int, role: Role, preread: Bytes, congested: bool, congests: bool, acts: seq<Action>, side: Side)
    requires role.agent && Runs(Start(window, role, preread, congested, congests), acts)
    ensures var x := Start(window, role, preread, congested, congests);
            Resets(Flight(After(x, acts), side)) + ResetsDelivered(x, acts, side) == Causes(x, acts, side)
  {
    StartInv(window, role, preread, congested, congests);
    OpenServerStep(window, preread, congested, congests);
    ResetsCounted(Start(window, role, preread, congested, congests), acts, side);
  }
}
