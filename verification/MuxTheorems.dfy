/** The theorems about one stream, said of a whole session with any number of streams. */
module MuxTheorems {
  import opened Frames
  import opened Endpoint
  import opened EndpointProofs
  import opened Channel
  import opened ChannelTheorems
  import opened Mux
  import opened Options

  /** After any run of a session, every stream of it is a pair of byte pipes that starts
      with the bytes preread for it, and the credit of the live ones is all there. */
  lemma SessionPipes(window: int, acts: seq<NetAction>, id: nat)
    requires NetRuns(Idle(window), acts) && id in NetAfter(Idle(window), acts).roles
    ensures var n := NetAfter(Idle(window), acts);
            && id in n.server
            && Pipe(n.server[id], AgentEnd(n, id)) && Pipe(AgentEnd(n, id), n.server[id])
            && (exists a :: a in acts && a.Accept? && a.id == id && a.preread <= n.server[id].src.read)
            && (id in n.agent && !n.server[id].finished && !n.agent[id].finished ==>
                 && WindowUse(n.server[id], n.agent[id], Only(n.down, id), Only(n.up, id)) == window
                 && WindowUse(n.agent[id], n.server[id], Only(n.up, id), Only(n.down, id)) == window)
  {
    IdleInv(window);
    var a, own := EachStreamIsAlone(Idle(window), acts, id);
    PipeRefinement(window, a.role, a.preread, a.congested, a.congests, own);
    CreditConserved(window, a.role, a.preread, a.congested, a.congests, own);
    var n := NetAfter(Idle(window), acts);
    assert View(n, id).window == window by {
      StartInv(window, a.role, a.preread, a.congested, a.congests);
      ReadGrows(Start(window, a.role, a.preread, a.congested, a.congests), own);
    }
  }

  /** In every session, whatever its streams' sockets and neighbours do: an end that finished
      by exchanging EOFs has got everything, and a RESET that a late frame draws from it finds
      the stream's other end finished, too. */
  lemma SessionResetsAreHarmless(window: int, acts: seq<NetAction>, id: nat)
    requires NetRuns(Idle(window), acts) && id in NetAfter(Idle(window), acts).roles
    ensures var n := NetAfter(Idle(window), acts);
            && id in n.server
            && ClosedForBoth(n.server[id], AgentEnd(n, id), Only(n.down, id))
            && ClosedForBoth(AgentEnd(n, id), n.server[id], Only(n.up, id))
  {
    IdleInv(window);
    var a, own := EachStreamIsAlone(Idle(window), acts, id);
    LateResetsAreHarmless(window, a.role, a.preread, a.congested, a.congests, own);
  }

  /** And every abort reaches the other end of its stream. */
  lemma SessionAbortsReachThePeer(window: int, acts: seq<NetAction>, id: nat)
    requires NetRuns(Idle(window), acts) && id in NetAfter(Idle(window), acts).roles
    ensures id in NetAfter(Idle(window), acts).server && AbortsTold(View(NetAfter(Idle(window), acts), id))
  {
    IdleInv(window);
    var a, own := EachStreamIsAlone(Idle(window), acts, id);
    AbortsReachThePeer(window, a.role, a.preread, a.congested, a.congests, own);
  }

  /** The action aborts no live end of stream `id`, whatever it does to others. */
  predicate SparesStream(n: Net, a: NetAction, id: nat)
    requires NetCan(n, a)
  {
    id in n.roles && id in n.server && ActionFor(n, a, id).Some? ==> Gentle(View(n, id), ActionFor(n, a, id).value)
  }

  predicate AllSpareStream(n: Net, acts: seq<NetAction>, id: nat)
    requires NetRuns(n, acts)
    decreases |acts|
  {
    acts == [] || (SparesStream(n, acts[0], id) && AllSpareStream(NetNext(n, acts[0]), acts[1..], id))
  }

  lemma {:induction false} SparedStream(n: Net, acts: seq<NetAction>, id: nat)
    requires NetInv(n) && NetRuns(n, acts) && AllSpareStream(n, acts, id)
    requires id in n.roles ==> id in n.server && Inv(View(n, id)) && Polite(View(n, id))
    requires id in NetAfter(n, acts).roles
    ensures var m := NetAfter(n, acts);
            id in m.server && Polite(View(m, id)) && ResetsFindFinished(View(m, id))
    decreases |acts|
  {
    hide NetInv, Inv, Polite, ResetsFindFinished, View, NetNext, NetCan;
    if acts == [] {
      PoliteResets(View(n, id));
    } else {
      SpareStep(n, acts[0], id);
      SparedStream(NetNext(n, acts[0]), acts[1..], id);
    }
  }

  lemma SpareStep(n: Net, a: NetAction, id: nat)
    requires NetInv(n) && NetCan(n, a) && SparesStream(n, a, id)
    requires id in n.roles ==> id in n.server && Inv(View(n, id)) && Polite(View(n, id))
    ensures var m := NetNext(n, a);
            NetInv(m) && (id in m.roles ==> id in m.server && Inv(View(m, id)) && Polite(View(m, id)))
  {
    hide Inv, Polite, View, Gentle, CanDo, Next;
    NetStep(n, a);
    if id in n.roles {
      Projection(n, a, id);
      if ActionFor(n, a, id).Some? {
        PoliteStep(View(n, id), ActionFor(n, a, id).value);
        StepKeepsInv(View(n, id), ActionFor(n, a, id).value);
      }
    } else {
      NetKeepsIds(n, a);
      if a.Accept? && a.id == id {
        FreshView(n, a);
        StartIsPolite(n.window, a.role, a.preread, a.congested, a.congests);
      }
    }
  }

  lemma StartIsPolite(window: int, role: Role, preread: Bytes, congested: bool, congests: bool)
    requires role.agent
    ensures var x := Start(window, role, preread, congested, congests); Inv(x) && Polite(x)
  {
    StartInv(window, role, preread, congested, congests);
    OpenServerStep(window, preread, congested, congests);
  }

  /** No RESET ever reaches a live end of a stream none of whose ends was aborted, however
      many of its neighbours were: races around closing abort nobody. */
  lemma SessionClosesGracefully(window: int, acts: seq<NetAction>, id: nat)
    requires NetRuns(Idle(window), acts) && AllSpareStream(Idle(window), acts, id)
    requires id in NetAfter(Idle(window), acts).roles
    ensures var n := NetAfter(Idle(window), acts);
            && id in n.server
            && (n.down != [] && n.down[0] == Frame(id, Reset) ==> AgentEnd(n, id).finished)
            && (n.up != [] && n.up[0] == Frame(id, Reset) ==> n.server[id].finished)
  {
    IdleInv(window);
    SparedStream(Idle(window), acts, id);
  }

  lemma {:induction false} SessionInv(n: Net, acts: seq<NetAction>)
    requires NetInv(n) && NetRuns(n, acts)
    ensures NetInv(NetAfter(n, acts)) && NetAfter(n, acts).window == n.window
    decreases |acts|
  {
    if acts != [] {
      NetStep(n, acts[0]);
      SessionInv(NetNext(n, acts[0]), acts[1..]);
    }
  }

  /** Actions of one stream leave every other stream alone: its bytes, its credit, and its
      frames in flight. */
  lemma Isolation(n: Net, a: NetAction, id: nat)
    requires NetInv(n) && NetCan(n, a) && id in n.roles && ActionFor(n, a, id).None?
    ensures var m := NetNext(n, a);
            && id in m.server && id in m.roles
            && m.server[id] == n.server[id] && AgentEnd(m, id) == AgentEnd(n, id)
            && Only(m.down, id) == Only(n.down, id) && Only(m.up, id) == Only(n.up, id)
  {
    Projection(n, a, id);
    var m := NetNext(n, a);
    assert View(m, id).s == View(n, id).s && View(m, id).c == View(n, id).c;
    assert View(m, id).down == View(n, id).down && View(m, id).up == View(n, id).up;
  }

  /** No stream can hold up another: a delivery, a drain or a dial that succeeds uses up
      work of the one stream it concerns and leaves all the others as they were, so that the
      total shrinks with every step the network and the sockets owe. */
  lemma OwedStepOfOneStream(n: Net, a: NetAction, id: nat)
    requires NetInv(n) && NetCan(n, a) && id in n.roles && id in n.server
    requires ActionFor(n, a, id).Some? && Owed(View(n, id), ActionFor(n, a, id).value)
    ensures var m := NetNext(n, a);
            && NetInv(m) && id in m.roles && id in m.server && Work(View(m, id)) < Work(View(n, id))
            && forall o :: o in n.roles && o != id ==>
                 o in n.server && o in m.roles && o in m.server && View(m, o) == View(n, o)
  {
    hide NetInv, NetCan, NetNext, View, Inv, Work;
    NetStep(n, a);
    Projection(n, a, id);
    SoundStream(n, id);
    OwedStepWorks(View(n, id), ActionFor(n, a, id).value);
    forall o | o in n.roles && o != id
      ensures o in n.server && o in NetNext(n, a).roles && o in NetNext(n, a).server
      ensures View(NetNext(n, a), o) == View(n, o)
    {
      SoundStream(n, o);
      Projection(n, a, o);
    }
  }

  lemma SoundStream(n: Net, id: nat)
    requires NetInv(n) && id in n.roles
    ensures id in n.server && Inv(View(n, id))
  {
    assert Sound(n, id);
  }

  // ---- a whole session settles -------------------------------------------------------

  /** Work left in the streams `ids`. */
  ghost function TotalOf(n: Net, ids: set<nat>): nat
    requires ids <= n.roles.Keys && ids <= n.server.Keys
  {
    if ids == {} then 0
    else
      var id :| id in ids;
      Work(View(n, id)) + TotalOf(n, ids - {id})
  }

  lemma {:induction false} TotalWith(n: Net, ids: set<nat>, id: nat)
    requires ids <= n.roles.Keys && ids <= n.server.Keys && id in ids
    ensures TotalOf(n, ids) == Work(View(n, id)) + TotalOf(n, ids - {id})
  {
    hide Work, View;
    var first :| first in ids && TotalOf(n, ids) == Work(View(n, first)) + TotalOf(n, ids - {first});
    if first != id {
      TotalWith(n, ids - {first}, id);
      TotalWith(n, ids - {id}, first);
      assert ids - {first} - {id} == ids - {id} - {first};
    }
  }

  lemma {:induction false} TotalSame(n: Net, m: Net, ids: set<nat>)
    requires ids <= n.roles.Keys && ids <= n.server.Keys && ids <= m.roles.Keys && ids <= m.server.Keys
    requires forall id :: id in ids ==> View(m, id) == View(n, id)
    ensures TotalOf(m, ids) == TotalOf(n, ids)
  {
    hide Work, View;
    if ids != {} {
      var id :| id in ids;
      TotalWith(n, ids, id);
      TotalWith(m, ids, id);
      TotalSame(n, m, ids - {id});
    }
  }

  /** Work left in the whole session. */
  ghost function Total(n: Net): nat
    requires NetInv(n)
  {
    TotalOf(n, n.roles.Keys)
  }

  /** Deliveries, drains, and dials that succeed. */
  predicate NetOwed(n: Net, a: NetAction) {
    match a
    case FrameToAgent(_, _, _) => true
    case FrameToServer(_) => true
    case ServerEvent(_, ev) => ev.Drained?
    case AgentEvent(id, ev) => ev.Drained? || (ev.Connected? && id in n.agent && !n.agent[id].finished)
    case _ => false
  }

  lemma OwedConcerns(n: Net, a: NetAction) returns (id: nat)
    requires NetInv(n) && NetCan(n, a) && NetOwed(n, a)
    ensures id in n.roles && id in n.server && ActionFor(n, a, id).Some? && Owed(View(n, id), ActionFor(n, a, id).value)
  {
    match a {
      case FrameToAgent(_, _, _) => id := n.down[0].id;
      case FrameToServer(_) => id := n.up[0].id;
      case ServerEvent(j, _) => id := j;
      case AgentEvent(j, _) => id := j;
    }
  }

  lemma OwedNetStep(n: Net, a: NetAction)
    requires NetInv(n) && NetCan(n, a) && NetOwed(n, a)
    ensures var m := NetNext(n, a);
            NetInv(m) && m.roles == n.roles && Total(m) < Total(n)
  {
    var id := OwedConcerns(n, a);
    OwedStepOfOneStream(n, a, id);
    RolesStay(n, a);
    hide NetInv, NetCan, NetNext, View, Work, NetOwed, Owed, ActionFor;
    var m := NetNext(n, a);
    TotalWith(n, n.roles.Keys, id);
    TotalWith(m, n.roles.Keys, id);
    TotalSame(n, m, n.roles.Keys - {id});
  }

  lemma RolesStay(n: Net, a: NetAction)
    requires NetInv(n) && NetCan(n, a) && NetOwed(n, a)
    ensures NetNext(n, a).roles == n.roles && NetNext(n, a).roles.Keys <= NetNext(n, a).server.Keys
  {
    NetKeepsIds(n, a);
  }

  ghost predicate OwedNetRun(n: Net, acts: seq<NetAction>)
    decreases |acts|
  {
    acts == [] || (NetCan(n, acts[0]) && NetOwed(n, acts[0]) && OwedNetRun(NetNext(n, acts[0]), acts[1..]))
  }

  /** Nothing is in flight, no socket is to drain, no dial is out. */
  predicate NetSettled(n: Net) {
    && n.down == [] && n.up == []
    && (forall id :: id in n.server ==> !n.server[id].snk.needDrain)
    && (forall id :: id in n.agent ==> !n.agent[id].snk.needDrain && (n.agent[id].connected || n.agent[id].finished))
  }

  /** Every stream of a settled session that lives at both ends has its window back. */
  lemma SettledSession(n: Net, id: nat)
    requires NetInv(n) && NetSettled(n) && id in n.roles
    ensures id in n.server && (!n.server[id].finished && !AgentEnd(n, id).finished ==> Replenished(View(n, id)))
  {
    SettledView(n, id);
    if !n.server[id].finished && !AgentEnd(n, id).finished { SettledStream(View(n, id)); }
  }

  /** Every run of steps that the network and the sockets owe a session is bounded by the work
      of all its streams together, whichever it serves first. */
  lemma {:induction false} SessionNeverStalls(n: Net, acts: seq<NetAction>)
    requires NetInv(n) && OwedNetRun(n, acts)
    ensures NetRuns(n, acts)
    ensures var m := NetAfter(n, acts);
            && NetInv(m) && m.roles == n.roles
            && |acts| + Total(m) <= Total(n)
    decreases |acts|
  {
    hide NetInv, NetCan, NetNext, NetOwed, Total;
    if acts != [] {
      OwedNetStep(n, acts[0]);
      SessionNeverStalls(NetNext(n, acts[0]), acts[1..]);
    }
  }

  lemma SomethingOwed(n: Net) returns (a: NetAction)
    requires NetInv(n) && !NetSettled(n)
    ensures NetCan(n, a) && NetOwed(n, a)
  {
    if n.down != [] {
      a := FrameToAgent(true, true, false);
    } else if n.up != [] {
      a := FrameToServer(true);
    } else if id :| id in n.server && n.server[id].snk.needDrain {
      a := ServerEvent(id, Drained);
    } else if id :| id in n.agent && n.agent[id].snk.needDrain {
      a := AgentEvent(id, Drained);
    } else {
      var id :| id in n.agent && !n.agent[id].connected && !n.agent[id].finished;
      SoundStream(n, id);
      a := AgentEvent(id, Connected(seq(|n.agent[id].snk.queued| + 1, _ => true)));
    }
  }

  /** And from every reachable state such a run settles the whole session. */
  lemma {:induction false} SessionCanSettle(n: Net) returns (acts: seq<NetAction>)
    requires NetInv(n)
    ensures OwedNetRun(n, acts) && NetRuns(n, acts) && NetSettled(NetAfter(n, acts))
    decreases Total(n)
  {
    hide NetInv, NetCan, NetNext, NetOwed, Total, NetSettled;
    if NetSettled(n) {
      acts := [];
    } else {
      var a := SomethingOwed(n);
      OwedNetStep(n, a);
      var rest := SessionCanSettle(NetNext(n, a));
      acts := [a] + rest;
      assert acts[1..] == rest;
    }
  }

  /** After any run of a session, an owed run of bounded length settles all of it. Then every
      stream that lives at both ends has its whole window back, and one that lives at one end
      only lost its peer to a socket that closed in silence. */
  lemma EverySessionSettles(window: int, acts: seq<NetAction>) returns (more: seq<NetAction>)
    requires NetRuns(Idle(window), acts)
    ensures var n := NetAfter(Idle(window), acts);
            && NetInv(n) && OwedNetRun(n, more) && NetRuns(n, more) && |more| <= Total(n)
            && NetSettled(NetAfter(n, more))
            && forall id :: id in n.roles ==> LeftInOrder(NetAfter(n, more), id)
  {
    IdleInv(window);
    SessionInv(Idle(window), acts);
    var n := NetAfter(Idle(window), acts);
    more := SessionCanSettle(n);
    SessionNeverStalls(n, more);
    RunsAppend(Idle(window), acts, more);
    var m := NetAfter(n, more);
    forall id | id in n.roles ensures LeftInOrder(m, id) {
      SettledSession(m, id);
      SessionAbortsReachThePeer(window, acts + more, id);
      SettledView(m, id);
      OnlySilentCloseIsMissed(View(m, id));
    }
  }

  /** What a settled session has made of a stream. */
  ghost predicate LeftInOrder(n: Net, id: nat) {
    && id in n.roles && id in n.server
    && var s, c := n.server[id], AgentEnd(n, id);
       && (!s.finished && !c.finished ==> Replenished(View(n, id)))
       && (s.finished && !c.finished ==> ClosedSilently(s))
       && (c.finished && !s.finished ==> ClosedSilently(c))
  }

  lemma SettledView(n: Net, id: nat)
    requires NetInv(n) && NetSettled(n) && id in n.roles
    ensures id in n.server && Inv(View(n, id)) && Settled(View(n, id))
  {
    SoundStream(n, id);
    assert Only([], id) == [];
    assert View(n, id).known;
    if id !in n.agent { assert AgentEnd(n, id) == Finish(NewEnd(n.roles[id], n.window)); }
  }

  lemma {:induction false} RunsAppend(n: Net, a: seq<NetAction>, b: seq<NetAction>)
    requires NetRuns(n, a) && NetRuns(NetAfter(n, a), b)
    ensures NetRuns(n, a + b) && NetAfter(n, a + b) == NetAfter(NetAfter(n, a), b)
    decreases |a|
  {
    hide NetCan, NetNext;
    if a == [] {
      assert a + b == b;
    } else {
      assert (a + b)[0] == a[0] && (a + b)[1..] == a[1..] + b;
      RunsAppend(NetNext(n, a[0]), a[1..], b);
    }
  }
}
