/** What both sessions keep about the map of their streams: it holds exactly the
    unfinished ones, whatever is done to one of them or to all in turn. */
module SessionMaps {
  import opened Frames
  import opened Endpoint
  import opened EndpointLaws
  import opened Mux
  import opened Options

  /** The streams in the map are the unfinished ones. */
  ghost predicate InMap(ends: Ends, live: set<nat>) {
    live <= ends.Keys && forall id :: id in ends ==> (id in live <==> !ends[id].finished)
  }

  lemma LiveAreEnds(ends: Ends, live: set<nat>)
    requires InMap(ends, live)
    ensures live <= ends.Keys
  {
  }

  lemma InMapStep(ends: Ends, live: set<nat>, id: nat, e: End)
    requires InMap(ends, live) && id in ends && id in live
    ensures InMap(ends[id := e], if e.finished then live - {id} else live)
  {
  }

  /** A finished end has nothing to say any more. */
  lemma DeadHandle(e: End, ev: Event)
    requires e.finished && Enabled(e, ev)
    ensures Handle(e, ev).sent == [] && Handle(e, ev).e.finished
  {
  }

  lemma InMapEvent(m: Ends, live: set<nat>, id: nat, ev: Event)
    requires InMap(m, live) && id in m && Enabled(m[id], ev)
    ensures var f := Handle(m[id], ev).e;
            InMap(m[id := f], if f.finished && !m[id].finished then live - {id} else live)
  {
    if m[id].finished { DeadHandle(m[id], ev); }
  }

  lemma LessOne(live: set<nat>, rest: set<nat>, id: nat)
    requires id in rest && rest <= live
    ensures live - (rest - {id}) == live - rest + {id} && |rest - {id}| < |rest|
  {
  }

  lemma DestroyFinishes(e: End, tell: bool)
    ensures Destroy(e, tell).e.finished
  {
  }

  /** All streams after the session is gone. */
  ghost function DestroyAll(ends: Ends, tell: bool): Ends {
    map id | id in ends :: Destroy(ends[id], tell).e
  }

  /** The socket of every stream that was live is destroyed, as far as it has one; those that
      were over are left alone. */
  lemma SocketsDestroyed(ends: Ends, tell: bool, id: nat)
    requires id in ends
    ensures var (e, f) := (ends[id], DestroyAll(ends, tell)[id]);
            f.finished && f.destroyed == (e.destroyed || (e.connected && !e.finished))
  {
  }

  lemma PausedSocketsStay(ends: Ends, on: bool, id: nat)
    requires id in ends
    ensures var (e, f) := (ends[id], PauseAll(ends, on)[id]);
            f.finished == e.finished && f.connected == e.connected && f.destroyed == e.destroyed
  {
  }

  ghost function DestroyedFor(ends: Ends, done: set<nat>, tell: bool): Ends {
    map id | id in ends :: if id in done then Destroy(ends[id], tell).e else ends[id]
  }

  lemma DestroyedForNone(ends: Ends, tell: bool)
    ensures DestroyedFor(ends, {}, tell) == ends
  {
  }

  lemma DestroyedForMore(ends: Ends, live: set<nat>, done: set<nat>, id: nat, tell: bool)
    requires InMap(ends, live) && id in live && id !in done
    ensures id in DestroyedFor(ends, done, tell) && !DestroyedFor(ends, done, tell)[id].finished
    ensures DestroyedFor(ends, done, tell)[id := Destroy(DestroyedFor(ends, done, tell)[id], tell).e]
            == DestroyedFor(ends, done + {id}, tell)
  {
  }

  lemma DestroyedForAll(ends: Ends, live: set<nat>, tell: bool)
    requires InMap(ends, live)
    ensures DestroyedFor(ends, live, tell) == DestroyAll(ends, tell) && InMap(DestroyAll(ends, tell), {})
  {
  }

  /** `ends` after only the streams in `done` have been told. */
  ghost function PausedFor(ends: Ends, done: set<nat>, on: bool): Ends {
    map id | id in ends :: if id in done then SetGlobalPause(ends[id], on) else ends[id]
  }

  lemma PausedForNone(ends: Ends, on: bool)
    ensures PausedFor(ends, {}, on) == ends
  {
  }

  lemma PausedForMore(ends: Ends, done: set<nat>, id: nat, on: bool)
    requires id in ends && id !in done
    ensures id in PausedFor(ends, done, on)
    ensures PausedFor(ends, done, on)[id := SetGlobalPause(PausedFor(ends, done, on)[id], on)]
            == PausedFor(ends, done + {id}, on)
  {
  }

  lemma PausedForAll(ends: Ends, live: set<nat>, on: bool)
    requires InMap(ends, live)
    ensures PausedFor(ends, live, on) == PauseAll(ends, on) && InMap(PauseAll(ends, on), live)
  {
    forall id | id in ends
      ensures id !in live ==> SetGlobalPause(ends[id], on) == ends[id]
      ensures SetGlobalPause(ends[id], on).finished == ends[id].finished
    {
      PausingKeepsLife(ends[id], on);
    }
  }

  lemma PausingKeepsLife(e: End, on: bool)
    ensures SetGlobalPause(e, on).finished == e.finished
    ensures e.finished ==> SetGlobalPause(e, on) == e
  {
  }

  lemma DeadFrame(ends: Ends, f: Frame, answer: bool)
    requires f.id in ends ==> ends[f.id].finished
    ensures OnFrame(ends, f, answer) == Half(ends, if f.msg.Reset? then [] else Tag(f.id, [Reset]))
  {
    assert Tag(f.id, [Reset]) == [Frame(f.id, Reset)] && Tag(f.id, []) == [];
    if f.id in ends { assert ends[f.id := ends[f.id]] == ends; }
  }

  lemma LiveFrame(ends: Ends, f: Frame, answer: bool)
    requires f.id in ends && !ends[f.id].finished
    ensures var o := Dispatch(ends[f.id], f.msg, answer);
            OnFrame(ends, f, answer) == Half(ends[f.id := o.e], Tag(f.id, o.sent))
  {
  }

  // ---- congestion --------------------------------------------------------------------

  /** Every live stream knows whether the session is congested. */
  ghost predicate AllKnow(ends: Ends, congested: bool) {
    forall id :: id in ends && !ends[id].finished ==> ends[id].src.pausedGlobally == congested
  }

  lemma FrameKeepsKnowing(ends: Ends, f: Frame, answer: bool, congested: bool)
    requires AllKnow(ends, congested)
    ensures AllKnow(OnFrame(ends, f, answer).ends, congested)
  {
    if f.id in ends { DispatchKeepsFlag(ends[f.id], f.msg, answer); }
  }

  lemma DispatchKeepsFlag(e: End, m: Msg, answer: bool)
    ensures var f := Receive(e, m, answer).e;
            f.src.pausedGlobally == e.src.pausedGlobally && (e.finished ==> f.finished)
  {
    PausedGloballyIff(e, Arrives(m, answer));
  }

  lemma EventKeepsKnowing(ends: Ends, id: nat, ev: Event, congested: bool)
    requires AllKnow(ends, congested) && id in ends && Enabled(ends[id], ev) && !ev.Congested?
    ensures AllKnow(OnEvent(ends, id, ev).ends, congested)
  {
    PausedGloballyIff(ends[id], Raises(ev));
    if ends[id].finished { DeadHandle(ends[id], ev); }
  }

  lemma AllTold(ends: Ends, on: bool)
    ensures AllKnow(PauseAll(ends, on), on)
  {
  }

  /** A stream that opens at the agent is told, */
  lemma OpenedKnows(ends: Ends, id: nat, spec: Option<Role>, window: int, congested: bool)
    requires AllKnow(ends, congested)
    ensures AllKnow(OnOpen(ends, id, spec, window, congested).ends, congested)
  {
  }

  /** and so is one that opens at the server, whose preread may be what congests. */
  lemma AcceptedKnows(ends: Ends, id: nat, window: int, preread: Bytes, told: bool, congests: bool)
    requires AllKnow(ends, told || (preread != [] && congests))
    ensures var e := OpenServer(window, preread, told, congests).e;
            AllKnow(ends[id := e], told || (preread != [] && congests))
  {
  }
}
