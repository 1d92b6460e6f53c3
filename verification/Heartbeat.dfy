/** server/src/control.ts: when the server gives up on a connection that has gone silent. */
module Heartbeat {
  /** Something came in from the agent, the ping timer fired, or the WebSocket closed. */
  datatype Beat = Heard | Tick | Gone

  datatype Pulse = Pulse(misses: nat, armed: bool, terminated: bool)

  function Step(limit: int, p: Pulse, b: Beat): Pulse {
    match b
    case Heard => p.(misses := 0)
    case Gone => p.(armed := false)
    case Tick =>
      if !p.armed then p
      else if p.misses >= limit then p.(armed := false, terminated := true)
      else p.(misses := p.misses + 1)
  }

  function Run(limit: int, h: seq<Beat>): Pulse {
    if h == [] then Pulse(0, true, false) else Step(limit, Run(limit, h[..|h| - 1]), h[|h| - 1])
  }

  function Ticks(h: seq<Beat>): nat {
    if h == [] then 0 else Ticks(h[..|h| - 1]) + (if h[|h| - 1].Tick? then 1 else 0)
  }

  /** From `p` on to `i` there were `n` ticks or more, and nothing was heard. */
  predicate SilentFor(h: seq<Beat>, p: int, i: int, n: int) {
    0 <= p <= i <= |h| && Heard !in h[p..i] && Ticks(h[p..i]) >= n
  }

  ghost predicate Silent(h: seq<Beat>, i: int, n: int) {
    exists p :: SilentFor(h, p, i, n)
  }

  /** The tick at `i` comes after `limit` ticks with nothing inbound since the earliest. */
  ghost predicate Due(limit: int, h: seq<Beat>, i: int) {
    0 <= i < |h| && h[i].Tick? && Silent(h, i, limit)
  }

  /** Ticks since anything was last heard. */
  function Misses(h: seq<Beat>): nat {
    if h == [] || h[|h| - 1].Heard? then 0 else Misses(h[..|h| - 1]) + (if h[|h| - 1].Tick? then 1 else 0)
  }

  lemma {:induction false} MissesAreTicks(h: seq<Beat>, p: nat)
    requires p <= |h| && Heard !in h[p..]
    ensures Ticks(h[p..]) <= Misses(h)
    decreases |h|
  {
    if p < |h| {
      assert h[p..][..|h[p..]| - 1] == h[..|h| - 1][p..];
      assert h[|h| - 1] == h[p..][|h| - 1 - p];
      MissesAreTicks(h[..|h| - 1], p);
    }
  }

  lemma {:induction false} MissesReached(h: seq<Beat>) returns (p: nat)
    ensures p <= |h| && Heard !in h[p..] && Ticks(h[p..]) == Misses(h)
  {
    if h == [] || h[|h| - 1].Heard? {
      p := |h|;
    } else {
      p := MissesReached(h[..|h| - 1]);
      assert h[p..][..|h[p..]| - 1] == h[..|h| - 1][p..];
      assert h[p..] == h[..|h| - 1][p..] + [h[|h| - 1]];
    }
  }

  /** The counter counts what it should. */
  lemma SilentIff(h: seq<Beat>, n: int)
    ensures Silent(h, |h|, n) <==> Misses(h) >= n
  {
    if Silent(h, |h|, n) {
      var p :| SilentFor(h, p, |h|, n);
      assert h[p..|h|] == h[p..];
      MissesAreTicks(h, p);
    }
    if Misses(h) >= n {
      var p := MissesReached(h);
      assert h[p..|h|] == h[p..];
      assert SilentFor(h, p, |h|, n);
    }
  }

  lemma PrefixDue(limit: int, h: seq<Beat>, m: nat, i: int)
    requires i < m <= |h|
    ensures Due(limit, h[..m], i) <==> Due(limit, h, i)
  {
    if Due(limit, h, i) {
      var p :| SilentFor(h, p, i, limit);
      assert h[..m][p..i] == h[p..i];
      assert SilentFor(h[..m], p, i, limit);
    }
    if Due(limit, h[..m], i) {
      var p :| SilentFor(h[..m], p, i, limit);
      assert h[..m][p..i] == h[p..i];
      assert SilentFor(h, p, i, limit);
    }
  }

  lemma {:induction false} PulseIs(limit: int, h: seq<Beat>)
    ensures var p := Run(limit, h);
            && (p.armed <==> !p.terminated && Gone !in h)
            && (p.armed ==> p.misses == Misses(h))
  {
    if h != [] {
      PulseIs(limit, h[..|h| - 1]);
      assert h == h[..|h| - 1] + [h[|h| - 1]];
    }
  }

  /** The last event terminates the connection if and only if it is a due tick of a
      connection that was neither closed nor terminated before. */
  lemma LastTick(limit: int, h: seq<Beat>)
    requires h != []
    ensures var g := h[..|h| - 1];
            Run(limit, h).terminated <==> Run(limit, g).terminated || (Due(limit, h, |h| - 1) && Gone !in g)
  {
    var g := h[..|h| - 1];
    PulseIs(limit, g);
    SilentIff(g, limit);
    if h[|h| - 1].Tick? {
      if Silent(g, |g|, limit) {
        var p :| SilentFor(g, p, |g|, limit);
        assert g[p..|g|] == h[p..|g|];
        assert SilentFor(h, p, |g|, limit);
      }
      if Silent(h, |g|, limit) {
        var p :| SilentFor(h, p, |g|, limit);
        assert g[p..|g|] == h[p..|g|];
        assert SilentFor(g, p, |g|, limit);
      }
    }
  }

  ghost predicate DueBefore(limit: int, h: seq<Beat>, i: int) {
    Due(limit, h, i) && Gone !in h[..i]
  }

  /** Over every interleaving of ticks and inbound events: a connection is terminated if
      and only if some tick found it silent for `limit` ticks before it was closed. */
  lemma {:induction false} TerminatedIff(limit: int, h: seq<Beat>)
    ensures Run(limit, h).terminated <==> exists i {:trigger DueBefore(limit, h, i)} :: DueBefore(limit, h, i)
  {
    if h != [] {
      var g := h[..|h| - 1];
      TerminatedIff(limit, g);
      LastTick(limit, h);
      if Run(limit, g).terminated {
        var i :| DueBefore(limit, g, i);
        PrefixDue(limit, h, |g|, i);
        assert h[..i] == g[..i];
        assert DueBefore(limit, h, i);
      } else if Run(limit, h).terminated {
        assert DueBefore(limit, h, |g|);
      } else if exists i :: DueBefore(limit, h, i) {
        var i :| DueBefore(limit, h, i);
        if i < |g| {
          PrefixDue(limit, h, |g|, i);
          assert h[..i] == g[..i];
          assert DueBefore(limit, g, i);
        }
      }
    }
  }

  /** And it happens on exactly the first such tick. */
  lemma TerminatesOnFirstDueTick(limit: int, h: seq<Beat>, i: nat)
    requires i < |h|
    ensures !Run(limit, h[..i]).terminated && Run(limit, h[..i + 1]).terminated
       <==> DueBefore(limit, h, i) && forall j :: 0 <= j < i ==> !DueBefore(limit, h, j)
  {
    var g, k := h[..i], h[..i + 1];
    assert k[..|k| - 1] == g;
    LastTick(limit, k);
    PrefixDue(limit, h, i + 1, i);
    TerminatedIff(limit, g);
    forall j | 0 <= j < i ensures DueBefore(limit, g, j) <==> DueBefore(limit, h, j) {
      PrefixDue(limit, h, i, j);
      assert h[..j] == g[..j];
    }
  }

  /** An agent heard at least once in every run of that many ticks is never dropped. */
  lemma HeardOftenEnough(limit: int, h: seq<Beat>)
    requires forall p, i :: 0 <= p <= i <= |h| && Ticks(h[p..i]) >= limit ==> Heard in h[p..i]
    ensures !Run(limit, h).terminated
  {
    forall p, i ensures !SilentFor(h, p, i, limit) {
    }
    TerminatedIff(limit, h);
  }

  // ---- one connection ----------------------------------------------------------------

  class Liveness {
    const heartbeatMisses: int
    var misses: nat
    /** The interval timer is set. */
    var armed: bool
    var terminated: bool
    /** All that happened so far. */
    ghost var history: seq<Beat>

    ghost predicate Valid()
      reads this
    {
      Pulse(misses, armed, terminated) == Run(heartbeatMisses, history)
    }

    constructor (heartbeatMisses: int)
      ensures Valid() && history == [] && this.heartbeatMisses == heartbeatMisses
    {
      this.heartbeatMisses, misses, armed, terminated, history := heartbeatMisses, 0, true, false, [];
    }

    /** A pong, a ping or a message. */
    method OnInbound()
      requires Valid()
      modifies this
      ensures Valid() && history == old(history) + [Heard]
    {
      Grow(Heard);
      misses := 0;
    }

    method OnClose()
      requires Valid()
      modifies this
      ensures Valid() && history == old(history) + [Gone]
    {
      Grow(Gone);
      armed := false;
    }

    /** `pinged` says that a ping went out. A WebSocket that is no longer open counts as
        closed from here on. */
    method OnTick(isOpen: bool) returns (pinged: bool)
      requires Valid() && armed
      modifies this
      ensures Valid() && history == old(history) + [if isOpen then Tick else Gone]
      ensures isOpen ==> (terminated <==> Due(heartbeatMisses, history, |history| - 1))
      ensures pinged <==> isOpen && !terminated
    {
      PulseIs(heartbeatMisses, history);
      Grow(if isOpen then Tick else Gone);
      LastTick(heartbeatMisses, history);
      assert history[..|history| - 1] == old(history);
      if !isOpen {
        armed := false;
        return false;
      }
      if misses >= heartbeatMisses {
        armed, terminated := false, true;
        return false;
      }
      misses := misses + 1;
      return true;
    }

    ghost method Grow(b: Beat)
      requires Valid()
      modifies `history
      ensures history == old(history) + [b]
      ensures Run(heartbeatMisses, history) == Step(heartbeatMisses, Pulse(misses, armed, terminated), b)
    {
      history := history + [b];
      assert history[..|history| - 1] == old(history);
    }
  }
}
