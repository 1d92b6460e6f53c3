/** client/uptunnel/client.py: the Python client's two pump loops. Where the Node client has
    listeners, a loop here waits: for credit, for the next frame, for the local socket. */
module PythonStream {
  import opened Endpoint
  import opened Frames
  import opened HostHeader
  import opened Options

  const LOCAL_READ_CHUNK: int := 65536

  /** What `_to_local` awaits besides the next item: the drain of a payload it owes an
      acknowledgement for, or that of a head written because the stream ended. */
  datatype Await = Nothing | Payload(consumed: nat) | LastHead

  /** The end of the stream releases a head still held back. */
  function Leftover(target: Bytes, b: HeadBuffer): Bytes {
    if b.held == [] then [] else RewriteHost(Python, b.held, target)
  }

  /** The head buffer after all of `chunks`. */
  function BufferAfter(target: Bytes, b: HeadBuffer, chunks: seq<Bytes>): HeadBuffer
    decreases |chunks|
  {
    if chunks == [] then b else BufferAfter(target, Consume(Python, target, b, chunks[0]).0, chunks[1..])
  }

  /** All that the local socket must have been written once `taken` left the inbox. */
  function HandedOver(target: Bytes, b: HeadBuffer, taken: seq<Bytes>, ended: bool): Bytes {
    ConsumeAll(Python, target, b, taken) + if ended then Leftover(target, BufferAfter(target, b, taken)) else []
  }

  function Items(taken: seq<Bytes>): seq<Option<Bytes>> {
    seq(|taken|, i requires 0 <= i < |taken| => Some(taken[i]))
  }

  /** One payload more is one more step of the head buffer. */
  lemma {:induction false} TakeOne(target: Bytes, b: HeadBuffer, taken: seq<Bytes>, x: Bytes)
    ensures var (c, out) := Consume(Python, target, BufferAfter(target, b, taken), x);
            && BufferAfter(target, b, taken + [x]) == c
            && ConsumeAll(Python, target, b, taken + [x]) == ConsumeAll(Python, target, b, taken) + out
    decreases |taken|
  {
    hide Consume;
    if taken == [] {
      assert ([] + [x])[0] == x && ([] + [x])[1..] == [];
      assert taken + [x] == [x];
    } else {
      var (b', first) := Consume(Python, target, b, taken[0]);
      TakeOne(target, b', taken[1..], x);
      assert (taken + [x])[1..] == taken[1..] + [x];
      var (c, out) := Consume(Python, target, BufferAfter(target, b, taken), x);
      var rest := ConsumeAll(Python, target, b', taken[1..]);
      assert first + (rest + out) == first + rest + out;
    }
  }

  lemma FlatMore(before: Bytes, outs: seq<Bytes>, out: Bytes)
    ensures before + Flat(outs + [out]) == before + Flat(outs) + out
  {
    FlatAppend(outs, [out]);
    assert Flat([out]) == out + [];
  }

  /** `outs` is what each turn of the loop wrote: one that wrote something that did not drain is
      the last, and makes the loop wait. */
  predicate StuckAtLast(outs: seq<Bytes>, drained: seq<bool>, waiting: bool) {
    && |outs| <= |drained|
    && forall j :: 0 <= j < |outs| ==> (outs[j] != [] && !drained[j] <==> j == |outs| - 1 && waiting)
  }

  lemma NothingStuck(drained: seq<bool>)
    ensures StuckAtLast([], drained, false)
  {
  }

  lemma StuckOrNot(outs: seq<Bytes>, drained: seq<bool>, out: Bytes)
    requires StuckAtLast(outs, drained, false) && |outs| < |drained|
    ensures StuckAtLast(outs + [out], drained, out != [] && !drained[|outs|])
  {
  }

  /** Taking an item from the inbox keeps the order of all that was fed. */
  lemma TakeItem(taken: seq<Bytes>, x: Bytes, inbox: seq<Option<Bytes>>)
    ensures Items(taken + [x]) + inbox == Items(taken) + ([Some(x)] + inbox)
    ensures |Flat(taken + [x])| == |Flat(taken)| + |x|
  {
    FlatAppend(taken, [x]);
    assert Flat([x]) == x + [];
  }

  /** A head buffer that is not done holds all it was given, and has released nothing. */
  lemma {:induction false} HoldsAll(target: Bytes, b: HeadBuffer, taken: seq<Bytes>)
    requires b.done ==> b.held == []
    ensures var c := BufferAfter(target, b, taken);
            && (c.done ==> c.held == [])
            && (!c.done ==> c.held == b.held + Flat(taken) && ConsumeAll(Python, target, b, taken) == []
                            && (taken == [] || HoldsBack(c.held)))
    decreases |taken|
  {
    hide RewriteHost;
    if taken == [] {
    } else {
      var (c, out) := Consume(Python, target, b, taken[0]);
      HoldsAll(target, c, taken[1..]);
      StaysDone(target, c, taken[1..]);
      if !b.done { assert b.held + (taken[0] + Flat(taken[1..])) == b.held + taken[0] + Flat(taken[1..]); }
    }
  }

  lemma StaysDone(target: Bytes, b: HeadBuffer, taken: seq<Bytes>)
    ensures b.done ==> BufferAfter(target, b, taken).done
    decreases |taken|
  {
    if taken != [] { StaysDone(target, Consume(Python, target, b, taken[0]).0, taken[1..]); }
  }

  lemma {:induction false} StillHeld(target: Bytes, held: Bytes, taken: seq<Bytes>)
    requires HoldsBack(held + Flat(taken))
    ensures BufferAfter(target, HeadBuffer(held, false), taken) == HeadBuffer(held + Flat(taken), false)
    ensures ConsumeAll(Python, target, HeadBuffer(held, false), taken) == []
    decreases |taken|
  {
    if taken == [] {
      assert held + [] == held;
    } else {
      var h, t := held + taken[0], held + Flat(taken);
      assert t == h + Flat(taken[1..]) && t[..|h|] == h;
      HeldPrefix(t, |h|);
      StillHeld(target, h, taken[1..]);
    }
  }

  /** The first Host line, if there is one, ends within what the head buffer takes. */
  predicate HostWithinLimit(t: Bytes) {
    var i := FindHost(Python, t, 0);
    i == |t| || (i + 5 <= |t| && LineEnd(t, i + 5) <= MAX_HEAD_BUFFER)
  }

  lemma AllHandedOver(target: Bytes, rewrites: bool, taken: seq<Bytes>, k: nat)
    ensures var (t, w) := (Flat(taken), HandedOver(target, HeadBuffer([], !rewrites), taken, true));
            && (!rewrites ==> w == t)
            && (rewrites && HoldsBack(t) ==> w == RewriteHost(Python, t, target))
            && (rewrites && HeadEnd(t, k) && k + 4 <= MAX_HEAD_BUFFER
                && (FindHost(Python, t, 0) < k || FindHost(Python, t, 0) == |t|)
                ==> w == RewriteHost(Python, t, target))
            && (rewrites && LongHead(t) && SplitsAgree(Python, target, t) ==> w == RewriteHost(Python, t, target))
  {
    var t, b := Flat(taken), HeadBuffer([], !rewrites);
    HoldsAll(target, b, taken);
    StaysDone(target, b, taken);
    assert [] + t == t;
    IndexOfTerminatorIsFirst(t, 0);
    if !rewrites { ConsumeRest(Python, target, taken); }
    else if HoldsBack(t) { StillHeld(target, [], taken); }
    else if LongHead(t) { LongHeadHolds(t, |t|); }
    else if HeadEnd(t, k) && k + 4 <= MAX_HEAD_BUFFER
            && (FindHost(Python, t, 0) < k || FindHost(Python, t, 0) == |t|) {
      RewriteIgnoresChunking(Python, target, taken, k);
    }
  }

  // ---- the two clients on one stream -------------------------------------------------

  /** Both clients hand the local service the same bytes, whatever the target and however
      the stream is split for either. */
  ghost predicate ClientsAgreeOn(t: Bytes) {
    forall target: Bytes, chunks: seq<Bytes>, other: seq<Bytes> :: Flat(chunks) == t && Flat(other) == t ==>
      ConsumeAll(Node, target, FRESH, chunks) == ConsumeAll(Python, target, FRESH, other)
  }

  /** The first Host line Node sees is in the head, and Python sees it, too; or there is none. */
  predicate OneLineForBoth(t: Bytes, k: nat) {
    var i := FindHost(Node, t, 0);
    i == |t| || (i < k && LineStart(Python, t, i))
  }

  lemma AgreeOnSplits(target: Bytes, chunks: seq<Bytes>, other: seq<Bytes>, k: nat)
    requires Flat(other) == Flat(chunks) && HeadEnd(Flat(chunks), k) && k + 4 <= MAX_HEAD_BUFFER
    requires OneLineForBoth(Flat(chunks), k)
    ensures ConsumeAll(Node, target, FRESH, chunks) == ConsumeAll(Python, target, FRESH, other)
  {
    hide FindHost, HeadEnd, RewriteHost, ConsumeAll, Flat;
    SameLine(Flat(chunks), target);
    RewriteIgnoresChunking(Node, target, chunks, k);
    RewriteIgnoresChunking(Python, target, other, k);
  }

  /** A stream that comes in one piece is rewritten as a whole. */
  lemma InOnePiece(rule: LineRule, target: Bytes, t: Bytes, k: nat)
    requires HeadEnd(t, k)
    ensures Flat([t, []]) == t && ConsumeAll(rule, target, FRESH, [t, []]) == RewriteHost(rule, t, target)
  {
    CutInTwo(rule, target, t, k, |t|);
    assert t[..|t|] == t && t[|t|..] == [];
  }

  /** Exactly when the two clients cannot be told apart on a stream whose head fits. */
  lemma ClientsAgreeOnStreamsIff(t: Bytes, k: nat)
    requires HeadEnd(t, k) && k + 4 <= MAX_HEAD_BUFFER
    ensures ClientsAgreeOn(t) <==> OneLineForBoth(t, k)
  {
    if OneLineForBoth(t, k) {
      forall target: Bytes, chunks: seq<Bytes>, other: seq<Bytes> | Flat(chunks) == t && Flat(other) == t
        ensures ConsumeAll(Node, target, FRESH, chunks) == ConsumeAll(Python, target, FRESH, other)
      {
        AgreeOnSplits(target, chunks, other, k);
      }
    }
    if ClientsAgreeOn(t) { AgreeingMeansOneLine(t, k); }
  }

  lemma AgreeingMeansOneLine(t: Bytes, k: nat)
    requires HeadEnd(t, k) && k + 4 <= MAX_HEAD_BUFFER && ClientsAgreeOn(t)
    ensures OneLineForBoth(t, k)
  {
    hide FindHost, HeadEnd, RewriteHost, ConsumeAll, Flat;
    var one := [t, []];
    forall target: Bytes ensures RewriteHost(Node, t, target) == RewriteHost(Python, t, target) {
      InOnePiece(Node, target, t, k);
      InOnePiece(Python, target, t, k);
      assert ConsumeAll(Node, target, FRESH, one) == ConsumeAll(Python, target, FRESH, one);
    }
    ClientsAgreeIff(t);
    InOnePiece(Node, [], t, k);
    forall chunks: seq<Bytes> | Flat(chunks) == t
      ensures ConsumeAll(Node, [], FRESH, chunks) == RewriteHost(Node, t, [])
    {
      assert ConsumeAll(Node, [], FRESH, chunks) == ConsumeAll(Python, [], FRESH, one);
      assert ConsumeAll(Node, [], FRESH, one) == ConsumeAll(Python, [], FRESH, one);
    }
    ChunkingIndependentIff(Node, [], t, k);
  }

  /** In particular they agree when the head has no bare CR and the first Host line. */
  lemma ClientsAgreeOnStreams(target: Bytes, chunks: seq<Bytes>, other: seq<Bytes>, k: nat)
    requires Flat(other) == Flat(chunks) && HeadEnd(Flat(chunks), k) && k + 4 <= MAX_HEAD_BUFFER
    requires FindHost(Node, Flat(chunks), 0) < k || FindHost(Node, Flat(chunks), 0) == |Flat(chunks)|
    requires NoBareCR(Flat(chunks)[..k + 4])
    ensures ConsumeAll(Node, target, FRESH, chunks) == ConsumeAll(Python, target, FRESH, other)
  {
    hide HeadEnd, ConsumeAll, Flat;
    var t := Flat(chunks);
    HeadFits(t, k);
    if FindHost(Node, t, 0) < |t| { NoCRBefore(t, k, FindHost(Node, t, 0)); }
    AgreeOnSplits(target, chunks, other, k);
  }

  lemma HeadFits(t: Bytes, k: nat)
    requires HeadEnd(t, k)
    ensures k + 4 <= |t|
  {
  }

  lemma NoCRBefore(t: Bytes, k: nat, i: nat)
    requires k + 4 <= |t| && NoBareCR(t[..k + 4]) && i < k && t[i] != LF
    ensures i > 0 ==> t[i - 1] != CR
  {
    if i > 0 { assert t[..k + 4][i - 1] == t[i - 1] && t[..k + 4][i] == t[i]; }
  }

  class Stream {
    const target: Bytes
    const rewrites: bool
    const window: int
    /** What is fed to the stream; None is the end. */
    var inbox: seq<Option<Bytes>>
    var headBuf: Bytes
    var headDone: bool
    /** The local socket: all it was written, and whether its sending half was closed. */
    var written: Bytes
    var halfClosed: bool
    /** The loop has come to its end. */
    var returned: bool
    var awaiting: Await
    var sendCredit: int
    /** The event `_to_server` waits for, and whether it is waiting. */
    var creditSet: bool
    var waiting: bool
    var sentEof: bool
    /** All that was read from the local socket. */
    ghost var read: Bytes
    ghost var granted: nat
    /** All items fed, those taken from the inbox, whether the end was among them, and all
        bytes acknowledged. */
    ghost var fed: seq<Option<Bytes>>
    ghost var taken: seq<Bytes>
    ghost var ended: bool
    ghost var acked: nat

    /** `_to_server` waits at once if it is given no window. */
    constructor (target: Bytes, window: int, rewrites: bool)
      ensures LoopOk() && fed == [] && written == [] && acked == 0 && !returned && !halfClosed && awaiting.Nothing?
      ensures this.target == target && this.window == window && this.rewrites == rewrites
      ensures CreditOk() && SourceView() == Source(window, window <= 0, false, false, [], window > 0)
      ensures !creditSet == waiting
    {
      this.target, this.window, this.rewrites, granted := target, window, rewrites, 0;
      awaiting, fed, taken, ended, acked, halfClosed := Nothing, [], [], false, 0, false;
      inbox, headBuf, headDone, written, returned := [], [], !rewrites, [], false;
      sendCredit, creditSet, waiting, sentEof, read := window, window > 0, window <= 0, false, [];
    }

    // ---- server -> local ----

    function Buffer(): HeadBuffer
      reads `headBuf, `headDone
    {
      HeadBuffer(headBuf, headDone)
    }

    /** What the pump has done so far, whatever was fed and however the local socket drained:
        it took the items in order, wrote exactly what the head buffer released for them, and
        acknowledged all bytes but those of a payload that has not drained. */
    ghost predicate LoopOk()
      reads `inbox, `headBuf, `headDone, `written, `halfClosed, `returned, `awaiting, `fed, `taken, `ended, `acked
    {
      && fed == Items(taken) + (if ended then [None] else []) + inbox
      && (!ended ==> Buffer() == BufferAfter(target, HeadBuffer([], !rewrites), taken))
      && written == HandedOver(target, HeadBuffer([], !rewrites), taken, ended)
      && acked + (if awaiting.Payload? then awaiting.consumed else 0) == |Flat(taken)|
      && (ended <==> returned || awaiting.LastHead?) && (returned ==> awaiting.Nothing?)
      && (halfClosed ==> returned) && (headDone || awaiting.Payload? || ended ==> headBuf == [])
    }

    method Feed(item: Option<Bytes>)
      requires LoopOk()
      modifies `inbox, `fed
      ensures LoopOk() && fed == old(fed) + [item] && inbox == old(inbox) + [item]
    {
      inbox := inbox + [item];
      fed := fed + [item];
    }

    /** The loop, until it has to wait: for the next item, or for a write to drain, or for
        nothing any more. `drained` tells of each item whether a write for it goes through at
        once, `writesEof` whether the socket can be half-closed and this does not fail; `outs`
        is what each turn wrote. A turn is the last one exactly if what it wrote does not go
        through. */
    method ToLocal(drained: seq<bool>, writesEof: bool) returns (sent: seq<Msg>, ghost outs: seq<Bytes>)
      requires LoopOk() && awaiting.Nothing? && !returned && |drained| >= |inbox|
      modifies `inbox, `headBuf, `headDone, `written, `halfClosed, `returned, `awaiting, `taken, `ended, `acked
      ensures LoopOk() && fed == old(fed)
      ensures acked == old(acked) + AckSum(sent)
      ensures inbox == [] || returned || !awaiting.Nothing?
      ensures halfClosed == (returned && writesEof)
      ensures |outs| <= |old(inbox)| && inbox == old(inbox)[|outs|..] && written == old(written) + Flat(outs)
      ensures StuckAtLast(outs, drained, !awaiting.Nothing?)
    {
      assert !halfClosed && Flat([]) == [] && AckSum([]) == 0;
      hide LoopOk, Consume, Flat, AckSum, StuckAtLast;
      sent, outs := [], [];
      NothingStuck(drained);
      assert written + [] == written;
      var i := 0;
      while inbox != [] && awaiting.Nothing? && !returned
        invariant LoopOk() && i == |outs| && i + |inbox| == |old(inbox)| && acked == old(acked) + AckSum(sent)
        invariant halfClosed == (returned && writesEof)
        invariant inbox == old(inbox)[i..] && written == old(written) + Flat(outs)
        invariant StuckAtLast(outs, drained, !awaiting.Nothing?)
        decreases |inbox|
      {
        var more;
        ghost var out;
        more, out := TakeNext(drained[i], writesEof);
        AckSumAppend(sent, more);
        FlatMore(old(written), outs, out);
        StuckOrNot(outs, drained, out);
        sent, outs := sent + more, outs + [out];
        i := i + 1;
      }
    }

    /** One turn of the loop: it waits exactly for what it wrote and does not go through, and
        acknowledges a payload at once otherwise. */
    method TakeNext(drained: bool, writesEof: bool) returns (sent: seq<Msg>, ghost out: Bytes)
      requires LoopOk() && inbox != [] && awaiting.Nothing? && !returned
      modifies `inbox, `headBuf, `headDone, `written, `halfClosed, `returned, `awaiting, `taken, `ended, `acked
      ensures LoopOk() && inbox == old(inbox)[1..] && acked == old(acked) + AckSum(sent)
      ensures halfClosed == (returned && writesEof)
      ensures written == old(written) + out && (awaiting.Nothing? <==> out == [] || drained)
      ensures old(inbox)[0].Some? ==>
        if awaiting.Nothing? then sent == [Ack(|old(inbox)[0].value|)]
        else sent == [] && awaiting == Payload(|old(inbox)[0].value|)
    {
      hide ConsumeAll, BufferAfter, RewriteHost, Items, Flat;
      var item := inbox[0];
      sent := [];
      if item.None? {
        out := EndOfStream(drained, writesEof);
        return;
      }
      var consumed := |item.value|;
      var waits;
      waits, out := HandOver(item.value, drained);
      if waits {
        awaiting := Payload(consumed);
        return;
      }
      sent := Acknowledge(consumed);
    }

    method Acknowledge(consumed: nat) returns (sent: seq<Msg>)
      modifies `acked
      ensures sent == [Ack(consumed)] && acked == old(acked) + consumed && AckSum(sent) == consumed
    {
      acked := acked + consumed;
      sent := [Ack(consumed)];
      assert sent[1..] == [];
    }

    /** The end of the stream: a head still held back goes out first. */
    method EndOfStream(drained: bool, writesEof: bool) returns (ghost out: Bytes)
      requires LoopOk() && inbox != [] && inbox[0].None? && !returned && awaiting.Nothing?
      modifies `inbox, `headBuf, `headDone, `written, `halfClosed, `returned, `awaiting, `ended
      ensures LoopOk() && ended && inbox == old(inbox)[1..]
      ensures returned == (old(headBuf) == [] || drained) && halfClosed == (returned && writesEof)
      ensures written == old(written) + out && (awaiting.Nothing? <==> out == [] || drained)
    {
      hide ConsumeAll, BufferAfter, RewriteHost, Items, Flat;
      assert Items(taken) + [] + inbox == Items(taken) + [None] + inbox[1..];
      inbox := inbox[1..];
      ended := true;
      out := [];
      if headBuf != [] {
        RewrittenIsSome(Python, headBuf, target);
        out := RewriteHost(Python, headBuf, target);
        written := written + RewriteHost(Python, headBuf, target);
        headBuf := [];
        headDone := true;
        if !drained {
          awaiting := LastHead;
          return;
        }
      }
      halfClosed, returned := writesEof, true;
    }

    /** Hands one payload to the head buffer and what that releases to the socket. */
    method HandOver(item: Bytes, drained: bool) returns (waits: bool, ghost released: Bytes)
      requires LoopOk() && inbox != [] && inbox[0] == Some(item) && !returned && awaiting.Nothing?
      modifies `inbox, `headBuf, `headDone, `written, `taken
      ensures inbox == old(inbox)[1..] && taken == old(taken) + [item]
      ensures headDone || waits ==> headBuf == []
      ensures written == old(written) + released && waits == (released != [] && !drained)
      ensures fed == Items(taken) + inbox && |Flat(taken)| == acked + |item|
      ensures Buffer() == BufferAfter(target, HeadBuffer([], !rewrites), taken)
      ensures written == HandedOver(target, HeadBuffer([], !rewrites), taken, false)
    {
      hide Consume, Flat, ConsumeAll, BufferAfter, Leftover;
      TakeOne(target, HeadBuffer([], !rewrites), taken, item);
      TakeItem(taken, item, inbox[1..]);
      assert inbox == [Some(item)] + inbox[1..];
      inbox := inbox[1..];
      taken := taken + [item];
      var out := Release(item);
      released := out;
      if out != [] { written := written + out; }
      waits := out != [] && !drained;
    }

    method Release(item: Bytes) returns (out: Bytes)
      requires headDone ==> headBuf == []
      modifies `headBuf, `headDone
      ensures headDone || out != [] ==> headBuf == []
      ensures (Buffer(), out) == Consume(Python, target, old(Buffer()), item)
    {
      out := item;
      if !headDone { out := BufferHead(item); }
    }

    /** The acknowledgements run ahead of the local socket exactly while a head is held back;
        then nothing has been written, and they are ahead by all there was, which is less than
        the buffer takes. */
    lemma EarlyAckIff()
      requires LoopOk()
      ensures acked > |Flat(taken)| - |headBuf| <==> headBuf != []
      ensures headBuf != [] ==> rewrites && written == [] && headBuf == Flat(taken) && acked == |headBuf|
      ensures |headBuf| < MAX_HEAD_BUFFER
    {
      hide RewriteHost, ConsumeAll, BufferAfter, Items;
      assert [] + Flat(taken) == Flat(taken);
      HoldsAll(target, HeadBuffer([], !rewrites), taken);
      StaysDone(target, HeadBuffer([], !rewrites), taken);
    }

    /** Nothing is lost: once the end was taken, the socket was written all that was fed, as it
        came, or with its Host line replaced: of a request that is over before its head is
        complete, of one whose head fits and has its first Host line in it or none, and of one
        whose head does not fit but has that line within the limit. */
    lemma NothingIsLost(k: nat)
      requires LoopOk() && ended
      ensures !rewrites ==> written == Flat(taken)
      ensures rewrites && HoldsBack(Flat(taken)) ==> written == RewriteHost(Python, Flat(taken), target)
      ensures rewrites && HeadEnd(Flat(taken), k) && k + 4 <= MAX_HEAD_BUFFER
              && (FindHost(Python, Flat(taken), 0) < k || FindHost(Python, Flat(taken), 0) == |Flat(taken)|)
              ==> written == RewriteHost(Python, Flat(taken), target)
      ensures rewrites && LongHead(Flat(taken)) && HostWithinLimit(Flat(taken)) ==>
        written == RewriteHost(Python, Flat(taken), target)
    {
      hide FindHost, LineEnd, HeadEnd, LongHead, SplitsAgree, RewriteHost, Flat, HoldsBack, HandedOver;
      AllHandedOver(target, rewrites, taken, k);
      if LongHead(Flat(taken)) { LongHeadIndependentIff(Python, target, Flat(taken)); }
    }

    /** The local socket has drained: the loop goes on where it was waiting. */
    method Drained(writesEof: bool) returns (sent: seq<Msg>)
      requires LoopOk() && !awaiting.Nothing?
      modifies `halfClosed, `returned, `awaiting, `acked
      ensures LoopOk() && awaiting.Nothing? && acked == old(acked) + AckSum(sent)
      ensures returned == old(awaiting).LastHead? && halfClosed == (returned && writesEof)
    {
      var was := awaiting;
      awaiting := Nothing;
      if was.LastHead? {
        halfClosed, returned := writesEof, true;
        return [];
      }
      sent := Acknowledge(was.consumed);
    }

    /** Adds `chunk` to the head, and releases it, its Host replaced, once it is due. */
    method BufferHead(chunk: Bytes) returns (out: Bytes)
      requires !headDone
      modifies `headBuf, `headDone
      ensures (Buffer(), out) == Consume(Python, target, old(Buffer()), chunk)
      ensures headDone || out != [] ==> headBuf == []
    {
      headBuf := headBuf + chunk;
      if IndexOfTerminator(headBuf, 0) != -1 || |headBuf| >= MAX_HEAD_BUFFER {
        out := RewriteHost(Python, headBuf, target);
        headBuf := [];
        headDone := true;
        return;
      }
      return [];
    }

    // ---- local -> server ----

    /** A loop that waits for an event already set is about to read on. */
    ghost function SourceView(): Source
      reads `sendCredit, `creditSet, `waiting, `sentEof, `read
    {
      Source(sendCredit, waiting && !creditSet, false, sentEof, read, !(waiting && !creditSet))
    }

    /** The stream's sending half, as an end of Endpoint. */
    ghost function View(): End
      reads `sendCredit, `creditSet, `waiting, `sentEof, `read
    {
      NewEnd(Role(true, false, []), 0).(connected := true, src := SourceView())
    }

    /** The loop never runs further into debt than one read, and it waits exactly while it
        has no credit. */
    ghost predicate CreditOk()
      reads `sendCredit, `creditSet, `waiting, `sentEof, `read, `granted
    {
      && sendCredit == window + granted - |read|
      && (sendCredit >= window || sendCredit > -LOCAL_READ_CHUNK)
      && (waiting && !sentEof ==> (creditSet <==> sendCredit > 0))
      && (!waiting && !sentEof ==> sendCredit > 0)
    }

    /** The top of the loop. */
    method Turn()
      requires waiting ==> creditSet
      modifies `creditSet, `waiting
      ensures waiting == (sendCredit <= 0) && (waiting ==> !creditSet) && (!waiting ==> creditSet == old(creditSet))
    {
      waiting := false;
      if sendCredit <= 0 {
        creditSet := false;
        waiting := true;
      }
    }

    /** The loop goes on once the event is set; nothing has used the credit up meanwhile. */
    method Wake()
      requires CreditOk() && waiting && creditSet
      modifies `waiting
      ensures CreditOk() && !waiting && View() == old(View()) && (!sentEof ==> sendCredit > 0)
    {
      waiting := false;
    }

    /** One `read`, which returns at most LOCAL_READ_CHUNK bytes, and nothing at the end. */
    method OnRead(chunk: Bytes) returns (sent: seq<Msg>)
      requires CreditOk() && !waiting && !sentEof && |chunk| <= LOCAL_READ_CHUNK
      modifies `sendCredit, `creditSet, `waiting, `sentEof, `read
      ensures CreditOk()
      ensures Out(View(), sent) == if chunk == [] then OnEnded(old(View())) else OnChunk(old(View()), chunk)
    {
      if chunk == [] {
        sentEof := true;
        return [Eof];
      }
      read := read + chunk;
      sendCredit := sendCredit - |chunk|;
      sent := [Data(chunk)];
      Turn();
    }

    method AddCredit(bytes: nat)
      requires CreditOk()
      modifies `sendCredit, `creditSet, `granted
      ensures CreditOk() && granted == old(granted) + bytes && (!sentEof ==> View() == OnAck(old(View()), bytes).e)
    {
      granted := granted + bytes;
      sendCredit := sendCredit + bytes;
      if sendCredit > 0 { creditSet := true; }
    }
  }
}
