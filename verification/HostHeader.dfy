/** The request head on the agent's side: it is held back until it is complete, then its
    first Host line is replaced (Host field: section 7.2 of RFC 9110). */
module HostHeader {
  import opened Frames

  const CR: byte := 13
  const LF: byte := 10
  const HOST_PREFIX: Bytes := [72, 111, 115, 116, 58, 32]  // "Host: "
  const MAX_HEAD_BUFFER: nat := 32768

  /** A multi-line `^` starts a line after CR or LF in JavaScript, only after LF in Python. */
  datatype LineRule = Node | Python

  predicate TerminatorAt(h: Bytes, k: int) {
    0 <= k && k + 4 <= |h| && h[k] == CR && h[k + 1] == LF && h[k + 2] == CR && h[k + 3] == LF
  }

  /** `k` is the index of the first head terminator of `h`. */
  ghost predicate HeadEnd(h: Bytes, k: nat) {
    TerminatorAt(h, k) && forall j :: 0 <= j < k ==> !TerminatorAt(h, j)
  }

  /** Index of the first terminator at or after `from`, or -1. */
  function IndexOfTerminator(h: Bytes, from: nat): int
    decreases |h| - from
  {
    if from + 4 > |h| then -1
    else if TerminatorAt(h, from) then from
    else IndexOfTerminator(h, from + 1)
  }

  lemma {:induction false} IndexOfTerminatorIsFirst(h: Bytes, from: nat)
    ensures var r := IndexOfTerminator(h, from);
            && (r == -1 || (from <= r && TerminatorAt(h, r)))
            && (forall j :: from <= j && (r == -1 || j < r) ==> !TerminatorAt(h, j))
    decreases |h| - from
  {
    if from + 4 <= |h| && !TerminatorAt(h, from) { IndexOfTerminatorIsFirst(h, from + 1); }
  }

  function LowerByte(b: byte): byte {
    if 65 <= b <= 90 then b + 32 else b
  }

  predicate HostAt(h: Bytes, i: int) {
    && 0 <= i && i + 5 <= |h|
    && LowerByte(h[i]) == 104 && LowerByte(h[i + 1]) == 111 && LowerByte(h[i + 2]) == 115 && LowerByte(h[i + 3]) == 116
    && h[i + 4] == 58
  }

  predicate LineStart(rule: LineRule, h: Bytes, i: int)
    requires 0 <= i <= |h|
  {
    i == 0 || h[i - 1] == LF || (rule.Node? && h[i - 1] == CR)
  }

  predicate HostLineAt(rule: LineRule, h: Bytes, i: int) {
    HostAt(h, i) && LineStart(rule, h, i)
  }

  /** Start of the first Host line at or after `from`, or `|h|` when there is none. */
  function FindHost(rule: LineRule, h: Bytes, from: nat): (r: nat)
    requires from <= |h|
    ensures from <= r <= |h|
    ensures r < |h| ==> HostLineAt(rule, h, r)
    decreases |h| - from
  {
    if from == |h| then from
    else if HostLineAt(rule, h, from) then from
    else FindHost(rule, h, from + 1)
  }

  lemma {:induction false} FindHostIsFirst(rule: LineRule, h: Bytes, from: nat)
    requires from <= |h|
    ensures forall i :: from <= i < FindHost(rule, h, from) ==> !HostLineAt(rule, h, i)
    decreases |h| - from
  {
    if from < |h| && !HostLineAt(rule, h, from) { FindHostIsFirst(rule, h, from + 1); }
  }

  lemma FindHostIs(rule: LineRule, h: Bytes, i: nat)
    requires i <= |h| && (i < |h| ==> HostLineAt(rule, h, i))
    requires forall j :: 0 <= j < i ==> !HostLineAt(rule, h, j)
    ensures FindHost(rule, h, 0) == i
  {
    FindHostIsFirst(rule, h, 0);
  }

  predicate Breaks(h: Bytes, i: int) {
    0 <= i < |h| && (h[i] == CR || h[i] == LF)
  }

  /** End of the line that `from` lies on: the next CR or LF, or the end of `h`. */
  function LineEnd(h: Bytes, from: nat): (r: nat)
    requires from <= |h|
    ensures from <= r <= |h|
    ensures r < |h| ==> Breaks(h, r)
    decreases |h| - from
  {
    if from == |h| || Breaks(h, from) then from else LineEnd(h, from + 1)
  }

  lemma {:induction false} LineEndIsFirst(h: Bytes, from: nat)
    requires from <= |h|
    ensures forall i :: from <= i < LineEnd(h, from) ==> !Breaks(h, i)
    decreases |h| - from
  {
    if from < |h| && !Breaks(h, from) { LineEndIsFirst(h, from + 1); }
  }

  /** Replaces the first Host line of `h`; everything else stays byte for byte. */
  function RewriteHost(rule: LineRule, h: Bytes, target: Bytes): Bytes {
    var i := FindHost(rule, h, 0);
    if i == |h| then h else h[..i] + HOST_PREFIX + target + h[LineEnd(h, i + 5)..]
  }

  predicate OneLine(b: Bytes) {
    forall i :: 0 <= i < |b| ==> b[i] != CR && b[i] != LF
  }

  /** A rewritten head has its first Host line where it was, with exactly the new value, so
      that rewriting it again is rewriting the original. */
  lemma RewriteTwice(rule: LineRule, h: Bytes, target: Bytes, other: Bytes)
    requires OneLine(target)
    ensures RewriteHost(rule, RewriteHost(rule, h, target), other) == RewriteHost(rule, h, other)
    ensures |RewriteHost(rule, h, target)| <= |h| + |target| + 1
  {
    hide FindHost, LineEnd, OneLine, RewriteHost;
    var i := FindHost(rule, h, 0);
    RewriteIs(rule, h, target);
    RewriteIs(rule, h, other);
    RewriteIs(rule, RewriteHost(rule, h, target), other);
    if i < |h| {
      var e, f, g := LineEnd(h, i + 5), i + 6 + |target|, RewriteHost(rule, h, target);
      Slices(h[..i], target, h[e..]);
      RewrittenLine(rule, h, g, i);
      RewrittenEnd(h, g, e, f, i, target);
    }
  }

  lemma RewriteIs(rule: LineRule, h: Bytes, target: Bytes)
    ensures var i := FindHost(rule, h, 0);
            RewriteHost(rule, h, target)
            == if i == |h| then h else h[..i] + HOST_PREFIX + target + h[LineEnd(h, i + 5)..]
  {
  }

  lemma Slices(a: Bytes, target: Bytes, c: Bytes)
    ensures var g, f := a + HOST_PREFIX + target + c, |a| + 6 + |target|;
            && |g| == f + |c| && g[..|a|] == a && g[f..] == c
            && g[|a|..|a| + 6] == HOST_PREFIX && g[|a|..f] == HOST_PREFIX + target
  {
  }

  lemma SameHead(rule: LineRule, h: Bytes, g: Bytes, i: nat, j: nat)
    requires j + 5 <= i <= |h| && i <= |g| && g[..i] == h[..i]
    ensures HostLineAt(rule, g, j) <==> HostLineAt(rule, h, j)
  {
    assert forall n :: 0 <= n < i ==> g[n] == g[..i][n] && h[n] == h[..i][n];
  }

  /** No Host line reaches over a line start. */
  lemma Straddles(rule: LineRule, h: Bytes, g: Bytes, i: nat, j: nat)
    requires j < i < j + 5 && i <= |h| && i <= |g| && g[..i] == h[..i] && LineStart(rule, h, i)
    ensures !HostAt(g, j)
  {
    assert g[i - 1] == g[..i][i - 1] == h[i - 1];
  }

  lemma NewLine(rule: LineRule, h: Bytes, g: Bytes, i: nat)
    requires HostLineAt(rule, h, i) && i + 6 <= |g| && g[..i] == h[..i] && g[i..i + 6] == HOST_PREFIX
    ensures HostLineAt(rule, g, i)
  {
    var p := g[i..i + 6];
    assert g[i] == p[0] && g[i + 1] == p[1] && g[i + 2] == p[2] && g[i + 3] == p[3] && g[i + 4] == p[4];
    assert p[0] == 72 && p[1] == 111 && p[2] == 115 && p[3] == 116 && p[4] == 58;
    assert HostAt(g, i);
    if i > 0 { assert g[i - 1] == g[..i][i - 1] == h[i - 1]; }
  }

  lemma RewrittenLine(rule: LineRule, h: Bytes, g: Bytes, i: nat)
    requires i == FindHost(rule, h, 0) < |h| && i + 6 <= |g| && g[..i] == h[..i] && g[i..i + 6] == HOST_PREFIX
    ensures FindHost(rule, g, 0) == i
  {
    FindHostIsFirst(rule, h, 0);
    forall j | 0 <= j < i ensures !HostLineAt(rule, g, j) {
      if j + 5 <= i {
        SameHead(rule, h, g, i, j);
      } else {
        Straddles(rule, h, g, i, j);
      }
    }
    NewLine(rule, h, g, i);
    hide FindHost;
    FindHostIs(rule, g, i);
  }

  lemma RewrittenEnd(h: Bytes, g: Bytes, e: nat, f: nat, i: nat, target: Bytes)
    requires i + 5 <= |h| && e == LineEnd(h, i + 5) && OneLine(target) && f == i + 6 + |target| <= |g|
    requires g[f..] == h[e..] && g[i..f] == HOST_PREFIX + target
    ensures LineEnd(g, i + 5) == f
  {
    LineEndIsFirst(g, i + 5);
    var r := LineEnd(g, i + 5);
    assert forall j :: i + 5 <= j < f ==> g[j] == g[i..f][j - i];
    assert |g[f..]| == |h[e..]|;
    if e < |h| { assert g[f] == g[f..][0] == h[e..][0] && Breaks(g, f); }
    assert !(r < f);
  }

  // ---- holding the head back --------------------------------------------------------

  /** The condition under which buffered bytes stay buffered. */
  predicate HoldsBack(h: Bytes) {
    IndexOfTerminator(h, 0) == -1 && |h| < MAX_HEAD_BUFFER
  }

  datatype HeadBuffer = HeadBuffer(held: Bytes, done: bool)

  /** What one chunk makes the head buffer release, and the buffer after it. */
  function Consume(rule: LineRule, target: Bytes, b: HeadBuffer, chunk: Bytes): (HeadBuffer, Bytes) {
    if b.done then (b, chunk)
    else if HoldsBack(b.held + chunk) then (HeadBuffer(b.held + chunk, false), [])
    else (HeadBuffer([], true), RewriteHost(rule, b.held + chunk, target))
  }

  /** All bytes released while `chunks` arrive one after the other. */
  function ConsumeAll(rule: LineRule, target: Bytes, b: HeadBuffer, chunks: seq<Bytes>): Bytes
    decreases |chunks|
  {
    if chunks == [] then []
    else
      var (b', out) := Consume(rule, target, b, chunks[0]);
      out + ConsumeAll(rule, target, b', chunks[1..])
  }

  const FRESH := HeadBuffer([], false)

  // ---- chunking independence --------------------------------------------------------

  /** A terminator inside a prefix is a terminator of the whole, at the same place. */
  lemma TerminatorPrefix(t: Bytes, n: nat, k: int)
    requires n <= |t|
    ensures TerminatorAt(t[..n], k) <==> TerminatorAt(t, k) && k + 4 <= n
  {
  }

  /** What is held back was held back all along. */
  lemma HeldPrefix(t: Bytes, n: nat)
    requires n <= |t|
    ensures HoldsBack(t) ==> HoldsBack(t[..n])
  {
    IndexOfTerminatorIsFirst(t, 0);
    IndexOfTerminatorIsFirst(t[..n], 0);
    if IndexOfTerminator(t[..n], 0) >= 0 { TerminatorPrefix(t, n, IndexOfTerminator(t[..n], 0)); }
  }

  lemma RewrittenIsSome(rule: LineRule, h: Bytes, target: Bytes)
    requires h != []
    ensures RewriteHost(rule, h, target) != []
  {
  }

  /** Cutting the stream behind the head leaves the first Host line of the head alone. */
  lemma HostOfPrefix(rule: LineRule, t: Bytes, k: nat, n: nat)
    requires HeadEnd(t, k) && k + 4 <= n <= |t|
    ensures FindHost(rule, t, 0) < k ==>
      FindHost(rule, t[..n], 0) == FindHost(rule, t, 0) &&
      LineEnd(t[..n], FindHost(rule, t, 0) + 5) == LineEnd(t, FindHost(rule, t, 0) + 5) <= k
    ensures FindHost(rule, t, 0) >= k ==> FindHost(rule, t, 0) >= k + 4
    ensures FindHost(rule, t, 0) >= n ==> FindHost(rule, t[..n], 0) == n
  {
    var p, i := t[..n], FindHost(rule, t, 0);
    FindHostIsFirst(rule, t, 0);
    FindHostIsFirst(rule, p, 0);
    assert forall j :: HostLineAt(rule, p, j) ==> HostLineAt(rule, t, j);
    if i < k {
      LineEndOfPrefix(rule, t, k, n, i);
      FindHostIs(rule, p, i);
    }
  }

  lemma LineEndOfPrefix(rule: LineRule, t: Bytes, k: nat, n: nat, i: nat)
    requires HeadEnd(t, k) && k + 4 <= n <= |t| && i < k && HostLineAt(rule, t, i)
    ensures i + 5 <= k && HostLineAt(rule, t[..n], i)
    ensures LineEnd(t[..n], i + 5) == LineEnd(t, i + 5) <= k
  {
    var p := t[..n];
    assert k != i && k != i + 1 && k != i + 2 && k != i + 3 && k != i + 4;
    LineEndIsFirst(t, i + 5);
    LineEndIsFirst(p, i + 5);
    var e, e' := LineEnd(t, i + 5), LineEnd(p, i + 5);
    assert Breaks(t, k) && Breaks(p, k);
    assert Breaks(p, e) && Breaks(t, e');
  }

  /** The first Host line of `t`, where the cut at `n` leaves it whole. */
  lemma WholeLineInPrefix(rule: LineRule, t: Bytes, n: nat, target: Bytes)
    requires n <= |t| && var i := FindHost(rule, t, 0); i == |t| || (i + 5 <= |t| && LineEnd(t, i + 5) <= n)
    ensures RewriteHost(rule, t[..n], target) + t[n..] == RewriteHost(rule, t, target)
  {
    hide FindHost, LineEnd, HostLineAt, RewriteHost;
    RewriteIs(rule, t, target);
    RewriteIs(rule, t[..n], target);
    var p, i := t[..n], FindHost(rule, t, 0);
    NoNewLines(rule, t, n);
    if i < |t| {
      var e := LineEnd(t, i + 5);
      FindHostIs(rule, p, i);
      LineEndCut(t, n, i + 5);
      CutBehind(t, n, i, e, target);
    } else {
      FindHostIs(rule, p, n);
      assert p + t[n..] == t;
    }
  }

  lemma CutBehind(t: Bytes, n: nat, i: nat, e: nat, target: Bytes)
    requires i <= e <= n <= |t|
    ensures (t[..n][..i] + HOST_PREFIX + target + t[..n][e..]) + t[n..] == t[..i] + HOST_PREFIX + target + t[e..]
  {
    assert t[..n][..i] == t[..i] && t[..n][e..] + t[n..] == t[e..];
    Associate(t[..i] + HOST_PREFIX + target, t[..n][e..], t[n..]);
  }

  lemma Associate(a: Bytes, b: Bytes, c: Bytes)
    ensures a + b + c == a + (b + c)
  {
  }

  lemma NoNewLines(rule: LineRule, t: Bytes, n: nat)
    requires n <= |t|
    ensures forall j :: 0 <= j < FindHost(rule, t, 0) ==> !HostLineAt(rule, t[..n], j)
    ensures var i := FindHost(rule, t, 0); i < |t| && i + 5 <= n ==> HostLineAt(rule, t[..n], i)
  {
    FindHostIsFirst(rule, t, 0);
    assert forall j :: HostLineAt(rule, t[..n], j) ==> HostLineAt(rule, t, j);
  }

  lemma LineEndCut(t: Bytes, n: nat, from: nat)
    requires from <= n <= |t|
    ensures LineEnd(t[..n], from) == if LineEnd(t, from) <= n then LineEnd(t, from) else n
  {
    LineEndIsFirst(t, from);
    LineEndIsFirst(t[..n], from);
    var e, f := LineEnd(t, from), LineEnd(t[..n], from);
    assert f < n ==> Breaks(t, f);
    assert e < n ==> Breaks(t[..n], e);
  }

  lemma {:induction false} RewriteOfPrefix(rule: LineRule, t: Bytes, k: nat, n: nat, target: Bytes)
    requires HeadEnd(t, k) && k + 4 <= n <= |t|
    requires FindHost(rule, t, 0) < k || FindHost(rule, t, 0) == |t|
    ensures RewriteHost(rule, t[..n], target) + t[n..] == RewriteHost(rule, t, target)
  {
    HostOfPrefix(rule, t, k, n);
    hide FindHost, LineEnd, RewriteHost, HeadEnd;
    WholeLineInPrefix(rule, t, n, target);
  }

  /** Once the head went out, every chunk goes out as it came. */
  lemma {:induction false} ConsumeRest(rule: LineRule, target: Bytes, chunks: seq<Bytes>)
    ensures ConsumeAll(rule, target, HeadBuffer([], true), chunks) == Flat(chunks)
  {
    if chunks != [] { ConsumeRest(rule, target, chunks[1..]); }
  }

  /** Whatever the chunking, the stream is cut once, somewhere behind its head. */
  lemma {:induction false} ConsumeCuts(rule: LineRule, target: Bytes, held: Bytes, chunks: seq<Bytes>, t: Bytes, k: nat)
    returns (n: nat)
    requires t == held + Flat(chunks) && HeadEnd(t, k) && k + 4 <= MAX_HEAD_BUFFER
    requires HoldsBack(held)
    decreases |chunks|
    ensures k + 4 <= n <= |t|
    ensures ConsumeAll(rule, target, HeadBuffer(held, false), chunks) == RewriteHost(rule, t[..n], target) + t[n..]
  {
    assert chunks != [] by {
      IndexOfTerminatorIsFirst(held, 0);
      assert held + [] == held;
    }
    var h := held + chunks[0];
    assert t == h + Flat(chunks[1..]);
    IndexOfTerminatorIsFirst(h, 0);
    if HoldsBack(h) {
      n := ConsumeCuts(rule, target, h, chunks[1..], t, k);
    } else {
      n := |h|;
      assert t[..n] == h && t[n..] == Flat(chunks[1..]);
      if n < k + 4 {
        TerminatorPrefix(t, n, IndexOfTerminator(h, 0));
      }
      ConsumeRest(rule, target, chunks[1..]);
    }
  }

  /** Every split of a stream whose head carries its only Host line, or that carries none,
      reaches the local service as the same bytes: that one line replaced. */
  lemma {:induction false} RewriteIgnoresChunking(rule: LineRule, target: Bytes, chunks: seq<Bytes>, k: nat)
    requires HeadEnd(Flat(chunks), k) && k + 4 <= MAX_HEAD_BUFFER
    requires FindHost(rule, Flat(chunks), 0) < k || FindHost(rule, Flat(chunks), 0) == |Flat(chunks)|
    ensures ConsumeAll(rule, target, FRESH, chunks) == RewriteHost(rule, Flat(chunks), target)
  {
    var t := Flat(chunks);
    assert [] + t == t;
    var n := ConsumeCuts(rule, target, [], chunks, t, k);
    RewriteOfPrefix(rule, t, k, n, target);
  }

  lemma {:induction false} CutInTwo(rule: LineRule, target: Bytes, t: Bytes, k: nat, n: nat)
    requires HeadEnd(t, k) && k + 4 <= n <= |t|
    ensures Flat([t[..n], t[n..]]) == t
    ensures ConsumeAll(rule, target, FRESH, [t[..n], t[n..]]) == RewriteHost(rule, t[..n], target) + t[n..]
  {
    var cs := [t[..n], t[n..]];
    assert cs[1..] == [t[n..]];
    assert Flat([t[n..]]) == t[n..];
    assert t[..n] + t[n..] == t;
    assert FRESH.held + cs[0] == t[..n];
    TerminatorPrefix(t, n, k);
    IndexOfTerminatorIsFirst(t[..n], 0);
    assert !HoldsBack(t[..n]);
    ConsumeRest(rule, target, [t[n..]]);
  }

  /** A first Host line behind the head is rewritten by one split and not by another. */
  lemma {:induction false} CutsDiffer(rule: LineRule, target: Bytes, t: Bytes, k: nat)
    requires HeadEnd(t, k) && k + 4 <= MAX_HEAD_BUFFER && k <= FindHost(rule, t, 0) < |t|
    ensures var i := FindHost(rule, t, 0);
            && k + 4 <= i && i + 5 <= |t|
            && Flat([t[..k + 4], t[k + 4..]]) == Flat([t[..i + 5], t[i + 5..]]) == t
            && ConsumeAll(rule, target, FRESH, [t[..k + 4], t[k + 4..]])
               != ConsumeAll(rule, target, FRESH, [t[..i + 5], t[i + 5..]])
  {
    var i := FindHost(rule, t, 0);
    HostOfPrefix(rule, t, k, k + 4);
    CutInTwo(rule, target, t, k, k + 4);
    CutInTwo(rule, target, t, k, i + 5);
    HostAtTheCut(rule, target, t, i);
    assert RewriteHost(rule, t[..k + 4], target) == t[..k + 4];
  }

  /** Cut right behind the `Host:` of its first Host line, the stream loses its old value. */
  lemma HostAtTheCut(rule: LineRule, target: Bytes, t: Bytes, i: nat)
    requires i == FindHost(rule, t, 0) < |t|
    ensures i + 5 <= |t| && |RewriteHost(rule, t[..i + 5], target)| == i + 6 + |target|
  {
    var p := t[..i + 5];
    FindHostIsFirst(rule, t, 0);
    assert forall j :: HostLineAt(rule, p, j) ==> HostLineAt(rule, t, j);
    FindHostIs(rule, p, i);
  }

  /** Exactly when the bytes that reach the local service do not depend on how the
      network happened to split the stream: no Host line starts behind the head unless
      the head has one before it. */
  lemma {:induction false} ChunkingIndependentIff(rule: LineRule, target: Bytes, t: Bytes, k: nat)
    requires HeadEnd(t, k) && k + 4 <= MAX_HEAD_BUFFER
    ensures (forall chunks: seq<Bytes> :: Flat(chunks) == t ==>
              ConsumeAll(rule, target, FRESH, chunks) == RewriteHost(rule, t, target))
       <==> (FindHost(rule, t, 0) < k || FindHost(rule, t, 0) == |t|)
  {
    hide ConsumeAll, RewriteHost, Flat, HeadEnd;
    var i := FindHost(rule, t, 0);
    if i < k || i == |t| {
      forall chunks: seq<Bytes> | Flat(chunks) == t
        ensures ConsumeAll(rule, target, FRESH, chunks) == RewriteHost(rule, t, target)
      {
        RewriteIgnoresChunking(rule, target, chunks, k);
      }
    } else {
      CutsDiffer(rule, target, t, k);
      var a, b := [t[..k + 4], t[k + 4..]], [t[..i + 5], t[i + 5..]];
      assert Flat(a) == t && Flat(b) == t;
      assert ConsumeAll(rule, target, FRESH, a) != ConsumeAll(rule, target, FRESH, b);
    }
  }

  // ---- heads beyond the limit -------------------------------------------------------

  /** `t` fills the buffer before any head in it is complete. */
  ghost predicate LongHead(t: Bytes) {
    |t| >= MAX_HEAD_BUFFER && forall j :: TerminatorAt(t, j) ==> j + 4 > MAX_HEAD_BUFFER
  }

  lemma LongHeadHolds(t: Bytes, n: nat)
    requires LongHead(t) && n <= |t|
    ensures n < MAX_HEAD_BUFFER ==> HoldsBack(t[..n])
    ensures n >= MAX_HEAD_BUFFER ==> !HoldsBack(t[..n])
  {
    IndexOfTerminatorIsFirst(t[..n], 0);
    var e := IndexOfTerminator(t[..n], 0);
    if e >= 0 { TerminatorPrefix(t, n, e); }
  }

  /** Such a stream is cut somewhere at or behind the limit, */
  lemma {:induction false} LongHeadCuts(rule: LineRule, target: Bytes, held: Bytes, chunks: seq<Bytes>, t: Bytes)
    returns (n: nat)
    requires t == held + Flat(chunks) && LongHead(t) && |held| < MAX_HEAD_BUFFER
    decreases |chunks|
    ensures MAX_HEAD_BUFFER <= n <= |t|
    ensures ConsumeAll(rule, target, HeadBuffer(held, false), chunks) == RewriteHost(rule, t[..n], target) + t[n..]
  {
    hide RewriteHost, HoldsBack, LongHead;
    LongHeadSize(t);
    assert chunks != [] by { assert held + [] == held; }
    var h := held + chunks[0];
    assert t == h + Flat(chunks[1..]) && t[..|h|] == h;
    LongHeadHolds(t, |h|);
    if |h| < MAX_HEAD_BUFFER {
      n := LongHeadCuts(rule, target, h, chunks[1..], t);
    } else {
      n := |h|;
      assert t[n..] == Flat(chunks[1..]);
      ConsumeRest(rule, target, chunks[1..]);
    }
  }

  /** and every such cut is possible. */
  lemma LongHeadCutInTwo(rule: LineRule, target: Bytes, t: Bytes, n: nat)
    requires LongHead(t) && MAX_HEAD_BUFFER <= n <= |t|
    ensures Flat([t[..n], t[n..]]) == t
    ensures ConsumeAll(rule, target, FRESH, [t[..n], t[n..]]) == RewriteHost(rule, t[..n], target) + t[n..]
  {
    hide RewriteHost, HoldsBack, LongHead;
    var cs := [t[..n], t[n..]];
    assert cs[1..] == [t[n..]];
    assert Flat([t[n..]]) == t[n..];
    assert t[..n] + t[n..] == t;
    assert FRESH.held + cs[0] == t[..n];
    LongHeadHolds(t, n);
    ConsumeRest(rule, target, [t[n..]]);
  }

  /** A cut inside the first Host line keeps what is behind the cut of its old value. */
  lemma CutLine(rule: LineRule, t: Bytes, n: nat, target: Bytes)
    requires n <= |t| && var i := FindHost(rule, t, 0); i + 5 <= n <= |t| && i < |t| && LineEnd(t, i + 5) >= n
    ensures |RewriteHost(rule, t[..n], target)| == FindHost(rule, t, 0) + 6 + |target|
  {
    var i := FindHost(rule, t, 0);
    NoNewLines(rule, t, n);
    FindHostIs(rule, t[..n], i);
    LineEndCut(t, n, i + 5);
  }

  lemma NoLineYet(rule: LineRule, t: Bytes, n: nat, target: Bytes)
    requires n <= |t| && FindHost(rule, t, 0) < |t| && n < FindHost(rule, t, 0) + 5
    ensures RewriteHost(rule, t[..n], target) == t[..n]
  {
    NoNewLines(rule, t, n);
    FindHostIsFirst(rule, t[..n], 0);
    assert forall j :: HostAt(t[..n], j) ==> j + 5 <= n;
  }

  ghost predicate SplitsAgree(rule: LineRule, target: Bytes, t: Bytes) {
    forall chunks: seq<Bytes> :: Flat(chunks) == t ==>
      ConsumeAll(rule, target, FRESH, chunks) == RewriteHost(rule, t, target)
  }

  /** A head that outgrows the buffer is independent of the chunking, too, exactly when its
      first Host line, if it has one, ends within the limit. */
  lemma {:induction false} LongHeadIndependentIff(rule: LineRule, target: Bytes, t: Bytes)
    requires LongHead(t)
    ensures SplitsAgree(rule, target, t)
       <==> var i := FindHost(rule, t, 0); i == |t| || (i + 5 <= |t| && LineEnd(t, i + 5) <= MAX_HEAD_BUFFER)
  {
    hide RewriteHost, ConsumeAll, Flat, FindHost, LineEnd, LongHead;
    var i := FindHost(rule, t, 0);
    if i == |t| || (i + 5 <= |t| && LineEnd(t, i + 5) <= MAX_HEAD_BUFFER) {
      forall chunks: seq<Bytes> | Flat(chunks) == t
        ensures ConsumeAll(rule, target, FRESH, chunks) == RewriteHost(rule, t, target)
      {
        assert [] + t == t;
        var n := LongHeadCuts(rule, target, [], chunks, t);
        WholeLineInPrefix(rule, t, n, target);
      }
    } else {
      LongHeadDiffers(rule, target, t);
    }
  }

  lemma LongHeadDiffers(rule: LineRule, target: Bytes, t: Bytes)
    requires LongHead(t) && FindHost(rule, t, 0) < |t|
    requires FindHost(rule, t, 0) + 5 <= |t| ==> LineEnd(t, FindHost(rule, t, 0) + 5) > MAX_HEAD_BUFFER
    ensures !SplitsAgree(rule, target, t)
  {
    hide RewriteHost, ConsumeAll, Flat, FindHost, LineEnd, LongHead;
    var i := FindHost(rule, t, 0);
    var m, n := MAX_HEAD_BUFFER, if i + 5 <= MAX_HEAD_BUFFER then MAX_HEAD_BUFFER + 1 else i + 5;
    LongHeadSize(t);
    assert n <= |t|;
    LongHeadCutInTwo(rule, target, t, m);
    LongHeadCutInTwo(rule, target, t, n);
    CutLine(rule, t, n, target);
    if i + 5 <= m { CutLine(rule, t, m, target); } else { NoLineYet(rule, t, m, target); }
    assert |RewriteHost(rule, t[..m], target) + t[m..]| != |RewriteHost(rule, t[..n], target) + t[n..]|;
  }

  lemma LongHeadSize(t: Bytes)
    requires LongHead(t)
    ensures |t| >= MAX_HEAD_BUFFER
  {
  }

  // ---- the two clients agree --------------------------------------------------------

  ghost predicate NoBareCR(h: Bytes) {
    forall i :: 0 <= i < |h| && h[i] == CR ==> i + 1 < |h| && h[i + 1] == LF
  }

  /** Where Python sees the same first line as Node, the two heads come out alike. */
  lemma SameLine(h: Bytes, target: Bytes)
    requires var i := FindHost(Node, h, 0); i == |h| || LineStart(Python, h, i)
    ensures FindHost(Python, h, 0) == FindHost(Node, h, 0)
    ensures RewriteHost(Node, h, target) == RewriteHost(Python, h, target)
  {
    FindHostIsFirst(Node, h, 0);
    assert forall j :: HostLineAt(Python, h, j) ==> HostLineAt(Node, h, j);
    FindHostIs(Python, h, FindHost(Node, h, 0));
  }

  /** The byte behind `Host: ` where Node writes it, after Python is done. */
  lemma PythonKeeps(h: Bytes, i: nat, target: Bytes)
    requires i == FindHost(Node, h, 0) < |h| && !LineStart(Python, h, i)
    ensures var g, j := RewriteHost(Python, h, target), FindHost(Python, h, 0);
            && (j < |h| ==> i + 6 <= j)
            && (|g| > i + 6 ==> g[i + 6] == if i + 6 < j then h[i + 6] else HOST_PREFIX[0])
  {
    var j := FindHost(Python, h, 0);
    FindHostIsFirst(Node, h, 0);
    if j < |h| {
      assert HostLineAt(Node, h, j) && j > i && h[j - 1] == LF;
    }
  }

  /** A target that tells the two apart, when Python does not see Node's line. */
  lemma OtherLine(h: Bytes, i: nat) returns (target: Bytes)
    requires i == FindHost(Node, h, 0) < |h| && !LineStart(Python, h, i)
    ensures RewriteHost(Node, h, target) != RewriteHost(Python, h, target)
  {
    var j := FindHost(Python, h, 0);
    var y: byte := if i + 6 < j && i + 6 < |h| && h[i + 6] == 0 then 1 else 0;
    target := [y];
    PythonKeeps(h, i, target);
    var g := RewriteHost(Node, h, target);
    assert g == h[..i] + HOST_PREFIX + target + h[LineEnd(h, i + 5)..];
    assert g[i + 6] == y;
  }

  /** Exactly when both clients rewrite a head alike, whatever the target: Python takes the
      place where Node finds its Host line for the start of a line, too. */
  lemma ClientsAgreeIff(h: Bytes)
    ensures (forall target: Bytes :: RewriteHost(Node, h, target) == RewriteHost(Python, h, target))
       <==> (var i := FindHost(Node, h, 0); i == |h| || LineStart(Python, h, i))
  {
    hide RewriteHost;
    var i := FindHost(Node, h, 0);
    if i == |h| || LineStart(Python, h, i) {
      forall target: Bytes ensures RewriteHost(Node, h, target) == RewriteHost(Python, h, target) {
        SameLine(h, target);
      }
    } else {
      var target := OtherLine(h, i);
    }
  }

  /** In particular without a bare CR. */
  lemma ClientsAgree(h: Bytes, target: Bytes)
    requires NoBareCR(h)
    ensures RewriteHost(Node, h, target) == RewriteHost(Python, h, target)
  {
    SameLine(h, target);
  }

  /** With a bare CR they may not: `\rHost:x` is a line for Node and none for Python. */
  lemma ClientsDisagreeOnBareCR()
    ensures var h: Bytes := [CR, 72, 111, 115, 116, 58, 120];
            RewriteHost(Node, h, []) == [CR] + HOST_PREFIX && RewriteHost(Python, h, []) == h
  {
    var h: Bytes := [CR, 72, 111, 115, 116, 58, 120];
    FindHostIs(Node, h, 1);
    FindHostIs(Python, h, 7);
  }
}
