/** server/src/http-frontend.ts: reading just enough of a public connection to find its
    Host, however the bytes come in (header section end: section 2.1 of RFC 9112). */
module HeadPeek {
  import opened Frames
  import opened HostHeader
  import opened Names
  import opened Options

  // ---- the Host line -----------------------------------------------------------------

  /** Latin-1 decoding keeps every byte. */
  function Text(b: Bytes): string {
    seq(|b|, i requires 0 <= i < |b| => b[i] as int as char)
  }

  predicate CrlfAt(s: string, i: int) {
    0 <= i && i + 2 <= |s| && s[i] as int == 13 && s[i + 1] as int == 10
  }

  /** The first CRLF at or after `from`, or -1. */
  function Crlf(s: string, from: nat): (r: int)
    ensures r == -1 || (from <= r && CrlfAt(s, r))
    decreases |s| - from
  {
    if from + 2 > |s| then -1 else if CrlfAt(s, from) then from else Crlf(s, from + 1)
  }

  lemma {:induction false} CrlfIsFirst(s: string, from: nat)
    ensures forall i :: from <= i && (Crlf(s, from) == -1 || i < Crlf(s, from)) ==> !CrlfAt(s, i)
    decreases |s| - from
  {
    if from + 2 <= |s| && !CrlfAt(s, from) { CrlfIsFirst(s, from + 1); }
  }

  function Lines(s: string): (r: seq<string>)
    ensures r != []
    decreases |s|
  {
    var k := Crlf(s, 0);
    if k == -1 then [s] else [s[..k]] + Lines(s[k + 2..])
  }

  function Join(lines: seq<string>): string
    requires lines != []
  {
    if |lines| == 1 then lines[0] else lines[0] + [13 as char, 10 as char] + Join(lines[1..])
  }

  /** Splitting into lines loses nothing. */
  lemma {:induction false} LinesJoin(s: string)
    ensures Join(Lines(s)) == s
    decreases |s|
  {
    var k := Crlf(s, 0);
    if k != -1 {
      LinesJoin(s[k + 2..]);
      JoinCons(s[..k], Lines(s[k + 2..]));
      CutAtCrlf(s, k);
    }
  }

  lemma JoinCons(line: string, lines: seq<string>)
    requires lines != []
    ensures Join([line] + lines) == line + [13 as char, 10 as char] + Join(lines)
  {
    assert ([line] + lines)[1..] == lines;
  }

  lemma CutAtCrlf(s: string, k: nat)
    requires CrlfAt(s, k)
    ensures s[..k] + [13 as char, 10 as char] + s[k + 2..] == s
  {
  }

  ghost predicate IsLine(line: string) {
    forall j :: !CrlfAt(line, j)
  }

  /** And it splits at every line end. */
  lemma {:induction false} LinesAreLines(s: string)
    ensures forall i :: 0 <= i < |Lines(s)| ==> IsLine(Lines(s)[i])
    decreases |s|
  {
    var k := Crlf(s, 0);
    CrlfIsFirst(s, 0);
    if k != -1 {
      LinesAreLines(s[k + 2..]);
      assert forall j :: CrlfAt(s[..k], j) ==> CrlfAt(s, j);
      assert Lines(s)[1..] == Lines(s[k + 2..]);
      assert forall i :: 0 < i < |Lines(s)| ==> Lines(s)[i] == Lines(s)[1..][i - 1];
    }
  }

  /** The value of a header line whose name is Host. */
  function HostOf(line: string): Option<string> {
    IndexOfIs(line, ':', 0);
    var colon := IndexOf(line, ':', 0);
    if colon == -1 then None
    else if Lower(Trim(line[..colon])) == "host" then Some(Trim(line[colon + 1..]))
    else None
  }

  function FirstHost(lines: seq<string>): Option<string> {
    if lines == [] then None
    else if HostOf(lines[0]).Some? then HostOf(lines[0])
    else FirstHost(lines[1..])
  }

  lemma {:induction false} FirstHostIs(lines: seq<string>)
    ensures FirstHost(lines).None? <==> forall i :: 0 <= i < |lines| ==> HostOf(lines[i]).None?
    ensures FirstHost(lines).Some? ==>
      exists i :: 0 <= i < |lines| && HostOf(lines[i]) == FirstHost(lines)
                  && forall j :: 0 <= j < i ==> HostOf(lines[j]).None?
  {
    if lines != [] {
      FirstHostIs(lines[1..]);
      assert forall i :: 0 < i < |lines| ==> lines[i] == lines[1..][i - 1];
      if HostOf(lines[0]).Some? {
        assert HostOf(lines[0]) == FirstHost(lines);
      } else if FirstHost(lines).Some? {
        var i :| 0 <= i < |lines[1..]| && HostOf(lines[1..][i]) == FirstHost(lines[1..])
                 && forall j :: 0 <= j < i ==> HostOf(lines[1..][j]).None?;
        assert HostOf(lines[i + 1]) == FirstHost(lines);
      }
    }
  }

  /** The request line is not a header. */
  function ParseHostHeader(head: Bytes): Option<string> {
    FirstHost(Lines(Text(head))[1..])
  }

  // ---- peeking -----------------------------------------------------------------------

  datatype Look = Waiting | TooLarge | Ready(host: Option<string>)

  function LookAt(max: nat, head: Bytes): Look {
    IndexOfTerminatorIsFirst(head, 0);
    var end := IndexOfTerminator(head, 0);
    if end == -1 then (if |head| > max then TooLarge else Waiting)
    else Ready(ParseHostHeader(head[..end]))
  }

  /** How a connection's peek ended, with what it read, and what is left in the socket. */
  datatype Peeked = Peeked(look: Look, head: Bytes, rest: seq<Bytes>)

  function Peek(max: nat, held: Bytes, chunks: seq<Bytes>): Peeked
    decreases |chunks|
  {
    if chunks == [] then Peeked(Waiting, held, [])
    else
      var head := held + chunks[0];
      var look := LookAt(max, head);
      if look.Waiting? then Peek(max, head, chunks[1..]) else Peeked(look, head, chunks[1..])
  }

  /** The bytes read ahead and those left in the socket are the whole stream, in order. */
  lemma {:induction false} PeekIsLossless(max: nat, held: Bytes, chunks: seq<Bytes>)
    ensures var p := Peek(max, held, chunks); p.head + Flat(p.rest) == held + Flat(chunks)
    decreases |chunks|
  {
    if chunks != [] {
      assert held + Flat(chunks) == held + chunks[0] + Flat(chunks[1..]);
      PeekIsLossless(max, held + chunks[0], chunks[1..]);
    }
  }

  /** Of a stream whose first head terminator is at `k`, a prefix is waited on if and only
      if it stops short of that terminator and is within the limit. */
  lemma LookAtPrefix(max: nat, t: Bytes, k: nat, n: nat)
    requires HeadEnd(t, k) && n <= |t|
    ensures n >= k + 4 ==> LookAt(max, t[..n]) == Ready(ParseHostHeader(t[..k]))
    ensures n < k + 4 ==> LookAt(max, t[..n]) == if n > max then TooLarge else Waiting
  {
    var p := t[..n];
    IndexOfTerminatorIsFirst(p, 0);
    var e := IndexOfTerminator(p, 0);
    if n >= k + 4 {
      TerminatorPrefix(t, n, k);
      if e >= 0 { TerminatorPrefix(t, n, e); }
      assert e == k && p[..k] == t[..k];
    } else if e >= 0 {
      TerminatorPrefix(t, n, e);
    }
  }

  lemma {:induction false} PeekFinds(max: nat, held: Bytes, chunks: seq<Bytes>, t: Bytes, k: nat)
    requires t == held + Flat(chunks) && HeadEnd(t, k) && k + 3 <= max && |held| < k + 4
    ensures Peek(max, held, chunks).look == Ready(ParseHostHeader(t[..k]))
    decreases |chunks|
  {
    assert chunks != [] by { assert held + [] == held; }
    var head := held + chunks[0];
    assert t == head + Flat(chunks[1..]) && t[..|head|] == head;
    LookAtPrefix(max, t, k, |head|);
    if |head| < k + 4 { PeekFinds(max, head, chunks[1..], t, k); }
  }

  /** Exactly when every split of the stream into chunks finds the same Host, and none is
      turned away as too large: the limit covers the head but for its last byte. */
  lemma {:induction false} PeekIgnoresChunkingIff(max: nat, t: Bytes, k: nat)
    requires HeadEnd(t, k)
    ensures (forall chunks: seq<Bytes> :: Flat(chunks) == t ==>
              Peek(max, [], chunks).look == Ready(ParseHostHeader(t[..k])))
       <==> k + 3 <= max
  {
    if k + 3 <= max {
      forall chunks: seq<Bytes> | Flat(chunks) == t
        ensures Peek(max, [], chunks).look == Ready(ParseHostHeader(t[..k]))
      {
        assert [] + t == t;
        PeekFinds(max, [], chunks, t, k);
      }
    } else {
      JustTooLarge(max, t, k);
    }
  }

  lemma JustTooLarge(max: nat, t: Bytes, k: nat)
    requires HeadEnd(t, k) && k + 3 > max
    ensures Flat([t[..k + 3], t[k + 3..]]) == t
    ensures Peek(max, [], [t[..k + 3], t[k + 3..]]).look == TooLarge
  {
    var chunks := [t[..k + 3], t[k + 3..]];
    assert chunks[1..] == [t[k + 3..]];
    assert Flat([t[k + 3..]]) == t[k + 3..];
    assert t[..k + 3] + t[k + 3..] == t;
    assert [] + chunks[0] == t[..k + 3];
    LookAtPrefix(max, t, k, k + 3);
  }

  // ---- one connection ----------------------------------------------------------------

  class Connection {
    const maxHttpHeadBytes: nat
    var chunks: seq<Bytes>
    var total: nat
    var settled: bool

    ghost predicate Valid()
      reads this
    {
      total == |Flat(chunks)|
    }

    constructor (maxHttpHeadBytes: nat)
      ensures Valid() && chunks == [] && !settled && this.maxHttpHeadBytes == maxHttpHeadBytes
    {
      this.maxHttpHeadBytes, chunks, total, settled := maxHttpHeadBytes, [], 0, false;
    }

    /** `verdict` is what the connection settles on, at most once, and `head` all that was
        read of it; until then it waits for more. */
    method OnData(chunk: Bytes) returns (verdict: Option<Look>, head: Bytes)
      requires Valid()
      modifies this
      ensures Valid() && head == Flat(chunks) == old(Flat(chunks)) + chunk
      ensures verdict == if old(settled) || LookAt(maxHttpHeadBytes, head) == Waiting then None
                         else Some(LookAt(maxHttpHeadBytes, head))
      ensures settled == (old(settled) || verdict.Some?)
    {
      FlatAppend(chunks, [chunk]);
      assert Flat([chunk]) == chunk;
      chunks := chunks + [chunk];
      total := total + |chunk|;
      head := Flat(chunks);
      IndexOfTerminatorIsFirst(head, 0);
      var end := IndexOfTerminator(head, 0);
      if end == -1 {
        if total > maxHttpHeadBytes { verdict := Settle(TooLarge); } else { verdict := None; }
      } else {
        verdict := Settle(Ready(ParseHostHeader(head[..end])));
      }
    }

    method Settle(look: Look) returns (verdict: Option<Look>)
      modifies `settled
      ensures settled && verdict == if old(settled) then None else Some(look)
    {
      if settled { return None; }
      settled := true;
      return Some(look);
    }

    /** The client is gone: nothing is settled any more. */
    method OnClose()
      requires Valid()
      modifies `settled
      ensures Valid() && settled
    {
      settled := true;
    }
  }
}
