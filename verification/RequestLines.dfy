/** Requests line by line: which bytes the frontend takes for the Host of a request, and which
    line the agent replaces, said on the lines the request was put together from. */
module RequestLines {
  import opened Frames
  import opened HeadPeek
  import opened HostHeader
  import opened Names
  import opened Options

  /** A head from its lines: the request line and the header lines (section 2.1 of RFC 9112). */
  function HeadOf(lines: seq<Bytes>): Bytes
    requires lines != []
  {
    if |lines| == 1 then lines[0] else lines[0] + [CR, LF] + HeadOf(lines[1..])
  }

  /** A whole request. */
  function RequestOf(lines: seq<Bytes>, body: Bytes): Bytes
    requires lines != []
  {
    HeadOf(lines) + [CR, LF, CR, LF] + body
  }

  predicate BreakAt(b: Bytes, i: int) {
    0 <= i && i + 2 <= |b| && b[i] == CR && b[i + 1] == LF
  }

  /** No line holds a line end. */
  ghost predicate Unbroken(lines: seq<Bytes>) {
    forall i, j :: 0 <= i < |lines| ==> !BreakAt(lines[i], j)
  }

  /** No header line is empty. */
  predicate Filled(lines: seq<Bytes>) {
    forall i :: 0 < i < |lines| ==> lines[i] != []
  }

  // ---- where the head ends -------------------------------------------------------------

  lemma FirstBreak(line: Bytes, rest: Bytes, j: int)
    requires (forall i :: !BreakAt(line, i)) && 0 <= j < |line|
    ensures !BreakAt(line + [CR, LF] + rest, j)
  {
    var t := line + [CR, LF] + rest;
    if j + 1 < |line| {
      assert t[j] == line[j] && t[j + 1] == line[j + 1];
      assert !BreakAt(line, j);
    }
  }

  lemma RequestCons(lines: seq<Bytes>, body: Bytes)
    requires |lines| > 1
    ensures RequestOf(lines, body) == lines[0] + [CR, LF] + RequestOf(lines[1..], body)
  {
    var h := HeadOf(lines[1..]);
    assert lines[0] + [CR, LF] + h + [CR, LF, CR, LF] + body == lines[0] + [CR, LF] + (h + [CR, LF, CR, LF] + body);
  }

  lemma UnbrokenTail(lines: seq<Bytes>)
    requires |lines| > 1 && Unbroken(lines)
    ensures Unbroken(lines[1..]) && forall i :: !BreakAt(lines[0], i)
  {
    assert forall i :: 0 <= i < |lines[1..]| ==> lines[1..][i] == lines[i + 1];
  }

  /** A request that begins with a nonempty line does not begin with a line end. */
  lemma NoBreakAtStart(lines: seq<Bytes>, body: Bytes)
    requires lines != [] && Unbroken(lines) && lines[0] != []
    ensures !BreakAt(RequestOf(lines, body), 0)
  {
    var line := lines[0];
    assert !BreakAt(line, 0);
    if |lines| > 1 {
      RequestCons(lines, body);
      FirstBreak(line, RequestOf(lines[1..], body), 0);
    } else {
      assert RequestOf(lines, body) == line + [CR, LF] + ([CR, LF] + body);
      FirstBreak(line, [CR, LF] + body, 0);
    }
  }

  /** The head ends where its last line does. */
  lemma {:induction false} HeadEndsThere(lines: seq<Bytes>, body: Bytes)
    requires lines != [] && Unbroken(lines) && Filled(lines)
    ensures HeadEnd(RequestOf(lines, body), |HeadOf(lines)|)
    ensures RequestOf(lines, body)[..|HeadOf(lines)|] == HeadOf(lines)
    decreases |lines|
  {
    var t, k, line := RequestOf(lines, body), |HeadOf(lines)|, lines[0];
    assert TerminatorAt(t, k);
    if |lines| == 1 {
      assert t == line + [CR, LF] + ([CR, LF] + body);
      forall j | 0 <= j < k ensures !TerminatorAt(t, j) {
        assert forall i :: !BreakAt(line, i);
        FirstBreak(line, [CR, LF] + body, j);
      }
    } else {
      var rest, off := RequestOf(lines[1..], body), |line| + 2;
      UnbrokenTail(lines);
      assert lines[1..][0] == lines[1] && forall i :: 0 < i < |lines[1..]| ==> lines[1..][i] == lines[i + 1];
      RequestCons(lines, body);
      HeadEndsThere(lines[1..], body);
      NoBreakAtStart(lines[1..], body);
      forall j | 0 <= j < k ensures !TerminatorAt(t, j) {
        if j < |line| { FirstBreak(line, rest, j); }
        if TerminatorAt(t, j) { EarlyTerminator(line, rest, j); }
      }
    }
  }

  lemma EarlyTerminator(line: Bytes, rest: Bytes, j: int)
    requires TerminatorAt(line + [CR, LF] + rest, j) && j >= |line|
    ensures (j == |line| && BreakAt(rest, 0)) || (j >= |line| + 2 && TerminatorAt(rest, j - |line| - 2))
  {
    var t := line + [CR, LF] + rest;
    assert forall i :: 0 <= i < |rest| ==> t[|line| + 2 + i] == rest[i];
    assert t[|line| + 1] == LF;
  }

  // ---- the Host of a request -----------------------------------------------------------

  function Texts(lines: seq<Bytes>): seq<string> {
    seq(|lines|, i requires 0 <= i < |lines| => Text(lines[i]))
  }

  /** Splitting a head gives back the lines it was put together from. */
  lemma {:induction false} LinesOfHead(lines: seq<Bytes>)
    requires lines != [] && Unbroken(lines)
    ensures Lines(Text(HeadOf(lines))) == Texts(lines)
    decreases |lines|
  {
    var s, line := Text(HeadOf(lines)), lines[0];
    CrlfIsFirst(s, 0);
    assert forall j :: CrlfAt(s, j) ==> BreakAt(HeadOf(lines), j);
    if |lines| == 1 {
      assert forall j :: !BreakAt(line, j);
      assert Texts(lines) == [s];
    } else {
      var rest := HeadOf(lines[1..]);
      UnbrokenTail(lines);
      LinesOfHead(lines[1..]);
      assert CrlfAt(s, |line|);
      forall j | 0 <= j < |line| ensures !CrlfAt(s, j) { FirstBreak(line, rest, j); }
      assert Crlf(s, 0) == |line| && s[..|line|] == Text(line) && s[|line| + 2..] == Text(rest);
      assert Texts(lines) == [Text(line)] + Texts(lines[1..]);
    }
  }

  /** Space, the control characters that count as space, and the no-break space. */
  predicate AllBlank(b: Bytes) {
    forall i :: 0 <= i < |b| ==> 9 <= b[i] <= 13 || b[i] == 32 || b[i] == 160
  }

  predicate Letter(b: byte, upper: byte) {
    b == upper || b as int == upper as int + 32
  }

  /** `Host` in any letter case. */
  predicate IsHost(b: Bytes) {
    |b| == 4 && Letter(b[0], 72) && Letter(b[1], 79) && Letter(b[2], 83) && Letter(b[3], 84)
  }

  predicate Colonless(b: Bytes) {
    forall i :: 0 <= i < |b| ==> b[i] != 58
  }

  /** No blanks at either end. */
  predicate Bare(b: Bytes) {
    b != [] ==> !AllBlank(b[..1]) && !AllBlank(b[|b| - 1..])
  }

  /** The parts of a header line: a name and a value around the first colon, and the blanks
      around either. */
  datatype Parts = Parts(before: Bytes, name: Bytes, behind: Bytes, left: Bytes, value: Bytes, right: Bytes)

  function Written(p: Parts): Bytes {
    p.before + p.name + p.behind + [58] + (p.left + p.value + p.right)
  }

  predicate WellParted(p: Parts) {
    && AllBlank(p.before) && AllBlank(p.behind) && AllBlank(p.left) && AllBlank(p.right)
    && Bare(p.name) && Bare(p.value) && Colonless(p.name)
  }

  /** `line` is a header line named Host, and `value` its value without surrounding blanks. */
  ghost predicate HostLine(line: Bytes, value: Bytes) {
    exists p: Parts :: WellParted(p) && line == Written(p) && IsHost(p.name) && value == p.value
  }

  lemma TrimText(a: Bytes, m: Bytes, b: Bytes)
    requires AllBlank(a) && AllBlank(b) && Bare(m)
    ensures Trim(Text(a + m + b)) == Text(m)
  {
    assert Text(a + m + b) == Text(a) + Text(m) + Text(b);
    BlankText(a);
    BlankText(b);
    if m != [] {
      BlankText(m[..1]);
      BlankText(m[|m| - 1..]);
      assert Text(m[..1])[0] == Text(m)[0] && Text(m[|m| - 1..])[0] == Text(m)[|m| - 1];
    }
    TrimIs(Text(a), Text(m), Text(b));
  }

  lemma BlankText(b: Bytes)
    ensures Blanks(Text(b)) <==> AllBlank(b)
  {
    forall i | 0 <= i < |b|
      ensures Blank(Text(b)[i]) <==> 9 <= b[i] <= 13 || b[i] == 32 || b[i] == 160
    {
      assert Text(b)[i] as int == b[i] as int;
    }
    if Blanks(Text(b)) {
      forall i | 0 <= i < |b| ensures 9 <= b[i] <= 13 || b[i] == 32 || b[i] == 160 { assert Blank(Text(b)[i]); }
    }
  }

  /** Every text is blanks, a bare middle, and blanks. */
  lemma {:induction false} Parting(t: Bytes) returns (a: Bytes, m: Bytes, b: Bytes)
    ensures t == a + m + b && AllBlank(a) && AllBlank(b) && Bare(m)
    decreases |t|
  {
    if t == [] || Bare(t) {
      a, m, b := [], t, [];
    } else if AllBlank(t[..1]) {
      a, m, b := Parting(t[1..]);
      a := t[..1] + a;
      assert t == t[..1] + t[1..];
    } else {
      a, m, b := Parting(t[..|t| - 1]);
      b := b + t[|t| - 1..];
      assert t == t[..|t| - 1] + t[|t| - 1..];
    }
  }

  lemma HostInAnyCase(b: Bytes)
    ensures Lower(Text(b)) == "host" <==> IsHost(b)
  {
    var l := Lower(Text(b));
    if |b| == 4 {
      forall i | 0 <= i < 4 ensures l[i] == LowerChar(b[i] as int as char) { assert Text(b)[i] == b[i] as int as char; }
      assert l == [l[0], l[1], l[2], l[3]];
      assert "host" == ['h', 'o', 's', 't'];
    }
  }

  lemma ColonOf(n: Bytes, v: Bytes)
    requires Colonless(n)
    ensures var s := Text(n + [58] + v);
            && IndexOf(s, ':', 0) == |n| && s[..|n|] == Text(n) && s[|n| + 1..] == Text(v)
  {
    var s := Text(n + [58] + v);
    IndexOfIs(s, ':', 0);
    assert s[|n|] == ':';
    forall i | 0 <= i < |n| ensures s[i] != ':' { assert s[i] == n[i] as int as char; }
  }

  /** What the code reads from a line put together like that. */
  lemma HostOfWritten(p: Parts)
    requires WellParted(p)
    ensures HostOf(Text(Written(p))) == if IsHost(p.name) then Some(Text(p.value)) else None
  {
    ColonOf(p.before + p.name + p.behind, p.left + p.value + p.right);
    TrimText(p.before, p.name, p.behind);
    TrimText(p.left, p.value, p.right);
    HostInAnyCase(p.name);
    hide Trim, Lower, IndexOf;
  }

  /** Every line with a colon is. */
  lemma PartsOf(line: Bytes) returns (p: Parts)
    requires !Colonless(line)
    ensures WellParted(p) && line == Written(p)
  {
    var c := FirstColon(line);
    var before, name, behind := Parting(line[..c]);
    var left, value, right := Parting(line[c + 1..]);
    p := Parts(before, name, behind, left, value, right);
    CutAtColon(line, c);
    MiddleIsColonless(before, name, behind);
    hide AllBlank, Bare, Colonless;
  }

  lemma CutAtColon(line: Bytes, c: nat)
    requires c < |line| && line[c] == 58
    ensures line == line[..c] + [58] + line[c + 1..]
  {
  }

  lemma MiddleIsColonless(a: Bytes, m: Bytes, b: Bytes)
    requires Colonless(a + m + b)
    ensures Colonless(m)
  {
    forall i | 0 <= i < |m| ensures m[i] != 58 { assert (a + m + b)[|a| + i] == m[i]; }
  }

  lemma {:induction false} FirstColon(line: Bytes) returns (c: nat)
    requires !Colonless(line)
    ensures c < |line| && line[c] == 58 && Colonless(line[..c])
    decreases |line|
  {
    var n := |line| - 1;
    if Colonless(line[..n]) {
      c := n;
    } else {
      c := FirstColon(line[..n]);
      assert line[..n][..c] == line[..c];
    }
  }

  lemma WrittenHasColon(p: Parts)
    ensures !Colonless(Written(p))
  {
    assert Written(p)[|p.before + p.name + p.behind|] == 58;
  }

  lemma NoColonNoHost(line: Bytes)
    requires Colonless(line)
    ensures HostOf(Text(line)) == None && forall value: Bytes :: !HostLine(line, value)
  {
    IndexOfIs(Text(line), ':', 0);
    forall p: Parts ensures line != Written(p) { WrittenHasColon(p); }
  }

  /** The code takes `v` for the Host of a line exactly when the line is named Host, in any
      letter case and with any blanks around it, and has the value `v` but for blanks. */
  lemma HostOfIff(line: Bytes, v: string)
    ensures HostOf(Text(line)) == Some(v) <==> exists value: Bytes :: HostLine(line, value) && v == Text(value)
    ensures HostOf(Text(line)).None? <==> forall value: Bytes :: !HostLine(line, value)
  {
    if Colonless(line) {
      NoColonNoHost(line);
    } else {
      var p := PartsOf(line);
      HostOfWritten(p);
      forall q: Parts | WellParted(q) && line == Written(q)
        ensures HostOf(Text(line)) == if IsHost(q.name) then Some(Text(q.value)) else None
      {
        HostOfWritten(q);
      }
      if IsHost(p.name) { assert HostLine(line, p.value); }
    }
  }

  /** Line `i` is the first header line named Host. */
  ghost predicate FirstHostLine(lines: seq<Bytes>, i: int, value: Bytes) {
    && 0 < i < |lines| && HostLine(lines[i], value)
    && forall j, other: Bytes :: 0 < j < i ==> !HostLine(lines[j], other)
  }

  lemma SameFirst(lines: seq<Bytes>, i: int, value: Bytes, k: int, other: Bytes)
    requires FirstHostLine(lines, i, value) && FirstHostLine(lines, k, other)
    ensures i == k && Text(value) == Text(other)
  {
    hide HostLine;
    if i == k { HostIsOne(lines[i], value, other); }
  }

  lemma HostFound(lines: seq<Bytes>) returns (i: nat, value: Bytes)
    requires lines != [] && Unbroken(lines)
    ensures var h := ParseHostHeader(HeadOf(lines));
            if h.Some? then FirstHostLine(lines, i, value) && h.value == Text(value)
            else forall j, other: Bytes :: 0 < j < |lines| ==> !HostLine(lines[j], other)
  {
    hide FirstHost, Lines, HostLine;
    LinesOfHead(lines);
    assert Texts(lines)[1..] == Texts(lines[1..]);
    i, value := FirstHostOf(lines[1..]);
    assert forall j :: 0 < j < |lines| ==> lines[j] == lines[1..][j - 1];
    i := i + 1;
  }

  /** The Host of a request is the value of the first of its header lines named Host; the
      request line is none of them, and without such a line there is no Host. */
  lemma HostFoundIff(lines: seq<Bytes>, v: string)
    requires lines != [] && Unbroken(lines)
    ensures ParseHostHeader(HeadOf(lines)) == Some(v) <==>
      exists i, value: Bytes :: FirstHostLine(lines, i, value) && v == Text(value)
    ensures ParseHostHeader(HeadOf(lines)).None? <==>
      forall i, value: Bytes :: 0 < i < |lines| ==> !HostLine(lines[i], value)
  {
    var i, value := HostFound(lines);
    hide ParseHostHeader, HostLine, Text, HeadOf;
    if ParseHostHeader(HeadOf(lines)).Some? {
      forall k, other: Bytes | FirstHostLine(lines, k, other) ensures Text(other) == Text(value) {
        SameFirst(lines, i, value, k, other);
      }
    }
  }

  lemma HostIsOne(line: Bytes, value: Bytes, other: Bytes)
    ensures HostLine(line, value) && HostLine(line, other) ==> Text(value) == Text(other)
  {
    HostOfIff(line, Text(value));
    HostOfIff(line, Text(other));
    hide HostLine, HostOf;
  }

  /** The first of the lines named Host, if there is one. */
  lemma {:induction false} FirstHostOf(headers: seq<Bytes>) returns (i: nat, value: Bytes)
    ensures i <= |headers| && forall j, other: Bytes :: 0 <= j < i ==> !HostLine(headers[j], other)
    ensures if i == |headers| then FirstHost(Texts(headers)).None?
            else HostLine(headers[i], value) && FirstHost(Texts(headers)) == Some(Text(value))
    decreases |headers|
  {
    hide HostOf, HostLine;
    i, value := 0, [];
    if headers != [] {
      var h := HostOf(Text(headers[0]));
      assert Texts(headers)[1..] == Texts(headers[1..]);
      HostOfIff(headers[0], if h.Some? then h.value else "");
      if h.Some? {
        value :| HostLine(headers[0], value) && h.value == Text(value);
      } else {
        i, value := FirstHostOf(headers[1..]);
        i := i + 1;
      }
    }
  }

  // ---- the line the agent replaces -------------------------------------------------------

  /** Neither CR nor LF in any line. */
  predicate Clean(lines: seq<Bytes>) {
    forall i :: 0 <= i < |lines| ==> OneLine(lines[i])
  }

  /** The line begins with `Host:`, in any letter case. */
  predicate BeginsWithHost(line: Bytes) {
    |line| >= 5 && IsHost(line[..4]) && line[4] == 58
  }

  lemma HostAtStart(h: Bytes, i: int)
    ensures HostAt(h, i) <==> 0 <= i && i + 5 <= |h| && BeginsWithHost(h[i..i + 5])
  {
    if 0 <= i && i + 5 <= |h| {
      var l := h[i..i + 5];
      assert l[..4] == [h[i], h[i + 1], h[i + 2], h[i + 3]];
    }
  }

  /** A head, or what follows it, does not go on with the last line. */
  predicate LineDone(rest: Bytes) {
    rest == [] || rest[0] == CR || rest[0] == LF
  }

  /** A line that is looked at from its start. */
  lemma HostLineHere(line: Bytes, rest: Bytes)
    requires OneLine(line) && LineDone(rest)
    ensures HostAt(line + rest, 0) <==> BeginsWithHost(line)
  {
    var h := line + rest;
    HostAtStart(h, 0);
    if |line| >= 5 {
      assert h[0..5] == line[..5] && line[..5][..4] == line[..4];
    } else if |h| >= 5 && rest != [] {
      assert h[|line|] == rest[0];
      if |line| < 4 { assert h[0..5][..4][|line|] == rest[0]; } else { assert h[0..5][4] == rest[0]; }
    }
  }

  /** No Host line starts inside a clean line, nor at its end. */
  lemma NoHostInside(rule: LineRule, line: Bytes, rest: Bytes, j: int)
    requires OneLine(line) && 0 < j < |line| + 2
    ensures !HostLineAt(rule, line + [CR, LF] + rest, j)
  {
    var h := line + [CR, LF] + rest;
    if j < |line| { assert h[j - 1] == line[j - 1]; }
    if j == |line| { assert h[j] == CR; }
    if j == |line| + 1 { assert h[j] == LF; }
  }

  lemma HostLineBehind(rule: LineRule, line: Bytes, rest: Bytes, j: nat)
    requires j <= |rest|
    ensures HostLineAt(rule, line + [CR, LF] + rest, |line| + 2 + j) <==> HostLineAt(rule, rest, j)
  {
    var h, off := line + [CR, LF] + rest, |line| + 2;
    assert forall k :: 0 <= k < |rest| ==> h[off + k] == rest[k];
    assert h[off - 1] == LF;
  }

  lemma BreaksBehind(front: Bytes, rest: Bytes, j: int)
    requires j >= 0
    ensures Breaks(front + rest, |front| + j) <==> Breaks(rest, j)
  {
  }

  lemma LineEndBehind(front: Bytes, rest: Bytes, from: nat)
    requires from <= |rest|
    ensures LineEnd(front + rest, |front| + from) == |front| + LineEnd(rest, from)
  {
    var h, off := front + rest, |front|;
    var e, f := LineEnd(rest, from), LineEnd(h, off + from);
    LineEndIsFirst(rest, from);
    LineEndIsFirst(h, off + from);
    hide LineEnd, Breaks;
    BreaksBehind(front, rest, e);
    BreaksBehind(front, rest, f - off);
  }

  lemma FindHostBehind(rule: LineRule, line: Bytes, rest: Bytes)
    requires OneLine(line) && !BeginsWithHost(line)
    ensures FindHost(rule, line + [CR, LF] + rest, 0) == |line| + 2 + FindHost(rule, rest, 0)
  {
    var h, off, i := line + [CR, LF] + rest, |line| + 2, FindHost(rule, rest, 0);
    FindHostIsFirst(rule, rest, 0);
    assert h == line + ([CR, LF] + rest);
    HostLineHere(line, [CR, LF] + rest);
    forall j | 0 <= j < off + i ensures !HostLineAt(rule, h, j) {
      if 0 < j < off { NoHostInside(rule, line, rest, j); }
      if j >= off { HostLineBehind(rule, line, rest, j - off); }
    }
    HostLineBehind(rule, line, rest, i);
    hide FindHost;
    FindHostIs(rule, h, off + i);
  }

  lemma RewriteAt(rule: LineRule, h: Bytes, target: Bytes, i: nat, e: nat)
    requires i == FindHost(rule, h, 0) < |h| && i + 5 <= |h| && e == LineEnd(h, i + 5)
    ensures RewriteHost(rule, h, target) == h[..i] + HOST_PREFIX + target + h[e..]
  {
  }

  lemma RewriteNone(rule: LineRule, h: Bytes, target: Bytes)
    requires FindHost(rule, h, 0) == |h|
    ensures RewriteHost(rule, h, target) == h
  {
  }

  /** A first line without a Host is passed over. */
  lemma PassOver(rule: LineRule, line: Bytes, rest: Bytes, target: Bytes)
    requires OneLine(line) && !BeginsWithHost(line)
    ensures RewriteHost(rule, line + [CR, LF] + rest, target) == line + [CR, LF] + RewriteHost(rule, rest, target)
  {
    FindHostBehind(rule, line, rest);
    PassFront(rule, line + [CR, LF], rest, target);
  }

  lemma PassFront(rule: LineRule, front: Bytes, rest: Bytes, target: Bytes)
    requires FindHost(rule, front + rest, 0) == |front| + FindHost(rule, rest, 0)
    ensures RewriteHost(rule, front + rest, target) == front + RewriteHost(rule, rest, target)
  {
    hide FindHost, HostLineAt, LineEnd, RewriteHost;
    var i := FindHost(rule, rest, 0);
    if i == |rest| {
      RewriteNone(rule, rest, target);
      RewriteNone(rule, front + rest, target);
    } else {
      HostFits(rule, rest, i);
      LineEndBehind(front, rest, i + 5);
      var e := LineEnd(rest, i + 5);
      RewriteAt(rule, rest, target, i, e);
      RewriteAt(rule, front + rest, target, |front| + i, |front| + e);
      Shifted(front, rest, i, e, target);
    }
  }

  lemma HostFits(rule: LineRule, h: Bytes, i: nat)
    requires i == FindHost(rule, h, 0) < |h|
    ensures i + 5 <= |h|
  {
  }

  lemma Shifted(front: Bytes, rest: Bytes, i: nat, e: nat, target: Bytes)
    requires i <= e <= |rest|
    ensures (front + rest)[..|front| + i] + HOST_PREFIX + target + (front + rest)[|front| + e..]
            == front + (rest[..i] + HOST_PREFIX + target + rest[e..])
  {
    assert (front + rest)[..|front| + i] == front + rest[..i];
    assert (front + rest)[|front| + e..] == rest[e..];
  }

  lemma LineEndsThere(line: Bytes, rest: Bytes)
    requires OneLine(line) && LineDone(rest) && |line| >= 5
    ensures LineEnd(line + rest, 5) == |line|
  {
    var h := line + rest;
    LineEndIsFirst(h, 5);
    assert forall k :: 0 <= k < |line| ==> h[k] == line[k];
    if rest != [] { assert h[|line|] == rest[0] && Breaks(h, |line|); }
  }

  lemma CutBehindLine(line: Bytes, rest: Bytes, target: Bytes)
    ensures (line + rest)[..0] + HOST_PREFIX + target + (line + rest)[|line|..] == HOST_PREFIX + target + rest
  {
    assert (line + rest)[..0] == [] && (line + rest)[|line|..] == rest;
  }

  /** A first line with a Host is replaced, up to its end. */
  lemma ReplaceHere(rule: LineRule, line: Bytes, rest: Bytes, target: Bytes)
    requires OneLine(line) && LineDone(rest) && BeginsWithHost(line)
    ensures RewriteHost(rule, line + rest, target) == [72, 111, 115, 116, 58, 32] + target + rest
  {
    HostLineHere(line, rest);
    FindHostIs(rule, line + rest, 0);
    LineEndsThere(line, rest);
    hide FindHost, LineEnd, RewriteHost;
    RewriteAt(rule, line + rest, target, 0, |line|);
    CutBehindLine(line, rest, target);
  }

  /** With either client the first line of a head that begins with `Host:`, in any letter case,
      becomes `Host: ` and the target; every other line, and all that follows the head, stays. */
  lemma {:induction false} RewriteReplacesTheLine(rule: LineRule, lines: seq<Bytes>, i: nat, rest: Bytes, target: Bytes)
    requires i < |lines| && Clean(lines) && LineDone(rest)
    requires BeginsWithHost(lines[i]) && forall j :: 0 <= j < i ==> !BeginsWithHost(lines[j])
    ensures RewriteHost(rule, HeadOf(lines) + rest, target)
            == HeadOf(lines[i := [72, 111, 115, 116, 58, 32] + target]) + rest
    decreases |lines|
  {
    hide RewriteHost;
    var changed := lines[i := [72, 111, 115, 116, 58, 32] + target];
    if |lines| == 1 {
      ReplaceHere(rule, lines[0], rest, target);
    } else {
      var more := [CR, LF] + HeadOf(lines[1..]) + rest;
      assert HeadOf(lines) + rest == lines[0] + more;
      if i == 0 {
        ReplaceHere(rule, lines[0], more, target);
        assert changed[1..] == lines[1..];
        assert HeadOf(changed) + rest == changed[0] + more;
      } else {
        assert lines[0] + more == lines[0] + [CR, LF] + (HeadOf(lines[1..]) + rest);
        PassOver(rule, lines[0], HeadOf(lines[1..]) + rest, target);
        assert changed[1..] == lines[1..][i - 1 := [72, 111, 115, 116, 58, 32] + target];
        RewriteReplacesTheLine(rule, lines[1..], i - 1, rest, target);
        assert HeadOf(changed) + rest == changed[0] + [CR, LF] + (HeadOf(changed[1..]) + rest);
      }
    }
  }
}
