/** Host names and DNS labels: letter case, surrounding blanks, ports, and the shape of a
    label. */
module Names {
  import opened Options

  const KELVIN_SIGN: int := 0x212a

  /** Lower case, exact for Latin-1: ASCII letters, and those from A grave to Thorn but for the
      multiplication sign. Of the others only the Kelvin sign has a lower case that fits a label. */
  function LowerChar(c: char): char {
    var n := c as int;
    if 65 <= n <= 90 || (192 <= n <= 222 && n != 215) then (n + 32) as char
    else if n == KELVIN_SIGN then 'k'
    else c
  }

  function Lower(s: string): (r: string)
    ensures |r| == |s|
    ensures forall i :: 0 <= i < |s| ==> r[i] == LowerChar(s[i])
  {
    seq(|s|, i requires 0 <= i < |s| => LowerChar(s[i]))
  }

  /** White space and line ends, as `trim` takes them. */
  predicate Blank(c: char) {
    var n := c as int;
    9 <= n <= 13 || 0x2000 <= n <= 0x200a
    || n in {32, 160, 0x1680, 0x2028, 0x2029, 0x202f, 0x205f, 0x3000, 0xfeff}
  }

  function TrimLeft(s: string): string {
    if s != "" && Blank(s[0]) then TrimLeft(s[1..]) else s
  }

  function TrimRight(s: string): string {
    if s != "" && Blank(s[|s| - 1]) then TrimRight(s[..|s| - 1]) else s
  }

  function Trim(s: string): string {
    TrimRight(TrimLeft(s))
  }

  predicate Blanks(s: string) {
    forall i :: 0 <= i < |s| ==> Blank(s[i])
  }

  lemma {:induction false} TrimLeftIs(a: string, m: string)
    requires Blanks(a) && (m != "" ==> !Blank(m[0]))
    ensures TrimLeft(a + m) == m
    decreases |a|
  {
    if a == "" {
      assert a + m == m;
    } else {
      assert (a + m)[1..] == a[1..] + m;
      TrimLeftIs(a[1..], m);
    }
  }

  lemma {:induction false} TrimRightIs(m: string, b: string)
    requires Blanks(b) && (m != "" ==> !Blank(m[|m| - 1]))
    ensures TrimRight(m + b) == m
    decreases |b|
  {
    if b == "" {
      assert m + b == m;
    } else {
      assert (m + b)[..|m + b| - 1] == m + b[..|b| - 1];
      TrimRightIs(m, b[..|b| - 1]);
    }
  }

  /** Trimming takes the blanks around a bare middle, and nothing else. */
  lemma TrimIs(a: string, m: string, b: string)
    requires Blanks(a) && Blanks(b) && (m != "" ==> !Blank(m[0]) && !Blank(m[|m| - 1]))
    ensures Trim(a + m + b) == m
  {
    if m == "" {
      assert a + m + b == (a + b) + "";
      TrimLeftIs(a + b, "");
      TrimRightIs("", "");
    } else {
      assert a + m + b == a + (m + b);
      TrimLeftIs(a, m + b);
      TrimRightIs(m, b);
    }
  }

  predicate AlphaNum(c: char) {
    'a' <= c <= 'z' || '0' <= c <= '9'
  }

  /** The shape of a subdomain: 1 to 63 letters, digits and inner hyphens. */
  predicate IsLabel(s: string) {
    && s != "" && AlphaNum(s[0])
    && (|s| > 1 ==> |s| <= 63 && AlphaNum(s[|s| - 1]) && forall i :: 0 < i < |s| - 1 ==> AlphaNum(s[i]) || s[i] == '-')
  }

  /** A label is its own lower case and holds neither dot nor colon. */
  lemma LabelIsPlain(s: string)
    requires IsLabel(s)
    ensures Lower(s) == s && '.' !in s && ':' !in s && s[0] != '['
  {
    forall i | 0 <= i < |s| ensures LowerChar(s[i]) == s[i] && s[i] != '.' && s[i] != ':' {
      assert AlphaNum(s[i]) || s[i] == '-';
    }
  }

  /** The letters of Latin-1 that have a lower case, which lies 32 further on. */
  predicate Capital(c: char) {
    'A' <= c <= 'Z' || (192 <= c as int <= 222 && c as int != 215)
  }

  /** `s` is `t` but for letter case, some letters of it being capitals. */
  predicate SameLetters(s: string, t: string) {
    |s| == |t| && forall i :: 0 <= i < |s| ==> s[i] == t[i] || (Capital(s[i]) && t[i] as int == s[i] as int + 32)
  }

  predicate NoCapitals(t: string) {
    forall i :: 0 <= i < |t| ==> !Capital(t[i]) && t[i] as int != KELVIN_SIGN
  }

  predicate Latin1(s: string) {
    forall i :: 0 <= i < |s| ==> s[i] as int < 256
  }

  /** Lower case is letter by letter. */
  lemma InAnyCase(s: string, t: string)
    requires Latin1(s)
    ensures Lower(s) == t <==> SameLetters(s, t) && NoCapitals(t)
  {
    if Lower(s) == t {
      forall i | 0 <= i < |s|
        ensures s[i] == t[i] || (Capital(s[i]) && t[i] as int == s[i] as int + 32)
        ensures !Capital(t[i]) && t[i] as int != KELVIN_SIGN
      {
        assert t[i] == LowerChar(s[i]);
      }
    }
  }

  /** A label said in full: up to 63 characters, each a small letter, a digit or a hyphen, and
      no hyphen at either end. */
  lemma LabelIff(s: string)
    ensures IsLabel(s) <==>
      && 1 <= |s| <= 63 && s[0] != '-' && s[|s| - 1] != '-'
      && forall i :: 0 <= i < |s| ==> 'a' <= s[i] <= 'z' || '0' <= s[i] <= '9' || s[i] == '-'
  {
    if IsLabel(s) {
      forall i | 0 <= i < |s| ensures AlphaNum(s[i]) || s[i] == '-' { }
    } else if 1 <= |s| <= 63 && s[0] != '-' && s[|s| - 1] != '-'
              && forall i :: 0 <= i < |s| ==> 'a' <= s[i] <= 'z' || '0' <= s[i] <= '9' || s[i] == '-' {
      assert AlphaNum(s[0]) && AlphaNum(s[|s| - 1]);
      assert false;
    }
  }

  lemma LowerAppend(s: string, t: string)
    ensures Lower(s + t) == Lower(s) + Lower(t)
  {
  }

  // ---- colons ------------------------------------------------------------------------

  /** Index of the last `c`, or -1. */
  function LastIndexOf(s: string, c: char): int {
    if s == "" then -1
    else if s[|s| - 1] == c then |s| - 1
    else LastIndexOf(s[..|s| - 1], c)
  }

  lemma {:induction false} LastIndexOfIs(s: string, c: char)
    ensures var r := LastIndexOf(s, c);
            && -1 <= r < |s| && (r >= 0 ==> s[r] == c)
            && forall i :: r < i < |s| ==> s[i] != c
  {
    if s != "" && s[|s| - 1] != c { LastIndexOfIs(s[..|s| - 1], c); }
  }

  function IndexOf(s: string, c: char, from: nat): int
    decreases |s| - from
  {
    if from >= |s| then -1 else if s[from] == c then from else IndexOf(s, c, from + 1)
  }

  lemma {:induction false} IndexOfIs(s: string, c: char, from: nat)
    ensures var r := IndexOf(s, c, from);
            && (r == -1 || (from <= r < |s| && s[r] == c))
            && forall i :: from <= i < |s| && (r == -1 || i < r) ==> s[i] != c
    decreases |s| - from
  {
    if from < |s| && s[from] != c { IndexOfIs(s, c, from + 1); }
  }

  /** Without its port; a bracketed IPv6 literal keeps its colons. */
  function StripPort(host: string): (r: string)
    ensures r <= host
  {
    if host != "" && host[0] == '[' then
      IndexOfIs(host, ']', 0);
      var close := IndexOf(host, ']', 0);
      if close == -1 then host else host[..close + 1]
    else
      LastIndexOfIs(host, ':');
      var colon := LastIndexOf(host, ':');
      if colon == -1 then host else host[..colon]
  }

  lemma StripNoPort(host: string)
    requires host != "" && host[0] != '['
    ensures StripPort(host) == host <==> ':' !in host
  {
    LastIndexOfIs(host, ':');
  }

  /** An IPv6 literal loses whatever is behind its bracket. */
  lemma StripBehindBracket(inner: string, rest: string)
    requires ']' !in inner
    ensures StripPort("[" + inner + "]" + rest) == "[" + inner + "]"
  {
    var host := "[" + inner + "]" + rest;
    IndexOfIs(host, ']', 0);
    assert host[|inner| + 1] == ']';
    forall i | 0 <= i <= |inner| ensures host[i] != ']' { assert i > 0 ==> host[i] == inner[i - 1]; }
    assert host[..|inner| + 2] == "[" + inner + "]";
  }

  lemma StripOnePort(host: string, port: string)
    requires host != "" && host[0] != '[' && ':' !in port
    ensures StripPort(host + ":" + port) == host
  {
    var s := host + ":" + port;
    LastIndexOfIs(s, ':');
    assert s[|host|] == ':';
    assert forall i :: |host| < i < |s| ==> s[i] == port[i - |host| - 1];
    assert s[..|host|] == host;
  }

  predicate EndsWith(s: string, suffix: string) {
    |s| >= |suffix| && s[|s| - |suffix|..] == suffix
  }
}
