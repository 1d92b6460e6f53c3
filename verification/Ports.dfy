/** Public TCP ports: the round-robin search of the registry for a free one, over the
    truncating remainder of JavaScript. */
module Ports {
  import opened Options

  /** `a % b` as JavaScript computes it for a positive `b`: it has the sign of `a`. */
  function Rem(a: int, b: int): (r: int)
    requires b > 0
    ensures -b < r < b
    ensures a >= 0 ==> 0 <= r <= a
    ensures a <= 0 ==> a <= r <= 0
  {
    if a >= 0 then a % b else -((-a) % b)
  }

  /** The `i`-th port looked at in the range of `span` ports from `min` on. */
  function Candidate(min: int, span: int, hint: int, i: nat): int
    requires span > 0
  {
    min + Rem(hint - min + i + span, span)
  }

  /** The first free candidate from the `i`-th on. */
  function FirstFree(taken: set<int>, min: int, span: int, hint: int, i: nat): (r: Option<int>)
    decreases span - i
  {
    if i >= span then None
    else if Candidate(min, span, hint, i) !in taken then Some(Candidate(min, span, hint, i))
    else FirstFree(taken, min, span, hint, i + 1)
  }

  /** The hint after `port` was given out of `min..max`. */
  function HintAfter(min: int, max: int, port: int): int {
    if port + 1 > max then min else port + 1
  }

  lemma {:induction false} FirstFreeIs(taken: set<int>, min: int, span: int, hint: int, i: nat)
    ensures var r := FirstFree(taken, min, span, hint, i);
            && (r.Some? ==> span > 0 && exists j: nat :: i <= j < span && r.value == Candidate(min, span, hint, j))
            && (r.Some? ==> r.value !in taken)
            && (r.None? && span > 0 ==> forall j: nat :: i <= j < span ==> Candidate(min, span, hint, j) in taken)
    decreases span - i
  {
    if i < span && Candidate(min, span, hint, i) in taken { FirstFreeIs(taken, min, span, hint, i + 1); }
  }

  /** Quotient and remainder are determined by their equation. */
  lemma RemainderIs(x: int, b: int, q: int, y: int)
    requires b > 0 && 0 <= y < b && x == b * q + y
    ensures x % b == y
  {
    Unique(b, x / b, x % b, q, y);
  }

  lemma Unique(b: int, p: int, z: int, q: int, y: int)
    requires b > 0 && 0 <= y < b && 0 <= z < b && b * p + z == b * q + y
    ensures z == y
  {
    assert b * (p - q) == y - z;
    if p > q {
      Multiple(b, p - q);
    } else if p < q {
      Multiple(b, q - p);
    }
  }

  lemma Multiple(b: int, d: int)
    requires b > 0 && d > 0
    ensures b * d >= b
  {
  }

  /** From a hint no further than one span below the range, every port of the range is
      looked at, and no other. */
  lemma RangeIsCovered(min: int, span: int, hint: int, port: int)
    requires span > 0 && hint >= min - span && min <= port < min + span
    ensures exists i: nat :: i < span && Candidate(min, span, hint, i) == port
  {
    var x := hint - min + span;
    var i := (port - min - x) % span;
    var q := (port - min - x) / span;
    assert port - min - x == span * q + i;
    assert x + i == span * (-q) + (port - min) by { assert span * (-q) == -(span * q); }
    RemainderIs(x + i, span, -q, port - min);
    assert Candidate(min, span, hint, i) == port;
  }

  /** An automatic claim with a hint inside the server's range finds a port that nobody has
      and that the server may use, and leaves such a hint. */
  lemma ClaimIsFree(taken: set<int>, lo: int, hi: int, min: int, max: int, hint: int)
    requires lo <= min && max <= hi && lo <= hint <= hi
    ensures var r := FirstFree(taken, min, max - min + 1, hint, 0);
            r.Some? ==> r.value !in taken && lo <= r.value <= max && lo <= HintAfter(min, max, r.value) <= hi
  {
    FirstFreeIs(taken, min, max - min + 1, hint, 0);
  }

  /** With the hint at most one span below the token's range, or a single port in it, the
      port is in that range, and none is found if and only if every port of it is taken. */
  lemma ClaimIsExhaustive(taken: set<int>, min: int, max: int, hint: int)
    requires hint >= min - (max - min + 1) || max == min
    ensures var r := FirstFree(taken, min, max - min + 1, hint, 0);
            && (r.Some? ==> min <= r.value <= max)
            && (r.None? <==> forall p :: min <= p <= max ==> p in taken)
  {
    var span := max - min + 1;
    FirstFreeIs(taken, min, span, hint, 0);
    if FirstFree(taken, min, span, hint, 0).None? {
      forall p | min <= p <= max ensures p in taken {
        if span > 1 || hint >= min - span { RangeIsCovered(min, span, hint, p); }
        else { assert Candidate(min, span, hint, 0) in taken; }
      }
    }
  }

  ghost predicate AlwaysInRange(min: int, span: int, hint: int) {
    forall taken: set<int> ::
      var r := FirstFree(taken, min, span, hint, 0);
      r.Some? ==> min <= r.value < min + span
  }

  /** Exactly when a claim can never leave the token's range: the hint is at most one span
      below it, or the range is a single port. */
  lemma ClaimInRangeIff(min: int, span: int, hint: int)
    requires span > 0
    ensures AlwaysInRange(min, span, hint) <==> hint >= min - span || span == 1
  {
    if hint >= min - span || span == 1 {
      forall taken: set<int>
        ensures FirstFree(taken, min, span, hint, 0).Some? ==>
                  min <= FirstFree(taken, min, span, hint, 0).value < min + span
      {
        FirstFreeIs(taken, min, span, hint, 0);
      }
    } else {
      LeavesRange(min, span, hint);
    }
  }

  /** A lower hint makes the first or the second candidate fall below the range. */
  lemma LeavesRange(min: int, span: int, hint: int)
    requires span > 1 && hint < min - span
    ensures !AlwaysInRange(min, span, hint)
  {
    var d := min - span - hint;
    assert Candidate(min, span, hint, 0) == min - d % span;
    if d % span != 0 {
      assert FirstFree({}, min, span, hint, 0) == Some(min - d % span);
    } else {
      NextRem(d, span);
      assert Candidate(min, span, hint, 1) == min - (d - 1) % span;
      assert FirstFree({min}, min, span, hint, 0) == FirstFree({min}, min, span, hint, 1) == Some(min - (d - 1) % span);
    }
  }

  lemma NextRem(d: int, b: int)
    requires b > 1 && d > 0 && d % b == 0
    ensures (d - 1) % b == b - 1
  {
    var q := d / b;
    assert d == b * q && q > 0;
    assert b * (q - 1) + (b - 1) == d - 1;
    RemainderIs(d - 1, b, q - 1, b - 1);
  }

  ghost predicate FailsOnlyWhenFull(min: int, span: int, hint: int) {
    forall taken: set<int> ::
      FirstFree(taken, min, span, hint, 0).None? ==> forall p :: min <= p < min + span ==> p in taken
  }

  /** And exactly when the search never fails with a port of the range still free: under the
      very same condition. */
  lemma FailsOnlyWhenFullIff(min: int, span: int, hint: int)
    requires span > 0
    ensures FailsOnlyWhenFull(min, span, hint) <==> hint >= min - span || span == 1
  {
    if hint >= min - span || span == 1 {
      forall taken: set<int> | FirstFree(taken, min, span, hint, 0).None?
        ensures forall p :: min <= p < min + span ==> p in taken
      {
        ClaimIsExhaustive(taken, min, min + span - 1, hint);
      }
    } else {
      TopIsMissed(min, span, hint);
    }
  }

  /** From a lower hint the top port of the range is no candidate. */
  lemma TopIsMissed(min: int, span: int, hint: int)
    requires span > 1 && hint < min - span
    ensures !FailsOnlyWhenFull(min, span, hint)
  {
    var taken := set i: nat | i < span :: Candidate(min, span, hint, i);
    FirstFreeIs(taken, min, span, hint, 0);
    assert FirstFree(taken, min, span, hint, 0).None?;
    forall i: nat | i < span ensures Candidate(min, span, hint, i) != min + span - 1 {
      var x := hint - min + i + span;
      assert x < span - 1 && Candidate(min, span, hint, i) == min + Rem(x, span);
    }
    assert min + span - 1 !in taken;
  }

  /** The smallest such case: 101 is free, and the search fails. */
  lemma MissesFreePort()
    ensures FirstFree({99, 100}, 100, 2, 97, 0) == None && 101 !in {99, 100}
  {
    assert Candidate(100, 2, 97, 0) == 99 && Candidate(100, 2, 97, 1) == 100;
    assert FirstFree({99, 100}, 100, 2, 97, 2) == None;
  }

  // ---- taking turns ------------------------------------------------------------------

  /** The search stops at the first free candidate. */
  lemma {:induction false} FoundFirst(taken: set<int>, min: int, span: int, hint: int, i: nat) returns (j: nat)
    requires FirstFree(taken, min, span, hint, i).Some?
    ensures i <= j < span && FirstFree(taken, min, span, hint, i).value == Candidate(min, span, hint, j)
    ensures forall k: nat :: i <= k < j ==> Candidate(min, span, hint, k) in taken
    decreases span - i
  {
    if Candidate(min, span, hint, i) !in taken {
      j := i;
    } else {
      j := FoundFirst(taken, min, span, hint, i + 1);
    }
  }

  /** From the hint a port leaves behind, that port is the last candidate. */
  lemma LastInTurn(min: int, max: int, port: int, j: nat)
    requires min <= port <= max && j < max - min + 1
    requires Candidate(min, max - min + 1, HintAfter(min, max, port), j) == port
    ensures j == max - min
  {
    var span := max - min + 1;
    var x := HintAfter(min, max, port) - min;
    var y := if x + j < span then x + j else x + j - span;
    RemainderIs(x + j + span, span, if x + j < span then 1 else 2, y);
  }

  /** Ports are given out in turn: the port claimed last comes again only when every other
      port of the range is taken. */
  lemma RoundRobin(taken: set<int>, min: int, max: int, port: int)
    requires min <= port <= max
    requires FirstFree(taken, min, max - min + 1, HintAfter(min, max, port), 0) == Some(port)
    ensures forall p :: min <= p <= max && p != port ==> p in taken
  {
    var span, hint := max - min + 1, HintAfter(min, max, port);
    var j := FoundFirst(taken, min, span, hint, 0);
    LastInTurn(min, max, port, j);
    forall p | min <= p <= max && p != port ensures p in taken {
      RangeIsCovered(min, span, hint, p);
    }
  }
}
