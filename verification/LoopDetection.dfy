/** The no-progress detector of the ReAct loop: it halts on an immediate repeat or on a short cycle of calls. */
module LoopDetection {
  import opened Common

  type Signature = string

  datatype Verdict = Go | Repeat | Cycle

  const MUTATING_TOOLS: set<string> := {"write_file", "call_skill_tool"}

  function RepeatLimitFor(name: string, limit: int, mutatingLimit: int): int {
    if name in MUTATING_TOOLS then mutatingLimit else limit
  }

  function SetOf(sigs: seq<Signature>): set<Signature> {
    set s | s in sigs
  }

  predicate AllIn(sigs: seq<Signature>, known: set<Signature>) {
    forall s :: s in sigs ==> s in known
  }

  /** The verdict on a history; `perCall` overrides the repeat threshold, never the cycle rule. */
  function Judged(sigs: seq<Signature>, repeatLimit: int, cycleWindow: int, perCall: Option<int>): Verdict {
    var n := if perCall.Some? then perCall.value else repeatLimit;
    if n < 1 || |sigs| < n then
      Go
    else if |SetOf(From(sigs, -n))| == 1 then
      Repeat
    else
      var window := From(sigs, -cycleWindow);
      var recent, earlier := From(sigs, -repeatLimit), SetOf(UpTo(sigs, -repeatLimit));
      if |window| >= 2 * repeatLimit && |SetOf(window)| <= repeatLimit && AllIn(recent, earlier) then
        Cycle
      else
        Go
  }

  class LoopDetector {
    const repeatLimit: int
    const cycleWindow: int
    var sigs: seq<Signature>
    var reason: Verdict

    constructor (repeatLimit: int, cycleWindow: int)
      ensures this.repeatLimit == repeatLimit && this.cycleWindow == cycleWindow
      ensures sigs == [] && reason == Go
    {
      this.repeatLimit, this.cycleWindow, sigs, reason := repeatLimit, cycleWindow, [], Go;
    }

    method Reset()
      modifies this
      ensures sigs == [] && reason == Go
    {
      sigs, reason := [], Go;
    }

    method Record(signature: Signature, perCall: Option<int>) returns (halt: bool)
      modifies this
      ensures sigs == old(sigs) + [signature]
      ensures halt <==> Judged(sigs, repeatLimit, cycleWindow, perCall) != Go
      ensures reason == if halt then Judged(sigs, repeatLimit, cycleWindow, perCall) else old(reason)
    {
      sigs := sigs + [signature];
      halt := ShouldBreak(perCall);
    }

    method ShouldBreak(perCall: Option<int>) returns (halt: bool)
      modifies this`reason
      ensures halt <==> Judged(sigs, repeatLimit, cycleWindow, perCall) != Go
      ensures reason == if halt then Judged(sigs, repeatLimit, cycleWindow, perCall) else old(reason)
    {
      var repeatN := if perCall.Some? then perCall.value else repeatLimit;
      if repeatN < 1 || |sigs| < repeatN {
        return false;
      }
      if |SetOf(From(sigs, -repeatN))| == 1 {
        reason := Repeat;
        return true;
      }
      var window := From(sigs, -cycleWindow);
      if |window| >= 2 * repeatLimit && |SetOf(window)| <= repeatLimit {
        var recent, earlier := From(sigs, -repeatLimit), SetOf(UpTo(sigs, -repeatLimit));
        if AllIn(recent, earlier) {
          reason := Cycle;
          return true;
        }
      }
      halt := false;
    }
  }

  // ------------------------------------------------------------------ the verdict, call by call

  /** Only calls that write or run code are given the longer limit. */
  lemma RepeatLimits(name: string, limit: int, mutatingLimit: int)
    ensures RepeatLimitFor(name, limit, mutatingLimit) ==
              if name == "write_file" || name == "call_skill_tool" then mutatingLimit else limit
  {
  }

  predicate AllAre(sigs: seq<Signature>, x: Signature) {
    forall s :: s in sigs ==> s == x
  }

  predicate AllAmong(sigs: seq<Signature>, others: seq<Signature>) {
    forall s :: s in sigs ==> s in others
  }

  /** The last `n` calls are all the same. */
  predicate EndsInRepeat(sigs: seq<Signature>, n: int) {
    1 <= n <= |sigs| && AllAre(sigs[|sigs| - n..], sigs[|sigs| - 1])
  }

  /** The window is at least two limits long, holds no more different calls than the limit, and none of the last calls is new. */
  predicate EndsInCycle(sigs: seq<Signature>, limit: nat, window: nat) {
    var n := Min(window, |sigs|);
    && 2 * limit <= n
    && |SetOf(sigs[|sigs| - n..])| <= limit
    && AllAmong(sigs[|sigs| - limit..], sigs[..|sigs| - limit])
  }

  lemma OneMember(sigs: seq<Signature>, x: Signature)
    requires x in sigs
    ensures |SetOf(sigs)| == 1 <==> AllAre(sigs, x)
  {
    if AllAre(sigs, x) {
      assert SetOf(sigs) == {x};
    } else {
      var y :| y in sigs && y != x;
      TwoMembers(sigs, x, y);
    }
  }

  lemma RepeatIsOneSignature(sigs: seq<Signature>, n: int)
    requires 1 <= n <= |sigs|
    ensures |SetOf(From(sigs, -n))| == 1 <==> EndsInRepeat(sigs, n)
  {
    var tail := sigs[|sigs| - n..];
    assert From(sigs, -n) == tail && tail[n - 1] == sigs[|sigs| - 1];
    OneMember(tail, sigs[|sigs| - 1]);
  }

  lemma CycleInWindow(sigs: seq<Signature>, limit: int, window: int)
    requires limit >= 1 && window >= 1
    ensures EndsInCycle(sigs, limit, window) <==>
              |From(sigs, -window)| >= 2 * limit && |SetOf(From(sigs, -window))| <= limit
              && AllIn(From(sigs, -limit), SetOf(UpTo(sigs, -limit)))
  {
    assert From(sigs, -window) == sigs[|sigs| - Min(window, |sigs|)..];
    if limit <= |sigs| {
      assert From(sigs, -limit) == sigs[|sigs| - limit..] && UpTo(sigs, -limit) == sigs[..|sigs| - limit];
    }
  }

  /** What the detector says: a repeat if the call's own limit is reached, else a cycle if the common limit and the window show
      one; and nothing as long as there are fewer calls than the call's limit, or that limit is below 1. */
  lemma JudgedExactly(sigs: seq<Signature>, limit: int, window: int, perCall: int)
    requires limit >= 1 && window >= 1
    ensures var verdict := Judged(sigs, limit, window, Some(perCall));
            && (verdict == Repeat <==> EndsInRepeat(sigs, perCall))
            && (verdict == Cycle <==> 1 <= perCall <= |sigs| && !EndsInRepeat(sigs, perCall) && EndsInCycle(sigs, limit, window))
            && Judged(sigs, limit, window, None) == Judged(sigs, limit, window, Some(limit))
  {
    if 1 <= perCall <= |sigs| {
      RepeatIsOneSignature(sigs, perCall);
      CycleInWindow(sigs, limit, window);
    }
  }

  // ------------------------------------------------------------------ novel calls are safe

  lemma SetGrows(a: seq<Signature>, b: seq<Signature>)
    requires forall s :: s in a ==> s in b
    ensures |SetOf(a)| <= |SetOf(b)|
  {
    Subset(SetOf(a), SetOf(b));
  }

  lemma {:induction false} Subset<T>(a: set<T>, b: set<T>)
    requires a <= b
    ensures |a| <= |b|
  {
    assert b == a + (b - a);
  }

  lemma TwoMembers(sigs: seq<Signature>, x: Signature, y: Signature)
    requires x in sigs && y in sigs && x != y
    ensures |SetOf(sigs)| >= 2
  {
    Subset({x, y}, SetOf(sigs));
  }

  /** A signature never seen before trips the detector exactly when its repeat limit is 1: then every call does. */
  lemma FreshCallTripsExactlyWhen(sigs: seq<Signature>, novel: Signature, r: int, window: int, perCall: Option<int>)
    requires r >= 1 && novel !in sigs
    ensures var limit := if perCall.Some? then perCall.value else r;
            Judged(sigs + [novel], r, window, perCall) != Go <==> limit == 1
  {
    var h := sigs + [novel];
    var limit := if perCall.Some? then perCall.value else r;
    if 1 <= limit <= |h| {
      var tail := From(h, -limit);
      assert tail == h[|h| - limit..];
      assert tail[|tail| - 1] == novel;
      if limit == 1 {
        assert SetOf(tail) == {novel};
      } else {
        assert tail[0] == sigs[|h| - limit];
        TwoMembers(tail, tail[0], novel);
        FreshCallIsNoCycle(sigs, novel, r);
      }
    }
  }

  lemma FreshCallIsNoCycle(sigs: seq<Signature>, novel: Signature, r: int)
    requires r >= 1 && novel !in sigs
    ensures novel in From(sigs + [novel], -r) && novel !in UpTo(sigs + [novel], -r)
  {
    var h := sigs + [novel];
    assert h[|h| - 1] == novel;
    var recent := From(h, -r);
    assert recent[|recent| - 1] == novel;
    assert UpTo(h, -r) <= sigs;
  }

  datatype Call = Call(sig: Signature, limit: Option<int>)

  function Sigs(calls: seq<Call>): (s: seq<Signature>)
    ensures |s| == |calls| && forall i :: 0 <= i < |s| ==> s[i] == calls[i].sig
  {
    seq(|calls|, i requires 0 <= i < |calls| => calls[i].sig)
  }

  /** The verdict after the k-th call of a history. */
  function JudgedAt(calls: seq<Call>, k: nat, r: int, window: int): Verdict
    requires 0 < k <= |calls|
  {
    Judged(Sigs(calls)[..k], r, window, calls[k - 1].limit)
  }

  /** So a history of pairwise distinct calls with limits above 1 never trips it. */
  lemma DistinctCallsNeverTrip(calls: seq<Call>, k: nat, r: int, window: int)
    requires r >= 2 && 0 < k <= |calls|
    requires forall i, j :: 0 <= i < j < |calls| ==> calls[i].sig != calls[j].sig
    requires forall i :: 0 <= i < |calls| && calls[i].limit.Some? ==> calls[i].limit.value != 1
    ensures JudgedAt(calls, k, r, window) == Go
  {
    var sigs := Sigs(calls);
    assert sigs[..k] == sigs[..k - 1] + [sigs[k - 1]];
    FreshCallTripsExactlyWhen(sigs[..k - 1], sigs[k - 1], r, window, calls[k - 1].limit);
  }

  // ------------------------------------------------------------------ stuck loops are broken

  /** Nothing in block `b` (of `r` calls) is seen for the first time. */
  ghost predicate StaleBlock(sigs: seq<Signature>, r: nat, b: nat)
    requires (b + 1) * r <= |sigs| && b * r <= (b + 1) * r
  {
    forall i :: b * r <= i < (b + 1) * r ==> sigs[i] in sigs[..b * r]
  }

  lemma FirstOccurrenceAdds(sigs: seq<Signature>, n: nat, k: nat, i: nat)
    requires n <= i < k <= |sigs| && sigs[i] !in sigs[..n]
    ensures |SetOf(sigs[..n])| < |SetOf(sigs[..k])|
  {
    var before, after := SetOf(sigs[..n]), SetOf(sigs[..k]);
    assert sigs[..k][i] == sigs[i];
    assert before <= after - {sigs[i]} by {
      forall s | s in before
        ensures s in after
      {
        var j :| 0 <= j < n && sigs[..n][j] == s;
        assert sigs[..k][j] == s;
      }
    }
    Subset(before, after - {sigs[i]});
  }

  /** Pigeonhole on first occurrences: with at most `m - 1` signatures in `m` blocks, some block after the first has
      none. */
  lemma {:induction false} SomeBlockIsStale(sigs: seq<Signature>, r: nat, m: nat) returns (b: nat)
    requires r > 0 && m * r <= |sigs|
    requires |SetOf(sigs[..m * r])| < m
    ensures 0 < b < m && b * r <= (b + 1) * r <= m * r && StaleBlock(sigs, r, b)
    decreases m
  {
    var n := (m - 1) * r;
    assert m * r == n + r;
    if m > 1 && StaleBlock(sigs, r, m - 1) {
      b := m - 1;
    } else {
      var i :| n <= i < n + r && sigs[i] !in sigs[..n] by {
        if m == 1 {
          assert sigs[n] !in sigs[..n];
        }
      }
      FirstOccurrenceAdds(sigs, n, n + r, i);
      b := SomeBlockIsStale(sigs, r, m - 1);
    }
  }

  lemma StaleTail(sigs: seq<Signature>, r: nat, b: nat, n: nat)
    requires n == b * r && n + r <= |sigs| && StaleBlock(sigs, r, b)
    ensures var h := sigs[..n + r]; AllAmong(h[|h| - r..], h[..|h| - r])
  {
    var h := sigs[..n + r];
    var recent, earlier := h[|h| - r..], h[..|h| - r];
    assert earlier == sigs[..n];
    forall s | s in recent
      ensures s in earlier
    {
      var i :| 0 <= i < r && recent[i] == s;
      assert sigs[n + i] == s;
    }
  }

  /** A stale block after the first ends in a break, whatever the call's own limit (from 1 to 2r). */
  lemma StaleBlockBreaks(sigs: seq<Signature>, r: nat, b: nat, window: int, perCall: Option<int>)
    requires r > 0 && b > 0 && b * r + r <= |sigs| && (b + 1) * r == b * r + r && b * r >= r
    requires StaleBlock(sigs, r, b)
    requires window >= 2 * r && |SetOf(sigs)| <= r
    requires perCall.Some? ==> 1 <= perCall.value <= 2 * r
    ensures Judged(sigs[..b * r + r], r, window, perCall) != Go
  {
    StaleTail(sigs, r, b, b * r);
    StaleEndBreaks(sigs[..b * r + r], r, window, perCall, sigs);
  }

  /** So does a history whose last `r` calls were all made before. */
  lemma StaleEndBreaks(h: seq<Signature>, r: nat, window: int, perCall: Option<int>, sigs: seq<Signature>)
    requires 0 < r && 2 * r <= |h| && window >= 2 * r && AllAmong(h[|h| - r..], h[..|h| - r])
    requires h <= sigs && |SetOf(sigs)| <= r
    requires perCall.Some? ==> 1 <= perCall.value <= 2 * r
    ensures Judged(h, r, window, perCall) != Go
  {
    var cut: int := 0 - (r as int);
    assert From(h, cut) == h[|h| - r..] && UpTo(h, cut) == h[..|h| - r];
    SetGrows(From(h, -window), sigs);
  }

  /** With window >= 2r and per-call limits within 1..2r, a history of calls with at most r distinct signatures is
      broken within r(r + 1) calls. */
  lemma StuckLoopIsBroken(calls: seq<Call>, r: nat, window: int) returns (k: nat)
    requires r > 0 && window >= 2 * r
    requires forall i :: 0 <= i < |calls| && calls[i].limit.Some? ==> 1 <= calls[i].limit.value <= 2 * r
    requires |SetOf(Sigs(calls))| <= r && |calls| >= r * (r + 1)
    ensures 0 < k <= r * (r + 1) && k <= |calls|
    ensures JudgedAt(calls, k, r, window) != Go
  {
    var b;
    b, k := SomeBlockEndsStale(Sigs(calls), r);
    StaleBlockBreaks(Sigs(calls), r, b, window, calls[k - 1].limit);
  }

  lemma SomeBlockEndsStale(sigs: seq<Signature>, r: nat) returns (b: nat, k: nat)
    requires r > 0 && |SetOf(sigs)| <= r && |sigs| >= r * (r + 1)
    ensures b > 0 && k == b * r + r && (b + 1) * r == k && b * r >= r
    ensures 0 < k <= r * (r + 1) && k <= |sigs|
    ensures b * r <= k && StaleBlock(sigs, r, b)
  {
    SetGrows(sigs[..(r + 1) * r], sigs);
    b := SomeBlockIsStale(sigs, r, r + 1);
    BlockBounds(r, b);
    k := b * r + r;
  }

  lemma BlockBounds(r: nat, b: nat)
    requires 0 < b <= r
    ensures (b + 1) * r == b * r + r && r <= b * r && b * r + r <= r * (r + 1)
  {
    assert b * r <= r * r;
  }
}
