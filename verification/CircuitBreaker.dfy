/** The MCP client's lifecycle task: reconnect with backoff, and a circuit breaker over a sliding window of crashes.
    Clock readings and what each connection attempt does are arbitrary inputs. */
module CircuitBreaker {
  import opened Common

  const FIRST_BACKOFF: real := 0.5
  const LAST_BACKOFF: real := 30.0

  type RequestId = nat

  datatype Answer = Result(value: string) | TimedOut | Crashed | CircuitOpen

  function Pruned(failures: seq<real>, now: real, window: real): seq<real> {
    if failures != [] && now - failures[0] > window then Pruned(failures[1..], now, window) else failures
  }

  /** Each request of the inbox that is still unanswered gets `answer`. */
  function AnsweredAll(answers: map<RequestId, Answer>, inbox: seq<RequestId>, answer: Answer): map<RequestId, Answer> {
    map id | id in answers.Keys + (set waiting | waiting in inbox) ::
      if id in answers then answers[id] else answer
  }

  lemma AnswerFirst(answers: map<RequestId, Answer>, inbox: seq<RequestId>, answer: Answer)
    requires inbox != []
    ensures AnsweredAll(answers, inbox, answer) ==
              AnsweredAll(if inbox[0] in answers then answers else answers[inbox[0] := answer], inbox[1..], answer)
  {
    assert inbox == [inbox[0]] + inbox[1..];
  }

  /** An answer once given stands, everything that waited without one gets this one, and nobody else does. */
  lemma AnswersStand(answers: map<RequestId, Answer>, inbox: seq<RequestId>, answer: Answer)
    ensures var all := AnsweredAll(answers, inbox, answer);
            && (forall id :: id in all <==> id in answers || id in inbox)
            && (forall id :: id in answers ==> all[id] == answers[id])
            && (forall id :: id in inbox && id !in answers ==> all[id] == answer)
  {
  }

  /** One pass of the lifecycle loop. `ready` says whether the session came up before the attempt crashed. */
  datatype Round = Round(now: real, ready: bool, crash: real, wake: real)

  datatype State = State(failures: seq<real>, backoff: real)

  predicate IsOpen(s: State, r: Round, maxFailures: int, window: real) {
    |Pruned(s.failures, r.now, window)| >= maxFailures
  }

  function BackoffUsed(s: State, r: Round): real {
    if r.ready then FIRST_BACKOFF else s.backoff
  }

  function After(s: State, r: Round, maxFailures: int, window: real): State {
    if IsOpen(s, r, maxFailures, window) then
      State([], s.backoff)
    else
      var doubled := BackoffUsed(s, r) * 2.0;
      State(Pruned(s.failures, r.now, window) + [r.crash], if doubled < LAST_BACKOFF then doubled else LAST_BACKOFF)
  }

  class McpClientManager {
    const maxFailures: int
    const window: real
    var failures: seq<real>
    var backoff: real
    var inbox: seq<RequestId>
    var answers: map<RequestId, Answer>

    function View(): State
      reads this
    {
      State(failures, backoff)
    }

    constructor (maxFailures: int, window: real)
      ensures this.maxFailures == maxFailures && this.window == window
      ensures View() == State([], FIRST_BACKOFF) && inbox == [] && answers == map[]
    {
      this.maxFailures, this.window := maxFailures, window;
      failures, backoff, inbox, answers := [], FIRST_BACKOFF, [], map[];
    }

    method BreakerOpen(now: real) returns (open: bool)
      modifies this`failures
      ensures failures == Pruned(old(failures), now, window)
      ensures open <==> |failures| >= maxFailures
    {
      while failures != [] && now - failures[0] > window
        invariant Pruned(failures, now, window) == Pruned(old(failures), now, window)
        decreases |failures|
      {
        failures := failures[1..];
      }
      open := |failures| >= maxFailures;
    }

    method DrainWith(answer: Answer)
      modifies this`inbox, this`answers
      ensures inbox == []
      ensures answers == AnsweredAll(old(answers), old(inbox), answer)
    {
      while inbox != []
        invariant AnsweredAll(answers, inbox, answer) == AnsweredAll(old(answers), old(inbox), answer)
        decreases |inbox|
      {
        var id := inbox[0];
        AnswerFirst(answers, inbox, answer);
        inbox := inbox[1..];
        if id !in answers {
          answers := answers[id := answer];
        }
      }
    }

    /** One pass: when the breaker is open everything waiting is told so, and after the sleep the failures are forgotten;
        otherwise the attempt runs until its crash is recorded. */
    method RunOnce(r: Round)
      modifies this
      ensures View() == After(old(View()), r, maxFailures, window)
      ensures var open := IsOpen(old(View()), r, maxFailures, window);
              if open then inbox == [] && answers == AnsweredAll(old(answers), old(inbox), CircuitOpen)
              else inbox == old(inbox) && answers == old(answers)
    {
      var open := BreakerOpen(r.now);
      if open {
        DrainWith(CircuitOpen);
        failures := [];
        return;
      }
      if r.ready {
        backoff := FIRST_BACKOFF;
      }
      failures := failures + [r.crash];
      backoff := if backoff * 2.0 < LAST_BACKOFF then backoff * 2.0 else LAST_BACKOFF;
    }

    /** Serves the oldest request of the inbox; says whether the session goes on. */
    method ServeOne(reply: Answer) returns (alive: bool)
      requires inbox != [] && !reply.CircuitOpen?
      modifies this`inbox, this`answers
      ensures inbox == old(inbox)[1..]
      ensures answers == AnsweredAll(old(answers), old(inbox)[..1], reply)
      ensures alive <==> !reply.Crashed?
    {
      var id := inbox[0];
      inbox := inbox[1..];
      if id !in answers {
        answers := answers[id := reply];
      }
      alive := !reply.Crashed?;
    }
  }

  // ------------------------------------------------------------------ one call

  ghost predicate Ordered(times: seq<real>) {
    forall i, j :: 0 <= i <= j < |times| ==> times[i] <= times[j]
  }

  /** Pruning keeps exactly the crashes still inside the window. */
  lemma {:induction false} PruningIsExact(failures: seq<real>, now: real, window: real) returns (k: nat)
    requires Ordered(failures)
    ensures k <= |failures| && Pruned(failures, now, window) == failures[k..]
    ensures forall i :: 0 <= i < k ==> now - failures[i] > window
    ensures forall i :: k <= i < |failures| ==> now - failures[i] <= window
  {
    if failures != [] && now - failures[0] > window {
      var rest := failures[1..];
      var k' := PruningIsExact(rest, now, window);
      k := k' + 1;
      forall i | 0 <= i < |failures| ensures (now - failures[i] > window) <==> i < k {
        if i > 0 {
          assert failures[i] == rest[i - 1];
        }
      }
      assert rest[k'..] == failures[k..];
    } else {
      k := 0;
    }
  }

  // ------------------------------------------------------------------ whole runs

  /** A run so far: the manager's state, the earliest the loop can go on, and every crash it ever recorded. */
  datatype World = World(state: State, clock: real, log: seq<real>)

  /** The clock never goes back, and a sleep lasts at least as long as asked for. */
  predicate Possible(w: World, r: Round, maxFailures: int, window: real) {
    && w.clock <= r.now
    && if IsOpen(w.state, r, maxFailures, window) then r.now + window <= r.wake
       else r.now <= r.crash && r.crash + BackoffUsed(w.state, r) <= r.wake
  }

  function Advanced(w: World, r: Round, maxFailures: int, window: real): World {
    World(After(w.state, r, maxFailures, window), r.wake,
          if IsOpen(w.state, r, maxFailures, window) then w.log else w.log + [r.crash])
  }

  predicate Leads(w: World, r: Round, w': World, maxFailures: int, window: real) {
    Possible(w, r, maxFailures, window) && w' == Advanced(w, r, maxFailures, window)
  }

  ghost predicate Lived(rounds: seq<Round>, w: World, maxFailures: int, window: real) {
    if rounds == [] then
      w.state == State([], FIRST_BACKOFF) && w.log == []
    else
      var before, r := rounds[..|rounds| - 1], rounds[|rounds| - 1];
      exists w0 :: Lived(before, w0, maxFailures, window) && Leads(w0, r, w, maxFailures, window)
  }

  /** The deque is the tail of the log, and what was dropped from it has left the window for good. */
  ghost predicate Inv(w: World, maxFailures: int, window: real) {
    && FIRST_BACKOFF <= w.state.backoff <= LAST_BACKOFF
    && Ordered(w.log)
    && (w.log != [] ==> w.log[|w.log| - 1] + FIRST_BACKOFF <= w.clock)
    && |w.state.failures| <= Max(0, maxFailures) && |w.state.failures| <= |w.log|
    && w.state.failures == w.log[|w.log| - |w.state.failures|..]
    && forall i :: 0 <= i < |w.log| - |w.state.failures| ==> w.log[i] + window < w.clock
  }

  /** The rate guarantee in its pairwise form. */
  ghost predicate Spaced(log: seq<real>, maxFailures: int, window: real) {
    forall i, j :: 0 <= i <= j < |log| && j - i >= maxFailures ==> log[i] + window < log[j]
  }

  lemma OpenRoundKeeps(w: World, r: Round, maxFailures: int, window: real)
    requires 0.0 <= window && Inv(w, maxFailures, window)
    requires Possible(w, r, maxFailures, window) && IsOpen(w.state, r, maxFailures, window)
    ensures Inv(Advanced(w, r, maxFailures, window), maxFailures, window)
  {
    forall i | 0 <= i < |w.log| ensures w.log[i] + window < r.wake {
      assert w.log[i] <= w.log[|w.log| - 1];
    }
  }

  lemma PruningCutsTail(log: seq<real>, cut: nat, now: real, window: real) returns (kept: nat)
    requires Ordered(log) && cut <= |log|
    ensures cut <= kept <= |log| && Pruned(log[cut..], now, window) == log[kept..]
    ensures forall i :: cut <= i < kept ==> log[i] + window < now
  {
    var tail := log[cut..];
    assert Ordered(tail);
    var k := PruningIsExact(tail, now, window);
    kept := cut + k;
    assert tail[k..] == log[kept..];
    forall i | cut <= i < kept ensures log[i] + window < now {
      assert log[i] == tail[i - cut];
    }
  }

  /** What is still in the deque after pruning is the tail of the log from `kept` on; the rest has left the window. */
  lemma PruningCutsLog(w: World, now: real, maxFailures: int, window: real) returns (kept: nat)
    requires Inv(w, maxFailures, window) && w.clock <= now
    ensures kept <= |w.log| && Pruned(w.state.failures, now, window) == w.log[kept..]
    ensures forall i :: 0 <= i < kept ==> w.log[i] + window < now
  {
    kept := PruningCutsTail(w.log, |w.log| - |w.state.failures|, now, window);
  }

  /** One more crash keeps the rate bounded when the earlier ones that have not left the window are few enough. */
  lemma CrashKeepsSpacing(log: seq<real>, kept: nat, crash: real, maxFailures: int, window: real)
    requires Ordered(log) && Spaced(log, maxFailures, window)
    requires kept <= |log| && |log| - kept < maxFailures
    requires forall i :: 0 <= i < kept ==> log[i] + window < crash
    requires log != [] ==> log[|log| - 1] <= crash
    ensures Ordered(log + [crash]) && Spaced(log + [crash], maxFailures, window)
  {
    var longer := log + [crash];
    forall i, j | 0 <= i <= j < |longer| ensures longer[i] <= longer[j] {
      if j == |log| && i < j {
        assert log[i] <= log[|log| - 1];
      }
    }
  }

  lemma ClosedRoundKeeps(w: World, r: Round, maxFailures: int, window: real)
    requires 0.0 <= window && Inv(w, maxFailures, window) && Spaced(w.log, maxFailures, window)
    requires Possible(w, r, maxFailures, window) && !IsOpen(w.state, r, maxFailures, window)
    ensures var w' := Advanced(w, r, maxFailures, window);
            Inv(w', maxFailures, window) && Spaced(w'.log, maxFailures, window)
  {
    var kept := PruningCutsLog(w, r.now, maxFailures, window);
    CrashKeepsSpacing(w.log, kept, r.crash, maxFailures, window);
    assert w.log[kept..] + [r.crash] == (w.log + [r.crash])[kept..];
  }

  lemma {:induction false} RunKeeps(rounds: seq<Round>, w: World, maxFailures: int, window: real)
    requires 0.0 <= window && Lived(rounds, w, maxFailures, window)
    ensures Inv(w, maxFailures, window) && Spaced(w.log, maxFailures, window)
    decreases |rounds|
  {
    if rounds != [] {
      var before, r := rounds[..|rounds| - 1], rounds[|rounds| - 1];
      var w0 :| Lived(before, w0, maxFailures, window) && Leads(w0, r, w, maxFailures, window);
      RunKeeps(before, w0, maxFailures, window);
      if IsOpen(w0.state, r, maxFailures, window) {
        OpenRoundKeeps(w0, r, maxFailures, window);
      } else {
        ClosedRoundKeeps(w0, r, maxFailures, window);
      }
    }
  }

  /** How many crashes fall between two moments, both included. */
  function CrashesWithin(log: seq<real>, from: real, to: real): nat {
    if log == [] then 0
    else CrashesWithin(log[..|log| - 1], from, to) + if from <= log[|log| - 1] <= to then 1 else 0
  }

  /** In an ordered log those crashes are one stretch. */
  lemma {:induction false} StretchOf(log: seq<real>, from: real, to: real) returns (lo: nat, hi: nat)
    requires Ordered(log)
    ensures lo <= hi <= |log| && CrashesWithin(log, from, to) == hi - lo
    ensures lo < hi ==> from <= log[lo] && log[hi - 1] <= to
    ensures hi < |log| ==> lo == hi || to < log[hi]
    ensures lo == hi < |log| ==> !(from <= log[|log| - 1] <= to)
  {
    if log == [] {
      lo, hi := 0, 0;
    } else {
      var n := |log| - 1;
      lo, hi := StretchOf(log[..n], from, to);
      if from <= log[n] <= to {
        if lo == hi {
          lo, hi := n, n + 1;
        } else {
          assert hi == n;
          hi := n + 1;
        }
      } else if lo < hi && hi == n {
        assert log[lo] <= log[n];
      }
    }
  }

  /** Over any run of the lifecycle, however the deque was pruned and cleared along the way, no stretch of time as long as
      the window holds more than `maxFailures` recorded crashes. */
  lemma CrashRateIsBounded(rounds: seq<Round>, w: World, maxFailures: int, window: real, from: real, to: real)
    requires 0.0 <= window && Lived(rounds, w, maxFailures, window)
    requires to - from <= window
    ensures CrashesWithin(w.log, from, to) <= Max(0, maxFailures)
  {
    RunKeeps(rounds, w, maxFailures, window);
    var lo, hi := StretchOf(w.log, from, to);
  }

  // ------------------------------------------------------------------ the bound is exact

  lemma LivesOn(rounds: seq<Round>, w: World, r: Round, maxFailures: int, window: real)
    requires Lived(rounds, w, maxFailures, window) && Possible(w, r, maxFailures, window)
    ensures Lived(rounds + [r], Advanced(w, r, maxFailures, window), maxFailures, window)
  {
    assert (rounds + [r])[..|rounds|] == rounds;
    assert Leads(w, r, Advanced(w, r, maxFailures, window), maxFailures, window);
  }

  /** Between two crashes there is at least the shortest backoff. */
  ghost predicate BackedOff(log: seq<real>) {
    forall i :: 0 <= i < |log| - 1 ==> log[i] + FIRST_BACKOFF <= log[i + 1]
  }

  lemma {:induction false} RunBacksOff(rounds: seq<Round>, w: World, maxFailures: int, window: real)
    requires 0.0 <= window && Lived(rounds, w, maxFailures, window)
    ensures BackedOff(w.log)
    decreases |rounds|
  {
    if rounds != [] {
      var before, r := rounds[..|rounds| - 1], rounds[|rounds| - 1];
      var w0 :| Lived(before, w0, maxFailures, window) && Leads(w0, r, w, maxFailures, window);
      RunBacksOff(before, w0, maxFailures, window);
      RunKeeps(before, w0, maxFailures, window);
    }
  }

  lemma {:induction false} BackoffsAddUp(log: seq<real>, i: nat, j: nat)
    requires BackedOff(log) && i <= j < |log|
    ensures log[i] + FIRST_BACKOFF * (j - i) as real <= log[j]
    decreases j
  {
    if i < j {
      BackoffsAddUp(log, i, j - 1);
    }
  }

  /** Crash number `j` of the densest burst that ends at `late`: one at 0, the others as late and as close as the backoff
      allows. */
  function BurstTime(m: nat, late: real, j: nat): real {
    if j == 0 then 0.0 else late - FIRST_BACKOFF * (m - j) as real
  }

  function Burst(m: nat, late: real, n: nat): seq<real> {
    seq(n, j requires 0 <= j < n => BurstTime(m, late, j))
  }

  lemma {:induction false} PruningShortens(failures: seq<real>, now: real, window: real)
    ensures |Pruned(failures, now, window)| <= |failures|
    ensures failures != [] && now - failures[0] > window ==> |Pruned(failures, now, window)| < |failures|
    decreases |failures|
  {
    if failures != [] && now - failures[0] > window {
      PruningShortens(failures[1..], now, window);
    }
  }

  /** The breaker is still closed for the next crash of the burst. */
  lemma BurstIsLetThrough(w: World, m: nat, window: real, late: real, i: nat)
    requires Inv(w, m, window) && w.log == Burst(m, late, i) && 1 <= i <= m && late > window >= 0.0
    ensures |Pruned(w.state.failures, BurstTime(m, late, i), window)| < m
  {
    PruningShortens(w.state.failures, BurstTime(m, late, i), window);
    if i == m && |w.state.failures| == m {
      assert w.state.failures[0] == w.log[0] == 0.0;
      assert BurstTime(m, late, m) == late;
    }
  }

  /** The next round of the burst. */
  function BurstRound(m: nat, late: real, j: nat): Round {
    var t := BurstTime(m, late, j);
    Round(t, true, t, t + FIRST_BACKOFF)
  }

  lemma BurstGoesOn(w: World, m: nat, window: real, late: real, n: nat)
    requires w.log == Burst(m, late, n) && w.clock <= BurstTime(m, late, n)
    requires |Pruned(w.state.failures, BurstTime(m, late, n), window)| < m
    ensures Possible(w, BurstRound(m, late, n), m, window)
    ensures var w' := Advanced(w, BurstRound(m, late, n), m, window);
            w'.log == Burst(m, late, n + 1) && w'.clock == BurstTime(m, late, n) + FIRST_BACKOFF
  {
    assert Burst(m, late, n + 1) == Burst(m, late, n) + [BurstTime(m, late, n)];
  }

  /** A run whose log is the first `n` crashes of the burst. */
  ghost predicate Bursting(rounds: seq<Round>, w: World, m: nat, window: real, late: real, n: nat)
    requires n >= 1
  {
    Lived(rounds, w, m, window) && w.log == Burst(m, late, n) && w.clock == BurstTime(m, late, n - 1) + FIRST_BACKOFF
  }

  lemma BurstBegins(m: nat, window: real, late: real) returns (rounds: seq<Round>, w: World)
    requires m >= 1 && window >= 0.0
    ensures Bursting(rounds, w, m, window, late, 1)
  {
    var w0, r := World(State([], FIRST_BACKOFF), 0.0, []), BurstRound(m, late, 0);
    BurstGoesOn(w0, m, window, late, 0);
    LivesOn([], w0, r, m, window);
    rounds, w := [] + [r], Advanced(w0, r, m, window);
  }

  lemma BurstExtends(before: seq<Round>, w0: World, m: nat, window: real, late: real, n: nat)
      returns (rounds: seq<Round>, w: World)
    requires 1 <= n <= m && late > window >= 0.0 && late >= FIRST_BACKOFF * m as real
    requires Bursting(before, w0, m, window, late, n)
    ensures Bursting(rounds, w, m, window, late, n + 1)
  {
    RunKeeps(before, w0, m, window);
    BurstIsLetThrough(w0, m, window, late, n);
    BurstSpacing(m, late, n);
    var r := BurstRound(m, late, n);
    BurstGoesOn(w0, m, window, late, n);
    LivesOn(before, w0, r, m, window);
    rounds, w := before + [r], Advanced(w0, r, m, window);
  }

  lemma {:induction false} BurstHappens(m: nat, window: real, late: real, n: nat) returns (rounds: seq<Round>, w: World)
    requires 1 <= n <= m + 1 && m >= 1 && late > window >= 0.0 && late >= FIRST_BACKOFF * m as real
    ensures Bursting(rounds, w, m, window, late, n)
    decreases n
  {
    if n == 1 {
      rounds, w := BurstBegins(m, window, late);
    } else {
      rounds, w := BurstHappens(m, window, late, n - 1);
      rounds, w := BurstExtends(rounds, w, m, window, late, n - 1);
    }
  }

  lemma BurstSpacing(m: nat, late: real, j: nat)
    requires 1 <= j <= m && late >= FIRST_BACKOFF * m as real
    ensures BurstTime(m, late, j - 1) + FIRST_BACKOFF <= BurstTime(m, late, j)
    ensures 0.0 <= BurstTime(m, late, j) <= late
  {
    assert (m - j) as real == m as real - j as real;
  }

  lemma {:induction false} AllWithin(log: seq<real>, from: real, to: real)
    requires forall i :: 0 <= i < |log| ==> from <= log[i] <= to
    ensures CrashesWithin(log, from, to) == |log|
    decreases |log|
  {
    if log != [] {
      AllWithin(log[..|log| - 1], from, to);
    }
  }

  /** The run has more than `m` crashes within a stretch of this length. */
  ghost predicate Exceeds(rounds: seq<Round>, w: World, m: nat, window: real, from: real, length: real) {
    Lived(rounds, w, m, window) && CrashesWithin(w.log, from, from + length) > m
  }

  ghost predicate CanExceed(m: nat, window: real, length: real) {
    exists rounds, w, from :: Exceeds(rounds, w, m, window, from, length)
  }

  lemma CrowdedStretchIsLong(log: seq<real>, m: nat, from: real, to: real)
    requires Ordered(log) && BackedOff(log) && CrashesWithin(log, from, to) > m
    ensures to - from >= FIRST_BACKOFF * m as real
  {
    var lo, hi := StretchOf(log, from, to);
    BackoffsAddUp(log, lo, lo + m);
    assert log[lo + m] <= log[hi - 1];
    assert (lo + m - lo) as real == m as real;
  }

  lemma ExceedingOutlastsWindow(rounds: seq<Round>, w: World, m: nat, window: real, from: real, length: real)
    requires window >= 0.0 && Exceeds(rounds, w, m, window, from, length)
    ensures length > window
  {
    if length <= window {
      CrashRateIsBounded(rounds, w, m, window, from, from + length);
    }
  }

  lemma ExceedingOutlastsBackoffs(rounds: seq<Round>, w: World, m: nat, window: real, from: real, length: real)
    requires window >= 0.0 && Exceeds(rounds, w, m, window, from, length)
    ensures length >= FIRST_BACKOFF * m as real
  {
    RunKeeps(rounds, w, m, window);
    RunBacksOff(rounds, w, m, window);
    CrowdedStretchIsLong(w.log, m, from, from + length);
  }

  lemma BurstExceeds(m: nat, window: real, length: real) returns (rounds: seq<Round>, w: World)
    requires m >= 1 && length > window >= 0.0 && length >= FIRST_BACKOFF * m as real
    ensures Exceeds(rounds, w, m, window, 0.0, length)
  {
    rounds, w := BurstHappens(m, window, length, m + 1);
    forall i | 0 <= i < |w.log| ensures 0.0 <= w.log[i] <= length {
      if i > 0 {
        BurstSpacing(m, length, i);
      }
    }
    AllWithin(w.log, 0.0, length);
    assert 0.0 + length == length;
  }

  /** The limit is exact: for m ≥ 1 allowed failures, m + 1 crashes can fall into a stretch of some length if and only if it
      is longer than the window and leaves room for the m backoffs between them. */
  lemma RateIsExact(m: nat, window: real, length: real)
    requires m >= 1 && window >= 0.0
    ensures CanExceed(m, window, length) <==> length > window && length >= 0.5 * m as real
  {
    if CanExceed(m, window, length) {
      var rounds, w, from :| Exceeds(rounds, w, m, window, from, length);
      ExceedingOutlastsWindow(rounds, w, m, window, from, length);
      ExceedingOutlastsBackoffs(rounds, w, m, window, from, length);
    }
    if length > window && length >= FIRST_BACKOFF * m as real {
      var rounds, w := BurstExceeds(m, window, length);
    }
  }

  // ------------------------------------------------------------------ the backoff

  function Doubled(backoff: real, times: nat): real {
    if times == 0 then backoff else 2.0 * Doubled(backoff, times - 1)
  }

  /** Closed rounds one after the other in none of which the session came up. */
  ghost predicate Struggles(w: World, rounds: seq<Round>, w': World, maxFailures: int, window: real) {
    if rounds == [] then
      w' == w
    else
      var before, r := rounds[..|rounds| - 1], rounds[|rounds| - 1];
      exists w1 :: Struggles(w, before, w1, maxFailures, window) && Leads(w1, r, w', maxFailures, window)
                   && !IsOpen(w1.state, r, maxFailures, window) && !r.ready
  }

  /** Each attempt in a row that never comes up doubles the backoff, up to half a minute. */
  lemma {:induction false} BackoffDoubles(w: World, rounds: seq<Round>, w': World, maxFailures: int, window: real)
    requires Struggles(w, rounds, w', maxFailures, window) && w.state.backoff <= 30.0
    ensures var doubled := Doubled(w.state.backoff, |rounds|);
            w'.state.backoff == if doubled < 30.0 then doubled else 30.0
    decreases |rounds|
  {
    if rounds != [] {
      var before, r := rounds[..|rounds| - 1], rounds[|rounds| - 1];
      var w1 :| Struggles(w, before, w1, maxFailures, window) && Leads(w1, r, w', maxFailures, window)
                && !IsOpen(w1.state, r, maxFailures, window) && !r.ready;
      BackoffDoubles(w, before, w1, maxFailures, window);
      StruggleDoubles(w1.state, r, maxFailures, window);
    }
  }

  lemma StruggleDoubles(s: State, r: Round, maxFailures: int, window: real)
    requires !IsOpen(s, r, maxFailures, window) && !r.ready
    ensures After(s, r, maxFailures, window).backoff == if s.backoff * 2.0 < 30.0 then s.backoff * 2.0 else 30.0
  {
  }

  /** A session that came up starts over from half a second, doubled by the crash that ended it; a tripped breaker keeps the
      backoff and forgets its crashes. */
  lemma BackoffStartsOver(s: State, r: Round, maxFailures: int, window: real)
    ensures var s' := After(s, r, maxFailures, window);
            && (IsOpen(s, r, maxFailures, window) ==> s'.backoff == s.backoff && s'.failures == [])
            && (!IsOpen(s, r, maxFailures, window) && r.ready ==> s'.backoff == 1.0)
  {
  }
}
