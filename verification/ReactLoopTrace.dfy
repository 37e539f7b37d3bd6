/** What a ReAct loop's variables hold and what it does next, read off the trace of its tool calls alone. */
module ReactLoopTrace {
  import opened Common
  import opened Budgets = IterationBudget
  import opened ReactLoop
  import opened ReactLoopRuns
  import Detection = LoopDetection
  import Guard = CompletionGuard
  import opened Stored = LoopCheckpoint

  // ------------------------------------------------------------------ what a trace comes to

  function EditsIn(trace: seq<Call>): set<string> {
    if trace == [] then {}
    else
      var c := trace[|trace| - 1];
      EditsIn(trace[..|trace| - 1]) + if c.Use? then c.effect.edits else {}
  }

  /** The tools used, in order; a finish is none. */
  function ToolsIn(trace: seq<Call>): seq<string> {
    if trace == [] then []
    else
      var c := trace[|trace| - 1];
      ToolsIn(trace[..|trace| - 1])
      + match c case Finish(_) => [] case Load(_, _, _, _) => ["load_skill"] case Use(name, _, _) => [name]
  }

  function SignaturesIn(trace: seq<Call>): seq<string> {
    if trace == [] then []
    else
      var c := trace[|trace| - 1];
      SignaturesIn(trace[..|trace| - 1])
      + match c case Finish(_) => [] case Load(_, s, _, _) => [s] case Use(_, s, _) => [s]
  }

  /** The skills that were loaded. */
  function LoadedIn(trace: seq<Call>): set<string> {
    if trace == [] then {}
    else
      var c := trace[|trace| - 1];
      LoadedIn(trace[..|trace| - 1]) + if c.Load? && c.loads then {c.skill} else {}
  }

  /** The infrastructure errors since the last test that ran. */
  function Streak(trace: seq<Call>): nat {
    if trace == [] then 0
    else
      var before, c := Streak(trace[..|trace| - 1]), trace[|trace| - 1];
      if c.Use? && c.effect.test == Ran then 0
      else if c.Use? && c.effect.test == InfraError then before + 1
      else before
  }

  /** What the model gets to read after a call that did not end the loop. */
  function ReplyTo(c: Call): seq<Value> {
    match c
    case Finish(_) => [Message("tool", "finish deferred"), Message("user", "verify first")]
    case Load(_, _, _, content) => [Message("tool", content)]
    case Use(_, _, effect) => [Message("tool", effect.content)]
  }

  function Replies(calls: seq<Call>): seq<Value> {
    if calls == [] then [] else ReplyTo(calls[0]) + Replies(calls[1..])
  }

  function Transcript(said: seq<seq<Call>>): seq<Value> {
    if said == [] then []
    else Transcript(said[..|said| - 1]) + ([Message("assistant", "")] + Replies(said[|said| - 1]))
  }

  function AllOf(said: seq<seq<Call>>): seq<Call> {
    if said == [] then [] else AllOf(said[..|said| - 1]) + said[|said| - 1]
  }

  // ------------------------------------------------------------------ the loop's variables

  ghost predicate Recalls(trace: seq<Call>, l: Loop) {
    && l.edited == EditsIn(trace)
    && l.tools == ToolsIn(trace)
    && l.signatures == SignaturesIn(trace)
    && l.loaded == LoadedIn(trace)
  }

  ghost predicate Tracks(trace: seq<Call>, recent: seq<Call>, l: Loop) {
    Recalls(trace, l) && l.infraStreak == Streak(recent)
  }

  ghost predicate TracksAfter(trace: seq<Call>, recent: seq<Call>, messages: seq<Value>, r: CallResult) {
    match r
    case Next(l) => Tracks(trace, recent, l) && l.messages == messages
    case Deferred(l) => Tracks(trace, recent, l) && l.messages == messages
    case Left(_) => true
  }

  lemma OneMore<T>(s: seq<T>, x: T)
    ensures (s + [x])[..|s|] == s && (s + [x])[|s|] == x
  {
  }

  lemma CallTracks(cfg: Config, trace: seq<Call>, recent: seq<Call>, l: Loop, c: Call)
    requires Tracks(trace, recent, l)
    ensures TracksAfter(trace + [c], recent + [c], l.messages + ReplyTo(c), Handled(cfg, l, c))
  {
    OneMore(trace, c);
    OneMore(recent, c);
    assert c.Load? && c.skill in l.loaded ==> l.loaded + {c.skill} == l.loaded;
  }

  lemma Stitched(trace: seq<Call>, recent: seq<Call>, messages: seq<Value>, c: Call, rest: seq<Call>, r: CallResult)
    requires TracksAfter(trace + [c] + rest, recent + [c] + rest, messages + ReplyTo(c) + Replies(rest), r)
    ensures TracksAfter(trace + ([c] + rest), recent + ([c] + rest), messages + Replies([c] + rest), r)
  {
    assert trace + [c] + rest == trace + ([c] + rest) && recent + [c] + rest == recent + ([c] + rest);
    assert ([c] + rest)[1..] == rest;
    assert messages + ReplyTo(c) + Replies(rest) == messages + Replies([c] + rest);
  }

  lemma StitchedLast(trace: seq<Call>, recent: seq<Call>, messages: seq<Value>, c: Call, r: CallResult)
    requires TracksAfter(trace + [c], recent + [c], messages + ReplyTo(c), r)
    ensures TracksAfter(trace + [c], recent + [c], messages + Replies([c]), r)
  {
    assert ReplyTo(c) + Replies([c][1..]) == ReplyTo(c);
  }

  lemma Unrolled(cfg: Config, l: Loop, calls: seq<Call>)
    requires calls != []
    ensures match Handled(cfg, l, calls[0])
            case Next(l') =>
              && HandledAll(cfg, l, calls) == HandledAll(cfg, l', calls[1..])
              && Dispatched(cfg, l, calls) == [calls[0]] + Dispatched(cfg, l', calls[1..])
            case _ => HandledAll(cfg, l, calls) == Handled(cfg, l, calls[0]) && Dispatched(cfg, l, calls) == [calls[0]]
  {
  }

  lemma NextMessages(trace: seq<Call>, recent: seq<Call>, messages: seq<Value>, r: CallResult)
    requires TracksAfter(trace, recent, messages, r) && r.Next?
    ensures Tracks(trace, recent, r.loop) && r.loop.messages == messages
  {
  }

  lemma {:induction false} CallsTrack(cfg: Config, trace: seq<Call>, recent: seq<Call>, l: Loop, calls: seq<Call>)
    requires Tracks(trace, recent, l)
    ensures var d := Dispatched(cfg, l, calls);
            TracksAfter(trace + d, recent + d, l.messages + Replies(d), HandledAll(cfg, l, calls))
    decreases |calls|
  {
    if calls == [] {
      assert trace + [] == trace && recent + [] == recent && l.messages + [] == l.messages;
    } else {
      var c, r := calls[0], Handled(cfg, l, calls[0]);
      Unrolled(cfg, l, calls);
      CallTracks(cfg, trace, recent, l, c);
      if r.Next? {
        NextMessages(trace + [c], recent + [c], l.messages + ReplyTo(c), r);
        CallsTrack(cfg, trace + [c], recent + [c], r.loop, calls[1..]);
        Stitched(trace, recent, l.messages, c, Dispatched(cfg, r.loop, calls[1..]), HandledAll(cfg, r.loop, calls[1..]));
      } else {
        StitchedLast(trace, recent, l.messages, c, r);
      }
    }
  }

  /** The variables and messages of a loop, by what was said. */
  ghost predicate Recounts(cfg: Config, s: Standing) {
    && Recalls(s.trace, s.loop)
    && s.loop.messages == cfg.prompt + Transcript(s.said)
    && s.trace == AllOf(s.said)
  }

  ghost predicate Aware(cfg: Config, w: World) {
    && Recounts(cfg, w.current) && Recounts(cfg, w.saved)
    && w.since <= |w.current.trace|
    && w.current.loop.infraStreak == Streak(w.current.trace[w.since..])
  }

  lemma Reassociate<T>(a: seq<T>, b: seq<T>, c: seq<T>, d: seq<T>)
    ensures a + b + c + d == a + (b + (c + d))
  {
  }

  lemma TranscriptGrows(prompt: seq<Value>, said: seq<seq<Call>>, d: seq<Call>)
    ensures prompt + Transcript(said) + [Message("assistant", "")] + Replies(d) == prompt + Transcript(said + [d])
    ensures AllOf(said + [d]) == AllOf(said) + d
  {
    OneMore(said, d);
    Reassociate(prompt, Transcript(said), [Message("assistant", "")], Replies(d));
  }

  lemma DropOfSum<T>(s: seq<T>, d: seq<T>, n: nat)
    requires n <= |s|
    ensures (s + d)[n..] == s[n..] + d
  {
  }

  /** A turn with the calls `d` leads to the loop `l`. */
  lemma TurnRecounts(cfg: Config, s: Standing, since: nat, d: seq<Call>, l: Loop)
    requires Recounts(cfg, s) && since <= |s.trace| && Tracks(s.trace + d, s.trace[since..] + d, l)
    requires l.messages == s.loop.messages + [Message("assistant", "")] + Replies(d)
    ensures var s' := s.(loop := l, said := s.said + [d], trace := s.trace + d);
            Recounts(cfg, s') && since <= |s'.trace| && l.infraStreak == Streak(s'.trace[since..])
  {
    TranscriptGrows(cfg.prompt, s.said, d);
    DropOfSum(s.trace, d, since);
  }

  lemma CalledRecounts(cfg: Config, s: Standing, l: Loop, since: nat, calls: seq<Call>, l': Loop)
    requires Recounts(cfg, s) && since <= |s.trace| && s.loop.infraStreak == Streak(s.trace[since..])
    requires l == s.loop.(budget := l.budget) && Replied(cfg, l, Tools(calls)) == Went(l')
    ensures var s' := Called(s, l, DispatchedBy(cfg, l, Tools(calls))).(loop := l');
            Recounts(cfg, s') && since <= |s'.trace| && l'.infraStreak == Streak(s'.trace[since..])
  {
    var l1 := l.(messages := l.messages + [Message("assistant", "")]);
    CallsTrack(cfg, s.trace, s.trace[since..], l1, calls);
    TurnRecounts(cfg, s, since, Dispatched(cfg, l1, calls), l');
  }

  lemma CrashStaysAware(cfg: Config, w: World, calls: nat, reborn: real)
    requires Recounts(cfg, w.saved) && StoreHolds(cfg, w)
    ensures Aware(cfg, Crashed(cfg, w, calls, reborn))
  {
    ResumeShifts(cfg, w.store, reborn);
    assert w.saved.trace[|w.saved.trace|..] == [];
  }

  lemma ReplyStaysAware(cfg: Config, w: World, l: Loop, reply: Reply, t: Turn)
    requires Aware(cfg, w) && w.exit.None? && l == w.current.loop.(budget := l.budget)
    ensures var s := Called(w.current, l, DispatchedBy(cfg, l, reply));
            var w' := ReactLoopRuns.Answered(cfg, Calling(w, l), s, reply, t);
            w'.exit.None? ==> Aware(cfg, w')
  {
    if Replied(cfg, l, reply).Went? {
      CalledRecounts(cfg, w.current, l, w.since, reply.calls, Replied(cfg, l, reply).loop);
    }
  }

  lemma StepStaysAware(cfg: Config, w: World, t: Turn)
    requires Inv(cfg, w) && w.exit.None? && Aware(cfg, w) && Stepped(cfg, w, t).exit.None?
    ensures Aware(cfg, Stepped(cfg, w, t))
  {
    GuardedKeeps(cfg, w.current.trace, w.current.loop, t);
    var l := Guarded(cfg, w.current.loop, t).loop;
    match t.fate
    case DiesBeforeCall(reborn) => CrashStaysAware(cfg, Opened(w, l), 0, reborn);
    case DiesAfterCall(reborn) => CrashStaysAware(cfg, Opened(w, l), 1, reborn);
    case Says(reply) => ReplyStaysAware(cfg, w, l, reply, t);
    case Raises =>
  }

  lemma {:induction false} HistoryIsAware(cfg: Config, began: real, turns: seq<Turn>)
    requires History(cfg, began, turns).exit.None?
    ensures Aware(cfg, History(cfg, began, turns))
    decreases |turns|
  {
    if turns != [] {
      var before := turns[..|turns| - 1];
      HistoryIsAware(cfg, began, before);
      HistoryKeeps(cfg, began, before);
      StepStaysAware(cfg, History(cfg, began, before), turns[|turns| - 1]);
    } else {
      assert cfg.prompt + [] == cfg.prompt;
    }
  }

  /** In every open history the loop's variables are functions of the calls that were dispatched: the files edited, the tools
      used, the signatures for loop detection, the skills loaded, and the streak of infrastructure errors, which counts from the
      start of the process. The messages are the prompt and, turn by turn, the assistant's message and what each call gave. */
  lemma VariablesAreTrace(cfg: Config, began: real, turns: seq<Turn>)
    requires History(cfg, began, turns).exit.None?
    ensures var w := History(cfg, began, turns);
            var l, trace := w.current.loop, w.current.trace;
            && l.edited == EditsIn(trace) && l.tools == ToolsIn(trace) && l.signatures == SignaturesIn(trace)
            && l.loaded == LoadedIn(trace)
            && w.since <= |trace| && l.infraStreak == Streak(trace[w.since..])
            && trace == AllOf(w.current.said)
            && l.messages == cfg.prompt + Transcript(w.current.said)
  {
    HistoryIsAware(cfg, began, turns);
  }

  // ------------------------------------------------------------------ when a finish is deferred

  ghost predicate Knows(cfg: Config, trace: seq<Call>, recent: seq<Call>, l: Loop) {
    Explains(cfg, trace, l) && Tracks(trace, recent, l)
  }

  lemma {:induction false} NextHasNoFinish(cfg: Config, l: Loop, calls: seq<Call>)
    requires HandledAll(cfg, l, calls).Next?
    ensures Dispatched(cfg, l, calls) == calls && forall c :: c in calls ==> !c.Finish?
    decreases |calls|
  {
    if calls != [] {
      Unrolled(cfg, l, calls);
      NextHasNoFinish(cfg, Handled(cfg, l, calls[0]).loop, calls[1..]);
      assert calls == [calls[0]] + calls[1..];
    }
  }

  lemma NextKnows(cfg: Config, trace: seq<Call>, recent: seq<Call>, l: Loop, calls: seq<Call>)
    requires Knows(cfg, trace, recent, l) && HandledAll(cfg, l, calls).Next?
    ensures Knows(cfg, trace + calls, recent + calls, HandledAll(cfg, l, calls).loop)
  {
    NextHasNoFinish(cfg, l, calls);
    HandledAllKeeps(cfg, trace, l, calls);
    CallsTrack(cfg, trace, recent, l, calls);
  }

  lemma PrefixBySteps<T>(s: seq<T>, m: nat)
    requires m + 1 < |s|
    ensures s[..m + 1][0] == s[0] && s[..m + 1][1..] == s[1..][..m] && s[m + 1] == s[1..][m]
    ensures [s[0]] + (s[1..][..m] + [s[1..][m]]) == s[..m + 1] + [s[m + 1]]
  {
  }

  /** The last call that the loop gets to, and the loop as it stood before. */
  lemma {:induction false} LastCall(cfg: Config, l: Loop, calls: seq<Call>) returns (n: nat)
    requires calls != []
    ensures n < |calls| && Dispatched(cfg, l, calls) == calls[..n] + [calls[n]]
    ensures HandledAll(cfg, l, calls[..n]).Next?
    ensures HandledAll(cfg, l, calls) == Handled(cfg, HandledAll(cfg, l, calls[..n]).loop, calls[n])
    decreases |calls|
  {
    Unrolled(cfg, l, calls);
    var r := Handled(cfg, l, calls[0]);
    if r.Next? && calls[1..] != [] {
      var m := LastCall(cfg, r.loop, calls[1..]);
      n := m + 1;
      PrefixBySteps(calls, m);
      Unrolled(cfg, l, calls[..n]);
    } else {
      n := 0;
    }
  }

  /** The finish has to wait, by the calls before it and by those of them made in the process at hand. */
  ghost predicate MustWait(cfg: Config, before: seq<Call>, recent: seq<Call>) {
    && EditedSomething(before) && !Verified(before)
    && Deferrals(before) < cfg.maxNudges
    && (cfg.maxInfraErrors == 0 || Streak(recent) < cfg.maxInfraErrors)
  }

  /** What the finish delivers: its summary, with a note if something was edited and nothing verified. */
  ghost function Delivered(cfg: Config, before: seq<Call>, recent: seq<Call>, summary: string): string {
    var short := UpTo(summary, 2000);
    if !EditedSomething(before) || Verified(before) then short
    else if Streak(recent) >= cfg.maxInfraErrors then Strip(summary + "\n\n" + cfg.infraNote(EditsIn(before)))
    else UpTo(short + (if cfg.exposeBug then NOT_EXPOSED else NOT_VERIFIED), 2000)
  }

  /** The exit of a finish: a punt is no success, nor is a claim of success that nothing verified. */
  ghost predicate ExitsAsFinished(cfg: Config, before: seq<Call>, text: string, exit: Exit) {
    && exit.cause == Finished
    && (exit.ok <==> !cfg.judge.isPunt(text) && (cfg.judge.assertsSuccess(text) ==> Verified(before)))
    && exit.summary == if exit.ok then text
                       else UpTo(text + " " + if cfg.judge.isPunt(text) then Guard.PUNT_NOTE else Guard.CLAIM_NOTE, 2000)
  }

  lemma FinishVerdict(cfg: Config, before: seq<Call>, recent: seq<Call>, l: Loop, c: Call)
    requires Knows(cfg, before, recent, l) && c.Finish?
    ensures match Handled(cfg, l, c)
            case Deferred(_) => MustWait(cfg, before, recent)
            case Left(exit) =>
              !MustWait(cfg, before, recent)
              && ExitsAsFinished(cfg, before, Delivered(cfg, before, recent, c.summary), exit)
            case Next(_) => false
  {
  }

  /** A turn whose last call is a finish, with what has become of the goal: it goes on exactly when the finish has to wait. */
  ghost predicate FinishIsRight(cfg: Config, trace: seq<Call>, since: nat, exit: Option<Exit>) {
    && trace != [] && since < |trace| && trace[|trace| - 1].Finish?
    && var before, summary := trace[..|trace| - 1], trace[|trace| - 1].summary;
    && (exit.None? <==> MustWait(cfg, before, before[since..]))
    && (exit.Some? ==> ExitsAsFinished(cfg, before, Delivered(cfg, before, before[since..], summary), exit.value))
  }

  function ExitOf(r: CallResult): Option<Exit> {
    match r
    case Left(exit) => Some(exit)
    case _ => None
  }

  function Asked(l: Loop): Loop {
    l.(messages := l.messages + [Message("assistant", "")])
  }

  lemma VerdictIsRight(cfg: Config, before: seq<Call>, recent: seq<Call>, all: seq<Call>, since: nat, l: Loop, c: Call)
    requires since <= |before| && recent == before[since..] && all == before + [c]
    requires Knows(cfg, before, recent, l) && c.Finish?
    ensures FinishIsRight(cfg, all, since, ExitOf(Handled(cfg, l, c)))
  {
    OneMore(before, c);
    FinishVerdict(cfg, before, recent, l, c);
  }

  lemma FinishAfter(cfg: Config, trace: seq<Call>, since: nat, l: Loop, calls: seq<Call>, c: Call)
    requires since <= |trace| && Knows(cfg, trace, trace[since..], l) && HandledAll(cfg, l, calls).Next? && c.Finish?
    ensures FinishIsRight(cfg, trace + (calls + [c]), since, ExitOf(Handled(cfg, HandledAll(cfg, l, calls).loop, c)))
  {
    NextKnows(cfg, trace, trace[since..], l, calls);
    DropOfSum(trace, calls, since);
    assert trace + (calls + [c]) == trace + calls + [c];
    VerdictIsRight(cfg, trace + calls, trace[since..] + calls, trace + (calls + [c]), since, HandledAll(cfg, l, calls).loop, c);
  }

  lemma CallsFinish(cfg: Config, trace: seq<Call>, since: nat, l: Loop, calls: seq<Call>)
    requires since <= |trace| && Knows(cfg, trace, trace[since..], l) && Dispatched(cfg, l, calls) != []
    requires Dispatched(cfg, l, calls)[|Dispatched(cfg, l, calls)| - 1].Finish?
    ensures FinishIsRight(cfg, trace + Dispatched(cfg, l, calls), since, ExitOf(HandledAll(cfg, l, calls)))
  {
    if HandledAll(cfg, l, calls).Next? {
      NextHasNoFinish(cfg, l, calls);
    } else {
      var n := LastCall(cfg, l, calls);
      FinishAfter(cfg, trace, since, l, calls[..n], calls[n]);
    }
  }

  lemma HandledTurn(cfg: Config, w: World, l: Loop, t: Turn)
    requires w.exit.None? && Guarded(cfg, w.current.loop, t) == Went(l) && t.fate.Says?
    requires t.fate.reply.Tools? && t.fate.reply.calls != []
    ensures var calls, w' := t.fate.reply.calls, Stepped(cfg, w, t);
            && w'.current.trace == w.current.trace + Dispatched(cfg, Asked(l), calls)
            && w'.exit == ExitOf(HandledAll(cfg, Asked(l), calls))
            && w'.since == w.since
  {
  }

  /** The last call of a turn is a finish. */
  ghost predicate EndsInFinish(w: World, t: Turn, w': World) {
    t.fate.Says? && |w'.current.trace| > |w.current.trace| && w'.current.trace[|w'.current.trace| - 1].Finish?
  }

  lemma QuietTurn(cfg: Config, w: World, t: Turn)
    requires w.exit.None? && t.fate.Says?
    requires !Guarded(cfg, w.current.loop, t).Went? || t.fate.reply.Text? || t.fate.reply.calls == []
    ensures Stepped(cfg, w, t).current.trace == w.current.trace
  {
  }

  /** A turn that dispatched calls got through its guards. */
  lemma SpokenTurn(cfg: Config, w: World, t: Turn) returns (l: Loop)
    requires w.exit.None? && t.fate.Says? && |Stepped(cfg, w, t).current.trace| > |w.current.trace|
    ensures Guarded(cfg, w.current.loop, t) == Went(l) && l == w.current.loop.(budget := l.budget)
    ensures t.fate.reply.Tools? && t.fate.reply.calls != []
  {
    if !Guarded(cfg, w.current.loop, t).Went? || t.fate.reply.Text? || t.fate.reply.calls == [] {
      QuietTurn(cfg, w, t);
    } else {
      l := Guarded(cfg, w.current.loop, t).loop;
    }
  }

  lemma AskedKnows(cfg: Config, w: World, l: Loop)
    requires Explains(cfg, w.current.trace, w.current.loop) && Aware(cfg, w) && l == w.current.loop.(budget := l.budget)
    ensures Knows(cfg, w.current.trace, w.current.trace[w.since..], Asked(l))
  {
  }

  lemma TurnFinishes(cfg: Config, w: World, t: Turn)
    requires Explains(cfg, w.current.trace, w.current.loop) && Aware(cfg, w) && w.exit.None?
    requires EndsInFinish(w, t, Stepped(cfg, w, t))
    ensures var w' := Stepped(cfg, w, t);
            w'.since == w.since && FinishIsRight(cfg, w'.current.trace, w'.since, w'.exit)
  {
    var l := SpokenTurn(cfg, w, t);
    AskedKnows(cfg, w, l);
    HandledTurn(cfg, w, l, t);
    CallsFinish(cfg, w.current.trace, w.since, Asked(l), t.fate.reply.calls);
  }

  /** When the last call that the loop gets to in a turn is a finish, the goal goes on exactly when something was edited and
      nothing verified before it, fewer finishes were deferred than nudges allowed, and the test toolchain is not given up: the
      errors since the last test that ran, in the process at hand, are below their limit, or there is none. Otherwise the goal is
      over, with the summary annotated if the edits are unverified, and ok exactly when the text may pass. */
  lemma FinishIsDeferredExactlyWhen(cfg: Config, began: real, turns: seq<Turn>, t: Turn)
    requires History(cfg, began, turns).exit.None?
    requires EndsInFinish(History(cfg, began, turns), t, History(cfg, began, turns + [t]))
    ensures var w := History(cfg, began, turns + [t]);
            FinishIsRight(cfg, w.current.trace, w.since, w.exit)
  {
    OneMore(turns, t);
    HistoryKeeps(cfg, began, turns);
    HistoryIsAware(cfg, began, turns);
    TurnFinishes(cfg, History(cfg, began, turns), t);
  }

  /** Handling calls ends the loop by a finish, the last one dispatched, or because a loop was detected. */
  lemma {:induction false} ExitOfCalls(cfg: Config, l: Loop, calls: seq<Call>)
    requires HandledAll(cfg, l, calls).Left?
    ensures var d, exit := Dispatched(cfg, l, calls), HandledAll(cfg, l, calls).exit;
            d != [] && exit.cause == if d[|d| - 1].Finish? then Finished else LoopDetected
    decreases |calls|
  {
    if calls != [] {
      Unrolled(cfg, l, calls);
      if Handled(cfg, l, calls[0]).Next? {
        ExitOfCalls(cfg, Handled(cfg, l, calls[0]).loop, calls[1..]);
      }
    }
  }

  ghost predicate Ends(w: World, cause: Cause) {
    w.exit.Some? && w.exit.value.cause == cause
  }

  lemma FinishedTurnEndsInFinish(cfg: Config, w: World, t: Turn)
    requires Explains(cfg, w.current.trace, w.current.loop) && w.exit.None?
    requires Ends(Stepped(cfg, w, t), Finished)
    ensures EndsInFinish(w, t, Stepped(cfg, w, t))
  {
    GuardedKeeps(cfg, w.current.trace, w.current.loop, t);
    var g := Guarded(cfg, w.current.loop, t);
    if g.Went? && t.fate.Says? && t.fate.reply.Tools? && t.fate.reply.calls != [] {
      HandledTurn(cfg, w, g.loop, t);
      ExitOfCalls(cfg, Asked(g.loop), t.fate.reply.calls);
    }
  }

  lemma FinishedTurnIsRight(cfg: Config, w: World, t: Turn)
    requires Explains(cfg, w.current.trace, w.current.loop) && Aware(cfg, w) && w.exit.None?
    requires Ends(Stepped(cfg, w, t), Finished)
    ensures var w' := Stepped(cfg, w, t);
            FinishIsRight(cfg, w'.current.trace, w'.since, w'.exit)
  {
    FinishedTurnEndsInFinish(cfg, w, t);
    TurnFinishes(cfg, w, t);
  }

  lemma {:induction false} FinishesAreRight(cfg: Config, began: real, turns: seq<Turn>)
    requires Ends(History(cfg, began, turns), Finished)
    ensures var w := History(cfg, began, turns);
            FinishIsRight(cfg, w.current.trace, w.since, w.exit)
    decreases |turns|
  {
    var before, t := turns[..|turns| - 1], turns[|turns| - 1];
    if History(cfg, began, before).exit.Some? {
      FinishesAreRight(cfg, began, before);
    } else {
      HistoryKeeps(cfg, began, before);
      HistoryIsAware(cfg, began, before);
      FinishedTurnIsRight(cfg, History(cfg, began, before), t);
    }
  }

  /** So a goal that finished with unverified edits has used up its nudges, or the test toolchain had failed as often in a row
      as it may. */
  lemma UnverifiedFinishes(cfg: Config, began: real, turns: seq<Turn>)
    requires Ends(History(cfg, began, turns), Finished)
    ensures var w := History(cfg, began, turns);
            && w.since < |w.current.trace|
            && var before := w.current.trace[..|w.current.trace| - 1];
            EditedSomething(before) && !Verified(before) ==>
              || Deferrals(before) >= cfg.maxNudges
              || (cfg.maxInfraErrors != 0 && Streak(before[w.since..]) >= cfg.maxInfraErrors)
  {
    FinishesAreRight(cfg, began, turns);
    RightFinishNeedNotWait(cfg, History(cfg, began, turns));
  }

  lemma RightFinishNeedNotWait(cfg: Config, w: World)
    requires FinishIsRight(cfg, w.current.trace, w.since, w.exit) && w.exit.Some?
    ensures var before := w.current.trace[..|w.current.trace| - 1];
            EditedSomething(before) && !Verified(before) ==>
              || Deferrals(before) >= cfg.maxNudges
              || (cfg.maxInfraErrors != 0 && Streak(before[w.since..]) >= cfg.maxInfraErrors)
  {
  }

  // ------------------------------------------------------------------ what ends a turn before it starts

  predicate IsOverdue(cfg: Config, began: real, turns: seq<Turn>, t: Turn) {
    cfg.deadline > 0.0 && (t.now - began) - Missed(began, turns) > cfg.deadline
  }

  lemma TurnExitCauses(cfg: Config, l: Loop, reply: Reply)
    requires Replied(cfg, l, reply).Ended?
    ensures Replied(cfg, l, reply).exit.cause in {Answered, Finished, LoopDetected}
  {
    if reply.Tools? && reply.calls != [] {
      ExitOfCalls(cfg, Asked(l), reply.calls);
    }
  }

  lemma StepEndsExactlyWhen(cfg: Config, w: World, t: Turn)
    requires Inv(cfg, w) && w.exit.None?
    ensures var w' := Stepped(cfg, w, t);
            && (Ends(w', Cancelled) <==> t.cancelled)
            && (Ends(w', Deadline) <==> !t.cancelled && IsLate(cfg, w.current.loop, t))
            && (Ends(w', TurnLimit) <==> !t.cancelled && !IsLate(cfg, w.current.loop, t) && w.current.turns >= 2 * cfg.cap)
            && (Ends(w', BudgetExhausted) <==>
                  !t.cancelled && !IsLate(cfg, w.current.loop, t) && w.current.turns < 2 * cfg.cap
                  && w.current.calls - w.current.refunded > cfg.cap)
            && (Ends(w', Error) <==> Guarded(cfg, w.current.loop, t).Went? && t.fate.Raises?)
  {
    GuardedKeeps(cfg, w.current.trace, w.current.loop, t);
    var g := Guarded(cfg, w.current.loop, t);
    if g.Went? && t.fate.Says? && Replied(cfg, g.loop, t.fate.reply).Ended? {
      TurnExitCauses(cfg, g.loop, t.fate.reply);
    }
  }

  /** Before the model is asked, the loop ends exactly in these cases, looked at in this order: the user cancelled; the time
      counted is over the deadline; as many turns stand as twice the cap; or more model calls stand, less those given back, than
      the cap allows, which leaves room for the one grace turn. */
  lemma TurnsEndExactlyWhen(cfg: Config, began: real, turns: seq<Turn>, t: Turn)
    requires History(cfg, began, turns).exit.None?
    ensures var w, w' := History(cfg, began, turns), History(cfg, began, turns + [t]);
            var free := !t.cancelled && !IsOverdue(cfg, began, turns, t);
            && (Ends(w', Cancelled) <==> t.cancelled)
            && (Ends(w', Deadline) <==> !t.cancelled && IsOverdue(cfg, began, turns, t))
            && (Ends(w', TurnLimit) <==> free && w.current.turns >= 2 * cfg.cap)
            && (Ends(w', BudgetExhausted) <==>
                  free && w.current.turns < 2 * cfg.cap && w.current.calls - w.current.refunded > cfg.cap)
            && (Ends(w', Error) <==>
                  free && w.current.turns < 2 * cfg.cap && w.current.calls - w.current.refunded <= cfg.cap && t.fate.Raises?)
  {
    OneMore(turns, t);
    HistoryKeeps(cfg, began, turns);
    if !t.cancelled {
      LateExactlyWhen(cfg, began, turns, t);
    }
    StepEndsExactlyWhen(cfg, History(cfg, began, turns), t);
    GuardsEndExactlyWhen(cfg, History(cfg, began, turns), t);
  }

  lemma GuardsEndExactlyWhen(cfg: Config, w: World, t: Turn)
    requires Inv(cfg, w) && w.exit.None?
    ensures Guarded(cfg, w.current.loop, t).Went? <==>
              !t.cancelled && !IsLate(cfg, w.current.loop, t) && w.current.turns < 2 * cfg.cap
              && w.current.calls - w.current.refunded <= cfg.cap
  {
  }

  // ------------------------------------------------------------------ what is given back

  /** The call costs nothing: a re-analysis that was cut short, or, if configured, a skill that was loaded before. */
  predicate GivesBack(cfg: Config, before: seq<Call>, c: Call) {
    match c
    case Use(_, _, effect) => effect.deduped
    case Load(skill, _, _, _) => cfg.refundRepeatLoad && skill != "" && skill in LoadedIn(before)
    case Finish(_) => false
  }

  function GivenBack(cfg: Config, before: seq<Call>, calls: seq<Call>): nat
    decreases |calls|
  {
    if calls == [] then 0
    else Unit(GivesBack(cfg, before, calls[0])) + GivenBack(cfg, before + [calls[0]], calls[1..])
  }

  /** Only looking things up or running tests. */
  predicate OnlyLooks(calls: seq<Call>) {
    calls != [] && forall c :: c in calls ==>
      c.Use? && c.name in {"read_file", "list_dir", "code_semantic_search", "run_tests", "run_bash", "memory_search",
                           "session_search"}
  }

  lemma CallGivesBack(cfg: Config, before: seq<Call>, l: Loop, c: Call)
    requires l.loaded == LoadedIn(before) && l.budget.used >= 0
    ensures match Handled(cfg, l, c)
            case Left(_) => true
            case Next(l') => l'.budget.used == Max(0, l.budget.used - Unit(GivesBack(cfg, before, c)))
            case Deferred(l') => l'.budget.used == Max(0, l.budget.used - Unit(GivesBack(cfg, before, c)))
  {
  }

  ghost predicate UsedAfter(used: int, r: CallResult) {
    match r
    case Left(_) => true
    case Next(l) => l.budget.used == used
    case Deferred(l) => l.budget.used == used
  }

  lemma {:induction false} CallsGiveBack(cfg: Config, before: seq<Call>, l: Loop, calls: seq<Call>)
    requires l.loaded == LoadedIn(before) && l.budget.used >= 0
    ensures UsedAfter(Max(0, l.budget.used - GivenBack(cfg, before, Dispatched(cfg, l, calls))), HandledAll(cfg, l, calls))
    decreases |calls|
  {
    if calls != [] {
      var c, r := calls[0], Handled(cfg, l, calls[0]);
      Unrolled(cfg, l, calls);
      CallGivesBack(cfg, before, l, c);
      if r.Next? {
        LoadedNext(cfg, before, l, c);
        CallsGiveBack(cfg, before + [c], r.loop, calls[1..]);
        assert ([c] + Dispatched(cfg, r.loop, calls[1..]))[1..] == Dispatched(cfg, r.loop, calls[1..]);
      } else {
        assert GivenBack(cfg, before + [c], [c][1..]) == 0;
      }
    }
  }

  lemma LoadedNext(cfg: Config, before: seq<Call>, l: Loop, c: Call)
    requires l.loaded == LoadedIn(before) && Handled(cfg, l, c).Next?
    ensures Handled(cfg, l, c).loop.loaded == LoadedIn(before + [c])
  {
    OneMore(before, c);
    assert c.Load? && c.skill in l.loaded ==> l.loaded + {c.skill} == l.loaded;
  }

  lemma LooksAreRefundable(calls: seq<Call>)
    ensures Refundable(calls) <==> OnlyLooks(calls)
  {
    forall c: Call
      ensures NameOf(c) in REFUNDABLE_TOOLS <==>
                c.Use? && c.name in {"read_file", "list_dir", "code_semantic_search", "run_tests", "run_bash", "memory_search",
                                     "session_search"}
    {
    }
    assert forall i :: 0 <= i < |calls| ==> calls[i] in calls;
  }

  lemma {:induction false} DeferredEndsInFinish(cfg: Config, l: Loop, calls: seq<Call>)
    requires HandledAll(cfg, l, calls).Deferred?
    ensures var d := Dispatched(cfg, l, calls); d != [] && d[|d| - 1].Finish? && !OnlyLooks(d)
    decreases |calls|
  {
    if calls != [] {
      Unrolled(cfg, l, calls);
      if Handled(cfg, l, calls[0]).Next? {
        DeferredEndsInFinish(cfg, Handled(cfg, l, calls[0]).loop, calls[1..]);
        var d, rest := Dispatched(cfg, l, calls), Dispatched(cfg, Handled(cfg, l, calls[0]).loop, calls[1..]);
        assert d[|d| - 1] == rest[|rest| - 1] && d[|d| - 1] in d;
      } else {
        assert calls[0] in Dispatched(cfg, l, calls);
      }
    }
  }

  function Bonus(cfg: Config, l: Loop, calls: seq<Call>): nat {
    if HandledAll(cfg, l, calls).Next? && Refundable(calls) then 1 else 0
  }

  lemma RepliedBudget(cfg: Config, l: Loop, calls: seq<Call>, used: int)
    requires calls != [] && Replied(cfg, l, Tools(calls)).Went? && used >= 0
    requires UsedAfter(used, HandledAll(cfg, Asked(l), calls))
    ensures Replied(cfg, l, Tools(calls)).loop.budget.used
            == Max(0, used - Bonus(cfg, Asked(l), calls))
    ensures !HandledAll(cfg, Asked(l), calls).Left?
  {
  }

  lemma LooksByDispatched(cfg: Config, l: Loop, calls: seq<Call>)
    requires !HandledAll(cfg, l, calls).Left?
    ensures Unit(OnlyLooks(Dispatched(cfg, l, calls))) == Bonus(cfg, l, calls)
  {
    if HandledAll(cfg, l, calls).Next? {
      NextHasNoFinish(cfg, l, calls);
      LooksAreRefundable(calls);
    } else {
      DeferredEndsInFinish(cfg, l, calls);
    }
  }

  lemma ReplyGivesBack(cfg: Config, before: seq<Call>, l: Loop, calls: seq<Call>, l': Loop, d: seq<Call>)
    requires l.loaded == LoadedIn(before) && l.budget.used >= 0 && calls != [] && Replied(cfg, l, Tools(calls)) == Went(l')
    requires d == Dispatched(cfg, Asked(l), calls)
    ensures l'.budget.used == Max(0, l.budget.used - GivenBack(cfg, before, d) - Unit(OnlyLooks(d)))
  {
    CallsGiveBack(cfg, before, Asked(l), calls);
    RepliedBudget(cfg, l, calls, Max(0, l.budget.used - GivenBack(cfg, before, d)));
    LooksByDispatched(cfg, Asked(l), calls);
  }

  /** What a turn with the calls `d` costs, when the goal goes on. */
  ghost predicate Spends(cfg: Config, s: Standing, d: seq<Call>, s': Standing) {
    s'.loop.budget.used
    == Max(0, Min(s.loop.budget.used + 1, Max(s.loop.budget.used, cfg.cap)) - GivenBack(cfg, s.trace, d) - Unit(OnlyLooks(d)))
  }

  /** A turn that goes on takes one unit of the budget, if there is one, and gets back one for each call that cost nothing and
      one if all its calls only looked; what is used never falls below nothing. */
  lemma RefundsExactly(cfg: Config, began: real, turns: seq<Turn>, t: Turn) returns (d: seq<Call>)
    requires History(cfg, began, turns + [t]).exit.None? && t.fate.Says?
    ensures var s, s' := History(cfg, began, turns).current, History(cfg, began, turns + [t]).current;
            s'.said == s.said + [d] && s'.trace == s.trace + d && Spends(cfg, s, d, s')
  {
    OneMore(turns, t);
    HistoryKeeps(cfg, began, turns);
    HistoryIsAware(cfg, began, turns);
    d := StepRefunds(cfg, History(cfg, began, turns), t);
  }

  /** The guards left the loop `l` and the reply made `calls`, of which `d` were dispatched. */
  ghost predicate WentOn(cfg: Config, s: Standing, l: Loop, calls: seq<Call>, d: seq<Call>, s': Standing) {
    && calls != [] && Replied(cfg, l, Tools(calls)) == Went(s'.loop) && d == Dispatched(cfg, Asked(l), calls)
    && l.loaded == s.loop.loaded && 0 <= l.budget.used == Min(s.loop.budget.used + 1, Max(s.loop.budget.used, cfg.cap))
  }

  ghost predicate SomeReplyLeadsOn(cfg: Config, s: Standing, d: seq<Call>, s': Standing) {
    exists l, calls :: WentOn(cfg, s, l, calls, d, s')
  }

  lemma OpenTurn(cfg: Config, w: World, t: Turn) returns (d: seq<Call>)
    requires w.exit.None? && t.fate.Says? && Stepped(cfg, w, t).exit.None?
    requires BudgetHolds(cfg, w.current.loop.budget)
    ensures var s, s' := w.current, Stepped(cfg, w, t).current;
            s'.said == s.said + [d] && s'.trace == s.trace + d && SomeReplyLeadsOn(cfg, s, d, s')
  {
    var l, calls := Guarded(cfg, w.current.loop, t).loop, t.fate.reply.calls;
    d := Dispatched(cfg, Asked(l), calls);
    assert WentOn(cfg, w.current, l, calls, d, Stepped(cfg, w, t).current);
  }

  lemma ReplySpends(cfg: Config, s: Standing, d: seq<Call>, s': Standing)
    requires SomeReplyLeadsOn(cfg, s, d, s') && s.loop.loaded == LoadedIn(s.trace)
    ensures Spends(cfg, s, d, s')
  {
    var l, calls :| WentOn(cfg, s, l, calls, d, s');
    ReplyGivesBack(cfg, s.trace, l, calls, s'.loop, d);
  }

  lemma StepRefunds(cfg: Config, w: World, t: Turn) returns (d: seq<Call>)
    requires BudgetHolds(cfg, w.current.loop.budget) && w.current.loop.loaded == LoadedIn(w.current.trace)
    requires w.exit.None? && t.fate.Says? && Stepped(cfg, w, t).exit.None?
    ensures var s, s' := w.current, Stepped(cfg, w, t).current;
            s'.said == s.said + [d] && s'.trace == s.trace + d && Spends(cfg, s, d, s')
  {
    d := OpenTurn(cfg, w, t);
    ReplySpends(cfg, w.current, d, Stepped(cfg, w, t).current);
  }

  // ------------------------------------------------------------------ when a loop is detected

  function SignatureOf(c: Call): string
    requires !c.Finish?
  {
    match c
    case Load(_, signature, _, _) => signature
    case Use(_, signature, _) => signature
  }

  /** The call is one too many by the detector's rules, and not just the repeated load of a skill. */
  ghost predicate DetectsLoop(cfg: Config, before: seq<Call>, c: Call)
    requires !c.Finish?
  {
    var limit := Detection.RepeatLimitFor(NameOf(c), cfg.repeatLimit, cfg.mutatingLimit);
    && !(c.Load? && c.skill != "" && c.skill in LoadedIn(before))
    && Detection.Judged(SignaturesIn(before) + [SignatureOf(c)], cfg.repeatLimit, cfg.cycleWindow, Some(limit)) != Detection.Go
  }

  lemma CallVerdict(cfg: Config, before: seq<Call>, l: Loop, c: Call)
    requires Recalls(before, l) && !c.Finish?
    ensures match Handled(cfg, l, c)
            case Next(_) => !DetectsLoop(cfg, before, c)
            case Left(exit) => DetectsLoop(cfg, before, c) && exit == Exit(LoopDetected, false, "loop detected")
            case Deferred(_) => false
  {
  }

  /** A turn whose last call is no finish: it goes on unless that call closes a loop. */
  ghost predicate CallIsRight(cfg: Config, trace: seq<Call>, exit: Option<Exit>) {
    && trace != [] && !trace[|trace| - 1].Finish?
    && exit == if DetectsLoop(cfg, trace[..|trace| - 1], trace[|trace| - 1]) then Some(Exit(LoopDetected, false, "loop detected"))
               else None
  }

  lemma CallAfter(cfg: Config, trace: seq<Call>, recent: seq<Call>, l: Loop, calls: seq<Call>, c: Call, all: seq<Call>)
    requires Knows(cfg, trace, recent, l) && HandledAll(cfg, l, calls).Next? && !c.Finish? && all == trace + (calls + [c])
    ensures CallIsRight(cfg, all, ExitOf(Handled(cfg, HandledAll(cfg, l, calls).loop, c)))
  {
    NextKnows(cfg, trace, recent, l, calls);
    assert all == trace + calls + [c];
    OneMore(trace + calls, c);
    CallVerdict(cfg, trace + calls, HandledAll(cfg, l, calls).loop, c);
  }

  lemma CallsAreRight(cfg: Config, trace: seq<Call>, recent: seq<Call>, l: Loop, calls: seq<Call>)
    requires Knows(cfg, trace, recent, l) && calls != []
    ensures var d := Dispatched(cfg, l, calls);
            d != [] && (!d[|d| - 1].Finish? ==> CallIsRight(cfg, trace + d, ExitOf(HandledAll(cfg, l, calls))))
  {
    var n := LastCall(cfg, l, calls);
    if !calls[n].Finish? {
      CallAfter(cfg, trace, recent, l, calls[..n], calls[n], trace + (calls[..n] + [calls[n]]));
    }
  }

  /** The last call of a turn is a tool's. */
  ghost predicate EndsInCall(w: World, t: Turn, w': World) {
    t.fate.Says? && |w'.current.trace| > |w.current.trace| && !w'.current.trace[|w'.current.trace| - 1].Finish?
  }

  lemma TurnCalls(cfg: Config, w: World, t: Turn)
    requires Explains(cfg, w.current.trace, w.current.loop) && Aware(cfg, w) && w.exit.None?
    requires EndsInCall(w, t, Stepped(cfg, w, t))
    ensures CallIsRight(cfg, Stepped(cfg, w, t).current.trace, Stepped(cfg, w, t).exit)
  {
    var l := SpokenTurn(cfg, w, t);
    AskedKnows(cfg, w, l);
    HandledTurn(cfg, w, l, t);
    CallsAreRight(cfg, w.current.trace, w.current.trace[w.since..], Asked(l), t.fate.reply.calls);
  }

  /** When the last call that the loop gets to in a turn is a tool's, the goal is over exactly when that call closes a loop, by
      the signatures of all calls so far and the limit for that tool; loading a skill again never does. */
  lemma LoopDetectedExactlyWhen(cfg: Config, began: real, turns: seq<Turn>, t: Turn)
    requires History(cfg, began, turns).exit.None?
    requires EndsInCall(History(cfg, began, turns), t, History(cfg, began, turns + [t]))
    ensures var w := History(cfg, began, turns + [t]);
            CallIsRight(cfg, w.current.trace, w.exit)
  {
    OneMore(turns, t);
    HistoryKeeps(cfg, began, turns);
    HistoryIsAware(cfg, began, turns);
    TurnCalls(cfg, History(cfg, began, turns), t);
  }

  // ------------------------------------------------------------------ what a cutoff says

  /** The exit gives the reason: alone, or, when the work was edited and verified, in the note that it is complete. */
  ghost predicate GivesReason(trace: seq<Call>, exit: Exit, reason: string) {
    exit.summary == if EditedSomething(trace) && Verified(trace)
                    then "Completed: edits were applied and tests passed; the loop stopped on " + reason
                         + " before an explicit finish."
                    else reason
  }

  lemma CutoffGivesReason(cfg: Config, trace: seq<Call>, l: Loop, cause: Cause, reason: string)
    requires Explains(cfg, trace, l)
    ensures GivesReason(trace, Cutoff(cause, reason, l), reason)
  {
  }

  ghost predicate GivesItsReason(trace: seq<Call>, exit: Exit) {
    && (exit.cause == Deadline ==> GivesReason(trace, exit, "wall-clock deadline exceeded"))
    && (exit.cause == TurnLimit ==> GivesReason(trace, exit, "absolute turn limit exceeded"))
    && (exit.cause == BudgetExhausted ==> GivesReason(trace, exit, "budget exhausted"))
  }

  lemma GuardGivesReason(cfg: Config, trace: seq<Call>, l: Loop, t: Turn)
    requires Explains(cfg, trace, l) && Guarded(cfg, l, t).Ended?
    ensures GivesItsReason(trace, Guarded(cfg, l, t).exit)
  {
    CutoffGivesReason(cfg, trace, l, Deadline, "wall-clock deadline exceeded");
    CutoffGivesReason(cfg, trace, l, TurnLimit, "absolute turn limit exceeded");
    CutoffGivesReason(cfg, trace, l, BudgetExhausted, "budget exhausted");
  }

  lemma StartedIsNoCutoff(cfg: Config, w: World, l: Loop, t: Turn)
    requires w.exit.None? && Started(cfg, w, l, t).exit.Some?
    ensures Started(cfg, w, l, t).exit.value.cause in {Answered, Finished, LoopDetected, Error}
  {
    if t.fate.Says? && Replied(cfg, l, t.fate.reply).Ended? {
      TurnExitCauses(cfg, l, t.fate.reply);
    }
  }

  lemma StepGivesReason(cfg: Config, w: World, t: Turn)
    requires Explains(cfg, w.current.trace, w.current.loop) && w.exit.None? && Stepped(cfg, w, t).exit.Some?
    ensures GivesItsReason(w.current.trace, Stepped(cfg, w, t).exit.value)
  {
    var g := Guarded(cfg, w.current.loop, t);
    if g.Ended? {
      GuardGivesReason(cfg, w.current.trace, w.current.loop, t);
    } else if g.Went? {
      StartedIsNoCutoff(cfg, w, g.loop, t);
    }
  }

  /** Each cutoff names its own reason. */
  lemma CutoffsGiveReasons(cfg: Config, began: real, turns: seq<Turn>, t: Turn)
    requires History(cfg, began, turns).exit.None? && History(cfg, began, turns + [t]).exit.Some?
    ensures GivesItsReason(History(cfg, began, turns).current.trace, History(cfg, began, turns + [t]).exit.value)
  {
    OneMore(turns, t);
    HistoryKeeps(cfg, began, turns);
    StepGivesReason(cfg, History(cfg, began, turns), t);
  }

  // ------------------------------------------------------------------ the stored document

  /** The document written at the end of a turn holds each variable under its own key: the files and skills sorted, and the
      clock as the time passed. */
  lemma DocumentHolds(cfg: Config, l: Loop, end: real)
    ensures var d := ToDict(Save(cfg, l, end));
            && Holds(d, TaskId, Str(cfg.taskId)) && Holds(d, Goal, Str(cfg.goal)) && Holds(d, Messages, List(l.messages))
            && Holds(d, Used, Int(l.budget.used)) && Holds(d, AbsoluteTurns, Int(l.budget.turns))
            && Holds(d, GraceUsed, Bool(l.budget.graceUsed)) && Holds(d, TestsPassed, Bool(l.testsPassed))
            && Holds(d, VerifyNudgesUsed, Int(l.nudges)) && Holds(d, StartMonotonicOffset, Float(end - l.start))
            && Holds(d, Key.Turn, Int(l.budget.used))
            && Holds(d, LoopSignatures, List(Texts(l.signatures))) && Holds(d, ToolsUsed, List(Texts(l.tools)))
            && Holds(d, EditedFiles, List(Texts(SortedList(l.edited)))) && Holds(d, LoadedSkills, List(Texts(SortedList(l.loaded))))
  {
    WritesScalars(Save(cfg, l, end), map[]);
    WritesLists(Save(cfg, l, end), map[]);
    assert map[] + ToDict(Save(cfg, l, end)) == ToDict(Save(cfg, l, end));
  }
}
