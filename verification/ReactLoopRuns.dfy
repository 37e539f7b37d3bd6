/** Whole histories of one goal in the ReAct loop: any number of processes, each dying or exiting, with end-of-turn
    checkpoints of which any may fail to be saved. */
module ReactLoopRuns {
  import opened Common
  import opened Budgets = IterationBudget
  import opened ReactLoop
  import Guard = CompletionGuard
  import opened Stored = LoopCheckpoint

  /** The calls of a turn that the loop gets to, the last of which may end the turn. */
  ghost function Dispatched(cfg: Config, l: Loop, calls: seq<Call>): seq<Call>
    decreases |calls|
  {
    if calls == [] then []
    else [calls[0]] + (match Handled(cfg, l, calls[0])
                       case Next(l') => Dispatched(cfg, l', calls[1..])
                       case _ => [])
  }

  ghost function DispatchedBy(cfg: Config, l: Loop, reply: Reply): seq<Call> {
    match reply
    case Text(_) => []
    case Tools(calls) => Dispatched(cfg, l.(messages := l.messages + [Message("assistant", "")]), calls)
  }

  /** Where a goal stands: the loop, and what the turns that led to it came to: how many there were, their dispatched
      calls (turn by turn and in one `trace`), model calls, budget units given back, and time. */
  datatype Standing = Standing(
    loop: Loop,
    turns: nat,
    said: seq<seq<Call>>,
    trace: seq<Call>,
    calls: nat,
    refunded: int,
    elapsed: real)

  /** One goal's history. `current.loop` and `store` are the code's; `saved` is where the goal stood when `store` was
      written. The rest counts what happened: model calls, grace turns and crashes, and the turns and model calls that
      crashes threw away; `clock` is the reading up to which time was counted, and `since` how long the trace was when the
      process at hand began. */
  datatype World = World(
    current: Standing,
    saved: Standing,
    store: Option<Checkpoint>,
    exit: Option<Exit>,
    modelCalls: nat,
    graces: nat,
    crashes: nat,
    lost: int,
    thrown: int,
    clock: real,
    since: nat)

  function Start(cfg: Config, now: real): World {
    var s := Standing(Begin(cfg, now), 0, [], [], 0, 0, 0.0);
    World(s, s, None, None, 0, 0, 0, 0, 0, now, 0)
  }

  /** The process dies in a turn that made `calls` model calls, and a new one resumes from the store. */
  ghost function Crashed(cfg: Config, w: World, calls: nat, reborn: real): World {
    w.(current := w.saved.(loop := Resume(cfg, w.store, reborn)),
       crashes := w.crashes + 1,
       modelCalls := w.modelCalls + calls,
       lost := w.lost + calls + w.current.calls - w.saved.calls,
       thrown := w.thrown + 1 + w.current.turns - w.saved.turns,
       clock := reborn,
       since := |w.saved.trace|)
  }

  ghost function Over(w: World, s: Standing, exit: Exit, cleared: bool): World {
    w.(current := s, exit := Some(exit), store := if cleared then None else w.store)
  }

  ghost function Finished(cfg: Config, w: World, s: Standing, t: Turn): World {
    var w' := w.(current := s, clock := t.end);
    if t.stored then w'.(saved := s, store := Some(Save(cfg, s.loop, t.end))) else w'
  }

  /** The turn's guards have passed, perhaps as the grace turn. */
  ghost function Opened(w: World, l: Loop): World {
    w.(graces := w.graces + if l.budget.graceUsed && !w.current.loop.budget.graceUsed then 1 else 0)
  }

  /** The model is called. */
  ghost function Calling(w: World, l: Loop): World {
    Opened(w, l).(modelCalls := w.modelCalls + 1)
  }

  ghost function Called(s: Standing, l: Loop, dispatched: seq<Call>): Standing {
    s.(loop := l, turns := s.turns + 1, calls := s.calls + 1, said := s.said + [dispatched], trace := s.trace + dispatched)
  }

  ghost function Through(s: Standing, l: Loop, time: real): Standing {
    s.(loop := l, refunded := s.refunded + s.loop.budget.used - l.budget.used, elapsed := s.elapsed + time)
  }

  /** The model has been called and replied; `s` is where the goal stands with the dispatched calls. */
  ghost function Answered(cfg: Config, w: World, s: Standing, reply: Reply, t: Turn): World {
    match Replied(cfg, s.loop, reply)
    case Ended(exit) => Over(w, s, exit, t.stored)
    case Died => w
    case Went(l) => Finished(cfg, w, Through(s, l, t.end - w.clock), t)
  }

  /** The turn has started. */
  ghost function Started(cfg: Config, w: World, l: Loop, t: Turn): World {
    match t.fate
    case DiesBeforeCall(reborn) => Crashed(cfg, Opened(w, l), 0, reborn)
    case DiesAfterCall(reborn) => Crashed(cfg, Opened(w, l), 1, reborn)
    case Raises => Over(Calling(w, l), Called(w.current, l, []), Exit(Error, false, "error"), t.stored)
    case Says(reply) => Answered(cfg, Calling(w, l), Called(w.current, l, DispatchedBy(cfg, l, reply)), reply, t)
  }

  /** One turn of whichever process is running. */
  ghost function Stepped(cfg: Config, w: World, t: Turn): World {
    if w.exit.Some? then
      w
    else
      match Guarded(cfg, w.current.loop, t)
      case Ended(exit) => Over(w, w.current, exit, t.stored)
      case Died => w
      case Went(l) => Started(cfg, w, l, t)
  }

  ghost function History(cfg: Config, began: real, turns: seq<Turn>): World {
    if turns == [] then Start(cfg, began)
    else Stepped(cfg, History(cfg, began, turns[..|turns| - 1]), turns[|turns| - 1])
  }

  // ------------------------------------------------------------------ what the variables mean

  ghost predicate Verified(trace: seq<Call>) {
    exists i :: 0 <= i < |trace| && trace[i].Use? && trace[i].effect.verified
  }

  ghost predicate EditedSomething(trace: seq<Call>) {
    exists i :: 0 <= i < |trace| && trace[i].Use? && trace[i].effect.edits != {}
  }

  function Deferrals(trace: seq<Call>): nat {
    if trace == [] then 0
    else Deferrals(trace[..|trace| - 1]) + if trace[|trace| - 1].Finish? then 1 else 0
  }

  /** The loop's variables say what the trace shows. */
  ghost predicate Explains(cfg: Config, trace: seq<Call>, l: Loop) {
    && (l.testsPassed <==> Verified(trace))
    && (l.edited != {} <==> EditedSomething(trace))
    && l.nudges == Deferrals(trace) <= Max(0, cfg.maxNudges)
  }

  ghost predicate BudgetHolds(cfg: Config, b: Budget) {
    && b.maxTotal == cfg.cap
    && 0 <= b.used <= Max(0, cfg.cap)
    && 0 <= b.turns <= Max(0, 2 * cfg.cap)
  }

  function Unit(b: bool): nat {
    if b then 1 else 0
  }

  /** At most this many turns are counted, and so model calls made, from the first turn to an exit. */
  function Ceiling(cfg: Config): nat {
    Max(0, 2 * cfg.cap)
  }

  /** What so many processes may take together. */
  ghost function Capacity(cfg: Config, processes: nat): nat {
    if processes == 0 then 0 else Capacity(cfg, processes - 1) + Ceiling(cfg)
  }

  lemma {:induction false} CapacityIsProduct(cfg: Config, processes: nat)
    ensures Capacity(cfg, processes) == processes * Ceiling(cfg)
    decreases processes
  {
    if processes > 0 {
      CapacityIsProduct(cfg, processes - 1);
      assert processes * Ceiling(cfg) == (processes - 1) * Ceiling(cfg) + Ceiling(cfg);
    }
  }

  ghost predicate Stands(cfg: Config, s: Standing) {
    && BudgetHolds(cfg, s.loop.budget)
    && s.turns == s.loop.budget.turns
    && s.calls == s.loop.budget.used + Unit(s.loop.budget.graceUsed) + s.refunded
    && s.calls <= s.turns
  }

  ghost predicate Accounted(cfg: Config, w: World) {
    && Stands(cfg, w.current) && Stands(cfg, w.saved)
    && 0 <= w.current.calls - w.saved.calls <= w.current.turns - w.saved.turns
    && w.modelCalls == w.lost + w.current.calls
    && w.graces <= w.crashes + Unit(w.current.loop.budget.graceUsed)
    && 0 <= w.lost <= w.thrown <= Capacity(cfg, w.crashes)
  }

  /** The store gives back where the goal stood when it was written. */
  ghost predicate StoreHolds(cfg: Config, w: World) {
    Resume(cfg, w.store, 0.0) == w.saved.loop.(infraStreak := 0, start := 0.0 - w.saved.elapsed)
  }

  ghost predicate Inv(cfg: Config, w: World) {
    && Accounted(cfg, w)
    && (w.exit.None? ==>
          && StoreHolds(cfg, w)
          && Explains(cfg, w.current.trace, w.current.loop) && Explains(cfg, w.saved.trace, w.saved.loop)
          && w.current.loop.start == w.clock - w.current.elapsed)
  }

  // ------------------------------------------------------------------ one turn keeps it

  /** Handling calls touches the budget only to give units back. */
  ghost predicate BudgetOnlyRefunded(before: Budget, after: Budget) {
    after.maxTotal == before.maxTotal && after.turns == before.turns && after.graceUsed == before.graceUsed
    && (before.used >= 0 ==> 0 <= after.used <= before.used)
  }

  lemma TraceAppend(trace: seq<Call>, c: Call)
    ensures Verified(trace + [c]) <==> Verified(trace) || (c.Use? && c.effect.verified)
    ensures EditedSomething(trace + [c]) <==> EditedSomething(trace) || (c.Use? && c.effect.edits != {})
    ensures Deferrals(trace + [c]) == Deferrals(trace) + if c.Finish? then 1 else 0
  {
    var trace' := trace + [c];
    assert trace'[..|trace|] == trace;
    assert trace'[|trace|] == c;
    assert forall i :: 0 <= i < |trace| ==> trace'[i] == trace[i];
  }

  /** An exit does not claim more than the trace shows. */
  ghost predicate HonestExit(cfg: Config, trace: seq<Call>, exit: Exit) {
    match exit.cause
    case Finished => exit.ok ==> Guard.MayPass(cfg.judge, exit.summary, Verified(trace))
    case Deadline => exit.ok <==> EditedSomething(trace) && Verified(trace)
    case TurnLimit => exit.ok <==> EditedSomething(trace) && Verified(trace)
    case BudgetExhausted => exit.ok <==> EditedSomething(trace) && Verified(trace)
    case Answered => exit.ok
    case _ => !exit.ok
  }

  ghost predicate Onward(cfg: Config, trace: seq<Call>, l: Loop, l': Loop) {
    Explains(cfg, trace, l') && BudgetOnlyRefunded(l.budget, l'.budget) && l'.start == l.start
  }

  /** What handling calls leaves behind, once `trace` includes them. */
  ghost predicate Faithful(cfg: Config, trace: seq<Call>, l: Loop, r: CallResult) {
    match r
    case Next(l') => Onward(cfg, trace, l, l')
    case Deferred(l') => Onward(cfg, trace, l, l')
    case Left(exit) => HonestExit(cfg, trace, exit)
  }

  lemma FinishIsHonest(cfg: Config, trace: seq<Call>, l: Loop, summary: string)
    requires l.testsPassed <==> Verified(trace)
    ensures HonestExit(cfg, trace, FinishExit(cfg, l, summary))
  {
    Guard.ReconcileOkIsExact(cfg.judge, true, FinishSummary(cfg, l, summary), l.testsPassed);
  }

  lemma FinishCallKeeps(cfg: Config, trace: seq<Call>, l: Loop, c: Call)
    requires Explains(cfg, trace, l) && c.Finish?
    ensures Faithful(cfg, trace + [c], l, Handled(cfg, l, c))
  {
    TraceAppend(trace, c);
    FinishIsHonest(cfg, trace + [c], l, c.summary);
  }

  lemma LoadCallKeeps(cfg: Config, trace: seq<Call>, l: Loop, c: Call)
    requires Explains(cfg, trace, l) && c.Load?
    ensures Faithful(cfg, trace + [c], l, Handled(cfg, l, c))
  {
    TraceAppend(trace, c);
  }

  lemma UseCallKeeps(cfg: Config, trace: seq<Call>, l: Loop, c: Call)
    requires Explains(cfg, trace, l) && c.Use?
    ensures Faithful(cfg, trace + [c], l, Handled(cfg, l, c))
  {
    TraceAppend(trace, c);
  }

  lemma HandledKeeps(cfg: Config, trace: seq<Call>, l: Loop, c: Call)
    requires Explains(cfg, trace, l)
    ensures Faithful(cfg, trace + [c], l, Handled(cfg, l, c))
  {
    match c
    case Finish(_) => FinishCallKeeps(cfg, trace, l, c);
    case Load(_, _, _, _) => LoadCallKeeps(cfg, trace, l, c);
    case Use(_, _, _) => UseCallKeeps(cfg, trace, l, c);
  }

  lemma FaithfulOnward(cfg: Config, trace: seq<Call>, l: Loop, l': Loop, r: CallResult)
    requires BudgetOnlyRefunded(l.budget, l'.budget) && l'.start == l.start && Faithful(cfg, trace, l', r)
    ensures Faithful(cfg, trace, l, r)
  {
  }

  lemma {:induction false} HandledAllKeeps(cfg: Config, trace: seq<Call>, l: Loop, calls: seq<Call>)
    requires Explains(cfg, trace, l)
    ensures Faithful(cfg, trace + Dispatched(cfg, l, calls), l, HandledAll(cfg, l, calls))
    decreases |calls|
  {
    if calls == [] {
      assert trace + [] == trace;
    } else {
      HandledKeeps(cfg, trace, l, calls[0]);
      var r := Handled(cfg, l, calls[0]);
      if r.Next? {
        HandledAllKeeps(cfg, trace + [calls[0]], r.loop, calls[1..]);
        var trace' := trace + [calls[0]] + Dispatched(cfg, r.loop, calls[1..]);
        FaithfulOnward(cfg, trace', l, r.loop, HandledAll(cfg, r.loop, calls[1..]));
        assert trace' == trace + Dispatched(cfg, l, calls);
      } else {
        assert Dispatched(cfg, l, calls) == [calls[0]];
      }
    }
  }

  /** The loop a reply leads to, or the exit, once `trace` includes the calls of the reply. */
  ghost predicate FaithfulTurn(cfg: Config, trace: seq<Call>, l: Loop, r: TurnResult) {
    match r
    case Went(l') => Onward(cfg, trace, l, l')
    case Ended(exit) => HonestExit(cfg, trace, exit)
    case Died => false
  }

  lemma RepliedKeeps(cfg: Config, trace: seq<Call>, l: Loop, reply: Reply)
    requires Explains(cfg, trace, l)
    ensures FaithfulTurn(cfg, trace + DispatchedBy(cfg, l, reply), l, Replied(cfg, l, reply))
  {
    if reply.Tools? {
      HandledAllKeeps(cfg, trace, l.(messages := l.messages + [Message("assistant", "")]), reply.calls);
    }
  }

  /** Starting a turn takes one unit of turns, and one of budget or the grace turn. */
  ghost predicate Charged(before: Budget, after: Budget) {
    && after.maxTotal == before.maxTotal
    && after.turns == before.turns + 1 <= 2 * before.maxTotal
    && after.used + Unit(after.graceUsed) == before.used + Unit(before.graceUsed) + 1
    && (after.used == before.used || after.used == before.used + 1 <= before.maxTotal)
    && (before.graceUsed ==> after.graceUsed)
  }

  lemma CutoffIsHonest(cfg: Config, trace: seq<Call>, cause: Cause, reason: string, l: Loop)
    requires Explains(cfg, trace, l) && cause in {Deadline, TurnLimit, BudgetExhausted}
    ensures HonestExit(cfg, trace, Cutoff(cause, reason, l))
  {
  }

  lemma GuardedKeeps(cfg: Config, trace: seq<Call>, l: Loop, t: Turn)
    requires Explains(cfg, trace, l)
    ensures match Guarded(cfg, l, t)
            case Went(l') => Charged(l.budget, l'.budget) && l' == l.(budget := l'.budget)
            case Ended(exit) => HonestExit(cfg, trace, exit)
            case Died => false
  {
    CutoffIsHonest(cfg, trace, Deadline, "wall-clock deadline exceeded", l);
    CutoffIsHonest(cfg, trace, TurnLimit, "absolute turn limit exceeded", l);
    CutoffIsHonest(cfg, trace, BudgetExhausted, "budget exhausted", l);
  }

  lemma ResumeShifts(cfg: Config, store: Option<Checkpoint>, now: real)
    ensures Resume(cfg, store, now) == Resume(cfg, store, 0.0).(start := now + Resume(cfg, store, 0.0).start)
  {
  }

  /** What a checkpoint holds comes back, set against the new clock. */
  lemma SavedComesBack(cfg: Config, l: Loop, end: real, now: real)
    requires l.budget.maxTotal == cfg.cap
    ensures Resume(cfg, Some(Save(cfg, l, end)), now) == l.(infraStreak := 0, start := now - (end - l.start))
  {
    StringsOfTexts(SortedList(l.edited));
    StringsOfTexts(SortedList(l.loaded));
    StringsOfTexts(l.signatures);
    StringsOfTexts(l.tools);
  }

  lemma CrashKeeps(cfg: Config, w: World, l: Loop, t: Turn)
    requires Inv(cfg, w) && w.exit.None? && Charged(w.current.loop.budget, l.budget)
    requires t.fate.DiesBeforeCall? || t.fate.DiesAfterCall?
    ensures Inv(cfg, Started(cfg, w, l, t)) && Ending(cfg, Started(cfg, w, l, t))
  {
    ResumeShifts(cfg, w.store, t.fate.reborn);
  }

  lemma CallKeeps(cfg: Config, w: World, l: Loop, dispatched: seq<Call>)
    requires Accounted(cfg, w) && Charged(w.current.loop.budget, l.budget)
    ensures var s := Called(w.current, l, dispatched);
            Accounted(cfg, Calling(w, l).(current := s))
  {
  }

  lemma FinishKeeps(cfg: Config, w: World, s: Standing, l: Loop, t: Turn)
    requires Accounted(cfg, w.(current := s)) && Onward(cfg, s.trace, s.loop, l)
    requires StoreHolds(cfg, w) && Explains(cfg, w.saved.trace, w.saved.loop)
    requires s.loop.start == w.clock - s.elapsed && w.exit.None?
    ensures Inv(cfg, Finished(cfg, w, Through(s, l, t.end - w.clock), t))
  {
    if t.stored {
      SavedComesBack(cfg, l, t.end, 0.0);
    }
  }

  lemma AnswerKeeps(cfg: Config, w: World, s: Standing, reply: Reply, t: Turn)
    requires Accounted(cfg, w.(current := s)) && FaithfulTurn(cfg, s.trace, s.loop, Replied(cfg, s.loop, reply))
    requires StoreHolds(cfg, w) && Explains(cfg, w.saved.trace, w.saved.loop)
    requires s.loop.start == w.clock - s.elapsed && w.exit.None?
    ensures Inv(cfg, Answered(cfg, w, s, reply, t)) && Ending(cfg, Answered(cfg, w, s, reply, t))
  {
    match Replied(cfg, s.loop, reply)
    case Went(l) => FinishKeeps(cfg, w, s, l, t);
    case Ended(exit) => EndKeeps(cfg, w, s, exit, t.stored);
  }

  lemma EndKeeps(cfg: Config, w: World, s: Standing, exit: Exit, cleared: bool)
    requires Accounted(cfg, w.(current := s)) && HonestExit(cfg, s.trace, exit)
    ensures Inv(cfg, Over(w, s, exit, cleared)) && Ending(cfg, Over(w, s, exit, cleared))
  {
  }

  /** If the goal is over, its exit was honest. */
  ghost predicate Ending(cfg: Config, w: World) {
    w.exit.Some? ==> HonestExit(cfg, w.current.trace, w.exit.value)
  }

  lemma AnsweredKeeps(cfg: Config, w: World, l: Loop, reply: Reply, t: Turn)
    requires Inv(cfg, w) && w.exit.None? && Charged(w.current.loop.budget, l.budget)
    requires l == w.current.loop.(budget := l.budget)
    ensures var s := Called(w.current, l, DispatchedBy(cfg, l, reply));
            var w' := Answered(cfg, Calling(w, l), s, reply, t);
            Inv(cfg, w') && Ending(cfg, w')
  {
    var dispatched := DispatchedBy(cfg, l, reply);
    RepliedKeeps(cfg, w.current.trace, l, reply);
    CallKeeps(cfg, w, l, dispatched);
    AnswerKeeps(cfg, Calling(w, l), Called(w.current, l, dispatched), reply, t);
  }

  lemma ReplyKeeps(cfg: Config, w: World, l: Loop, t: Turn)
    requires Inv(cfg, w) && w.exit.None? && Charged(w.current.loop.budget, l.budget)
    requires l == w.current.loop.(budget := l.budget) && t.fate.Says?
    ensures Inv(cfg, Started(cfg, w, l, t)) && Ending(cfg, Started(cfg, w, l, t))
  {
    AnsweredKeeps(cfg, w, l, t.fate.reply, t);
  }

  lemma RaiseKeeps(cfg: Config, w: World, l: Loop, t: Turn)
    requires Inv(cfg, w) && w.exit.None? && Charged(w.current.loop.budget, l.budget)
    requires t.fate.Raises?
    ensures Inv(cfg, Started(cfg, w, l, t)) && Ending(cfg, Started(cfg, w, l, t))
  {
    CallKeeps(cfg, w, l, []);
  }

  lemma StartedKeeps(cfg: Config, w: World, l: Loop, t: Turn)
    requires Inv(cfg, w) && w.exit.None? && Charged(w.current.loop.budget, l.budget)
    requires l == w.current.loop.(budget := l.budget)
    ensures Inv(cfg, Started(cfg, w, l, t)) && Ending(cfg, Started(cfg, w, l, t))
  {
    match t.fate
    case DiesBeforeCall(_) => CrashKeeps(cfg, w, l, t);
    case DiesAfterCall(_) => CrashKeeps(cfg, w, l, t);
    case Raises => RaiseKeeps(cfg, w, l, t);
    case Says(_) => ReplyKeeps(cfg, w, l, t);
  }

  lemma StepKeeps(cfg: Config, w: World, t: Turn)
    requires Inv(cfg, w) && Ending(cfg, w)
    ensures Inv(cfg, Stepped(cfg, w, t)) && Ending(cfg, Stepped(cfg, w, t))
  {
    if w.exit.None? {
      GuardedKeeps(cfg, w.current.trace, w.current.loop, t);
      var g := Guarded(cfg, w.current.loop, t);
      if g.Went? {
        StartedKeeps(cfg, w, g.loop, t);
      }
    }
  }

  lemma {:induction false} HistoryKeeps(cfg: Config, began: real, turns: seq<Turn>)
    ensures Inv(cfg, History(cfg, began, turns)) && Ending(cfg, History(cfg, began, turns))
    decreases |turns|
  {
    if turns != [] {
      HistoryKeeps(cfg, began, turns[..|turns| - 1]);
      StepKeeps(cfg, History(cfg, began, turns[..|turns| - 1]), turns[|turns| - 1]);
    } else {
      assert !Verified([]) && !EditedSomething([]);
    }
  }

  lemma HistoryAccounts(cfg: Config, began: real, turns: seq<Turn>)
    ensures Accounted(cfg, History(cfg, began, turns))
  {
    HistoryKeeps(cfg, began, turns);
  }

  // ------------------------------------------------------------------ when every turn is saved

  ghost predicate EveryTurnStored(turns: seq<Turn>) {
    forall i :: 0 <= i < |turns| ==> turns[i].stored
  }

  /** The store is no turn behind, so each crash has thrown away one turn only. */
  ghost predicate UpToDate(w: World) {
    && w.lost <= w.crashes == w.thrown
    && (w.exit.None? ==> w.saved.calls == w.current.calls && w.saved.turns == w.current.turns)
  }

  lemma StepStaysUpToDate(cfg: Config, w: World, t: Turn)
    requires Inv(cfg, w) && UpToDate(w) && t.stored
    ensures UpToDate(Stepped(cfg, w, t))
  {
    if w.exit.None? {
      GuardedKeeps(cfg, w.current.trace, w.current.loop, t);
    }
  }

  lemma {:induction false} StoredIsUpToDate(cfg: Config, began: real, turns: seq<Turn>)
    requires EveryTurnStored(turns)
    ensures UpToDate(History(cfg, began, turns))
    decreases |turns|
  {
    if turns != [] {
      var before := turns[..|turns| - 1];
      StoredIsUpToDate(cfg, began, before);
      HistoryKeeps(cfg, began, before);
      StepStaysUpToDate(cfg, History(cfg, began, before), turns[|turns| - 1]);
    }
  }

  lemma InvBounds(cfg: Config, w: World)
    requires Accounted(cfg, w)
    ensures w.modelCalls <= Capacity(cfg, w.crashes + 1)
    ensures w.current.turns + w.thrown <= Capacity(cfg, w.crashes + 1)
    ensures w.modelCalls <= Ceiling(cfg) + w.lost && w.current.turns <= Ceiling(cfg)
    ensures w.crashes == 0 ==> w.lost == 0
  {
  }

  // ------------------------------------------------------------------ the theorems

  /** Over any history, a goal makes at most 2·cap model calls for each process, and 2·cap + crashes when no save failed;
      it takes at most 1 + crashes grace turns; and its used count stays between 0 and cap. */
  lemma SpendingIsBounded(cfg: Config, began: real, turns: seq<Turn>)
    ensures var w := History(cfg, began, turns);
            && w.modelCalls <= Capacity(cfg, w.crashes + 1)
            && (EveryTurnStored(turns) ==> w.modelCalls <= Ceiling(cfg) + w.crashes)
            && w.graces <= 1 + w.crashes
            && 0 <= w.current.loop.budget.used <= Max(0, cfg.cap)
  {
    HistoryAccounts(cfg, began, turns);
    InvBounds(cfg, History(cfg, began, turns));
    if EveryTurnStored(turns) {
      StoredIsUpToDate(cfg, began, turns);
    }
  }

  /** Nothing is spent unaccounted for: each model call is a unit still used, the grace turn, a unit given back, or part
      of a turn that a crash threw away. So with no crash and no refund there are at most cap + 1. */
  lemma SpendingIsAccounted(cfg: Config, began: real, turns: seq<Turn>)
    ensures var w := History(cfg, began, turns);
            var b := w.current.loop.budget;
            && w.modelCalls == w.lost + b.used + Unit(b.graceUsed) + w.current.refunded
            && (w.crashes == 0 ==> w.lost == 0)
            && (w.crashes == 0 && w.current.refunded == 0 ==> w.modelCalls <= Max(0, cfg.cap) + 1)
  {
    HistoryAccounts(cfg, began, turns);
    InvBounds(cfg, History(cfg, began, turns));
  }

  lemma StepCountsTurn(cfg: Config, w: World, t: Turn)
    requires Inv(cfg, w) && w.exit.None?
    ensures var w' := Stepped(cfg, w, t);
            w'.exit.None? ==> w'.current.turns + w'.thrown == w.current.turns + w.thrown + 1
  {
    GuardedKeeps(cfg, w.current.trace, w.current.loop, t);
    var g := Guarded(cfg, w.current.loop, t);
    if g.Went? && t.fate.Says? {
      RepliedKeeps(cfg, w.current.trace, g.loop, t.fate.reply);
    }
  }

  /** The turn counts, as long as the goal is open. */
  ghost predicate Counts(w: World, n: nat) {
    w.exit.None? ==> n == w.current.loop.budget.turns + w.thrown
  }

  /** Every turn is one that stands, counted by the loop, or one that a crash threw away. */
  lemma {:induction false} TurnsAreCounted(cfg: Config, began: real, turns: seq<Turn>)
    ensures Counts(History(cfg, began, turns), |turns|)
    decreases |turns|
  {
    HistoryKeeps(cfg, began, turns);
    if turns != [] {
      var before := turns[..|turns| - 1];
      TurnsAreCounted(cfg, began, before);
      HistoryKeeps(cfg, began, before);
      if History(cfg, began, before).exit.None? {
        StepCountsTurn(cfg, History(cfg, began, before), turns[|turns| - 1]);
      }
    }
  }

  lemma CrowdedIsOver(cfg: Config, w: World, n: nat)
    requires Accounted(cfg, w) && Counts(w, n)
    requires n > Capacity(cfg, w.crashes + 1) || n > Ceiling(cfg) + w.thrown
    ensures w.exit.Some?
  {
    InvBounds(cfg, w);
  }

  /** The loop ends: after 2·cap turns for each process there is an exit, however many turns were refunded. */
  lemma LoopEnds(cfg: Config, began: real, turns: seq<Turn>)
    requires |turns| > Capacity(cfg, History(cfg, began, turns).crashes + 1)
    ensures History(cfg, began, turns).exit.Some?
  {
    TurnsAreCounted(cfg, began, turns);
    HistoryAccounts(cfg, began, turns);
    CrowdedIsOver(cfg, History(cfg, began, turns), |turns|);
  }

  /** When no save fails, a crash puts off the end by one turn only. */
  lemma SavedLoopEnds(cfg: Config, began: real, turns: seq<Turn>)
    requires EveryTurnStored(turns)
    requires |turns| > Ceiling(cfg) + History(cfg, began, turns).crashes
    ensures History(cfg, began, turns).exit.Some?
  {
    TurnsAreCounted(cfg, began, turns);
    HistoryAccounts(cfg, began, turns);
    StoredIsUpToDate(cfg, began, turns);
    CrowdedIsOver(cfg, History(cfg, began, turns), |turns|);
  }

  /** Through the stored document and back, over whatever it held before, resuming restores the loop: the clock goes on from
      the time already taken, and only the streak of infrastructure errors starts over. */
  lemma ResumeRestores(cfg: Config, n: Numbers, l: Loop, end: real, now: real, before: Doc)
    ensures var read := FromDict(n, Some(before + ToDict(Save(cfg, l, end))));
            Resume(cfg, read, now) == l.(infraStreak := 0, start := now - (end - l.start)) <==> l.budget.maxTotal == cfg.cap
  {
    RoundTrip(n, Save(cfg, l, end), before);
    if l.budget.maxTotal == cfg.cap {
      SavedComesBack(cfg, l, end, now);
    }
  }

  /** A checkpoint of another goal is not resumed. */
  lemma OtherGoalStartsAfresh(cfg: Config, n: Numbers, l: Loop, end: real, now: real, goal: string)
    requires goal != cfg.goal
    ensures Resume(cfg.(goal := goal), FromDict(n, Some(ToDict(Save(cfg, l, end)))), now) == Begin(cfg.(goal := goal), now)
  {
    RoundTrip(n, Save(cfg, l, end), map[]);
    assert map[] + ToDict(Save(cfg, l, end)) == ToDict(Save(cfg, l, end));
  }

  /** A turn that reached its end. */
  predicate Completes(t: Turn) {
    t.fate.Says?
  }

  /** Nothing has happened yet, or the last turn was saved. */
  predicate EndsSaved(turns: seq<Turn>) {
    turns == [] || (Completes(turns[|turns| - 1]) && turns[|turns| - 1].stored)
  }

  lemma SavedIsCurrent(cfg: Config, began: real, turns: seq<Turn>)
    requires EndsSaved(turns) && History(cfg, began, turns).exit.None?
    ensures History(cfg, began, turns).saved == History(cfg, began, turns).current
  {
    if turns != [] {
      var w := History(cfg, began, turns[..|turns| - 1]);
      HistoryKeeps(cfg, began, turns[..|turns| - 1]);
      StepSaves(cfg, w, turns[|turns| - 1]);
    }
  }

  lemma StepSaves(cfg: Config, w: World, t: Turn)
    requires Inv(cfg, w) && w.exit.None? && Completes(t) && Stepped(cfg, w, t).exit.None?
    ensures var w' := Stepped(cfg, w, t);
            if t.stored then w'.saved == w'.current else w'.saved == w.saved && w'.store == w.store
  {
    GuardedKeeps(cfg, w.current.trace, w.current.loop, t);
    RepliedKeeps(cfg, w.current.trace, Guarded(cfg, w.current.loop, t).loop, t.fate.reply);
  }

  ghost predicate UnsavedStretch(turns: seq<Turn>) {
    forall i :: 0 <= i < |turns| ==> Completes(turns[i]) && !turns[i].stored
  }

  lemma {:induction false} StretchKeepsStore(cfg: Config, began: real, kept: seq<Turn>, stretch: seq<Turn>)
    requires UnsavedStretch(stretch) && History(cfg, began, kept + stretch).exit.None?
    ensures var w, w' := History(cfg, began, kept), History(cfg, began, kept + stretch);
            w.exit.None? && w'.saved == w.saved && w'.store == w.store
    decreases |stretch|
  {
    if stretch == [] {
      assert kept + stretch == kept;
    } else {
      var shorter, all := stretch[..|stretch| - 1], kept + stretch;
      assert all[..|all| - 1] == kept + shorter && all[|all| - 1] == stretch[|stretch| - 1];
      StretchKeepsStore(cfg, began, kept, shorter);
      HistoryKeeps(cfg, began, kept + shorter);
      StepSaves(cfg, History(cfg, began, kept + shorter), stretch[|stretch| - 1]);
    }
  }

  lemma CrashGoesBack(cfg: Config, w: World, t: Turn, reborn: real)
    requires Inv(cfg, w) && w.exit.None? && Guarded(cfg, w.current.loop, t).Went?
    requires t.fate in {DiesBeforeCall(reborn), DiesAfterCall(reborn)}
    ensures var s, w' := w.saved, Stepped(cfg, w, t);
            && w'.current == s.(loop := s.loop.(infraStreak := 0, start := reborn - s.elapsed))
            && w'.clock == reborn
  {
    ResumeShifts(cfg, w.store, reborn);
  }

  /** A crash costs the turn it interrupts and those before it that were not saved, and nothing else: the next process goes
      on where the last saved turn ended, its clock set back by the time taken up to there. */
  lemma CrashLosesUnsavedTurns(cfg: Config, began: real, kept: seq<Turn>, stretch: seq<Turn>, t: Turn, reborn: real)
    requires EndsSaved(kept) && UnsavedStretch(stretch) && History(cfg, began, kept + stretch).exit.None?
    requires t.fate in {DiesBeforeCall(reborn), DiesAfterCall(reborn)}
    requires Guarded(cfg, History(cfg, began, kept + stretch).current.loop, t).Went?
    ensures var s, w := History(cfg, began, kept).current, History(cfg, began, kept + stretch + [t]);
            && w.current == s.(loop := s.loop.(infraStreak := 0, start := reborn - s.elapsed))
            && w.clock == reborn
  {
    StretchKeepsStore(cfg, began, kept, stretch);
    SavedIsCurrent(cfg, began, kept);
    HistoryKeeps(cfg, began, kept + stretch);
    var all := kept + stretch + [t];
    assert all[..|all| - 1] == kept + stretch;
    CrashGoesBack(cfg, History(cfg, began, kept + stretch), t, reborn);
  }

  // ------------------------------------------------------------------ what the deadline measures

  predicate Dies(t: Turn) {
    t.fate.DiesBeforeCall? || t.fate.DiesAfterCall?
  }

  /** When all processes read one clock: the reading up to which time will count if the next turn dies, that is, where the last
      saved turn ended or the process at hand began. */
  function SavedAt(began: real, turns: seq<Turn>): real {
    if turns == [] then began
    else
      var t := turns[|turns| - 1];
      if Dies(t) then t.fate.reborn
      else if t.stored then t.end
      else SavedAt(began, turns[..|turns| - 1])
  }

  /** The time from there to the next process's start, over all crashes. */
  function Missed(began: real, turns: seq<Turn>): real {
    if turns == [] then 0.0
    else
      var before, t := turns[..|turns| - 1], turns[|turns| - 1];
      Missed(began, before) + if Dies(t) then t.fate.reborn - SavedAt(began, before) else 0.0
  }

  /** What is known of the clock. */
  ghost predicate Timed(w: World, savedAt: real, counted: real) {
    && w.clock - w.current.elapsed == counted
    && w.clock - (w.current.elapsed - w.saved.elapsed) == savedAt
  }

  lemma StepTimes(cfg: Config, w: World, t: Turn, savedAt: real, counted: real)
    requires Inv(cfg, w) && w.exit.None? && Stepped(cfg, w, t).exit.None? && Timed(w, savedAt, counted)
    ensures Dies(t) ==> Timed(Stepped(cfg, w, t), t.fate.reborn, counted + (t.fate.reborn - savedAt))
    ensures !Dies(t) ==> Timed(Stepped(cfg, w, t), if t.stored then t.end else savedAt, counted)
  {
    GuardedKeeps(cfg, w.current.trace, w.current.loop, t);
    var g := Guarded(cfg, w.current.loop, t);
    if g.Went? && t.fate.Says? {
      RepliedKeeps(cfg, w.current.trace, g.loop, t.fate.reply);
    }
  }

  lemma {:induction false} HistoryTimes(cfg: Config, began: real, turns: seq<Turn>)
    requires History(cfg, began, turns).exit.None?
    ensures Timed(History(cfg, began, turns), SavedAt(began, turns), began + Missed(began, turns))
    decreases |turns|
  {
    if turns != [] {
      var before := turns[..|turns| - 1];
      HistoryTimes(cfg, began, before);
      HistoryKeeps(cfg, began, before);
      StepTimes(cfg, History(cfg, began, before), turns[|turns| - 1], SavedAt(began, before), began + Missed(began, before));
    }
  }

  ghost predicate IsLate(cfg: Config, l: Loop, t: Turn) {
    var g := Guarded(cfg, l, t); g.Ended? && g.exit.cause == Deadline
  }

  /** The deadline is held against the time since the goal began, less what the crashes dropped: the time of each turn that a
      crash threw away and the time until the next process started. */
  lemma LateExactlyWhen(cfg: Config, began: real, turns: seq<Turn>, t: Turn)
    requires History(cfg, began, turns).exit.None? && !t.cancelled
    ensures IsLate(cfg, History(cfg, began, turns).current.loop, t)
            <==> cfg.deadline > 0.0 && (t.now - began) - Missed(began, turns) > cfg.deadline
  {
    HistoryKeeps(cfg, began, turns);
    HistoryTimes(cfg, began, turns);
  }

  ghost predicate MeasuresTotalTime(cfg: Config, began: real, turns: seq<Turn>) {
    forall t: Turn :: !t.cancelled ==>
      (IsLate(cfg, History(cfg, began, turns).current.loop, t) <==> t.now - began > cfg.deadline)
  }

  /** So it measures the total time of the goal exactly when the crashes dropped none. */
  lemma TotalTimeExactlyWhen(cfg: Config, began: real, turns: seq<Turn>)
    requires History(cfg, began, turns).exit.None? && cfg.deadline > 0.0
    ensures MeasuresTotalTime(cfg, began, turns) <==> Missed(began, turns) == 0.0
  {
    var missed := Missed(began, turns);
    forall t: Turn | !t.cancelled
      ensures IsLate(cfg, History(cfg, began, turns).current.loop, t) <==> (t.now - began) - missed > cfg.deadline
    {
      LateExactlyWhen(cfg, began, turns, t);
    }
    if missed != 0.0 {
      var now := began + cfg.deadline + if missed > 0.0 then missed / 2.0 else 0.0;
      var t := Turn.Turn(false, now, now, true, Raises);
      assert !(IsLate(cfg, History(cfg, began, turns).current.loop, t) <==> t.now - began > cfg.deadline);
    }
  }

  lemma {:induction false} NoCrashMissesNothing(began: real, turns: seq<Turn>)
    requires forall i :: 0 <= i < |turns| ==> !Dies(turns[i])
    ensures Missed(began, turns) == 0.0
    decreases |turns|
  {
    if turns != [] {
      NoCrashMissesNothing(began, turns[..|turns| - 1]);
    }
  }

  /** A process that dies in its first turn, however late the next one starts: that one has all the time of the deadline left,
      so the goal goes on although its total time is over. */
  lemma LostTimeIsFree(cfg: Config, began: real, end: real, reborn: real)
    requires cfg.cap > 0 && cfg.deadline > 0.0 && reborn - began > cfg.deadline
    ensures var turns, t := [Turn.Turn(false, began, end, true, DiesAfterCall(reborn))], Turn.Turn(false, reborn, reborn, true, Raises);
            && History(cfg, began, turns).exit.None? && Missed(began, turns) == reborn - began
            && Guarded(cfg, History(cfg, began, turns).current.loop, t).Went?
            && t.now - began > cfg.deadline
  {
    var died := Turn.Turn(false, began, end, true, DiesAfterCall(reborn));
    assert [died][..0] == [];
    assert History(cfg, began, [died]) == Stepped(cfg, Start(cfg, began), died);
    assert Missed(began, [died]) == Missed(began, []) + (reborn - SavedAt(began, []));
  }

  /** `tests_passed` holds exactly when the trace shows an accepted verification, and a finish is deferred at most
      MAX_VERIFY_NUDGES times. */
  lemma VerificationIsRemembered(cfg: Config, began: real, turns: seq<Turn>)
    requires History(cfg, began, turns).exit.None?
    ensures var s := History(cfg, began, turns).current;
            && (s.loop.testsPassed <==> Verified(s.trace))
            && Deferrals(s.trace) <= Max(0, cfg.maxNudges)
  {
    HistoryKeeps(cfg, began, turns);
  }

  /** Every exit is honest: a finish that is ok is neither a punt nor an unbacked claim of success, a cutoff is ok exactly
      when something was edited and verified, and a cancellation, a detected loop or an error never is. */
  lemma ExitsAreHonest(cfg: Config, began: real, turns: seq<Turn>)
    requires History(cfg, began, turns).exit.Some?
    ensures HonestExit(cfg, History(cfg, began, turns).current.trace, History(cfg, began, turns).exit.value)
  {
    HistoryKeeps(cfg, began, turns);
  }

  /** The one exit that is not reconciled is a reply without tool calls: it is ok whatever it says. */
  lemma TextExitIsUnchecked(cfg: Config, l: Loop, content: string)
    requires cfg.judge.isPunt(UpTo(content, 2000))
    ensures var r := Replied(cfg, l, Text(content));
            r.Ended? && r.exit.ok && !Guard.MayPass(cfg.judge, r.exit.summary, l.testsPassed)
  {
  }

  // ------------------------------------------------------------------ one process of the history

  /** The history up to the exit or death of the process that is running. */
  ghost function Process(cfg: Config, w: World, script: seq<Turn>): World
    decreases |script|
  {
    if script == [] then w
    else
      var w1 := Stepped(cfg, w, script[0]);
      if Taken(cfg, w.current.loop, script[0]).Went? then Process(cfg, w1, script[1..]) else w1
  }

  /** The method's account of one process agrees with the history: from wherever a goal stands, it exits exactly when the
      history does, with the same result, and leaves the same store. */
  lemma {:induction false} ProcessIsPartOfHistory(cfg: Config, w: World, script: seq<Turn>)
    requires w.exit.None?
    ensures var life, w' := Lived(cfg, w.current.loop, w.store, script), Process(cfg, w, script);
            life.exit == w'.exit && life.store == w'.store
    decreases |script|
  {
    if script != [] {
      var w1 := Stepped(cfg, w, script[0]);
      if Taken(cfg, w.current.loop, script[0]).Went? {
        ProcessIsPartOfHistory(cfg, w1, script[1..]);
      }
    }
  }
}
