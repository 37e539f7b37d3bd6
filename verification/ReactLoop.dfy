/** The control skeleton of the ReAct loop, with its per-turn checkpoint and process crashes. Model replies, tool
    results, the clock, user cancellation and the moment of a crash are arbitrary inputs. */
module ReactLoop {
  import opened Common
  import opened Budgets = IterationBudget
  import Detection = LoopDetection
  import Guard = CompletionGuard
  import opened Stored = LoopCheckpoint

  /** One goal of one task. `deadline` is in seconds, none if not positive; `prompt` is what the first model call sees. */
  datatype Config = Config(
    taskId: string,
    goal: string,
    prompt: seq<Value>,
    deadline: real,
    cap: int,
    maxNudges: int,
    maxInfraErrors: int,
    exposeBug: bool,
    refundRepeatLoad: bool,
    repeatLimit: int,
    mutatingLimit: int,
    cycleWindow: int,
    judge: Guard.Judge,
    infraNote: set<string> -> string)

  datatype TestRun = NoTest | InfraError | Ran

  /** What a tool did, as the loop's accounting sees it. `deduped` marks a re-analysis that was short-circuited. */
  datatype Effect = Effect(content: string, edits: set<string>, verified: bool, test: TestRun, deduped: bool)

  datatype Call =
    | Finish(summary: string)
    | Load(skill: string, signature: string, loads: bool, content: string)
    | Use(name: string, signature: string, effect: Effect)

  function NameOf(c: Call): string {
    match c
    case Finish(_) => "finish"
    case Load(_, _, _, _) => "load_skill"
    case Use(name, _, _) => name
  }

  datatype Reply = Text(content: string) | Tools(calls: seq<Call>)

  /** What happens to a turn once its guards have let it start. */
  datatype Fate = DiesBeforeCall(reborn: real) | DiesAfterCall(reborn: real) | Raises | Says(reply: Reply)

  /** The clock is read at the top of the turn (`now`) and where the turn is saved (`end`); after a death the next process
      reads `reborn` on a clock of its own. `stored` tells whether the store carries out the save or the clear of the turn. */
  datatype Turn = Turn(cancelled: bool, now: real, end: real, stored: bool, fate: Fate)

  /** The loop's variables. A checkpoint holds `start` as the time passed since, and `infraStreak` not at all. */
  datatype Loop = Loop(
    budget: Budget,
    messages: seq<Value>,
    edited: set<string>,
    testsPassed: bool,
    nudges: int,
    signatures: seq<string>,
    tools: seq<string>,
    loaded: set<string>,
    start: real,
    infraStreak: int)

  datatype Cause = Cancelled | Deadline | TurnLimit | BudgetExhausted | Answered | Finished | LoopDetected | Error

  datatype Exit = Exit(cause: Cause, ok: bool, summary: string)

  function Begin(cfg: Config, now: real): Loop {
    Loop(Budget(cfg.cap, 0, false, 0), cfg.prompt, {}, false, 0, [], [], {}, now, 0)
  }

  function Message(role: string, content: string): Value {
    Dict(["role", "content"], [Str(role), Str(content)])
  }

  function Deferral(): seq<Value> {
    [Message("tool", "finish deferred"), Message("user", "verify first")]
  }

  // ------------------------------------------------------------------ one tool call

  datatype CallResult = Next(loop: Loop) | Deferred(loop: Loop) | Left(exit: Exit)

  const NOT_EXPOSED: string := " [verification-stop: the test was NOT run to confirm it exposes the bug]"
  const NOT_VERIFIED: string := " [verification-stop: tests were NOT verified to pass within the nudge budget]"

  function FinishSummary(cfg: Config, l: Loop, summary: string): string {
    var short := UpTo(summary, 2000);
    if l.edited == {} || l.testsPassed then
      short
    else if l.infraStreak >= cfg.maxInfraErrors then
      Strip(summary + "\n\n" + cfg.infraNote(l.edited))
    else if cfg.exposeBug then
      UpTo(short + NOT_EXPOSED, 2000)
    else
      UpTo(short + NOT_VERIFIED, 2000)
  }

  function FinishExit(cfg: Config, l: Loop, summary: string): Exit {
    var text := FinishSummary(cfg, l, summary);
    var (ok, note) := Guard.ReconcileOk(cfg.judge, true, text, l.testsPassed);
    Exit(Finished, ok, if note != "" then UpTo(text + " " + note, 2000) else text)
  }

  predicate Owes(cfg: Config, l: Loop) {
    Guard.NeedsVerification(l.edited, l.testsPassed, l.nudges, cfg.maxNudges, l.infraStreak, cfg.maxInfraErrors)
  }

  predicate Loops(cfg: Config, signatures: seq<string>, name: string) {
    Detection.Judged(signatures, cfg.repeatLimit, cfg.cycleWindow,
                     Some(Detection.RepeatLimitFor(name, cfg.repeatLimit, cfg.mutatingLimit))) != Detection.Go
  }

  predicate IsRepeatLoad(l: Loop, c: Call) {
    c.Load? && c.skill != "" && c.skill in l.loaded
  }

  function LoopExit(): Exit {
    Exit(LoopDetected, false, "loop detected")
  }

  function AfterUse(l: Loop, e: Effect): Loop {
    l.(budget := if e.deduped then l.budget.Refunded() else l.budget,
       edited := l.edited + e.edits,
       testsPassed := l.testsPassed || e.verified,
       infraStreak := match e.test case NoTest => l.infraStreak case InfraError => l.infraStreak + 1 case Ran => 0,
       messages := l.messages + [Message("tool", e.content)])
  }

  function Handled(cfg: Config, l: Loop, c: Call): CallResult {
    match c
    case Finish(summary) =>
      if Owes(cfg, l) then
        Deferred(l.(nudges := l.nudges + 1, messages := l.messages + Deferral()))
      else
        Left(FinishExit(cfg, l, summary))
    case Load(skill, signature, loads, content) =>
      var signatures := l.signatures + [signature];
      var l' := l.(signatures := signatures, tools := l.tools + ["load_skill"], messages := l.messages + [Message("tool", content)]);
      if IsRepeatLoad(l, c) then
        Next(if cfg.refundRepeatLoad then l'.(budget := l'.budget.Refunded()) else l')
      else if Loops(cfg, signatures, "load_skill") then
        Left(LoopExit())
      else
        Next(if loads then l'.(loaded := l'.loaded + {skill}) else l')
    case Use(name, signature, effect) =>
      var signatures := l.signatures + [signature];
      if Loops(cfg, signatures, name) then
        Left(LoopExit())
      else
        Next(AfterUse(l.(signatures := signatures, tools := l.tools + [name]), effect))
  }

  /** The calls of one assistant turn, up to a deferred finish (which breaks off the rest) or an exit. */
  function HandledAll(cfg: Config, l: Loop, calls: seq<Call>): CallResult
    decreases |calls|
  {
    if calls == [] then
      Next(l)
    else
      match Handled(cfg, l, calls[0])
      case Next(l') => HandledAll(cfg, l', calls[1..])
      case Deferred(l') => Deferred(l')
      case Left(exit) => Left(exit)
  }

  // ------------------------------------------------------------------ one turn

  datatype TurnResult = Went(loop: Loop) | Ended(exit: Exit) | Died

  function Cutoff(cause: Cause, reason: string, l: Loop): Exit {
    var (ok, summary) := Guard.ReconcileCutoff(reason, l.edited, l.testsPassed);
    Exit(cause, ok, summary)
  }

  function Refundable(calls: seq<Call>): bool {
    calls != [] && forall i :: 0 <= i < |calls| ==> NameOf(calls[i]) in REFUNDABLE_TOOLS
  }

  function Replied(cfg: Config, l: Loop, reply: Reply): TurnResult {
    match reply
    case Text(content) => Ended(Exit(Answered, true, UpTo(content, 2000)))
    case Tools(calls) =>
      if calls == [] then
        Ended(Exit(Answered, true, ""))
      else
        match HandledAll(cfg, l.(messages := l.messages + [Message("assistant", "")]), calls)
        case Left(exit) => Ended(exit)
        case Deferred(l') => Went(l')
        case Next(l') => Went(if Refundable(calls) then l'.(budget := l'.budget.Refunded()) else l')
  }

  /** The guards at the top of a turn: the loop to go on with, or the exit. */
  function Guarded(cfg: Config, l: Loop, t: Turn): TurnResult {
    if t.cancelled then
      Ended(Exit(Cancelled, false, "cancelled by user mid-turn"))
    else if cfg.deadline > 0.0 && t.now - l.start > cfg.deadline then
      Ended(Cutoff(Deadline, "wall-clock deadline exceeded", l))
    else if !l.budget.CanTurn() then
      Ended(Cutoff(TurnLimit, "absolute turn limit exceeded", l))
    else
      var b := l.budget.Turned();
      if b.CanConsume() then Went(l.(budget := b.Consumed()))
      else if !b.graceUsed then Went(l.(budget := b.Graced()))
      else Ended(Cutoff(BudgetExhausted, "budget exhausted", l))
  }

  function Taken(cfg: Config, l: Loop, t: Turn): TurnResult {
    match Guarded(cfg, l, t)
    case Ended(exit) => Ended(exit)
    case Died => Died
    case Went(l') =>
      match t.fate
      case DiesBeforeCall(_) => Died
      case DiesAfterCall(_) => Died
      case Raises => Ended(Exit(Error, false, "error"))
      case Says(reply) => Replied(cfg, l', reply)
  }

  // ------------------------------------------------------------------ checkpoints

  function Save(cfg: Config, l: Loop, end: real): Checkpoint {
    Checkpoint(cfg.taskId, cfg.goal, l.messages, l.budget.used, l.budget.turns, l.budget.graceUsed,
               Texts(SortedList(l.edited)), l.testsPassed, l.nudges, Texts(l.signatures), Texts(l.tools),
               Texts(SortedList(l.loaded)), end - l.start, l.budget.used)
  }

  /** How a new process starts: from the checkpoint when there is one of this goal, its clock set back by the time that had
      passed. */
  function Resume(cfg: Config, store: Option<Checkpoint>, now: real): Loop {
    if store.Some? && store.value.goal == cfg.goal then
      var c := store.value;
      Loop(Budget(cfg.cap, c.used, c.graceUsed, c.absoluteTurns), c.messages, Members(Strings(c.editedFiles)),
           c.testsPassed, c.verifyNudgesUsed, Strings(c.loopSignatures), Strings(c.toolsUsed),
           Members(Strings(c.loadedSkills)), now - c.startMonotonicOffset, 0)
    else
      Begin(cfg, now)
  }

  datatype Life = Life(exit: Option<Exit>, store: Option<Checkpoint>)

  /** One process over a script of turns: it saves after every turn that goes on, clears when it exits, and leaves the
      last checkpoint when it dies (or when the script, and with it the process, breaks off). */
  function Lived(cfg: Config, l: Loop, store: Option<Checkpoint>, script: seq<Turn>): Life
    decreases |script|
  {
    if script == [] then
      Life(None, store)
    else
      var t := script[0];
      match Taken(cfg, l, t)
      case Died => Life(None, store)
      case Ended(exit) => Life(Some(exit), if t.stored then None else store)
      case Went(l') => Lived(cfg, l', if t.stored then Some(Save(cfg, l', t.end)) else store, script[1..])
  }

  class ReactRun {
    const cfg: Config
    const budget: IterationBudget
    const detector: Detection.LoopDetector
    var messages: seq<Value>
    var edited: set<string>
    var testsPassed: bool
    var nudges: int
    var tools: seq<string>
    var loaded: set<string>
    var start: real
    var infraStreak: int

    function View(): Loop
      reads this, budget, detector
    {
      Loop(budget.View(), messages, edited, testsPassed, nudges, detector.sigs, tools, loaded, start,
           infraStreak)
    }

    ghost predicate Valid()
      reads this, budget, detector
    {
      budget.maxTotal == cfg.cap && detector.repeatLimit == cfg.repeatLimit && detector.cycleWindow == cfg.cycleWindow
    }

    /** Fresh variables, or those of the checkpoint. */
    constructor (cfg: Config, store: Option<Checkpoint>, now: real)
      ensures this.cfg == cfg && Valid() && View() == Resume(cfg, store, now)
      ensures fresh(budget) && fresh(detector)
    {
      this.cfg := cfg;
      infraStreak := 0;
      var l := Resume(cfg, store, now);
      budget := new IterationBudget.Restore(l.budget);
      detector := new Detection.LoopDetector(cfg.repeatLimit, cfg.cycleWindow);
      messages, edited, testsPassed, nudges := l.messages, l.edited, l.testsPassed, l.nudges;
      tools, loaded, start := l.tools, l.loaded, l.start;
      new;
      detector.sigs := l.signatures;
    }

    method Finish(summary: string) returns (r: Option<Exit>)
      requires Valid()
      modifies this, budget, detector
      ensures Valid()
      ensures match Handled(cfg, old(View()), Call.Finish(summary))
              case Deferred(l) => r.None? && View() == l
              case Left(exit) => r == Some(exit)
              case Next(_) => false
    {
      var text := UpTo(summary, 2000);
      var infraBlocked := edited != {} && !testsPassed && infraStreak >= cfg.maxInfraErrors;
      if Guard.NeedsVerification(edited, testsPassed, nudges, cfg.maxNudges, infraStreak, cfg.maxInfraErrors) {
        nudges := nudges + 1;
        messages := messages + Deferral();
        return None;
      }
      if infraBlocked {
        text := Strip(summary + "\n\n" + cfg.infraNote(edited));
      } else if cfg.exposeBug && edited != {} && !testsPassed {
        text := UpTo(text + NOT_EXPOSED, 2000);
      } else if edited != {} && !testsPassed {
        text := UpTo(text + NOT_VERIFIED, 2000);
      }
      var (ok, note) := Guard.ReconcileOk(cfg.judge, true, text, testsPassed);
      if note != "" {
        text := UpTo(text + " " + note, 2000);
      }
      r := Some(Exit(Finished, ok, text));
    }

    method LoadSkill(c: Call) returns (r: Option<Exit>)
      requires Valid() && c.Load?
      modifies this, budget, detector
      ensures Valid()
      ensures match Handled(cfg, old(View()), c)
              case Next(l) => r.None? && View() == l
              case Left(exit) => r == Some(exit)
              case Deferred(_) => false
    {
      var repeat := c.skill != "" && c.skill in loaded;
      var limit := Detection.RepeatLimitFor("load_skill", cfg.repeatLimit, cfg.mutatingLimit);
      var halt := detector.Record(c.signature, Some(limit));
      if !repeat && halt {
        return Some(LoopExit());
      }
      tools := tools + ["load_skill"];
      if repeat {
        if cfg.refundRepeatLoad {
          budget.Refund();
        }
      } else if c.loads {
        loaded := loaded + {c.skill};
      }
      messages := messages + [Message("tool", c.content)];
      r := None;
    }

    method UseTool(c: Call) returns (r: Option<Exit>)
      requires Valid() && c.Use?
      modifies this, budget, detector
      ensures Valid()
      ensures match Handled(cfg, old(View()), c)
              case Next(l) => r.None? && View() == l
              case Left(exit) => r == Some(exit)
              case Deferred(_) => false
    {
      var limit := Detection.RepeatLimitFor(c.name, cfg.repeatLimit, cfg.mutatingLimit);
      var halt := detector.Record(c.signature, Some(limit));
      if halt {
        return Some(LoopExit());
      }
      tools := tools + [c.name];
      if c.effect.deduped {
        budget.Refund();
      }
      edited := edited + c.effect.edits;
      if c.effect.verified {
        testsPassed := true;
      }
      match c.effect.test {
        case NoTest =>
        case InfraError => infraStreak := infraStreak + 1;
        case Ran => infraStreak := 0;
      }
      messages := messages + [Message("tool", c.effect.content)];
      r := None;
    }

    /** The loop over the tool calls of one assistant turn. */
    method HandleCalls(calls: seq<Call>) returns (r: Option<Exit>, deferred: bool)
      requires Valid()
      modifies this, budget, detector
      ensures Valid()
      ensures match HandledAll(cfg, old(View()), calls)
              case Next(l) => r.None? && !deferred && View() == l
              case Deferred(l) => r.None? && deferred && View() == l
              case Left(exit) => r == Some(exit)
    {
      r, deferred := None, false;
      ghost var first := View();
      var i := 0;
      while i < |calls|
        invariant i <= |calls| && Valid()
        invariant r.None? && !deferred
        invariant HandledAll(cfg, first, calls) == HandledAll(cfg, View(), calls[i..])
      {
        assert calls[i..][0] == calls[i] && calls[i..][1..] == calls[i + 1..];
        match calls[i] {
          case Finish(summary) =>
            r := Finish(summary);
            deferred := r.None?;
            return;
          case Load(_, _, _, _) =>
            r := LoadSkill(calls[i]);
          case Use(_, _, _) =>
            r := UseTool(calls[i]);
        }
        if r.Some? {
          return;
        }
        i := i + 1;
      }
      assert calls[|calls|..] == [];
    }

    /** The guards at the top of the turn. */
    method TopOfTurn(t: Turn) returns (r: Option<Exit>)
      requires Valid()
      modifies budget
      ensures Valid()
      ensures match Guarded(cfg, old(View()), t)
              case Went(l) => r.None? && View() == l
              case Ended(exit) => r == Some(exit)
              case Died => false
    {
      if t.cancelled {
        return Some(Exit(Cancelled, false, "cancelled by user mid-turn"));
      }
      if cfg.deadline > 0.0 && t.now - start > cfg.deadline {
        var (ok, s) := Guard.ReconcileCutoff("wall-clock deadline exceeded", edited, testsPassed);
        return Some(Exit(Deadline, ok, s));
      }
      var within := budget.RecordTurn();
      if !within {
        var (ok, s) := Guard.ReconcileCutoff("absolute turn limit exceeded", edited, testsPassed);
        return Some(Exit(TurnLimit, ok, s));
      }
      var consumed := budget.Consume();
      if !consumed {
        var grace := budget.Grace();
        if !grace {
          var (ok, s) := Guard.ReconcileCutoff("budget exhausted", edited, testsPassed);
          return Some(Exit(BudgetExhausted, ok, s));
        }
      }
      r := None;
    }

    method TakeTurn(t: Turn) returns (r: Option<Exit>, died: bool)
      requires Valid()
      modifies this, budget, detector
      ensures Valid()
      ensures match Taken(cfg, old(View()), t)
              case Went(l) => r.None? && !died && View() == l
              case Ended(exit) => r == Some(exit) && !died
              case Died => died
    {
      died := false;
      r := TopOfTurn(t);
      if r.Some? {
        return;
      }
      match t.fate
      case DiesBeforeCall(_) => died := true;
      case DiesAfterCall(_) => died := true;
      case Raises => r := Some(Exit(Error, false, "error"));
      case Says(reply) =>
        match reply {
          case Text(content) => r := Some(Exit(Answered, true, UpTo(content, 2000)));
          case Tools(calls) =>
            if calls == [] {
              r := Some(Exit(Answered, true, ""));
              return;
            }
            messages := messages + [Message("assistant", "")];
            var deferred;
            r, deferred := HandleCalls(calls);
            if r.None? && !deferred && Refundable(calls) {
              budget.Refund();
            }
        }
    }
  }

  /** The loop: load, take turns, save after each, clear on exit. */
  method RunReactLoop(cfg: Config, store: CheckpointStore, loads: bool, now: real, script: seq<Turn>)
    returns (exit: Option<Exit>)
    modifies store
    ensures Life(exit, store.Loaded(cfg.taskId))
            == (var before := old(store.Loaded(cfg.taskId));
                Lived(cfg, Resume(cfg, if loads then before else None, now), before, script))
    ensures store.docs - {cfg.taskId} == old(store.docs) - {cfg.taskId}
  {
    var checkpoint := store.Load(cfg.taskId, !loads);
    var run := new ReactRun(cfg, checkpoint, now);
    ghost var first, before := run.View(), store.Loaded(cfg.taskId);
    var i := 0;
    while i < |script|
      invariant i <= |script| && run.Valid() && run.cfg == cfg
      invariant fresh(run) && fresh(run.budget) && fresh(run.detector)
      invariant Lived(cfg, first, before, script) == Lived(cfg, run.View(), store.Loaded(cfg.taskId), script[i..])
      invariant store.docs - {cfg.taskId} == old(store.docs) - {cfg.taskId}
    {
      var t := script[i];
      assert script[i..][0] == t && script[i..][1..] == script[i + 1..];
      var died;
      exit, died := run.TakeTurn(t);
      if died {
        return None;
      }
      if exit.Some? {
        store.Clear(cfg.taskId, !t.stored);
        return;
      }
      store.Save(Save(cfg, run.View(), t.end), !t.stored);
      i := i + 1;
    }
    assert script[|script|..] == [];
    exit := None;
  }
}
