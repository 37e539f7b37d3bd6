/** When the ReAct loop may call its work done: verification owed, and the reconciliation of `ok` with what is claimed.
    Which texts are punts or success claims is a phrase heuristic, taken as a parameter. */
module CompletionGuard {
  import opened Common

  datatype Judge = Judge(isPunt: string -> bool, assertsSuccess: string -> bool)

  const PUNT_NOTE := "[completion-guard: answer is a punt (could not complete / input too large), so this is NOT a success]"
  const CLAIM_NOTE := "[completion-guard: success was claimed but NOT verified by a passing test run this turn]"

  function ReconcileOk(judge: Judge, ok: bool, answer: string, testsPassed: bool): (bool, string) {
    if judge.isPunt(answer) then
      (false, if ok then PUNT_NOTE else "")
    else if judge.assertsSuccess(answer) && !testsPassed then
      (false, if ok then CLAIM_NOTE else "")
    else
      (ok, "")
  }

  function ReconcileFinalAnswer(judge: Judge, ok: bool, error: Option<string>, answer: string, testsPassed: bool)
    : (bool, Option<string>, string)
  {
    var (newOk, note) := ReconcileOk(judge, ok, answer, testsPassed);
    if newOk == ok then
      (ok, error, note)
    else
      var kept := error.Some? && error.value != "";
      (newOk, if kept then error else Some(if note != "" then note else "final answer reconciled to not-success"), note)
  }

  function ReconcileCutoff(reason: string, edited: set<string>, testsPassed: bool): (bool, string) {
    if edited != {} && testsPassed then
      (true, "Completed: edits were applied and tests passed; the loop stopped on " + reason + " before an explicit finish.")
    else
      (false, reason)
  }

  predicate NeedsVerification(edited: set<string>, testsPassed: bool, nudges: int, maxNudges: int, infraStreak: int, maxInfra: int) {
    edited != {} && !testsPassed && !(maxInfra != 0 && infraStreak >= maxInfra) && nudges < maxNudges
  }

  /** The text may be called a success. */
  predicate MayPass(judge: Judge, answer: string, testsPassed: bool) {
    !judge.isPunt(answer) && (judge.assertsSuccess(answer) ==> testsPassed)
  }

  /** Reconciliation passes exactly the answers that may pass, never raises `ok`, speaks up exactly when it lowers it,
      and judging the same answer again changes nothing. */
  lemma ReconcileOkIsExact(judge: Judge, ok: bool, answer: string, testsPassed: bool)
    ensures var (newOk, note) := ReconcileOk(judge, ok, answer, testsPassed);
            && (newOk <==> ok && MayPass(judge, answer, testsPassed))
            && (note != "" <==> ok && !newOk)
            && ReconcileOk(judge, newOk, answer, testsPassed) == (newOk, "")
  {
  }

  /** The delivered result is a success only if it was one and its answer may pass; a downgrade always carries an error,
      and an error that was already there survives. */
  lemma FinalAnswerIsHonest(judge: Judge, ok: bool, error: Option<string>, answer: string, testsPassed: bool)
    ensures var (newOk, newError, note) := ReconcileFinalAnswer(judge, ok, error, answer, testsPassed);
            && (newOk <==> ok && MayPass(judge, answer, testsPassed))
            && (ok && !newOk ==> newError.Some? && newError.value != "")
            && (error.Some? && error.value != "" ==> newError == error)
            && (newOk == ok ==> newError == error)
  {
    ReconcileOkIsExact(judge, ok, answer, testsPassed);
  }
}
