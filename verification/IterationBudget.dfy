/** The step budget of the ReAct loop: consumable and refundable units, one grace turn, and a ceiling on turns that no
    refund can raise. */
module IterationBudget {
  const CHEAP_TOOLS: set<string> := {"read_file", "list_dir", "code_semantic_search"}

  const REFUNDABLE_TOOLS: set<string> :=
    CHEAP_TOOLS + {"run_tests", "run_bash", "code_semantic_search", "memory_search", "session_search"}

  datatype Budget = Budget(maxTotal: int, used: int, graceUsed: bool, turns: int) {
    predicate CanConsume() { used < maxTotal }
    predicate CanTurn() { turns < 2 * maxTotal }
    function Consumed(): Budget { this.(used := used + 1) }
    function Refunded(): Budget { if used > 0 then this.(used := used - 1) else this }
    function Graced(): Budget { this.(graceUsed := true) }
    function Turned(): Budget { this.(turns := turns + 1) }
  }

  class IterationBudget {
    const maxTotal: int
    var used: int
    var graceUsed: bool
    var absoluteTurns: int

    function View(): Budget
      reads this
    {
      Budget(maxTotal, used, graceUsed, absoluteTurns)
    }

    constructor (maxTotal: int)
      ensures View() == Budget(maxTotal, 0, false, 0)
    {
      this.maxTotal, used, graceUsed, absoluteTurns := maxTotal, 0, false, 0;
    }

    /** What a resumed process does: the counters are set from the checkpoint. */
    constructor Restore(b: Budget)
      ensures View() == b
    {
      maxTotal, used, graceUsed, absoluteTurns := b.maxTotal, b.used, b.graceUsed, b.turns;
    }

    method Consume() returns (ok: bool)
      modifies this
      ensures ok == old(View()).CanConsume()
      ensures View() == if ok then old(View()).Consumed() else old(View())
    {
      if used >= maxTotal {
        return false;
      }
      used := used + 1;
      ok := true;
    }

    method Refund()
      modifies this
      ensures View() == old(View()).Refunded()
    {
      if used > 0 {
        used := used - 1;
      }
    }

    method Grace() returns (ok: bool)
      modifies this
      ensures ok == !old(graceUsed)
      ensures View() == old(View()).Graced()
    {
      if graceUsed {
        return false;
      }
      graceUsed := true;
      ok := true;
    }

    method RecordTurn() returns (ok: bool)
      modifies this
      ensures ok == old(View()).CanTurn()
      ensures View() == if ok then old(View()).Turned() else old(View())
    {
      if absoluteTurns >= 2 * maxTotal {
        return false;
      }
      absoluteTurns := absoluteTurns + 1;
      ok := true;
    }
  }
}
