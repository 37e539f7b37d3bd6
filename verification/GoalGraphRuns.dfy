/** Whole runs of the graph: what every reachable state keeps, that every run ends, and with what answer. */
module GoalGraphRuns {
  import opened Common
  import opened GoalTree
  import opened GoalGraph

  /** The critique gate can send a run back through reflect. */
  ghost predicate CritiqueLive(cfg: Config) {
    !cfg.skipVerify && cfg.criticPresent && cfg.critiqueTypes != {} && cfg.maxVerifyRetries > 0
  }

  /** Either the gate is off (the default: no critique types), or a failed goal is never retried. */
  ghost predicate Bounded(cfg: Config) {
    !CritiqueLive(cfg) || cfg.maxAttempts <= 1
  }

  // ------------------------------------------------------------------ what one execute pass does

  /** A worker ran `g` and it became `g'`. */
  ghost predicate Ran(cfg: Config, g: Goal, g': Goal) {
    && g'.children == g.children
    && ((g'.status == Completed && g'.attempts == g.attempts)
        || (g'.status == Failed && exists cls :: g'.attempts == NewAttempts(cfg, g.attempts, cls)))
  }

  lemma {:induction false} AppliedElsewhere(cfg: Config, l: Ledger, rs: seq<Outcome>, id: Id)
    requires forall i :: 0 <= i < |rs| ==> rs[i].id in l.tree.goals
    requires id in l.tree.goals
    requires id in l.markers || forall i :: 0 <= i < |rs| ==> rs[i].id != id
    ensures var l' := AppliedAll(cfg, l, rs);
            l'.tree.goals[id] == l.tree.goals[id] && (id in l'.markers <==> id in l.markers)
    decreases |rs|
  {
    if rs != [] {
      AppliedElsewhere(cfg, l, rs[..|rs| - 1], id);
    }
  }

  lemma {:induction false} AppliedAt(cfg: Config, l: Ledger, rs: seq<Outcome>, k: nat)
    requires forall i :: 0 <= i < |rs| ==> rs[i].id in l.tree.goals
    requires forall i, j :: 0 <= i < j < |rs| ==> rs[i].id != rs[j].id
    requires k < |rs| && rs[k].id !in l.markers
    ensures var l' := AppliedAll(cfg, l, rs);
            && l'.tree.goals[rs[k].id] == AfterOutcome(cfg, l.tree.goals[rs[k].id], rs[k])
            && (rs[k].id in l'.markers <==> rs[k].ok)
    decreases |rs|
  {
    var n := |rs| - 1;
    if k == n {
      AppliedElsewhere(cfg, l, rs[..n], rs[k].id);
    } else {
      AppliedAt(cfg, l, rs[..n], k);
    }
  }

  /** One pass of `execute`, goal by goal: the ready unmarked goals ran, and nothing else moved. */
  ghost predicate ExecutePass(cfg: Config, s: State, s': State) {
    && SameShape(s.tree, s'.tree)
    && (forall id :: id in s.tree.goals ==>
          if Ready(s.tree, id) && id !in s.markers then
            Ran(cfg, s.tree.goals[id], s'.tree.goals[id]) && (id in s'.markers <==> s'.tree.goals[id].status == Completed)
          else
            s'.tree.goals[id] == s.tree.goals[id] && (id in s'.markers <==> id in s.markers))
    && s'.current == s.current && s'.answer == s.answer && s'.error == s.error
    && s'.verifyRetries == s.verifyRetries && s'.node == Verify
  }

  lemma ExecutedIsPass(cfg: Config, s: State, rs: seq<Outcome>)
    requires ResultsFor(s.tree, rs)
    ensures ExecutePass(cfg, s, Executed(cfg, s, rs))
  {
    var s' := Executed(cfg, s, rs);
    var l := Ledger(s.tree, s.markers, Other);
    forall id | id in s.tree.goals && AnyReady(s.tree)
      ensures s'.tree.goals[id].children == s.tree.goals[id].children
      ensures if Ready(s.tree, id) && id !in s.markers then
                Ran(cfg, s.tree.goals[id], s'.tree.goals[id]) && (id in s'.markers <==> s'.tree.goals[id].status == Completed)
              else
                s'.tree.goals[id] == s.tree.goals[id] && (id in s'.markers <==> id in s.markers)
    {
      if Ready(s.tree, id) && id !in s.markers {
        var k :| 0 <= k < |rs| && rs[k].id == id;
        AppliedAt(cfg, l, rs, k);
        assert !rs[k].ok ==> s'.tree.goals[id].attempts == NewAttempts(cfg, s.tree.goals[id].attempts, rs[k].cls);
      } else {
        AppliedElsewhere(cfg, l, rs, id);
      }
    }
  }

  // ------------------------------------------------------------------ the measure

  function Weight(cfg: Config, g: Goal): nat {
    var left := Max(0, cfg.maxAttempts - g.attempts);
    match g.status
    case Pending => 2 * left + 1
    case Failed => if g.attempts < cfg.maxAttempts then 2 * left + 2 else 0
    case _ => 0
  }

  /** Work left in the goals below the root. */
  function Work(cfg: Config, t: Tree, ids: seq<Id>): nat
    requires forall i :: 0 <= i < |ids| ==> ids[i] in t.goals
  {
    if ids == [] then 0
    else (if ids[0] == ROOT then 0 else Weight(cfg, t.goals[ids[0]])) + Work(cfg, t, ids[1..])
  }

  lemma {:induction false} WorkShrinks(cfg: Config, t: Tree, u: Tree, ids: seq<Id>)
    requires forall i :: 0 <= i < |ids| ==> ids[i] in t.goals && ids[i] in u.goals
    requires forall i :: 0 <= i < |ids| && ids[i] != ROOT ==> Weight(cfg, u.goals[ids[i]]) <= Weight(cfg, t.goals[ids[i]])
    ensures Work(cfg, u, ids) <= Work(cfg, t, ids)
    ensures (exists i :: 0 <= i < |ids| && ids[i] != ROOT && Weight(cfg, u.goals[ids[i]]) < Weight(cfg, t.goals[ids[i]]))
            ==> Work(cfg, u, ids) < Work(cfg, t, ids)
    decreases |ids|
  {
    if ids != [] {
      WorkShrinks(cfg, t, u, ids[1..]);
      if i :| 0 <= i < |ids| && ids[i] != ROOT && Weight(cfg, u.goals[ids[i]]) < Weight(cfg, t.goals[ids[i]]) {
        if i > 0 {
          assert ids[1..][i - 1] == ids[i];
        }
      }
    }
  }

  function RetriesLeft(cfg: Config, s: State): nat {
    if cfg.critiqueTypes == {} || cfg.skipVerify || !cfg.criticPresent then 0 else Max(0, cfg.maxVerifyRetries - s.verifyRetries)
  }

  ghost predicate WorkerReady(t: Tree) {
    exists id :: id != ROOT && Ready(t, id)
  }

  ghost function Turn(s: State): nat {
    match s.node
    case End => 0
    case Revise => 1
    case Check => 2
    case Verify => 3
    case Execute => if WorkerReady(s.tree) then 1 else 5
    case Reflect => if s.current == Some(ROOT) then 6 else 1
    case Approve => 7
  }

  ghost predicate IdsPresent(t: Tree) {
    forall i :: 0 <= i < |t.ids| ==> t.ids[i] in t.goals
  }

  ghost function Measure(cfg: Config, s: State): nat
    requires IdsPresent(s.tree)
  {
    8 * (Work(cfg, s.tree, s.tree.ids) + RetriesLeft(cfg, s)) + Turn(s)
  }

  // ------------------------------------------------------------------ the invariant

  /** The run keeps the shape of the tree `t0` it started from; only pending, completed and failed goals occur. */
  ghost predicate Healthy(t0: Tree, s: State) {
    && SameShape(t0, s.tree)
    && IdsPresent(s.tree)
    && ROOT in s.tree.goals
    && s.verifyRetries >= 0
    && s.current.Some? && s.current.value in s.tree.goals
    && (forall id :: id in s.tree.goals ==> s.tree.goals[id].status in {Pending, Completed, Failed})
  }

  /** A goal that ran had only completed children, and still has. */
  ghost predicate RanAfterChildren(t: Tree) {
    forall p, c {:trigger c in t.goals[p].children} ::
      p in t.goals && c in t.goals[p].children && t.goals[p].status != Pending
      ==> c in t.goals && t.goals[c].status == Completed
  }

  ghost predicate MarkedAreCompleted(s: State) {
    forall id :: id in s.markers && id in s.tree.goals && id != ROOT ==> s.tree.goals[id].status == Completed
  }

  /** With the critique gate live, no failed goal may be retried. */
  ghost predicate FailuresAreExhausted(cfg: Config, t: Tree) {
    forall id :: id in t.goals ==>
      && t.goals[id].attempts >= Min(0, cfg.maxAttempts)
      && (t.goals[id].status == Failed ==> t.goals[id].attempts >= cfg.maxAttempts)
  }

  /** Before finalization. */
  ghost predicate Underway(cfg: Config, s: State)
    requires ROOT in s.tree.goals && s.current.Some?
  {
    && s.node in {Execute, Verify, Check, Reflect}
    && s.answer == "" && s.error.None?
    && RanAfterChildren(s.tree)
    && MarkedAreCompleted(s)
    && (if CritiqueLive(cfg) then s.current == Some(ROOT) && FailuresAreExhausted(cfg, s.tree)
        else s.tree.goals[ROOT].status == Pending)
    && (s.node == Execute ==> CritiqueLive(cfg) || WorkerReady(s.tree))
    && (s.node == Reflect ==>
          if s.current == Some(ROOT) then CritiqueLive(cfg) else IsRetryable(cfg, s.tree, s.current.value))
  }

  ghost predicate WorkersCompleted(t: Tree) {
    forall id :: id in t.goals && id != ROOT ==> t.goals[id].status == Completed
  }

  ghost predicate SomeWorkerFailed(t: Tree) {
    exists id :: id in t.goals && id != ROOT && t.goals[id].status == Failed
  }

  /** After `check` has finalized the root: the answer is there and the root tells how it went. */
  ghost predicate Told(s: State)
    requires ROOT in s.tree.goals
  {
    && s.node in {Revise, End}
    && s.answer != ""
    && (s.tree.goals[ROOT].status == Completed <==> WorkersCompleted(s.tree))
    && (s.tree.goals[ROOT].status == Failed <==> SomeWorkerFailed(s.tree))
    && (s.tree.goals[ROOT].status == Failed <==> s.error.Some?)
    && s.tree.goals[ROOT].result == Some(s.answer)
  }

  ghost predicate Delivered(s: State)
    requires ROOT in s.tree.goals
  {
    Told(s) && CompletionIsHonest(s.tree)
  }

  ghost predicate Inv(cfg: Config, t0: Tree, s: State) {
    Healthy(t0, s) && (Underway(cfg, s) || Delivered(s))
  }

  lemma StartHolds(cfg: Config, s: State)
    requires Start(s)
    ensures Inv(cfg, s.tree, s)
  {
    var c := s.tree.goals[ROOT].children[0];
    assert c in s.tree.goals[ROOT].children;
    SomeGoalReady(s.tree);
  }

  // ------------------------------------------------------------------ execute

  lemma ExecuteStep(cfg: Config, t0: Tree, s: State, s': State)
    requires Bounded(cfg) && Healthy(t0, s) && Underway(cfg, s) && s.node == Execute && Step(cfg, s, s')
    requires !CritiqueLive(cfg) ==> !Ready(s.tree, ROOT)
    requires forall id :: id in s.tree.goals ==> id in s.tree.ids
    ensures Inv(cfg, t0, s') && Measure(cfg, s') < Measure(cfg, s)
  {
    var rs :| ResultsFor(s.tree, rs) && s' == Executed(cfg, s, rs);
    ExecutedIsPass(cfg, s, rs);
    PassKeepsInv(cfg, t0, s, s');
    PassShrinksWork(cfg, s, s');
  }

  lemma PassKeepsInv(cfg: Config, t0: Tree, s: State, s': State)
    requires Bounded(cfg) && Healthy(t0, s) && Underway(cfg, s) && s.node == Execute
    requires !CritiqueLive(cfg) ==> !Ready(s.tree, ROOT)
    requires ExecutePass(cfg, s, s')
    ensures Inv(cfg, t0, s')
  {
    PassKeepsOrder(cfg, s, s');
    if CritiqueLive(cfg) {
      PassKeepsExhausted(cfg, s, s');
    }
  }

  lemma PassKeepsOrder(cfg: Config, s: State, s': State)
    requires RanAfterChildren(s.tree) && ExecutePass(cfg, s, s')
    ensures RanAfterChildren(s'.tree)
  {
    forall p, c | p in s'.tree.goals && c in s'.tree.goals[p].children && s'.tree.goals[p].status != Pending
      ensures c in s'.tree.goals && s'.tree.goals[c].status == Completed
    {
      assert c in s.tree.goals[p].children;
      assert s.tree.goals[c].status == Completed;
      assert !Ready(s.tree, c);
    }
  }

  lemma PassKeepsExhausted(cfg: Config, s: State, s': State)
    requires cfg.maxAttempts <= 1 && FailuresAreExhausted(cfg, s.tree) && ExecutePass(cfg, s, s')
    ensures FailuresAreExhausted(cfg, s'.tree)
  {
    forall id | id in s'.tree.goals
      ensures s'.tree.goals[id].attempts >= Min(0, cfg.maxAttempts)
      ensures s'.tree.goals[id].status == Failed ==> s'.tree.goals[id].attempts >= cfg.maxAttempts
    {
      assert id in s.tree.goals;
    }
  }

  /** While some goal below the root is pending, the root itself is not ready. */
  lemma RootWaits(t: Tree)
    requires WellFormed(t) && RanAfterChildren(t) && WorkerReady(t)
    ensures !Ready(t, ROOT)
  {
    var id :| id != ROOT && Ready(t, id);
    assert Descendant(t, id);
    var d: nat :| d > 0 && Below(t, ROOT, d, id);
    if Ready(t, ROOT) {
      RootReadyMeansDone(t, d, id);
      assert false;
    }
  }

  lemma {:induction false} RootReadyMeansDone(t: Tree, d: nat, id: Id)
    requires RanAfterChildren(t) && Ready(t, ROOT) && d > 0 && Below(t, ROOT, d, id)
    ensures id in t.goals && t.goals[id].status == Completed
    decreases d
  {
    var p :| p in t.goals && Below(t, ROOT, d - 1, p) && id in t.goals[p].children;
    if d > 1 {
      RootReadyMeansDone(t, d - 1, p);
    }
  }

  lemma PassShrinksGoal(cfg: Config, s: State, s': State, id: Id)
    requires MarkedAreCompleted(s) && ExecutePass(cfg, s, s') && id in s.tree.goals && id in s'.tree.goals && id != ROOT
    ensures Weight(cfg, s'.tree.goals[id]) <= Weight(cfg, s.tree.goals[id])
    ensures Ready(s.tree, id) ==> Weight(cfg, s'.tree.goals[id]) < Weight(cfg, s.tree.goals[id])
  {
    assert Ready(s.tree, id) ==> id !in s.markers;
  }

  lemma PassShrinksWork(cfg: Config, s: State, s': State)
    requires IdsPresent(s.tree) && IdsPresent(s'.tree) && s.node == Execute && MarkedAreCompleted(s)
    requires forall id :: id in s.tree.goals ==> id in s.tree.ids
    requires ExecutePass(cfg, s, s')
    ensures Measure(cfg, s') < Measure(cfg, s)
  {
    var ids := s.tree.ids;
    forall i | 0 <= i < |ids| && ids[i] != ROOT
      ensures Weight(cfg, s'.tree.goals[ids[i]]) <= Weight(cfg, s.tree.goals[ids[i]])
      ensures Ready(s.tree, ids[i]) ==> Weight(cfg, s'.tree.goals[ids[i]]) < Weight(cfg, s.tree.goals[ids[i]])
    {
      PassShrinksGoal(cfg, s, s', ids[i]);
    }
    WorkShrinks(cfg, s.tree, s'.tree, ids);
    if id :| id != ROOT && Ready(s.tree, id) {
      assert id in ids;
    }
  }

  // ------------------------------------------------------------------ verify

  lemma VerifyStep(cfg: Config, t0: Tree, s: State, s': State)
    requires Bounded(cfg) && Inv(cfg, t0, s) && s.node == Verify && Step(cfg, s, s')
    ensures Inv(cfg, t0, s') && Measure(cfg, s') < Measure(cfg, s)
  {
  }

  // ------------------------------------------------------------------ reflect

  lemma ReflectStep(cfg: Config, t0: Tree, s: State, s': State)
    requires Wired(t0) && Bounded(cfg) && Healthy(t0, s) && Underway(cfg, s) && s.node == Reflect && Step(cfg, s, s')
    requires s.current.value in s.tree.ids
    ensures Inv(cfg, t0, s') && Measure(cfg, s') < Measure(cfg, s)
  {
    ReflectKeepsInv(cfg, t0, s, s');
    ReflectShrinksWork(cfg, s, s');
  }

  lemma ReflectShrinksWork(cfg: Config, s: State, s': State)
    requires IdsPresent(s.tree) && s.current.Some? && s.current.value in s.tree.ids && s.node == Reflect
    requires s.current.value in s.tree.goals && s' == Reflected(s)
    requires s.current.value == ROOT || IsRetryable(cfg, s.tree, s.current.value)
    ensures IdsPresent(s'.tree) && Measure(cfg, s') < Measure(cfg, s)
  {
    var c := s.current.value;
    var ids := s.tree.ids;
    forall i | 0 <= i < |ids| && ids[i] != ROOT
      ensures Weight(cfg, s'.tree.goals[ids[i]]) <= Weight(cfg, s.tree.goals[ids[i]])
      ensures ids[i] == c ==> Weight(cfg, s'.tree.goals[ids[i]]) < Weight(cfg, s.tree.goals[ids[i]])
    {
    }
    WorkShrinks(cfg, s.tree, s'.tree, ids);
    assert c in ids;
  }

  lemma ReflectKeepsInv(cfg: Config, t0: Tree, s: State, s': State)
    requires Wired(t0) && Bounded(cfg) && Healthy(t0, s) && Underway(cfg, s) && s.node == Reflect
    requires s' == Reflected(s)
    ensures Inv(cfg, t0, s')
  {
    var c := s.current.value;
    assert SameShape(t0, s'.tree);
    ReflectKeepsOrder(t0, s, s');
    if c != ROOT {
      assert Ready(s'.tree, c) by {
        forall x | x in s.tree.goals[c].children
          ensures x in s'.tree.goals && s'.tree.goals[x].status == Completed
        {
          assert s.tree.goals[x].status == Completed;
        }
      }
    }
  }

  lemma ReflectKeepsOrder(t0: Tree, s: State, s': State)
    requires Wired(t0) && SameShape(t0, s.tree) && RanAfterChildren(s.tree)
    requires s.current.Some? && s.current.value in s.tree.goals && s' == Reflected(s)
    requires s.current == Some(ROOT) || s.tree.goals[s.current.value].status == Failed
    ensures RanAfterChildren(s'.tree)
  {
    var c := s.current.value;
    forall p, x | p in s'.tree.goals && x in s'.tree.goals[p].children && s'.tree.goals[p].status != Pending
      ensures x in s'.tree.goals && s'.tree.goals[x].status == Completed
    {
      assert x in s.tree.goals[p].children;
      assert x in t0.goals[p].children;
      assert s.tree.goals[x].status == Completed;
    }
  }

  // ------------------------------------------------------------------ check

  lemma CheckStep(cfg: Config, t0: Tree, s: State, s': State, order: seq<Id>)
    requires Healthy(t0, s) && Underway(cfg, s) && s.node == Check
    requires forall id :: id in order <==> id in s.tree.goals && id != ROOT
    requires order != [] && Wired(s.tree)
    requires !AllTerminal(s.tree, order) && !AnyFailed(s.tree, order) ==> WorkerReady(s.tree)
    requires Bounded(cfg) && s' == Checked(cfg, s, order)
    ensures Inv(cfg, t0, s') && Measure(cfg, s') < Measure(cfg, s)
  {
    var retry := FirstRetryable(cfg, s.tree, order);
    if retry.Some? {
      DeferStep(cfg, t0, s, s', retry.value);
    } else if !AllTerminal(s.tree, order) && !AnyFailed(s.tree, order) {
      ContinueStep(cfg, t0, s, s');
    } else {
      SectionsNotEmpty(s.tree, order);
      FinalizeStep(cfg, t0, s, s', order);
    }
  }

  lemma CheckHasWork(t: Tree, order: seq<Id>)
    requires WellFormed(t) && IsCheckOrder(t, order) && t.goals[ROOT].children != []
    requires forall id :: id in t.goals ==> t.goals[id].status in {Pending, Completed, Failed}
    ensures forall id :: id in order <==> id in t.goals && id != ROOT
    ensures order != []
    ensures !AllTerminal(t, order) && !AnyFailed(t, order) ==> WorkerReady(t)
  {
    OrderIsTheOthers(t, order);
    assert t.goals[ROOT].children[0] in t.goals[ROOT].children;
    assert t.goals[ROOT].children[0] in order;
    if !AllTerminal(t, order) && !AnyFailed(t, order) {
      SomeGoalReady(t);
    }
  }

  lemma OrderIsTheOthers(t: Tree, order: seq<Id>)
    requires WellFormed(t) && IsCheckOrder(t, order)
    ensures forall id :: id in order <==> id in t.goals && id != ROOT
  {
    forall id
      ensures id in order <==> id in t.goals && id != ROOT
    {
      DescendantsAreTheOthers(t, id);
    }
  }

  lemma DeferStep(cfg: Config, t0: Tree, s: State, s': State, c: Id)
    requires Healthy(t0, s) && Underway(cfg, s) && s.node == Check
    requires IsRetryable(cfg, s.tree, c) && c != ROOT
    requires s' == s.(current := Some(c), node := Router(cfg, s.(current := Some(c))))
    ensures Inv(cfg, t0, s') && Measure(cfg, s') < Measure(cfg, s)
  {
  }

  lemma ContinueStep(cfg: Config, t0: Tree, s: State, s': State)
    requires Healthy(t0, s) && Underway(cfg, s) && s.node == Check
    requires forall id :: id in s.tree.goals && id != ROOT ==> s.tree.goals[id].status != Failed
    requires WorkerReady(s.tree)
    requires s' == s.(node := Router(cfg, s))
    ensures Inv(cfg, t0, s') && Measure(cfg, s') < Measure(cfg, s)
  {
    assert AnyReady(s.tree);
  }

  lemma FinalizeStep(cfg: Config, t0: Tree, s: State, s': State, order: seq<Id>)
    requires Healthy(t0, s) && Underway(cfg, s) && s.node == Check
    requires forall id :: id in order <==> id in s.tree.goals && id != ROOT
    requires AllTerminal(s.tree, order) || AnyFailed(s.tree, order)
    requires Wired(s.tree) && FinalAnswer(s.tree, order) != ""
    requires s' == Finalized(s.tree, order, s).(node := Revise)
    ensures Inv(cfg, t0, s') && Measure(cfg, s') < Measure(cfg, s)
  {
    FinalizeTells(s, s', order);
    FinalizedIsHonest(s.tree, s'.tree);
    FinalizeShrinks(cfg, s, s', order);
  }

  lemma FinalizeShrinks(cfg: Config, s: State, s': State, order: seq<Id>)
    requires ROOT in s.tree.goals && IdsPresent(s.tree) && s.node == Check
    requires s' == Finalized(s.tree, order, s).(node := Revise)
    ensures IdsPresent(s'.tree) && Measure(cfg, s') < Measure(cfg, s)
  {
    WorkShrinks(cfg, s.tree, s'.tree, s.tree.ids);
  }

  lemma FinalizeTells(s: State, s': State, order: seq<Id>)
    requires ROOT in s.tree.goals && s.error.None?
    requires forall id :: id in order <==> id in s.tree.goals && id != ROOT
    requires AllTerminal(s.tree, order) || AnyFailed(s.tree, order)
    requires FinalAnswer(s.tree, order) != ""
    requires s' == Finalized(s.tree, order, s).(node := Revise)
    ensures ROOT in s'.tree.goals && Told(s')
  {
    FailureItemsTell(s.tree, order);
    assert AnyFailed(s.tree, order) <==> SomeWorkerFailed(s.tree);
    WorkersUntouched(s.tree, s'.tree);
  }

  lemma WorkersUntouched(t: Tree, u: Tree)
    requires t.goals.Keys == u.goals.Keys
    requires forall id :: id in t.goals && id != ROOT ==> u.goals[id] == t.goals[id]
    ensures SomeWorkerFailed(t) <==> SomeWorkerFailed(u)
    ensures WorkersCompleted(t) <==> WorkersCompleted(u)
  {
  }

  lemma FinalizedIsHonest(t: Tree, u: Tree)
    requires RanAfterChildren(t) && Wired(t) && SameShape(t, u) && ROOT in t.goals
    requires forall id :: id in t.goals && id != ROOT ==> u.goals[id] == t.goals[id]
    requires u.goals[ROOT].status == Completed ==> WorkersCompleted(t)
    requires u.goals[ROOT].status != Pending
    ensures CompletionIsHonest(u)
  {
  }

  lemma {:induction false} SectionsNotEmpty(t: Tree, order: seq<Id>)
    ensures Sections(t, order) != [] ==> Sections(t, order)[0] != ""
    ensures FinalAnswer(t, order) != ""
    decreases |order|
  {
    if order != [] {
      SectionsNotEmpty(t, order[1..]);
    }
  }

  lemma {:induction false} FailureItemsTell(t: Tree, order: seq<Id>)
    ensures FailureItems(t, order) != [] <==> AnyFailed(t, order)
    decreases |order|
  {
    if order != [] {
      FailureItemsTell(t, order[1..]);
      assert forall id :: id in order <==> id == order[0] || id in order[1..];
    }
  }

  // ------------------------------------------------------------------ revise

  /** The trees differ at most in the root's result. */
  ghost predicate RootRewritten(t: Tree, u: Tree) {
    && ROOT in t.goals && u.ids == t.ids && u.goals.Keys == t.goals.Keys
    && (forall id :: id in t.goals ==>
          && u.goals[id].status == t.goals[id].status && u.goals[id].children == t.goals[id].children
          && u.goals[id].attempts == t.goals[id].attempts)
  }

  lemma RevisedIsSmall(cfg: Config, s: State, revised: string)
    requires ROOT in s.tree.goals && s.answer != "" && s.tree.goals[ROOT].result == Some(s.answer)
    ensures var s' := Revised(cfg, s, revised);
            && RootRewritten(s.tree, s'.tree) && s'.answer != "" && s'.tree.goals[ROOT].result == Some(s'.answer)
            && s'.node == End && s'.error == s.error && s'.current == s.current && s'.verifyRetries == s.verifyRetries
  {
  }

  lemma RewritingKeepsTold(s: State, s': State)
    requires ROOT in s.tree.goals && Told(s) && RootRewritten(s.tree, s'.tree)
    requires s'.answer != "" && s'.tree.goals[ROOT].result == Some(s'.answer) && s'.node == End && s'.error == s.error
    ensures Told(s')
  {
    assert WorkersCompleted(s'.tree) <==> WorkersCompleted(s.tree);
    assert SomeWorkerFailed(s'.tree) <==> SomeWorkerFailed(s.tree);
  }

  lemma RewritingKeepsHonest(t: Tree, u: Tree)
    requires CompletionIsHonest(t) && RootRewritten(t, u)
    ensures CompletionIsHonest(u)
  {
    forall p, c | p in u.goals && u.goals[p].status == Completed && c in u.goals[p].children
      ensures c in u.goals && u.goals[c].status == Completed
    {
      assert c in t.goals[p].children;
    }
  }

  lemma ReviseStep(cfg: Config, t0: Tree, s: State, s': State)
    requires Healthy(t0, s) && Delivered(s) && s.node == Revise && Step(cfg, s, s')
    ensures Inv(cfg, t0, s') && Measure(cfg, s') < Measure(cfg, s)
  {
    var revised :| s' == Revised(cfg, s, revised);
    RevisedIsSmall(cfg, s, revised);
    RewritingKeepsTold(s, s');
    RewritingKeepsHonest(s.tree, s'.tree);
    WorkShrinks(cfg, s.tree, s'.tree, s.tree.ids);
  }

  lemma ExecuteCase(cfg: Config, t0: Tree, s: State, s': State)
    requires WellFormed(t0) && Bounded(cfg) && Healthy(t0, s) && Underway(cfg, s) && s.node == Execute && Step(cfg, s, s')
    ensures Inv(cfg, t0, s') && Measure(cfg, s') < Measure(cfg, s)
  {
    SameShapeWellFormed(t0, s.tree);
    if !CritiqueLive(cfg) {
      RootWaits(s.tree);
    }
    ExecuteStep(cfg, t0, s, s');
  }

  lemma CheckCase(cfg: Config, t0: Tree, s: State, s': State)
    requires WellFormed(t0) && t0.goals[ROOT].children != []
    requires Bounded(cfg) && Healthy(t0, s) && Underway(cfg, s) && s.node == Check && Step(cfg, s, s')
    ensures Inv(cfg, t0, s') && Measure(cfg, s') < Measure(cfg, s)
  {
    SameShapeWellFormed(t0, s.tree);
    var order :| IsCheckOrder(s.tree, order) && s' == Checked(cfg, s, order);
    CheckHasWork(s.tree, order);
    CheckStep(cfg, t0, s, s', order);
  }

  lemma VerifyCase(cfg: Config, t0: Tree, s: State, s': State)
    requires WellFormed(t0) && Bounded(cfg) && Healthy(t0, s) && Underway(cfg, s) && s.node == Verify && Step(cfg, s, s')
    ensures Inv(cfg, t0, s') && Measure(cfg, s') < Measure(cfg, s)
  {
    SameShapeWellFormed(t0, s.tree);
    VerifyStep(cfg, t0, s, s');
  }

  lemma ReflectCase(cfg: Config, t0: Tree, s: State, s': State)
    requires WellFormed(t0) && Bounded(cfg) && Healthy(t0, s) && Underway(cfg, s) && s.node == Reflect && Step(cfg, s, s')
    ensures Inv(cfg, t0, s') && Measure(cfg, s') < Measure(cfg, s)
  {
    SameShapeWellFormed(t0, s.tree);
    ReflectStep(cfg, t0, s, s');
  }

  lemma UnderwayStep(cfg: Config, t0: Tree, s: State, s': State)
    requires WellFormed(t0) && t0.goals[ROOT].children != []
    requires Bounded(cfg) && Healthy(t0, s) && Underway(cfg, s) && Step(cfg, s, s')
    ensures Inv(cfg, t0, s') && Measure(cfg, s') < Measure(cfg, s)
  {
    if s.node == Execute {
      ExecuteCase(cfg, t0, s, s');
    } else if s.node == Verify {
      VerifyCase(cfg, t0, s, s');
    } else if s.node == Check {
      CheckCase(cfg, t0, s, s');
    } else {
      ReflectCase(cfg, t0, s, s');
    }
  }

  lemma InvStep(cfg: Config, t0: Tree, s: State, s': State)
    requires WellFormed(t0) && t0.goals[ROOT].children != []
    requires Bounded(cfg) && Inv(cfg, t0, s) && Step(cfg, s, s')
    ensures Inv(cfg, t0, s') && Measure(cfg, s') < Measure(cfg, s)
  {
    if s.node == Revise {
      ReviseStep(cfg, t0, s, s');
    } else {
      UnderwayStep(cfg, t0, s, s');
    }
  }

  // ------------------------------------------------------------------ whole runs

  lemma {:induction false} RunKeepsInv(cfg: Config, run: seq<State>, i: nat)
    requires Bounded(cfg) && IsRun(cfg, run) && i < |run|
    ensures Inv(cfg, run[0].tree, run[i])
    ensures Measure(cfg, run[i]) + i <= Measure(cfg, run[0])
    decreases i
  {
    if i == 0 {
      StartHolds(cfg, run[0]);
    } else {
      RunKeepsInv(cfg, run, i - 1);
      assert Step(cfg, run[i - 1], run[i]);
      InvStep(cfg, run[0].tree, run[i - 1], run[i]);
    }
  }

  /** Termination: no run is longer than the measure of its first state, whatever the workers, the critic and the
      reviser answer. */
  lemma EveryRunEnds(cfg: Config, run: seq<State>)
    requires Bounded(cfg) && IsRun(cfg, run)
    ensures |run| <= Measure(cfg, run[0]) + 1
  {
    RunKeepsInv(cfg, run, |run| - 1);
  }

  /** A wordless success for each ready goal but those in `others`. */
  ghost function ReadyOutcomes(t: Tree, ids: seq<Id>, others: set<Id>): (rs: seq<Outcome>)
    requires Distinct(ids)
    ensures forall i :: 0 <= i < |rs| ==>
              Ready(t, rs[i].id) && rs[i].id in ids && rs[i].id !in others && rs[i] == Outcome(rs[i].id, true, "", Retryable)
    ensures forall i, j :: 0 <= i < j < |rs| ==> rs[i].id != rs[j].id
    ensures forall id :: id in ids && id !in others && Ready(t, id) ==> exists i :: 0 <= i < |rs| && rs[i].id == id
  {
    if ids == [] then
      []
    else
      var init := ids[..|ids| - 1];
      var last := ids[|ids| - 1];
      assert forall id :: id in ids <==> id in init || id == last;
      assert last !in init;
      var rs := ReadyOutcomes(t, init, others);
      if Ready(t, last) && last !in others then
        var rs' := rs + [Outcome(last, true, "", Retryable)];
        assert rs'[|rs|].id == last;
        assert forall i :: 0 <= i < |rs| ==> rs'[i] == rs[i];
        rs'
      else
        rs
  }

  lemma ResultsExist(t: Tree)
    requires IsDict(t)
    ensures exists rs :: ResultsFor(t, rs)
  {
    assert ResultsFor(t, ReadyOutcomes(t, t.ids, {}));
  }

  ghost function AllVisits(t: Tree, ids: seq<Id>): (vs: seq<Visit>)
    requires Distinct(ids) && forall id :: id in ids && id != ROOT ==> Descendant(t, id)
    ensures DistinctIds(vs)
    ensures forall i :: 0 <= i < |vs| ==> Reached(t, vs[i]) && vs[i].id in ids
    ensures forall id :: id in ids && id != ROOT ==> Holds(vs, id)
  {
    if ids == [] then
      []
    else
      var init := ids[..|ids| - 1];
      var last := ids[|ids| - 1];
      assert forall id :: id in ids <==> id in init || id == last;
      assert last !in init;
      var vs := AllVisits(t, init);
      if last == ROOT then
        vs
      else
        assert Descendant(t, last);
        var d: nat :| d > 0 && Below(t, ROOT, d, last);
        var vs' := vs + [Visit(d, last)];
        assert forall id :: Holds(vs', id) <==> Holds(vs, id) || id == last by {
          forall id
            ensures Holds(vs', id) <==> Holds(vs, id) || id == last
          {
            HoldsAppend(vs, Visit(d, last), id);
          }
        }
        vs'
  }

  lemma OrderExists(t: Tree)
    requires WellFormed(t)
    ensures exists order :: IsCheckOrder(t, order)
  {
    var vs := AllVisits(t, t.ids);
    forall id | Descendant(t, id)
      ensures Holds(vs, id)
    {
      DescendantsAreTheOthers(t, id);
    }
    SortedVisitsAreCheckOrder(t, vs);
  }

  lemma ExecuteCanStep(cfg: Config, s: State)
    requires IsDict(s.tree) && s.node == Execute
    ensures exists s' :: Step(cfg, s, s')
  {
    ResultsExist(s.tree);
    var rs :| ResultsFor(s.tree, rs);
    assert Step(cfg, s, Executed(cfg, s, rs));
  }

  lemma CheckCanStep(cfg: Config, s: State)
    requires WellFormed(s.tree) && s.node == Check && ROOT in s.tree.goals
    ensures exists s' :: Step(cfg, s, s')
  {
    OrderExists(s.tree);
    var order :| IsCheckOrder(s.tree, order);
    assert Step(cfg, s, Checked(cfg, s, order));
  }

  // ------------------------------------------------------------------ whatever the configuration

  /** What every reachable state keeps, with or without the critique gate. */
  ghost predicate Sound(t0: Tree, s: State) {
    && SameShape(t0, s.tree)
    && ROOT in s.tree.goals && s.current.Some? && s.current.value in s.tree.goals
    && s.node != Approve
    && forall id :: id in s.tree.goals ==> s.tree.goals[id].status in {Pending, Completed, Failed}
  }

  lemma SoundExecute(cfg: Config, t0: Tree, s: State, s': State)
    requires Sound(t0, s) && ExecutePass(cfg, s, s')
    ensures Sound(t0, s')
  {
  }

  lemma SoundFinalized(t0: Tree, s: State, order: seq<Id>)
    requires Sound(t0, s)
    ensures Sound(t0, Finalized(s.tree, order, s))
  {
  }

  lemma SoundCheck(cfg: Config, t0: Tree, s: State, order: seq<Id>)
    requires Sound(t0, s) && s.node == Check
    ensures Sound(t0, Checked(cfg, s, order))
  {
    var retry := FirstRetryable(cfg, s.tree, order);
    if order != [] && retry.None? && (AllTerminal(s.tree, order) || AnyFailed(s.tree, order)) {
      SoundFinalized(t0, s, order);
    } else {
      assert Checked(cfg, s, order).tree == s.tree;
    }
  }

  lemma SoundStep(cfg: Config, t0: Tree, s: State, s': State)
    requires Sound(t0, s) && Step(cfg, s, s')
    ensures Sound(t0, s')
  {
    match s.node
    case Execute =>
      var rs :| ResultsFor(s.tree, rs) && s' == Executed(cfg, s, rs);
      ExecutedIsPass(cfg, s, rs);
      SoundExecute(cfg, t0, s, s');
    case Check =>
      var order :| IsCheckOrder(s.tree, order) && s' == Checked(cfg, s, order);
      SoundCheck(cfg, t0, s, order);
    case Verify =>
    case Reflect =>
    case Revise =>
    case End =>
  }

  lemma {:induction false} RunIsSound(cfg: Config, run: seq<State>, i: nat)
    requires Steps(cfg, run) && Planned(run[0]) && i < |run|
    ensures Sound(run[0].tree, run[i])
    decreases i
  {
    if i > 0 {
      RunIsSound(cfg, run, i - 1);
      assert Step(cfg, run[i - 1], run[i]);
      SoundStep(cfg, run[0].tree, run[i - 1], run[i]);
    }
  }

  lemma SoundCanStep(cfg: Config, t0: Tree, s: State)
    requires WellFormed(t0) && Sound(t0, s) && s.node != End
    ensures exists s' :: Step(cfg, s, s')
  {
    match s.node
    case Execute =>
      SameShapeWellFormed(t0, s.tree);
      ExecuteCanStep(cfg, s);
    case Verify => assert Step(cfg, s, Verified(cfg, s, true));
    case Check =>
      SameShapeWellFormed(t0, s.tree);
      CheckCanStep(cfg, s);
    case Reflect => assert Step(cfg, s, Reflected(s));
    case Revise => assert Step(cfg, s, Revised(cfg, s, ""));
  }

  ghost predicate Stuck(cfg: Config, s: State) {
    forall s' :: !Step(cfg, s, s')
  }

  /** Progress: from every reachable state but END some step is possible, whatever the configuration. */
  lemma NeverStuck(cfg: Config, run: seq<State>)
    requires Steps(cfg, run) && Planned(run[0]) && run[|run| - 1].node != End
    ensures !Stuck(cfg, run[|run| - 1])
  {
    RunIsSound(cfg, run, |run| - 1);
    SoundCanStep(cfg, run[0].tree, run[|run| - 1]);
  }

  /** No answer and no error before finalization, the truth after it. */
  ghost predicate Tells(t0: Tree, s: State) {
    Sound(t0, s) && if s.node in {Revise, End} then Told(s) else s.answer == "" && s.error.None?
  }

  lemma CheckTells(cfg: Config, t0: Tree, s: State, s': State, order: seq<Id>)
    requires Tells(t0, s) && s.node == Check && s' == Checked(cfg, s, order)
    requires forall id :: id in order <==> id in s.tree.goals && id != ROOT
    requires order != [] && (!AllTerminal(s.tree, order) && !AnyFailed(s.tree, order) ==> WorkerReady(s.tree))
    ensures Tells(t0, s')
  {
    SoundCheck(cfg, t0, s, order);
    var retry := FirstRetryable(cfg, s.tree, order);
    if retry.None? && (AllTerminal(s.tree, order) || AnyFailed(s.tree, order)) {
      SectionsNotEmpty(s.tree, order);
      FinalizeTells(s, s', order);
    }
  }

  lemma CheckCaseTells(cfg: Config, t0: Tree, s: State, s': State)
    requires WellFormed(t0) && t0.goals[ROOT].children != [] && Tells(t0, s) && s.node == Check && Step(cfg, s, s')
    ensures Tells(t0, s')
  {
    SameShapeWellFormed(t0, s.tree);
    var order :| IsCheckOrder(s.tree, order) && s' == Checked(cfg, s, order);
    CheckHasWork(s.tree, order);
    CheckTells(cfg, t0, s, s', order);
  }

  lemma ReviseCaseTells(cfg: Config, t0: Tree, s: State, s': State)
    requires Tells(t0, s) && s.node == Revise && Step(cfg, s, s')
    ensures Tells(t0, s')
  {
    SoundStep(cfg, t0, s, s');
    var revised :| s' == Revised(cfg, s, revised);
    RevisedIsSmall(cfg, s, revised);
    RewritingKeepsTold(s, s');
  }

  lemma OtherCaseTells(cfg: Config, s: State, s': State)
    requires s.node in {Execute, Verify, Reflect} && Step(cfg, s, s')
    ensures s'.node in {Execute, Verify, Check, Reflect} && s'.answer == s.answer && s'.error == s.error
  {
  }

  lemma TellsStep(cfg: Config, t0: Tree, s: State, s': State)
    requires WellFormed(t0) && t0.goals[ROOT].children != [] && Tells(t0, s) && Step(cfg, s, s')
    ensures Tells(t0, s')
  {
    if s.node == Check {
      CheckCaseTells(cfg, t0, s, s');
    } else if s.node == Revise {
      ReviseCaseTells(cfg, t0, s, s');
    } else {
      SoundStep(cfg, t0, s, s');
      OtherCaseTells(cfg, s, s');
    }
  }

  lemma {:induction false} RunTells(cfg: Config, run: seq<State>, i: nat)
    requires IsRun(cfg, run) && i < |run|
    ensures Tells(run[0].tree, run[i])
    decreases i
  {
    if i > 0 {
      RunTells(cfg, run, i - 1);
      assert Step(cfg, run[i - 1], run[i]);
      TellsStep(cfg, run[0].tree, run[i - 1], run[i]);
    }
  }

  /** Whatever the configuration, a run that cannot go on has reached END with an answer for the user, and the root's status
      tells the truth: COMPLETED exactly when every other goal is, FAILED exactly when some other goal is, an error set
      exactly then. */
  lemma EveryRunDelivers(cfg: Config, run: seq<State>)
    requires IsRun(cfg, run) && Stuck(cfg, run[|run| - 1])
    ensures run[|run| - 1].node == End
    ensures ROOT in run[|run| - 1].tree.goals && Told(run[|run| - 1])
  {
    RunTells(cfg, run, |run| - 1);
    if run[|run| - 1].node != End {
      NeverStuck(cfg, run);
    }
  }

  // ------------------------------------------------------------------ honest completion

  lemma FlatRootIsLast(t: Tree)
    requires WellFormed(t) && Flat(t) && Ready(t, ROOT)
    ensures WorkersCompleted(t)
  {
    forall id | id in t.goals && id != ROOT ensures t.goals[id].status == Completed {
      assert Descendant(t, id);
      var d: nat :| d > 0 && Below(t, ROOT, d, id);
      var p :| p in t.goals && Below(t, ROOT, d - 1, p) && id in t.goals[p].children;
      assert p == ROOT;
    }
  }

  /** In a flat tree before finalization: the root is pending unless all others are completed and nobody else is current. */
  ghost predicate RootLast(s: State)
    requires ROOT in s.tree.goals
  {
    && (s.tree.goals[ROOT].status != Pending ==> WorkersCompleted(s.tree) && s.current == Some(ROOT))
    && (s.node == Execute && WorkersCompleted(s.tree) ==> s.current == Some(ROOT))
  }

  ghost predicate FlatInv(s: State) {
    s.node in {Revise, End} || (ROOT in s.tree.goals && RootLast(s))
  }

  lemma FlatExecute(cfg: Config, s: State, s': State)
    requires WellFormed(s.tree) && Flat(s.tree) && ROOT in s'.tree.goals && s.node == Execute
    requires RootLast(s) && ExecutePass(cfg, s, s')
    ensures RootLast(s')
  {
    if Ready(s.tree, ROOT) {
      FlatRootIsLast(s.tree);
    }
  }

  lemma FlatReflect(s: State)
    requires ROOT in s.tree.goals && s.current.Some? && s.current.value in s.tree.goals && RootLast(s)
    ensures RootLast(Reflected(s))
  {
    assert Reflected(s).tree.goals[s.current.value].status == Pending;
  }

  lemma FlatCheck(cfg: Config, s: State, order: seq<Id>)
    requires ROOT in s.tree.goals && RootLast(s) && s.answer == ""
    requires forall id :: id in order <==> id in s.tree.goals && id != ROOT
    requires order != []
    ensures FlatInv(Checked(cfg, s, order))
  {
    var s' := Checked(cfg, s, order);
    SectionsNotEmpty(s.tree, order);
    if WorkersCompleted(s.tree) {
      assert AllTerminal(s.tree, order);
    }
  }

  lemma FlatExecuteCase(cfg: Config, t0: Tree, s: State, s': State)
    requires WellFormed(t0) && Flat(t0) && SameShape(t0, s.tree) && ROOT in s.tree.goals && s.node == Execute
    requires RootLast(s) && Step(cfg, s, s')
    ensures ROOT in s'.tree.goals && RootLast(s')
  {
    SameShapeWellFormed(t0, s.tree);
    var rs :| ResultsFor(s.tree, rs) && s' == Executed(cfg, s, rs);
    ExecutedIsPass(cfg, s, rs);
    FlatExecute(cfg, s, s');
  }

  lemma FlatCheckCase(cfg: Config, t0: Tree, s: State, s': State)
    requires WellFormed(t0) && t0.goals[ROOT].children != [] && Sound(t0, s) && s.node == Check
    requires s.answer == "" && RootLast(s) && Step(cfg, s, s')
    ensures FlatInv(s')
  {
    SameShapeWellFormed(t0, s.tree);
    var order :| IsCheckOrder(s.tree, order) && s' == Checked(cfg, s, order);
    CheckHasWork(s.tree, order);
    FlatCheck(cfg, s, order);
  }

  lemma FlatStep(cfg: Config, t0: Tree, s: State, s': State)
    requires WellFormed(t0) && Flat(t0) && t0.goals[ROOT].children != [] && Tells(t0, s)
    requires FlatInv(s) && Step(cfg, s, s')
    ensures FlatInv(s')
  {
    if s.node == Execute {
      FlatExecuteCase(cfg, t0, s, s');
    } else if s.node == Check {
      FlatCheckCase(cfg, t0, s, s');
    } else if s.node == Reflect {
      FlatReflect(s);
    }
  }

  lemma {:induction false} RunKeepsRootLast(cfg: Config, run: seq<State>, i: nat)
    requires IsRun(cfg, run) && Flat(run[0].tree) && i < |run|
    ensures FlatInv(run[i])
    decreases i
  {
    if i > 0 {
      RunKeepsRootLast(cfg, run, i - 1);
      RunTells(cfg, run, i - 1);
      assert Step(cfg, run[i - 1], run[i]);
      FlatStep(cfg, run[0].tree, run[i - 1], run[i]);
    }
  }

  lemma RootLastIsHonest(t0: Tree, t: Tree)
    requires WellFormed(t0) && Flat(t0) && SameShape(t0, t) && ROOT in t.goals
    requires t.goals[ROOT].status == Completed ==> WorkersCompleted(t)
    ensures CompletionIsHonest(t)
  {
    forall p, c | p in t.goals && t.goals[p].status == Completed && c in t.goals[p].children
      ensures c in t.goals && t.goals[c].status == Completed
    {
      assert c in t0.goals[p].children;
    }
  }

  /** On a plan as `plan` builds it, all goals directly below the root, completed goals have completed children in every
      reachable state, whatever the configuration. */
  lemma FlatStaysHonest(cfg: Config, run: seq<State>, i: nat)
    requires IsRun(cfg, run) && Flat(run[0].tree) && i < |run|
    ensures CompletionIsHonest(run[i].tree)
  {
    RunKeepsRootLast(cfg, run, i);
    RunTells(cfg, run, i);
    RootLastIsHonest(run[0].tree, run[i].tree);
  }

  /** In every reachable state a completed goal's whole subtree is completed: on a flat plan always, on a nested one when runs
      end. */
  lemma CompletedMeansSubtreeCompleted(cfg: Config, run: seq<State>, i: nat, top: Id, d: nat, id: Id)
    requires IsRun(cfg, run) && (Bounded(cfg) || Flat(run[0].tree)) && i < |run|
    requires top in run[i].tree.goals && run[i].tree.goals[top].status == Completed
    requires Below(run[i].tree, top, d, id)
    ensures id in run[i].tree.goals && run[i].tree.goals[id].status == Completed
  {
    if Bounded(cfg) {
      RunKeepsInv(cfg, run, i);
    } else {
      FlatStaysHonest(cfg, run, i);
    }
    assert CompletionIsHonest(run[i].tree);
    CompletedSubtree(run[i].tree, top, d, id);
  }

  /** The human-approval node is never entered, whatever the configuration: no node ever sets the status that leads there. */
  lemma ApprovalNeverEntered(cfg: Config, run: seq<State>, i: nat)
    requires Steps(cfg, run) && Planned(run[0]) && i < |run|
    ensures run[i].node != Approve
    ensures forall id :: id in run[i].tree.goals ==> run[i].tree.goals[id].status in {Pending, Completed, Failed}
  {
    RunIsSound(cfg, run, i);
  }

  // ------------------------------------------------------------------ how often a goal runs

  /** How many times the run dispatched the goal. */
  ghost function Dispatches(run: seq<State>, id: Id): nat {
    if |run| <= 1 then 0
    else
      var s := run[|run| - 2];
      Dispatches(run[..|run| - 1], id) + (if s.node == Execute && Ready(s.tree, id) then 1 else 0)
  }

  /** What `n` dispatches cost a goal. */
  ghost predicate Spent(cfg: Config, g: Goal, n: nat) {
    match g.status
    case Pending => if n == 0 then g.attempts == 0 else n <= g.attempts < cfg.maxAttempts
    case Failed => 1 <= n <= Max(1, cfg.maxAttempts) && (g.attempts < cfg.maxAttempts ==> n <= g.attempts)
    case _ => n <= Max(1, cfg.maxAttempts)
  }

  /** What the count needs to know of a state. */
  ghost predicate Countable(cfg: Config, s: State) {
    && ROOT in s.tree.goals && s.current.Some? && s.current.value in s.tree.goals
    && (s.node == Execute ==> MarkedAreCompleted(s))
    && (s.node == Reflect ==> s.current == Some(ROOT) || IsRetryable(cfg, s.tree, s.current.value))
    && s.node != Approve
  }

  lemma RunIsCountable(cfg: Config, run: seq<State>, i: nat)
    requires Bounded(cfg) && IsRun(cfg, run) && i < |run|
    ensures Countable(cfg, run[i])
  {
    RunKeepsInv(cfg, run, i);
  }

  lemma SpentByExecute(cfg: Config, s: State, s': State, id: Id, n: nat)
    requires MarkedAreCompleted(s) && ExecutePass(cfg, s, s')
    requires id in s.tree.goals && id != ROOT && Spent(cfg, s.tree.goals[id], n)
    ensures id in s'.tree.goals
    ensures Spent(cfg, s'.tree.goals[id], n + (if Ready(s.tree, id) then 1 else 0))
  {
    assert Ready(s.tree, id) ==> id !in s.markers;
  }

  lemma SpentStep(cfg: Config, s: State, s': State, id: Id, n: nat)
    requires Countable(cfg, s) && Step(cfg, s, s')
    requires id in s.tree.goals && id != ROOT && Spent(cfg, s.tree.goals[id], n)
    ensures id in s'.tree.goals
    ensures Spent(cfg, s'.tree.goals[id], n + (if s.node == Execute && Ready(s.tree, id) then 1 else 0))
  {
    if s.node == Execute {
      var rs :| ResultsFor(s.tree, rs) && s' == Executed(cfg, s, rs);
      ExecutedIsPass(cfg, s, rs);
      SpentByExecute(cfg, s, s', id, n);
    } else if s.node == Check {
      var order :| IsCheckOrder(s.tree, order) && s' == Checked(cfg, s, order);
      assert s'.tree.goals[id] == s.tree.goals[id];
    }
  }

  lemma {:induction false} RunSpends(cfg: Config, run: seq<State>, id: Id)
    requires Bounded(cfg) && IsRun(cfg, run) && id in run[0].tree.goals && id != ROOT
    ensures id in run[|run| - 1].tree.goals
    ensures Spent(cfg, run[|run| - 1].tree.goals[id], Dispatches(run, id))
    decreases |run|
  {
    if |run| > 1 {
      var before := run[..|run| - 1];
      var s, s' := run[|run| - 2], run[|run| - 1];
      RunPrefix(cfg, run);
      RunSpends(cfg, before, id);
      RunIsCountable(cfg, run, |run| - 2);
      assert Step(cfg, s, s');
      SpentStep(cfg, s, s', id, Dispatches(before, id));
    }
  }

  lemma RootWaitsUnderway(cfg: Config, t0: Tree, s: State)
    requires !CritiqueLive(cfg) && WellFormed(t0) && SameShape(t0, s.tree) && ROOT in s.tree.goals && s.current.Some?
    requires s.node == Execute && Underway(cfg, s)
    ensures !Ready(s.tree, ROOT)
  {
    SameShapeWellFormed(t0, s.tree);
    RootWaits(s.tree);
  }

  lemma RootNotReady(cfg: Config, run: seq<State>, i: nat)
    requires !CritiqueLive(cfg) && IsRun(cfg, run) && i < |run|
    ensures !(run[i].node == Execute && Ready(run[i].tree, ROOT))
  {
    RunKeepsInv(cfg, run, i);
    var s := run[i];
    if s.node == Execute {
      RootWaitsUnderway(cfg, run[0].tree, s);
    }
  }

  lemma RunPrefix(cfg: Config, run: seq<State>)
    requires IsRun(cfg, run) && |run| > 1
    ensures IsRun(cfg, run[..|run| - 1])
  {
    var before := run[..|run| - 1];
    forall i | 0 <= i < |before| - 1 ensures Step(cfg, before[i], before[i + 1]) {
      assert Step(cfg, run[i], run[i + 1]);
    }
  }

  lemma {:induction false} RootNeverRuns(cfg: Config, run: seq<State>)
    requires !CritiqueLive(cfg) && IsRun(cfg, run)
    ensures Dispatches(run, ROOT) == 0
    decreases |run|
  {
    if |run| > 1 {
      RunPrefix(cfg, run);
      RootNeverRuns(cfg, run[..|run| - 1]);
      RootNotReady(cfg, run, |run| - 2);
    }
  }

  /** No goal below the root is dispatched more than max(1, MAX_GOAL_ATTEMPTS) times, and with the critique gate off the
      root never is. */
  lemma DispatchesBounded(cfg: Config, run: seq<State>, id: Id)
    requires Bounded(cfg) && IsRun(cfg, run) && id in run[0].tree.goals
    ensures id != ROOT ==> Dispatches(run, id) <= Max(1, cfg.maxAttempts)
    ensures id == ROOT && !CritiqueLive(cfg) ==> Dispatches(run, id) == 0
  {
    if id != ROOT {
      RunSpends(cfg, run, id);
      RunIsSound(cfg, run, |run| - 1);
    } else if !CritiqueLive(cfg) {
      RootNeverRuns(cfg, run);
    }
  }

  /** A terminal failure is never retried; a rate-limited one is retried only while both caps leave room. */
  lemma RetryPolicy(cfg: Config, g: Goal, r: Outcome)
    requires !r.ok
    ensures IsTerminal(r.cls) ==> AfterOutcome(cfg, g, r).attempts >= cfg.maxAttempts
    ensures r.cls == RateLimited ==>
              (AfterOutcome(cfg, g, r).attempts < cfg.maxAttempts
               <==> g.attempts < cfg.maxRateLimitRetries && g.attempts + 1 < cfg.maxAttempts)
    ensures r.cls in {Transient, Retryable} ==>
              (AfterOutcome(cfg, g, r).attempts < cfg.maxAttempts <==> g.attempts + 1 < cfg.maxAttempts)
  {
  }

  // ------------------------------------------------------------------ what the answer says

  ghost predicate Occurs(part: string, text: string) {
    exists before, after :: text == before + part + after
  }

  lemma OccursWithin(part: string, before: string, middle: string, after: string)
    requires Occurs(part, middle)
    ensures Occurs(part, before + middle + after)
  {
    var b, a :| middle == b + part + a;
    assert before + middle + after == (before + b) + part + (a + after);
  }

  lemma OccursBefore(part: string, text: string, after: string)
    requires Occurs(part, text)
    ensures Occurs(part, text + after)
  {
    var b, a :| text == b + part + a;
    assert text + after == b + part + (a + after);
  }

  lemma OccursAfter(part: string, before: string, text: string)
    requires Occurs(part, text)
    ensures Occurs(part, before + text)
  {
    var b, a :| text == b + part + a;
    assert before + text == (before + b) + part + a;
  }

  lemma {:induction false} JoinHolds(sep: string, parts: seq<string>, k: nat)
    requires k < |parts|
    ensures Occurs(parts[k], Join(sep, parts))
    decreases |parts|
  {
    if |parts| == 1 {
      assert parts[0] == "" + parts[0] + "";
    } else if k == 0 {
      assert Join(sep, parts) == "" + parts[0] + (sep + Join(sep, parts[1..]));
    } else {
      JoinHolds(sep, parts[1..], k - 1);
      OccursWithin(parts[k], parts[0] + sep, Join(sep, parts[1..]), "");
      assert parts[0] + sep + Join(sep, parts[1..]) + "" == Join(sep, parts);
    }
  }

  lemma {:induction false} SectionListed(t: Tree, order: seq<Id>, id: Id)
    requires id in order && HasResult(t, id)
    ensures Section(t.goals[id]) in Sections(t, order)
    decreases |order|
  {
    if order[0] != id {
      SectionListed(t, order[1..], id);
    }
  }

  lemma {:induction false} FailureListed(t: Tree, order: seq<Id>, id: Id)
    requires id in order && HasStatus(t, id, Failed)
    ensures FailureItem(t.goals[id]) in FailureItems(t, order)
    decreases |order|
  {
    if order[0] != id {
      FailureListed(t, order[1..], id);
    }
  }

  lemma AnswerBeginsWithSections(t: Tree, order: seq<Id>) returns (tail: string)
    requires Sections(t, order) != []
    ensures "" + Join("\n\n", Sections(t, order)) + tail == FinalAnswer(t, order)
  {
    var failures := FailureItems(t, order);
    tail := if failures == [] then "" else "\n\nFailed subtasks: " + Join("; ", failures);
  }

  lemma ResultTold(t: Tree, order: seq<Id>, id: Id)
    requires id in order && HasResult(t, id)
    ensures Occurs(Section(t.goals[id]), FinalAnswer(t, order))
  {
    var sections := Sections(t, order);
    SectionListed(t, order, id);
    var k :| 0 <= k < |sections| && sections[k] == Section(t.goals[id]);
    JoinHolds("\n\n", sections, k);
    var tail := AnswerBeginsWithSections(t, order);
    OccursWithin(sections[k], "", Join("\n\n", sections), tail);
  }

  lemma AnswerEndsWithFailures(t: Tree, order: seq<Id>) returns (before: string)
    requires FailureItems(t, order) != []
    ensures before + Join("; ", FailureItems(t, order)) + "" == FinalAnswer(t, order)
  {
    var sections := Sections(t, order);
    var head := if sections == [] then "Task completed." else Join("\n\n", sections);
    before := head + "\n\nFailed subtasks: ";
  }

  lemma FailureTold(t: Tree, order: seq<Id>, id: Id)
    requires id in order && HasStatus(t, id, Failed)
    ensures Occurs(FailureItem(t.goals[id]), FinalAnswer(t, order))
  {
    var failures := FailureItems(t, order);
    FailureListed(t, order, id);
    var k :| 0 <= k < |failures| && failures[k] == FailureItem(t.goals[id]);
    JoinHolds("; ", failures, k);
    var before := AnswerEndsWithFailures(t, order);
    OccursWithin(failures[k], before, Join("; ", failures), "");
  }

  /** No result and no failure is dropped from the final answer, however deep the goal. */
  lemma AnswerTellsAll(t: Tree, order: seq<Id>, id: Id)
    requires IsCheckOrder(t, order) && Descendant(t, id)
    ensures HasResult(t, id) ==> Occurs(Section(t.goals[id]), FinalAnswer(t, order))
    ensures HasStatus(t, id, Failed) ==> Occurs(FailureItem(t.goals[id]), FinalAnswer(t, order))
  {
    assert id in order;
    if HasResult(t, id) {
      ResultTold(t, order, id);
    }
    if HasStatus(t, id, Failed) {
      FailureTold(t, order, id);
    }
  }

  // ------------------------------------------------------------------ when there is an answer

  lemma {:induction false} SomethingHangsFromRoot(t: Tree, d: nat, id: Id)
    requires ROOT in t.goals && d > 0 && Below(t, ROOT, d, id)
    ensures t.goals[ROOT].children != []
    decreases d
  {
    var p :| p in t.goals && Below(t, ROOT, d - 1, p) && id in t.goals[p].children;
    if d > 1 {
      SomethingHangsFromRoot(t, d - 1, p);
    }
  }

  lemma ChildlessHasNoOrder(t: Tree, order: seq<Id>)
    requires ROOT in t.goals && t.goals[ROOT].children == [] && IsCheckOrder(t, order)
    ensures order == []
  {
    if order != [] {
      assert order[0] in order && Descendant(t, order[0]);
      var d: nat :| d > 0 && Below(t, ROOT, d, order[0]);
      SomethingHangsFromRoot(t, d, order[0]);
    }
  }

  lemma ChildlessCheck(cfg: Config, s: State, s': State)
    requires ROOT in s.tree.goals && s.tree.goals[ROOT].children == [] && s.answer == "" && s.node == Check
    requires Step(cfg, s, s')
    ensures s'.answer == "" && s'.node != Revise
  {
    var order :| IsCheckOrder(s.tree, order) && s' == Checked(cfg, s, order);
    ChildlessHasNoOrder(s.tree, order);
  }

  lemma ChildlessStep(cfg: Config, s: State, s': State)
    requires ROOT in s.tree.goals && s.tree.goals[ROOT].children == [] && s.answer == "" && s.node !in {Revise, Approve}
    requires Step(cfg, s, s')
    ensures s'.answer == "" && s'.node != Revise
  {
    if s.node == Check {
      ChildlessCheck(cfg, s, s');
    }
  }

  /** With no goal below the root `check` never finalizes: no state of such a run has an answer, whatever the
      configuration. */
  lemma {:induction false} ChildlessNeverFinalizes(cfg: Config, run: seq<State>, i: nat)
    requires Steps(cfg, run) && Planned(run[0]) && run[0].tree.goals[ROOT].children == [] && i < |run|
    ensures run[i].answer == "" && run[i].node != Revise
    decreases i
  {
    if i > 0 {
      ChildlessNeverFinalizes(cfg, run, i - 1);
      RunIsSound(cfg, run, i - 1);
      assert Step(cfg, run[i - 1], run[i]);
      ChildlessStep(cfg, run[i - 1], run[i]);
    }
  }

  /** Where a run that is not at END can go next. */
  lemma LongerRun(cfg: Config, run: seq<State>) returns (longer: seq<State>)
    requires Bounded(cfg) && IsRun(cfg, run) && run[|run| - 1].node != End
    ensures IsRun(cfg, longer) && run <= longer && |run| + 1 == |longer| <= Measure(cfg, run[0]) + 1
  {
    NeverStuck(cfg, run);
    var s := run[|run| - 1];
    var s' :| Step(cfg, s, s');
    RunGoesOn(cfg, run, s');
    longer := run + [s'];
    EveryRunEnds(cfg, longer);
  }

  /** A run with room for so many states. */
  ghost predicate HasRoom(cfg: Config, run: seq<State>, most: int) {
    Bounded(cfg) && IsRun(cfg, run) && |run| <= most == Measure(cfg, run[0]) + 1
  }

  ghost predicate Arrived(cfg: Config, run: seq<State>) {
    IsRun(cfg, run) && run[|run| - 1].node == End
  }

  lemma OneStateMore(cfg: Config, run: seq<State>, most: int) returns (longer: seq<State>)
    requires HasRoom(cfg, run, most) && run[|run| - 1].node != End
    ensures HasRoom(cfg, longer, most) && run <= longer && |longer| == |run| + 1
  {
    longer := LongerRun(cfg, run);
  }

  lemma {:induction false} RunWithin(cfg: Config, run: seq<State>, most: int) returns (longer: seq<State>)
    requires HasRoom(cfg, run, most)
    ensures Arrived(cfg, longer) && run <= longer
    decreases most - |run|
  {
    if run[|run| - 1].node == End {
      longer := run;
    } else {
      var next := OneStateMore(cfg, run, most);
      longer := RunWithin(cfg, next, most);
      PrefixOfPrefix(run, next, longer);
    }
  }

  lemma PrefixOfPrefix<T>(a: seq<T>, b: seq<T>, c: seq<T>)
    requires a <= b && b <= c
    ensures a <= c
  {
  }

  /** Any run can be taken on to END. */
  lemma RunToEnd(cfg: Config, run: seq<State>) returns (longer: seq<State>)
    requires Bounded(cfg) && IsRun(cfg, run)
    ensures IsRun(cfg, longer) && run <= longer && longer[|longer| - 1].node == End
  {
    EveryRunEnds(cfg, run);
    longer := RunWithin(cfg, run, Measure(cfg, run[0]) + 1);
  }

  lemma RunGoesOn(cfg: Config, run: seq<State>, s: State)
    requires Steps(cfg, run) && Step(cfg, run[|run| - 1], s)
    ensures Steps(cfg, run + [s])
  {
    var longer := run + [s];
    forall i | 0 <= i < |longer| - 1 ensures Step(cfg, longer[i], longer[i + 1]) {
      if i < |run| - 1 {
        assert Step(cfg, run[i], run[i + 1]);
      }
    }
  }

  ghost predicate Answers(cfg: Config, s0: State, run: seq<State>) {
    Steps(cfg, run) && run[0] == s0 && run[|run| - 1].answer != ""
  }

  /** The same environment without a critic. What it does, the run could do with a critic that is content. */
  function Uncriticized(cfg: Config): Config {
    cfg.(criticPresent := false)
  }

  lemma {:induction false} SameApplied(cfg: Config, l: Ledger, rs: seq<Outcome>)
    requires forall i :: 0 <= i < |rs| ==> rs[i].id in l.tree.goals
    ensures AppliedAll(Uncriticized(cfg), l, rs) == AppliedAll(cfg, l, rs)
    decreases |rs|
  {
    if rs != [] {
      SameApplied(cfg, l, rs[..|rs| - 1]);
    }
  }

  lemma {:induction false} SameRetryable(cfg: Config, t: Tree, order: seq<Id>)
    ensures FirstRetryable(Uncriticized(cfg), t, order) == FirstRetryable(cfg, t, order)
    decreases |order|
  {
    if order != [] {
      SameRetryable(cfg, t, order[1..]);
    }
  }

  lemma UncriticizedExecute(cfg: Config, s: State, rs: seq<Outcome>)
    requires s.node == Execute && ResultsFor(s.tree, rs)
    ensures Step(cfg, s, Executed(Uncriticized(cfg), s, rs))
  {
    SameApplied(cfg, Ledger(s.tree, s.markers, Other), rs);
    assert Executed(Uncriticized(cfg), s, rs) == Executed(cfg, s, rs);
  }

  lemma UncriticizedCheck(cfg: Config, s: State, order: seq<Id>)
    requires s.node == Check && ROOT in s.tree.goals && IsCheckOrder(s.tree, order)
    ensures Step(cfg, s, Checked(Uncriticized(cfg), s, order))
  {
    SameRetryable(cfg, s.tree, order);
    assert Checked(Uncriticized(cfg), s, order) == Checked(cfg, s, order);
  }

  lemma UncriticizedStep(cfg: Config, s: State, s': State)
    requires Step(Uncriticized(cfg), s, s')
    ensures Step(cfg, s, s')
  {
    match s.node
    case Execute =>
      var rs :| ResultsFor(s.tree, rs) && s' == Executed(Uncriticized(cfg), s, rs);
      UncriticizedExecute(cfg, s, rs);
    case Check =>
      var order :| IsCheckOrder(s.tree, order) && s' == Checked(Uncriticized(cfg), s, order);
      UncriticizedCheck(cfg, s, order);
    case Verify => assert s' == Verified(cfg, s, false);
    case Revise =>
      var revised :| s' == Revised(Uncriticized(cfg), s, revised);
      assert s' == Revised(cfg, s, revised);
    case Reflect =>
    case Approve =>
    case End =>
  }

  lemma UncriticizedRun(cfg: Config, run: seq<State>)
    requires Steps(Uncriticized(cfg), run)
    ensures Steps(cfg, run)
  {
    forall i | 0 <= i < |run| - 1 ensures Step(cfg, run[i], run[i + 1]) {
      UncriticizedStep(cfg, run[i], run[i + 1]);
    }
  }

  /** A plan can lead to an answer exactly when the root has a child, whatever the configuration. */
  lemma AnswersExactlyWhen(cfg: Config, s0: State)
    requires Planned(s0)
    ensures (exists run :: Answers(cfg, s0, run)) <==> s0.tree.goals[ROOT].children != []
  {
    if s0.tree.goals[ROOT].children == [] {
      forall run ensures !Answers(cfg, s0, run) {
        if Answers(cfg, s0, run) {
          ChildlessNeverFinalizes(cfg, run, |run| - 1);
        }
      }
    } else {
      var run := AnsweringRun(Uncriticized(cfg), s0);
      UncriticizedRun(cfg, run);
      assert Answers(cfg, s0, run);
    }
  }

  lemma AnsweringRun(cfg: Config, s0: State) returns (run: seq<State>)
    requires Bounded(cfg) && Start(s0)
    ensures Answers(cfg, s0, run)
  {
    assert IsRun(cfg, [s0]);
    run := RunToEnd(cfg, [s0]);
    EndedRunDelivers(cfg, run);
  }

  lemma EndedRunDelivers(cfg: Config, run: seq<State>)
    requires IsRun(cfg, run) && run[|run| - 1].node == End
    ensures run[|run| - 1].answer != ""
  {
    RunTells(cfg, run, |run| - 1);
  }
}
