/** What a live critique gate does to the graph's runs, plan by plan: exactly when they end, when a goal is dispatched a
    bounded number of times, and when completed goals keep completed children. */
module GoalGraphCritique {
  import opened Common
  import opened GoalTree
  import opened GoalGraph
  import opened GoalGraphRuns

  // ------------------------------------------------------------------ a text of each kind

  function Repeated(c: char, n: nat): string {
    seq(n, i => c)
  }

  function Sample(k: Artifact): string {
    match k
    case Code => "=>"
    case Writing => Repeated('x', 201)
    case Other => "x"
  }

  lemma NoMarker(n: nat)
    ensures forall m :: m in CODE_MARKERS ==> !HasPart(Repeated('x', n), m)
  {
    forall m | m in CODE_MARKERS ensures !HasPart(Repeated('x', n), m) {
      assert m[0] != 'x';
      forall i ensures !PartAt(Repeated('x', n), m, i) {
        if 0 <= i <= n - |m| {
          assert Repeated('x', n)[i..i + |m|][0] == 'x';
        }
      }
    }
  }

  lemma SampleIsOfKind(k: Artifact)
    ensures Sample(k) != "" && Classify(Sample(k)) == k
  {
    match k
    case Code =>
      var m := CODE_MARKERS[5];
      assert m in CODE_MARKERS && PartAt("=>", m, 0);
      assert HasPart("=>", m);
    case Writing =>
      NoMarker(201);
      assert Strip(Sample(Writing)) == Sample(Writing);
    case Other =>
      NoMarker(1);
      assert Sample(Other) == Repeated('x', 1);
      assert Strip(Sample(Other)) == Sample(Other);
  }

  // ------------------------------------------------------------------ steps of one's choosing

  /** A pass in which the worker of one ready goal hands back `o` and all others succeed without a word. */
  ghost predicate ChosenPass(cfg: Config, s: State, o: Outcome, s': State)
    requires o.id in s.tree.goals
  {
    && ExecutePass(cfg, s, s')
    && (forall id :: id in s.tree.goals && Ready(s.tree, id) && id !in s.markers && id != o.id ==>
          s'.tree.goals[id].status == Completed)
    && (o.id !in s.markers ==>
          && s'.tree.goals[o.id] == AfterOutcome(cfg, s.tree.goals[o.id], o)
          && (o.ok && o.summary != "" ==> s'.artifact == Classify(o.summary)))
  }

  lemma Choose(cfg: Config, s: State, o: Outcome) returns (s': State)
    requires IsDict(s.tree) && s.node == Execute && Ready(s.tree, o.id) && Classed(o)
    ensures Step(cfg, s, s') && ChosenPass(cfg, s, o, s')
  {
    var quiet := ReadyOutcomes(s.tree, s.tree.ids, {o.id});
    ChosenResults(s.tree, quiet, o);
    s' := Executed(cfg, s, quiet + [o]);
    ChosenEffect(cfg, s, quiet, o);
  }

  lemma ChosenEffect(cfg: Config, s: State, quiet: seq<Outcome>, o: Outcome)
    requires Ready(s.tree, o.id) && ResultsFor(s.tree, quiet + [o])
    requires forall i :: 0 <= i < |quiet| ==> quiet[i].ok
    ensures ChosenPass(cfg, s, o, Executed(cfg, s, quiet + [o]))
  {
    var rs := quiet + [o];
    ExecutedIsPass(cfg, s, rs);
    forall id | id in s.tree.goals && Ready(s.tree, id) && id !in s.markers && id != o.id
      ensures Executed(cfg, s, rs).tree.goals[id].status == Completed
    {
      var k :| 0 <= k < |rs| && rs[k].id == id;
      AppliedAt(cfg, Ledger(s.tree, s.markers, Other), rs, k);
    }
    if o.id !in s.markers {
      ChosenOutcome(cfg, s, quiet, o);
    }
  }

  lemma ChosenOutcome(cfg: Config, s: State, quiet: seq<Outcome>, o: Outcome)
    requires Ready(s.tree, o.id) && ResultsFor(s.tree, quiet + [o]) && o.id !in s.markers
    ensures var s' := Executed(cfg, s, quiet + [o]);
            && s'.tree.goals[o.id] == AfterOutcome(cfg, s.tree.goals[o.id], o)
            && (o.ok && o.summary != "" ==> s'.artifact == Classify(o.summary))
  {
    var rs, l := quiet + [o], Ledger(s.tree, s.markers, Other);
    assert rs[|quiet|] == o && rs[..|quiet|] == quiet;
    AppliedAt(cfg, l, rs, |quiet|);
    assert forall i :: 0 <= i < |quiet| ==> rs[i] == quiet[i];
    AppliedElsewhere(cfg, l, quiet, o.id);
  }

  lemma ChosenResults(t: Tree, quiet: seq<Outcome>, o: Outcome)
    requires IsDict(t) && Ready(t, o.id) && Classed(o)
    requires forall i :: 0 <= i < |quiet| ==> Ready(t, quiet[i].id) && quiet[i].id != o.id && Classed(quiet[i])
    requires forall i, j :: 0 <= i < j < |quiet| ==> quiet[i].id != quiet[j].id
    requires forall id :: id in t.ids && id != o.id && Ready(t, id) ==> exists i :: 0 <= i < |quiet| && quiet[i].id == id
    ensures ResultsFor(t, quiet + [o])
  {
    var rs := quiet + [o];
    forall id | id in t.goals && Ready(t, id) ensures exists i :: 0 <= i < |rs| && rs[i].id == id {
      if id == o.id {
        assert rs[|quiet|].id == id;
      } else {
        var i :| 0 <= i < |quiet| && quiet[i].id == id;
        assert rs[i].id == id;
      }
    }
  }

  lemma NotCriticized(cfg: Config, s: State)
    requires s.node == Verify
    ensures Step(cfg, s, s.(node := Check))
  {
    assert Verified(cfg, s, false) == s.(node := Check);
  }

  lemma Criticized(cfg: Config, s: State)
    requires s.node == Verify && CritiqueLive(cfg) && s.artifact in cfg.critiqueTypes && s.verifyRetries == 0
    ensures Step(cfg, s, s.(node := Reflect, verifyRetries := 1))
  {
    assert Verified(cfg, s, true) == s.(node := Reflect, verifyRetries := 1);
  }

  /** Every goal is pending or completed. */
  ghost predicate NoneFailed(t: Tree) {
    forall id :: id in t.goals ==> t.goals[id].status in {Pending, Completed}
  }

  /** With some goal below the root pending, none failed and some goal ready, `check` goes on. */
  lemma CheckGoesOn(cfg: Config, s: State, waiting: Id)
    requires s.node == Check && WellFormed(s.tree) && NoneFailed(s.tree) && s.answer == ""
    requires s.current.Some? && s.current.value in s.tree.goals && AnyReady(s.tree)
    requires waiting in s.tree.goals && s.tree.goals[waiting].status == Pending
    requires waiting != ROOT || s.tree.goals[ROOT].children == []
    ensures Step(cfg, s, s.(node := Execute))
  {
    OrderExists(s.tree);
    var order :| IsCheckOrder(s.tree, order);
    OrderIsTheOthers(s.tree, order);
    if waiting == ROOT {
      ChildlessHasNoOrder(s.tree, order);
    }
    NothingToDo(cfg, s, order, waiting);
    assert Step(cfg, s, Checked(cfg, s, order));
  }

  lemma NothingToDo(cfg: Config, s: State, order: seq<Id>, waiting: Id)
    requires NoneFailed(s.tree) && s.answer == "" && AnyReady(s.tree) && ROOT in s.tree.goals
    requires s.current.Some? && s.current.value in s.tree.goals && forall id :: id in order ==> id in s.tree.goals
    requires waiting in s.tree.goals && s.tree.goals[waiting].status == Pending
    requires order == [] || waiting in order
    ensures Checked(cfg, s, order) == s.(node := Execute)
  {
  }

  lemma FourSteps(cfg: Config, a: State, b: State, c: State, d: State, e: State)
    requires Step(cfg, a, b) && Step(cfg, b, c) && Step(cfg, c, d) && Step(cfg, d, e)
    ensures Steps(cfg, [a, b, c, d, e])
  {
  }

  lemma FiveSteps(cfg: Config, a: State, b: State, c: State, d: State, e: State, f: State)
    requires Step(cfg, a, b) && Step(cfg, b, c) && Step(cfg, c, d) && Step(cfg, d, e) && Step(cfg, e, f)
    ensures Steps(cfg, [a, b, c, d, e, f])
  {
    FourSteps(cfg, a, b, c, d, e);
    RunGoesOn(cfg, [a, b, c, d, e], f);
    assert [a, b, c, d, e] + [f] == [a, b, c, d, e, f];
  }

  lemma Joined(cfg: Config, a: seq<State>, b: seq<State>)
    requires Steps(cfg, a) && Steps(cfg, b) && a[|a| - 1] == b[0]
    ensures Steps(cfg, a + b[1..])
  {
    var run := a + b[1..];
    forall i | 0 <= i < |run| - 1 ensures Step(cfg, run[i], run[i + 1]) {
      if i < |a| - 1 {
        assert Step(cfg, a[i], a[i + 1]);
      } else {
        assert Step(cfg, b[i - |a| + 1], b[i - |a| + 2]);
      }
    }
  }

  // ------------------------------------------------------------------ one goal fails and is retried

  /** The leaf `y` is up for its second try, all other leaves are completed, and nothing above them has run. */
  ghost predicate Retried(t0: Tree, y: Id, s: State) {
    && s.node == Execute && s.current == Some(y) && s.answer == "" && s.verifyRetries == 0
    && SameShape(t0, s.tree) && y in s.tree.goals && s.tree.goals[y].status == Pending && y !in s.markers
    && forall id :: id in s.tree.goals && id != y ==>
         if t0.goals[id].children == [] then s.tree.goals[id].status == Completed
         else s.tree.goals[id].status == Pending && id !in s.markers
  }

  lemma OnlyLeavesAreReady(s: State, id: Id)
    requires Planned(s) && id in s.tree.goals
    ensures Ready(s.tree, id) <==> s.tree.goals[id].children == []
  {
    if s.tree.goals[id].children != [] {
      assert s.tree.goals[id].children[0] in s.tree.goals[id].children;
    }
  }

  /** After the first pass: `y` has failed, the other leaves are completed. */
  ghost predicate FailedOnce(t0: Tree, y: Id, s: State) {
    && s.answer == "" && s.verifyRetries == 0 && SameShape(t0, s.tree)
    && y in s.tree.goals && s.tree.goals[y].status == Failed && s.tree.goals[y].attempts == 1 && y !in s.markers
    && forall id :: id in s.tree.goals && id != y ==>
         if t0.goals[id].children == [] then s.tree.goals[id].status == Completed
         else s.tree.goals[id].status == Pending && id !in s.markers
  }

  lemma FirstPass(cfg: Config, s0: State, y: Id) returns (s: State)
    requires Planned(s0) && y in s0.tree.goals && s0.tree.goals[y].children == []
    ensures Step(cfg, s0, s) && s.node == Verify && FailedOnce(s0.tree, y, s)
  {
    forall id | id in s0.tree.goals ensures Ready(s0.tree, id) <==> s0.tree.goals[id].children == [] {
      OnlyLeavesAreReady(s0, id);
    }
    var o := Outcome(y, false, "", Retryable);
    s := Choose(cfg, s0, o);
    FirstPassFails(cfg, s0, y, s);
  }

  lemma FirstPassFails(cfg: Config, s0: State, y: Id, s: State)
    requires Planned(s0) && y in s0.tree.goals && s0.tree.goals[y].children == []
    requires forall id :: id in s0.tree.goals ==> (Ready(s0.tree, id) <==> s0.tree.goals[id].children == [])
    requires ChosenPass(cfg, s0, Outcome(y, false, "", Retryable), s)
    ensures FailedOnce(s0.tree, y, s)
  {
    ChosenLeafFails(cfg, s0, y, s);
    forall id | id in s.tree.goals && id != y
      ensures if s0.tree.goals[id].children == [] then s.tree.goals[id].status == Completed
              else s.tree.goals[id].status == Pending && id !in s.markers
    {
      OtherLeavesPass(cfg, s0, y, s, id);
    }
  }

  lemma ChosenLeafFails(cfg: Config, s0: State, y: Id, s: State)
    requires Ready(s0.tree, y) && s0.tree.goals[y].attempts == 0 && y !in s0.markers
    requires ChosenPass(cfg, s0, Outcome(y, false, "", Retryable), s)
    ensures s.tree.goals[y].status == Failed && s.tree.goals[y].attempts == 1 && y !in s.markers
  {
  }

  lemma OtherLeavesPass(cfg: Config, s0: State, y: Id, s: State, id: Id)
    requires s0.markers == {} && y in s0.tree.goals && id in s0.tree.goals && id != y
    requires s0.tree.goals[id].status == Pending
    requires Ready(s0.tree, id) <==> s0.tree.goals[id].children == []
    requires ChosenPass(cfg, s0, Outcome(y, false, "", Retryable), s)
    ensures if s0.tree.goals[id].children == [] then s.tree.goals[id].status == Completed
            else s.tree.goals[id].status == Pending && id !in s.markers
  {
  }

  lemma FailureIsDeferred(cfg: Config, t0: Tree, y: Id, s: State)
    requires cfg.maxAttempts > 1 && WellFormed(t0) && y != ROOT && s.node == Check && FailedOnce(t0, y, s)
    ensures Step(cfg, s, s.(current := Some(y), node := Reflect))
  {
    SameShapeWellFormed(t0, s.tree);
    OrderExists(s.tree);
    var order :| IsCheckOrder(s.tree, order);
    OrderIsTheOthers(s.tree, order);
    OnlyOneRetryable(cfg, t0, y, s, order);
    assert Step(cfg, s, Checked(cfg, s, order));
  }

  lemma OnlyOneRetryable(cfg: Config, t0: Tree, y: Id, s: State, order: seq<Id>)
    requires cfg.maxAttempts > 1 && FailedOnce(t0, y, s) && y in order && ROOT in s.tree.goals
    ensures Checked(cfg, s, order) == s.(current := Some(y), node := Reflect)
  {
    assert IsRetryable(cfg, s.tree, y);
  }

  /** Any leaf of any plan can come to its second try. */
  lemma FailOnce(cfg: Config, s0: State, y: Id) returns (run: seq<State>)
    requires cfg.maxAttempts > 1 && Planned(s0) && y in s0.tree.goals && y != ROOT && s0.tree.goals[y].children == []
    ensures Steps(cfg, run) && |run| == 5 && run[0] == s0 && Retried(s0.tree, y, run[4])
  {
    var s1 := FirstPass(cfg, s0, y);
    var s2 := s1.(node := Check);
    var s3 := s2.(current := Some(y), node := Reflect);
    NotCriticized(cfg, s1);
    FailureIsDeferred(cfg, s0.tree, y, s2);
    FailedIsRetried(cfg, s0.tree, y, s3);
    FourSteps(cfg, s0, s1, s2, s3, Reflected(s3));
    run := [s0, s1, s2, s3, Reflected(s3)];
  }

  lemma FailedIsRetried(cfg: Config, t0: Tree, y: Id, s: State)
    requires FailedOnce(t0, y, s) && s.current == Some(y) && s.node == Reflect
    ensures Step(cfg, s, Reflected(s)) && Retried(t0, y, Reflected(s))
  {
  }

  // ------------------------------------------------------------------ the loop

  /** A ready leaf that the next critique can put back. */
  ghost predicate Catchable(t0: Tree, y: Id, s: State) {
    && s.node == Execute && s.current == Some(y) && s.answer == "" && s.verifyRetries == 0
    && SameShape(t0, s.tree) && NoneFailed(s.tree) && y !in s.markers
    && y in s.tree.goals && s.tree.goals[y].status == Pending && s.tree.goals[y].children == []
  }

  function LoopNode(i: nat): Node {
    if i % 3 == 0 then Execute else if i % 3 == 1 then Verify else Check
  }

  /** The leaf `y` is pending, and its marker makes every pass skip it. */
  ghost predicate Caught(t0: Tree, y: Id, s: State) {
    && s.current == Some(y) && s.answer == ""
    && SameShape(t0, s.tree) && NoneFailed(s.tree) && y in s.markers
    && y in s.tree.goals && s.tree.goals[y].status == Pending && s.tree.goals[y].children == []
  }

  /** It succeeds, is criticized and put back to pending. */
  lemma GetsCaught(cfg: Config, t0: Tree, y: Id, s: State) returns (run: seq<State>)
    requires WellFormed(t0) && CritiqueLive(cfg) && Catchable(t0, y, s)
    ensures Steps(cfg, run) && |run| == 4 && run[0] == s && run[3].node == Execute && Caught(t0, y, run[3])
  {
    var k :| k in cfg.critiqueTypes;
    SampleIsOfKind(k);
    SameShapeWellFormed(t0, s.tree);
    var s1 := Choose(cfg, s, Outcome(y, true, Sample(k), Retryable));
    CaughtByPass(cfg, t0, y, s, k, s1);
    Criticized(cfg, s1);
    var s2 := s1.(node := Reflect, verifyRetries := 1);
    CaughtByReflect(cfg, t0, y, s2);
    ThreeSteps(cfg, s, s1, s2, Reflected(s2));
    run := [s, s1, s2, Reflected(s2)];
  }

  lemma ThreeSteps(cfg: Config, a: State, b: State, c: State, d: State)
    requires Step(cfg, a, b) && Step(cfg, b, c) && Step(cfg, c, d)
    ensures Steps(cfg, [a, b, c, d])
  {
  }

  /** The leaf has succeeded, and it is still current. */
  ghost predicate Succeeded(t0: Tree, y: Id, s: State) {
    && s.current == Some(y) && s.answer == "" && SameShape(t0, s.tree) && NoneFailed(s.tree) && y in s.markers
    && y in s.tree.goals && s.tree.goals[y].children == []
  }

  lemma CaughtByPass(cfg: Config, t0: Tree, y: Id, s: State, k: Artifact, s': State)
    requires Catchable(t0, y, s) && Sample(k) != "" && Classify(Sample(k)) == k
    requires ChosenPass(cfg, s, Outcome(y, true, Sample(k), Retryable), s')
    ensures Succeeded(t0, y, s') && s'.node == Verify && s'.artifact == k && s'.verifyRetries == 0
  {
  }

  lemma CaughtByReflect(cfg: Config, t0: Tree, y: Id, s: State)
    requires Succeeded(t0, y, s) && s.node == Reflect
    ensures Step(cfg, s, Reflected(s)) && Reflected(s).node == Execute && Caught(t0, y, Reflected(s))
  {
  }

  lemma CaughtPass(cfg: Config, t0: Tree, y: Id, s: State) returns (s': State)
    requires WellFormed(t0) && Caught(t0, y, s) && s.node == Execute
    ensures Step(cfg, s, s') && Caught(t0, y, s') && s'.node == Verify
  {
    SameShapeWellFormed(t0, s.tree);
    s' := Choose(cfg, s, Outcome(y, true, "", Retryable));
    CaughtIsSkipped(cfg, t0, y, s, s');
  }

  lemma CaughtIsSkipped(cfg: Config, t0: Tree, y: Id, s: State, s': State)
    requires Caught(t0, y, s) && ChosenPass(cfg, s, Outcome(y, true, "", Retryable), s')
    ensures Caught(t0, y, s') && s'.node == Verify
  {
  }

  lemma CaughtVerify(cfg: Config, t0: Tree, y: Id, s: State) returns (s': State)
    requires Caught(t0, y, s) && s.node == Verify
    ensures Step(cfg, s, s') && Caught(t0, y, s') && s'.node == Check
  {
    NotCriticized(cfg, s);
    s' := s.(node := Check);
  }

  lemma CaughtCheck(cfg: Config, t0: Tree, y: Id, s: State) returns (s': State)
    requires WellFormed(t0) && Caught(t0, y, s) && s.node == Check
    ensures Step(cfg, s, s') && Caught(t0, y, s') && s'.node == Execute
  {
    SameShapeWellFormed(t0, s.tree);
    assert Ready(s.tree, y);
    CheckGoesOn(cfg, s, y);
    s' := s.(node := Execute);
  }

  lemma CaughtGoesOn(cfg: Config, t0: Tree, y: Id, s: State) returns (s': State)
    requires WellFormed(t0) && Caught(t0, y, s) && s.node in {Execute, Verify, Check}
    ensures Step(cfg, s, s') && Caught(t0, y, s')
    ensures (s.node, s'.node) in {(Execute, Verify), (Verify, Check), (Check, Execute)}
  {
    if s.node == Execute {
      s' := CaughtPass(cfg, t0, y, s);
    } else if s.node == Verify {
      s' := CaughtVerify(cfg, t0, y, s);
    } else {
      s' := CaughtCheck(cfg, t0, y, s);
    }
  }

  /** From `first` on the run is in the loop for n steps. */
  ghost predicate LoopsFrom(run: seq<State>, first: nat, t0: Tree, y: Id, n: nat) {
    |run| == first + n + 1
    && forall i :: 0 <= i <= n ==> run[first + i].node == LoopNode(i) && Caught(t0, y, run[first + i])
  }

  lemma OneTurnMore(run: seq<State>, first: nat, t0: Tree, y: Id, n: nat, s: State)
    requires n > 0 && LoopsFrom(run, first, t0, y, n - 1) && s.node == LoopNode(n) && Caught(t0, y, s)
    ensures LoopsFrom(run + [s], first, t0, y, n)
  {
    var longer := run + [s];
    forall i | 0 <= i <= n ensures longer[first + i].node == LoopNode(i) && Caught(t0, y, longer[first + i]) {
      assert i < n ==> longer[first + i] == run[first + i];
    }
  }

  lemma LastTurn(run: seq<State>, first: nat, t0: Tree, y: Id, n: nat)
    requires LoopsFrom(run, first, t0, y, n)
    ensures run[|run| - 1].node == LoopNode(n) && Caught(t0, y, run[|run| - 1])
  {
    assert run[|run| - 1] == run[first + n];
  }

  lemma LoopNodeAfter(i: nat, here: Node, there: Node)
    requires i > 0 && here == LoopNode(i - 1) && (here, there) in {(Execute, Verify), (Verify, Check), (Check, Execute)}
    ensures there == LoopNode(i)
  {
  }

  lemma TurnAfter(cfg: Config, t0: Tree, y: Id, s: State, i: nat) returns (s': State)
    requires i > 0 && WellFormed(t0) && Caught(t0, y, s) && s.node == LoopNode(i - 1)
    ensures Step(cfg, s, s') && Caught(t0, y, s') && s'.node == LoopNode(i)
  {
    s' := CaughtGoesOn(cfg, t0, y, s);
    LoopNodeAfter(i, s.node, s'.node);
  }

  /** A run from `s0` that is in the loop for n steps from `first` on. */
  ghost predicate LoopRun(cfg: Config, run: seq<State>, s0: State, first: nat, y: Id, n: nat) {
    Steps(cfg, run) && run[0] == s0 && LoopsFrom(run, first, s0.tree, y, n)
  }

  lemma NextTurn(cfg: Config, run: seq<State>, s0: State, first: nat, y: Id, n: nat) returns (longer: seq<State>)
    requires n > 0 && WellFormed(s0.tree) && LoopRun(cfg, run, s0, first, y, n - 1)
    ensures LoopRun(cfg, longer, s0, first, y, n)
  {
    var s := TurnAfterRun(cfg, run, first, s0.tree, y, n);
    RunGoesOn(cfg, run, s);
    OneTurnMore(run, first, s0.tree, y, n, s);
    longer := run + [s];
  }

  lemma TurnAfterRun(cfg: Config, run: seq<State>, first: nat, t0: Tree, y: Id, n: nat) returns (s: State)
    requires n > 0 && WellFormed(t0) && LoopsFrom(run, first, t0, y, n - 1)
    ensures Step(cfg, run[|run| - 1], s) && s.node == LoopNode(n) && Caught(t0, y, s)
  {
    LastTurn(run, first, t0, y, n - 1);
    s := TurnAfter(cfg, t0, y, run[|run| - 1], n);
  }

  lemma NoTurnYet(run: seq<State>, t0: Tree, y: Id)
    requires run != [] && run[|run| - 1].node == Execute && Caught(t0, y, run[|run| - 1])
    ensures LoopsFrom(run, |run| - 1, t0, y, 0)
  {
  }

  lemma {:induction false} LoopOn(cfg: Config, run: seq<State>, s0: State, first: nat, y: Id, n: nat)
    returns (longer: seq<State>)
    requires WellFormed(s0.tree) && LoopRun(cfg, run, s0, first, y, 0)
    ensures LoopRun(cfg, longer, s0, first, y, n)
    decreases n
  {
    if n == 0 {
      longer := run;
    } else {
      var shorter := LoopOn(cfg, run, s0, first, y, n - 1);
      longer := NextTurn(cfg, shorter, s0, first, y, n);
    }
  }

  lemma {:induction false} SomeLeaf(t: Tree, rank: map<Id, nat>, p: Id) returns (y: Id)
    requires Wired(t) && Ranked(t, rank) && p in t.goals
    ensures y in t.goals && t.goals[y].children == [] && (p != ROOT || t.goals[ROOT].children != [] ==> y != ROOT)
    decreases rank[p]
  {
    if t.goals[p].children == [] {
      y := p;
    } else {
      var c := t.goals[p].children[0];
      assert c in t.goals[p].children;
      y := SomeLeaf(t, rank, c);
    }
  }

  /** The gate is live and a goal can come to be current and completed: a failed one that is retried, or a root without
      children. */
  ghost predicate CanLoop(cfg: Config, s0: State)
    requires ROOT in s0.tree.goals
  {
    CritiqueLive(cfg) && (cfg.maxAttempts > 1 || s0.tree.goals[ROOT].children == [])
  }

  lemma ReachCatchable(cfg: Config, s0: State) returns (run: seq<State>, y: Id)
    requires Planned(s0) && CanLoop(cfg, s0)
    ensures Steps(cfg, run) && run[0] == s0 && Catchable(s0.tree, y, run[|run| - 1])
    ensures s0.tree.goals[ROOT].children != [] ==> y != ROOT
  {
    if s0.tree.goals[ROOT].children == [] {
      run, y := [s0], ROOT;
      ChildlessIsCatchable(s0);
    } else {
      var rank :| Ranked(s0.tree, rank);
      y := SomeLeaf(s0.tree, rank, ROOT);
      run := FailOnce(cfg, s0, y);
      RetriedIsCatchable(s0.tree, y, run[4]);
    }
  }

  lemma RetriedIsCatchable(t0: Tree, y: Id, s: State)
    requires Retried(t0, y, s) && y in t0.goals && t0.goals[y].children == []
    ensures Catchable(t0, y, s)
  {
  }

  lemma ChildlessIsCatchable(s0: State)
    requires Planned(s0) && s0.tree.goals[ROOT].children == []
    ensures Catchable(s0.tree, ROOT, s0)
  {
  }

  /** Then every plan has runs that stay in the loop for any number of steps: a leaf is pending, its marker makes every pass
      skip it, and `check` waits for it. */
  lemma LoopsForever(cfg: Config, s0: State, n: nat) returns (run: seq<State>, first: nat, y: Id)
    requires Planned(s0) && CanLoop(cfg, s0)
    ensures LoopRun(cfg, run, s0, first, y, n)
    ensures s0.tree.goals[ROOT].children != [] ==> y != ROOT
  {
    var start;
    start, y := ReachCatchable(cfg, s0);
    var turn := GetsCaught(cfg, s0.tree, y, start[|start| - 1]);
    Joined(cfg, start, turn);
    var reached := start + turn[1..];
    first := |reached| - 1;
    NoTurnYet(reached, s0.tree, y);
    run := LoopOn(cfg, reached, s0, first, y, n);
  }

  // ------------------------------------------------------------------ a root without children

  /** A plan without children and without the gate: the root runs, perhaps again, and that is all. */
  ghost predicate AloneInv(cfg: Config, s: State) {
    && s.tree.goals.Keys == {ROOT} && s.tree.goals[ROOT].children == []
    && s.current == Some(ROOT) && s.answer == "" && s.node in {Execute, Verify, Check, Reflect, End}
    && s.tree.goals[ROOT].status in {Pending, Completed, Failed}
    && (s.tree.goals[ROOT].status == Pending <==> s.node == Execute)
    && (s.node == Execute ==> ROOT !in s.markers)
    && (s.tree.goals[ROOT].status == Failed ==> ROOT !in s.markers)
    && (s.node == Reflect ==> IsRetryable(cfg, s.tree, ROOT))
  }

  ghost function AloneMeasure(cfg: Config, s: State): nat
    requires ROOT in s.tree.goals
  {
    4 * Weight(cfg, s.tree.goals[ROOT])
    + match s.node case Verify => 3 case Check => 2 case Reflect => 1 case _ => 0
  }

  lemma AloneStarts(cfg: Config, s0: State)
    requires Planned(s0) && s0.tree.goals[ROOT].children == []
    ensures AloneInv(cfg, s0)
  {
    var t := s0.tree;
    forall id | id in t.goals ensures id == ROOT {
      if id != ROOT {
        assert Descendant(t, id);
        var d: nat :| d > 0 && Below(t, ROOT, d, id);
        SomethingHangsFromRoot(t, d, id);
      }
    }
  }

  lemma AloneCheck(cfg: Config, s: State)
    requires AloneInv(cfg, s) && s.node == Check
    ensures Checked(cfg, s, []) == s.(node := if IsRetryable(cfg, s.tree, ROOT) then Reflect else End)
  {
    assert !AnyReady(s.tree);
  }

  lemma AlonePass(cfg: Config, s: State, s': State)
    requires AloneInv(cfg, s) && s.node == Execute && ExecutePass(cfg, s, s')
    ensures AloneInv(cfg, s') && AloneMeasure(cfg, s') < AloneMeasure(cfg, s)
  {
    assert Ready(s.tree, ROOT);
  }

  lemma AloneChecked(cfg: Config, s: State, order: seq<Id>)
    requires AloneInv(cfg, s) && s.node == Check && IsCheckOrder(s.tree, order)
    ensures var s' := Checked(cfg, s, order);
            AloneInv(cfg, s') && s'.verifyRetries == s.verifyRetries && AloneMeasure(cfg, s') < AloneMeasure(cfg, s)
  {
    ChildlessHasNoOrder(s.tree, order);
    AloneCheck(cfg, s);
  }

  lemma AloneReflect(cfg: Config, s: State)
    requires AloneInv(cfg, s) && s.node == Reflect
    ensures var s' := Reflected(s);
            AloneInv(cfg, s') && s'.verifyRetries == s.verifyRetries && AloneMeasure(cfg, s') < AloneMeasure(cfg, s)
  {
  }

  lemma AloneStep(cfg: Config, s: State, s': State)
    requires !CritiqueLive(cfg) && AloneInv(cfg, s) && Step(cfg, s, s') && s.verifyRetries >= 0
    ensures AloneInv(cfg, s') && s'.verifyRetries >= 0 && AloneMeasure(cfg, s') < AloneMeasure(cfg, s)
  {
    if s.node == Execute {
      var rs :| ResultsFor(s.tree, rs) && s' == Executed(cfg, s, rs);
      ExecutedIsPass(cfg, s, rs);
      AlonePass(cfg, s, s');
    } else if s.node == Check {
      var order :| IsCheckOrder(s.tree, order) && s' == Checked(cfg, s, order);
      AloneChecked(cfg, s, order);
    } else if s.node == Reflect {
      AloneReflect(cfg, s);
    }
  }

  lemma {:induction false} AloneRunEnds(cfg: Config, run: seq<State>, i: nat)
    requires !CritiqueLive(cfg) && Steps(cfg, run) && Planned(run[0]) && run[0].tree.goals[ROOT].children == []
    requires i < |run|
    ensures AloneInv(cfg, run[i]) && run[i].verifyRetries >= 0
    ensures AloneMeasure(cfg, run[i]) + i <= AloneMeasure(cfg, run[0])
    decreases i
  {
    if i == 0 {
      AloneStarts(cfg, run[0]);
    } else {
      AloneRunEnds(cfg, run, i - 1);
      assert Step(cfg, run[i - 1], run[i]);
      AloneStep(cfg, run[i - 1], run[i]);
    }
  }

  // ------------------------------------------------------------------ when runs end

  ghost predicate NoRunExceeds(cfg: Config, s0: State, bound: nat) {
    forall run: seq<State> :: Steps(cfg, run) && run[0] == s0 ==> |run| <= bound
  }

  ghost predicate RunsEnd(cfg: Config, s0: State) {
    exists bound: nat :: NoRunExceeds(cfg, s0, bound)
  }

  /** The runs of a plan end if and only if the critique gate is off, or a failed goal is never retried and the root has a
      child. */
  lemma RunsEndExactlyWhen(cfg: Config, s0: State)
    requires Planned(s0)
    ensures RunsEnd(cfg, s0) <==> !CritiqueLive(cfg) || (cfg.maxAttempts <= 1 && s0.tree.goals[ROOT].children != [])
  {
    if CanLoop(cfg, s0) {
      forall bound: nat ensures !NoRunExceeds(cfg, s0, bound) {
        var run, first, y := LoopsForever(cfg, s0, bound);
      }
    } else if s0.tree.goals[ROOT].children != [] {
      StartRunsEnd(cfg, s0);
    } else {
      var bound := AloneMeasure(cfg, s0) + 1;
      forall run: seq<State> | Steps(cfg, run) && run[0] == s0 ensures |run| <= bound {
        AloneRunEnds(cfg, run, |run| - 1);
      }
      assert NoRunExceeds(cfg, s0, bound);
    }
  }

  lemma StartRunsEnd(cfg: Config, s0: State)
    requires Bounded(cfg) && Start(s0)
    ensures RunsEnd(cfg, s0)
  {
    var bound := Measure(cfg, s0) + 1;
    forall run: seq<State> | Steps(cfg, run) && run[0] == s0
      ensures |run| <= bound
    {
      EveryRunEnds(cfg, run);
    }
    assert NoRunExceeds(cfg, s0, bound);
  }

  // ------------------------------------------------------------------ how often a goal is dispatched

  lemma OneTurnLess(run: seq<State>, first: nat, t0: Tree, y: Id, n: nat)
    requires LoopsFrom(run, first, t0, y, n) && n > 0
    ensures LoopsFrom(run[..|run| - 1], first, t0, y, n - 1)
  {
    var shorter := run[..|run| - 1];
    forall i | 0 <= i <= n - 1 ensures shorter[first + i].node == LoopNode(i) && Caught(t0, y, shorter[first + i]) {
      assert shorter[first + i] == run[first + i];
    }
  }

  lemma {:induction false} LoopDispatches(run: seq<State>, first: nat, t0: Tree, y: Id, n: nat)
    requires LoopsFrom(run, first, t0, y, n)
    ensures Dispatches(run, y) >= (n + 2) / 3
    decreases n
  {
    if n > 0 {
      var shorter := run[..|run| - 1];
      OneTurnLess(run, first, t0, y, n);
      LoopDispatches(shorter, first, t0, y, n - 1);
      LastTurn(shorter, first, t0, y, n - 1);
      assert Ready(run[|run| - 2].tree, y);
    }
  }

  ghost predicate DispatchedAtMost(cfg: Config, s0: State, bound: nat) {
    forall run: seq<State>, id: Id ::
      Steps(cfg, run) && run[0] == s0 && id in s0.tree.goals && id != ROOT ==> Dispatches(run, id) <= bound
  }

  /** How often a plan's goals below the root are dispatched is bounded at all exactly when its runs end, and then by
      max(1, MAX_GOAL_ATTEMPTS). */
  lemma DispatchesBoundedExactlyWhen(cfg: Config, s0: State)
    requires Start(s0)
    ensures Bounded(cfg) <==> exists bound: nat :: DispatchedAtMost(cfg, s0, bound)
    ensures Bounded(cfg) ==> DispatchedAtMost(cfg, s0, Max(1, cfg.maxAttempts))
  {
    if Bounded(cfg) {
      forall run: seq<State>, id: Id | Steps(cfg, run) && run[0] == s0 && id in s0.tree.goals && id != ROOT
        ensures Dispatches(run, id) <= Max(1, cfg.maxAttempts)
      {
        DispatchesBounded(cfg, run, id);
      }
      var bound: nat := Max(1, cfg.maxAttempts);
      assert DispatchedAtMost(cfg, s0, bound);
    } else {
      forall bound: nat ensures !DispatchedAtMost(cfg, s0, bound) {
        DispatchesExceed(cfg, s0, bound);
      }
    }
  }

  lemma DispatchesExceed(cfg: Config, s0: State, bound: nat)
    requires Start(s0) && !Bounded(cfg)
    ensures !DispatchedAtMost(cfg, s0, bound)
  {
    var run, first, y := LoopsForever(cfg, s0, 3 * (bound + 1));
    LoopDispatches(run, first, s0.tree, y, 3 * (bound + 1));
    LastTurn(run, first, s0.tree, y, 3 * (bound + 1));
  }

  // ------------------------------------------------------------------ when completion stays honest

  ghost predicate StaysHonest(cfg: Config, s0: State) {
    forall run: seq<State> :: Steps(cfg, run) && run[0] == s0 ==> CompletionIsHonest(run[|run| - 1].tree)
  }

  /** A goal below the root all of whose children are leaves, and one of them. */
  lemma {:induction false} LowestParent(t: Tree, rank: map<Id, nat>, p: Id) returns (q: Id, c: Id)
    requires Wired(t) && Ranked(t, rank) && p in t.goals && p != ROOT && t.goals[p].children != []
    ensures q in t.goals && q != ROOT && c in t.goals[q].children
    ensures forall x :: x in t.goals[q].children ==> x in t.goals && t.goals[x].children == []
    decreases rank[p]
  {
    if x :| x in t.goals[p].children && t.goals[x].children != [] {
      q, c := LowestParent(t, rank, x);
    } else {
      q, c := p, t.goals[p].children[0];
    }
  }

  lemma NestedParent(t: Tree) returns (p: Id, c: Id)
    requires WellFormed(t) && !Flat(t)
    ensures p in t.goals && p != ROOT && c in t.goals[p].children
    ensures forall x :: x in t.goals[p].children ==> x in t.goals && t.goals[x].children == []
  {
    var rank :| Ranked(t, rank);
    var inner :| inner in t.goals && inner != ROOT && t.goals[inner].children != [];
    p, c := LowestParent(t, rank, inner);
  }

  /** The retried child has succeeded, and its parent is next. */
  ghost predicate ParentNext(t0: Tree, p: Id, c: Id, s: State) {
    && s.current == Some(c) && s.answer == "" && s.verifyRetries == 0 && SameShape(t0, s.tree) && NoneFailed(s.tree)
    && p in s.tree.goals && s.tree.goals[p].status == Pending && p !in s.markers
    && forall x :: x in t0.goals[p].children ==> x in s.tree.goals && s.tree.goals[x].status == Completed
  }

  lemma ChildSucceeds(cfg: Config, t0: Tree, p: Id, c: Id, s: State) returns (s': State)
    requires WellFormed(t0) && p in t0.goals && c in t0.goals[p].children && Retried(t0, c, s)
    requires forall x :: x in t0.goals[p].children ==> x in t0.goals && t0.goals[x].children == []
    ensures Step(cfg, s, s') && s'.node == Verify && ParentNext(t0, p, c, s')
  {
    SameShapeWellFormed(t0, s.tree);
    NotItsOwnChild(t0, p, c);
    assert c in s.tree.goals[p].children;
    s' := Choose(cfg, s, Outcome(c, true, "", Retryable));
    ChildPassed(cfg, t0, p, c, s, s');
  }

  lemma ChildPassed(cfg: Config, t0: Tree, p: Id, c: Id, s: State, s': State)
    requires p in t0.goals && p != c && c in t0.goals[p].children && Retried(t0, c, s)
    requires c in s.tree.goals && !Ready(s.tree, p)
    requires forall x :: x in t0.goals[p].children ==> x in t0.goals && t0.goals[x].children == []
    requires ChosenPass(cfg, s, Outcome(c, true, "", Retryable), s')
    ensures s'.node == Verify && ParentNext(t0, p, c, s')
  {
  }

  lemma ParentSucceeds(cfg: Config, t0: Tree, p: Id, c: Id, s: State) returns (s': State)
    requires WellFormed(t0) && CritiqueLive(cfg) && s.node == Execute && ParentNext(t0, p, c, s) && c in t0.goals[p].children
    ensures Step(cfg, s, s') && s'.node == Verify && s'.artifact in cfg.critiqueTypes && s'.verifyRetries == 0
    ensures s'.current == Some(c) && SameShape(t0, s'.tree) && p in s'.tree.goals && s'.tree.goals[p].status == Completed
  {
    SameShapeWellFormed(t0, s.tree);
    var k :| k in cfg.critiqueTypes;
    SampleIsOfKind(k);
    assert Ready(s.tree, p);
    s' := Choose(cfg, s, Outcome(p, true, Sample(k), Retryable));
    ParentPassed(cfg, t0, p, c, s, k, s');
  }

  lemma ParentPassed(cfg: Config, t0: Tree, p: Id, c: Id, s: State, k: Artifact, s': State)
    requires ParentNext(t0, p, c, s) && Sample(k) != "" && Classify(Sample(k)) == k
    requires ChosenPass(cfg, s, Outcome(p, true, Sample(k), Retryable), s')
    ensures s'.node == Verify && s'.artifact == k && s'.verifyRetries == 0 && s'.current == Some(c)
    ensures SameShape(t0, s'.tree) && p in s'.tree.goals && s'.tree.goals[p].status == Completed
  {
  }

  lemma CheckReleasesParent(cfg: Config, t0: Tree, p: Id, c: Id, s: State)
    requires WellFormed(t0) && s.node == Check && ParentNext(t0, p, c, s) && p != ROOT && c in t0.goals[p].children
    ensures Step(cfg, s, s.(node := Execute))
  {
    SameShapeWellFormed(t0, s.tree);
    assert Ready(s.tree, p);
    CheckGoesOn(cfg, s, p);
  }

  lemma ChildIsUndone(cfg: Config, t0: Tree, p: Id, c: Id, s: State)
    requires p != c && p in t0.goals && c in t0.goals[p].children && SameShape(t0, s.tree)
    requires c in s.tree.goals && s.current == Some(c) && s.node == Reflect && s.tree.goals[p].status == Completed
    ensures Step(cfg, s, Reflected(s)) && !CompletionIsHonest(Reflected(s).tree)
  {
    var t := Reflected(s).tree;
    assert c in t.goals[p].children && t.goals[p].status == Completed && t.goals[c].status == Pending;
  }

  lemma NotItsOwnChild(t: Tree, p: Id, c: Id)
    requires WellFormed(t) && p in t.goals && c in t.goals[p].children
    ensures c in t.goals && p != c
  {
    var rank :| Ranked(t, rank);
  }

  lemma ParentCriticized(cfg: Config, t0: Tree, p: Id, c: Id, s: State) returns (run: seq<State>)
    requires WellFormed(t0) && CritiqueLive(cfg) && s.node == Verify && ParentNext(t0, p, c, s) && p != ROOT
    requires c in t0.goals[p].children
    ensures Steps(cfg, run) && |run| == 6 && run[0] == s && !CompletionIsHonest(run[5].tree)
  {
    var s1 := s.(node := Check);
    var s2 := s.(node := Execute);
    NotCriticized(cfg, s);
    CheckReleasesParent(cfg, t0, p, c, s1);
    var s3 := ParentSucceeds(cfg, t0, p, c, s2);
    var s4 := s3.(node := Reflect, verifyRetries := 1);
    Criticized(cfg, s3);
    NotItsOwnChild(t0, p, c);
    ChildIsUndone(cfg, t0, p, c, s4);
    FiveSteps(cfg, s, s1, s2, s3, s4, Reflected(s4));
    run := [s, s1, s2, s3, s4, Reflected(s4)];
  }

  lemma ReachParent(cfg: Config, s0: State, p: Id, c: Id) returns (run: seq<State>)
    requires cfg.maxAttempts > 1 && Planned(s0) && p in s0.tree.goals && c in s0.tree.goals[p].children
    requires forall x :: x in s0.tree.goals[p].children ==> x in s0.tree.goals && s0.tree.goals[x].children == []
    ensures Steps(cfg, run) && |run| == 6 && run[0] == s0 && run[5].node == Verify && ParentNext(s0.tree, p, c, run[5])
  {
    var start := FailOnce(cfg, s0, c);
    var s := ChildSucceeds(cfg, s0.tree, p, c, start[4]);
    RunGoesOn(cfg, start, s);
    run := start + [s];
  }

  /** With the gate live and retries allowed, a nested plan has a run in which a parent is completed above a pending child:
      one that was retried with success and is put back when the parent's own result is criticized. */
  lemma DishonestRun(cfg: Config, s0: State) returns (run: seq<State>)
    requires !Bounded(cfg) && Planned(s0) && !Flat(s0.tree)
    ensures Steps(cfg, run) && run[0] == s0 && !CompletionIsHonest(run[|run| - 1].tree)
  {
    var p, c := NestedParent(s0.tree);
    var start := ReachParent(cfg, s0, p, c);
    var rest := ParentCriticized(cfg, s0.tree, p, c, start[5]);
    Joined(cfg, start, rest);
    run := start + rest[1..];
    assert run[|run| - 1] == rest[5];
  }

  lemma ChildlessStaysHonest(cfg: Config, run: seq<State>)
    requires Steps(cfg, run) && Planned(run[0]) && run[0].tree.goals[ROOT].children == []
    ensures CompletionIsHonest(run[|run| - 1].tree)
  {
    RunIsSound(cfg, run, |run| - 1);
    AloneStarts(cfg, run[0]);
  }

  lemma PlanStaysHonest(cfg: Config, run: seq<State>)
    requires Steps(cfg, run) && Planned(run[0]) && (Bounded(cfg) || Flat(run[0].tree))
    ensures CompletionIsHonest(run[|run| - 1].tree)
  {
    if run[0].tree.goals[ROOT].children == [] {
      ChildlessStaysHonest(cfg, run);
    } else if Bounded(cfg) {
      RunKeepsInv(cfg, run, |run| - 1);
    } else {
      FlatStaysHonest(cfg, run, |run| - 1);
    }
  }

  /** Completed goals keep completed children in all runs of a plan if and only if the gate is bounded or the plan is flat. */
  lemma HonestExactlyWhen(cfg: Config, s0: State)
    requires Planned(s0)
    ensures StaysHonest(cfg, s0) <==> Bounded(cfg) || Flat(s0.tree)
  {
    if Bounded(cfg) || Flat(s0.tree) {
      forall run: seq<State> | Steps(cfg, run) && run[0] == s0 ensures CompletionIsHonest(run[|run| - 1].tree) {
        PlanStaysHonest(cfg, run);
      }
    } else {
      var run := DishonestRun(cfg, s0);
      assert !StaysHonest(cfg, s0);
    }
  }
}
