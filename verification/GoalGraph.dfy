/** The orchestrator's graph: execute, verify, check, reflect and revise over the goal tree.
    Worker results, critique scores and model replies are arbitrary inputs. */
module GoalGraph {
  import opened Common
  import opened GoalTree

  datatype ErrorClass = TerminalDependency | TerminalCredential | TerminalNetwork | RateLimited | Transient | Retryable

  predicate IsTerminal(c: ErrorClass) {
    c.TerminalDependency? || c.TerminalCredential? || c.TerminalNetwork?
  }

  datatype Artifact = Code | Writing | Other

  const CODE_MARKERS: seq<string> :=
    ["```", "def ", "class ", "import ", "function ", "=>", "};", "public "]

  function Classify(text: string): Artifact {
    if text == "" then Other
    else if exists m :: m in CODE_MARKERS && HasPart(text, m) then Code
    else if |Strip(text)| > 200 then Writing
    else Other
  }

  /** The environment knobs the graph reads. */
  datatype Config = Config(
    maxAttempts: int,
    maxRateLimitRetries: int,
    critiqueTypes: set<Artifact>,
    maxVerifyRetries: int,
    criticPresent: bool,
    skipVerify: bool,
    revisionEnabled: bool,
    maxRevisions: int)

  /** One worker's handback. `cls` is what the error classifier says of `summary`: a phrase heuristic, of which the model
      only knows that it takes blank text for retryable. */
  datatype Outcome = Outcome(id: Id, ok: bool, summary: string, cls: ErrorClass)

  predicate Classed(r: Outcome) {
    Strip(r.summary) == "" ==> r.cls == Retryable
  }

  datatype Node = Execute | Verify | Check | Reflect | Approve | Revise | End

  datatype Report = Report(failures: nat, summary: string)

  datatype State = State(
    node: Node,
    tree: Tree,
    current: Option<Id>,
    markers: set<Id>,
    artifact: Artifact,
    answer: string,
    error: Option<Report>,
    verifyRetries: int,
    revisions: int)

  predicate AnyReady(t: Tree) {
    exists id :: id in t.goals && Ready(t, id)
  }

  // ------------------------------------------------------------------ execute

  function NewAttempts(cfg: Config, prior: int, cls: ErrorClass): int {
    if IsTerminal(cls) then
      cfg.maxAttempts
    else if cls.RateLimited? then
      if prior >= Min(cfg.maxRateLimitRetries, cfg.maxAttempts) then cfg.maxAttempts else prior + 1
    else
      prior + 1
  }

  function AfterOutcome(cfg: Config, g: Goal, r: Outcome): Goal {
    if r.ok then
      g.(status := Completed, result := Some(r.summary))
    else
      g.(status := Failed, result := Some(r.summary), error := Some(r.summary),
         attempts := NewAttempts(cfg, g.attempts, r.cls))
  }

  datatype Ledger = Ledger(tree: Tree, markers: set<Id>, artifact: Artifact)

  function Applied(cfg: Config, l: Ledger, r: Outcome): Ledger
    requires r.id in l.tree.goals
  {
    if r.id in l.markers then
      l
    else
      Ledger(l.tree.(goals := l.tree.goals[r.id := AfterOutcome(cfg, l.tree.goals[r.id], r)]),
             if r.ok then l.markers + {r.id} else l.markers,
             if r.ok && r.summary != "" then Classify(r.summary) else l.artifact)
  }

  function AppliedAll(cfg: Config, l: Ledger, rs: seq<Outcome>): (l': Ledger)
    requires forall i :: 0 <= i < |rs| ==> rs[i].id in l.tree.goals
    ensures l'.tree.ids == l.tree.ids && l'.tree.goals.Keys == l.tree.goals.Keys
  {
    if rs == [] then l else Applied(cfg, AppliedAll(cfg, l, rs[..|rs| - 1]), rs[|rs| - 1])
  }

  lemma AppliedNext(cfg: Config, l: Ledger, rs: seq<Outcome>, i: nat)
    requires i < |rs| && forall j :: 0 <= j < |rs| ==> rs[j].id in l.tree.goals
    ensures AppliedAll(cfg, l, rs[..i + 1]) == Applied(cfg, AppliedAll(cfg, l, rs[..i]), rs[i])
  {
    assert rs[..i + 1][..i] == rs[..i];
  }

  /** The dispatcher hands back one result for each ready goal, in completion order. */
  ghost predicate ResultsFor(t: Tree, rs: seq<Outcome>) {
    && (forall i, j :: 0 <= i < j < |rs| ==> rs[i].id != rs[j].id)
    && (forall i :: 0 <= i < |rs| ==> Ready(t, rs[i].id) && Classed(rs[i]))
    && forall id :: id in t.goals && Ready(t, id) ==> exists i :: 0 <= i < |rs| && rs[i].id == id
  }

  function Executed(cfg: Config, s: State, rs: seq<Outcome>): State
    requires forall i :: 0 <= i < |rs| ==> rs[i].id in s.tree.goals
  {
    if !AnyReady(s.tree) then
      s.(node := Verify)
    else
      var l := AppliedAll(cfg, Ledger(s.tree, s.markers, Other), rs);
      s.(node := Verify, tree := l.tree, markers := l.markers, artifact := l.artifact)
  }

  /** What one result does to its goal. */
  method RecordOutcome(cfg: Config, g: Goal, r: Outcome) returns (g': Goal)
    ensures g' == AfterOutcome(cfg, g, r)
  {
    if r.ok {
      return g.(status := Completed, result := Some(r.summary));
    }
    var prior, attempts := g.attempts, g.attempts;
    if IsTerminal(r.cls) {
      attempts := cfg.maxAttempts;
    } else if r.cls == RateLimited {
      var cap := Min(cfg.maxRateLimitRetries, cfg.maxAttempts);
      attempts := if prior >= cap then cfg.maxAttempts else prior + 1;
    } else {
      attempts := prior + 1;
    }
    g' := g.(status := Failed, result := Some(r.summary), error := Some(r.summary), attempts := attempts);
  }

  method ExecuteNode(cfg: Config, s: State, results: seq<Outcome>) returns (s': State)
    requires IsDict(s.tree) && ResultsFor(s.tree, results)
    ensures s' == Executed(cfg, s, results)
  {
    var ready := GetReadyGoals(s.tree);
    if ready == [] {
      return s.(node := Verify);
    }
    assert Ready(s.tree, ready[0]);
    var l := Ledger(s.tree, s.markers, Other);
    for i := 0 to |results|
      invariant l == AppliedAll(cfg, Ledger(s.tree, s.markers, Other), results[..i])
    {
      var r := results[i];
      AppliedNext(cfg, Ledger(s.tree, s.markers, Other), results, i);
      if r.id !in l.markers {
        var g := RecordOutcome(cfg, l.tree.goals[r.id], r);
        l := l.(tree := l.tree.(goals := l.tree.goals[r.id := g]));
        if r.ok {
          l := l.(markers := l.markers + {r.id});
          if r.summary != "" {
            l := l.(artifact := Classify(r.summary));
          }
        }
      }
    }
    assert results[..|results|] == results;
    s' := s.(node := Verify, tree := l.tree, markers := l.markers, artifact := l.artifact);
  }

  // ------------------------------------------------------------------ verify

  /** Whether a critique that scored the artifact low (`low`) sends the run back through reflect. */
  predicate WantsReflect(cfg: Config, s: State, low: bool) {
    s.artifact in cfg.critiqueTypes && cfg.criticPresent && low && s.verifyRetries < cfg.maxVerifyRetries
  }

  function Verified(cfg: Config, s: State, low: bool): State {
    var again := WantsReflect(cfg, s, low);
    s.(verifyRetries := if again then s.verifyRetries + 1 else s.verifyRetries,
       node := if cfg.skipVerify then Check else if again then Reflect else Check)
  }

  // ------------------------------------------------------------------ check

  /** The goals below the root, deepest first and by id within a depth. */
  ghost predicate IsCheckOrder(t: Tree, order: seq<Id>) {
    && Distinct(order)
    && (forall id :: id in order <==> Descendant(t, id))
    && ByDepthThenId(t, order)
  }

  ghost predicate ByDepthThenId(t: Tree, order: seq<Id>) {
    forall i, j, d: nat, e: nat ::
      0 <= i < j < |order| && Below(t, ROOT, d, order[i]) && Below(t, ROOT, e, order[j])
      ==> d > e || (d == e && LexLess(order[i], order[j]))
  }

  predicate IsRetryable(cfg: Config, t: Tree, id: Id) {
    id in t.goals && t.goals[id].status == Failed && t.goals[id].attempts < cfg.maxAttempts
  }

  function FirstRetryable(cfg: Config, t: Tree, order: seq<Id>): (r: Option<Id>)
    ensures r.None? <==> forall id :: id in order ==> !IsRetryable(cfg, t, id)
    ensures r.Some? ==> exists k :: 0 <= k < |order| && order[k] == r.value && IsRetryable(cfg, t, r.value)
                                    && forall i :: 0 <= i < k ==> !IsRetryable(cfg, t, order[i])
  {
    if order == [] then
      None
    else if IsRetryable(cfg, t, order[0]) then
      Some(order[0])
    else
      var r := FirstRetryable(cfg, t, order[1..]);
      assert forall id :: id in order <==> id == order[0] || id in order[1..];
      r
  }

  predicate HasStatus(t: Tree, id: Id, s: Status) {
    id in t.goals && t.goals[id].status == s
  }

  predicate AllTerminal(t: Tree, order: seq<Id>) {
    forall id :: id in order ==> HasStatus(t, id, Completed) || HasStatus(t, id, Failed)
  }

  predicate AnyFailed(t: Tree, order: seq<Id>) {
    exists id :: id in order && HasStatus(t, id, Failed)
  }

  predicate HasResult(t: Tree, id: Id) {
    id in t.goals && t.goals[id].result.Some? && t.goals[id].result.value != ""
  }

  function Section(g: Goal): string
    requires g.result.Some?
  {
    "**" + UpTo(g.description, 80) + "**\n" + g.result.value
  }

  function Sections(t: Tree, order: seq<Id>): seq<string> {
    if order == [] then []
    else (if HasResult(t, order[0]) then [Section(t.goals[order[0]])] else []) + Sections(t, order[1..])
  }

  function FailureItem(g: Goal): string {
    var e := if g.error.Some? && g.error.value != "" then g.error.value else "unknown";
    UpTo(g.description, 40) + " (error: " + UpTo(e, 50) + ")"
  }

  function FailureItems(t: Tree, order: seq<Id>): seq<string> {
    if order == [] then []
    else (if HasStatus(t, order[0], Failed) then [FailureItem(t.goals[order[0]])] else []) + FailureItems(t, order[1..])
  }

  function FinalAnswer(t: Tree, order: seq<Id>): string {
    var sections := Sections(t, order);
    var failures := FailureItems(t, order);
    (if sections == [] then "Task completed." else Join("\n\n", sections))
    + (if failures == [] then "" else "\n\nFailed subtasks: " + Join("; ", failures))
  }

  function Finalized(t: Tree, order: seq<Id>, s: State): State
    requires ROOT in t.goals
  {
    var answer := FinalAnswer(t, order);
    var failures := FailureItems(t, order);
    s.(tree := Updated(t, ROOT, if failures != [] then Failed else Completed, Some(answer), None),
       answer := answer,
       current := Some(ROOT),
       error := if failures != [] then Some(Report(|failures|, Join("; ", failures))) else s.error)
  }

  function Router(cfg: Config, s: State): Node {
    if s.answer != "" then Revise
    else if s.current.None? || s.current.value !in s.tree.goals then End
    else
      var goal := s.tree.goals[s.current.value];
      if goal.status == Failed && goal.attempts < cfg.maxAttempts then Reflect
      else if goal.status == AwaitingApproval then Approve
      else if AnyReady(s.tree) then Execute
      else End
  }

  /** `check` over the goals in `order`, then the route it takes. */
  function Checked(cfg: Config, s: State, order: seq<Id>): State
    requires ROOT in s.tree.goals
  {
    var retry := FirstRetryable(cfg, s.tree, order);
    var s' :=
      if order == [] then s
      else if retry.Some? then s.(current := Some(retry.value))
      else if !AllTerminal(s.tree, order) && !AnyFailed(s.tree, order) then s
      else Finalized(s.tree, order, s);
    s'.(node := Router(cfg, s'))
  }

  datatype Visit = Visit(depth: nat, id: Id)

  function ChildVisits(depth: nat, children: seq<Id>): (vs: seq<Visit>)
    ensures |vs| == |children| && forall i :: 0 <= i < |vs| ==> vs[i] == Visit(depth, children[i])
  {
    seq(|children|, i requires 0 <= i < |children| => Visit(depth, children[i]))
  }

  ghost predicate Reached(t: Tree, v: Visit) {
    v.depth > 0 && Below(t, ROOT, v.depth, v.id)
  }

  ghost predicate Holds(vs: seq<Visit>, id: Id) {
    exists i :: 0 <= i < |vs| && vs[i].id == id
  }

  ghost predicate DistinctIds(vs: seq<Visit>) {
    forall i, j :: 0 <= i < j < |vs| ==> vs[i].id != vs[j].id
  }

  /** `visits` lists the root's descendants, each once and at its own depth. */
  ghost predicate VisitsDescendants(t: Tree, visits: seq<Visit>) {
    && DistinctIds(visits)
    && (forall i :: 0 <= i < |visits| ==> Reached(t, visits[i]))
    && forall id :: Descendant(t, id) ==> Holds(visits, id)
  }

  ghost predicate ChildrenMet(t: Tree, p: Id, seen: set<Id>, stack: seq<Visit>) {
    p in t.goals && forall c :: c in t.goals[p].children ==> c in seen || Holds(stack, c)
  }

  /** What the worklist loop keeps: everything met is a descendant, and nothing met has lost a child. */
  ghost predicate Collecting(t: Tree, visits: seq<Visit>, seen: set<Id>, stack: seq<Visit>) {
    && DistinctIds(visits)
    && (forall i :: 0 <= i < |visits| ==> Reached(t, visits[i]))
    && (forall i :: 0 <= i < |stack| ==> Reached(t, stack[i]))
    && (forall id :: id in seen <==> Holds(visits, id))
    && ChildrenMet(t, ROOT, seen, stack)
    && forall p :: p in seen ==> ChildrenMet(t, p, seen, stack)
  }

  /** The worklist loop of `check`. */
  method CollectDescendants(t: Tree) returns (visits: seq<Visit>)
    requires Wired(t) && ROOT in t.goals
    ensures VisitsDescendants(t, visits)
  {
    visits := [];
    var seen: set<Id> := {};
    var stack := ChildVisits(1, t.goals[ROOT].children);
    CollectStart(t);
    while stack != []
      invariant Collecting(t, visits, seen, stack)
      decreases t.goals.Keys - seen, |stack|
    {
      var v := stack[|stack| - 1];
      assert stack == stack[..|stack| - 1] + [v];
      stack := stack[..|stack| - 1];
      if v.id in t.goals && v.id !in seen {
        VisitStep(t, visits, seen, stack, v);
        seen := seen + {v.id};
        visits := visits + [v];
        stack := stack + ChildVisits(v.depth + 1, t.goals[v.id].children);
      } else {
        SkipStep(t, visits, seen, stack, v);
      }
    }
    CollectEnd(t, visits, seen);
  }

  lemma CollectStart(t: Tree)
    requires Wired(t) && ROOT in t.goals
    ensures Collecting(t, [], {}, ChildVisits(1, t.goals[ROOT].children))
  {
    var cs := t.goals[ROOT].children;
    assert Below(t, ROOT, 0, ROOT);
    forall i | 0 <= i < |cs|
      ensures Below(t, ROOT, 1, cs[i]) && Holds(ChildVisits(1, cs), cs[i])
    {
      assert ChildVisits(1, cs)[i].id == cs[i];
    }
  }

  lemma VisitStep(t: Tree, visits: seq<Visit>, seen: set<Id>, rest: seq<Visit>, v: Visit)
    requires Collecting(t, visits, seen, rest + [v])
    requires v.id in t.goals && v.id !in seen
    ensures Collecting(t, visits + [v], seen + {v.id}, rest + ChildVisits(v.depth + 1, t.goals[v.id].children))
  {
    var before := rest + [v];
    var cs := t.goals[v.id].children;
    var stack := rest + ChildVisits(v.depth + 1, cs);
    assert before[|rest|] == v;
    forall i | 0 <= i < |stack|
      ensures Reached(t, stack[i])
    {
      if i < |rest| {
        assert stack[i] == before[i];
      } else {
        assert Below(t, ROOT, v.depth + 1, cs[i - |rest|]);
      }
    }
    forall id
      ensures Holds(visits + [v], id) <==> Holds(visits, id) || id == v.id
    {
      HoldsAppend(visits, v, id);
    }
    forall i | 0 <= i < |visits|
      ensures visits[i].id != v.id
    {
      assert Holds(visits, visits[i].id);
    }
    forall c | c in cs
      ensures Holds(stack, c)
    {
      var i :| 0 <= i < |cs| && cs[i] == c;
      assert stack[|rest| + i].id == c;
    }
    forall p, c | ChildrenMet(t, p, seen, before) && c in t.goals[p].children && c !in seen + {v.id}
      ensures Holds(stack, c)
    {
      var i :| 0 <= i < |before| && before[i].id == c;
      assert stack[i].id == c;
    }
  }

  lemma HoldsAppend(vs: seq<Visit>, v: Visit, id: Id)
    ensures Holds(vs + [v], id) <==> Holds(vs, id) || id == v.id
  {
    if Holds(vs, id) {
      var i :| 0 <= i < |vs| && vs[i].id == id;
      assert (vs + [v])[i].id == id;
    }
    assert (vs + [v])[|vs|] == v;
  }

  lemma SkipStep(t: Tree, visits: seq<Visit>, seen: set<Id>, rest: seq<Visit>, v: Visit)
    requires Collecting(t, visits, seen, rest + [v]) && Wired(t)
    requires v.id in seen || v.id !in t.goals
    ensures Collecting(t, visits, seen, rest)
  {
    var before := rest + [v];
    forall i | 0 <= i < |rest|
      ensures Reached(t, rest[i])
    {
      assert rest[i] == before[i];
    }
    forall p, c | ChildrenMet(t, p, seen, before) && c in t.goals[p].children && c !in seen
      ensures Holds(rest, c)
    {
      var i :| 0 <= i < |before| && before[i].id == c;
      assert rest[i].id == c;
    }
  }

  lemma CollectEnd(t: Tree, visits: seq<Visit>, seen: set<Id>)
    requires Collecting(t, visits, seen, [])
    ensures VisitsDescendants(t, visits)
  {
    forall id | Descendant(t, id)
      ensures Holds(visits, id)
    {
      var d: nat :| d > 0 && Below(t, ROOT, d, id);
      AllSeen(t, seen, d, id);
    }
  }

  lemma {:induction false} AllSeen(t: Tree, seen: set<Id>, d: nat, id: Id)
    requires ChildrenMet(t, ROOT, seen, [])
    requires forall p :: p in seen ==> ChildrenMet(t, p, seen, [])
    requires d > 0 && Below(t, ROOT, d, id)
    ensures id in seen
    decreases d
  {
    var p :| p in t.goals && Below(t, ROOT, d - 1, p) && id in t.goals[p].children;
    if d > 1 {
      AllSeen(t, seen, d - 1, p);
    }
    assert !Holds([], id);
  }

  // The sort key of `check`: depth descending, then id.
  predicate Before(a: Visit, b: Visit) {
    a.depth > b.depth || (a.depth == b.depth && (a.id == b.id || LexLess(a.id, b.id)))
  }

  lemma BeforeTransitive(a: Visit, b: Visit, c: Visit)
    requires Before(a, b) && Before(b, c)
    ensures Before(a, c)
  {
    if LexLess(a.id, b.id) && LexLess(b.id, c.id) {
      LexTransitive(a.id, b.id, c.id);
    }
  }

  ghost predicate Sorted(vs: seq<Visit>) {
    forall i, j :: 0 <= i < j < |vs| ==> Before(vs[i], vs[j])
  }

  function Inserted(vs: seq<Visit>, v: Visit): seq<Visit> {
    if vs == [] then [v]
    else if Before(v, vs[0]) then [v] + vs
    else [vs[0]] + Inserted(vs[1..], v)
  }

  lemma {:induction false} InsertedHolds(vs: seq<Visit>, v: Visit)
    ensures multiset(Inserted(vs, v)) == multiset(vs) + multiset{v}
    decreases |vs|
  {
    if vs != [] && !Before(v, vs[0]) {
      InsertedHolds(vs[1..], v);
      assert vs == [vs[0]] + vs[1..];
    }
  }

  lemma SortedOnTop(first: Visit, rest: seq<Visit>)
    requires Sorted(rest) && forall x :: x in multiset(rest) ==> Before(first, x)
    ensures Sorted([first] + rest)
  {
    assert forall j :: 0 <= j < |rest| ==> rest[j] in multiset(rest);
  }

  lemma FirstIsLeast(vs: seq<Visit>)
    requires Sorted(vs) && vs != []
    ensures Sorted(vs[1..]) && forall x :: x in multiset(vs[1..]) ==> Before(vs[0], x)
  {
    forall x | x in multiset(vs[1..]) ensures Before(vs[0], x) {
      assert x in vs[1..];
    }
  }

  lemma {:induction false} InsertedSorted(vs: seq<Visit>, v: Visit)
    requires Sorted(vs)
    ensures Sorted(Inserted(vs, v))
    decreases |vs|
  {
    if vs != [] {
      FirstIsLeast(vs);
      if Before(v, vs[0]) {
        forall x | x in multiset(vs) ensures Before(v, x) {
          assert vs == [vs[0]] + vs[1..];
          if x != vs[0] {
            BeforeTransitive(v, vs[0], x);
          }
        }
        SortedOnTop(v, vs);
      } else {
        LexTotal(vs[0].id, v.id);
        InsertedSorted(vs[1..], v);
        InsertedHolds(vs[1..], v);
        SortedOnTop(vs[0], Inserted(vs[1..], v));
      }
    }
  }

  /** `descendants.sort(...)`: the same visits, in key order. */
  function SortVisits(vs: seq<Visit>): (r: seq<Visit>)
    ensures Sorted(r) && multiset(r) == multiset(vs)
  {
    if vs == [] then
      []
    else
      var rest := SortVisits(vs[1..]);
      assert vs == [vs[0]] + vs[1..];
      InsertedHolds(rest, vs[0]);
      InsertedSorted(rest, vs[0]);
      Inserted(rest, vs[0])
  }

  function Ids(vs: seq<Visit>): (ids: seq<Id>)
    ensures |ids| == |vs| && forall i :: 0 <= i < |vs| ==> ids[i] == vs[i].id
  {
    seq(|vs|, i requires 0 <= i < |vs| => vs[i].id)
  }

  /** Sorting a complete list of visits gives the order in which `check` goes through the goals. */
  lemma SortedVisitsAreCheckOrder(t: Tree, visits: seq<Visit>)
    requires Wired(t) && VisitsDescendants(t, visits)
    ensures IsCheckOrder(t, Ids(SortVisits(visits)))
  {
    var vs := SortVisits(visits);
    SortKeepsDistinct(visits, vs);
    SortKeepsMembers(t, visits, vs);
    SortedMeansOrdered(t, vs);
  }

  lemma SortKeepsMembers(t: Tree, visits: seq<Visit>, vs: seq<Visit>)
    requires VisitsDescendants(t, visits) && multiset(vs) == multiset(visits)
    ensures forall i :: 0 <= i < |vs| ==> Reached(t, vs[i])
    ensures forall id :: id in Ids(vs) <==> Descendant(t, id)
  {
    forall i | 0 <= i < |vs|
      ensures Reached(t, vs[i])
    {
      assert vs[i] in multiset(vs);
      var k :| 0 <= k < |visits| && visits[k] == vs[i];
    }
    forall id | Descendant(t, id)
      ensures id in Ids(vs)
    {
      assert Holds(visits, id);
      var i :| 0 <= i < |visits| && visits[i].id == id;
      assert visits[i] in multiset(visits);
      var k :| 0 <= k < |vs| && vs[k] == visits[i];
      assert Ids(vs)[k] == id;
    }
  }

  lemma SortedMeansOrdered(t: Tree, vs: seq<Visit>)
    requires Wired(t) && Sorted(vs) && DistinctIds(vs)
    requires forall i :: 0 <= i < |vs| ==> Reached(t, vs[i])
    ensures ByDepthThenId(t, Ids(vs))
  {
    forall i, j, d: nat, e: nat | 0 <= i < j < |vs| && Below(t, ROOT, d, vs[i].id) && Below(t, ROOT, e, vs[j].id)
      ensures d > e || (d == e && LexLess(vs[i].id, vs[j].id))
    {
      DepthUnique(t, d, vs[i].depth, vs[i].id);
      DepthUnique(t, e, vs[j].depth, vs[j].id);
      assert Before(vs[i], vs[j]);
    }
  }

  lemma SortKeepsDistinct(visits: seq<Visit>, vs: seq<Visit>)
    requires multiset(vs) == multiset(visits)
    requires DistinctIds(visits)
    ensures DistinctIds(vs)
  {
    forall i, j | 0 <= i < j < |vs|
      ensures vs[i].id != vs[j].id
    {
      assert vs[i] in multiset(visits) && vs[j] in multiset(visits) by {
        assert vs[i] in multiset(vs) && vs[j] in multiset(vs);
      }
      if vs[i] == vs[j] {
        TwiceIn(vs, i, j);
        OnceIn(visits, vs[i]);
        assert false;
      }
    }
  }

  lemma TwiceIn(vs: seq<Visit>, i: int, j: int)
    requires 0 <= i < j < |vs| && vs[i] == vs[j]
    ensures multiset(vs)[vs[i]] >= 2
  {
    assert vs == vs[..j] + [vs[j]] + vs[j + 1..];
    assert vs[..j][i] == vs[i];
    assert vs[i] in multiset(vs[..j]);
  }

  lemma {:induction false} OnceIn(vs: seq<Visit>, v: Visit)
    requires DistinctIds(vs)
    ensures multiset(vs)[v] <= 1
    decreases |vs|
  {
    if vs != [] {
      OnceIn(vs[1..], v);
      assert vs == [vs[0]] + vs[1..];
      assert v == vs[0] ==> v !in vs[1..];
    }
  }

  lemma {:induction false} FirstRetryableAppend(cfg: Config, t: Tree, order: seq<Id>, id: Id)
    ensures FirstRetryable(cfg, t, order + [id]) ==
              if FirstRetryable(cfg, t, order).Some? then FirstRetryable(cfg, t, order)
              else if IsRetryable(cfg, t, id) then Some(id) else None
    decreases |order|
  {
    if order != [] {
      FirstRetryableAppend(cfg, t, order[1..], id);
      assert (order + [id])[1..] == order[1..] + [id];
    }
  }

  lemma {:induction false} SectionsAppend(t: Tree, order: seq<Id>, id: Id)
    ensures Sections(t, order + [id]) == if HasResult(t, id) then Sections(t, order) + [Section(t.goals[id])] else Sections(t, order)
    decreases |order|
  {
    if order != [] {
      SectionsAppend(t, order[1..], id);
      assert (order + [id])[1..] == order[1..] + [id];
    }
  }

  lemma {:induction false} FailureItemsAppend(t: Tree, order: seq<Id>, id: Id)
    ensures FailureItems(t, order + [id]) ==
              if HasStatus(t, id, Failed) then FailureItems(t, order) + [FailureItem(t.goals[id])] else FailureItems(t, order)
    decreases |order|
  {
    if order != [] {
      FailureItemsAppend(t, order[1..], id);
      assert (order + [id])[1..] == order[1..] + [id];
    }
  }

  /** The failed goals that may be retried, of which `check` takes the first. */
  method FailedRetryable(cfg: Config, t: Tree, order: seq<Id>) returns (failed: seq<Id>)
    ensures FirstRetryable(cfg, t, order) == if failed == [] then None else Some(failed[0])
  {
    failed := [];
    for i := 0 to |order|
      invariant FirstRetryable(cfg, t, order[..i]) == if failed == [] then None else Some(failed[0])
    {
      assert order[..i + 1] == order[..i] + [order[i]];
      FirstRetryableAppend(cfg, t, order[..i], order[i]);
      if IsRetryable(cfg, t, order[i]) {
        failed := failed + [order[i]];
      }
    }
    assert order[..|order|] == order;
  }

  /** The results and the failures, each in the order of the goals. */
  method Gather(t: Tree, order: seq<Id>) returns (sections: seq<string>, failures: seq<string>)
    ensures sections == Sections(t, order) && failures == FailureItems(t, order)
  {
    sections, failures := [], [];
    for i := 0 to |order|
      invariant sections == Sections(t, order[..i]) && failures == FailureItems(t, order[..i])
    {
      var id := order[i];
      assert order[..i + 1] == order[..i] + [id];
      SectionsAppend(t, order[..i], id);
      FailureItemsAppend(t, order[..i], id);
      if HasResult(t, id) {
        sections := sections + [Section(t.goals[id])];
      }
      if HasStatus(t, id, Failed) {
        failures := failures + [FailureItem(t.goals[id])];
      }
    }
    assert order[..|order|] == order;
  }

  method FinalizeRoot(s: State, order: seq<Id>) returns (s': State)
    requires ROOT in s.tree.goals
    ensures s' == Finalized(s.tree, order, s)
  {
    var sections, failures := Gather(s.tree, order);
    var answer := "Task completed.";
    if sections != [] {
      answer := Join("\n\n", sections);
    }
    var status, error := Completed, s.error;
    if failures != [] {
      var summary := Join("; ", failures);
      answer := answer + ("\n\nFailed subtasks: " + summary);
      status, error := Failed, Some(Report(|failures|, summary));
    }
    assert answer == FinalAnswer(s.tree, order);
    var root := s.tree.goals[ROOT].(status := status, result := Some(answer));
    var tree := s.tree.(goals := s.tree.goals[ROOT := root]);
    s' := s.(tree := tree, answer := answer, current := Some(ROOT), error := error);
  }

  /** The walk, the sort, and the three things `check` can do: defer to reflect, wait, or finalize. */
  method CheckNode(cfg: Config, s: State) returns (s': State, order: seq<Id>)
    requires WellFormed(s.tree)
    ensures IsCheckOrder(s.tree, order)
    ensures s' == Checked(cfg, s, order)
  {
    var visits := CollectDescendants(s.tree);
    SortedVisitsAreCheckOrder(s.tree, visits);
    order := Ids(SortVisits(visits));
    s' := s;
    if order != [] {
      var failed := FailedRetryable(cfg, s.tree, order);
      if failed != [] {
        s' := s.(current := Some(failed[0]));
      } else if AllTerminal(s.tree, order) || AnyFailed(s.tree, order) {
        s' := FinalizeRoot(s, order);
      }
    }
    s' := s'.(node := Router(cfg, s'));
  }

  /** `check` meets every goal before its parent. */
  lemma ChildrenBeforeParents(t: Tree, order: seq<Id>, i: int, j: int)
    requires WellFormed(t) && IsCheckOrder(t, order)
    requires 0 <= i < |order| && 0 <= j < |order| && order[i] in t.goals && order[j] in t.goals[order[i]].children
    ensures j < i
  {
    assert Descendant(t, order[i]);
    var d: nat :| d > 0 && Below(t, ROOT, d, order[i]);
    assert Below(t, ROOT, d + 1, order[j]);
  }

  // ------------------------------------------------------------------ reflect, approve, revise

  function Reflected(s: State): State
    requires s.current.Some? && s.current.value in s.tree.goals
  {
    s.(tree := Updated(s.tree, s.current.value, Pending, None, None), node := Execute)
  }

  function Approved(s: State, approve: bool): State
    requires s.current.Some? && s.current.value in s.tree.goals
  {
    s.(tree := Updated(s.tree, s.current.value, if approve then InProgress else Blocked, None, None), node := Execute)
  }

  predicate ShouldRevise(cfg: Config, s: State) {
    && s.error.None?
    && s.artifact != Code
    && Strip(s.answer) != ""
    && 0 < cfg.maxRevisions
    && s.revisions < cfg.maxRevisions
  }

  /** `revised` is the model's reply, stripped. */
  function Revised(cfg: Config, s: State, revised: string): State {
    if !cfg.revisionEnabled || !ShouldRevise(cfg, s) then
      s.(node := End)
    else
      var answer := if revised != "" then revised else s.answer;
      s.(node := End, answer := answer, revisions := s.revisions + 1,
         tree := if ROOT in s.tree.goals
                 then Updated(s.tree, ROOT, s.tree.goals[ROOT].status, Some(answer), None) else s.tree)
  }

  // ------------------------------------------------------------------ runs

  predicate Untouched(g: Goal) {
    g.status == Pending && g.attempts == 0 && g.result.None? && g.error.None?
  }

  /** How the graph enters `execute` from `plan`: a fresh tree, not begun. */
  ghost predicate Planned(s: State) {
    && s.node == Execute
    && WellFormed(s.tree)
    && (forall id :: id in s.tree.goals ==> Untouched(s.tree.goals[id]))
    && s.current == Some(ROOT)
    && s.markers == {} && s.answer == "" && s.error.None? && s.verifyRetries == 0 && s.revisions == 0
  }

  /** Whatever `plan` creates, in order and under goals that are there, the graph enters `execute` planned. */
  lemma PlantedIsPlanned(description: string, creations: seq<Creation>)
    requires Orderly(description, creations)
    ensures Planned(State(Execute, Planted(description, creations), Some(ROOT), {}, Other, "", None, 0, 0))
  {
    var t := Planted(description, creations);
    PlantedIsTree(description, creations);
    PlantedAsCreated(description, creations);
    forall id | id in t.goals ensures Untouched(t.goals[id]) {
      assert id in t.ids;
      var k :| 0 <= k < |t.ids| && t.ids[k] == id;
      if k > 0 {
        assert creations[k - 1].gid == id;
      }
    }
  }

  /** A plan in which the root has at least one child. */
  ghost predicate Start(s: State) {
    Planned(s) && s.tree.goals[ROOT].children != []
  }

  ghost predicate Step(cfg: Config, s: State, s': State) {
    match s.node
    case Execute => exists rs :: ResultsFor(s.tree, rs) && s' == Executed(cfg, s, rs)
    case Verify => exists low :: s' == Verified(cfg, s, low)
    case Check => ROOT in s.tree.goals && exists order :: IsCheckOrder(s.tree, order) && s' == Checked(cfg, s, order)
    case Reflect => s.current.Some? && s.current.value in s.tree.goals && s' == Reflected(s)
    case Approve => s.current.Some? && s.current.value in s.tree.goals && exists approve :: s' == Approved(s, approve)
    case Revise => exists revised :: s' == Revised(cfg, s, revised)
    case End => false
  }

  ghost predicate Steps(cfg: Config, run: seq<State>) {
    |run| > 0 && forall i :: 0 <= i < |run| - 1 ==> Step(cfg, run[i], run[i + 1])
  }

  ghost predicate IsRun(cfg: Config, run: seq<State>) {
    Steps(cfg, run) && Start(run[0])
  }
}
