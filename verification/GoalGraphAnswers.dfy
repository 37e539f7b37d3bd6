/** What the workers said and what the user is told: over whole runs, every stored result and the final answer in the words of
    the workers. */
module GoalGraphAnswers {
  import opened Common
  import opened GoalTree
  import opened GoalGraph
  import opened GoalGraphRuns

  // ------------------------------------------------------------------ one pass

  /** A pass stores what each worker hands back for a goal that is not marked: its text as the result and, if it failed, as the
      error. Nothing else of the goal changes but status and attempts. */
  lemma ResultsAreStored(cfg: Config, s: State, rs: seq<Outcome>, k: nat)
    requires ResultsFor(s.tree, rs) && k < |rs| && rs[k].id !in s.markers
    ensures var r, s' := rs[k], Executed(cfg, s, rs);
            && r.id in s'.tree.goals
            && var g, g' := s.tree.goals[r.id], s'.tree.goals[r.id];
            && g'.result == Some(r.summary)
            && g'.status == (if r.ok then Completed else Failed)
            && g'.error == (if r.ok then g.error else Some(r.summary))
            && (g'.attempts == g.attempts <== r.ok)
            && g'.description == g.description && g'.parent == g.parent && g'.children == g.children
            && (r.id in s'.markers <==> r.ok)
  {
    assert Ready(s.tree, rs[k].id);
    AppliedAt(cfg, Ledger(s.tree, s.markers, Other), rs, k);
  }

  /** A goal for which nothing is handed back, or that is marked, stays as it was. */
  lemma OthersAreKept(cfg: Config, s: State, rs: seq<Outcome>, id: Id)
    requires ResultsFor(s.tree, rs) && id in s.tree.goals
    requires id in s.markers || forall k :: 0 <= k < |rs| ==> rs[k].id != id
    ensures var s' := Executed(cfg, s, rs);
            id in s'.tree.goals && s'.tree.goals[id] == s.tree.goals[id] && (id in s'.markers <==> id in s.markers)
  {
    if AnyReady(s.tree) {
      AppliedElsewhere(cfg, Ledger(s.tree, s.markers, Other), rs, id);
    }
  }

  // ------------------------------------------------------------------ the words of a run

  ghost predicate HeardAt(cfg: Config, s: State, rs: seq<Outcome>, s': State) {
    if s.node == Execute then ResultsFor(s.tree, rs) && s' == Executed(cfg, s, rs) else Step(cfg, s, s') && rs == []
  }

  /** A plan comes to `s` when its passes are handed back `words`, step by step. */
  ghost predicate Hears(cfg: Config, s0: State, words: seq<seq<Outcome>>, s: State) {
    if words == [] then
      s == s0
    else
      var n := |words| - 1;
      exists before :: Hears(cfg, s0, words[..n], before) && HeardAt(cfg, before, words[n], s)
  }

  lemma HearsOneMore(cfg: Config, s0: State, words: seq<seq<Outcome>>, s: State, rs: seq<Outcome>, s': State)
    requires Hears(cfg, s0, words, s) && HeardAt(cfg, s, rs, s')
    ensures Hears(cfg, s0, words + [rs], s')
  {
    assert (words + [rs])[..|words|] == words;
  }

  /** Every state of every run is come to in that way. */
  lemma {:induction false} SomethingWasSaid(cfg: Config, run: seq<State>, i: nat) returns (words: seq<seq<Outcome>>)
    requires Steps(cfg, run) && i < |run|
    ensures |words| == i && Hears(cfg, run[0], words, run[i])
    decreases i
  {
    if i == 0 {
      words := [];
    } else {
      assert Step(cfg, run[i - 1], run[i]);
      var said := SomethingWasSaid(cfg, run, i - 1);
      var rs := WordsOfStep(cfg, run[i - 1], run[i]);
      HearsOneMore(cfg, run[0], said, run[i - 1], rs, run[i]);
      words := said + [rs];
    }
  }

  lemma WordsOfStep(cfg: Config, s: State, s': State) returns (rs: seq<Outcome>)
    requires Step(cfg, s, s')
    ensures HeardAt(cfg, s, rs, s')
  {
    if s.node == Execute {
      rs :| ResultsFor(s.tree, rs) && s' == Executed(cfg, s, rs);
    } else {
      rs := [];
    }
  }

  /** What one pass was handed back for a goal. */
  function WordOf(rs: seq<Outcome>, id: Id): Option<Outcome> {
    if rs == [] then None
    else if rs[|rs| - 1].id == id then Some(rs[|rs| - 1])
    else WordOf(rs[..|rs| - 1], id)
  }

  /** The word on a goal that counts: the last one, but nothing after a success. */
  function LastWord(words: seq<seq<Outcome>>, id: Id): Option<Outcome> {
    if words == [] then None
    else
      var before, word := LastWord(words[..|words| - 1], id), WordOf(words[|words| - 1], id);
      if word.None? || (before.Some? && before.value.ok) then before else word
  }

  /** The text of the last failure that counts. */
  function LastFailure(words: seq<seq<Outcome>>, id: Id): Option<string> {
    if words == [] then None
    else
      var before, word := words[..|words| - 1], WordOf(words[|words| - 1], id);
      if word.None? || word.value.ok || (LastWord(before, id).Some? && LastWord(before, id).value.ok)
      then LastFailure(before, id)
      else Some(word.value.summary)
  }

  /** What is stored of a goal below the root. */
  ghost predicate Remembered(g0: Goal, g: Goal, marked: bool, word: Option<Outcome>, failure: Option<string>) {
    && g.description == g0.description && g.parent == g0.parent && g.children == g0.children
    && g.result == (match word case None => None case Some(r) => Some(r.summary))
    && g.error == failure
    && (marked <==> word.Some? && word.value.ok)
    && (g.status == Completed ==> word.Some? && word.value.ok)
    && (g.status == Failed ==> word.Some? && !word.value.ok && failure == Some(word.value.summary))
  }

  ghost predicate Remembers(t0: Tree, s: State, words: seq<seq<Outcome>>) {
    && s.tree.goals.Keys == t0.goals.Keys
    && forall id :: id in t0.goals && id != ROOT ==>
         Remembered(t0.goals[id], s.tree.goals[id], id in s.markers, LastWord(words, id), LastFailure(words, id))
  }

  lemma {:induction false} WordFound(rs: seq<Outcome>, id: Id)
    ensures WordOf(rs, id).None? <==> forall k :: 0 <= k < |rs| ==> rs[k].id != id
    ensures WordOf(rs, id).Some? ==> exists k :: 0 <= k < |rs| && rs[k].id == id && rs[k] == WordOf(rs, id).value
    decreases |rs|
  {
    if rs != [] && rs[|rs| - 1].id != id {
      WordFound(rs[..|rs| - 1], id);
      if WordOf(rs, id).Some? {
        var k :| 0 <= k < |rs| - 1 && rs[k].id == id && rs[k] == WordOf(rs, id).value;
      }
    }
  }

  lemma PassRemembersGoal(cfg: Config, t0: Tree, s: State, rs: seq<Outcome>, words: seq<seq<Outcome>>, id: Id)
    requires Remembers(t0, s, words) && ResultsFor(s.tree, rs) && id in t0.goals && id != ROOT
    ensures var s', words' := Executed(cfg, s, rs), words + [rs];
            && id in s'.tree.goals
            && Remembered(t0.goals[id], s'.tree.goals[id], id in s'.markers, LastWord(words', id), LastFailure(words', id))
  {
    assert (words + [rs])[..|words|] == words;
    WordFound(rs, id);
    if WordOf(rs, id).None? || id in s.markers {
      OthersAreKept(cfg, s, rs, id);
    } else {
      var k :| 0 <= k < |rs| && rs[k].id == id && rs[k] == WordOf(rs, id).value;
      ResultsAreStored(cfg, s, rs, k);
    }
  }

  lemma PassRemembers(cfg: Config, t0: Tree, s: State, rs: seq<Outcome>, words: seq<seq<Outcome>>)
    requires Remembers(t0, s, words) && ResultsFor(s.tree, rs)
    ensures Remembers(t0, Executed(cfg, s, rs), words + [rs])
  {
    forall id | id in t0.goals && id != ROOT
      ensures var s', words' := Executed(cfg, s, rs), words + [rs];
              Remembered(t0.goals[id], s'.tree.goals[id], id in s'.markers, LastWord(words', id), LastFailure(words', id))
    {
      PassRemembersGoal(cfg, t0, s, rs, words, id);
    }
  }

  /** The other nodes move statuses, never to completed or failed below the root, and write only the root's result. */
  lemma OtherStepKeeps(cfg: Config, s: State, s': State, id: Id)
    requires s.node !in {Execute, Approve} && Step(cfg, s, s') && id in s.tree.goals && id != ROOT
    ensures s'.tree.goals.Keys == s.tree.goals.Keys && s'.markers == s.markers
    ensures s'.tree.goals[id] == s.tree.goals[id] || s'.tree.goals[id] == s.tree.goals[id].(status := Pending)
  {
  }

  lemma QuietStepRemembers(words: seq<seq<Outcome>>, id: Id)
    ensures LastWord(words + [[]], id) == LastWord(words, id) && LastFailure(words + [[]], id) == LastFailure(words, id)
  {
    assert (words + [[]])[..|words|] == words;
  }

  lemma StepRemembers(cfg: Config, t0: Tree, s: State, rs: seq<Outcome>, s': State, words: seq<seq<Outcome>>)
    requires Remembers(t0, s, words) && HeardAt(cfg, s, rs, s') && s.node != Approve && ROOT in s.tree.goals
    ensures Remembers(t0, s', words + [rs])
  {
    if s.node == Execute {
      PassRemembers(cfg, t0, s, rs, words);
    } else {
      forall id | id in t0.goals && id != ROOT
        ensures s'.tree.goals.Keys == s.tree.goals.Keys
        ensures Remembered(t0.goals[id], s'.tree.goals[id], id in s'.markers, LastWord(words + [rs], id),
                           LastFailure(words + [rs], id))
      {
        OtherStepKeeps(cfg, s, s', id);
        QuietStepRemembers(words, id);
      }
      OtherStepKeepsGoals(cfg, s, s');
    }
  }

  lemma OtherStepKeepsGoals(cfg: Config, s: State, s': State)
    requires s.node != Execute && Step(cfg, s, s') && ROOT in s.tree.goals
    ensures s'.tree.goals.Keys == s.tree.goals.Keys
  {
  }

  lemma {:induction false} HearingIsSound(cfg: Config, s0: State, words: seq<seq<Outcome>>, s: State)
    requires Planned(s0) && Hears(cfg, s0, words, s)
    ensures Sound(s0.tree, s)
    decreases |words|
  {
    if words != [] {
      var n := |words| - 1;
      var before :| Hears(cfg, s0, words[..n], before) && HeardAt(cfg, before, words[n], s);
      HearingIsSound(cfg, s0, words[..n], before);
      HeardIsStep(cfg, before, words[n], s);
      SoundStep(cfg, s0.tree, before, s);
    } else {
      PlanIsSound(s0);
    }
  }

  lemma PlanIsSound(s0: State)
    requires Planned(s0)
    ensures Sound(s0.tree, s0)
  {
  }

  /** Whatever the configuration and the workers: what is stored of each goal below the root is the last word that counts, in
      result, error, status and marker, beside the description it was created with. */
  lemma {:induction false} WordsAreRemembered(cfg: Config, s0: State, words: seq<seq<Outcome>>, s: State)
    requires Planned(s0) && Hears(cfg, s0, words, s)
    ensures Remembers(s0.tree, s, words)
    decreases |words|
  {
    if words == [] {
      PlanRemembers(s0);
    } else {
      var n := |words| - 1;
      var before :| Hears(cfg, s0, words[..n], before) && HeardAt(cfg, before, words[n], s);
      WordsAreRemembered(cfg, s0, words[..n], before);
      HearingIsSound(cfg, s0, words[..n], before);
      StepRemembersAll(cfg, s0.tree, before, s, words);
    }
  }

  lemma RemembersSame(t0: Tree, s: State, words: seq<seq<Outcome>>, same: seq<seq<Outcome>>)
    requires Remembers(t0, s, words) && words == same
    ensures Remembers(t0, s, same)
  {
  }

  lemma StepRemembersAll(cfg: Config, t0: Tree, before: State, s: State, words: seq<seq<Outcome>>)
    requires words != [] && Sound(t0, before) && Remembers(t0, before, words[..|words| - 1])
    requires HeardAt(cfg, before, words[|words| - 1], s)
    ensures Remembers(t0, s, words)
  {
    var prior, last := words[..|words| - 1], words[|words| - 1];
    StepRemembers(cfg, t0, before, last, s, prior);
    RemembersSame(t0, s, prior + [last], words);
  }

  lemma PlanRemembers(s0: State)
    requires Planned(s0)
    ensures Remembers(s0.tree, s0, [])
  {
  }

  lemma HeardIsStep(cfg: Config, s: State, rs: seq<Outcome>, s': State)
    requires HeardAt(cfg, s, rs, s')
    ensures Step(cfg, s, s')
  {
  }

  lemma {:induction false} HearingTells(cfg: Config, s0: State, words: seq<seq<Outcome>>, s: State)
    requires Start(s0) && Hears(cfg, s0, words, s)
    ensures Tells(s0.tree, s)
    decreases |words|
  {
    if words != [] {
      var n := |words| - 1;
      var before :| Hears(cfg, s0, words[..n], before) && HeardAt(cfg, before, words[n], s);
      HearingTells(cfg, s0, words[..n], before);
      HeardIsStep(cfg, before, words[n], s);
      TellsStep(cfg, s0.tree, before, s);
    }
  }

  // ------------------------------------------------------------------ the final answer

  /** The lines for one goal on which something was said. */
  function TextFor(t0: Tree, words: seq<seq<Outcome>>, id: Id): string
    requires id in t0.goals && LastWord(words, id).Some?
  {
    "**" + UpTo(t0.goals[id].description, 80) + "**\n" + LastWord(words, id).value.summary
  }

  predicate Speaks(t0: Tree, words: seq<seq<Outcome>>, id: Id) {
    id in t0.goals && LastWord(words, id).Some? && LastWord(words, id).value.summary != ""
  }

  function TextsFor(t0: Tree, words: seq<seq<Outcome>>, order: seq<Id>): seq<string> {
    if order == [] then []
    else (if Speaks(t0, words, order[0]) then [TextFor(t0, words, order[0])] else []) + TextsFor(t0, words, order[1..])
  }

  /** The mention of one failed goal. */
  function MentionFor(t0: Tree, words: seq<seq<Outcome>>, id: Id): string
    requires id in t0.goals
  {
    var failure := LastFailure(words, id);
    UpTo(t0.goals[id].description, 40)
    + " (error: " + UpTo(if failure.Some? && failure.value != "" then failure.value else "unknown", 50) + ")"
  }

  function MentionsFor(t0: Tree, t: Tree, words: seq<seq<Outcome>>, order: seq<Id>): seq<string> {
    if order == [] then []
    else
      var id := order[0];
      (if id in t0.goals && id in t.goals && t.goals[id].status == Failed then [MentionFor(t0, words, id)] else [])
      + MentionsFor(t0, t, words, order[1..])
  }

  lemma {:induction false} SectionsAreTexts(t0: Tree, s: State, words: seq<seq<Outcome>>, order: seq<Id>)
    requires Remembers(t0, s, words) && forall id :: id in order ==> id in t0.goals && id != ROOT
    ensures Sections(s.tree, order) == TextsFor(t0, words, order)
    decreases |order|
  {
    if order != [] {
      assert forall id :: id in order[1..] ==> id in order;
      SectionsAreTexts(t0, s, words, order[1..]);
      OneSection(t0, s, words, order[0]);
    }
  }

  lemma OneSection(t0: Tree, s: State, words: seq<seq<Outcome>>, id: Id)
    requires Remembers(t0, s, words) && id in t0.goals && id != ROOT
    ensures HasResult(s.tree, id) <==> Speaks(t0, words, id)
    ensures HasResult(s.tree, id) ==> Section(s.tree.goals[id]) == TextFor(t0, words, id)
  {
    assert Remembered(t0.goals[id], s.tree.goals[id], id in s.markers, LastWord(words, id), LastFailure(words, id));
  }

  lemma {:induction false} FailuresAreMentions(t0: Tree, s: State, words: seq<seq<Outcome>>, order: seq<Id>)
    requires Remembers(t0, s, words) && forall id :: id in order ==> id in t0.goals && id != ROOT
    ensures FailureItems(s.tree, order) == MentionsFor(t0, s.tree, words, order)
    decreases |order|
  {
    if order != [] {
      assert forall id :: id in order[1..] ==> id in order;
      FailuresAreMentions(t0, s, words, order[1..]);
      OneFailure(t0, s, words, order[0]);
    }
  }

  lemma OneFailure(t0: Tree, s: State, words: seq<seq<Outcome>>, id: Id)
    requires Remembers(t0, s, words) && id in t0.goals && id != ROOT
    ensures id in s.tree.goals && FailureItem(s.tree.goals[id]) == MentionFor(t0, words, id)
  {
    assert Remembered(t0.goals[id], s.tree.goals[id], id in s.markers, LastWord(words, id), LastFailure(words, id));
  }

  /** The answer and the error that the words call for. */
  ghost predicate SaysExactly(t0: Tree, s: State, words: seq<seq<Outcome>>, order: seq<Id>) {
    var texts, mentions := TextsFor(t0, words, order), MentionsFor(t0, s.tree, words, order);
    && s.answer == (if texts == [] then "Task completed." else Join("\n\n", texts))
                   + (if mentions == [] then "" else "\n\nFailed subtasks: " + Join("; ", mentions))
    && s.error == if mentions == [] then None else Some(Report(|mentions|, Join("; ", mentions)))
  }

  lemma {:induction false} SameMentions(t0: Tree, t: Tree, u: Tree, words: seq<seq<Outcome>>, order: seq<Id>)
    requires forall id :: id in order ==> id in t.goals && id in u.goals && t.goals[id].status == u.goals[id].status
    ensures MentionsFor(t0, t, words, order) == MentionsFor(t0, u, words, order)
    decreases |order|
  {
    if order != [] {
      SameMentions(t0, t, u, words, order[1..]);
    }
  }

  lemma FinalizedSays(cfg: Config, t0: Tree, s: State, words: seq<seq<Outcome>>, order: seq<Id>)
    requires Remembers(t0, s, words) && s.node == Check && ROOT in s.tree.goals && s.answer == "" && s.error.None?
    requires forall id :: id in order ==> id in t0.goals && id != ROOT
    requires Checked(cfg, s, order).node == Revise
    ensures SaysExactly(t0, Checked(cfg, s, order), words, order)
  {
    var s' := Checked(cfg, s, order);
    SectionsAreTexts(t0, s, words, order);
    FailuresAreMentions(t0, s, words, order);
    SameMentions(t0, s.tree, s'.tree, words, order);
  }

  /** Whatever the configuration, when `check` has finalized, the answer is exactly this: for each goal below the root, deepest
      first and by id within a depth, the first 80 characters of its description and the last word on it, if there is one that
      is not blank; then for each failed goal the first 40 of its description and the first 50 of its error. The error counts the
      failed goals and lists the same. */
  lemma AnswerSaysExactly(cfg: Config, s0: State, words: seq<seq<Outcome>>, s: State) returns (order: seq<Id>)
    requires Start(s0) && Hears(cfg, s0, words, s) && s.node == Revise
    ensures IsCheckOrder(s0.tree, order) && SaysExactly(s0.tree, s, words, order)
  {
    var n := |words| - 1;
    var before :| Hears(cfg, s0, words[..n], before) && HeardAt(cfg, before, words[n], s);
    HearingTells(cfg, s0, words[..n], before);
    StartIsPlanned(s0);
    WordsAreRemembered(cfg, s0, words[..n], before);
    order := FinalStepSaysAll(cfg, s0.tree, before, s, words);
  }

  lemma StartIsPlanned(s0: State)
    requires Start(s0)
    ensures Planned(s0) && WellFormed(s0.tree)
  {
  }

  lemma FinalStepSaysAll(cfg: Config, t0: Tree, before: State, s: State, words: seq<seq<Outcome>>) returns (order: seq<Id>)
    requires words != [] && WellFormed(t0) && Tells(t0, before) && Remembers(t0, before, words[..|words| - 1])
    requires HeardAt(cfg, before, words[|words| - 1], s) && s.node == Revise
    ensures IsCheckOrder(t0, order) && SaysExactly(t0, s, words, order)
  {
    order := FinalStepSays(cfg, t0, before, words[|words| - 1], s, words[..|words| - 1]);
    assert words[..|words| - 1] + [words[|words| - 1]] == words;
  }

  lemma FinalStepSays(cfg: Config, t0: Tree, s: State, rs: seq<Outcome>, s': State, words: seq<seq<Outcome>>)
    returns (order: seq<Id>)
    requires WellFormed(t0) && Tells(t0, s) && Remembers(t0, s, words) && HeardAt(cfg, s, rs, s') && s'.node == Revise
    ensures IsCheckOrder(t0, order) && SaysExactly(t0, s', words + [rs], order)
  {
    order := OrderOfCheck(cfg, t0, s, s');
    FinalizedSays(cfg, t0, s, words, order);
    SameSaying(t0, s', words, order);
  }

  lemma OrderOfCheck(cfg: Config, t0: Tree, s: State, s': State) returns (order: seq<Id>)
    requires WellFormed(t0) && Tells(t0, s) && s.node != Execute && Step(cfg, s, s') && s'.node == Revise
    ensures s.node == Check && s' == Checked(cfg, s, order) && IsCheckOrder(t0, order)
    ensures forall id :: id in order ==> id in t0.goals && id != ROOT
  {
    order :| IsCheckOrder(s.tree, order) && s' == Checked(cfg, s, order);
    SameShapeSameOrder(s.tree, t0, order);
    OrderIsTheOthers(t0, order);
  }

  lemma SameShapeSameOrder(t: Tree, u: Tree, order: seq<Id>)
    requires SameShape(u, t) && IsCheckOrder(t, order)
    ensures IsCheckOrder(u, order)
  {
    forall id ensures Descendant(u, id) == Descendant(t, id) {
      SameShapeDescendant(u, t, id);
    }
    forall d: nat, id ensures Below(u, ROOT, d, id) == Below(t, ROOT, d, id) {
      SameShapeBelow(u, t, ROOT, d, id);
    }
  }

  lemma SameSaying(t0: Tree, s: State, words: seq<seq<Outcome>>, order: seq<Id>)
    requires SaysExactly(t0, s, words, order)
    ensures SaysExactly(t0, s, words + [[]], order)
  {
    SameTexts(t0, s.tree, words, order);
  }

  lemma {:induction false} SameTexts(t0: Tree, t: Tree, words: seq<seq<Outcome>>, order: seq<Id>)
    ensures TextsFor(t0, words + [[]], order) == TextsFor(t0, words, order)
    ensures MentionsFor(t0, t, words + [[]], order) == MentionsFor(t0, t, words, order)
    decreases |order|
  {
    if order != [] {
      QuietStepRemembers(words, order[0]);
      SameTexts(t0, t, words, order[1..]);
    }
  }

  /** In particular nothing a worker said last, and no failure, is dropped. */
  lemma AnswerTellsWhatWasSaid(cfg: Config, s0: State, words: seq<seq<Outcome>>, s: State, id: Id)
    requires Start(s0) && Hears(cfg, s0, words, s) && s.node == Revise && id in s0.tree.goals && id != ROOT
    ensures var word := LastWord(words, id);
            word.Some? && word.value.summary != ""
            ==> Occurs("**" + UpTo(s0.tree.goals[id].description, 80) + "**\n" + word.value.summary, s.answer)
    ensures id in s.tree.goals && s.tree.goals[id].status == Failed ==> Occurs(MentionFor(s0.tree, words, id), s.answer)
  {
    var order := AnswerSaysExactly(cfg, s0, words, s);
    DescendantsAreTheOthers(s0.tree, id);
    assert id in order;
    SaidOccurs(s0.tree, s, words, order, id);
  }

  lemma SaidOccurs(t0: Tree, s: State, words: seq<seq<Outcome>>, order: seq<Id>, id: Id)
    requires SaysExactly(t0, s, words, order) && id in order
    ensures Speaks(t0, words, id) ==> Occurs(TextFor(t0, words, id), s.answer)
    ensures id in t0.goals && id in s.tree.goals && s.tree.goals[id].status == Failed
            ==> Occurs(MentionFor(t0, words, id), s.answer)
  {
    var texts, mentions := TextsFor(t0, words, order), MentionsFor(t0, s.tree, words, order);
    var head := if texts == [] then "Task completed." else Join("\n\n", texts);
    if Speaks(t0, words, id) {
      var k := TextListed(t0, words, order, id);
      TextOccurs(texts, k, if mentions == [] then "" else "\n\nFailed subtasks: " + Join("; ", mentions));
    }
    if id in t0.goals && id in s.tree.goals && s.tree.goals[id].status == Failed {
      var k := MentionListed(t0, s.tree, words, order, id);
      MentionOccurs(head, mentions, k);
    }
  }

  lemma TextOccurs(texts: seq<string>, k: nat, tail: string)
    requires k < |texts|
    ensures Occurs(texts[k], Join("\n\n", texts) + tail)
  {
    JoinHolds("\n\n", texts, k);
    OccursBefore(texts[k], Join("\n\n", texts), tail);
  }

  lemma MentionOccurs(head: string, mentions: seq<string>, k: nat)
    requires k < |mentions|
    ensures Occurs(mentions[k], head + ("\n\nFailed subtasks: " + Join("; ", mentions)))
  {
    JoinHolds("; ", mentions, k);
    OccursAfter(mentions[k], "\n\nFailed subtasks: ", Join("; ", mentions));
    OccursAfter(mentions[k], head, "\n\nFailed subtasks: " + Join("; ", mentions));
  }

  lemma {:induction false} TextListed(t0: Tree, words: seq<seq<Outcome>>, order: seq<Id>, id: Id) returns (k: nat)
    requires id in order && Speaks(t0, words, id)
    ensures k < |TextsFor(t0, words, order)| && TextsFor(t0, words, order)[k] == TextFor(t0, words, id)
    decreases |order|
  {
    if order[0] == id {
      k := 0;
    } else {
      k := TextListed(t0, words, order[1..], id);
      k := if Speaks(t0, words, order[0]) then k + 1 else k;
    }
  }

  lemma {:induction false} MentionListed(t0: Tree, t: Tree, words: seq<seq<Outcome>>, order: seq<Id>, id: Id)
    returns (k: nat)
    requires id in order && id in t0.goals && id in t.goals && t.goals[id].status == Failed
    ensures k < |MentionsFor(t0, t, words, order)| && MentionsFor(t0, t, words, order)[k] == MentionFor(t0, words, id)
    decreases |order|
  {
    if order[0] == id {
      k := 0;
    } else {
      k := MentionListed(t0, t, words, order[1..], id);
      k := if order[0] in t0.goals && order[0] in t.goals && t.goals[order[0]].status == Failed then k + 1 else k;
    }
  }

  // ------------------------------------------------------------------ what kind of text it is, and its revision

  /** The text of the last unmarked success that is not empty. */
  function LastSuccess(markers: set<Id>, rs: seq<Outcome>): Option<string> {
    if rs == [] then None
    else
      var r := rs[|rs| - 1];
      if r.id !in markers && r.ok && r.summary != "" then Some(r.summary) else LastSuccess(markers, rs[..|rs| - 1])
  }

  lemma {:induction false} AppliedClassifies(cfg: Config, l: Ledger, rs: seq<Outcome>)
    requires forall i :: 0 <= i < |rs| ==> rs[i].id in l.tree.goals
    requires forall i, j :: 0 <= i < j < |rs| ==> rs[i].id != rs[j].id
    ensures AppliedAll(cfg, l, rs).artifact ==
              match LastSuccess(l.markers, rs) case None => l.artifact case Some(text) => Classify(text)
    decreases |rs|
  {
    if rs != [] {
      var n := |rs| - 1;
      AppliedClassifies(cfg, l, rs[..n]);
      AppliedElsewhere(cfg, l, rs[..n], rs[n].id);
    }
  }

  /** A pass takes the kind of artifact from the last success it records, whatever the failures say. */
  lemma PassClassifies(cfg: Config, s: State, rs: seq<Outcome>)
    requires ResultsFor(s.tree, rs) && rs != []
    ensures Executed(cfg, s, rs).artifact ==
              match LastSuccess(s.markers, rs) case None => Other case Some(text) => Classify(text)
  {
    assert Ready(s.tree, rs[0].id);
    AppliedClassifies(cfg, Ledger(s.tree, s.markers, Other), rs);
  }

  /** Text with any mark of code is code; other text is writing from the 201st character on. */
  lemma ClassifyExactly(text: string)
    ensures Classify(text) == Code <==>
              || HasPart(text, "```") || HasPart(text, "def ") || HasPart(text, "class ") || HasPart(text, "import ")
              || HasPart(text, "function ") || HasPart(text, "=>") || HasPart(text, "};") || HasPart(text, "public ")
    ensures Classify(text) == Writing <==> Classify(text) != Code && |Strip(text)| > 200
  {
    if text == "" {
      forall m | m in CODE_MARKERS ensures !HasPart(text, m) {
      }
    }
    assert CODE_MARKERS[0] == "```" && CODE_MARKERS[1] == "def " && CODE_MARKERS[2] == "class " && CODE_MARKERS[3] == "import ";
    assert CODE_MARKERS[4] == "function " && CODE_MARKERS[5] == "=>" && CODE_MARKERS[6] == "};" && CODE_MARKERS[7] == "public ";
  }

  /** The answer may be revised: revision is on and not used up, nothing failed, and the answer is neither code nor blank. */
  predicate MayRevise(cfg: Config, s: State) {
    && cfg.revisionEnabled && s.error.None? && s.artifact != Code && Strip(s.answer) != ""
    && 0 < cfg.maxRevisions && s.revisions < cfg.maxRevisions
  }

  ghost predicate DeliversAfter(cfg: Config, before: State, revised: string, s: State) {
    && s.answer == (if MayRevise(cfg, before) && revised != "" then revised else before.answer)
    && s.error == before.error && s.tree.goals.Keys == before.tree.goals.Keys
    && (forall id :: id in before.tree.goals && id != ROOT ==> s.tree.goals[id] == before.tree.goals[id])
  }

  lemma ReviseDelivers(cfg: Config, s: State, revised: string)
    ensures DeliversAfter(cfg, s, revised, Revised(cfg, s, revised))
  {
  }

  lemma EndComesFromRevise(cfg: Config, t0: Tree, s: State, s': State)
    requires Tells(t0, s) && Step(cfg, s, s') && s'.node == End && s'.answer != ""
    ensures s.node == Revise
  {
  }

  /** What the user gets at the end is the answer that the words call for, or its revision: the model's text, if the answer may
      be revised and that text is not empty. Errors and all other goals stay as they were. */
  lemma DeliveredExactly(cfg: Config, s0: State, words: seq<seq<Outcome>>, s: State)
    returns (before: State, order: seq<Id>, revised: string)
    requires Start(s0) && Hears(cfg, s0, words, s) && s.node == End
    ensures words != [] && before.node == Revise
    ensures IsCheckOrder(s0.tree, order) && SaysExactly(s0.tree, before, words[..|words| - 1], order)
    ensures DeliversAfter(cfg, before, revised, s)
    ensures ROOT in s.tree.goals && s.tree.goals[ROOT].result == Some(s.answer)
  {
    var n := |words| - 1;
    before :| Hears(cfg, s0, words[..n], before) && HeardAt(cfg, before, words[n], s);
    HearingTells(cfg, s0, words[..n], before);
    HearingTells(cfg, s0, words, s);
    revised := LastStepDelivers(cfg, s0.tree, before, words[n], s);
    order := AnswerSaysExactly(cfg, s0, words[..n], before);
  }

  lemma LastStepDelivers(cfg: Config, t0: Tree, s: State, rs: seq<Outcome>, s': State) returns (revised: string)
    requires Tells(t0, s) && Tells(t0, s') && HeardAt(cfg, s, rs, s') && s'.node == End
    ensures s.node == Revise && DeliversAfter(cfg, s, revised, s')
    ensures ROOT in s'.tree.goals && s'.tree.goals[ROOT].result == Some(s'.answer)
  {
    HeardIsStep(cfg, s, rs, s');
    EndComesFromRevise(cfg, t0, s, s');
    revised :| s' == Revised(cfg, s, revised);
    ReviseDelivers(cfg, s, revised);
  }
}
