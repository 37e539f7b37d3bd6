/** Repairing a message list before a model call: orphaned tool results are dropped, then illegal runs of one role are
    merged. */
module MessageRepair {
  import opened Common

  type CallId = string

  /** Message content; anything that is neither text nor absent is known by its string form. */
  datatype Content = Absent | Text(text: string) | Other(rendering: string)

  datatype Role = System | User | Assistant | Tool | Unlisted(name: string)

  datatype Message = Message(role: Role, content: Content, calls: seq<Option<CallId>>, answers: Option<CallId>)

  function ContentStr(c: Content): string {
    match c
    case Absent => ""
    case Text(text) => text
    case Other(rendering) => rendering
  }

  // ------------------------------------------------------------------ the two passes

  function DeclaredBy(m: Message): set<CallId> {
    if m.role == Assistant then set c | c in m.calls && c.Some? :: c.value else {}
  }

  function Declared(ms: seq<Message>): set<CallId> {
    if ms == [] then {} else Declared(ms[..|ms| - 1]) + DeclaredBy(ms[|ms| - 1])
  }

  predicate IsAnswer(m: Message, declared: set<CallId>) {
    m.answers.Some? && m.answers.value in declared
  }

  predicate IsOrphan(m: Message, declared: set<CallId>) {
    m.role == Tool && !IsAnswer(m, declared)
  }

  function WithoutOrphans(ms: seq<Message>): seq<Message> {
    if ms == [] then []
    else
      var before, last := ms[..|ms| - 1], ms[|ms| - 1];
      if IsOrphan(last, Declared(before)) then WithoutOrphans(before) else WithoutOrphans(before) + [last]
  }

  predicate IsPlainAssistant(m: Message) {
    m.role == Assistant && m.calls == []
  }

  predicate Mergeable(first: Message, second: Message) {
    (first.role == User && second.role == User) || (IsPlainAssistant(first) && IsPlainAssistant(second))
  }

  function Folded(first: Message, second: Message): Message {
    first.(content := Text(ContentStr(first.content) + "\n" + ContentStr(second.content)))
  }

  function Appended(out: seq<Message>, m: Message): seq<Message> {
    if out != [] && Mergeable(out[|out| - 1], m) then out[|out| - 1 := Folded(out[|out| - 1], m)] else out + [m]
  }

  function Merged(ms: seq<Message>): seq<Message> {
    if ms == [] then [] else Appended(Merged(ms[..|ms| - 1]), ms[|ms| - 1])
  }

  function Sanitized(ms: seq<Message>): seq<Message> {
    Merged(WithoutOrphans(ms))
  }

  lemma OneMoreDeclared(ms: seq<Message>, m: Message)
    ensures Declared(ms + [m]) == Declared(ms) + DeclaredBy(m)
  {
    assert (ms + [m])[..|ms|] == ms;
  }

  lemma OneMoreDropped(ms: seq<Message>, m: Message)
    ensures WithoutOrphans(ms + [m]) ==
              if IsOrphan(m, Declared(ms)) then WithoutOrphans(ms) else WithoutOrphans(ms) + [m]
  {
    assert (ms + [m])[..|ms|] == ms;
  }

  lemma OneMoreMerged(ms: seq<Message>, m: Message)
    ensures Merged(ms + [m]) == Appended(Merged(ms), m)
  {
    assert (ms + [m])[..|ms|] == ms;
  }

  lemma PassesGrow(ms: seq<Message>, i: nat)
    requires i < |ms|
    ensures Declared(ms[..i + 1]) == Declared(ms[..i]) + DeclaredBy(ms[i])
    ensures WithoutOrphans(ms[..i + 1]) ==
              if IsOrphan(ms[i], Declared(ms[..i])) then WithoutOrphans(ms[..i]) else WithoutOrphans(ms[..i]) + [ms[i]]
    ensures Merged(ms[..i + 1]) == Appended(Merged(ms[..i]), ms[i])
  {
    assert ms[..i + 1] == ms[..i] + [ms[i]];
    OneMoreDeclared(ms[..i], ms[i]);
    OneMoreDropped(ms[..i], ms[i]);
    OneMoreMerged(ms[..i], ms[i]);
  }

  method DropOrphanToolResults(ms: seq<Message>) returns (out: seq<Message>)
    ensures out == WithoutOrphans(ms)
  {
    var declared: set<CallId> := {};
    out := [];
    for i := 0 to |ms|
      invariant declared == Declared(ms[..i]) && out == WithoutOrphans(ms[..i])
    {
      var m := ms[i];
      PassesGrow(ms, i);
      if m.role == Assistant {
        declared := declared + set c | c in m.calls && c.Some? :: c.value;
        out := out + [m];
      } else if m.role == Tool {
        if m.answers.Some? && m.answers.value in declared {
          out := out + [m];
        }
      } else {
        out := out + [m];
      }
    }
    assert ms[..|ms|] == ms;
  }

  method MergeAdjacentSameRole(ms: seq<Message>) returns (out: seq<Message>)
    ensures out == Merged(ms)
  {
    out := [];
    for i := 0 to |ms|
      invariant out == Merged(ms[..i])
    {
      var m := ms[i];
      PassesGrow(ms, i);
      if out != [] && out[|out| - 1].role == User && m.role == User {
        out := out[|out| - 1 := Folded(out[|out| - 1], m)];
      } else if out != [] && IsPlainAssistant(out[|out| - 1]) && IsPlainAssistant(m) {
        out := out[|out| - 1 := Folded(out[|out| - 1], m)];
      } else {
        out := out + [m];
      }
    }
    assert ms[..|ms|] == ms;
  }

  method SanitizeMessages(ms: seq<Message>) returns (out: seq<Message>)
    ensures out == Sanitized(ms)
  {
    if ms == [] {
      return [];
    }
    var stage1 := DropOrphanToolResults(ms);
    out := MergeAdjacentSameRole(stage1);
  }

  // ------------------------------------------------------------------ what a well-formed list is

  ghost predicate NoOrphans(ms: seq<Message>) {
    forall i :: 0 <= i < |ms| ==> !IsOrphan(ms[i], Declared(ms[..i]))
  }

  ghost predicate NoAdjacent(ms: seq<Message>) {
    forall i :: 0 < i < |ms| ==> !Mergeable(ms[i - 1], ms[i])
  }

  function Answered(ms: seq<Message>): set<CallId> {
    if ms == [] then {}
    else
      var before, last := ms[..|ms| - 1], ms[|ms| - 1];
      Answered(before) + AnsweredBy(last, Declared(before))
  }

  function AnsweredBy(m: Message, declared: set<CallId>): set<CallId> {
    if m.role == Tool && IsAnswer(m, declared) then {m.answers.value} else {}
  }

  datatype Problem = AdjacentAssistant(at: nat) | AdjacentUser(at: nat) | Orphaned(at: nat)

  /** The problem that a message brings at a place, after `prev` and with these calls declared. */
  function ProblemsOf(m: Message, at: nat, prev: Option<Message>, declared: set<CallId>): seq<Problem> {
    if IsOrphan(m, declared) then [Orphaned(at)]
    else if prev.None? || !Mergeable(prev.value, m) then []
    else if m.role == User then [AdjacentUser(at)]
    else [AdjacentAssistant(at)]
  }

  function LastOf(ms: seq<Message>): Option<Message> {
    if ms == [] then None else Some(ms[|ms| - 1])
  }

  function Problems(ms: seq<Message>): seq<Problem> {
    if ms == [] then []
    else
      var before := ms[..|ms| - 1];
      Problems(before) + ProblemsOf(ms[|ms| - 1], |before|, LastOf(before), Declared(before))
  }

  lemma OneMoreAnswered(ms: seq<Message>, m: Message)
    ensures Answered(ms + [m]) == Answered(ms) + AnsweredBy(m, Declared(ms))
  {
    assert (ms + [m])[..|ms|] == ms;
  }

  lemma OneMoreProblem(ms: seq<Message>, m: Message)
    ensures Problems(ms + [m]) == Problems(ms) + ProblemsOf(m, |ms|, LastOf(ms), Declared(ms))
  {
    assert (ms + [m])[..|ms|] == ms;
  }

  lemma PrefixGrows(ms: seq<Message>, i: nat)
    requires i < |ms|
    ensures LastOf(ms[..i + 1]) == Some(ms[i])
    ensures Declared(ms[..i + 1]) == Declared(ms[..i]) + DeclaredBy(ms[i])
    ensures Answered(ms[..i + 1]) == Answered(ms[..i]) + AnsweredBy(ms[i], Declared(ms[..i]))
    ensures Problems(ms[..i + 1]) == Problems(ms[..i]) + ProblemsOf(ms[i], i, LastOf(ms[..i]), Declared(ms[..i]))
  {
    assert ms[..i + 1] == ms[..i] + [ms[i]];
    OneMoreDeclared(ms[..i], ms[i]);
    OneMoreAnswered(ms[..i], ms[i]);
    OneMoreProblem(ms[..i], ms[i]);
  }

  /** The structural problems of a list, in order, and the calls that no tool result answers. */
  method ValidateMessages(ms: seq<Message>) returns (problems: seq<Problem>, dangling: set<CallId>)
    ensures problems == Problems(ms) && dangling == Declared(ms) - Answered(ms)
  {
    problems := [];
    var declared: set<CallId>, answered: set<CallId>, prev: Option<Message> := {}, {}, None;
    for i := 0 to |ms|
      invariant declared == Declared(ms[..i]) && answered == Answered(ms[..i])
      invariant problems == Problems(ms[..i]) && prev == LastOf(ms[..i])
    {
      var m := ms[i];
      PrefixGrows(ms, i);
      if m.role == Assistant {
        declared := declared + DeclaredBy(m);
        if prev.Some? && prev.value.role == Assistant && IsPlainAssistant(m) && prev.value.calls == [] {
          problems := problems + [AdjacentAssistant(i)];
        }
      } else if m.role == Tool {
        if m.answers.None? || m.answers.value !in declared {
          problems := problems + [Orphaned(i)];
        } else {
          answered := answered + {m.answers.value};
        }
      } else if m.role == User {
        if prev.Some? && prev.value.role == User {
          problems := problems + [AdjacentUser(i)];
        }
      }
      prev := Some(m);
    }
    assert ms[..|ms|] == ms;
    dangling := declared - answered;
  }

  lemma OneMoreOrphan(ms: seq<Message>, m: Message)
    ensures NoOrphans(ms + [m]) <==> NoOrphans(ms) && !IsOrphan(m, Declared(ms))
  {
    var longer := ms + [m];
    assert longer[..|ms|] == ms;
    assert forall j :: 0 <= j < |ms| ==> longer[..j] == ms[..j] && longer[j] == ms[j];
    if NoOrphans(longer) {
      assert !IsOrphan(longer[|ms|], Declared(longer[..|ms|]));
      forall j | 0 <= j < |ms| ensures !IsOrphan(ms[j], Declared(ms[..j])) {
        assert !IsOrphan(longer[j], Declared(longer[..j]));
      }
    }
  }

  lemma OneMoreAdjacent(ms: seq<Message>, m: Message)
    ensures NoAdjacent(ms + [m]) <==> NoAdjacent(ms) && !(ms != [] && Mergeable(ms[|ms| - 1], m))
  {
    var longer := ms + [m];
    assert forall j :: 0 <= j < |ms| ==> longer[j] == ms[j];
    if NoAdjacent(longer) {
      assert ms != [] ==> !Mergeable(longer[|ms| - 1], longer[|ms|]);
      forall j | 0 < j < |ms| ensures !Mergeable(ms[j - 1], ms[j]) {
        assert !Mergeable(longer[j - 1], longer[j]);
      }
    }
  }

  lemma {:induction false} NoProblemsExactlyWhen(ms: seq<Message>)
    ensures Problems(ms) == [] <==> NoOrphans(ms) && NoAdjacent(ms)
    decreases |ms|
  {
    if ms != [] {
      var before, last := ms[..|ms| - 1], ms[|ms| - 1];
      assert ms == before + [last];
      NoProblemsExactlyWhen(before);
      OneMoreProblem(before, last);
      OneMoreOrphan(before, last);
      OneMoreAdjacent(before, last);
    }
  }

  // ------------------------------------------------------------------ dropping orphans

  /** Nothing the pass removes ever declared a call, so what counts as declared does not change. */
  lemma {:induction false} DroppingKeepsDeclared(ms: seq<Message>)
    ensures Declared(WithoutOrphans(ms)) == Declared(ms)
    decreases |ms|
  {
    if ms != [] {
      var before, last := ms[..|ms| - 1], ms[|ms| - 1];
      DroppingKeepsDeclared(before);
      OneMoreDeclared(WithoutOrphans(before), last);
    }
  }

  lemma {:induction false} DroppingKeepsAnswered(ms: seq<Message>)
    ensures Answered(WithoutOrphans(ms)) == Answered(ms)
    decreases |ms|
  {
    if ms != [] {
      var before, last := ms[..|ms| - 1], ms[|ms| - 1];
      DroppingKeepsAnswered(before);
      DroppingKeepsDeclared(before);
      OneMoreAnswered(WithoutOrphans(before), last);
    }
  }

  lemma {:induction false} DroppingLeavesNoOrphans(ms: seq<Message>)
    ensures NoOrphans(WithoutOrphans(ms))
    decreases |ms|
  {
    if ms != [] {
      var before, last := ms[..|ms| - 1], ms[|ms| - 1];
      DroppingLeavesNoOrphans(before);
      DroppingKeepsDeclared(before);
      OneMoreOrphan(WithoutOrphans(before), last);
    }
  }

  lemma {:induction false} NothingToDrop(ms: seq<Message>)
    requires NoOrphans(ms)
    ensures WithoutOrphans(ms) == ms
    decreases |ms|
  {
    if ms != [] {
      var before, last := ms[..|ms| - 1], ms[|ms| - 1];
      assert ms == before + [last];
      OneMoreOrphan(before, last);
      NothingToDrop(before);
    }
  }

  // ------------------------------------------------------------------ merging

  /** Folding a message into the end of a list declares and answers what appending it would. */
  lemma FoldingKeepsDeclared(start: seq<Message>, last: Message, m: Message)
    requires Mergeable(last, m)
    ensures Declared(start + [Folded(last, m)]) == Declared(start + [last] + [m])
  {
    OneMoreDeclared(start + [last], m);
    OneMoreDeclared(start, last);
    OneMoreDeclared(start, Folded(last, m));
  }

  lemma FoldingKeepsAnswered(start: seq<Message>, last: Message, m: Message)
    requires Mergeable(last, m)
    ensures Answered(start + [Folded(last, m)]) == Answered(start + [last] + [m])
  {
    OneMoreAnswered(start + [last], m);
    OneMoreAnswered(start, last);
    OneMoreAnswered(start, Folded(last, m));
  }

  lemma FoldingKeepsShape(start: seq<Message>, last: Message, m: Message)
    requires Mergeable(last, m)
    ensures NoOrphans(start + [Folded(last, m)]) <==> NoOrphans(start + [last] + [m])
    ensures NoAdjacent(start + [last]) ==> NoAdjacent(start + [Folded(last, m)])
  {
    OneMoreOrphan(start + [last], m);
    OneMoreOrphan(start, last);
    OneMoreOrphan(start, Folded(last, m));
    OneMoreAdjacent(start, last);
    OneMoreAdjacent(start, Folded(last, m));
  }

  lemma AppendingKeeps(out: seq<Message>, m: Message)
    ensures Declared(Appended(out, m)) == Declared(out + [m]) && Answered(Appended(out, m)) == Answered(out + [m])
    ensures NoOrphans(Appended(out, m)) <==> NoOrphans(out + [m])
    ensures NoAdjacent(out) ==> NoAdjacent(Appended(out, m))
  {
    if out != [] && Mergeable(out[|out| - 1], m) {
      var start, last := out[..|out| - 1], out[|out| - 1];
      assert out == start + [last];
      assert Appended(out, m) == start + [Folded(last, m)];
      FoldingKeepsDeclared(start, last, m);
      FoldingKeepsAnswered(start, last, m);
      FoldingKeepsShape(start, last, m);
    } else {
      OneMoreAdjacent(out, m);
    }
  }

  lemma {:induction false} MergingKeepsDeclared(ms: seq<Message>)
    ensures Declared(Merged(ms)) == Declared(ms)
    decreases |ms|
  {
    if ms != [] {
      var before, last := ms[..|ms| - 1], ms[|ms| - 1];
      MergingKeepsDeclared(before);
      AppendingKeeps(Merged(before), last);
      OneMoreDeclared(Merged(before), last);
    }
  }

  lemma {:induction false} MergingKeepsAnswered(ms: seq<Message>)
    ensures Answered(Merged(ms)) == Answered(ms)
    decreases |ms|
  {
    if ms != [] {
      var before, last := ms[..|ms| - 1], ms[|ms| - 1];
      MergingKeepsAnswered(before);
      MergingKeepsDeclared(before);
      AppendingKeeps(Merged(before), last);
      OneMoreAnswered(Merged(before), last);
    }
  }

  lemma {:induction false} MergingKeepsShape(ms: seq<Message>)
    ensures NoOrphans(Merged(ms)) <==> NoOrphans(ms)
    ensures NoAdjacent(Merged(ms))
    decreases |ms|
  {
    if ms != [] {
      var before, last := ms[..|ms| - 1], ms[|ms| - 1];
      assert ms == before + [last];
      MergingKeepsShape(before);
      MergingKeepsDeclared(before);
      AppendingKeeps(Merged(before), last);
      OneMoreOrphan(before, last);
      OneMoreOrphan(Merged(before), last);
    }
  }

  lemma {:induction false} NothingToMerge(ms: seq<Message>)
    requires NoAdjacent(ms)
    ensures Merged(ms) == ms
    decreases |ms|
  {
    if ms != [] {
      var before, last := ms[..|ms| - 1], ms[|ms| - 1];
      assert ms == before + [last];
      OneMoreAdjacent(before, last);
      NothingToMerge(before);
    }
  }

  // ------------------------------------------------------------------ the theorems

  /** The repaired list has no problem left but dangling calls, and those are exactly the ones the input had. */
  lemma SanitizedIsValid(ms: seq<Message>)
    ensures var out := Sanitized(ms);
            && Problems(out) == [] && NoOrphans(out) && NoAdjacent(out)
            && Declared(out) - Answered(out) == Declared(ms) - Answered(ms)
  {
    DroppingKeepsDeclared(ms);
    DroppingKeepsAnswered(ms);
    DroppingLeavesNoOrphans(ms);
    MergingKeepsDeclared(WithoutOrphans(ms));
    MergingKeepsAnswered(WithoutOrphans(ms));
    MergingKeepsShape(WithoutOrphans(ms));
    NoProblemsExactlyWhen(Sanitized(ms));
  }

  lemma SanitizingIsIdempotent(ms: seq<Message>)
    ensures Sanitized(Sanitized(ms)) == Sanitized(ms)
  {
    SanitizedIsValid(ms);
    NothingToDrop(Sanitized(ms));
    NothingToMerge(Sanitized(ms));
  }

  /** A list is left alone exactly when it had no problem to repair. */
  lemma UntouchedExactlyWhen(ms: seq<Message>)
    ensures Sanitized(ms) == ms <==> Problems(ms) == []
  {
    SanitizedIsValid(ms);
    NoProblemsExactlyWhen(ms);
    if NoOrphans(ms) && NoAdjacent(ms) {
      NothingToDrop(ms);
      NothingToMerge(ms);
    }
  }

  /** The messages that are never merged: everything but user turns and plain assistant turns. */
  function Fixed(ms: seq<Message>): seq<Message> {
    if ms == [] then []
    else
      var last := ms[|ms| - 1];
      var before := Fixed(ms[..|ms| - 1]);
      if last.role == User || IsPlainAssistant(last) then before else before + [last]
  }

  /** The assistant turns that call tools. */
  function Calling(ms: seq<Message>): seq<Message> {
    if ms == [] then []
    else
      var last := ms[|ms| - 1];
      var before := Calling(ms[..|ms| - 1]);
      if last.role == Assistant && last.calls != [] then before + [last] else before
  }

  /** How a content reads. */
  function Line(c: Content): string {
    match c
    case Absent => "\n"
    case Text(text) => text + "\n"
    case Other(rendering) => rendering + "\n"
  }

  /** Everything said by these roles, one line each, in order. */
  function Said(ms: seq<Message>, roles: set<Role>): string {
    if ms == [] then ""
    else
      var last := ms[|ms| - 1];
      var before := Said(ms[..|ms| - 1], roles);
      if last.role in roles then before + Line(last.content) else before
  }

  lemma OneMoreSaid(ms: seq<Message>, m: Message, roles: set<Role>)
    ensures Said(ms + [m], roles) ==
              if m.role in roles then Said(ms, roles) + Line(m.content) else Said(ms, roles)
  {
    assert (ms + [m])[..|ms|] == ms;
  }

  lemma OneMoreFixed(ms: seq<Message>, m: Message)
    ensures Fixed(ms + [m]) == if m.role == User || IsPlainAssistant(m) then Fixed(ms) else Fixed(ms) + [m]
    ensures Calling(ms + [m]) == if m.role == Assistant && m.calls != [] then Calling(ms) + [m] else Calling(ms)
  {
    assert (ms + [m])[..|ms|] == ms;
  }

  lemma FoldReads(first: Message, second: Message)
    ensures Line(Folded(first, second).content) == Line(first.content) + Line(second.content)
  {
  }

  lemma FoldedTail(start: seq<Message>, last: Message, m: Message, roles: set<Role>)
    requires last.role == m.role
    ensures Said(start + [Folded(last, m)], roles) == Said(start + [last] + [m], roles)
  {
    OneMoreSaid(start + [last], m, roles);
    OneMoreSaid(start, last, roles);
    OneMoreSaid(start, Folded(last, m), roles);
    FoldReads(last, m);
    Reassociate(Said(start, roles), Line(last.content), Line(m.content));
  }

  lemma Reassociate(a: string, b: string, c: string)
    ensures a + (b + c) == a + b + c
  {
  }

  lemma AppendedFolds(out: seq<Message>, m: Message) returns (start: seq<Message>, last: Message)
    requires out != [] && Mergeable(out[|out| - 1], m)
    ensures out == start + [last] && Appended(out, m) == start + [Folded(last, m)] && last.role == m.role
  {
    start, last := out[..|out| - 1], out[|out| - 1];
  }

  lemma AppendingKeepsText(out: seq<Message>, m: Message, roles: set<Role>)
    ensures Said(Appended(out, m), roles) == Said(out + [m], roles)
  {
    if out != [] && Mergeable(out[|out| - 1], m) {
      var start, last := AppendedFolds(out, m);
      FoldedTail(start, last, m, roles);
    }
  }

  lemma AppendingKeepsFixed(out: seq<Message>, m: Message)
    ensures Fixed(Appended(out, m)) == Fixed(out + [m]) && Calling(Appended(out, m)) == Calling(out + [m])
  {
    if out != [] && Mergeable(out[|out| - 1], m) {
      var start, last := out[..|out| - 1], out[|out| - 1];
      assert out == start + [last] && Appended(out, m) == start + [Folded(last, m)];
      OneMoreFixed(out, m);
      OneMoreFixed(start, Folded(last, m));
    }
  }

  lemma {:induction false} MergingKeepsText(ms: seq<Message>, roles: set<Role>)
    ensures Said(Merged(ms), roles) == Said(ms, roles)
    decreases |ms|
  {
    if ms != [] {
      var before, last := ms[..|ms| - 1], ms[|ms| - 1];
      MergingKeepsText(before, roles);
      AppendingKeepsText(Merged(before), last, roles);
      OneMoreSaid(Merged(before), last, roles);
    }
  }

  lemma {:induction false} MergingKeepsFixed(ms: seq<Message>)
    ensures Fixed(Merged(ms)) == Fixed(ms) && Calling(Merged(ms)) == Calling(ms)
    decreases |ms|
  {
    if ms != [] {
      var before, last := ms[..|ms| - 1], ms[|ms| - 1];
      MergingKeepsFixed(before);
      AppendingKeepsFixed(Merged(before), last);
      OneMoreFixed(Merged(before), last);
    }
  }

  lemma {:induction false} DroppingKeepsText(ms: seq<Message>, roles: set<Role>)
    requires Tool !in roles
    ensures Said(WithoutOrphans(ms), roles) == Said(ms, roles)
    decreases |ms|
  {
    if ms != [] {
      var before, last := ms[..|ms| - 1], ms[|ms| - 1];
      DroppingKeepsText(before, roles);
      OneMoreSaid(WithoutOrphans(before), last, roles);
    }
  }

  lemma {:induction false} DroppingKeepsCalling(ms: seq<Message>)
    ensures Calling(WithoutOrphans(ms)) == Calling(ms)
    decreases |ms|
  {
    if ms != [] {
      var before, last := ms[..|ms| - 1], ms[|ms| - 1];
      DroppingKeepsCalling(before);
      OneMoreFixed(WithoutOrphans(before), last);
    }
  }

  /** No text is lost: for any roles but `Tool`, what they said reads the same, line for line, before and after. */
  lemma TextIsKept(ms: seq<Message>, roles: set<Role>)
    requires Tool !in roles
    ensures Said(Sanitized(ms), roles) == Said(ms, roles)
  {
    DroppingKeepsText(ms, roles);
    MergingKeepsText(WithoutOrphans(ms), roles);
  }

  /** Every assistant turn with tool calls survives as it was and in order, and so does every tool result that was not an
      orphan. */
  lemma CallsAreKept(ms: seq<Message>)
    ensures Calling(Sanitized(ms)) == Calling(ms)
    ensures Fixed(Sanitized(ms)) == Fixed(WithoutOrphans(ms))
  {
    DroppingKeepsCalling(ms);
    MergingKeepsFixed(WithoutOrphans(ms));
  }

  lemma AppendingKeepsHead(head: seq<Message>, out: seq<Message>, m: Message)
    requires head <= out && forall h :: h in head ==> h.role == System
    ensures head <= Appended(out, m)
  {
    if out != [] && |out| == |head| {
      assert out[|out| - 1] in head;
    }
  }

  /** System messages at the head stay there unchanged, whatever follows. */
  lemma {:induction false} HeadStays(head: seq<Message>, rest: seq<Message>)
    requires forall h :: h in head ==> h.role == System
    ensures head <= Sanitized(head + rest)
    decreases |rest|
  {
    if rest == [] {
      assert head + rest == head;
      NothingToDrop(head);
      NothingToMerge(head);
    } else {
      var before, last := rest[..|rest| - 1], rest[|rest| - 1];
      assert head + rest == (head + before) + [last];
      HeadStays(head, before);
      OneMoreDropped(head + before, last);
      OneMoreMerged(WithoutOrphans(head + before), last);
      AppendingKeepsHead(head, Sanitized(head + before), last);
    }
  }

  /** The order of the passes matters: merging first can leave two user turns side by side. */
  lemma MergingFirstFails() returns (ms: seq<Message>)
    ensures !NoAdjacent(WithoutOrphans(Merged(ms)))
    ensures Sanitized(ms) != WithoutOrphans(Merged(ms))
  {
    var ask := Message(User, Text("a"), [], None);
    var lost := Message(Tool, Text("r"), [], Some("t"));
    ms := [ask, lost, ask];
    var two := [ask, lost];
    assert ms == two + [ask] && two == [ask] + [lost] && [ask] == [] + [ask];
    OneMoreMerged([], ask);
    OneMoreMerged([ask], lost);
    OneMoreMerged(two, ask);
    assert Merged(ms) == ms;
    OneMoreDeclared([], ask);
    OneMoreDropped([], ask);
    OneMoreDropped([ask], lost);
    OneMoreDropped(two, ask);
    assert WithoutOrphans(ms) == [ask, ask];
    assert Mergeable(WithoutOrphans(ms)[0], WithoutOrphans(ms)[1]);
    SanitizedIsValid(ms);
  }

  // ------------------------------------------------------------------ what validation reports

  /** An assistant message before the `n`-th has called it. */
  ghost predicate CalledBefore(ms: seq<Message>, n: nat, id: CallId) {
    exists j :: 0 <= j < n && j < |ms| && ms[j].role == Assistant && Some(id) in ms[j].calls
  }

  ghost predicate AnswersNothing(ms: seq<Message>, i: nat) {
    i < |ms| && ms[i].role == Tool && (ms[i].answers.None? || !CalledBefore(ms, i, ms[i].answers.value))
  }

  ghost predicate AnswersAt(ms: seq<Message>, i: nat, id: CallId) {
    i < |ms| && ms[i].role == Tool && ms[i].answers == Some(id) && CalledBefore(ms, i, id)
  }

  lemma CalledBeforePrefix(ms: seq<Message>, n: nat, id: CallId)
    requires ms != [] && n < |ms|
    ensures CalledBefore(ms[..|ms| - 1], n, id) == CalledBefore(ms, n, id)
  {
    if CalledBefore(ms, n, id) {
      var j :| 0 <= j < n && j < |ms| && ms[j].role == Assistant && Some(id) in ms[j].calls;
      assert ms[..|ms| - 1][j] == ms[j];
    }
  }

  lemma {:induction false} DeclaredIsCalled(ms: seq<Message>, id: CallId)
    ensures id in Declared(ms) <==> CalledBefore(ms, |ms|, id)
    decreases |ms|
  {
    if ms != [] {
      var n := |ms| - 1;
      DeclaredIsCalled(ms[..n], id);
      CalledBeforePrefix(ms, n, id);
      assert Some(id) in ms[n].calls ==> Some(id).value == id;
      if CalledBefore(ms, n, id) {
        var j :| 0 <= j < n && j < |ms| && ms[j].role == Assistant && Some(id) in ms[j].calls;
        assert CalledBefore(ms, |ms|, id);
      }
    }
  }

  lemma {:induction false} OrphansAreExact(ms: seq<Message>, i: nat)
    ensures Orphaned(i) in Problems(ms) <==> AnswersNothing(ms, i)
    decreases |ms|
  {
    if ms != [] {
      var n := |ms| - 1;
      OrphansAreExact(ms[..n], i);
      if i <= n && ms[i].answers.Some? {
        CalledBeforePrefix(ms, i, ms[i].answers.value);
        DeclaredIsCalled(ms[..n], ms[i].answers.value);
      }
    }
  }

  lemma {:induction false} NeighboursAreExact(ms: seq<Message>, i: nat)
    ensures AdjacentUser(i) in Problems(ms) <==> 0 < i < |ms| && ms[i - 1].role == User && ms[i].role == User
    ensures AdjacentAssistant(i) in Problems(ms) <==>
              0 < i < |ms| && ms[i - 1].role == Assistant && ms[i - 1].calls == [] && ms[i].role == Assistant && ms[i].calls == []
    decreases |ms|
  {
    if ms != [] {
      NeighboursAreExact(ms[..|ms| - 1], i);
    }
  }

  /** Validation reports at each place exactly what is wrong there: a tool result that answers no earlier call, a user message
      after a user message, a plain assistant message after a plain assistant message. */
  lemma ProblemsAreExact(ms: seq<Message>, i: nat)
    ensures Orphaned(i) in Problems(ms) <==> AnswersNothing(ms, i)
    ensures AdjacentUser(i) in Problems(ms) <==> 0 < i < |ms| && ms[i - 1].role == User && ms[i].role == User
    ensures AdjacentAssistant(i) in Problems(ms) <==>
              0 < i < |ms| && ms[i - 1].role == Assistant && ms[i - 1].calls == [] && ms[i].role == Assistant && ms[i].calls == []
  {
    OrphansAreExact(ms, i);
    NeighboursAreExact(ms, i);
  }

  lemma {:induction false} AnsweredIsAnswered(ms: seq<Message>, id: CallId)
    ensures id in Answered(ms) <==> exists i :: AnswersAt(ms, i, id)
    decreases |ms|
  {
    if ms != [] {
      var n := |ms| - 1;
      AnsweredIsAnswered(ms[..n], id);
      CalledBeforePrefix(ms, n, id);
      DeclaredIsCalled(ms[..n], id);
      forall i: nat | i < n ensures AnswersAt(ms[..n], i, id) == AnswersAt(ms, i, id) {
        CalledBeforePrefix(ms, i, id);
      }
      assert AnswersAt(ms, n, id) <==> id in AnsweredBy(ms[n], Declared(ms[..n]));
      if id in Answered(ms[..n]) {
        var i :| AnswersAt(ms[..n], i, id);
        assert AnswersAt(ms, i, id);
      }
    }
  }

  /** The dangling calls are those that an assistant message made and no later tool result answers. */
  lemma DanglingExactlyWhen(ms: seq<Message>, id: CallId)
    ensures id in Declared(ms) - Answered(ms) <==> CalledBefore(ms, |ms|, id) && !exists i :: AnswersAt(ms, i, id)
  {
    DeclaredIsCalled(ms, id);
    AnsweredIsAnswered(ms, id);
  }
}
