/** Summarising old turns behind a watermark. The turns themselves are never deleted; model replies, and which of the
    store's writes fail, are arbitrary inputs. A key that is absent reads as the empty string. */
module Compaction {
  import opened Common

  const BLOCK_SIZE: nat := 20
  const KEEP_RECENT: nat := 15
  const RECENT_LIMIT: nat := 50

  datatype Turn = Turn(number: int, role: string, text: string)

  class SessionStore {
    var turns: seq<Turn>

    constructor ()
      ensures turns == []
    {
      turns := [];
    }

    method AddTurn(role: string, text: string)
      modifies this
      ensures turns == Added(old(turns), role, text)
    {
      turns := turns + [Turn(|turns|, role, text)];
    }
  }

  function Added(turns: seq<Turn>, role: string, text: string): seq<Turn> {
    turns + [Turn(|turns|, role, text)]
  }

  /** The turns whose number is above `low` and at most `high`, in order. */
  function Between(turns: seq<Turn>, low: int, high: int): seq<Turn> {
    if turns == [] then []
    else
      var before, last := Between(turns[..|turns| - 1], low, high), turns[|turns| - 1];
      if low < last.number <= high then before + [last] else before
  }

  function ToCompact(turns: seq<Turn>, watermark: int): seq<Turn> {
    if turns == [] then [] else Between(turns, watermark, turns[|turns| - 1].number - KEEP_RECENT)
  }

  /** The newest turns after the watermark, at most `RECENT_LIMIT`, in order. */
  function Recent(turns: seq<Turn>, watermark: int): seq<Turn> {
    if turns == [] then []
    else From(Between(turns, watermark, turns[|turns| - 1].number), 0 - RECENT_LIMIT)
  }

  function Blocks(turns: seq<Turn>): seq<seq<Turn>> {
    if |turns| <= BLOCK_SIZE then (if turns == [] then [] else [turns])
    else [turns[..BLOCK_SIZE]] + Blocks(turns[BLOCK_SIZE..])
  }

  function Flatten(blocks: seq<seq<Turn>>): seq<Turn> {
    if blocks == [] then [] else blocks[0] + Flatten(blocks[1..])
  }

  /** What the outside world does during one compaction: the model's summary of the new turns and its merge with the old
      one (`None` when the model fails), and whether each write goes through. */
  datatype Script = Script(
    summarised: Option<string>,
    merged: Option<string>,
    anchorWritten: bool,
    summaryWritten: bool,
    watermarkWritten: bool)

  datatype Memory = Memory(turns: seq<Turn>, summary: string, anchor: string, watermark: int)

  function Compacted(m: Memory, s: Script): Memory {
    var todo := ToCompact(m.turns, m.watermark);
    if |m.turns| <= KEEP_RECENT || todo == [] || s.summarised.None? || (m.anchor == "" && !s.anchorWritten) then
      m
    else
      var m' := if m.anchor == "" then m.(anchor := s.summarised.value) else m;
      var final := if m.summary != "" then s.merged else s.summarised;
      if final.None? || !s.summaryWritten || !s.watermarkWritten then m'
      else m'.(summary := final.value, watermark := todo[|todo| - 1].number)
  }

  class ContextManager {
    const session: SessionStore
    var summary: string
    var anchor: string
    var watermark: int

    function View(): Memory
      reads this, session
    {
      Memory(session.turns, summary, anchor, watermark)
    }

    constructor (session: SessionStore)
      ensures this.session == session && View() == Memory(session.turns, "", "", -1)
    {
      this.session := session;
      summary, anchor, watermark := "", "", -1;
    }

    method Eligible(turns: seq<Turn>) returns (todo: seq<Turn>)
      requires turns != []
      ensures todo == ToCompact(turns, watermark)
    {
      var threshold := turns[|turns| - 1].number - KEEP_RECENT;
      todo := [];
      for i := 0 to |turns|
        invariant todo == Between(turns[..i], watermark, threshold)
      {
        assert turns[..i + 1][..i] == turns[..i];
        if watermark < turns[i].number <= threshold {
          todo := todo + [turns[i]];
        }
      }
      assert turns[..|turns|] == turns;
    }

    /** One compaction. The summary is put back when either write fails. */
    method FullCompact(s: Script) returns (ok: bool)
      modifies this
      ensures View() == Compacted(old(View()), s)
      ensures ok <== watermark != old(watermark)
    {
      if |session.turns| <= KEEP_RECENT {
        return true;
      }
      var todo := Eligible(session.turns);
      if todo == [] {
        return true;
      }
      if s.summarised.None? {
        return false;
      }
      if anchor == "" {
        if !s.anchorWritten {
          return false;
        }
        anchor := s.summarised.value;
      }
      var oldSummary, final := summary, s.summarised;
      if oldSummary != "" {
        final := s.merged;
      }
      if final.None? {
        return false;
      }
      if !s.summaryWritten {
        summary := oldSummary;
        return false;
      }
      summary := final.value;
      if !s.watermarkWritten {
        summary := oldSummary;
        return false;
      }
      watermark := todo[|todo| - 1].number;
      ok := true;
    }
  }

  /** The fixed-size blocks that are summarised in parallel. */
  method SplitIntoBlocks(turns: seq<Turn>) returns (blocks: seq<seq<Turn>>)
    ensures blocks == Blocks(turns)
  {
    blocks := [];
    var i := 0;
    while i < |turns|
      invariant 0 <= i
      invariant blocks + Blocks(turns[Min(i, |turns|)..]) == Blocks(turns)
    {
      var block := turns[i..Min(i + BLOCK_SIZE, |turns|)];
      assert i + BLOCK_SIZE < |turns| ==> turns[i..][BLOCK_SIZE..] == turns[i + BLOCK_SIZE..];
      assert i + BLOCK_SIZE < |turns| ==> turns[i..][..BLOCK_SIZE] == block;
      assert i + BLOCK_SIZE >= |turns| ==> turns[i..] == block;
      blocks := blocks + [block];
      i := i + BLOCK_SIZE;
    }
  }

  /** No turn is lost, repeated or moved by the blocks, none is empty, and only the last can be short. */
  lemma {:induction false} BlocksPartition(turns: seq<Turn>)
    ensures Flatten(Blocks(turns)) == turns
    ensures forall i :: 0 <= i < |Blocks(turns)| ==>
              && 0 < |Blocks(turns)[i]| <= 20
              && (i < |Blocks(turns)| - 1 ==> |Blocks(turns)[i]| == 20)
    decreases |turns|
  {
    if |turns| > BLOCK_SIZE {
      BlocksPartition(turns[BLOCK_SIZE..]);
    } else if turns != [] {
      assert Flatten([turns]) == turns + Flatten([]);
    }
  }

  // ------------------------------------------------------------------ gapless numbering

  ghost predicate Gapless(turns: seq<Turn>) {
    forall i :: 0 <= i < |turns| ==> turns[i].number == i
  }

  function Slice(turns: seq<Turn>, low: int, high: int): seq<Turn>
    requires -1 <= low
  {
    var to := Min(high + 1, |turns|);
    if low + 1 < to then turns[low + 1..to] else []
  }

  lemma SliceOfLonger(turns: seq<Turn>, low: int, high: int)
    requires -1 <= low && turns != []
    ensures var n := |turns| - 1;
            Slice(turns, low, high) ==
              if low < n <= high then Slice(turns[..n], low, high) + [turns[n]] else Slice(turns[..n], low, high)
  {
    var n := |turns| - 1;
    if low < n <= high {
      assert turns[low + 1..n + 1] == turns[low + 1..n] + [turns[n]];
      assert turns[..n][low + 1..n] == turns[low + 1..n];
    } else if low < n {
      assert Min(high + 1, n + 1) == Min(high + 1, n);
      if low + 1 < Min(high + 1, n) {
        assert turns[..n][low + 1..Min(high + 1, n)] == turns[low + 1..Min(high + 1, n)];
      }
    }
  }

  lemma {:induction false} BetweenIsSlice(turns: seq<Turn>, low: int, high: int)
    requires Gapless(turns) && -1 <= low
    ensures Between(turns, low, high) == Slice(turns, low, high)
    decreases |turns|
  {
    if turns != [] {
      BetweenIsSlice(turns[..|turns| - 1], low, high);
      SliceOfLonger(turns, low, high);
    }
  }

  // ------------------------------------------------------------------ whole histories

  datatype Event = Add(role: string, text: string) | Compact(script: Script)

  /** `summarised` lists, in order, the numbers of all turns that successful compactions passed to the model; `covered`
      those the stored summary was made from. A compaction that finds a blank summary replaces it: `restarted` says that
      this happened after something had been summarised. */
  datatype World = World(memory: Memory, summarised: seq<int>, covered: seq<int>, restarted: bool)

  function Numbers(turns: seq<Turn>): seq<int> {
    seq(|turns|, i requires 0 <= i < |turns| => turns[i].number)
  }

  function Stepped(w: World, e: Event): World {
    match e
    case Add(role, text) => w.(memory := w.memory.(turns := Added(w.memory.turns, role, text)))
    case Compact(script) =>
      var m := Compacted(w.memory, script);
      if m.watermark == w.memory.watermark then
        w.(memory := m)
      else
        Progressed(w, m, Passed(w.memory))
  }

  /** The numbers of the turns one compaction passes to the model, block by block. */
  function Passed(m: Memory): seq<int> {
    Numbers(Flatten(Blocks(ToCompact(m.turns, m.watermark))))
  }

  function Progressed(w: World, m: Memory, numbers: seq<int>): World {
    var blank := w.memory.summary == "";
    World(m, w.summarised + numbers, if blank then numbers else w.covered + numbers,
          w.restarted || (blank && w.summarised != []))
  }

  function After(events: seq<Event>): World {
    if events == [] then World(Memory([], "", "", -1), [], [], false)
    else Stepped(After(events[..|events| - 1]), events[|events| - 1])
  }

  function UpToNumber(n: int): seq<int> {
    seq(Max(0, n + 1), i => i)
  }

  ghost predicate Inv(w: World) {
    && Gapless(w.memory.turns)
    && -1 <= w.memory.watermark <= Max(-1, |w.memory.turns| - 1 - KEEP_RECENT)
    && w.summarised == UpToNumber(w.memory.watermark)
    && Tail(w.covered, w.summarised)
    && (w.covered == w.summarised <==> !w.restarted)
  }

  /** A compaction that goes through takes the watermark to the newest turn but 15. */
  lemma CompactionTakes(m: Memory, s: Script)
    requires Gapless(m.turns) && -1 <= m.watermark
    ensures var n := |m.turns| - KEEP_RECENT;
            && Compacted(m, s).watermark in {m.watermark, n - 1}
            && (Compacted(m, s).watermark != m.watermark ==> m.watermark + 1 < n)
  {
    if m.turns != [] {
      BetweenIsSlice(m.turns, m.watermark, m.turns[|m.turns| - 1].number - KEEP_RECENT);
    }
  }

  lemma PassedContinues(m: Memory)
    requires Gapless(m.turns) && -1 <= m.watermark < |m.turns| - 1 - KEEP_RECENT
    ensures UpToNumber(m.watermark) + Passed(m) == UpToNumber(|m.turns| - 1 - KEEP_RECENT)
  {
    BetweenIsSlice(m.turns, m.watermark, m.turns[|m.turns| - 1].number - KEEP_RECENT);
    BlocksPartition(ToCompact(m.turns, m.watermark));
  }

  ghost predicate Tail(covered: seq<int>, summarised: seq<int>) {
    |covered| <= |summarised| && covered == summarised[|summarised| - |covered|..]
  }

  lemma ProgressKeeps(w: World, m: Memory, numbers: seq<int>)
    requires Inv(w) && m.turns == w.memory.turns
    requires -1 <= m.watermark <= |m.turns| - 1 - KEEP_RECENT
    requires w.summarised + numbers == UpToNumber(m.watermark)
    ensures Inv(Progressed(w, m, numbers))
  {
    var w' := Progressed(w, m, numbers);
    assert w.covered + numbers == (w.summarised + numbers)[|w.summarised| - |w.covered|..];
    assert numbers == (w.summarised + numbers)[|w.summarised|..];
    assert |w'.covered| == |w'.summarised| ==> w'.covered == w'.summarised;
    assert |w.covered| == |w.summarised| ==> w.covered == w.summarised;
  }

  lemma CompactKeeps(w: World, s: Script)
    requires Inv(w)
    ensures Inv(Stepped(w, Compact(s)))
  {
    var m := w.memory;
    CompactionTakes(m, s);
    if Compacted(m, s).watermark != m.watermark {
      PassedContinues(m);
      ProgressKeeps(w, Compacted(m, s), Passed(m));
    }
  }

  lemma StepKeeps(w: World, e: Event)
    requires Inv(w)
    ensures Inv(Stepped(w, e))
    ensures w.memory.watermark <= Stepped(w, e).memory.watermark
    ensures Stepped(w, e).memory.watermark in {w.memory.watermark, |w.memory.turns| - 1 - KEEP_RECENT}
  {
    if e.Compact? {
      CompactKeeps(w, e.script);
      CompactionTakes(w.memory, e.script);
    }
  }

  lemma {:induction false} HistoryKeeps(events: seq<Event>)
    ensures Inv(After(events))
    decreases |events|
  {
    if events != [] {
      HistoryKeeps(events[..|events| - 1]);
      StepKeeps(After(events[..|events| - 1]), events[|events| - 1]);
    }
  }

  /** Over any history of turns, compactions and failed compactions: the turns up to the watermark were each summarised
      exactly once and in order, none after it was, and the newest 15 never are. */
  lemma SummarisedExactlyOnce(events: seq<Event>)
    ensures var w := After(events);
            && w.summarised == UpToNumber(w.memory.watermark)
            && w.memory.watermark <= Max(-1, |w.memory.turns| - 1 - KEEP_RECENT)
  {
    HistoryKeeps(events);
  }

  /** With only the newest 15 turns left there is nothing to do, whatever the model would say. */
  lemma NothingLeftToCompact(m: Memory, s: Script)
    requires Gapless(m.turns) && -1 <= m.watermark == |m.turns| - 1 - KEEP_RECENT
    ensures Compacted(m, s) == m
  {
    if m.turns != [] {
      BetweenIsSlice(m.turns, m.watermark, m.turns[|m.turns| - 1].number - KEEP_RECENT);
    }
  }

  /** The watermark never goes back; when it moves, exactly the newest 15 turns are left, and compacting again before the
      next turn does nothing. */
  lemma WatermarkAdvances(events: seq<Event>, e: Event, again: Script)
    ensures var m, m' := After(events).memory, After(events + [e]).memory;
            && m.watermark <= m'.watermark
            && (m.watermark != m'.watermark ==>
                  m'.watermark == |m'.turns| - 1 - KEEP_RECENT && Compacted(m', again) == m')
  {
    HistoryKeeps(events);
    assert (events + [e])[..|events|] == events;
    StepKeeps(After(events), e);
    var m, m' := After(events).memory, After(events + [e]).memory;
    if m.watermark != m'.watermark {
      NothingLeftToCompact(m', again);
    }
  }

  /** When the model fails or a write does, the summary and the watermark stay as they were, and the one thing left
      behind can be the first anchor. */
  lemma FailureRollsBack(m: Memory, s: Script)
    requires s.summarised.None? || (m.summary != "" && s.merged.None?)
             || (m.anchor == "" && !s.anchorWritten) || !s.summaryWritten || !s.watermarkWritten
    ensures var m' := Compacted(m, s);
            m' == m || (m.anchor == "" && s.summarised.Some? && m' == m.(anchor := s.summarised.value))
  {
  }

  /** The stored summary was made from an unbroken run of turns ending at the watermark. It misses none of them exactly
      when no compaction found the summary blank after an earlier one had succeeded. */
  lemma SummaryCovers(events: seq<Event>)
    ensures var w := After(events);
            && Tail(w.covered, w.summarised)
            && (w.covered == UpToNumber(w.memory.watermark) <==> !w.restarted)
  {
    HistoryKeeps(events);
  }

  /** There is something to compact, and neither the model nor a write fails. */
  predicate GoesThrough(m: Memory, s: Script) {
    && m.watermark < |m.turns| - 1 - KEEP_RECENT
    && s.summarised.Some? && (m.summary != "" ==> s.merged.Some?)
    && (m.anchor == "" ==> s.anchorWritten) && s.summaryWritten && s.watermarkWritten
  }

  /** A compaction takes the watermark to the newest turn but 15 exactly when it goes through; else it stays. */
  lemma CompactsExactlyWhen(events: seq<Event>, s: Script)
    ensures var m, m' := After(events).memory, After(events + [Compact(s)]).memory;
            m'.watermark == if GoesThrough(m, s) then |m.turns| - 1 - KEEP_RECENT else m.watermark
    ensures var m := After(events).memory; GoesThrough(m, s) ==> m.watermark < |m.turns| - 1 - KEEP_RECENT
  {
    HistoryKeeps(events);
    AfterOneMore(events, Compact(s));
    WatermarkStep(After(events).memory, s);
  }

  lemma WatermarkStep(m: Memory, s: Script)
    requires Gapless(m.turns) && -1 <= m.watermark
    ensures Compacted(m, s).watermark == if GoesThrough(m, s) then |m.turns| - 1 - KEEP_RECENT else m.watermark
    ensures Compacted(m, s).turns == m.turns
  {
    if m.turns != [] {
      BetweenIsSlice(m.turns, m.watermark, m.turns[|m.turns| - 1].number - KEEP_RECENT);
    }
  }

  // ------------------------------------------------------------------ what the summary says

  /** What one successful compaction adds: the numbers of its turns and the model's summary of them. */
  datatype Piece = Piece(numbers: seq<int>, reply: string)

  function NumbersFrom(low: int, high: int): seq<int> {
    seq(Max(0, high - low), i => low + 1 + i)
  }

  /** The pieces of the stored summary: one for each compaction that went through since one found the summary blank. */
  function Pieces(events: seq<Event>): seq<Piece> {
    if events == [] then []
    else
      var before, e := events[..|events| - 1], events[|events| - 1];
      var m := After(before).memory;
      if e.Compact? && GoesThrough(m, e.script) then
        (if m.summary == "" then [] else Pieces(before))
        + [Piece(NumbersFrom(m.watermark, |m.turns| - 1 - KEEP_RECENT), e.script.summarised.value)]
      else
        Pieces(before)
  }

  /** The first reply as it is, each later one merged into what was there. */
  function Folded(merge: (string, string) -> string, pieces: seq<Piece>): string {
    if pieces == [] then ""
    else
      var last := |pieces| - 1;
      if last == 0 then pieces[0].reply else merge(Folded(merge, pieces[..last]), pieces[last].reply)
  }

  function AllNumbers(pieces: seq<Piece>): seq<int> {
    if pieces == [] then [] else AllNumbers(pieces[..|pieces| - 1]) + pieces[|pieces| - 1].numbers
  }

  /** Whenever it is asked, the model merges two summaries as `merge` does. */
  ghost predicate MergesLike(events: seq<Event>, merge: (string, string) -> string) {
    forall i :: 0 <= i < |events| && events[i].Compact? ==> MergeIs(After(events[..i]).memory, events[i].script, merge)
  }

  predicate MergeIs(m: Memory, s: Script, merge: (string, string) -> string) {
    s.merged.Some? && s.summarised.Some? ==> s.merged.value == merge(m.summary, s.summarised.value)
  }

  lemma SummaryStep(m: Memory, s: Script, merge: (string, string) -> string)
    requires Gapless(m.turns) && -1 <= m.watermark && MergeIs(m, s, merge)
    ensures Compacted(m, s).summary ==
              if !GoesThrough(m, s) then m.summary
              else if m.summary == "" then s.summarised.value
              else merge(m.summary, s.summarised.value)
  {
    if m.turns != [] {
      BetweenIsSlice(m.turns, m.watermark, m.turns[|m.turns| - 1].number - KEEP_RECENT);
    }
  }

  lemma CoveredStep(w: World, s: Script)
    requires Inv(w)
    ensures Stepped(w, Compact(s)).covered ==
              if !GoesThrough(w.memory, s) then w.covered
              else (if w.memory.summary == "" then [] else w.covered)
                   + NumbersFrom(w.memory.watermark, |w.memory.turns| - 1 - KEEP_RECENT)
  {
    WatermarkStep(w.memory, s);
    if GoesThrough(w.memory, s) {
      PassedContinues(w.memory);
      PassedIs(w.memory.watermark, |w.memory.turns| - 1 - KEEP_RECENT, Passed(w.memory));
    }
  }

  lemma PassedIs(low: int, high: int, passed: seq<int>)
    requires -1 <= low < high && UpToNumber(low) + passed == UpToNumber(high)
    ensures passed == NumbersFrom(low, high)
  {
    var all := UpToNumber(high);
    assert |passed| == high - low;
    forall i | 0 <= i < |passed| ensures passed[i] == low + 1 + i {
      assert (UpToNumber(low) + passed)[low + 1 + i] == passed[i];
    }
  }

  /** What is told of a summary by the pieces it was made from. */
  ghost predicate MadeFrom(w: World, merge: (string, string) -> string, pieces: seq<Piece>) {
    && w.memory.summary == Folded(merge, pieces)
    && (w.memory.summary != "" ==> pieces != [])
    && w.covered == AllNumbers(pieces)
  }

  lemma CompactMakes(w: World, s: Script, merge: (string, string) -> string, pieces: seq<Piece>)
    requires Inv(w) && MergeIs(w.memory, s, merge) && MadeFrom(w, merge, pieces) && GoesThrough(w.memory, s)
    ensures var piece := Piece(NumbersFrom(w.memory.watermark, |w.memory.turns| - 1 - KEEP_RECENT), s.summarised.value);
            MadeFrom(Stepped(w, Compact(s)), merge, (if w.memory.summary == "" then [] else pieces) + [piece])
  {
    var piece := Piece(NumbersFrom(w.memory.watermark, |w.memory.turns| - 1 - KEEP_RECENT), s.summarised.value);
    var kept := if w.memory.summary == "" then [] else pieces;
    WatermarkStep(w.memory, s);
    SummaryStep(w.memory, s, merge);
    CoveredStep(w, s);
    assert (kept + [piece])[..|kept|] == kept;
  }

  /** Over any history, whatever the model answers: the stored summary is the left fold of its merges over its summaries of
      the compactions that went through since one found the summary blank, the first of them as it is; and what it covers are
      the turns of exactly those compactions, in order. */
  lemma {:induction false} SummaryIsFolded(events: seq<Event>, merge: (string, string) -> string)
    requires MergesLike(events, merge)
    ensures After(events).memory.summary == Folded(merge, Pieces(events))
    ensures After(events).covered == AllNumbers(Pieces(events))
    ensures MadeFrom(After(events), merge, Pieces(events))
    decreases |events|
  {
    if events != [] {
      var before, e := events[..|events| - 1], events[|events| - 1];
      forall i | 0 <= i < |before| && before[i].Compact? ensures MergeIs(After(before[..i]).memory, before[i].script, merge) {
        assert before[..i] == events[..i] && before[i] == events[i];
      }
      SummaryIsFolded(before, merge);
      HistoryKeeps(before);
      if e.Compact? {
        assert MergeIs(After(events[..|events| - 1]).memory, e.script, merge);
        if GoesThrough(After(before).memory, e.script) {
          CompactMakes(After(before), e.script, merge, Pieces(before));
        } else {
          WatermarkStep(After(before).memory, e.script);
          SummaryStep(After(before).memory, e.script, merge);
        }
      }
    }
  }

  function Appended(pieces: seq<Piece>): string {
    if pieces == [] then "" else Appended(pieces[..|pieces| - 1]) + pieces[|pieces| - 1].reply
  }

  /** So with a model that merges by appending nothing covered is lost: the summary is the replies for all covered turns, one
      after the other. */
  lemma AppendingMergeKeepsAll(events: seq<Event>)
    requires MergesLike(events, (earlier, later) => earlier + later)
    ensures After(events).memory.summary == Appended(Pieces(events)) && After(events).covered == AllNumbers(Pieces(events))
  {
    SummaryIsFolded(events, (earlier, later) => earlier + later);
    FoldedIsAppended((earlier, later) => earlier + later, Pieces(events));
  }

  lemma {:induction false} FoldedIsAppended(merge: (string, string) -> string, pieces: seq<Piece>)
    requires forall a, b :: merge(a, b) == a + b
    ensures Folded(merge, pieces) == Appended(pieces)
    decreases |pieces|
  {
    if |pieces| == 1 {
      assert pieces[..0] == [];
    } else if |pieces| > 1 {
      FoldedIsAppended(merge, pieces[..|pieces| - 1]);
    }
  }

  /** The summary of the first compaction whose anchor was written and not blank. */
  function FirstReply(events: seq<Event>): string {
    if events == [] then ""
    else
      var before, e := events[..|events| - 1], events[|events| - 1];
      var m := After(before).memory;
      if FirstReply(before) != "" then FirstReply(before)
      else if e.Compact? && m.watermark < |m.turns| - 1 - KEEP_RECENT && e.script.summarised.Some? && e.script.anchorWritten
      then e.script.summarised.value
      else ""
  }

  /** The anchor is that summary, and once set it never changes. */
  lemma {:induction false} AnchorIsFirstReply(events: seq<Event>)
    ensures After(events).memory.anchor == FirstReply(events)
    decreases |events|
  {
    if events != [] {
      var before, e := events[..|events| - 1], events[|events| - 1];
      AnchorIsFirstReply(before);
      HistoryKeeps(before);
      if e.Compact? {
        AnchorStep(After(before).memory, e.script);
      }
    }
  }

  lemma AnchorStep(m: Memory, s: Script)
    requires Gapless(m.turns) && -1 <= m.watermark
    ensures Compacted(m, s).anchor ==
              if m.anchor != "" then m.anchor
              else if m.watermark < |m.turns| - 1 - KEEP_RECENT && s.summarised.Some? && s.anchorWritten then s.summarised.value
              else ""
  {
    if m.turns != [] {
      BetweenIsSlice(m.turns, m.watermark, m.turns[|m.turns| - 1].number - KEEP_RECENT);
    }
  }

  lemma RecentIsSlice(turns: seq<Turn>, watermark: int)
    requires Gapless(turns) && -1 <= watermark < |turns|
    ensures Recent(turns, watermark) == turns[Max(watermark + 1, |turns| - RECENT_LIMIT)..]
  {
    if turns != [] {
      var last := turns[|turns| - 1].number;
      BetweenIsSlice(turns, watermark, last);
      SliceToEnd(turns, watermark);
      LastOfTail(turns, watermark + 1);
    }
  }

  lemma SliceToEnd(turns: seq<Turn>, low: int)
    requires -1 <= low < |turns|
    ensures Slice(turns, low, |turns| - 1) == turns[low + 1..]
  {
  }

  lemma LastOfTail<T>(s: seq<T>, start: nat)
    requires start <= |s|
    ensures From(s[start..], 0 - RECENT_LIMIT) == s[Max(start, |s| - RECENT_LIMIT)..]
  {
  }

  ghost predicate Shown(m: Memory, k: nat)
    requires k < |m.turns|
  {
    k <= m.watermark || m.turns[k] in Recent(m.turns, m.watermark)
  }

  lemma ShownExactlyWhen(m: Memory, k: nat)
    requires Gapless(m.turns) && -1 <= m.watermark < |m.turns| && k < |m.turns|
    ensures Shown(m, k) <==> k <= m.watermark || |m.turns| - RECENT_LIMIT <= k
  {
    var start := Max(m.watermark + 1, |m.turns| - RECENT_LIMIT);
    RecentIsSlice(m.turns, m.watermark);
    if start <= k {
      assert m.turns[k] == m.turns[start..][k - start];
    }
  }

  /** Between them, the summary and the recent turns show everything exactly while the backlog is at most 50 turns. */
  lemma NothingFallsBetween(events: seq<Event>)
    ensures var m := After(events).memory;
            (forall k :: 0 <= k < |m.turns| ==> Shown(m, k)) <==> |m.turns| - (m.watermark + 1) <= 50
  {
    HistoryKeeps(events);
    var m := After(events).memory;
    if m.turns != [] {
      forall k | 0 <= k < |m.turns| ensures Shown(m, k) <==> k <= m.watermark || |m.turns| - RECENT_LIMIT <= k {
        ShownExactlyWhen(m, k);
      }
      if |m.turns| - RECENT_LIMIT > m.watermark + 1 {
        assert !Shown(m, m.watermark + 1);
      }
    }
  }

  // ------------------------------------------------------------------ both limits are reached

  function Chat(n: nat): seq<Event> {
    seq(n, i => Add("user", "hello"))
  }

  lemma {:induction false} ChatAddsTurns(n: nat)
    ensures var w := After(Chat(n));
            && |w.memory.turns| == n && w.memory.summary == "" && w.memory.watermark == -1
            && w.summarised == [] && !w.restarted
    decreases n
  {
    if n > 0 {
      ChatAddsTurns(n - 1);
      assert Chat(n)[..n - 1] == Chat(n - 1);
    }
  }

  /** Fifty-one turns without a compaction, and the first is shown nowhere. */
  lemma BacklogCanHideTurns()
    ensures var m := After(Chat(51)).memory; |m.turns| == 51 && !Shown(m, 0)
  {
    ChatAddsTurns(51);
    HistoryKeeps(Chat(51));
    ShownExactlyWhen(After(Chat(51)).memory, 0);
  }

  /** A model whose reply is `text`, with every write going through. */
  function Replying(text: string): Script {
    Script(Some(text), Some(text), true, true, true)
  }

  lemma ReplyIsKept(m: Memory, text: string)
    requires Gapless(m.turns) && -1 <= m.watermark < |m.turns| - 1 - KEEP_RECENT
    ensures Compacted(m, Replying(text)).summary == text
    ensures Compacted(m, Replying(text)).watermark == |m.turns| - 1 - KEEP_RECENT
    ensures Compacted(m, Replying(text)).turns == m.turns
  {
    BetweenIsSlice(m.turns, m.watermark, m.turns[|m.turns| - 1].number - KEEP_RECENT);
  }

  lemma AfterOneMore(events: seq<Event>, e: Event)
    ensures After(events + [e]) == Stepped(After(events), e)
  {
    assert (events + [e])[..|events|] == events;
  }

  /** A compaction that finds the summary blank covers only what it passes to the model itself. */
  lemma BlankIsReplaced(w: World, text: string)
    requires Inv(w) && w.memory.summary == "" && w.memory.watermark < |w.memory.turns| - 1 - KEEP_RECENT
    ensures var w' := Stepped(w, Compact(Replying(text)));
            && w'.covered == Passed(w.memory) && w'.summarised == w.summarised + Passed(w.memory)
            && w'.restarted == (w.restarted || w.summarised != [])
            && w'.memory.summary == text && w'.memory.turns == w.memory.turns
            && w'.memory.watermark == |w.memory.turns| - 1 - KEEP_RECENT
  {
    ReplyIsKept(w.memory, text);
  }

  /** `n` turns of which those up to the watermark are summarised, with a blank summary. */
  ghost predicate BlankAt(w: World, n: nat, watermark: int) {
    && Inv(w) && w.memory.summary == "" && |w.memory.turns| == n && w.memory.watermark == watermark
    && w.summarised == UpToNumber(watermark)
  }

  lemma BlankReply(w: World, n: nat)
    requires BlankAt(w, n, -1) && n > KEEP_RECENT
    ensures BlankAt(Stepped(w, Compact(Replying(""))), n, n - 1 - KEEP_RECENT)
  {
    StepKeeps(w, Compact(Replying("")));
    BlankIsReplaced(w, "");
    BlankSummarised(w, n);
  }

  lemma BlankSummarised(w: World, n: nat)
    requires BlankAt(w, n, -1) && n > KEEP_RECENT
    ensures w.summarised + Passed(w.memory) == UpToNumber(n - 1 - KEEP_RECENT)
  {
    PassedContinues(w.memory);
  }

  lemma NextTurn(w: World, n: nat, watermark: int)
    requires BlankAt(w, n, watermark)
    ensures BlankAt(Stepped(w, Add("user", "hello")), n + 1, watermark)
  {
    StepKeeps(w, Add("user", "hello"));
  }

  lemma SecondReply(w: World)
    requires BlankAt(w, 17, 0)
    ensures var w' := Stepped(w, Compact(Replying("summary"))); w'.restarted && w'.summarised == [0, 1] && w'.covered == [1]
  {
    BlankIsReplaced(w, "summary");
    PassedContinues(w.memory);
    assert UpToNumber(0) == [0] && UpToNumber(1) == [0, 1];
    assert Passed(w.memory) == ([0] + Passed(w.memory))[1..];
  }

  lemma ChatIsBlank(n: nat)
    ensures BlankAt(After(Chat(n)), n, -1)
  {
    ChatAddsTurns(n);
    HistoryKeeps(Chat(n));
  }

  /** A blank reply is stored, and the next compaction starts over: the first turn is summarised and covered by nothing. */
  lemma BlankReplyRestarts()
    ensures var events := Chat(16) + [Compact(Replying(""))] + [Add("user", "hello")] + [Compact(Replying("summary"))];
            var w := After(events);
            w.restarted && w.summarised == [0, 1] && w.covered == [1]
  {
    var first := Chat(16) + [Compact(Replying(""))];
    var second := first + [Add("user", "hello")];
    ChatIsBlank(16);
    AfterOneMore(Chat(16), Compact(Replying("")));
    BlankReply(After(Chat(16)), 16);
    AfterOneMore(first, Add("user", "hello"));
    NextTurn(After(first), 16, 0);
    AfterOneMore(second, Compact(Replying("summary")));
    SecondReply(After(second));
  }
}
