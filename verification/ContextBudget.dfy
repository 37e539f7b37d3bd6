/** Assembling a prompt within a token budget: pinned text first, then slots of which each takes what its share and the rest
    allow. The tokenizer, the line splitter and the drift test are parameters. */
module ContextBudget {
  import opened Common

  type Tokenizer = string -> nat

  datatype Budget = Budget(
    maxTokens: int,
    completionReserve: int,
    ragShare: real,
    summaryShare: real,
    anchorShare: real,
    recentShare: real)
  {
    function Effective(): int { maxTokens - completionReserve }

    /** Python's `int` truncates towards zero. */
    function Slot(share: real): int {
      var x := Effective() as real * share;
      if x >= 0.0 then x.Floor else -(-x).Floor
    }
  }

  /** The budget in whole tokens: what there is, and what each slot may take of it. */
  datatype Slots = Slots(effective: int, rag: int, summary: int, anchor: int, recent: int)

  function SlotsOf(b: Budget): Slots {
    Slots(b.Effective(), b.Slot(b.ragShare), b.Slot(b.summaryShare), b.Slot(b.anchorShare), b.Slot(b.recentShare))
  }

  predicate NotNegative(b: Slots) {
    b.effective >= 0 && b.rag >= 0 && b.summary >= 0 && b.anchor >= 0 && b.recent >= 0
  }

  lemma SlotsNotNegative(b: Budget)
    requires b.Effective() >= 0
    requires b.ragShare >= 0.0 && b.summaryShare >= 0.0 && b.anchorShare >= 0.0 && b.recentShare >= 0.0
    ensures NotNegative(SlotsOf(b))
  {
    var x := b.Effective() as real;
    assert x * b.ragShare >= 0.0 && x * b.summaryShare >= 0.0 && x * b.anchorShare >= 0.0 && x * b.recentShare >= 0.0;
  }

  function NonEmpty(parts: seq<string>): seq<string> {
    if parts == [] then []
    else if parts[0] == "" then NonEmpty(parts[1..])
    else [parts[0]] + NonEmpty(parts[1..])
  }

  // ------------------------------------------------------------------ trimming

  /** The lines from the k-th on fit, or there are none left, and every longer suffix is over the budget. */
  ghost predicate LongestSuffix(tokens: Tokenizer, lines: seq<string>, budget: int, k: nat) {
    && k <= |lines|
    && (k < |lines| ==> tokens(Join("\n", lines[k..])) <= budget)
    && forall i :: 0 <= i < k ==> tokens(Join("\n", lines[i..])) > budget
  }

  /** Text that fits is left alone; otherwise what remains is the longest suffix of its non-empty lines that fits. */
  ghost predicate IsTrim(tokens: Tokenizer, split: string -> seq<string>, text: string, budget: int, trimmed: string) {
    if text == "" || tokens(text) <= budget then trimmed == text
    else
      var lines := NonEmpty(split(text));
      exists k: nat :: LongestSuffix(tokens, lines, budget, k) && trimmed == Join("\n", lines[k..])
  }

  method TrimToBudget(tokens: Tokenizer, split: string -> seq<string>, text: string, budget: int) returns (trimmed: string)
    ensures IsTrim(tokens, split, text, budget, trimmed)
  {
    if text == "" || tokens(text) <= budget {
      return text;
    }
    var all := NonEmpty(split(text));
    var lines := all;
    ghost var k: nat := 0;
    while lines != [] && tokens(Join("\n", lines)) > budget
      invariant k <= |all| && lines == all[k..]
      invariant forall i :: 0 <= i < k ==> tokens(Join("\n", all[i..])) > budget
      decreases |lines|
    {
      lines := lines[1..];
      k := k + 1;
    }
    trimmed := Join("\n", lines);
    assert LongestSuffix(tokens, all, budget, k);
  }

  lemma SuffixIsUnique(tokens: Tokenizer, lines: seq<string>, budget: int, k1: nat, k2: nat)
    requires LongestSuffix(tokens, lines, budget, k1) && LongestSuffix(tokens, lines, budget, k2)
    ensures k1 == k2
  {
  }

  /** The rule fixes the result. */
  lemma TrimIsUnique(tokens: Tokenizer, split: string -> seq<string>, text: string, budget: int, t1: string, t2: string)
    requires IsTrim(tokens, split, text, budget, t1) && IsTrim(tokens, split, text, budget, t2)
    ensures t1 == t2
  {
    if text != "" && tokens(text) > budget {
      var lines := NonEmpty(split(text));
      var k1: nat :| LongestSuffix(tokens, lines, budget, k1) && t1 == Join("\n", lines[k1..]);
      var k2: nat :| LongestSuffix(tokens, lines, budget, k2) && t2 == Join("\n", lines[k2..]);
      SuffixIsUnique(tokens, lines, budget, k1, k2);
    }
  }

  /** Joining texts never costs more than its parts: a tokenizer can only merge across the seam. */
  ghost predicate Subadditive(tokens: Tokenizer) {
    tokens("") == 0 && forall a, b :: tokens(a + b) <= tokens(a) + tokens(b)
  }

  lemma TrimFits(tokens: Tokenizer, split: string -> seq<string>, text: string, budget: int, trimmed: string)
    requires tokens("") == 0 && budget >= 0 && IsTrim(tokens, split, text, budget, trimmed)
    ensures tokens(trimmed) <= budget
  {
  }

  // ------------------------------------------------------------------ packing

  const FINAL_K: nat := 8

  function TotalTokens(tokens: Tokenizer, texts: seq<string>): nat {
    if texts == [] then 0 else TotalTokens(tokens, texts[..|texts| - 1]) + tokens(texts[|texts| - 1])
  }

  lemma TotalGrows(tokens: Tokenizer, texts: seq<string>, text: string)
    ensures TotalTokens(tokens, texts + [text]) == TotalTokens(tokens, texts) + tokens(text)
  {
    assert (texts + [text])[..|texts|] == texts;
  }

  /** The best ranked texts, in order, up to the first that does not fit. */
  method Pack(tokens: Tokenizer, ranked: seq<string>, budget: int) returns (packed: seq<string>)
    ensures IsPacking(tokens, ranked, budget, packed)
  {
    var best := UpTo(ranked, FINAL_K);
    packed := [];
    var used := 0;
    for i := 0 to |best|
      invariant packed == best[..i]
      invariant used == TotalTokens(tokens, packed) && (i == 0 || used <= budget)
    {
      var t := tokens(best[i]);
      var more := packed + [best[i]];
      assert more == best[..i + 1];
      TotalGrows(tokens, packed, best[i]);
      if used + t > budget {
        return;
      }
      used := used + t;
      packed := more;
    }
  }

  ghost predicate IsPacking(tokens: Tokenizer, ranked: seq<string>, budget: int, packed: seq<string>) {
    var best := UpTo(ranked, FINAL_K);
    && packed <= best
    && (packed == [] || TotalTokens(tokens, packed) <= budget)
    && (|packed| < |best| ==> TotalTokens(tokens, best[..|packed| + 1]) > budget)
  }

  // ------------------------------------------------------------------ assembly

  /** What the assembly relies on: the tokenizer, the line splitter, whether an anchor has drifted out of a summary, and the
      heading that is put above an anchor. */
  datatype Setting = Setting(
    tokens: Tokenizer, split: string -> seq<string>, drifted: (string, string) -> bool, header: string)

  datatype Sources = Sources(
    instructions: string,
    system: string,
    core: string,
    ranked: seq<string>,
    summary: string,
    anchor: string,
    recent: string)

  datatype Context = Context(
    instructions: string,
    system: string,
    core: string,
    anchor: string,
    chunks: seq<string>,
    summary: string,
    recent: string)
  {
    function Retrieved(): string { Join("\n\n", chunks) }

    function AsPrompt(): string {
      Join("\n\n", NonEmpty([instructions, system, core, anchor, Retrieved(), summary, recent]))
    }
  }

  /** The anchor as shown: trimmed, and under its heading unless nothing is left. */
  ghost predicate IsAnchor(e: Setting, text: string, budget: int, anchor: string) {
    exists body :: IsTrim(e.tokens, e.split, text, budget, body) && anchor == if body == "" then "" else e.header + body
  }

  function AfterPinned(b: Slots, tokens: Tokenizer, s: Sources): int {
    b.effective - (tokens(s.instructions) + tokens(s.system) + tokens(s.core))
  }

  function Allowance(slot: int, left: int): int {
    Min(slot, Max(0, left))
  }

  /** What a context is: the pinned text verbatim, and in each slot its source cut to the smaller of its share and what the
      slots before it have left. */
  ghost predicate IsAssembly(b: Slots, e: Setting, s: Sources, c: Context) {
    var left0 := AfterPinned(b, e.tokens, s);
    var left1 := left0 - e.tokens(c.Retrieved());
    var left2 := left1 - e.tokens(c.summary);
    var left3 := if c.anchor == "" then left2 else left2 - e.tokens(c.anchor);
    && (c.instructions, c.system, c.core) == (s.instructions, s.system, s.core)
    && IsPacking(e.tokens, s.ranked, Allowance(b.rag, left0), c.chunks)
    && IsTrim(e.tokens, e.split, s.summary, Allowance(b.summary, left1), c.summary)
    && (if e.drifted(s.anchor, c.summary) then IsAnchor(e, s.anchor, Allowance(b.anchor, left2), c.anchor) else c.anchor == "")
    && IsTrim(e.tokens, e.split, s.recent, Allowance(b.recent, left3), c.recent)
  }

  method BuildContext(budget: Budget, e: Setting, s: Sources) returns (c: Context)
    requires e.header != ""
    ensures IsAssembly(SlotsOf(budget), e, s, c)
  {
    var b := SlotsOf(budget);
    var remaining := AfterPinned(b, e.tokens, s);
    var chunks := Pack(e.tokens, s.ranked, Allowance(b.rag, remaining));
    remaining := remaining - e.tokens(Join("\n\n", chunks));
    var summary := TrimToBudget(e.tokens, e.split, s.summary, Allowance(b.summary, remaining));
    remaining := remaining - e.tokens(summary);
    var anchor := "";
    if e.drifted(s.anchor, summary) {
      var body := TrimToBudget(e.tokens, e.split, s.anchor, Allowance(b.anchor, remaining));
      if body != "" {
        anchor := e.header + body;
        remaining := remaining - e.tokens(anchor);
      }
    }
    var recent := TrimToBudget(e.tokens, e.split, s.recent, Allowance(b.recent, remaining));
    c := Context(s.instructions, s.system, s.core, anchor, chunks, summary, recent);
  }

  // ------------------------------------------------------------------ the budget

  function SumOf(tokens: Tokenizer, parts: seq<string>): nat {
    if parts == [] then 0 else tokens(parts[0]) + SumOf(tokens, parts[1..])
  }

  lemma {:induction false} JoinCosts(tokens: Tokenizer, separator: string, parts: seq<string>)
    requires Subadditive(tokens)
    ensures tokens(Join(separator, parts)) <= SumOf(tokens, parts) + Max(0, |parts| - 1) * tokens(separator)
    decreases |parts|
  {
    if |parts| > 1 {
      JoinCosts(tokens, separator, parts[1..]);
      var rest := Join(separator, parts[1..]);
      assert tokens(parts[0] + separator + rest) <= tokens(parts[0] + separator) + tokens(rest);
      assert tokens(parts[0] + separator) <= tokens(parts[0]) + tokens(separator);
      assert (|parts| - 1) * tokens(separator) == (|parts[1..]| - 1) * tokens(separator) + tokens(separator);
    }
  }

  lemma {:induction false} NonEmptyCosts(tokens: Tokenizer, parts: seq<string>)
    requires tokens("") == 0
    ensures SumOf(tokens, NonEmpty(parts)) == SumOf(tokens, parts) && |NonEmpty(parts)| <= |parts|
    decreases |parts|
  {
    if parts != [] {
      NonEmptyCosts(tokens, parts[1..]);
    }
  }

  lemma {:induction false} TotalIsSum(tokens: Tokenizer, texts: seq<string>)
    ensures TotalTokens(tokens, texts) == SumOf(tokens, texts)
    decreases |texts|
  {
    if |texts| > 1 {
      var before, last := texts[..|texts| - 1], texts[|texts| - 1];
      TotalIsSum(tokens, before);
      TotalIsSum(tokens, texts[1..]);
      TotalIsSum(tokens, before[1..]);
      assert texts[1..][..|texts| - 2] == before[1..];
    }
  }

  lemma PromptCosts(tokens: Tokenizer, c: Context)
    requires Subadditive(tokens)
    ensures tokens(c.AsPrompt()) <=
              tokens(c.instructions) + tokens(c.system) + tokens(c.core) + tokens(c.anchor) + tokens(c.Retrieved())
              + tokens(c.summary) + tokens(c.recent) + 6 * tokens("\n\n")
  {
    var parts := [c.instructions, c.system, c.core, c.anchor, c.Retrieved(), c.summary, c.recent];
    JoinCosts(tokens, "\n\n", NonEmpty(parts));
    NonEmptyCosts(tokens, parts);
    SumOfSeven(tokens, parts);
    MulMonotone(Max(0, |NonEmpty(parts)| - 1), 6, tokens("\n\n"));
  }

  lemma SumOfSeven(tokens: Tokenizer, p: seq<string>)
    requires |p| == 7
    ensures SumOf(tokens, p) == tokens(p[0]) + tokens(p[1]) + tokens(p[2]) + tokens(p[3]) + tokens(p[4]) + tokens(p[5]) + tokens(p[6])
  {
    assert SumOf(tokens, p[5..]) == tokens(p[5]) + tokens(p[6]) + SumOf(tokens, []) by {
      assert p[5..][1..] == p[6..] && p[6..][1..] == [];
    }
    assert SumOf(tokens, p[3..]) == tokens(p[3]) + tokens(p[4]) + SumOf(tokens, p[5..]) by {
      assert p[3..][1..] == p[4..] && p[4..][1..] == p[5..];
    }
    assert SumOf(tokens, p[1..]) == tokens(p[1]) + tokens(p[2]) + SumOf(tokens, p[3..]) by {
      assert p[1..][1..] == p[2..] && p[2..][1..] == p[3..];
    }
  }

  lemma MulMonotone(x: int, y: int, z: nat)
    requires x <= y
    ensures x * z <= y * z
  {
  }

  lemma PackingCosts(tokens: Tokenizer, ranked: seq<string>, budget: int, chunks: seq<string>)
    requires Subadditive(tokens) && budget >= 0 && IsPacking(tokens, ranked, budget, chunks)
    ensures tokens(Join("\n\n", chunks)) <= budget + (FINAL_K - 1) * tokens("\n\n")
  {
    JoinCosts(tokens, "\n\n", chunks);
    TotalIsSum(tokens, chunks);
    MulMonotone(Max(0, |chunks| - 1), FINAL_K - 1, tokens("\n\n"));
  }

  lemma PackingTakes(e: Setting, slot: int, left: int, ranked: seq<string>, chunks: seq<string>)
    requires Subadditive(e.tokens) && slot >= 0 && IsPacking(e.tokens, ranked, Allowance(slot, left), chunks)
    ensures e.tokens(Join("\n\n", chunks)) <= Max(0, left) + (FINAL_K - 1) * e.tokens("\n\n")
  {
    PackingCosts(e.tokens, ranked, Allowance(slot, left), chunks);
  }

  lemma AnchorFits(e: Setting, text: string, budget: int, anchor: string)
    requires Subadditive(e.tokens) && budget >= 0 && IsAnchor(e, text, budget, anchor)
    ensures e.tokens(anchor) <= budget + e.tokens(e.header)
  {
    var body :| IsTrim(e.tokens, e.split, text, budget, body) && anchor == if body == "" then "" else e.header + body;
    TrimFits(e.tokens, e.split, text, budget, body);
    assert e.tokens(e.header + body) <= e.tokens(e.header) + e.tokens(body);
  }

  lemma PiecesStayInBudget(b: Slots, e: Setting, s: Sources, c: Context)
    requires Subadditive(e.tokens) && IsAssembly(b, e, s, c) && NotNegative(b)
    requires AfterPinned(b, e.tokens, s) >= 0
    ensures e.tokens(c.instructions) + e.tokens(c.system) + e.tokens(c.core) + e.tokens(c.anchor) + e.tokens(c.Retrieved())
              + e.tokens(c.summary) + e.tokens(c.recent) <=
            b.effective + (if c.anchor == "" then 0 else e.tokens(e.header)) + (FINAL_K - 1) * e.tokens("\n\n")
  {
    var left0 := AfterPinned(b, e.tokens, s);
    PackingTakes(e, b.rag, left0, s.ranked, c.chunks);
    var left1 := left0 - e.tokens(c.Retrieved());
    TrimFits(e.tokens, e.split, s.summary, Allowance(b.summary, left1), c.summary);
    var left2 := left1 - e.tokens(c.summary);
    if c.anchor != "" {
      AnchorFits(e, s.anchor, Allowance(b.anchor, left2), c.anchor);
    }
    var left3 := left2 - e.tokens(c.anchor);
    TrimFits(e.tokens, e.split, s.recent, Allowance(b.recent, left3), c.recent);
  }

  /** The whole prompt exceeds the effective budget by at most the anchor's heading, when that is shown, and the blank lines
      between the pieces, although the shares may add up to more than one. */
  lemma PromptStaysInBudget(b: Budget, e: Setting, s: Sources, c: Context)
    requires Subadditive(e.tokens) && IsAssembly(SlotsOf(b), e, s, c)
    requires b.ragShare >= 0.0 && b.summaryShare >= 0.0 && b.anchorShare >= 0.0 && b.recentShare >= 0.0
    requires e.tokens(s.instructions) + e.tokens(s.system) + e.tokens(s.core) <= b.Effective()
    ensures e.tokens(c.AsPrompt()) <=
              b.Effective() + (if c.anchor == "" then 0 else e.tokens(e.header)) + (6 + FINAL_K - 1) * e.tokens("\n\n")
  {
    SlotsNotNegative(b);
    PiecesStayInBudget(SlotsOf(b), e, s, c);
    PromptCosts(e.tokens, c);
  }

  // ------------------------------------------------------------------ when the prompt fits

  /** Room for every slot in full, the heading and all blank lines makes the prompt fit, whatever fills the slots. */
  lemma PromptFitsWhenRoomy(b: Budget, e: Setting, s: Sources, c: Context)
    requires Subadditive(e.tokens) && IsAssembly(SlotsOf(b), e, s, c)
    requires b.ragShare >= 0.0 && b.summaryShare >= 0.0 && b.anchorShare >= 0.0 && b.recentShare >= 0.0
    requires e.tokens(s.instructions) + e.tokens(s.system) + e.tokens(s.core)
             + b.Slot(b.ragShare) + b.Slot(b.summaryShare) + b.Slot(b.anchorShare) + b.Slot(b.recentShare)
             + e.tokens(e.header) + (6 + FINAL_K - 1) * e.tokens("\n\n") <= b.Effective()
    requires b.Effective() >= 0
    ensures e.tokens(c.AsPrompt()) <= b.Effective()
  {
    SlotsNotNegative(b);
    SlotsBoundPieces(SlotsOf(b), e, s, c);
    PromptCosts(e.tokens, c);
  }

  lemma SlotsBoundPieces(b: Slots, e: Setting, s: Sources, c: Context)
    requires Subadditive(e.tokens) && IsAssembly(b, e, s, c) && NotNegative(b)
    ensures (c.instructions, c.system, c.core) == (s.instructions, s.system, s.core)
    ensures TotalTokens(e.tokens, c.chunks) <= b.rag
    ensures e.tokens(c.Retrieved()) <= b.rag + (FINAL_K - 1) * e.tokens("\n\n")
    ensures e.tokens(c.summary) <= b.summary && e.tokens(c.recent) <= b.recent
    ensures e.tokens(c.anchor) <= b.anchor + e.tokens(e.header)
  {
    var left0 := AfterPinned(b, e.tokens, s);
    var left1 := left0 - e.tokens(c.Retrieved());
    var left2 := left1 - e.tokens(c.summary);
    PackingCosts(e.tokens, s.ranked, Allowance(b.rag, left0), c.chunks);
    TrimFits(e.tokens, e.split, s.summary, Allowance(b.summary, left1), c.summary);
    if c.anchor != "" {
      AnchorFits(e, s.anchor, Allowance(b.anchor, left2), c.anchor);
    }
    var left3 := if c.anchor == "" then left2 else left2 - e.tokens(c.anchor);
    TrimFits(e.tokens, e.split, s.recent, Allowance(b.recent, left3), c.recent);
  }

  // ------------------------------------------------------------------ what each slot takes

  lemma SlotIsFloor(b: Budget, share: real, n: int)
    requires b.Effective() >= 0 && share >= 0.0
    ensures n <= b.Slot(share) <==> n as real <= b.Effective() as real * share
  {
    assert b.Effective() as real * share >= 0.0;
  }

  /** A share comes to whole tokens by dropping the fraction, also of a share below nothing. */
  lemma SlotTruncates(b: Budget, share: real)
    ensures var exact, whole := (b.maxTokens - b.completionReserve) as real * share, b.Slot(share) as real;
            if exact >= 0.0 then whole <= exact < whole + 1.0 else exact <= whole < exact + 1.0
  {
  }

  predicate WithinShare(b: Budget, share: real, n: int) {
    n as real <= (b.maxTokens - b.completionReserve) as real * share
  }

  lemma SlotIsWithinShare(b: Budget, share: real, n: int)
    requires b.Effective() >= 0 && share >= 0.0 && n <= b.Slot(share)
    ensures WithinShare(b, share, n)
  {
    SlotIsFloor(b, share, n);
  }

  lemma PiecesBySlot(b: Budget, e: Setting, s: Sources, c: Context)
    requires Subadditive(e.tokens) && IsAssembly(SlotsOf(b), e, s, c) && NotNegative(SlotsOf(b))
    ensures TotalTokens(e.tokens, c.chunks) <= b.Slot(b.ragShare)
    ensures e.tokens(c.summary) <= b.Slot(b.summaryShare)
    ensures e.tokens(c.anchor) - e.tokens(e.header) <= b.Slot(b.anchorShare)
    ensures e.tokens(c.recent) <= b.Slot(b.recentShare)
  {
    SlotsBoundPieces(SlotsOf(b), e, s, c);
  }

  /** Each slot costs at most its own share of the budget, the anchor beside its heading. */
  lemma SlotsCostTheirShare(b: Budget, e: Setting, s: Sources, c: Context)
    requires Subadditive(e.tokens) && IsAssembly(SlotsOf(b), e, s, c) && b.Effective() >= 0
    requires b.ragShare >= 0.0 && b.summaryShare >= 0.0 && b.anchorShare >= 0.0 && b.recentShare >= 0.0
    ensures WithinShare(b, b.ragShare, TotalTokens(e.tokens, c.chunks))
    ensures WithinShare(b, b.summaryShare, e.tokens(c.summary))
    ensures WithinShare(b, b.anchorShare, e.tokens(c.anchor) - e.tokens(e.header))
    ensures WithinShare(b, b.recentShare, e.tokens(c.recent))
  {
    SlotsNotNegative(b);
    PiecesBySlot(b, e, s, c);
    SlotIsWithinShare(b, b.ragShare, TotalTokens(e.tokens, c.chunks));
    SlotIsWithinShare(b, b.summaryShare, e.tokens(c.summary));
    SlotIsWithinShare(b, b.anchorShare, e.tokens(c.anchor) - e.tokens(e.header));
    SlotIsWithinShare(b, b.recentShare, e.tokens(c.recent));
  }

  /** A text of `n` tokens fits a slot: its own share, and the whole budget beside what was `taken` before it. */
  predicate FitsSlot(b: Budget, share: real, taken: int, n: int) {
    WithinShare(b, share, n) && taken + n <= b.Effective()
  }

  lemma FitsAllowance(b: Budget, share: real, taken: int, n: nat)
    requires b.Effective() >= 0 && share >= 0.0 && FitsSlot(b, share, taken, n)
    ensures n <= Allowance(b.Slot(share), b.Effective() - taken)
  {
    SlotIsFloor(b, share, n);
  }

  lemma {:induction false} TotalOfPrefix(tokens: Tokenizer, texts: seq<string>, n: nat)
    requires n <= |texts|
    ensures TotalTokens(tokens, texts[..n]) <= TotalTokens(tokens, texts)
    decreases |texts|
  {
    if n < |texts| {
      TotalOfPrefix(tokens, texts[..|texts| - 1], n);
      assert texts[..|texts| - 1][..n] == texts[..n];
    } else {
      assert texts[..n] == texts;
    }
  }

  lemma PackingIsWhole(tokens: Tokenizer, ranked: seq<string>, budget: int, packed: seq<string>)
    requires IsPacking(tokens, ranked, budget, packed) && TotalTokens(tokens, UpTo(ranked, FINAL_K)) <= budget
    ensures packed == UpTo(ranked, FINAL_K)
  {
    var best := UpTo(ranked, FINAL_K);
    if |packed| < |best| {
      TotalOfPrefix(tokens, best, |packed| + 1);
    }
  }

  /** What fits is shown whole. Pinned text is served first, then the eight best chunks, the summary, the anchor if it has drifted
      out of that summary, and the recent turns. */
  lemma SlotsShowWhatFits(b: Budget, e: Setting, s: Sources, c: Context)
    requires IsAssembly(SlotsOf(b), e, s, c) && b.Effective() >= 0 && e.header != ""
    requires b.ragShare >= 0.0 && b.summaryShare >= 0.0 && b.anchorShare >= 0.0 && b.recentShare >= 0.0
    ensures (c.instructions, c.system, c.core) == (s.instructions, s.system, s.core)
    ensures var t := e.tokens;
            var pinned := t(s.instructions) + t(s.system) + t(s.core);
            var packed := pinned + t(c.Retrieved());
            var summed := packed + t(c.summary);
            var anchored := summed + if c.anchor == "" then 0 else t(c.anchor);
            var best := s.ranked[..Min(8, |s.ranked|)];
            && (FitsSlot(b, b.ragShare, pinned, TotalTokens(t, best)) ==> c.chunks == best)
            && (FitsSlot(b, b.summaryShare, packed, t(s.summary)) ==> c.summary == s.summary)
            && (!e.drifted(s.anchor, c.summary) ==> c.anchor == "")
            && (e.drifted(s.anchor, c.summary) && FitsSlot(b, b.anchorShare, summed, t(s.anchor)) ==>
                  c.anchor == if s.anchor == "" then "" else e.header + s.anchor)
            && (FitsSlot(b, b.recentShare, anchored, t(s.recent)) ==> c.recent == s.recent)
  {
    var t := e.tokens;
    var pinned := t(s.instructions) + t(s.system) + t(s.core);
    var packed := pinned + t(c.Retrieved());
    var summed := packed + t(c.summary);
    var anchored := summed + if c.anchor == "" then 0 else t(c.anchor);
    var best := s.ranked[..Min(8, |s.ranked|)];
    if FitsSlot(b, b.ragShare, pinned, TotalTokens(t, best)) {
      FitsAllowance(b, b.ragShare, pinned, TotalTokens(t, best));
      PackingIsWhole(t, s.ranked, Allowance(b.Slot(b.ragShare), b.Effective() - pinned), c.chunks);
    }
    if FitsSlot(b, b.summaryShare, packed, t(s.summary)) {
      FitsAllowance(b, b.summaryShare, packed, t(s.summary));
    }
    if e.drifted(s.anchor, c.summary) && FitsSlot(b, b.anchorShare, summed, t(s.anchor)) {
      FitsAllowance(b, b.anchorShare, summed, t(s.anchor));
    }
    if FitsSlot(b, b.recentShare, anchored, t(s.recent)) {
      FitsAllowance(b, b.recentShare, anchored, t(s.recent));
    }
  }

  /** A tokenizer that never merges across a seam, such as one that counts characters. */
  ghost predicate Additive(tokens: Tokenizer) {
    forall a, b :: tokens(a + b) == tokens(a) + tokens(b)
  }

  lemma AdditiveIsSubadditive(tokens: Tokenizer)
    requires Additive(tokens)
    ensures Subadditive(tokens)
  {
    assert "" + "" == "";
  }

  lemma {:induction false} JoinCostsExactly(tokens: Tokenizer, separator: string, parts: seq<string>)
    requires Additive(tokens)
    ensures tokens(Join(separator, parts)) == SumOf(tokens, parts) + Max(0, |parts| - 1) * tokens(separator)
    decreases |parts|
  {
    AdditiveIsSubadditive(tokens);
    if |parts| > 1 {
      JoinCostsExactly(tokens, separator, parts[1..]);
      var rest := Join(separator, parts[1..]);
      assert tokens(parts[0] + separator + rest) == tokens(parts[0] + separator) + tokens(rest);
      assert tokens(parts[0] + separator) == tokens(parts[0]) + tokens(separator);
      assert (|parts| - 1) * tokens(separator) == (|parts[1..]| - 1) * tokens(separator) + tokens(separator);
    }
  }

  /** How many of the pinned pieces are there at all. */
  function PinnedPieces(s: Sources): nat {
    |NonEmpty([s.instructions, s.system, s.core])|
  }

  lemma {:induction false} NonEmptyAppends(a: seq<string>, b: seq<string>)
    ensures NonEmpty(a + b) == NonEmpty(a) + NonEmpty(b)
    decreases |a|
  {
    if a == [] {
      assert a + b == b;
    } else {
      assert (a + b)[1..] == a[1..] + b;
      NonEmptyAppends(a[1..], b);
    }
  }

  lemma PromptCostsExactly(tokens: Tokenizer, c: Context, s: Sources)
    requires Additive(tokens) && (c.instructions, c.system, c.core) == (s.instructions, s.system, s.core)
    ensures var others := NonEmpty([c.anchor, c.Retrieved(), c.summary, c.recent]);
            tokens(c.AsPrompt()) ==
              tokens(s.instructions) + tokens(s.system) + tokens(s.core) + tokens(c.anchor) + tokens(c.Retrieved())
              + tokens(c.summary) + tokens(c.recent) + Max(0, PinnedPieces(s) + |others| - 1) * tokens("\n\n")
  {
    AdditiveIsSubadditive(tokens);
    var pinned, others := [s.instructions, s.system, s.core], [c.anchor, c.Retrieved(), c.summary, c.recent];
    var parts := [c.instructions, c.system, c.core, c.anchor, c.Retrieved(), c.summary, c.recent];
    assert parts == pinned + others;
    NonEmptyAppends(pinned, others);
    JoinCostsExactly(tokens, "\n\n", NonEmpty(parts));
    NonEmptyCosts(tokens, parts);
    SumOfSeven(tokens, parts);
  }

  /** The budget is overrun, whatever the slots hold, as soon as the pinned pieces and the blank lines between them are over
      it: the blank lines are budgeted nowhere. So pinned text that fills the budget in two or more pieces overruns it. */
  lemma PinnedPiecesOverrun(b: Budget, e: Setting, s: Sources, c: Context)
    requires Additive(e.tokens) && IsAssembly(SlotsOf(b), e, s, c)
    requires e.tokens(s.instructions) + e.tokens(s.system) + e.tokens(s.core)
             + Max(0, PinnedPieces(s) - 1) * e.tokens("\n\n") > b.Effective()
    ensures e.tokens(c.AsPrompt()) > b.Effective()
  {
    PromptCostsExactly(e.tokens, c, s);
    var others := NonEmpty([c.anchor, c.Retrieved(), c.summary, c.recent]);
    MulMonotone(Max(0, PinnedPieces(s) - 1), Max(0, PinnedPieces(s) + |others| - 1), e.tokens("\n\n"));
  }

  lemma NothingElse(b: Slots, e: Setting, s: Sources, c: Context)
    requires IsAssembly(b, e, s, c) && s.ranked == [] && s.summary == "" && s.anchor == "" && s.recent == ""
    ensures c.chunks == [] && c.Retrieved() == "" && c.summary == "" && c.recent == "" && c.anchor == ""
    ensures NonEmpty([c.anchor, c.Retrieved(), c.summary, c.recent]) == []
  {
    assert UpTo(s.ranked, FINAL_K) == [];
    AllEmpty([c.anchor, c.Retrieved(), c.summary, c.recent]);
  }

  lemma {:induction false} AllEmpty(parts: seq<string>)
    requires forall i :: 0 <= i < |parts| ==> parts[i] == ""
    ensures NonEmpty(parts) == []
    decreases |parts|
  {
    if parts != [] {
      AllEmpty(parts[1..]);
    }
  }

  /** The pinned pieces as the prompt shows them. */
  function PinnedText(s: Sources): string {
    Join("\n\n", NonEmpty([s.instructions, s.system, s.core]))
  }

  lemma {:induction false} JoinAppends(separator: string, a: seq<string>, b: seq<string>)
    requires a != [] && b != []
    ensures Join(separator, a + b) == Join(separator, a) + separator + Join(separator, b)
    decreases |a|
  {
    assert (a + b)[1..] == a[1..] + b;
    if |a| > 1 {
      JoinAppends(separator, a[1..], b);
      assert a[0] + separator + (Join(separator, a[1..]) + separator + Join(separator, b))
          == a[0] + separator + Join(separator, a[1..]) + separator + Join(separator, b);
    } else {
      assert a[1..] + b == b;
    }
  }

  lemma PromptBeginsWithPinned(s: Sources, c: Context) returns (rest: string)
    requires (c.instructions, c.system, c.core) == (s.instructions, s.system, s.core)
    ensures c.AsPrompt() == PinnedText(s) + rest
    ensures NonEmpty([c.anchor, c.Retrieved(), c.summary, c.recent]) == [] ==> rest == ""
  {
    var pinned, others := [s.instructions, s.system, s.core], [c.anchor, c.Retrieved(), c.summary, c.recent];
    assert [c.instructions, c.system, c.core, c.anchor, c.Retrieved(), c.summary, c.recent] == pinned + others;
    NonEmptyAppends(pinned, others);
    var a, b := NonEmpty(pinned), NonEmpty(others);
    if a == [] {
      assert a + b == b;
      rest := c.AsPrompt();
    } else if b == [] {
      assert a + b == a;
      rest := "";
    } else {
      JoinAppends("\n\n", a, b);
      rest := "\n\n" + Join("\n\n", b);
    }
  }

  /** A tokenizer for which more text is never fewer tokens. */
  ghost predicate Growing(tokens: Tokenizer) {
    forall a, b :: tokens(a) <= tokens(a + b)
  }

  /** Whatever the slots hold, the prompt is over the budget as soon as its pinned text, blank lines included, is. */
  lemma PinnedTextOverruns(b: Budget, e: Setting, s: Sources, c: Context)
    requires Growing(e.tokens) && IsAssembly(SlotsOf(b), e, s, c)
    requires e.tokens(PinnedText(s)) > b.Effective()
    ensures e.tokens(c.AsPrompt()) > b.Effective()
  {
    var rest := PromptBeginsWithPinned(s, c);
  }

  /** With nothing but pinned text, and with any tokenizer, the prompt is that text and fits exactly when it does; with additive
      counts, when the pieces and the blank lines between them do. */
  lemma PinnedAloneFitsExactlyWhen(b: Budget, e: Setting, s: Sources, c: Context)
    requires IsAssembly(SlotsOf(b), e, s, c)
    requires s.ranked == [] && s.summary == "" && s.anchor == "" && s.recent == ""
    ensures c.AsPrompt() == PinnedText(s)
    ensures Additive(e.tokens) ==>
              (e.tokens(c.AsPrompt()) <= b.Effective() <==>
                e.tokens(s.instructions) + e.tokens(s.system) + e.tokens(s.core)
                + Max(0, PinnedPieces(s) - 1) * e.tokens("\n\n") <= b.Effective())
  {
    NothingElse(SlotsOf(b), e, s, c);
    var rest := PromptBeginsWithPinned(s, c);
    if Additive(e.tokens) {
      AdditiveIsSubadditive(e.tokens);
      PromptCostsExactly(e.tokens, c, s);
    }
  }

  /** Counting characters, two pinned pieces that fill a budget of two make a prompt of four, whatever the shares. */
  lemma BudgetCanBeOverrun(b: Budget, e: Setting, c: Context)
    requires b.Effective() == 2 && forall t :: e.tokens(t) == |t|
    requires IsAssembly(SlotsOf(b), e, Sources("a", "b", "", [], "", "", ""), c)
    ensures AfterPinned(SlotsOf(b), e.tokens, Sources("a", "b", "", [], "", "", "")) == 0
    ensures c.AsPrompt() == "a\n\nb" && e.tokens(c.AsPrompt()) == 4
  {
    PinnedAloneFitsExactlyWhen(b, e, Sources("a", "b", "", [], "", "", ""), c);
    assert NonEmpty(["a", "b", ""]) == ["a", "b"];
  }

  predicate EndsWith(text: string, end: string) {
    |end| <= |text| && text[|text| - |end|..] == end
  }

  lemma {:induction false} JoinEnds(separator: string, parts: seq<string>)
    requires parts != []
    ensures var text := Join(separator, parts);
            parts[0] <= text && EndsWith(text, parts[|parts| - 1])
    decreases |parts|
  {
    if |parts| > 1 {
      JoinEnds(separator, parts[1..]);
    }
  }

  lemma {:induction false} NonEmptyEnds(parts: seq<string>)
    requires parts != []
    ensures parts[0] != "" ==> NonEmpty(parts) != [] && NonEmpty(parts)[0] == parts[0]
    ensures var last := parts[|parts| - 1];
            last != "" ==> NonEmpty(parts) != [] && NonEmpty(parts)[|NonEmpty(parts)| - 1] == last
    decreases |parts|
  {
    if |parts| > 1 {
      NonEmptyEnds(parts[1..]);
    }
  }

  /** The pinned instructions stand at the very head of the prompt, and the recent turns at its very end. */
  lemma PromptEnds(c: Context)
    ensures c.instructions != "" ==> c.instructions <= c.AsPrompt()
    ensures c.recent != "" ==> EndsWith(c.AsPrompt(), c.recent)
  {
    var parts := [c.instructions, c.system, c.core, c.anchor, c.Retrieved(), c.summary, c.recent];
    NonEmptyEnds(parts);
    if NonEmpty(parts) != [] {
      JoinEnds("\n\n", NonEmpty(parts));
    }
  }

  function Glue(separator: string, a: seq<string>, b: seq<string>): string {
    if a == [] || b == [] then "" else separator
  }

  lemma JoinSplits(separator: string, a: seq<string>, b: seq<string>)
    ensures Join(separator, a + b) == Join(separator, a) + Glue(separator, a, b) + Join(separator, b)
  {
    if a == [] {
      assert a + b == b;
    } else if b == [] {
      assert a + b == a;
    } else {
      JoinAppends(separator, a, b);
    }
  }

  /** The pieces that are there stand in this order, each whole. */
  lemma PiecesInOrder(c: Context, i: nat, j: nat) returns (before: string, between: string, after: string)
    requires var parts := [c.instructions, c.system, c.core, c.anchor, Join("\n\n", c.chunks), c.summary, c.recent];
             i < j < |parts| && parts[i] != "" && parts[j] != ""
    ensures var parts := [c.instructions, c.system, c.core, c.anchor, Join("\n\n", c.chunks), c.summary, c.recent];
            c.AsPrompt() == before + parts[i] + between + parts[j] + after
  {
    var parts := [c.instructions, c.system, c.core, c.anchor, Join("\n\n", c.chunks), c.summary, c.recent];
    var x, y, z := parts[..i], parts[i + 1..j], parts[j + 1..];
    InFive(parts, i, j);
    before, between, after := JoinShowsBoth(x, parts[i], y, parts[j], z);
  }

  lemma InFive(parts: seq<string>, i: nat, j: nat)
    requires i < j < |parts|
    ensures parts == parts[..i] + ([parts[i]] + (parts[i + 1..j] + ([parts[j]] + parts[j + 1..])))
  {
    assert parts[i + 1..] == parts[i + 1..j] + parts[j..] && parts[j..] == [parts[j]] + parts[j + 1..];
    assert parts == parts[..i] + parts[i..] && parts[i..] == [parts[i]] + parts[i + 1..];
  }

  lemma JoinShowsBoth(x: seq<string>, p: string, y: seq<string>, q: string, z: seq<string>)
    returns (before: string, between: string, after: string)
    requires p != "" && q != ""
    ensures Join("\n\n", NonEmpty(x + ([p] + (y + ([q] + z))))) == before + p + between + q + after
  {
    NonEmptyAppends(x, [p] + (y + ([q] + z)));
    NonEmptyAppends([p], y + ([q] + z));
    NonEmptyAppends(y, [q] + z);
    NonEmptyAppends([q], z);
    assert NonEmpty([p]) == [p] && NonEmpty([q]) == [q];
    before, between, after := JoinOfFive(NonEmpty(x), p, NonEmpty(y), q, NonEmpty(z));
  }

  lemma JoinOfFive(x: seq<string>, p: string, y: seq<string>, q: string, z: seq<string>)
    returns (before: string, between: string, after: string)
    ensures Join("\n\n", x + ([p] + (y + ([q] + z)))) == before + p + between + q + after
  {
    var s := "\n\n";
    JoinSplits(s, x, [p] + (y + ([q] + z)));
    JoinSplits(s, [p], y + ([q] + z));
    JoinSplits(s, y, [q] + z);
    JoinSplits(s, [q], z);
    before := Join(s, x) + Glue(s, x, [p] + (y + ([q] + z)));
    between := Glue(s, [p], y + ([q] + z)) + Join(s, y) + Glue(s, y, [q] + z);
    after := Glue(s, [q], z) + Join(s, z);
  }
}
