/** Reading a file page by page: lines are split at newlines, numbered from 1, and cut with the host language's slices. */
module FilePaging {
  import opened Common

  /** `text.split("\n")`. */
  function Split(text: string): seq<string> {
    if text == "" then [""]
    else if text[0] == '\n' then [""] + Split(text[1..])
    else
      var rest := Split(text[1..]);
      if rest == [] then [text] else [[text[0]] + rest[0]] + rest[1..]
  }

  function WithNewlines(lines: seq<string>): seq<string> {
    seq(|lines|, i requires 0 <= i < |lines| => if i < |lines| - 1 then lines[i] + "\n" else lines[i])
  }

  function Normalized(text: string): seq<string> {
    var lines := WithNewlines(Split(text));
    if lines != [] && lines[|lines| - 1] == "" then lines[..|lines| - 1] else lines
  }

  function Concat(lines: seq<string>): string {
    if lines == [] then "" else lines[0] + Concat(lines[1..])
  }

  function ReadFile(text: string, offset: Option<int>, limit: Option<int>): string {
    if offset.None? && limit.None? then text
    else
      var selected := From(Normalized(text), if offset.Some? then Max(0, offset.value - 1) else 0);
      Concat(if limit.Some? then UpTo(selected, limit.value) else selected)
  }

  // ------------------------------------------------------------------ what a line is

  predicate IsLine(line: string) {
    line != "" && forall i :: 0 <= i < |line| - 1 ==> line[i] != '\n'
  }

  lemma NewLineFirst(lines: seq<string>)
    requires lines != []
    ensures Concat(WithNewlines([""] + lines)) == "\n" + Concat(WithNewlines(lines))
  {
    var after := WithNewlines([""] + lines);
    assert after[0] == "\n";
    assert after[1..] == WithNewlines(lines);
  }

  lemma LongerFirstLine(c: char, lines: seq<string>)
    requires lines != []
    ensures Concat(WithNewlines([[c] + lines[0]] + lines[1..])) == [c] + Concat(WithNewlines(lines))
  {
    var before, after := WithNewlines(lines), WithNewlines([[c] + lines[0]] + lines[1..]);
    assert after[0] == [c] + before[0];
    assert after[1..] == before[1..];
  }

  lemma {:induction false} SplitPieces(text: string)
    ensures Split(text) != []
    ensures forall i :: 0 <= i < |Split(text)| ==> '\n' !in Split(text)[i]
    ensures Concat(WithNewlines(Split(text))) == text
    decreases |text|
  {
    if text == "" {
      assert WithNewlines([""]) == [""];
      assert Concat([""]) == "" + Concat([]);
    } else {
      var rest := Split(text[1..]);
      SplitPieces(text[1..]);
      if text[0] == '\n' {
        NewLineFirst(rest);
      } else {
        LongerFirstLine(text[0], rest);
      }
    }
  }

  lemma {:induction false} JoinAppends(a: seq<string>, b: seq<string>)
    ensures Concat(a + b) == Concat(a) + Concat(b)
    decreases |a|
  {
    if a == [] {
      assert a + b == b;
    } else {
      assert (a + b)[1..] == a[1..] + b;
      JoinAppends(a[1..], b);
    }
  }

  /** Splitting, giving the newlines back and dropping the synthetic last line loses nothing, and every line kept is a
      non-empty one whose only newline is at its end. */
  lemma LinesAreLossless(text: string)
    ensures Concat(Normalized(text)) == text
    ensures forall i :: 0 <= i < |Normalized(text)| ==> IsLine(Normalized(text)[i])
  {
    SplitPieces(text);
    var lines := WithNewlines(Split(text));
    if lines[|lines| - 1] == "" {
      assert lines == lines[..|lines| - 1] + [""];
      JoinAppends(lines[..|lines| - 1], [""]);
      assert Concat([""]) == "" + Concat([]);
    }
  }

  // ------------------------------------------------------------------ pages

  /** `count` reads one after the other, each `k` further on than the one before. */
  function Pages(read: int -> string, k: int, from: int, count: nat): string
    decreases count
  {
    if count == 0 then "" else read(from) + Pages(read, k, from + k, count - 1)
  }

  lemma PageThenRest(lines: seq<string>, from: int, k: int)
    requires from >= 0 && k >= 1
    ensures Concat(From(lines, from)) == Concat(UpTo(From(lines, from), k)) + Concat(From(lines, from + k))
  {
    assert From(lines, from) == UpTo(From(lines, from), k) + From(lines, from + k);
    JoinAppends(UpTo(From(lines, from), k), From(lines, from + k));
  }

  /** Where `count` further pages end. */
  function EndOf(k: int, from: int, count: nat): int {
    if count == 0 then from else EndOf(k, from, count - 1) + k
  }

  lemma {:induction false} EndOfIsProduct(k: int, from: int, count: nat)
    ensures EndOf(k, from, count) == from + count * k
    decreases count
  {
    if count > 0 {
      EndOfIsProduct(k, from, count - 1);
      assert count * k == (count - 1) * k + k;
    }
  }

  lemma {:induction false} EndOfShifts(k: int, from: int, count: nat)
    requires count > 0
    ensures EndOf(k, from, count) == EndOf(k, from + k, count - 1)
    decreases count
  {
    if count > 1 {
      EndOfShifts(k, from, count - 1);
    }
  }

  lemma {:induction false} PagesReachEnd(read: int -> string, lines: seq<string>, k: int, from: int, count: nat)
    requires k >= 1 && from >= 0 && |lines| <= EndOf(k, from, count)
    requires forall i :: 0 <= i ==> read(i) == Concat(UpTo(From(lines, i), k))
    ensures Pages(read, k, from, count) == Concat(From(lines, from))
    decreases count
  {
    if count > 0 {
      PageThenRest(lines, from, k);
      EndOfShifts(k, from, count);
      PagesReachEnd(read, lines, k, from + k, count - 1);
    }
  }

  /** For every text and page size, the pages read at 1, 1+k, 1+2k, … give back exactly the text once they reach its end. */
  lemma PagesGiveBackText(text: string, k: int, count: nat)
    requires k >= 1 && |Normalized(text)| <= count * k
    ensures Pages(skip => ReadFile(text, Some(1 + skip), Some(k)), k, 0, count) == text
  {
    EndOfIsProduct(k, 0, count);
    PagesReachEnd(skip => ReadFile(text, Some(1 + skip), Some(k)), Normalized(text), k, 0, count);
    LinesAreLossless(text);
  }

  /** A page starts at its line number: reading from `offset` skips exactly the lines before it, and a non-positive offset
      skips none. */
  lemma OffsetSkipsLines(text: string, offset: int)
    ensures Concat(UpTo(Normalized(text), Max(0, offset - 1))) + ReadFile(text, Some(offset), None) == text
  {
    var lines, skip := Normalized(text), Max(0, offset - 1);
    LinesAreLossless(text);
    assert lines == UpTo(lines, skip) + From(lines, skip);
    JoinAppends(UpTo(lines, skip), From(lines, skip));
  }

  /** A limit takes that many lines; a negative one leaves off as many at the end. */
  lemma LimitTakesLines(text: string, limit: int)
    ensures var lines := Normalized(text);
            var cut := if limit >= 0 then Min(limit, |lines|) else Max(0, |lines| + limit);
            ReadFile(text, None, Some(limit)) + Concat(lines[cut..]) == text
  {
    var lines := Normalized(text);
    var cut := if limit >= 0 then Min(limit, |lines|) else Max(0, |lines| + limit);
    LinesAreLossless(text);
    assert From(lines, 0) == lines;
    CutInTwo(lines, cut);
  }

  lemma CutInTwo(lines: seq<string>, cut: nat)
    requires cut <= |lines|
    ensures Concat(lines[..cut]) + Concat(lines[cut..]) == Concat(lines)
  {
    assert lines == lines[..cut] + lines[cut..];
    JoinAppends(lines[..cut], lines[cut..]);
  }
}
