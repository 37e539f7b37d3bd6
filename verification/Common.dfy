/** Small shared vocabulary: an optional value, integer bounds, Python's slice rules, text and its order. */
module Common {
  datatype Option<+T> = None | Some(value: T)

  function Max(a: int, b: int): int {
    if a >= b then a else b
  }

  function Min(a: int, b: int): int {
    if a <= b then a else b
  }

  /** Where a Python slice bound `i` falls in a list of length `n`: a negative bound counts from the end,
      and every bound is clamped into the list. */
  function SliceBound(i: int, n: nat): (k: nat)
    ensures k <= n
  {
    if i < 0 then Max(0, n + i) else Min(i, n)
  }

  /** Python's `s[i:]`. */
  function From<T>(s: seq<T>, i: int): seq<T> {
    s[SliceBound(i, |s|)..]
  }

  /** Python's `s[:i]`. */
  function UpTo<T>(s: seq<T>, i: int): seq<T> {
    s[..SliceBound(i, |s|)]
  }

  ghost predicate Distinct<T(!new)>(s: seq<T>) {
    forall i, j :: 0 <= i < j < |s| ==> s[i] != s[j]
  }

  // ------------------------------------------------------------------ text

  function Join(sep: string, parts: seq<string>): string {
    if parts == [] then ""
    else if |parts| == 1 then parts[0]
    else parts[0] + sep + Join(sep, parts[1..])
  }

  /** Python's white space. */
  predicate IsSpace(c: char) {
    var n := c as int;
    || 9 <= n <= 13 || 28 <= n <= 32 || n in {0x85, 0xA0, 0x1680, 0x2028, 0x2029, 0x202F, 0x205F, 0x3000}
    || 0x2000 <= n <= 0x200A
  }

  function StripLeft(s: string): string {
    if s != "" && IsSpace(s[0]) then StripLeft(s[1..]) else s
  }

  function StripRight(s: string): string {
    if s != "" && IsSpace(s[|s| - 1]) then StripRight(s[..|s| - 1]) else s
  }

  function Strip(s: string): string {
    StripRight(StripLeft(s))
  }

  predicate PartAt(text: string, part: string, i: int) {
    0 <= i <= |text| - |part| && text[i..i + |part|] == part
  }

  /** Python's `part in text`. */
  predicate HasPart(text: string, part: string) {
    exists i :: 0 <= i <= |text| && PartAt(text, part, i)
  }

  predicate LexLess(a: string, b: string) {
    b != "" && (a == "" || a[0] < b[0] || (a[0] == b[0] && LexLess(a[1..], b[1..])))
  }

  lemma {:induction false} LexTotal(a: string, b: string)
    ensures a == b || LexLess(a, b) || LexLess(b, a)
  {
    if a != "" && b != "" && a[0] == b[0] {
      LexTotal(a[1..], b[1..]);
      assert a == [a[0]] + a[1..] && b == [b[0]] + b[1..];
    }
  }

  lemma {:induction false} LexTransitive(a: string, b: string, c: string)
    requires LexLess(a, b) && LexLess(b, c)
    ensures LexLess(a, c)
  {
    if a != "" && a[0] == b[0] && b[0] == c[0] {
      LexTransitive(a[1..], b[1..], c[1..]);
    }
  }

  lemma {:induction false} LexIrreflexive(a: string)
    ensures !LexLess(a, a)
  {
    if a != "" {
      LexIrreflexive(a[1..]);
    }
  }

  predicate IsLeast(s: set<string>, x: string) {
    x in s && forall y :: y in s ==> x == y || LexLess(x, y)
  }

  lemma LeastIsUnique(s: set<string>, x: string, y: string)
    requires IsLeast(s, x) && IsLeast(s, y)
    ensures x == y
  {
    if x != y {
      LexTransitive(x, y, x);
      LexIrreflexive(x);
    }
  }

  lemma {:induction false} SomeIsLeast(s: set<string>) returns (x: string)
    requires s != {}
    ensures IsLeast(s, x)
    decreases |s|
  {
    var y :| y in s;
    var rest := s - {y};
    assert s == rest + {y};
    if rest == {} {
      x := y;
    } else {
      var least := SomeIsLeast(rest);
      LexTotal(y, least);
      x := if LexLess(y, least) then y else least;
      forall z | z in s ensures x == z || LexLess(x, z) {
        if x == y && z in rest && z != least {
          LexTransitive(y, least, z);
        }
      }
    }
  }

  lemma OneLeast(s: set<string>)
    requires s != {}
    ensures exists x :: IsLeast(s, x)
    ensures forall x, y :: IsLeast(s, x) && IsLeast(s, y) ==> x == y
  {
    var least := SomeIsLeast(s);
    forall x, y | IsLeast(s, x) && IsLeast(s, y) ensures x == y {
      LeastIsUnique(s, x, y);
    }
  }

  function Members<T>(s: seq<T>): set<T> {
    set x | x in s
  }

  ghost predicate Ascending(s: seq<string>) {
    forall i, j :: 0 <= i < j < |s| ==> LexLess(s[i], s[j])
  }

  /** Python's `sorted(s)`. */
  function SortedList(s: set<string>): (r: seq<string>)
    ensures Members(r) == s && Ascending(r)
  {
    if s == {} then
      []
    else
      OneLeast(s);
      var x :| IsLeast(s, x);
      var rest := SortedList(s - {x});
      assert Members([x] + rest) == {x} + Members(rest);
      [x] + rest
  }
}
