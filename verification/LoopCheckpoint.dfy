/** The stored form of a loop checkpoint, its reader, which never raises, and the best-effort store around them. */
module LoopCheckpoint {
  import opened Common

  const VERSION: int := 1

  /** A stored value. Mappings keep their keys in order. */
  datatype Value =
    | Null
    | Bool(b: bool)
    | Int(i: int)
    | Float(r: real)
    | Str(s: string)
    | List(items: seq<Value>)
    | Dict(keys: seq<string>, values: seq<Value>)

  /** The keys of a stored checkpoint, and any other a store may add. */
  datatype Key =
    | Version | TaskId | Goal | Messages | Used | AbsoluteTurns | GraceUsed | EditedFiles | TestsPassed | VerifyNudgesUsed
    | LoopSignatures | ToolsUsed | LoadedSkills | StartMonotonicOffset | Turn | Extra(name: string)

  type Doc = map<Key, Value>

  datatype Checkpoint = Checkpoint(
    taskId: string,
    goal: string,
    messages: seq<Value>,
    used: int,
    absoluteTurns: int,
    graceUsed: bool,
    editedFiles: seq<Value>,
    testsPassed: bool,
    verifyNudgesUsed: int,
    loopSignatures: seq<Value>,
    toolsUsed: seq<Value>,
    loadedSkills: seq<Value>,
    startMonotonicOffset: real,
    turn: int)

  function ToDict(c: Checkpoint): Doc {
    map[
      Version := Int(VERSION), TaskId := Str(c.taskId), Goal := Str(c.goal), Messages := List(c.messages),
      Used := Int(c.used), AbsoluteTurns := Int(c.absoluteTurns), GraceUsed := Bool(c.graceUsed),
      EditedFiles := List(c.editedFiles), TestsPassed := Bool(c.testsPassed), VerifyNudgesUsed := Int(c.verifyNudgesUsed),
      LoopSignatures := List(c.loopSignatures), ToolsUsed := List(c.toolsUsed), LoadedSkills := List(c.loadedSkills),
      StartMonotonicOffset := Float(c.startMonotonicOffset), Turn := Int(c.turn)]
  }

  // ------------------------------------------------------------------ coercions

  /** How text reads as a number is the host language's business. */
  datatype Numbers = Numbers(asInt: string -> Option<int>, asFloat: string -> Option<real>)

  function AsInt(n: Numbers, v: Value): Option<int> {
    match v
    case Int(i) => Some(i)
    case Bool(b) => Some(if b then 1 else 0)
    case Float(r) => Some(if r >= 0.0 then r.Floor else -(-r).Floor)
    case Str(s) => n.asInt(s)
    case _ => None
  }

  function AsFloat(n: Numbers, v: Value): Option<real> {
    match v
    case Int(i) => Some(i as real)
    case Bool(b) => Some(if b then 1.0 else 0.0)
    case Float(r) => Some(r)
    case Str(s) => n.asFloat(s)
    case _ => None
  }

  function Truthy(v: Value): bool {
    match v
    case Null => false
    case Bool(b) => b
    case Int(i) => i != 0
    case Float(r) => r != 0.0
    case Str(s) => s != ""
    case List(items) => items != []
    case Dict(keys, _) => keys != []
  }

  function Texts(s: seq<string>): seq<Value> {
    seq(|s|, i requires 0 <= i < |s| => Str(s[i]))
  }

  /** The texts of a list. */
  function Strings(values: seq<Value>): seq<string> {
    if values == [] then []
    else if values[0].Str? then [values[0].s] + Strings(values[1..])
    else Strings(values[1..])
  }

  lemma {:induction false} StringsOfTexts(s: seq<string>)
    ensures Strings(Texts(s)) == s
    decreases |s|
  {
    if s != [] {
      StringsOfTexts(s[1..]);
      assert Texts(s)[1..] == Texts(s[1..]);
    }
  }

  /** `list(v or [])`. */
  function AsList(v: Value): Option<seq<Value>> {
    if !Truthy(v) then Some([])
    else
      match v
      case List(items) => Some(items)
      case Str(s) => Some(seq(|s|, i requires 0 <= i < |s| => Str([s[i]])))
      case Dict(keys, _) => Some(Texts(keys))
      case _ => None
  }

  function Get(d: Doc, k: Key, default: Value): Value {
    if k in d then d[k] else default
  }

  // ------------------------------------------------------------------ the reader

  predicate HasRequired(n: Numbers, d: Doc) {
    && AsInt(n, Get(d, Version, Int(-1))) == Some(VERSION)
    && TaskId in d && d[TaskId].Str? && Goal in d && d[Goal].Str? && Messages in d && d[Messages].List?
  }

  function FromDict(n: Numbers, doc: Option<Doc>): Option<Checkpoint> {
    if doc.None? || !HasRequired(n, doc.value) then None
    else
      var d := doc.value;
      var used, turns := AsInt(n, Get(d, Used, Int(0))), AsInt(n, Get(d, AbsoluteTurns, Int(0)));
      var edited := AsList(Get(d, EditedFiles, List([])));
      var nudges := AsInt(n, Get(d, VerifyNudgesUsed, Int(0)));
      var signatures, tools := AsList(Get(d, LoopSignatures, List([]))), AsList(Get(d, ToolsUsed, List([])));
      var loaded := AsList(Get(d, LoadedSkills, List([])));
      var offset, turn := AsFloat(n, Get(d, StartMonotonicOffset, Float(0.0))), AsInt(n, Get(d, Turn, Int(0)));
      if used.None? || turns.None? || edited.None? || nudges.None? || signatures.None? || tools.None? || loaded.None?
         || offset.None? || turn.None?
      then None
      else
        Some(Checkpoint(
               d[TaskId].s, d[Goal].s, d[Messages].items, used.value, turns.value, Truthy(Get(d, GraceUsed, Bool(false))),
               edited.value, Truthy(Get(d, TestsPassed, Bool(false))), nudges.value, signatures.value, tools.value,
               loaded.value, offset.value, turn.value))
  }

  ghost predicate Holds(d: Doc, k: Key, v: Value) {
    k in d && d[k] == v
  }

  lemma WritesScalars(c: Checkpoint, before: Doc)
    ensures var d := before + ToDict(c);
            && Holds(d, Version, Int(VERSION)) && Holds(d, TaskId, Str(c.taskId)) && Holds(d, Goal, Str(c.goal))
            && Holds(d, Used, Int(c.used)) && Holds(d, AbsoluteTurns, Int(c.absoluteTurns))
            && Holds(d, GraceUsed, Bool(c.graceUsed)) && Holds(d, TestsPassed, Bool(c.testsPassed))
            && Holds(d, VerifyNudgesUsed, Int(c.verifyNudgesUsed))
            && Holds(d, StartMonotonicOffset, Float(c.startMonotonicOffset)) && Holds(d, Turn, Int(c.turn))
  {
  }

  lemma WritesLists(c: Checkpoint, before: Doc)
    ensures var d := before + ToDict(c);
            && Holds(d, Messages, List(c.messages)) && Holds(d, EditedFiles, List(c.editedFiles))
            && Holds(d, LoopSignatures, List(c.loopSignatures)) && Holds(d, ToolsUsed, List(c.toolsUsed))
            && Holds(d, LoadedSkills, List(c.loadedSkills))
  {
  }

  lemma ListReads(items: seq<Value>)
    ensures AsList(List(items)) == Some(items)
  {
  }

  lemma HeldReads(n: Numbers, c: Checkpoint, d: Doc)
    requires Holds(d, Version, Int(VERSION)) && Holds(d, TaskId, Str(c.taskId)) && Holds(d, Goal, Str(c.goal))
    requires Holds(d, Used, Int(c.used)) && Holds(d, AbsoluteTurns, Int(c.absoluteTurns))
    requires Holds(d, GraceUsed, Bool(c.graceUsed)) && Holds(d, TestsPassed, Bool(c.testsPassed))
    requires Holds(d, VerifyNudgesUsed, Int(c.verifyNudgesUsed))
    requires Holds(d, StartMonotonicOffset, Float(c.startMonotonicOffset)) && Holds(d, Turn, Int(c.turn))
    requires Holds(d, Messages, List(c.messages)) && Holds(d, EditedFiles, List(c.editedFiles))
    requires Holds(d, LoopSignatures, List(c.loopSignatures)) && Holds(d, ToolsUsed, List(c.toolsUsed))
    requires Holds(d, LoadedSkills, List(c.loadedSkills))
    ensures FromDict(n, Some(d)) == Some(c)
  {
    ListReads(c.editedFiles);
    ListReads(c.loopSignatures);
    ListReads(c.toolsUsed);
    ListReads(c.loadedSkills);
  }

  /** What was written reads back exactly, whatever the document held before and whatever keys a store adds. */
  lemma RoundTrip(n: Numbers, c: Checkpoint, before: Doc)
    ensures FromDict(n, Some(before + ToDict(c))) == Some(c)
  {
    WritesScalars(c, before);
    WritesLists(c, before);
    HeldReads(n, c, before + ToDict(c));
  }

  /** What is read was really there: the version, and the required fields at their types. A document that misreports any of
      them is refused. */
  lemma AcceptedIsGenuine(n: Numbers, d: Doc, c: Checkpoint)
    requires FromDict(n, Some(d)) == Some(c)
    ensures Version in d && AsInt(n, d[Version]) == Some(VERSION)
    ensures TaskId in d && d[TaskId] == Str(c.taskId) && Goal in d && d[Goal] == Str(c.goal)
    ensures Messages in d && d[Messages] == List(c.messages)
  {
  }

  /** `i` is the whole number that the stored value stands for. */
  ghost predicate StandsForInt(n: Numbers, v: Value, i: int) {
    match v
    case Int(j) => i == j
    case Bool(b) => i == (if b then 1 else 0)
    case Float(r) => if r >= 0.0 then i as real <= r < (i + 1) as real else (i - 1) as real < r <= i as real
    case Str(s) => n.asInt(s) == Some(i)
    case _ => false
  }

  ghost predicate StandsForReal(n: Numbers, v: Value, x: real) {
    match v
    case Int(j) => x == j as real
    case Bool(b) => x == (if b then 1.0 else 0.0)
    case Float(r) => x == r
    case Str(s) => n.asFloat(s) == Some(x)
    case _ => false
  }

  /** A flag is off when the value is empty or zero. */
  ghost predicate StandsForFlag(v: Value, b: bool) {
    !b <==> v in {Null, Bool(false), Int(0), Float(0.0), Str(""), List([])} || (v.Dict? && v.keys == [])
  }

  /** A list is itself, an empty or zero value the empty list, a text its characters and a mapping its keys. */
  ghost predicate StandsForList(v: Value, items: seq<Value>) {
    match v
    case List(list) => items == list
    case Str(s) => |items| == |s| && forall i :: 0 <= i < |s| ==> items[i] == Str([s[i]])
    case Dict(keys, _) => |items| == |keys| && forall i :: 0 <= i < |keys| ==> items[i] == Str(keys[i])
    case _ => items == [] && v in {Null, Bool(false), Int(0), Float(0.0)}
  }

  lemma IntsRead(n: Numbers, v: Value, i: int)
    ensures AsInt(n, v) == Some(i) <==> StandsForInt(n, v, i)
  {
  }

  lemma RealsRead(n: Numbers, v: Value, x: real)
    ensures AsFloat(n, v) == Some(x) <==> StandsForReal(n, v, x)
  {
  }

  lemma FlagsRead(v: Value)
    ensures StandsForFlag(v, Truthy(v))
  {
  }

  lemma ListsRead(v: Value, items: seq<Value>)
    ensures AsList(v) == Some(items) <==> StandsForList(v, items)
  {
    if StandsForList(v, items) && AsList(v).Some? {
      assert AsList(v).value == items;
    }
  }

  /** Every field of an accepted document is what its key holds, or, where the key is missing, the default: nothing used, no
      turns, no flags and empty lists. */
  lemma AcceptedMeans(n: Numbers, d: Doc, c: Checkpoint)
    requires FromDict(n, Some(d)) == Some(c)
    ensures StandsForInt(n, Get(d, Used, Int(0)), c.used)
    ensures StandsForInt(n, Get(d, AbsoluteTurns, Int(0)), c.absoluteTurns)
    ensures StandsForInt(n, Get(d, VerifyNudgesUsed, Int(0)), c.verifyNudgesUsed)
    ensures StandsForInt(n, Get(d, Key.Turn, Int(0)), c.turn)
    ensures StandsForReal(n, Get(d, StartMonotonicOffset, Float(0.0)), c.startMonotonicOffset)
    ensures StandsForFlag(Get(d, GraceUsed, Bool(false)), c.graceUsed)
    ensures StandsForFlag(Get(d, TestsPassed, Bool(false)), c.testsPassed)
    ensures StandsForList(Get(d, EditedFiles, List([])), c.editedFiles)
    ensures StandsForList(Get(d, LoopSignatures, List([])), c.loopSignatures)
    ensures StandsForList(Get(d, ToolsUsed, List([])), c.toolsUsed)
    ensures StandsForList(Get(d, LoadedSkills, List([])), c.loadedSkills)
  {
    IntsRead(n, Get(d, Used, Int(0)), c.used);
    IntsRead(n, Get(d, AbsoluteTurns, Int(0)), c.absoluteTurns);
    IntsRead(n, Get(d, VerifyNudgesUsed, Int(0)), c.verifyNudgesUsed);
    IntsRead(n, Get(d, Key.Turn, Int(0)), c.turn);
    RealsRead(n, Get(d, StartMonotonicOffset, Float(0.0)), c.startMonotonicOffset);
    FlagsRead(Get(d, GraceUsed, Bool(false)));
    FlagsRead(Get(d, TestsPassed, Bool(false)));
    ListsRead(Get(d, EditedFiles, List([])), c.editedFiles);
    ListsRead(Get(d, LoopSignatures, List([])), c.loopSignatures);
    ListsRead(Get(d, ToolsUsed, List([])), c.toolsUsed);
    ListsRead(Get(d, LoadedSkills, List([])), c.loadedSkills);
  }

  /** Reading settles a document: written out again and read back, it stays the same checkpoint, although coerced fields and
      defaults may have changed the document itself. */
  lemma ReadingIsStable(n: Numbers, d: Doc)
    requires FromDict(n, Some(d)).Some?
    ensures FromDict(n, Some(ToDict(FromDict(n, Some(d)).value))) == FromDict(n, Some(d))
  {
    var c := FromDict(n, Some(d)).value;
    RoundTrip(n, c, map[]);
    assert map[] + ToDict(c) == ToDict(c);
  }

  // ------------------------------------------------------------------ the store

  /** One document per task. Any call may fail; failures are swallowed. */
  class CheckpointStore {
    const numbers: Numbers
    var docs: map<string, Doc>

    constructor (numbers: Numbers)
      ensures this.numbers == numbers && docs == map[]
    {
      this.numbers, docs := numbers, map[];
    }

    /** What a process that loads a task's checkpoint is given. */
    function Loaded(taskId: string): Option<Checkpoint>
      reads this
    {
      FromDict(numbers, if taskId in docs then Some(docs[taskId]) else None)
    }

    method Save(c: Checkpoint, fails: bool)
      modifies this
      ensures Loaded(c.taskId) == if fails then old(Loaded(c.taskId)) else Some(c)
      ensures docs - {c.taskId} == old(docs) - {c.taskId}
    {
      if fails {
        return;
      }
      var before := if c.taskId in docs then docs[c.taskId] else map[];
      RoundTrip(numbers, c, before);
      docs := docs[c.taskId := before + ToDict(c)];
    }

    method Load(taskId: string, fails: bool) returns (c: Option<Checkpoint>)
      ensures c == if fails then None else Loaded(taskId)
    {
      if fails || taskId !in docs {
        return None;
      }
      c := FromDict(numbers, Some(docs[taskId]));
    }

    method Clear(taskId: string, fails: bool)
      modifies this
      ensures docs == if fails then old(docs) else old(docs) - {taskId}
      ensures Loaded(taskId) == if fails then old(Loaded(taskId)) else None
    {
      if !fails {
        docs := docs - {taskId};
      }
    }
  }
}
