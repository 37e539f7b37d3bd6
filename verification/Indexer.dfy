/** The semantic index of code symbols: a derived store kept in step with the code database by polling.
    Edits of the database may fall between any two steps of a poll, and a poll may fail after any step. */
module Indexer {
  import opened Common

  type Path = string
  type NodeId = string
  type Stamp = nat

  /** One symbol: the file it is in, and everything its index entry is computed from. */
  datatype Row = Row(path: Path, text: string)

  type Rows = map<NodeId, Row>

  /** The rows of one file. */
  function At(rows: Rows, p: Path): Rows {
    map id | id in rows && rows[id].path == p :: rows[id]
  }

  function Excluding(rows: Rows, p: Path): Rows {
    map id | id in rows && rows[id].path != p :: rows[id]
  }

  // ------------------------------------------------------------------ the indexer

  predicate IsChanged(files: map<Path, Stamp>, seen: map<Path, Stamp>, p: Path) {
    p in files && (p !in seen || files[p] != seen[p])
  }

  ghost predicate IsListing(files: map<Path, Stamp>, seen: map<Path, Stamp>, changed: seq<Path>) {
    Distinct(changed) && forall p :: p in changed <==> IsChanged(files, seen, p)
  }

  function NewSeen(files: map<Path, Stamp>, seen: map<Path, Stamp>): map<Path, Stamp> {
    map p | p in seen.Keys + files.Keys :: if IsChanged(files, seen, p) then files[p] else seen[p]
  }

  /** The rows read for the changed files. */
  function Select(nodes: Rows, changed: seq<Path>): Rows {
    map id | id in nodes && nodes[id].path in changed :: nodes[id]
  }

  /** The index once the entries of `p` that are not in `keep` are deleted. */
  function Cleaned(index: Rows, p: Path, keep: set<NodeId>): Rows {
    map id | id in index && (index[id].path != p || id in keep) :: index[id]
  }

  function CleanedAll(index: Rows, paths: seq<Path>, keep: set<NodeId>): Rows {
    if paths == [] then index
    else Cleaned(CleanedAll(index, paths[..|paths| - 1], keep), paths[|paths| - 1], keep)
  }

  const BATCH_SIZE: nat := 64

  function Pick(nodes: Rows, ids: seq<NodeId>): Rows {
    map id | id in nodes && id in ids :: nodes[id]
  }

  lemma PickSplit(nodes: Rows, ids: seq<NodeId>, i: nat, j: nat)
    requires i <= j <= |ids|
    ensures Pick(nodes, ids[..i]) + Pick(nodes, ids[i..j]) == Pick(nodes, ids[..j])
  {
    assert ids[..j] == ids[..i] + ids[i..j];
  }

  class CodeGraphIndexer {
    var seen: map<Path, Stamp>
    var index: Rows

    constructor (collection: Rows)
      ensures seen == map[] && index == collection
    {
      seen, index := map[], collection;
    }

    /** Embeds everything in batches, unless the collection already holds something. */
    method FullIndex(ids: seq<NodeId>, nodes: Rows) returns (count: nat)
      requires Distinct(ids) && forall id :: id in ids <==> id in nodes
      modifies this`index
      ensures old(index) != map[] ==> index == old(index) && count == |old(index)|
      ensures old(index) == map[] ==> index == nodes && count == |ids|
    {
      if |index| > 0 {
        return |index|;
      }
      count := 0;
      while count < |ids|
        invariant count <= |ids|
        invariant index == Pick(nodes, ids[..count])
      {
        var next := Min(count + BATCH_SIZE, |ids|);
        PickSplit(nodes, ids, count, next);
        index := index + Pick(nodes, ids[count..next]);
        count := next;
      }
      assert ids[..|ids|] == ids;
    }

    method ChangedFiles(rows: seq<(Path, Stamp)>, ghost files: map<Path, Stamp>)
      returns (changed: seq<Path>, newSeen: map<Path, Stamp>)
      requires forall i, j :: 0 <= i < j < |rows| ==> rows[i].0 != rows[j].0
      requires files == map p | p in Firsts(rows) :: StampOf(rows, p)
      ensures IsListing(files, seen, changed)
      ensures newSeen == NewSeen(files, seen)
    {
      newSeen := seen;
      changed := [];
      for i := 0 to |rows|
        invariant ListedSoFar(files, seen, Firsts(rows[..i]), changed, newSeen)
      {
        var r := rows[i];
        StampOfAt(rows, i);
        FirstsAppend(rows, i);
        ListOneMore(files, seen, Firsts(rows[..i]), changed, newSeen, r.0);
        if r.0 !in seen || r.1 != seen[r.0] {
          newSeen := newSeen[r.0 := r.1];
          changed := changed + [r.0];
        }
      }
      assert rows[..|rows|] == rows;
      assert newSeen.Keys == NewSeen(files, seen).Keys;
    }

    /** Upserts the rows read, then deletes orphans file by file. The first `allowed` store operations succeed and the
        next one fails. */
    method IncrementalUpdate(changed: seq<Path>, rows: Rows, allowed: nat) returns (ok: bool)
      modifies this`index
      ensures ok <==> changed == [] || allowed > |changed|
      ensures index == IndexAfter(old(index), changed, rows, allowed)
    {
      if changed == [] {
        return true;
      }
      if allowed == 0 {
        return false;
      }
      index := index + rows;
      var cleaned := 0;
      while cleaned < |changed|
        invariant cleaned <= |changed| && cleaned <= allowed - 1
        invariant index == CleanedAll(old(index) + rows, changed[..cleaned], rows.Keys)
      {
        if allowed - 1 == cleaned {
          return false;
        }
        var p := changed[cleaned];
        assert changed[..cleaned + 1][..cleaned] == changed[..cleaned];
        index := Cleaned(index, p, rows.Keys);
        cleaned := cleaned + 1;
      }
      assert changed[..|changed|] == changed;
      ok := true;
    }

    /** One poll of `watch`: what was seen is recorded only once the whole update has gone through. */
    method Poll(rows: seq<(Path, Stamp)>, ghost files: map<Path, Stamp>, nodes: Rows, allowed: nat)
      returns (ok: bool, changed: seq<Path>)
      requires forall i, j :: 0 <= i < j < |rows| ==> rows[i].0 != rows[j].0
      requires files == map p | p in Firsts(rows) :: StampOf(rows, p)
      modifies this
      ensures IsListing(files, old(seen), changed)
      ensures ok <==> changed == [] || allowed > |changed|
      ensures seen == if ok then NewSeen(files, old(seen)) else old(seen)
      ensures index == IndexAfter(old(index), changed, Select(nodes, changed), allowed)
    {
      var newSeen;
      changed, newSeen := ChangedFiles(rows, files);
      ok := IncrementalUpdate(changed, Select(nodes, changed), allowed);
      if ok && changed != [] {
        seen := newSeen;
      }
      if changed == [] {
        NothingChanged(files, seen, changed);
      }
    }
  }

  /** The index after an update of which `allowed` store operations succeed: the upsert is the first, then one for each
      changed file. */
  function IndexAfter(index: Rows, changed: seq<Path>, rows: Rows, allowed: nat): Rows {
    if changed == [] || allowed == 0 then index
    else CleanedAll(index + rows, changed[..Min(allowed - 1, |changed|)], rows.Keys)
  }

  ghost function Firsts(rows: seq<(Path, Stamp)>): set<Path> {
    set i | 0 <= i < |rows| :: rows[i].0
  }

  ghost function StampOf(rows: seq<(Path, Stamp)>, p: Path): Stamp {
    if exists i :: 0 <= i < |rows| && rows[i].0 == p then
      var i :| 0 <= i < |rows| && rows[i].0 == p;
      rows[i].1
    else
      0
  }

  /** What the loop has found among the paths it is through with. */
  ghost predicate ListedSoFar(
    files: map<Path, Stamp>, seen: map<Path, Stamp>, done: set<Path>, changed: seq<Path>, newSeen: map<Path, Stamp>)
  {
    && Distinct(changed)
    && (forall p :: p in changed <==> p in done && IsChanged(files, seen, p))
    && (forall p :: p in newSeen <==> p in seen || p in changed)
    && forall p :: p in newSeen ==> newSeen[p] == if p in changed then files[p] else seen[p]
  }

  lemma ListOneMore(
    files: map<Path, Stamp>, seen: map<Path, Stamp>, done: set<Path>, changed: seq<Path>, newSeen: map<Path, Stamp>, p: Path)
    requires ListedSoFar(files, seen, done, changed, newSeen) && p in files && p !in done
    ensures if IsChanged(files, seen, p) then
              ListedSoFar(files, seen, done + {p}, changed + [p], newSeen[p := files[p]])
            else
              ListedSoFar(files, seen, done + {p}, changed, newSeen)
  {
    var longer := changed + [p];
    assert forall q :: q in longer <==> q in changed || q == p;
  }

  lemma StampOfAt(rows: seq<(Path, Stamp)>, i: nat)
    requires i < |rows| && forall j, k :: 0 <= j < k < |rows| ==> rows[j].0 != rows[k].0
    ensures StampOf(rows, rows[i].0) == rows[i].1 && rows[i].0 in Firsts(rows)
  {
  }

  lemma FirstsAppend(rows: seq<(Path, Stamp)>, i: nat)
    requires i < |rows|
    ensures Firsts(rows[..i + 1]) == Firsts(rows[..i]) + {rows[i].0}
    ensures (forall j, k :: 0 <= j < k < |rows| ==> rows[j].0 != rows[k].0) ==> rows[i].0 !in Firsts(rows[..i])
  {
    forall p | p in Firsts(rows[..i]) + {rows[i].0}
      ensures p in Firsts(rows[..i + 1])
    {
      if p == rows[i].0 {
        assert rows[..i + 1][i].0 == p;
      } else {
        var j :| 0 <= j < i && rows[..i][j].0 == p;
        assert rows[..i + 1][j].0 == p;
      }
    }
  }

  lemma NothingChanged(files: map<Path, Stamp>, seen: map<Path, Stamp>, changed: seq<Path>)
    requires IsListing(files, seen, changed) && changed == []
    ensures NewSeen(files, seen) == seen
  {
    forall p
      ensures !IsChanged(files, seen, p)
    {
      assert p !in changed;
    }
  }

  // ------------------------------------------------------------------ edits and polls, interleaved

  /** Where the poller is: between polls; with the changed files listed; with their rows read; or with the rows
      upserted and the first `done` files cleaned of orphans. */
  datatype Poller =
    | Idle
    | Listed(changed: seq<Path>, newSeen: map<Path, Stamp>)
    | Loaded(changed: seq<Path>, newSeen: map<Path, Stamp>, rows: Rows)
    | Cleaning(changed: seq<Path>, newSeen: map<Path, Stamp>, rows: Rows, done: nat)

  /** `stamps` is a history: the `indexed_at` values the database has given out. */
  datatype State = State(
    files: map<Path, Stamp>,
    nodes: Rows,
    stamps: set<Stamp>,
    index: Rows,
    seen: map<Path, Stamp>,
    poller: Poller)

  datatype Event =
    | Edit(p: Path, rows: Rows, stamp: Stamp)
    | Unlist(p: Path)
    | List(changed: seq<Path>)
    | Load
    | Upsert
    | CleanNext
    | Commit
    | Fail

  /** The database changes a file's rows only with a stamp it has not used before. */
  ghost predicate Enabled(s: State, e: Event) {
    match e
    case Edit(p, rows, stamp) =>
      && stamp !in s.stamps
      && (forall id :: id in rows ==> rows[id].path == p)
      && forall id :: id in rows && id in s.nodes ==> s.nodes[id].path == p
    case Unlist(p) => p in s.files
    case List(changed) => s.poller.Idle? && IsListing(s.files, s.seen, changed) && changed != []
    case Load => s.poller.Listed?
    case Upsert => s.poller.Loaded?
    case CleanNext => s.poller.Cleaning? && s.poller.done < |s.poller.changed|
    case Commit => s.poller.Cleaning? && s.poller.done >= |s.poller.changed|
    case Fail => !s.poller.Idle?
  }

  ghost function Next(s: State, e: Event): State
    requires Enabled(s, e)
  {
    match e
    case Edit(p, rows, stamp) =>
      s.(files := s.files[p := stamp], nodes := Excluding(s.nodes, p) + rows, stamps := s.stamps + {stamp})
    case Unlist(p) => s.(files := s.files - {p}, nodes := Excluding(s.nodes, p))
    case List(changed) => s.(poller := Listed(changed, NewSeen(s.files, s.seen)))
    case Load => s.(poller := Loaded(s.poller.changed, s.poller.newSeen, Select(s.nodes, s.poller.changed)))
    case Upsert =>
      s.(index := s.index + s.poller.rows, poller := Cleaning(s.poller.changed, s.poller.newSeen, s.poller.rows, 0))
    case CleanNext =>
      s.(index := Cleaned(s.index, s.poller.changed[s.poller.done], s.poller.rows.Keys),
         poller := s.poller.(done := s.poller.done + 1))
    case Commit => s.(seen := s.poller.newSeen, poller := Idle)
    case Fail => s.(poller := Idle)
  }

  /** The file is listed and the poller has seen its current version. */
  predicate Current(files: map<Path, Stamp>, seen: map<Path, Stamp>, p: Path) {
    p in files && p in seen && files[p] == seen[p]
  }

  /** A file seen in its current version has exactly the database's rows in the index. */
  ghost predicate InStep(s: State) {
    forall p :: Current(s.files, s.seen, p) ==> At(s.index, p) == At(s.nodes, p)
  }

  ghost predicate StampsKnown(s: State) {
    && (forall p :: p in s.files ==> s.files[p] in s.stamps)
    && (forall p :: p in s.seen ==> s.seen[p] in s.stamps)
  }

  /** The listing in hand names no file that is in step, and agrees with `seen` about every other. */
  ghost predicate ListingSound(s: State, changed: seq<Path>, newSeen: map<Path, Stamp>) {
    && (forall p :: p in newSeen ==> newSeen[p] in s.stamps)
    && (forall p :: p in changed ==> p in newSeen && !Current(s.files, s.seen, p))
    && (forall p :: p !in changed ==> (p in newSeen <==> p in s.seen) && (p in newSeen ==> newSeen[p] == s.seen[p]))
  }

  /** The rows in hand are the database's for every changed file not edited since, and belong to no file in step. */
  ghost predicate RowsSound(s: State, changed: seq<Path>, newSeen: map<Path, Stamp>, rows: Rows) {
    && (forall id :: id in rows ==> rows[id].path in changed)
    && (forall id :: id in rows && id in s.nodes ==> !Current(s.files, s.seen, s.nodes[id].path))
    && (forall p :: p in changed && Current(s.files, newSeen, p) ==> At(rows, p) == At(s.nodes, p))
  }

  ghost predicate CleaningSound(s: State, changed: seq<Path>, rows: Rows, done: nat) {
    && done <= |changed|
    && (forall id :: id in rows ==> id in s.index && s.index[id] == rows[id])
    && (forall i :: 0 <= i < done ==> At(s.index, changed[i]) == At(rows, changed[i]))
  }

  ghost predicate PollSound(s: State) {
    match s.poller
    case Idle => true
    case Listed(changed, newSeen) => ListingSound(s, changed, newSeen)
    case Loaded(changed, newSeen, rows) => ListingSound(s, changed, newSeen) && RowsSound(s, changed, newSeen, rows)
    case Cleaning(changed, newSeen, rows, done) =>
      && ListingSound(s, changed, newSeen)
      && RowsSound(s, changed, newSeen, rows)
      && CleaningSound(s, changed, rows, done)
  }

  ghost predicate Inv(s: State) {
    StampsKnown(s) && InStep(s) && PollSound(s)
  }

  lemma ExcludingAt(nodes: Rows, p: Path, rows: Rows, q: Path)
    requires forall id :: id in rows ==> rows[id].path == p
    requires forall id :: id in rows && id in nodes ==> nodes[id].path == p
    ensures q != p ==> At(Excluding(nodes, p) + rows, q) == At(nodes, q)
  {
    if q != p {
      var after := Excluding(nodes, p) + rows;
      forall id
        ensures id in At(after, q) <==> id in At(nodes, q)
      {
      }
    }
  }

  /** A database change to `p`: every other file keeps its rows and stamp, and `p` gets a stamp not used before. */
  ghost predicate Changes(s: State, s': State, p: Path) {
    && s'.index == s.index && s'.seen == s.seen && s'.poller == s.poller && s.stamps <= s'.stamps
    && (forall q :: q != p ==> At(s'.nodes, q) == At(s.nodes, q))
    && (forall q :: q != p ==> (q in s'.files <==> q in s.files) && (q in s.files ==> s'.files[q] == s.files[q]))
    && (p in s'.files ==> s'.files[p] in s'.stamps && s'.files[p] !in s.stamps)
  }

  lemma ChangeKeepsInStep(s: State, s': State, p: Path)
    requires StampsKnown(s) && InStep(s) && Changes(s, s', p)
    ensures StampsKnown(s') && InStep(s')
    ensures !Current(s'.files, s.seen, p)
  {
  }

  lemma ChangeKeepsListing(s: State, s': State, p: Path, changed: seq<Path>, newSeen: map<Path, Stamp>)
    requires StampsKnown(s) && Changes(s, s', p) && ListingSound(s, changed, newSeen)
    ensures ListingSound(s', changed, newSeen)
    ensures !Current(s'.files, newSeen, p)
  {
  }

  lemma ChangeKeepsRows(s: State, s': State, p: Path, changed: seq<Path>, newSeen: map<Path, Stamp>, rows: Rows)
    requires Changes(s, s', p) && RowsSound(s, changed, newSeen, rows)
    requires !Current(s'.files, s.seen, p) && !Current(s'.files, newSeen, p)
    ensures RowsSound(s', changed, newSeen, rows)
  {
    forall id | id in rows && id in s'.nodes
      ensures !Current(s'.files, s'.seen, s'.nodes[id].path)
    {
      var q := s'.nodes[id].path;
      if q != p {
        assert id in At(s'.nodes, q);
      }
    }
  }

  lemma ChangeKeepsInv(s: State, s': State, p: Path)
    requires Inv(s) && Changes(s, s', p)
    ensures Inv(s')
  {
    ChangeKeepsInStep(s, s', p);
    match s.poller
    case Idle =>
    case Listed(changed, newSeen) => ChangeKeepsListing(s, s', p, changed, newSeen);
    case Loaded(changed, newSeen, rows) =>
      ChangeKeepsListing(s, s', p, changed, newSeen);
      ChangeKeepsRows(s, s', p, changed, newSeen, rows);
    case Cleaning(changed, newSeen, rows, done) =>
      ChangeKeepsListing(s, s', p, changed, newSeen);
      ChangeKeepsRows(s, s', p, changed, newSeen, rows);
  }

  lemma UpsertKeepsInv(s: State)
    requires Inv(s) && s.poller.Loaded?
    ensures Inv(Next(s, Upsert))
  {
    var rows := s.poller.rows;
    var s' := Next(s, Upsert);
    forall p | Current(s.files, s.seen, p)
      ensures At(s'.index, p) == At(s.index, p)
    {
      forall id
        ensures id in At(s'.index, p) <==> id in At(s.index, p)
      {
        assert id in At(s.index, p) ==> id in At(s.nodes, p);
      }
    }
  }

  lemma CleaningLeavesOthers(index: Rows, p: Path, keep: set<NodeId>, q: Path)
    requires q != p
    ensures At(Cleaned(index, p, keep), q) == At(index, q)
  {
  }

  lemma CleaningMatchesRows(index: Rows, p: Path, rows: Rows)
    requires forall id :: id in rows ==> id in index && index[id] == rows[id]
    ensures At(Cleaned(index, p, rows.Keys), p) == At(rows, p)
  {
  }

  lemma CleanKeepsInStep(s: State, s': State)
    requires InStep(s) && s.poller.Cleaning? && ListingSound(s, s.poller.changed, s.poller.newSeen)
    requires s.poller.done < |s.poller.changed| && s'.files == s.files && s'.seen == s.seen && s'.nodes == s.nodes
    requires forall q :: q != s.poller.changed[s.poller.done] ==> At(s'.index, q) == At(s.index, q)
    ensures InStep(s')
  {
    assert s.poller.changed[s.poller.done] in s.poller.changed;
  }

  lemma CleanAdvances(s: State, s': State, changed: seq<Path>, rows: Rows, done: nat)
    requires CleaningSound(s, changed, rows, done) && done < |changed|
    requires s'.index == Cleaned(s.index, changed[done], rows.Keys)
    requires At(s'.index, changed[done]) == At(rows, changed[done])
    requires forall q :: q != changed[done] ==> At(s'.index, q) == At(s.index, q)
    ensures CleaningSound(s', changed, rows, done + 1)
  {
  }

  lemma CleanKeepsInv(s: State)
    requires Inv(s) && Enabled(s, CleanNext)
    ensures Inv(Next(s, CleanNext))
  {
    var s' := Next(s, CleanNext);
    var changed, rows, done := s.poller.changed, s.poller.rows, s.poller.done;
    var p := changed[done];
    assert p in changed;
    forall q | q != p
      ensures At(s'.index, q) == At(s.index, q)
    {
      CleaningLeavesOthers(s.index, p, rows.Keys, q);
    }
    CleaningMatchesRows(s.index, p, rows);
    CleanKeepsInStep(s, s');
    CleanAdvances(s, s', changed, rows, done);
  }

  lemma CommitKeepsInv(s: State)
    requires Inv(s) && Enabled(s, Commit)
    ensures Inv(Next(s, Commit))
  {
    var changed, rows := s.poller.changed, s.poller.rows;
    forall p | Current(s.files, s.poller.newSeen, p)
      ensures At(s.index, p) == At(s.nodes, p)
    {
      if p in changed {
        var i :| 0 <= i < |changed| && changed[i] == p;
        assert At(s.index, changed[i]) == At(rows, changed[i]);
      } else {
        assert Current(s.files, s.seen, p);
      }
    }
  }

  lemma LoadKeepsInv(s: State)
    requires Inv(s) && s.poller.Listed?
    ensures Inv(Next(s, Load))
  {
  }

  lemma InvStep(s: State, e: Event)
    requires Inv(s) && Enabled(s, e)
    ensures Inv(Next(s, e))
  {
    match e
    case Edit(p, rows, stamp) =>
      forall q | q != p
        ensures At(Next(s, e).nodes, q) == At(s.nodes, q)
      {
        ExcludingAt(s.nodes, p, rows, q);
      }
      ChangeKeepsInv(s, Next(s, e), p);
    case Unlist(p) =>
      forall q | q != p
        ensures At(Next(s, e).nodes, q) == At(s.nodes, q)
      {
      }
      ChangeKeepsInv(s, Next(s, e), p);
    case List(changed) =>
    case Load => LoadKeepsInv(s);
    case Upsert => UpsertKeepsInv(s);
    case CleanNext => CleanKeepsInv(s);
    case Commit => CommitKeepsInv(s);
    case Fail =>
  }

  /** As `watch` begins: whatever the collection holds, nothing has been seen. */
  ghost predicate Begun(s: State) {
    && s.seen == map[] && s.poller.Idle?
    && forall p :: p in s.files ==> s.files[p] in s.stamps
  }

  ghost function After(s: State, schedule: seq<Event>): Option<State> {
    if schedule == [] then
      Some(s)
    else
      var n := |schedule| - 1;
      match After(s, schedule[..n])
      case None => None
      case Some(s1) => if Enabled(s1, schedule[n]) then Some(Next(s1, schedule[n])) else None
  }

  lemma {:induction false} ReachableInv(s0: State, schedule: seq<Event>)
    requires Begun(s0) && After(s0, schedule).Some?
    ensures Inv(After(s0, schedule).value)
    decreases |schedule|
  {
    if schedule != [] {
      var n := |schedule| - 1;
      ReachableInv(s0, schedule[..n]);
      InvStep(After(s0, schedule[..n]).value, schedule[n]);
    }
  }

  /** Safety over every run of edits, polls and failed polls: a listed file whose seen stamp is its current stamp has
      index entries exactly equal to the database's rows for it. */
  lemma SeenMeansInStep(s0: State, schedule: seq<Event>, p: Path)
    requires Begun(s0) && After(s0, schedule).Some?
    ensures var s := After(s0, schedule).value;
            Current(s.files, s.seen, p) ==> At(s.index, p) == At(s.nodes, p)
  {
    ReachableInv(s0, schedule);
  }

  /** A failed poll forgets nothing: every file it had listed that is still in the database is listed again. */
  lemma FailedPollIsRetried(s0: State, schedule: seq<Event>, changed: seq<Path>, p: Path)
    requires Begun(s0) && After(s0, schedule).Some?
    requires var s := After(s0, schedule).value;
             !s.poller.Idle? && p in s.poller.changed && p in s.files
             && IsListing(Next(s, Fail).files, Next(s, Fail).seen, changed)
    ensures p in changed
  {
    ReachableInv(s0, schedule);
    var s := After(s0, schedule).value;
    assert ListingSound(s, s.poller.changed, s.poller.newSeen);
    assert !Current(s.files, s.seen, p);
    assert IsChanged(s.files, s.seen, p);
  }

  // ------------------------------------------------------------------ one poll as steps

  lemma AfterOneMore(s: State, schedule: seq<Event>, m: State, e: Event)
    requires After(s, schedule) == Some(m) && Enabled(m, e)
    ensures After(s, schedule + [e]) == Some(Next(m, e))
  {
    assert (schedule + [e])[..|schedule|] == schedule;
  }

  function Cleans(n: nat): seq<Event> {
    seq(n, i => CleanNext)
  }

  /** After `k` files have been cleaned. */
  ghost function CleanedTo(s: State, k: nat): State
    requires s.poller.Cleaning? && k <= |s.poller.changed|
  {
    s.(index := CleanedAll(s.index, s.poller.changed[..k], s.poller.rows.Keys), poller := s.poller.(done := k))
  }

  lemma CleansOne(s: State, k: nat)
    requires s.poller.Cleaning? && k < |s.poller.changed|
    ensures Enabled(CleanedTo(s, k), CleanNext)
    ensures Next(CleanedTo(s, k), CleanNext) == CleanedTo(s, k + 1)
  {
    assert s.poller.changed[..k + 1][..k] == s.poller.changed[..k];
  }

  lemma {:induction false} CleansRun(s: State, past: seq<Event>, m: State, k: nat)
    requires After(s, past) == Some(m) && m.poller.Cleaning? && m.poller.done == 0 && k <= |m.poller.changed|
    ensures After(s, past + Cleans(k)) == Some(CleanedTo(m, k))
    decreases k
  {
    if k == 0 {
      assert past + Cleans(0) == past && m.poller.changed[..0] == [];
    } else {
      CleansRun(s, past, m, k - 1);
      CleansOne(m, k - 1);
      AfterOneMore(s, past + Cleans(k - 1), CleanedTo(m, k - 1), CleanNext);
      assert past + Cleans(k - 1) + [CleanNext] == past + Cleans(k);
    }
  }

  /** The steps of a poll of which `allowed` store operations succeed. */
  function PollSteps(changed: seq<Path>, allowed: nat): seq<Event> {
    if changed == [] then []
    else if allowed == 0 then [List(changed), Load, Fail]
    else
      [List(changed), Load, Upsert] + Cleans(Min(allowed - 1, |changed|))
      + [if allowed > |changed| then Commit else Fail]
  }

  /** What such a poll makes of a state. */
  ghost function Polled(s: State, changed: seq<Path>, allowed: nat): State {
    s.(index := IndexAfter(s.index, changed, Select(s.nodes, changed), allowed),
       seen := if changed == [] || allowed > |changed| then NewSeen(s.files, s.seen) else s.seen)
  }

  lemma PollOpens(s: State, changed: seq<Path>) returns (m: State)
    requires s.poller.Idle? && IsListing(s.files, s.seen, changed) && changed != []
    ensures m == s.(poller := Loaded(changed, NewSeen(s.files, s.seen), Select(s.nodes, changed)))
    ensures After(s, [List(changed), Load]) == Some(m)
  {
    AfterOneMore(s, [], s, List(changed));
    var listed := Next(s, List(changed));
    assert [] + [List(changed)] == [List(changed)];
    AfterOneMore(s, [List(changed)], listed, Load);
    assert [List(changed)] + [Load] == [List(changed), Load];
    m := Next(listed, Load);
  }

  /** The method and the events agree: a poll, whether it goes through or fails after any number of store operations, is
      exactly its sequence of steps. */
  lemma PollIsItsSteps(s: State, changed: seq<Path>, allowed: nat)
    requires s.poller.Idle? && IsListing(s.files, s.seen, changed)
    ensures After(s, PollSteps(changed, allowed)) == Some(Polled(s, changed, allowed))
  {
    if changed == [] {
      NothingChanged(s.files, s.seen, changed);
    } else {
      var m := PollOpens(s, changed);
      var opening := [List(changed), Load];
      if allowed == 0 {
        AfterOneMore(s, opening, m, Fail);
        assert opening + [Fail] == PollSteps(changed, allowed);
      } else {
        AfterOneMore(s, opening, m, Upsert);
        assert opening + [Upsert] == [List(changed), Load, Upsert];
        var k := Min(allowed - 1, |changed|);
        var u := Next(m, Upsert);
        CleansRun(s, opening + [Upsert], u, k);
        AfterOneMore(s, opening + [Upsert] + Cleans(k), CleanedTo(u, k), if allowed > |changed| then Commit else Fail);
      }
    }
  }

  // ------------------------------------------------------------------ convergence

  /** From any reachable state between polls, a poll that is neither disturbed nor fails ends with every listed file in
      step. */
  lemma QuietPollConverges(s0: State, past: seq<Event>, changed: seq<Path>, allowed: nat)
    requires Begun(s0) && After(s0, past).Some? && After(s0, past).value.poller.Idle?
    requires IsListing(After(s0, past).value.files, After(s0, past).value.seen, changed) && allowed > |changed|
    ensures var s := After(s0, past).value;
            var s' := Polled(s, changed, allowed);
            && After(s, PollSteps(changed, allowed)) == Some(s')
            && forall p :: p in s.files ==> Current(s'.files, s'.seen, p) && At(s'.index, p) == At(s'.nodes, p)
  {
    var s := After(s0, past).value;
    PollIsItsSteps(s, changed, allowed);
    ReachableInv(s0, past);
    KeepsInv(s, PollSteps(changed, allowed));
  }

  /** The events of the poller itself, failures aside. */
  predicate IsQuiet(e: Event) {
    e.List? || e.Load? || e.Upsert? || e.CleanNext? || e.Commit?
  }

  /** Every listed file is in hand or already current. */
  ghost predicate Settling(s: State) {
    match s.poller
    case Idle => forall p :: p in s.files ==> Current(s.files, s.seen, p)
    case Listed(_, newSeen) => forall p :: p in s.files ==> Current(s.files, newSeen, p)
    case Loaded(_, newSeen, _) => forall p :: p in s.files ==> Current(s.files, newSeen, p)
    case Cleaning(_, newSeen, _, _) => forall p :: p in s.files ==> Current(s.files, newSeen, p)
  }

  lemma {:induction false} QuietSettles(s: State, schedule: seq<Event>)
    requires s.poller.Idle? && schedule != [] && After(s, schedule).Some?
    requires forall e :: e in schedule ==> IsQuiet(e)
    ensures Settling(After(s, schedule).value)
    decreases |schedule|
  {
    var n := |schedule| - 1;
    var before, e := schedule[..n], schedule[n];
    assert e in schedule;
    if n > 0 {
      assert forall x :: x in before ==> x in schedule;
      QuietSettles(s, before);
    } else {
      assert before == [];
    }
  }

  /** However its steps are scheduled, an undisturbed and unfailing stretch of polling that is back between polls has put
      every listed file in step. */
  lemma EveryQuietPollConverges(s0: State, past: seq<Event>, schedule: seq<Event>)
    requires Begun(s0) && After(s0, past).Some? && After(s0, past).value.poller.Idle?
    requires schedule != [] && forall e :: e in schedule ==> IsQuiet(e)
    requires After(After(s0, past).value, schedule).Some? && After(After(s0, past).value, schedule).value.poller.Idle?
    ensures var s' := After(After(s0, past).value, schedule).value;
            forall p :: p in s'.files ==> Current(s'.files, s'.seen, p) && At(s'.index, p) == At(s'.nodes, p)
  {
    var s := After(s0, past).value;
    ReachableInv(s0, past);
    KeepsInv(s, schedule);
    QuietSettles(s, schedule);
  }

  lemma {:induction false} KeepsInv(s: State, schedule: seq<Event>)
    requires Inv(s) && After(s, schedule).Some?
    ensures Inv(After(s, schedule).value)
    decreases |schedule|
  {
    if schedule != [] {
      var n := |schedule| - 1;
      KeepsInv(s, schedule[..n]);
      InvStep(After(s, schedule[..n]).value, schedule[n]);
    }
  }
}
