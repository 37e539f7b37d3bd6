/** The transactional outbox: documents in the primary store carry a marker, and one worker projects the unmarked ones into
    the vector store and the task stream. Writers may act, and the worker may die, between any two of its writes. */
module Outbox {
  import opened Common

  type Time = int

  datatype Kind = Episode | Memory

  datatype Key = Key(kind: Kind, id: string)

  datatype Doc = Doc(
    session: string,
    text: string,
    source: Option<string>,
    importance: Option<real>,
    validTo: Option<Time>,
    expiresAt: Option<Time>,
    processed: bool)

  /** A row of the vector store: the text and the metadata that is present. */
  datatype Vector = Vector(
    text: string, session: string, source: Option<string>, importance: Option<real>, validTo: Option<Time>)

  function Projection(d: Doc): Vector {
    Vector(d.text, d.session, d.source, d.importance, d.validTo)
  }

  type Docs = map<Key, Doc>
  type Vectors = map<Key, Vector>

  // ------------------------------------------------------------------ expiry

  const DAY: int := 24 * 60 * 60

  /** Python's `round`: to the nearest integer, and to the even one from halfway. */
  function Rounded(x: real): int {
    var low := x.Floor;
    var rest := x - low as real;
    if rest < 0.5 || (rest == 0.5 && low % 2 == 0) then low else low + 1
  }

  function DaysToLive(importance: real): Option<int> {
    var i := Rounded(importance);
    if i >= 5 then None
    else Some(if i == 4 then 1095 else if i == 3 then 365 else if i == 2 then 90 else 30)
  }

  function ExpiresAt(importance: real, now: Time): Option<Time> {
    match DaysToLive(importance)
    case None => None
    case Some(days) => Some(now + days * DAY)
  }

  /** More important memories never expire sooner, and those above 4.5 never expire. */
  lemma ImportanceProlongs(low: real, high: real, now: Time)
    requires low <= high
    ensures ExpiresAt(high, now).None? <==> high > 4.5
    ensures ExpiresAt(high, now).Some? ==> ExpiresAt(low, now).Some? && ExpiresAt(low, now).value <= ExpiresAt(high, now).value
  {
    assert Rounded(low) <= Rounded(high);
  }

  // ------------------------------------------------------------------ writers

  function NewMemory(session: string, fact: string, source: string, importance: real, validTo: Option<Time>, now: Time): Doc {
    Doc(session, fact, Some(source), Some(importance), validTo, ExpiresAt(importance, now), false)
  }

  function NewEpisode(session: string, content: string): Doc {
    Doc(session, content, None, None, None, None, false)
  }

  function Closed(d: Doc, at: Time): Doc {
    d.(validTo := Some(at), processed := false)
  }

  /** The importance a boost computes from what it reads. */
  function Raised(d: Doc, delta: real): real {
    var raised := (if d.importance.Some? then d.importance.value else 3.0) + delta;
    if raised < 5.0 then raised else 5.0
  }

  /** The importance a boost writes, which may be computed from an earlier reading. */
  function Boosted(d: Doc, importance: real, now: Time): Doc {
    d.(importance := Some(importance), expiresAt := ExpiresAt(importance, now), processed := false)
  }

  predicate IsExpired(k: Key, d: Doc, session: string, cutoff: Time) {
    k.kind.Memory? && d.session == session && d.validTo.None? && d.expiresAt.Some? && d.expiresAt.value <= cutoff
  }

  function Decayed(docs: Docs, session: string, cutoff: Time): Docs {
    map k | k in docs :: if IsExpired(k, docs[k], session, cutoff) then Closed(docs[k], cutoff) else docs[k]
  }

  lemma DecayedIs(before: Docs, after: Docs, session: string, cutoff: Time)
    requires after.Keys == before.Keys
    requires forall k :: k in before ==>
               after[k] == if IsExpired(k, before[k], session, cutoff) then Closed(before[k], cutoff) else before[k]
    ensures after == Decayed(before, session, cutoff)
  {
  }

  /** The days a fact of that importance has left, `None` for ever. */
  predicate LivesFor(importance: real, days: Option<int>) {
    if importance > 4.5 then days == None
    else if importance >= 3.5 then days == Some(1095)
    else if importance > 2.5 then days == Some(365)
    else if importance >= 1.5 then days == Some(90)
    else days == Some(30)
  }

  /** When a fact expires, by its importance. */
  lemma ExpiryTable(importance: real, now: Time, days: Option<int>)
    requires LivesFor(importance, days)
    ensures ExpiresAt(importance, now) == match days case None => None case Some(n) => Some(now + n * 86400)
  {
  }

  /** A boost adds to the importance, 3 if there is none, and stops at 5. */
  lemma RaisedIs(d: Doc, delta: real)
    ensures var before := if d.importance.Some? then d.importance.value else 3.0;
            && Raised(d, delta) <= 5.0 && Raised(d, delta) <= before + delta
            && (Raised(d, delta) == 5.0 || Raised(d, delta) == before + delta)
  {
  }

  /** Decay closes what has expired once: no current memory of the session stays past its expiry, a second pass at the same
      or an earlier moment finds nothing, and other memories are untouched. */
  lemma DecayIsIdempotent(docs: Docs, session: string, cutoff: Time, earlier: Time)
    requires earlier <= cutoff
    ensures var after := Decayed(docs, session, cutoff);
            && after.Keys == docs.Keys
            && (forall k :: k in docs ==>
                  var d := docs[k];
                  if k.kind.Memory? && d.session == session && d.validTo.None? && d.expiresAt.Some? && d.expiresAt.value <= cutoff
                  then after[k] == d.(validTo := Some(cutoff), processed := false)
                  else after[k] == d)
            && (forall k :: k in after ==> !IsExpired(k, after[k], session, cutoff))
            && Decayed(after, session, earlier) == after
  {
    var after := Decayed(docs, session, cutoff);
    assert forall k :: k in after ==> !IsExpired(k, after[k], session, earlier);
  }

  // ------------------------------------------------------------------ one batch

  function Waiting(docs: Docs, kind: Kind): set<Key> {
    set k | k in docs && k.kind == kind && !docs[k].processed
  }

  /** The answer of the batch query: distinct waiting documents, and all of them unless the limit cuts it short. */
  ghost predicate IsBatch(docs: Docs, kind: Kind, limit: nat, batch: seq<Key>) {
    && Distinct(batch)
    && (forall k :: k in batch ==> k in Waiting(docs, kind))
    && |batch| <= limit
    && (|batch| < limit ==> forall k :: k in Waiting(docs, kind) ==> k in batch)
  }

  function Marked(docs: Docs, keys: seq<Key>): Docs {
    map k | k in docs :: if k in keys then docs[k].(processed := true) else docs[k]
  }

  function Projected(docs: Docs, vectors: Vectors, keys: seq<Key>): Vectors {
    map k | k in vectors.Keys + docs.Keys && (k in vectors || k in keys) ::
      if k in keys && k in docs then Projection(docs[k]) else vectors[k]
  }

  lemma ProjectOneMore(docs: Docs, vectors: Vectors, batch: seq<Key>, i: nat)
    requires Distinct(batch) && i < |batch| && batch[i] in docs
    ensures batch[..i + 1] == batch[..i] + [batch[i]]
    ensures var k, before := batch[i], Marked(docs, batch[..i]);
            && k in before && Projection(before[k]) == Projection(docs[k])
            && Marked(docs, batch[..i + 1]) == before[k := before[k].(processed := true)]
            && Projected(docs, vectors, batch[..i + 1]) == Projected(docs, vectors, batch[..i])[k := Projection(docs[k])]
  {
    var k := batch[i];
    assert k !in batch[..i];
  }

  lemma MarkedAreDone(docs: Docs, kind: Kind, batch: seq<Key>)
    ensures Waiting(Marked(docs, batch), kind) == Waiting(docs, kind) - set k | k in batch
  {
  }

  class Storage {
    var docs: Docs
    var vectors: Vectors
    var stream: seq<Key>

    constructor ()
      ensures docs == map[] && vectors == map[] && stream == []
    {
      docs, vectors, stream := map[], map[], [];
    }

    method StoreEpisode(id: string, session: string, content: string)
      requires Key(Episode, id) !in docs
      modifies this`docs
      ensures docs == old(docs)[Key(Episode, id) := NewEpisode(session, content)]
    {
      docs := docs[Key(Episode, id) := Doc(session, content, None, None, None, None, false)];
    }

    method StoreMemory(id: string, session: string, fact: string, source: string, importance: real, validTo: Option<Time>, now: Time)
      requires Key(Memory, id) !in docs
      modifies this`docs
      ensures docs == old(docs)[Key(Memory, id) := NewMemory(session, fact, source, importance, validTo, now)]
    {
      docs := docs[Key(Memory, id) := Doc(session, fact, Some(source), Some(importance), validTo, ExpiresAt(importance, now), false)];
    }

    method CloseMemory(id: string, at: Time)
      modifies this`docs
      ensures var k := Key(Memory, id);
              docs == if k in old(docs) then old(docs)[k := Closed(old(docs)[k], at)] else old(docs)
    {
      var k := Key(Memory, id);
      if k in docs {
        docs := docs[k := docs[k].(validTo := Some(at), processed := false)];
      }
    }

    method BoostMemoryImportance(id: string, delta: real, now: Time)
      modifies this`docs
      ensures var k := Key(Memory, id);
              docs == if k in old(docs) then old(docs)[k := Boosted(old(docs)[k], Raised(old(docs)[k], delta), now)]
                      else old(docs)
    {
      var k := Key(Memory, id);
      if k !in docs {
        return;
      }
      var importance := if docs[k].importance.Some? then docs[k].importance.value else 3.0;
      importance := if importance + delta < 5.0 then importance + delta else 5.0;
      docs := docs[k := docs[k].(importance := Some(importance), expiresAt := ExpiresAt(importance, now), processed := false)];
    }

    method DecayExpiredMemories(session: string, cutoff: Time) returns (count: nat)
      modifies this`docs
      ensures docs == Decayed(old(docs), session, cutoff)
      ensures count == |set k | k in old(docs) && IsExpired(k, old(docs)[k], session, cutoff)|
    {
      ghost var before := docs;
      var due := set k | k in docs && IsExpired(k, docs[k], session, cutoff);
      ghost var all := due;
      count := |due|;
      while due != {}
        invariant due <= all
        invariant docs.Keys == before.Keys
        invariant forall k :: k in before ==> docs[k] == if k in all - due then Closed(before[k], cutoff) else before[k]
        decreases |due|
      {
        var k :| k in due;
        CloseMemory(k.id, cutoff);
        due := due - {k};
      }
      assert forall k :: k in before ==> (k in all <==> IsExpired(k, before[k], session, cutoff));
      DecayedIs(before, docs, session, cutoff);
    }

    /** One undisturbed pass over one collection. */
    method ProcessCollection(ghost kind: Kind, ghost limit: nat, batch: seq<Key>) returns (handled: nat)
      requires IsBatch(docs, kind, limit, batch)
      modifies this
      ensures docs == Marked(old(docs), batch)
      ensures vectors == Projected(old(docs), old(vectors), batch)
      ensures stream == old(stream) + batch
      ensures handled == |batch|
      ensures forall k :: k in batch ==>
                && k in vectors && vectors[k].text == old(docs)[k].text && vectors[k].session == old(docs)[k].session
                && vectors[k].source == old(docs)[k].source && vectors[k].importance == old(docs)[k].importance
                && vectors[k].validTo == old(docs)[k].validTo
      ensures Waiting(docs, kind) == Waiting(old(docs), kind) - set k | k in batch
    {
      handled := 0;
      while handled < |batch|
        invariant handled <= |batch|
        invariant forall k :: k in batch ==> k in old(docs)
        invariant docs == Marked(old(docs), batch[..handled])
        invariant vectors == Projected(old(docs), old(vectors), batch[..handled])
        invariant stream == old(stream) + batch[..handled]
      {
        var k := batch[handled];
        ProjectOneMore(old(docs), old(vectors), batch, handled);
        vectors := vectors[k := Projection(docs[k])];
        stream := stream + [k];
        docs := docs[k := docs[k].(processed := true)];
        handled := handled + 1;
      }
      assert batch[..|batch|] == batch;
      MarkedAreDone(old(docs), kind, batch);
    }

    /** One pass of the worker: episodes, then memories. Batches short of the limit leave nothing waiting. */
    method ProcessOnce(ghost limit: nat, episodes: seq<Key>, memories: seq<Key>) returns (handled: nat)
      requires IsBatch(docs, Episode, limit, episodes)
      requires IsBatch(Marked(docs, episodes), Memory, limit, memories)
      modifies this
      ensures docs == Marked(Marked(old(docs), episodes), memories)
      ensures vectors == Projected(Marked(old(docs), episodes), Projected(old(docs), old(vectors), episodes), memories)
      ensures stream == old(stream) + episodes + memories
      ensures handled == |episodes| + |memories|
      ensures |episodes| < limit && |memories| < limit ==> Waiting(docs, Episode) == {} && Waiting(docs, Memory) == {}
    {
      var first := ProcessCollection(Episode, limit, episodes);
      assert |episodes| < limit ==> Waiting(docs, Episode) == {};
      MarkedAreDone(docs, Episode, memories);
      var second := ProcessCollection(Memory, limit, memories);
      handled := first + second;
    }

    /** The hits whose vector is not closed, in the order the vector store ranked them. */
    method SearchMemories(hits: seq<Key>) returns (found: seq<Hit>)
      requires forall k :: k in hits ==> k in vectors
      ensures found == Shown(vectors, Current(vectors, hits))
    {
      found := [];
      for i := 0 to |hits|
        invariant found == Shown(vectors, Current(vectors, hits[..i]))
      {
        assert hits[..i + 1][..i] == hits[..i];
        var v := vectors[hits[i]];
        if v.validTo.None? {
          var source := if v.source.Some? then v.source.value else "";
          found := found + [Hit(hits[i], if source != "" then "[" + source + "] " + v.text else v.text, v.text)];
        }
      }
      assert hits[..|hits|] == hits;
    }
  }

  /** A search result: the fact as it is shown, with its source, and the bare fact. */
  datatype Hit = Hit(key: Key, fact: string, rawFact: string)

  function Shown(vectors: Vectors, keys: seq<Key>): seq<Hit>
    requires forall k :: k in keys ==> k in vectors
  {
    seq(|keys|, i requires 0 <= i < |keys| =>
      assert keys[i] in keys;
      var v := vectors[keys[i]];
      var source := if v.source.Some? then v.source.value else "";
      Hit(keys[i], if source != "" then "[" + source + "] " + v.text else v.text, v.text))
  }

  function Current(vectors: Vectors, hits: seq<Key>): (found: seq<Key>)
    requires forall k :: k in hits ==> k in vectors
    ensures forall k :: k in found ==> k in hits
  {
    if hits == [] then []
    else
      var last := hits[|hits| - 1];
      Current(vectors, hits[..|hits| - 1]) + if vectors[last].validTo.None? then [last] else []
  }

  // ------------------------------------------------------------------ the micro-steps

  /** A document as the worker read it. */
  datatype Item = Item(key: Key, doc: Doc)

  datatype Stage = ToUpsert | ToEnqueue | ToMark

  /** `pending` is what is left of the batch the worker has read; `stage` is where it is with the first of it. */
  datatype State = State(docs: Docs, vectors: Vectors, stream: seq<Key>, pending: seq<Item>, stage: Stage)

  datatype Event =
    | StoreMemory(key: Key, session: string, fact: string, source: string, importance: real, validTo: Option<Time>, now: Time)
    | StoreEpisode(key: Key, session: string, content: string)
    | Close(key: Key, at: Time)
    | Boost(key: Key, importance: real, now: Time)
    | Fetch(batch: seq<Key>)
    | Upsert
    | Enqueue
    | Mark
    | Crash

  ghost predicate Enabled(s: State, e: Event) {
    match e
    case StoreMemory(k, _, _, _, _, _, _) => k.kind.Memory? && k !in s.docs
    case StoreEpisode(k, _, _) => k.kind.Episode? && k !in s.docs
    case Close(k, _) => k.kind.Memory?
    case Boost(k, _, _) => k.kind.Memory?
    case Fetch(batch) => s.pending == [] && Distinct(batch) && forall k :: k in batch ==> k in s.docs && !s.docs[k].processed
    case Upsert => s.pending != [] && s.stage.ToUpsert?
    case Enqueue => s.pending != [] && s.stage.ToEnqueue?
    case Mark => s.pending != [] && s.stage.ToMark?
    case Crash => true
  }

  function Read(docs: Docs, batch: seq<Key>): seq<Item>
    requires forall k :: k in batch ==> k in docs
  {
    seq(|batch|, i requires 0 <= i < |batch| => assert batch[i] in batch; Item(batch[i], docs[batch[i]]))
  }

  function Next(s: State, e: Event): State
    requires Enabled(s, e)
  {
    match e
    case StoreMemory(k, session, fact, source, importance, validTo, now) =>
      s.(docs := s.docs[k := NewMemory(session, fact, source, importance, validTo, now)])
    case StoreEpisode(k, session, content) => s.(docs := s.docs[k := NewEpisode(session, content)])
    case Close(k, at) => if k in s.docs then s.(docs := s.docs[k := Closed(s.docs[k], at)]) else s
    case Boost(k, importance, now) => if k in s.docs then s.(docs := s.docs[k := Boosted(s.docs[k], importance, now)]) else s
    case Fetch(batch) => s.(pending := Read(s.docs, batch), stage := ToUpsert)
    case Upsert => s.(vectors := s.vectors[s.pending[0].key := Projection(s.pending[0].doc)], stage := ToEnqueue)
    case Enqueue => s.(stream := s.stream + [s.pending[0].key], stage := ToMark)
    case Mark =>
      var k := s.pending[0].key;
      s.(docs := if k in s.docs then s.docs[k := s.docs[k].(processed := true)] else s.docs,
         pending := s.pending[1..], stage := ToUpsert)
    case Crash => s.(pending := [], stage := ToUpsert)
  }

  /** A processed document's vector is its current projection, and it has been put on the stream. */
  ghost predicate Synced(s: State) {
    forall k :: k in s.docs && s.docs[k].processed ==>
      k in s.vectors && s.vectors[k] == Projection(s.docs[k]) && k in s.stream
  }

  /** What holds of the worker whatever the writers do: only it writes vectors, so what it has written stands. */
  ghost predicate WorkerInv(s: State) {
    && (forall i :: 0 <= i < |s.pending| ==> s.pending[i].key in s.docs && !s.docs[s.pending[i].key].processed)
    && (forall i, j :: 0 <= i < j < |s.pending| ==> s.pending[i].key != s.pending[j].key)
    && (forall k :: k in s.vectors ==> k in s.docs)
    && (s.pending != [] && !s.stage.ToUpsert? ==>
          var k := s.pending[0].key; k in s.vectors && s.vectors[k] == Projection(s.pending[0].doc))
    && (s.pending != [] && s.stage.ToMark? ==> s.pending[0].key in s.stream)
  }

  lemma WorkerKeeps(s: State, e: Event)
    requires WorkerInv(s) && Enabled(s, e)
    ensures WorkerInv(Next(s, e))
  {
  }

  /** Every step but the mark keeps the stores in sync unconditionally, and the mark does exactly when the document still
      projects to what the worker read. */
  lemma StepSyncsExactlyWhen(s: State, e: Event)
    requires WorkerInv(s) && Synced(s) && Enabled(s, e)
    ensures Synced(Next(s, e)) <==>
              (e.Mark? ==> Projection(s.docs[s.pending[0].key]) == Projection(s.pending[0].doc))
  {
    if e.Mark? {
      var s', k := Next(s, e), s.pending[0].key;
      assert k in s'.docs && s'.docs[k].processed;
      assert Projection(s'.docs[k]) == Projection(s.docs[k]);
    }
  }

  /** Three undisturbed micro-steps do to one document what the worker's loop does. */
  lemma StepsProjectOne(s: State)
    requires s.pending != [] && s.stage.ToUpsert? && s.pending[0].key in s.docs
    requires s.docs[s.pending[0].key] == s.pending[0].doc
    ensures var keys, s' := [s.pending[0].key], Next(Next(Next(s, Upsert), Enqueue), Mark);
            && s'.docs == Marked(s.docs, keys) && s'.vectors == Projected(s.docs, s.vectors, keys)
            && s'.stream == s.stream + keys && s'.pending == s.pending[1..]
  {
  }

  /** Where events lead, if each can happen when its turn comes. */
  ghost function After(s: State, events: seq<Event>): Option<State> {
    if events == [] then Some(s)
    else
      match After(s, events[..|events| - 1])
      case None => None
      case Some(s') =>
        var e := events[|events| - 1];
        if Enabled(s', e) then Some(Next(s', e)) else None
  }

  /** The events of a worker that takes a batch all the way. */
  function PassEvents(batch: seq<Key>, n: nat): seq<Event> {
    if n == 0 then [Fetch(batch)] else PassEvents(batch, n - 1) + [Upsert, Enqueue, Mark]
  }

  /** `n` documents into a batch. */
  ghost predicate PassedTo(s: State, batch: seq<Key>, n: nat, s': State)
    requires n <= |batch| && forall k :: k in batch ==> k in s.docs
  {
    && s'.docs == Marked(s.docs, batch[..n]) && s'.vectors == Projected(s.docs, s.vectors, batch[..n])
    && s'.stream == s.stream + batch[..n] && s'.pending == Read(s.docs, batch)[n..] && s'.stage.ToUpsert?
  }

  lemma AfterOneMore(s: State, events: seq<Event>, s': State, e: Event)
    requires After(s, events) == Some(s') && Enabled(s', e)
    ensures After(s, events + [e]) == Some(Next(s', e))
  {
    assert (events + [e])[..|events|] == events;
  }

  lemma AfterThree(s: State, events: seq<Event>, s': State, a: Event, b: Event, c: Event)
    requires After(s, events) == Some(s') && Enabled(s', a) && Enabled(Next(s', a), b) && Enabled(Next(Next(s', a), b), c)
    ensures After(s, events + [a, b, c]) == Some(Next(Next(Next(s', a), b), c))
  {
    AfterOneMore(s, events, s', a);
    AfterOneMore(s, events + [a], Next(s', a), b);
    AfterOneMore(s, events + [a] + [b], Next(Next(s', a), b), c);
    assert events + [a] + [b] + [c] == events + [a, b, c];
  }

  lemma PassOneOn(s: State, batch: seq<Key>, n: nat, s': State)
    requires Distinct(batch) && n < |batch| && (forall k :: k in batch ==> k in s.docs) && PassedTo(s, batch, n, s')
    ensures Enabled(s', Upsert) && Enabled(Next(s', Upsert), Enqueue) && Enabled(Next(Next(s', Upsert), Enqueue), Mark)
    ensures PassedTo(s, batch, n + 1, Next(Next(Next(s', Upsert), Enqueue), Mark))
  {
    var k := batch[n];
    assert k in batch && s'.pending[0] == Item(k, s.docs[k]);
    assert Read(s.docs, batch)[n..][1..] == Read(s.docs, batch)[n + 1..];
    ProjectOneMore(s.docs, s.vectors, batch, n);
    assert s.stream + batch[..n] + [k] == s.stream + (batch[..n] + [k]);
    var s3 := Next(Next(Next(s', Upsert), Enqueue), Mark);
    assert s3.docs == Marked(s.docs, batch[..n + 1]);
    assert s3.vectors == Projected(s.docs, s.vectors, batch[..n + 1]);
    assert s3.stream == s.stream + batch[..n + 1];
    assert s3.pending == Read(s.docs, batch)[n + 1..];
  }

  lemma PassOpens(s: State, batch: seq<Key>) returns (s': State)
    requires Enabled(s, Fetch(batch))
    ensures After(s, [Fetch(batch)]) == Some(s') && PassedTo(s, batch, 0, s')
  {
    s' := Next(s, Fetch(batch));
    assert [Fetch(batch)][..0] == [];
    assert batch[..0] == [];
    assert s.stream + [] == s.stream;
    assert Marked(s.docs, []) == s.docs;
    assert Projected(s.docs, s.vectors, []) == s.vectors;
  }

  lemma PassGoesOn(s: State, batch: seq<Key>, n: nat, before: State, events: seq<Event>) returns (s': State)
    requires Distinct(batch) && 0 < n <= |batch| && forall k :: k in batch ==> k in s.docs
    requires After(s, events) == Some(before) && PassedTo(s, batch, n - 1, before)
    ensures After(s, events + [Upsert, Enqueue, Mark]) == Some(s') && PassedTo(s, batch, n, s')
  {
    PassOneOn(s, batch, n - 1, before);
    AfterThree(s, events, before, Upsert, Enqueue, Mark);
    s' := Next(Next(Next(before, Upsert), Enqueue), Mark);
  }

  /** An undisturbed pass in micro-steps is the pass of the worker's loop: cut short after any document of its batch, or
      complete. */
  lemma {:induction false} PassIsItsSteps(s: State, batch: seq<Key>, n: nat) returns (s': State)
    requires Enabled(s, Fetch(batch)) && n <= |batch|
    ensures After(s, PassEvents(batch, n)) == Some(s') && PassedTo(s, batch, n, s')
    decreases n
  {
    if n == 0 {
      s' := PassOpens(s, batch);
    } else {
      var before := PassIsItsSteps(s, batch, n - 1);
      s' := PassGoesOn(s, batch, n, before, PassEvents(batch, n - 1));
    }
  }

  /** An undisturbed pass leaves the worker idle, takes its batch off what was waiting, and leaves the stores exactly as much in
      sync as they were. */
  lemma QuietPassSettles(s: State, kind: Kind, limit: nat, batch: seq<Key>) returns (s': State)
    requires Enabled(s, Fetch(batch)) && IsBatch(s.docs, kind, limit, batch)
    ensures After(s, PassEvents(batch, |batch|)) == Some(s') && s'.pending == []
    ensures Waiting(s'.docs, kind) == Waiting(s.docs, kind) - set k | k in batch
    ensures |batch| < limit ==> Waiting(s'.docs, kind) == {}
    ensures Synced(s') <==> Synced(s)
  {
    s' := PassIsItsSteps(s, batch, |batch|);
    assert batch[..|batch|] == batch;
    MarkedAreDone(s.docs, kind, batch);
    PassKeepsSync(s, batch, s');
  }

  lemma PassKeepsSync(s: State, batch: seq<Key>, s': State)
    requires forall k :: k in batch ==> k in s.docs && !s.docs[k].processed
    requires s'.docs == Marked(s.docs, batch) && s'.vectors == Projected(s.docs, s.vectors, batch)
    requires s'.stream == s.stream + batch
    ensures Synced(s') <==> Synced(s)
  {
    forall k | k in s.docs && s.docs[k].processed
      ensures k in s'.docs && s'.docs[k] == s.docs[k] && (k in s'.vectors <==> k in s.vectors) && (k in s'.stream <==> k in s.stream)
      ensures k in s.vectors ==> s'.vectors[k] == s.vectors[k]
    {
      assert k !in batch;
    }
    forall k | k in batch
      ensures k in s'.vectors && s'.vectors[k] == Projection(s'.docs[k]) && k in s'.stream
    {
    }
  }

  /** What any number of batches in a row, each fetched when the one before is done, make of the documents. */
  function MarkedBy(docs: Docs, batches: seq<seq<Key>>): Docs {
    if batches == [] then docs else Marked(MarkedBy(docs, batches[..|batches| - 1]), batches[|batches| - 1])
  }

  ghost predicate AreBatches(docs: Docs, kind: Kind, limit: nat, batches: seq<seq<Key>>) {
    forall i :: 0 <= i < |batches| ==> IsBatch(MarkedBy(docs, batches[..i]), kind, limit, batches[i])
  }

  lemma BatchSize(docs: Docs, kind: Kind, limit: nat, batch: seq<Key>)
    requires IsBatch(docs, kind, limit, batch)
    ensures |Waiting(Marked(docs, batch), kind)| == Max(0, |Waiting(docs, kind)| - limit)
  {
    var done := set k | k in batch;
    MarkedAreDone(docs, kind, batch);
    DistinctSize(batch);
    assert done <= Waiting(docs, kind);
    assert |Waiting(docs, kind) - done| == |Waiting(docs, kind)| - |done|;
  }

  lemma {:induction false} DistinctSize(keys: seq<Key>)
    requires Distinct(keys)
    ensures |set k | k in keys| == |keys|
    decreases |keys|
  {
    if keys != [] {
      var before, last := keys[..|keys| - 1], keys[|keys| - 1];
      DistinctSize(before);
      assert keys == before + [last];
      assert (set k | k in keys) == (set k | k in before) + {last};
    }
  }

  /** Passes drain: each takes the limit off what is waiting, so n documents are done after n/limit passes, rounded up, however
      the batches are chosen. */
  lemma {:induction false} PassesDrain(docs: Docs, kind: Kind, limit: nat, batches: seq<seq<Key>>)
    requires AreBatches(docs, kind, limit, batches)
    ensures |Waiting(MarkedBy(docs, batches), kind)| == Max(0, |Waiting(docs, kind)| - |batches| * limit)
    decreases |batches|
  {
    if batches != [] {
      var before := batches[..|batches| - 1];
      FewerBatches(docs, kind, limit, batches);
      PassesDrain(docs, kind, limit, before);
      BatchSize(MarkedBy(docs, before), kind, limit, batches[|batches| - 1]);
      OneBatchMore(|batches|, limit);
    }
  }

  lemma FewerBatches(docs: Docs, kind: Kind, limit: nat, batches: seq<seq<Key>>)
    requires AreBatches(docs, kind, limit, batches) && batches != []
    ensures var n := |batches| - 1;
            AreBatches(docs, kind, limit, batches[..n]) && IsBatch(MarkedBy(docs, batches[..n]), kind, limit, batches[n])
  {
    var before := batches[..|batches| - 1];
    forall i | 0 <= i < |before| ensures before[..i] == batches[..i] {
    }
  }

  lemma OneBatchMore(n: nat, limit: nat)
    requires n > 0
    ensures n * limit == (n - 1) * limit + limit
  {
  }

  // ------------------------------------------------------------------ whole runs

  ghost predicate IsRun(run: seq<State>, events: seq<Event>) {
    && |run| == |events| + 1
    && run[0] == State(map[], map[], [], [], ToUpsert)
    && forall i :: 0 <= i < |events| ==> Enabled(run[i], events[i]) && run[i + 1] == Next(run[i], events[i])
  }

  predicate Writes(e: Event, k: Key) {
    (e.StoreMemory? || e.StoreEpisode? || e.Close? || e.Boost?) && e.key == k
  }

  /** No writer touches a document while it is in the worker's batch. */
  ghost predicate NoOverlap(run: seq<State>, events: seq<Event>)
    requires IsRun(run, events)
  {
    forall i, j :: 0 <= i < |events| && 0 <= j < |run[i].pending| ==> !Writes(events[i], run[i].pending[j].key)
  }

  /** The batch is still what was read. */
  ghost predicate Fresh(s: State) {
    forall i :: 0 <= i < |s.pending| ==> s.pending[i].key in s.docs && s.docs[s.pending[i].key] == s.pending[i].doc
  }

  lemma StepKeepsFresh(s: State, e: Event)
    requires WorkerInv(s) && Fresh(s) && Enabled(s, e)
    requires forall j :: 0 <= j < |s.pending| ==> !Writes(e, s.pending[j].key)
    ensures Fresh(Next(s, e))
  {
  }

  lemma {:induction false} WorkerHolds(run: seq<State>, events: seq<Event>, n: nat)
    requires IsRun(run, events) && n < |run|
    ensures WorkerInv(run[n])
    decreases n
  {
    if n > 0 {
      WorkerHolds(run, events, n - 1);
      WorkerKeeps(run[n - 1], events[n - 1]);
    }
  }

  /** The mark at this step, if it is one, finds the document projecting to what was read. */
  predicate MarksTruly(s: State, e: Event) {
    e.Mark? && s.pending != [] ==>
      s.pending[0].key in s.docs && Projection(s.docs[s.pending[0].key]) == Projection(s.pending[0].doc)
  }

  ghost predicate EveryMarkIsTrue(run: seq<State>, events: seq<Event>)
    requires IsRun(run, events)
  {
    forall i :: 0 <= i < |events| ==> MarksTruly(run[i], events[i])
  }

  lemma {:induction false} TrueMarksSync(run: seq<State>, events: seq<Event>, n: nat)
    requires IsRun(run, events) && EveryMarkIsTrue(run, events) && n < |run|
    ensures Synced(run[n])
    decreases n
  {
    if n > 0 {
      TrueMarksSync(run, events, n - 1);
      WorkerHolds(run, events, n - 1);
      assert MarksTruly(run[n - 1], events[n - 1]);
      StepSyncsExactlyWhen(run[n - 1], events[n - 1]);
    }
  }

  /** Over any run, crashes included: the stores are in sync throughout if and only if each mark finds its document still
      projecting to what the worker read. */
  lemma RunSyncsExactlyWhen(run: seq<State>, events: seq<Event>)
    requires IsRun(run, events)
    ensures (forall n :: 0 <= n < |run| ==> Synced(run[n])) <==> EveryMarkIsTrue(run, events)
  {
    if EveryMarkIsTrue(run, events) {
      forall n | 0 <= n < |run| ensures Synced(run[n]) {
        TrueMarksSync(run, events, n);
      }
    }
    if forall n :: 0 <= n < |run| ==> Synced(run[n]) {
      forall i | 0 <= i < |events| ensures MarksTruly(run[i], events[i]) {
        WorkerHolds(run, events, i);
        assert Synced(run[i]) && Synced(run[i + 1]);
        StepSyncsExactlyWhen(run[i], events[i]);
      }
    }
  }

  lemma {:induction false} BatchStaysFresh(run: seq<State>, events: seq<Event>, n: nat)
    requires IsRun(run, events) && NoOverlap(run, events) && n < |run|
    ensures Fresh(run[n])
    decreases n
  {
    if n > 0 {
      BatchStaysFresh(run, events, n - 1);
      WorkerHolds(run, events, n - 1);
      StepKeepsFresh(run[n - 1], events[n - 1]);
    }
  }

  /** If no writer touches a document while it is in the worker's batch, every mark is true. */
  lemma NoOverlapMarksTruly(run: seq<State>, events: seq<Event>)
    requires IsRun(run, events) && NoOverlap(run, events)
    ensures EveryMarkIsTrue(run, events)
  {
    forall i | 0 <= i < |events| ensures MarksTruly(run[i], events[i]) {
      WorkerHolds(run, events, i);
      BatchStaysFresh(run, events, i);
    }
  }

  /** Where every mark is true, and so where writers keep off the batch, in every reachable state a processed document's
      vector is exactly its current projection and its id has been put on the stream. */
  lemma ProcessedMeansProjected(run: seq<State>, events: seq<Event>, n: nat, k: Key)
    requires IsRun(run, events) && (NoOverlap(run, events) || EveryMarkIsTrue(run, events)) && n < |run|
    requires k in run[n].docs && run[n].docs[k].processed
    ensures k in run[n].vectors && run[n].vectors[k] == Projection(run[n].docs[k]) && k in run[n].stream
  {
    if NoOverlap(run, events) {
      NoOverlapMarksTruly(run, events);
    }
    TrueMarksSync(run, events, n);
  }

  // ------------------------------------------------------------------ what the writers said

  /** What the writers have said of a document, and when they last set its importance. */
  datatype Said = Said(
    session: string, text: string, source: Option<string>, importance: Option<real>, since: Time, end: Option<Time>)

  const NOTHING: Said := Said("", "", None, None, 0, None)

  /** In the words of the writers alone: what was stored, with the last end and the last importance. */
  function SaidOf(events: seq<Event>, k: Key): Said {
    if events == [] then NOTHING
    else
      var before, e := SaidOf(events[..|events| - 1], k), events[|events| - 1];
      if !Writes(e, k) then before
      else
        match e
        case StoreMemory(_, session, fact, source, importance, validTo, now) =>
          NOTHING.(session := session, text := fact, source := Some(source), importance := Some(importance), since := now,
                   end := validTo)
        case StoreEpisode(_, session, content) => NOTHING.(session := session, text := content)
        case Close(_, at) => before.(end := Some(at))
        case Boost(_, importance, now) => before.(importance := Some(importance), since := now)
        case _ => before
  }

  ghost predicate SaysSo(d: Doc, said: Said) {
    && d.session == said.session && d.text == said.text && d.source == said.source && d.importance == said.importance
    && d.validTo == said.end
    && d.expiresAt == if said.importance.None? then None else ExpiresAt(said.importance.value, said.since)
  }

  lemma StepSaysSo(s: State, events: seq<Event>, e: Event, k: Key)
    requires Enabled(s, e) && k in Next(s, e).docs && (k in s.docs ==> SaysSo(s.docs[k], SaidOf(events, k)))
    requires WorkerInv(s)
    ensures SaysSo(Next(s, e).docs[k], SaidOf(events + [e], k))
  {
    assert (events + [e])[..|events|] == events;
  }

  /** Every document says what its writers said last. */
  lemma {:induction false} DocsSaySo(run: seq<State>, events: seq<Event>, n: nat, k: Key)
    requires IsRun(run, events) && n < |run| && k in run[n].docs
    ensures SaysSo(run[n].docs[k], SaidOf(events[..n], k))
    decreases n
  {
    if n > 0 {
      WorkerHolds(run, events, n - 1);
      if k in run[n - 1].docs {
        DocsSaySo(run, events, n - 1, k);
      }
      StepSaysSo(run[n - 1], events[..n - 1], events[n - 1], k);
      assert events[..n - 1] + [events[n - 1]] == events[..n];
    }
  }

  /** So where every mark is true a processed document's vector carries, field by field, what its writers said last. */
  lemma VectorsSaySo(run: seq<State>, events: seq<Event>, n: nat, k: Key)
    requires IsRun(run, events) && (NoOverlap(run, events) || EveryMarkIsTrue(run, events)) && n < |run|
    requires k in run[n].docs && run[n].docs[k].processed
    ensures k in run[n].vectors
    ensures var v, said := run[n].vectors[k], SaidOf(events[..n], k);
            && v.text == said.text && v.session == said.session && v.source == said.source
            && v.importance == said.importance && v.validTo == said.end
  {
    ProcessedMeansProjected(run, events, n, k);
    DocsSaySo(run, events, n, k);
  }

  /** And with nothing waiting a search shows each open fact as it was stored, with its source in front. */
  lemma SearchShowsWhatWasSaid(run: seq<State>, events: seq<Event>, n: nat, keys: seq<Key>, i: nat)
    requires IsRun(run, events) && (NoOverlap(run, events) || EveryMarkIsTrue(run, events)) && n < |run|
    requires Waiting(run[n].docs, Memory) == {} && i < |keys|
    requires forall k :: k in keys ==> k in run[n].vectors && k.kind.Memory?
    ensures var hit, said := Shown(run[n].vectors, keys)[i], SaidOf(events[..n], keys[i]);
            && hit.key == keys[i] && hit.rawFact == said.text
            && (said.source.Some? && said.source.value != "" ==> hit.fact == "[" + said.source.value + "] " + said.text)
            && (said.source.None? || said.source.value == "" ==> hit.fact == said.text)
  {
    var k := keys[i];
    WorkerHolds(run, events, n);
    assert k in keys && k in run[n].docs && k !in Waiting(run[n].docs, Memory);
    VectorsSaySo(run, events, n, k);
  }

  /** With nothing waiting, search returns no closed fact, and none that is current is filtered away. */
  lemma SearchIsCurrent(run: seq<State>, events: seq<Event>, n: nat, hits: seq<Key>, k: Key)
    requires IsRun(run, events) && (NoOverlap(run, events) || EveryMarkIsTrue(run, events)) && n < |run|
    requires forall h :: h in hits ==> h in run[n].vectors
    requires Waiting(run[n].docs, Memory) == {} && k.kind.Memory?
    ensures k in Current(run[n].vectors, hits) <==> k in hits && k in run[n].docs && run[n].docs[k].validTo.None?
  {
    WorkerHolds(run, events, n);
    CurrentAreOpen(run[n].vectors, hits, k);
    if k in hits {
      assert k !in Waiting(run[n].docs, Memory);
      ProcessedMeansProjected(run, events, n, k);
    }
  }

  lemma {:induction false} CurrentAreOpen(vectors: Vectors, hits: seq<Key>, k: Key)
    requires forall h :: h in hits ==> h in vectors
    ensures k in Current(vectors, hits) <==> k in hits && vectors[k].validTo.None?
    decreases |hits|
  {
    if hits != [] {
      assert hits == hits[..|hits| - 1] + [hits[|hits| - 1]];
      CurrentAreOpen(vectors, hits[..|hits| - 1], k);
    }
  }

  /** Without the hypothesis the stores can part for good: a fact closed between the worker's read and its mark ends up
      processed, closed in the primary store, and open in the vector store, where search still returns it. */
  lemma OverlapLosesClose() returns (run: seq<State>, events: seq<Event>, k: Key)
    ensures IsRun(run, events) && k.kind.Memory?
    ensures var s := run[|events|];
            && Waiting(s.docs, Memory) == {} && s.pending == []
            && k in s.docs && s.docs[k].validTo.Some?
            && k in s.vectors && Current(s.vectors, [k]) == [k]
  {
    k := Key(Memory, "m");
    var d := NewMemory("s", "fact", "agent", 3.0, None, 0);
    events := [StoreMemory(k, "s", "fact", "agent", 3.0, None, 0), Fetch([k]), Close(k, 1), Upsert, Enqueue, Mark];
    var s0 := State(map[], map[], [], [], ToUpsert);
    var s1 := Next(s0, events[0]);
    assert Enabled(s1, events[1]);
    var s2 := Next(s1, events[1]);
    assert s2.pending == [Item(k, d)];
    var s3 := Next(s2, events[2]);
    var s4 := Next(s3, events[3]);
    var s5 := Next(s4, events[4]);
    var s6 := Next(s5, events[5]);
    run := [s0, s1, s2, s3, s4, s5, s6];
    assert s6.docs == map[k := Closed(d, 1).(processed := true)];
    assert [k][..0] == [];
  }
}
