/** One long-lived skill process and everyone who talks to it: the task that owns its session, the callers of its
    tools, the restarter and the reloader. Each step below is the code between two suspension points. A section under
    the registry's lock never suspends (putting on an unbounded queue does not), so it is one step. */
module SkillRegistry {
  import opened Common

  type ReqId = nat

  datatype Message = Request(id: ReqId) | Restart

  datatype Future = Waiting | Result | Failure | Cancelled

  datatype Life = INIT | READY | DRAINING | DEAD

  /** Where a caller is: before the lock, waiting on its future, or returned. */
  datatype Caller = Entering | Awaiting | Finished

  /** Where the owning task is. `crashed` tells whether it got there by a crash (which drains the inbox) or by a
      restart message (which does not). */
  datatype Owner = Starting(crashed: bool) | Serving | Calling(id: ReqId) | Closing | Backoff(crashed: bool) | Gone

  /** `accepted` and `disposed` are histories: the requests put on the inbox, and those the owner is done with. */
  datatype State = State(
    life: Life,
    inflight: int,
    restarts: nat,
    ready: bool,
    inbox: seq<Message>,
    owner: Owner,
    futures: map<ReqId, Future>,
    callers: map<ReqId, Caller>,
    reloads: nat,
    accepted: seq<ReqId>,
    disposed: seq<ReqId>)

  // ------------------------------------------------------------------ steps

  function Settled(futures: map<ReqId, Future>, id: ReqId, outcome: Future): map<ReqId, Future> {
    if id in futures && futures[id] == Waiting then futures[id := outcome] else futures
  }

  /** Every pending request in the inbox is failed. */
  function Drained(futures: map<ReqId, Future>, inbox: seq<Message>, outcome: Future): map<ReqId, Future> {
    if inbox == [] then futures
    else if inbox[0].Request? then Drained(Settled(futures, inbox[0].id, outcome), inbox[1..], outcome)
    else Drained(futures, inbox[1..], outcome)
  }

  function Requests(inbox: seq<Message>): seq<ReqId> {
    if inbox == [] then []
    else (if inbox[0].Request? then [inbox[0].id] else []) + Requests(inbox[1..])
  }

  lemma DrainFirst(futures: map<ReqId, Future>, disposed: seq<ReqId>, inbox: seq<Message>, outcome: Future)
    requires inbox != []
    ensures Drained(futures, inbox, outcome) ==
              Drained(if inbox[0].Request? then Settled(futures, inbox[0].id, outcome) else futures, inbox[1..], outcome)
    ensures disposed + Requests(inbox) ==
              (if inbox[0].Request? then disposed + [inbox[0].id] else disposed) + Requests(inbox[1..])
  {
  }

  predicate CanEnter(s: State, id: ReqId) {
    id !in s.callers && id !in s.futures && s.life != DEAD && s.life != DRAINING
  }

  function Entered(s: State, id: ReqId): State {
    s.(inflight := s.inflight + 1, futures := s.futures[id := Waiting], callers := s.callers[id := Entering])
  }

  function Enqueued(s: State, id: ReqId): State {
    if s.life != READY then
      s.(inflight := s.inflight - 1, callers := s.callers[id := Finished])
    else
      s.(inbox := s.inbox + [Request(id)], callers := s.callers[id := Awaiting], accepted := s.accepted + [id])
  }

  function Returned(s: State, id: ReqId): State {
    s.(inflight := s.inflight - 1, callers := s.callers[id := Finished])
  }

  function CallerCancelled(s: State, id: ReqId): State {
    s.(futures := Settled(s.futures, id, Cancelled))
  }

  function Opened(s: State): State {
    s.(life := READY, ready := true, restarts := 0, owner := Serving)
  }

  function Taken(s: State): State
    requires s.inbox != []
  {
    s.(inbox := s.inbox[1..], owner := if s.inbox[0].Restart? then Closing else Calling(s.inbox[0].id))
  }

  function Called(s: State, id: ReqId, ok: bool): State {
    s.(futures := Settled(s.futures, id, if ok then Result else Failure), owner := Serving, disposed := s.disposed + [id])
  }

  function Crashed(s: State): State {
    s.(life := DEAD, ready := false, futures := Drained(s.futures, s.inbox, Failure), inbox := [],
       disposed := s.disposed + Requests(s.inbox), owner := Backoff(true), restarts := s.restarts + 1)
  }

  function Closed(s: State): State {
    s.(owner := Backoff(false), restarts := s.restarts + 1)
  }

  function Woken(s: State): State
    requires s.owner.Backoff?
  {
    s.(life := INIT, owner := Starting(s.owner.crashed))
  }

  /** Cancelling the owner: inside the session it cleans up, in the backoff sleep it just ends. */
  function OwnerCancelled(s: State): State {
    if s.owner.Backoff? then
      s.(owner := Gone)
    else
      s.(life := DEAD, ready := false, futures := Drained(s.futures, s.inbox, Failure), inbox := [],
         disposed := s.disposed + Requests(s.inbox), owner := Gone)
  }

  function RestartAsked(s: State): State {
    if s.life == DEAD then s else s.(life := DEAD, inbox := s.inbox + [Restart])
  }

  function ReloadBegun(s: State): State {
    s.(life := DRAINING, reloads := s.reloads + 1)
  }

  function ReloadPosted(s: State): State
    requires s.reloads > 0
  {
    s.(ready := false, inbox := s.inbox + [Restart], reloads := s.reloads - 1)
  }

  datatype Event =
    | Enter(id: ReqId) | Enqueue(id: ReqId) | Return(id: ReqId) | CancelCaller(id: ReqId)
    | Open | Take | Finish(ok: bool) | Crash | Close | Wake | CancelOwner
    | AskRestart | BeginReload | PostReload

  /** When a step can happen. The owner is not cancelled in the middle of a tool call, nor a caller before it has
      enqueued. */
  ghost predicate Enabled(s: State, e: Event) {
    match e
    case Enter(id) => CanEnter(s, id)
    case Enqueue(id) => id in s.callers && s.callers[id] == Entering
    case Return(id) => id in s.callers && s.callers[id] == Awaiting && id in s.futures && s.futures[id] != Waiting
    case CancelCaller(id) => id in s.callers && s.callers[id] == Awaiting
    case Open => s.owner.Starting?
    case Take => s.owner.Serving? && s.inbox != []
    case Finish(_) => s.owner.Calling?
    case Crash => s.owner.Starting? || s.owner.Serving? || s.owner.Closing?
    case Close => s.owner.Closing?
    case Wake => s.owner.Backoff?
    case CancelOwner => !s.owner.Calling? && !s.owner.Gone?
    case AskRestart => true
    case BeginReload => true
    case PostReload => s.reloads > 0 && s.inflight <= 0
  }

  ghost function Next(s: State, e: Event): State
    requires Enabled(s, e)
  {
    match e
    case Enter(id) => Entered(s, id)
    case Enqueue(id) => Enqueued(s, id)
    case Return(id) => Returned(s, id)
    case CancelCaller(id) => CallerCancelled(s, id)
    case Open => Opened(s)
    case Take => Taken(s)
    case Finish(ok) => Called(s, s.owner.id, ok)
    case Crash => Crashed(s)
    case Close => Closed(s)
    case Wake => Woken(s)
    case CancelOwner => OwnerCancelled(s)
    case AskRestart => RestartAsked(s)
    case BeginReload => ReloadBegun(s)
    case PostReload => ReloadPosted(s)
  }

  // ------------------------------------------------------------------ the code

  class SkillProcess {
    var life: Life
    var inflight: int
    var restarts: nat
    var ready: bool
    var inbox: seq<Message>
    var futures: map<ReqId, Future>
    var owner: Owner
    var callers: map<ReqId, Caller>
    var reloads: nat
    ghost var accepted: seq<ReqId>
    ghost var disposed: seq<ReqId>

    ghost function View(): State
      reads this
    {
      State(life, inflight, restarts, ready, inbox, owner, futures, callers, reloads, accepted, disposed)
    }

    /** As `register` leaves it: spawned and ready. */
    constructor ()
      ensures View() == Registered()
    {
      life, inflight, restarts, ready, inbox := READY, 0, 0, true, [];
      futures, owner, callers, reloads, accepted, disposed := map[], Serving, map[], 0, [], [];
    }

    method DrainInbox(outcome: Future)
      modifies this`inbox, this`futures, this`disposed
      ensures inbox == []
      ensures futures == Drained(old(futures), old(inbox), outcome)
      ensures disposed == old(disposed) + Requests(old(inbox))
    {
      while inbox != []
        invariant Drained(futures, inbox, outcome) == Drained(old(futures), old(inbox), outcome)
        invariant disposed + Requests(inbox) == old(disposed) + Requests(old(inbox))
        decreases |inbox|
      {
        var req := inbox[0];
        DrainFirst(futures, disposed, inbox, outcome);
        inbox := inbox[1..];
        if req.Request? {
          if req.id in futures && futures[req.id] == Waiting {
            futures := futures[req.id := outcome];
          }
          disposed := disposed + [req.id];
        }
      }
    }

    // The caller.

    method CallEnter(id: ReqId) returns (ok: bool)
      requires id !in callers && id !in futures
      modifies this
      ensures ok <==> old(CanEnter(View(), id))
      ensures View() == if ok then Entered(old(View()), id) else old(View())
    {
      ok := life != DEAD && life != DRAINING;
      if ok {
        futures := futures[id := Waiting];
        inflight := inflight + 1;
        callers := callers[id := Entering];
      }
    }

    method CallEnqueue(id: ReqId) returns (ok: bool)
      modifies this
      ensures ok <==> old(life) == READY
      ensures View() == Enqueued(old(View()), id)
    {
      ok := life == READY;
      if ok {
        inbox := inbox + [Request(id)];
        accepted := accepted + [id];
        callers := callers[id := Awaiting];
      } else {
        inflight := inflight - 1;
        callers := callers[id := Finished];
      }
    }

    method CallReturn(id: ReqId)
      modifies this
      ensures View() == Returned(old(View()), id)
    {
      inflight := inflight - 1;
      callers := callers[id := Finished];
    }

    // The owning task.

    method OwnerOpen()
      modifies this
      ensures View() == Opened(old(View()))
    {
      life, ready, restarts, owner := READY, true, 0, Serving;
    }

    method OwnerTake()
      requires inbox != []
      modifies this
      ensures View() == Taken(old(View()))
    {
      var req := inbox[0];
      inbox := inbox[1..];
      owner := match req case Restart => Closing case Request(id) => Calling(id);
    }

    method OwnerFinish(id: ReqId, ok: bool)
      modifies this
      ensures View() == Called(old(View()), id, ok)
    {
      if id in futures && futures[id] == Waiting {
        futures := futures[id := if ok then Result else Failure];
      }
      disposed := disposed + [id];
      owner := Serving;
    }

    method OwnerClose()
      modifies this
      ensures View() == Closed(old(View()))
    {
      restarts := restarts + 1;
      owner := Backoff(false);
    }

    method OwnerCrash()
      modifies this
      ensures View() == Crashed(old(View()))
    {
      life, ready := DEAD, false;
      DrainInbox(Failure);
      restarts := restarts + 1;
      owner := Backoff(true);
    }

    method OwnerCancel()
      modifies this
      ensures View() == OwnerCancelled(old(View()))
    {
      if !owner.Backoff? {
        life, ready := DEAD, false;
        DrainInbox(Failure);
      }
      owner := Gone;
    }

    method OwnerWake()
      requires owner.Backoff?
      modifies this
      ensures View() == Woken(old(View()))
    {
      life := INIT;
      owner := Starting(owner.crashed);
    }

    // The restarter and the reloader.

    method MaybeRestart()
      modifies this
      ensures View() == RestartAsked(old(View()))
    {
      if life == DEAD {
        return;
      }
      life := DEAD;
      inbox := inbox + [Restart];
    }

    method ReloadBegin()
      modifies this
      ensures View() == ReloadBegun(old(View()))
    {
      life, reloads := DRAINING, reloads + 1;
    }

    method ReloadTryPost() returns (posted: bool)
      requires reloads > 0
      modifies this
      ensures posted <==> old(inflight) <= 0
      ensures View() == if posted then ReloadPosted(old(View())) else old(View())
    {
      posted := !(inflight > 0);
      if posted {
        ready := false;
        inbox := inbox + [Restart];
        reloads := reloads - 1;
      }
    }
  }

  function Registered(): State {
    State(READY, 0, 0, true, [], Serving, map[], map[], 0, [], [])
  }

  // ------------------------------------------------------------------ the invariant

  ghost function Active(callers: map<ReqId, Caller>): set<ReqId> {
    set id | id in callers && callers[id] != Finished
  }

  function InService(owner: Owner): seq<ReqId> {
    if owner.Calling? then [owner.id] else []
  }

  /** First in, first out: the requests accepted so far are those disposed of, then the one in service, then those in
      the inbox, in that order. */
  ghost predicate Conserved(s: State) {
    s.accepted == s.disposed + InService(s.owner) + Requests(s.inbox)
  }

  ghost predicate AcceptedOnce(s: State) {
    && Distinct(s.accepted)
    && (forall id :: id in s.accepted ==> id in s.callers && s.callers[id] != Entering && id in s.futures)
    && (forall id :: id in s.callers ==> id in s.futures)
    && (forall id :: id in s.callers && s.callers[id] == Awaiting ==> id in s.accepted)
  }

  /** A caller that has returned found its future done; what the owner is done with is settled. */
  ghost predicate NobodyForgotten(s: State) {
    && (forall id :: id in s.accepted && id in s.callers && id in s.futures && s.callers[id] == Finished
          ==> s.futures[id] != Waiting)
    && (forall id :: id in s.disposed ==> id in s.futures && s.futures[id] != Waiting)
  }

  /** From a crash until the next READY the inbox holds no request, and none can be put there. */
  ghost predicate QuietAfterCrash(s: State) {
    && (s.owner == Backoff(true) || s.owner.Starting? ==> s.life != READY)
    && (s.owner == Backoff(true) || s.owner == Starting(true) ==> Requests(s.inbox) == [])
  }

  ghost predicate Inv(s: State) {
    && Conserved(s)
    && AcceptedOnce(s)
    && NobodyForgotten(s)
    && QuietAfterCrash(s)
    && s.inflight == |Active(s.callers)|
  }

  lemma {:induction false} RequestsAppend(a: seq<Message>, b: seq<Message>)
    ensures Requests(a + b) == Requests(a) + Requests(b)
    decreases |a|
  {
    if a == [] {
      assert a + b == b;
    } else {
      RequestsAppend(a[1..], b);
      assert (a + b)[0] == a[0] && (a + b)[1..] == a[1..] + b;
      var first := if a[0].Request? then [a[0].id] else [];
      assert first + (Requests(a[1..]) + Requests(b)) == first + Requests(a[1..]) + Requests(b);
    }
  }

  lemma {:induction false} DrainedSettles(f: map<ReqId, Future>, inbox: seq<Message>, outcome: Future, id: ReqId)
    requires outcome != Waiting
    ensures var g := Drained(f, inbox, outcome);
            && g.Keys == f.Keys
            && (id in f ==>
                  g[id] == if f[id] == Waiting && id in Requests(inbox) then outcome else f[id])
    decreases |inbox|
  {
    if inbox != [] {
      var f' := if inbox[0].Request? then Settled(f, inbox[0].id, outcome) else f;
      DrainedSettles(f', inbox[1..], outcome, id);
    }
  }

  lemma DrainedEverywhere(f: map<ReqId, Future>, inbox: seq<Message>)
    ensures Drained(f, inbox, Failure).Keys == f.Keys
    ensures forall id :: id in f ==>
              Drained(f, inbox, Failure)[id] == if f[id] == Waiting && id in Requests(inbox) then Failure else f[id]
  {
    DrainedSettles(f, inbox, Failure, 0);
    forall id | id in f
      ensures Drained(f, inbox, Failure)[id] == if f[id] == Waiting && id in Requests(inbox) then Failure else f[id]
    {
      DrainedSettles(f, inbox, Failure, id);
    }
  }

  lemma ActiveStep(callers: map<ReqId, Caller>, id: ReqId, c: Caller)
    ensures var was := id in callers && callers[id] != Finished;
            |Active(callers[id := c])| ==
              |Active(callers)| + (if c != Finished then 1 else 0) - (if was then 1 else 0)
  {
    var a, b := Active(callers), Active(callers[id := c]);
    if c != Finished {
      assert b == a + {id};
    } else {
      assert b == a - {id};
    }
  }

  lemma EnterStep(s: State, id: ReqId)
    requires Inv(s) && CanEnter(s, id)
    ensures Inv(Entered(s, id))
  {
    ActiveStep(s.callers, id, Entering);
  }

  lemma AcceptConserves(s: State, id: ReqId)
    requires Conserved(s) && s.life == READY
    ensures Conserved(Enqueued(s, id))
  {
    RequestsAppend(s.inbox, [Request(id)]);
    assert Requests([Request(id)]) == [id];
  }

  lemma AcceptOnce(s: State, id: ReqId)
    requires AcceptedOnce(s) && NobodyForgotten(s) && s.life == READY
    requires id in s.callers && s.callers[id] == Entering
    ensures AcceptedOnce(Enqueued(s, id)) && NobodyForgotten(Enqueued(s, id))
  {
    var s' := Enqueued(s, id);
    assert id !in s.accepted;
    assert forall x :: x in s'.accepted <==> x in s.accepted || x == id;
  }

  lemma EnqueueStep(s: State, id: ReqId)
    requires Inv(s) && id in s.callers && s.callers[id] == Entering
    ensures Inv(Enqueued(s, id))
  {
    if s.life == READY {
      ActiveStep(s.callers, id, Awaiting);
      AcceptConserves(s, id);
      AcceptOnce(s, id);
    } else {
      ActiveStep(s.callers, id, Finished);
      RejectKeeps(s, id);
    }
  }

  lemma RejectKeeps(s: State, id: ReqId)
    requires AcceptedOnce(s) && NobodyForgotten(s) && s.life != READY
    requires id in s.callers && s.callers[id] == Entering
    ensures AcceptedOnce(Enqueued(s, id)) && NobodyForgotten(Enqueued(s, id))
  {
    assert id !in s.accepted;
  }

  lemma ReturnStep(s: State, id: ReqId)
    requires Inv(s) && id in s.callers && s.callers[id] == Awaiting && id in s.futures && s.futures[id] != Waiting
    ensures Inv(Returned(s, id))
  {
    ActiveStep(s.callers, id, Finished);
  }

  lemma CancelCallerStep(s: State, id: ReqId)
    requires Inv(s)
    ensures Inv(CallerCancelled(s, id))
  {
  }

  lemma CallerSteps(s: State, e: Event)
    requires Inv(s) && Enabled(s, e) && (e.Enter? || e.Enqueue? || e.Return? || e.CancelCaller?)
    ensures Inv(Next(s, e))
  {
    match e
    case Enter(id) => EnterStep(s, id);
    case Enqueue(id) => EnqueueStep(s, id);
    case Return(id) => ReturnStep(s, id);
    case CancelCaller(id) => CancelCallerStep(s, id);
  }

  lemma TakeConserves(s: State)
    requires Conserved(s) && s.owner.Serving? && s.inbox != []
    ensures Conserved(Taken(s))
  {
    var s' := Taken(s);
    assert Requests(s.inbox) == InService(s'.owner) + Requests(s'.inbox);
    assert s.disposed + InService(s.owner) == s.disposed;
    assert s.disposed + (InService(s'.owner) + Requests(s'.inbox)) == s.disposed + InService(s'.owner) + Requests(s'.inbox);
  }

  lemma TakeStep(s: State)
    requires Inv(s) && s.owner.Serving? && s.inbox != []
    ensures Inv(Taken(s))
  {
    TakeConserves(s);
  }

  lemma FinishStep(s: State, ok: bool)
    requires Inv(s) && s.owner.Calling?
    ensures Inv(Called(s, s.owner.id, ok))
  {
    var s' := Called(s, s.owner.id, ok);
    assert Conserved(s');
    assert s.owner.id in s.accepted by {
      assert InService(s.owner)[0] == s.owner.id;
    }
  }

  lemma OwnerSteps(s: State, e: Event)
    requires Inv(s) && Enabled(s, e) && (e.Open? || e.Take? || e.Finish? || e.Close? || e.Wake?)
    ensures Inv(Next(s, e))
  {
    match e
    case Take => TakeStep(s);
    case Finish(ok) => FinishStep(s, ok);
    case Open =>
    case Close =>
    case Wake =>
  }

  lemma DrainSteps(s: State, e: Event)
    requires Inv(s) && Enabled(s, e) && (e.Crash? || e.CancelOwner?)
    ensures Inv(Next(s, e))
  {
    DrainedEverywhere(s.futures, s.inbox);
  }

  lemma RestartSteps(s: State, e: Event)
    requires Inv(s) && Enabled(s, e) && (e.AskRestart? || e.BeginReload? || e.PostReload?)
    ensures Inv(Next(s, e))
  {
    RequestsAppend(s.inbox, [Restart]);
    assert Requests([Restart]) == [];
  }

  lemma InvStep(s: State, e: Event)
    requires Inv(s) && Enabled(s, e)
    ensures Inv(Next(s, e))
  {
    if e.Enter? || e.Enqueue? || e.Return? || e.CancelCaller? {
      CallerSteps(s, e);
    } else if e.Crash? || e.CancelOwner? {
      DrainSteps(s, e);
    } else if e.AskRestart? || e.BeginReload? || e.PostReload? {
      RestartSteps(s, e);
    } else {
      OwnerSteps(s, e);
    }
  }

  // ------------------------------------------------------------------ whole runs

  /** Where a schedule leads from registration on, if each of its steps can happen when its turn comes. */
  ghost function After(schedule: seq<Event>): Option<State> {
    if schedule == [] then
      Some(Registered())
    else
      var n := |schedule| - 1;
      match After(schedule[..n])
      case None => None
      case Some(s) => if Enabled(s, schedule[n]) then Some(Next(s, schedule[n])) else None
  }

  ghost predicate Reachable(s: State, schedule: seq<Event>) {
    After(schedule) == Some(s)
  }

  lemma {:induction false} ReachableInv(s: State, schedule: seq<Event>)
    requires Reachable(s, schedule)
    ensures Inv(s)
    decreases |schedule|
  {
    if schedule != [] {
      var n := |schedule| - 1;
      ReachableInv(After(schedule[..n]).value, schedule[..n]);
      InvStep(After(schedule[..n]).value, schedule[n]);
    }
  }

  /** The number of places where a request is: inbox entries plus the call in service. */
  ghost function Places(s: State, id: ReqId): nat {
    multiset(InService(s.owner) + Requests(s.inbox))[id]
  }

  lemma {:induction false} DistinctOnce<T>(s: seq<T>, x: T)
    requires forall i, j :: 0 <= i < j < |s| ==> s[i] != s[j]
    ensures multiset(s)[x] == if x in s then 1 else 0
    decreases |s|
  {
    if s != [] {
      DistinctOnce(s[1..], x);
      assert s == [s[0]] + s[1..];
    }
  }

  lemma DonePlusRest<T>(all: seq<T>, done: seq<T>, rest: seq<T>, x: T)
    requires all == done + rest && x in all
    requires forall i, j :: 0 <= i < j < |all| ==> all[i] != all[j]
    ensures multiset(rest)[x] == if x in done then 0 else 1
  {
    DistinctOnce(all, x);
    assert multiset(all) == multiset(done) + multiset(rest);
    assert x in done ==> multiset(done)[x] > 0;
    assert x !in done ==> multiset(done)[x] == 0;
  }

  /** Under every interleaving, an accepted request whose future is still open is in exactly one place: once in the
      inbox or in service. One that the owner is done with is in neither, and its future is not open. */
  lemma EveryRequestInOnePlace(s: State, schedule: seq<Event>, id: ReqId)
    requires Reachable(s, schedule) && id in s.accepted
    ensures id in s.futures
    ensures s.futures[id] == Waiting ==> Places(s, id) == 1
    ensures id in s.disposed ==> Places(s, id) == 0 && s.futures[id] != Waiting
    ensures id !in s.disposed ==> Places(s, id) == 1
  {
    ReachableInv(s, schedule);
    var rest := InService(s.owner) + Requests(s.inbox);
    assert s.accepted == s.disposed + rest;
    DonePlusRest(s.accepted, s.disposed, rest, id);
  }

  /** A future is resolved at most once: no step of anybody changes it again. */
  lemma ResolvedOnce(s: State, schedule: seq<Event>, e: Event, id: ReqId)
    requires Reachable(s, schedule) && Enabled(s, e)
    requires id in s.futures && s.futures[id] != Waiting
    ensures id in Next(s, e).futures && Next(s, e).futures[id] == s.futures[id]
  {
    if e.Crash? || e.CancelOwner? {
      DrainedSettles(s.futures, s.inbox, Failure, id);
    }
  }

  // ------------------------------------------------------------------ who gets which answer

  /** What an event makes of a request that is still open, if it answers it: a call's outcome for the one in service, a failure
      for those still queued when the owner crashes or is cancelled, a cancellation for the caller's own. */
  ghost function AnswerBy(s: State, e: Event, id: ReqId): Option<Future> {
    match e
    case Finish(ok) => if s.owner == Calling(id) then Some(if ok then Result else Failure) else None
    case Crash => if id in Requests(s.inbox) then Some(Failure) else None
    case CancelOwner => if id in Requests(s.inbox) && !s.owner.Backoff? then Some(Failure) else None
    case CancelCaller(x) => if x == id then Some(Cancelled) else None
    case _ => None
  }

  /** The answer of the first event of a schedule that answers a request. */
  ghost function FirstAnswer(schedule: seq<Event>, id: ReqId): Option<Future> {
    if schedule == [] then None
    else
      var before, e := schedule[..|schedule| - 1], schedule[|schedule| - 1];
      match FirstAnswer(before, id)
      case Some(f) => Some(f)
      case None => if After(before).Some? then AnswerBy(After(before).value, e, id) else None
  }

  lemma AnswerStep(s: State, e: Event, id: ReqId)
    requires Enabled(s, e) && id in s.futures
    ensures id in Next(s, e).futures
    ensures Next(s, e).futures[id] ==
              if s.futures[id] == Waiting && AnswerBy(s, e, id).Some? then AnswerBy(s, e, id).value else s.futures[id]
  {
    if e.Crash? || e.CancelOwner? {
      DrainedSettles(s.futures, s.inbox, Failure, id);
    }
  }

  lemma EnterIsOpen(s: State, e: Event, id: ReqId)
    requires Inv(s) && Enabled(s, e) && id !in s.futures && id in Next(s, e).futures
    ensures Next(s, e).futures[id] == Waiting && AnswerBy(s, e, id).None?
  {
    DrainedEverywhere(s.futures, s.inbox);
  }

  lemma UnknownIsUnanswered(s: State, e: Event, id: ReqId)
    requires Inv(s) && Enabled(s, e) && id !in s.futures
    ensures AnswerBy(s, e, id).None?
  {
    assert forall x :: x in InService(s.owner) || x in Requests(s.inbox) ==> x in s.accepted;
    assert s.owner.Calling? ==> s.owner.id in InService(s.owner);
  }

  /** On every schedule: a request is open while no event has answered it, and else has the answer of the first that did. A
      success is the caller's result, a failed call its failure, whoever comes later. */
  lemma {:induction false} AnsweredByFirst(s: State, schedule: seq<Event>, id: ReqId)
    requires Reachable(s, schedule)
    ensures id in s.futures ==>
              s.futures[id] == match FirstAnswer(schedule, id) case None => Waiting case Some(f) => f
    ensures id !in s.futures ==> FirstAnswer(schedule, id).None?
    decreases |schedule|
  {
    if schedule != [] {
      var before, e := schedule[..|schedule| - 1], schedule[|schedule| - 1];
      var s0 := After(before).value;
      AnsweredByFirst(s0, before, id);
      ReachableInv(s0, before);
      if id in s0.futures {
        AnswerStep(s0, e, id);
        AnswersAreDone(before, id);
      } else {
        UnknownIsUnanswered(s0, e, id);
        if id in s.futures {
          EnterIsOpen(s0, e, id);
        }
      }
    }
  }

  lemma {:induction false} AnswersAreDone(schedule: seq<Event>, id: ReqId)
    ensures FirstAnswer(schedule, id).Some? ==> FirstAnswer(schedule, id).value != Waiting
    decreases |schedule|
  {
    if schedule != [] {
      AnswersAreDone(schedule[..|schedule| - 1], id);
    }
  }

  /** Requests are served in the order they were accepted. */
  lemma ServedInOrder(s: State, schedule: seq<Event>)
    requires Reachable(s, schedule)
    ensures s.disposed <= s.accepted
    ensures s.owner.Calling? ==> |s.disposed| < |s.accepted| && s.accepted[|s.disposed|] == s.owner.id
  {
    ReachableInv(s, schedule);
    if s.owner.Calling? {
      assert (s.disposed + InService(s.owner))[|s.disposed|] == s.owner.id;
    }
  }

  /** When `reload` posts its restart message, every request ever accepted has been answered: nothing is lost to the
      restart. */
  lemma ReloadPostsAfterEveryAnswer(s: State, schedule: seq<Event>, id: ReqId)
    requires Reachable(s, schedule) && Enabled(s, PostReload) && id in s.accepted
    ensures id in s.futures && s.futures[id] != Waiting
  {
    ReachableInv(s, schedule);
    assert Active(s.callers) == {};
    assert id !in Active(s.callers);
  }

  /** The in-flight counter is exact, so it never goes negative and `reload` is never released early. */
  lemma InflightIsExact(s: State, schedule: seq<Event>)
    requires Reachable(s, schedule)
    ensures s.inflight == |Active(s.callers)|
    ensures s.inflight == 0 ==> forall id :: id in s.callers ==> s.callers[id] == Finished
  {
    ReachableInv(s, schedule);
    if s.inflight == 0 {
      assert Active(s.callers) == {};
      forall id | id in s.callers
        ensures s.callers[id] == Finished
      {
        assert id !in Active(s.callers);
      }
    }
  }

  /** A crash answers every request accepted so far, and until the next READY nobody can add another. */
  lemma CrashAnswersEveryone(s: State, schedule: seq<Event>)
    requires Reachable(s, schedule) && Enabled(s, Crash)
    ensures forall id :: id in s.accepted ==> id in Crashed(s).futures && Crashed(s).futures[id] != Waiting
    ensures Crashed(s).accepted == Crashed(s).disposed
  {
    ReachableInv(s, schedule);
    InvStep(s, Crash);
    assert Crashed(s).accepted == Crashed(s).disposed;
  }

  lemma NobodyEntersAfterCrash(s: State, schedule: seq<Event>, e: Event)
    requires Reachable(s, schedule) && Enabled(s, e)
    requires s.owner == Backoff(true) || s.owner == Starting(true)
    ensures Next(s, e).accepted == s.accepted
    ensures Requests(s.inbox) == []
  {
    ReachableInv(s, schedule);
  }

  // ------------------------------------------------------------------ cancelling the owner

  ghost predicate EveryoneAnswered(s: State) {
    forall id :: id in s.accepted ==> id in s.futures && s.futures[id] != Waiting
  }

  /** What a cancellation of the owner leaves open: in the backoff sleep, where there is no cleanup, whatever is queued; in
      the middle of a call, the request in service. */
  ghost predicate NothingLeftOpen(s: State) {
    match s.owner
    case Backoff(_) => forall id :: id in Requests(s.inbox) ==> id in s.futures && s.futures[id] != Waiting
    case Calling(id) => id in s.futures && s.futures[id] != Waiting
    case _ => true
  }

  /** Cancelling the owner, wherever it is, leaves no accepted caller hanging if and only if it lands neither in the backoff
      sleep with an open request queued nor in the middle of a call whose request is open. */
  lemma CancelAnswersExactlyWhen(s: State, schedule: seq<Event>)
    requires Reachable(s, schedule) && !s.owner.Gone?
    ensures EveryoneAnswered(OwnerCancelled(s)) <==> NothingLeftOpen(s)
  {
    ReachableInv(s, schedule);
    assert forall id :: id in s.accepted <==> id in s.disposed || id in InService(s.owner) || id in Requests(s.inbox);
    if !s.owner.Backoff? {
      DrainedEverywhere(s.futures, s.inbox);
      if s.owner.Calling? {
        InServiceIsNotQueued(s);
      }
    }
  }

  lemma InServiceIsNotQueued(s: State)
    requires Inv(s) && s.owner.Calling?
    ensures s.owner.id in s.accepted && s.owner.id !in Requests(s.inbox)
  {
    var all, at := s.accepted, |s.disposed|;
    assert all == s.disposed + [s.owner.id] + Requests(s.inbox);
    assert all[at] == s.owner.id;
    assert forall i :: 0 <= i < |Requests(s.inbox)| ==> all[at + 1 + i] == Requests(s.inbox)[i];
  }

  // ------------------------------------------------------------------ the owner answers everyone

  /** The owner's own steps. */
  predicate IsOwnerStep(e: Event) {
    e.Open? || e.Take? || e.Finish? || e.Close? || e.Wake? || e.Crash?
  }

  /** How many of its steps the owner may need before it is idle. */
  function OwnerWork(s: State): nat {
    5 * |s.inbox|
    + match s.owner case Closing => 3 case Backoff(_) => 2 case Calling(_) => 1 case Starting(_) => 1 case _ => 0
  }

  /** Once everyone is answered the owner's steps leave it so; before, each of them answers everyone or leaves less to do. */
  lemma OwnerStepAnswers(s: State, e: Event)
    requires Inv(s) && IsOwnerStep(e) && Enabled(s, e)
    ensures !Next(s, e).owner.Gone?
    ensures EveryoneAnswered(Next(s, e)) || (!EveryoneAnswered(s) && OwnerWork(Next(s, e)) < OwnerWork(s))
  {
    InvStep(s, e);
    if e.Crash? {
      EveryoneDisposed(Crashed(s));
    }
  }

  lemma EveryoneDisposed(s: State)
    requires Inv(s) && s.inbox == [] && !s.owner.Calling?
    ensures EveryoneAnswered(s)
  {
    assert s.accepted == s.disposed;
  }

  /** A live owner with somebody left to answer has a step to take. */
  lemma OwnerNeverStalls(s: State, schedule: seq<Event>)
    requires Reachable(s, schedule) && !s.owner.Gone? && !EveryoneAnswered(s)
    ensures exists e :: IsOwnerStep(e) && Enabled(s, e)
  {
    ReachableInv(s, schedule);
    match s.owner
    case Starting(_) => assert Enabled(s, Open);
    case Serving =>
      if s.inbox == [] {
        EveryoneDisposed(s);
      }
      assert Enabled(s, Take);
    case Calling(_) => assert Enabled(s, Finish(true));
    case Closing => assert Enabled(s, Close);
    case Backoff(_) => assert Enabled(s, Wake);
  }

  lemma {:induction false} OwnerProgresses(s: State, schedule: seq<Event>, steps: seq<Event>, s': State)
    requires Reachable(s, schedule) && !s.owner.Gone? && Reachable(s', schedule + steps)
    requires forall e :: e in steps ==> IsOwnerStep(e)
    ensures !s'.owner.Gone? && (EveryoneAnswered(s') || OwnerWork(s') + |steps| <= OwnerWork(s))
    decreases |steps|
  {
    if steps == [] {
      assert schedule + steps == schedule;
    } else {
      var n, all := |steps| - 1, schedule + steps;
      assert all[..|all| - 1] == schedule + steps[..n] && all[|all| - 1] == steps[n];
      var before := After(schedule + steps[..n]).value;
      OwnerProgresses(s, schedule, steps[..n], before);
      ReachableInv(before, schedule + steps[..n]);
      OwnerStepAnswers(before, steps[n]);
    }
  }

  /** Liveness: from every reachable state with a live owner, whatever it does on its own (a session that closes or crashes
      included), at most 5 steps for each queued message and 3 more answer every request accepted so far. */
  lemma OwnerAnswersEveryone(s: State, schedule: seq<Event>, steps: seq<Event>, s': State)
    requires Reachable(s, schedule) && !s.owner.Gone? && Reachable(s', schedule + steps)
    requires (forall e :: e in steps ==> IsOwnerStep(e)) && |steps| >= 5 * |s.inbox| + 3
    ensures s'.accepted == s.accepted && EveryoneAnswered(s')
  {
    OwnerProgresses(s, schedule, steps, s');
    OwnerAcceptsNobody(s, schedule, steps, s');
    ReachableInv(s', schedule + steps);
    if !EveryoneAnswered(s') {
      EveryoneDisposed(s');
    }
  }

  lemma {:induction false} OwnerAcceptsNobody(s: State, schedule: seq<Event>, steps: seq<Event>, s': State)
    requires Reachable(s, schedule) && Reachable(s', schedule + steps)
    requires forall e :: e in steps ==> IsOwnerStep(e)
    ensures s'.accepted == s.accepted
    decreases |steps|
  {
    if steps == [] {
      assert schedule + steps == schedule;
    } else {
      var n, all := |steps| - 1, schedule + steps;
      assert all[..|all| - 1] == schedule + steps[..n] && all[|all| - 1] == steps[n];
      assert IsOwnerStep(steps[n]);
      OwnerAcceptsNobody(s, schedule, steps[..n], After(schedule + steps[..n]).value);
    }
  }

  // ------------------------------------------------------------------ schedules that strand a caller

  lemma ReachNext(s: State, schedule: seq<Event>, e: Event)
    requires Reachable(s, schedule) && Enabled(s, e)
    ensures Reachable(Next(s, e), schedule + [e])
  {
    assert (schedule + [e])[..|schedule|] == schedule;
  }

  lemma Follow(s: State, schedule: seq<Event>, e: Event, s': State) returns (schedule': seq<Event>)
    requires Reachable(s, schedule) && Enabled(s, e) && s' == Next(s, e)
    ensures Reachable(s', schedule')
  {
    schedule' := schedule + [e];
    ReachNext(s, schedule, e);
  }

  /** A reload of an idle skill: the owner takes its restart message... */
  lemma IdleReload() returns (s: State, schedule: seq<Event>)
    ensures s == Registered().(life := DRAINING, ready := false, owner := Closing)
    ensures Reachable(s, schedule)
  {
    var s0 := Registered();
    assert Reachable(s0, []);
    var s1 := s0.(life := DRAINING, reloads := 1);
    schedule := Follow(s0, [], BeginReload, s1);
    var s2 := s0.(life := DRAINING, ready := false, inbox := [Restart]);
    schedule := Follow(s1, schedule, PostReload, s2);
    s := s2.(inbox := [], owner := Closing);
    schedule := Follow(s2, schedule, Take, s);
  }

  /** ... backs off, and starts again. */
  lemma IdleRestart() returns (s: State, schedule: seq<Event>)
    ensures s == Registered().(life := INIT, ready := false, restarts := 1, owner := Starting(false))
    ensures Reachable(s, schedule)
  {
    var s0;
    s0, schedule := IdleReload();
    var s1 := s0.(restarts := 1, owner := Backoff(false));
    schedule := Follow(s0, schedule, Close, s1);
    s := s1.(life := INIT, owner := Starting(false));
    schedule := Follow(s1, schedule, Wake, s);
  }

  /** A reload asked for while the owner is starting leaves its restart message in the inbox of a READY skill. */
  lemma ReadyWithRestartQueued() returns (s: State, schedule: seq<Event>)
    ensures s == Registered().(inbox := [Restart])
    ensures Reachable(s, schedule)
  {
    var s0;
    s0, schedule := IdleRestart();
    var s1 := s0.(life := DRAINING, reloads := 1);
    schedule := Follow(s0, schedule, BeginReload, s1);
    var s2 := s0.(life := DRAINING, inbox := [Restart]);
    schedule := Follow(s1, schedule, PostReload, s2);
    s := Registered().(inbox := [Restart]);
    schedule := Follow(s2, schedule, Open, s);
  }

  /** It can land badly: while the owner closes the session on that message, the skill still counts as READY, and a request
      accepted then is stranded if the owner is cancelled while it backs off. */
  lemma CancelInBackoffCanStrand() returns (s: State, schedule: seq<Event>)
    ensures Reachable(s, schedule) && Enabled(s, CancelOwner)
    ensures !EveryoneAnswered(OwnerCancelled(s))
  {
    var s0;
    s0, schedule := ReadyWithRestartQueued();
    var s1 := s0.(inbox := [], owner := Closing);
    schedule := Follow(s0, schedule, Take, s1);
    var s2 := s1.(inflight := 1, futures := map[0 := Waiting], callers := map[0 := Entering]);
    schedule := Follow(s1, schedule, Enter(0), s2);
    var s3 := s2.(inbox := [Request(0)], callers := map[0 := Awaiting], accepted := [0]);
    schedule := Follow(s2, schedule, Enqueue(0), s3);
    s := s3.(restarts := 1, owner := Backoff(false));
    schedule := Follow(s3, schedule, Close, s);
    assert s.accepted[0] == 0;
  }

  /** Cancelling the owner in the middle of a call (the step this model leaves out of its schedules) strands the
      request in service: it is cleaned up by nobody. */
  lemma CancelMidCallStrands(s: State, schedule: seq<Event>)
    requires Reachable(s, schedule) && s.owner.Calling?
    requires s.owner.id in s.futures && s.futures[s.owner.id] == Waiting
    ensures s.owner.id in s.accepted && s.owner.id in OwnerCancelled(s).futures
    ensures OwnerCancelled(s).futures[s.owner.id] == Waiting && Places(OwnerCancelled(s), s.owner.id) == 0
  {
    ReachableInv(s, schedule);
    var id := s.owner.id;
    ServedInOrder(s, schedule);
    EveryRequestInOnePlace(s, schedule, id);
    DrainedSettles(s.futures, s.inbox, Failure, id);
    var inbox := Requests(s.inbox);
    assert multiset(InService(s.owner) + inbox) == multiset([id]) + multiset(inbox);
    assert id !in multiset(inbox);
    assert id !in inbox;
  }

  // ------------------------------------------------------------------ life and health, by the events

  /** How the process looks from outside: whether its owner sleeps between two sessions, where it is in its life, whether the
      session is announced, and how many sessions ended since the last one that opened. */
  datatype Health = Health(rests: bool, life: Life, announced: bool, restarts: nat)

  /** A restart of what is dead changes nothing, and a cancelled owner dies unless it only slept. */
  function HealthAfter(h: Health, e: Event): Health {
    match e
    case Open => Health(false, READY, true, 0)
    case Take => h.(rests := false)
    case Finish(_) => h.(rests := false)
    case Crash => Health(true, DEAD, false, h.restarts + 1)
    case Close => h.(rests := true, restarts := h.restarts + 1)
    case Wake => h.(rests := false, life := INIT)
    case CancelOwner => if h.rests then h.(rests := false) else Health(false, DEAD, false, h.restarts)
    case AskRestart => h.(life := DEAD)
    case BeginReload => h.(life := DRAINING)
    case PostReload => h.(announced := false)
    case _ => h
  }

  function HealthBy(schedule: seq<Event>): Health {
    if schedule == [] then Health(false, READY, true, 0)
    else HealthAfter(HealthBy(schedule[..|schedule| - 1]), schedule[|schedule| - 1])
  }

  function HealthOf(s: State): Health {
    Health(s.owner.Backoff?, s.life, s.ready, s.restarts)
  }

  lemma HealthStep(s: State, e: Event)
    requires Enabled(s, e)
    ensures HealthOf(Next(s, e)) == HealthAfter(HealthOf(s), e)
  {
  }

  /** On every schedule the health of the process is what the events so far make it. */
  lemma {:induction false} HealthFollowsEvents(schedule: seq<Event>)
    requires After(schedule).Some?
    ensures var s := After(schedule).value;
            Health(s.owner.Backoff?, s.life, s.ready, s.restarts) == HealthBy(schedule)
    decreases |schedule|
  {
    if schedule != [] {
      var n := |schedule| - 1;
      HealthFollowsEvents(schedule[..n]);
      HealthStep(After(schedule[..n]).value, schedule[n]);
    }
  }

  // ------------------------------------------------------------------ the inbox, by the events

  /** What an event puts on the inbox: a request if the skill is READY, a restart if it is not dead, and a reload's sentinel. */
  function PostedBy(h: Health, e: Event): seq<Message> {
    match e
    case Enqueue(id) => if h.life == READY then [Request(id)] else []
    case AskRestart => if h.life == DEAD then [] else [Restart]
    case PostReload => [Restart]
    case _ => []
  }

  function Posted(schedule: seq<Event>): seq<Message> {
    if schedule == [] then []
    else
      var before := schedule[..|schedule| - 1];
      Posted(before) + PostedBy(HealthBy(before), schedule[|schedule| - 1])
  }

  /** How many of them are gone: taken one by one, or drained all at once. */
  function Removed(schedule: seq<Event>): nat {
    if schedule == [] then 0
    else
      var before := schedule[..|schedule| - 1];
      match schedule[|schedule| - 1]
      case Take => Removed(before) + 1
      case Crash => |Posted(before)|
      case CancelOwner => if HealthBy(before).rests then Removed(before) else |Posted(before)|
      case _ => Removed(before)
  }

  lemma InboxStep(s: State, e: Event)
    requires Enabled(s, e)
    ensures var inbox := s.inbox + PostedBy(HealthOf(s), e);
            Next(s, e).inbox == match e
                                case Take => inbox[1..]
                                case Crash => []
                                case CancelOwner => if s.owner.Backoff? then inbox else []
                                case _ => inbox
  {
    assert s.inbox + [] == s.inbox;
  }

  /** On every schedule the inbox holds, in the order they were posted, the messages that are not gone: whatever was queued is
      taken before a restart that was asked for later. */
  lemma {:induction false} InboxIsPosted(schedule: seq<Event>)
    requires After(schedule).Some?
    ensures Removed(schedule) <= |Posted(schedule)| && After(schedule).value.inbox == Posted(schedule)[Removed(schedule)..]
    decreases |schedule|
  {
    if schedule != [] {
      var before, e := schedule[..|schedule| - 1], schedule[|schedule| - 1];
      InboxIsPosted(before);
      HealthFollowsEvents(before);
      var s := After(before).value;
      InboxStep(s, e);
      var more := PostedBy(HealthOf(s), e);
      assert (Posted(before) + more)[Removed(before)..] == Posted(before)[Removed(before)..] + more;
    }
  }
}
