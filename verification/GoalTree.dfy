/** The goal tree of the orchestrator: an insertion-ordered dictionary of goals, wired by child lists. */
module GoalTree {
  import opened Common

  type Id = string

  const ROOT: Id := "root"

  datatype Status = Pending | InProgress | Completed | Failed | Blocked | AwaitingApproval

  datatype Goal = Goal(
    parent: Option<Id>,
    children: seq<Id>,
    description: string,
    status: Status,
    result: Option<string>,
    error: Option<string>,
    attempts: int)

  /** A Python dictionary of goals: `ids` is its insertion order. */
  datatype Tree = Tree(ids: seq<Id>, goals: map<Id, Goal>)

  ghost predicate IsDict(t: Tree) {
    && Distinct(t.ids)
    && (forall id :: id in t.ids <==> id in t.goals)
  }

  // ------------------------------------------------------------------ operations

  function NewGoal(parent: Option<Id>, desc: string): Goal {
    Goal(parent, [], desc, Pending, None, None, 0)
  }

  function Created(t: Tree, gid: Id, parent: Option<Id>, desc: string): Tree {
    var ids := if gid in t.goals then t.ids else t.ids + [gid];
    var goals := t.goals[gid := NewGoal(parent, desc)];
    if parent.Some? && parent.value != "" && parent.value in goals then
      var p := goals[parent.value];
      Tree(ids, goals[parent.value := p.(children := p.children + [gid])])
    else
      Tree(ids, goals)
  }

  /** Sets a goal's status and, where given, its result and its error; everything else stays. */
  function Updated(t: Tree, gid: Id, status: Status, result: Option<string>, error: Option<string>): Tree
    requires gid in t.goals
  {
    var g := t.goals[gid];
    var g' := g.(status := status,
                 result := if result.Some? then result else g.result,
                 error := if error.Some? then error else g.error);
    t.(goals := t.goals[gid := g'])
  }

  predicate Ready(t: Tree, id: Id) {
    && id in t.goals
    && t.goals[id].status == Pending
    && forall c :: c in t.goals[id].children ==> c in t.goals && t.goals[c].status == Completed
  }

  /** The tree is a dictionary that its callers update in place. */
  class GoalStore {
    var tree: Tree

    constructor ()
      ensures tree == Tree([], map[])
    {
      tree := Tree([], map[]);
    }

    method CreateGoal(gid: Id, parent: Option<Id>, desc: string)
      modifies this
      ensures tree == Created(old(tree), gid, parent, desc)
    {
      var ids := if gid in tree.goals then tree.ids else tree.ids + [gid];
      tree := Tree(ids, tree.goals[gid := NewGoal(parent, desc)]);
      if parent.Some? && parent.value != "" && parent.value in tree.goals {
        var p := tree.goals[parent.value];
        tree := tree.(goals := tree.goals[parent.value := p.(children := p.children + [gid])]);
      }
    }

    method UpdateStatus(gid: Id, status: Status, result: Option<string>, error: Option<string>)
      requires gid in tree.goals
      modifies this
      ensures tree == Updated(old(tree), gid, status, result, error)
    {
      var g := tree.goals[gid].(status := status);
      if result.Some? {
        g := g.(result := result);
      }
      if error.Some? {
        g := g.(error := error);
      }
      tree := tree.(goals := tree.goals[gid := g]);
    }
  }

  /** The pending goals whose children are all completed, in dictionary order. */
  method GetReadyGoals(t: Tree) returns (ready: seq<Id>)
    requires IsDict(t)
    ensures Distinct(ready)
    ensures forall id :: id in ready <==> Ready(t, id)
    ensures IsSubsequence(ready, t.ids)
  {
    ready := [];
    for i := 0 to |t.ids|
      invariant Scanned(t, ready, i)
    {
      ScanOne(t, ready, i);
      if Ready(t, t.ids[i]) {
        ready := ready + [t.ids[i]];
      }
    }
    assert t.ids[..|t.ids|] == t.ids;
  }

  /** `ready` lists the ready ones among the first `n` goals. */
  ghost predicate Scanned(t: Tree, ready: seq<Id>, n: nat)
    requires n <= |t.ids|
  {
    && Distinct(ready)
    && (forall id :: id in ready <==> id in t.ids[..n] && Ready(t, id))
    && IsSubsequence(ready, t.ids[..n])
  }

  lemma ScanOne(t: Tree, ready: seq<Id>, n: nat)
    requires IsDict(t) && n < |t.ids| && Scanned(t, ready, n)
    ensures Scanned(t, if Ready(t, t.ids[n]) then ready + [t.ids[n]] else ready, n + 1)
  {
    var before, id := t.ids[..n], t.ids[n];
    assert t.ids[..n + 1] == before + [id];
    assert id !in before;
    SubsequenceGrows(ready, before, id);
  }

  /** `ready` lists some of `ids`, in the same order. */
  ghost predicate IsSubsequence(ready: seq<Id>, ids: seq<Id>) {
    if ready == [] then true
    else ids != [] && (if ready[|ready| - 1] == ids[|ids| - 1]
                       then IsSubsequence(ready[..|ready| - 1], ids[..|ids| - 1])
                       else IsSubsequence(ready, ids[..|ids| - 1]))
  }

  lemma SubsequenceGrows(ready: seq<Id>, ids: seq<Id>, id: Id)
    requires IsSubsequence(ready, ids) && id !in ready
    ensures IsSubsequence(ready, ids + [id]) && IsSubsequence(ready + [id], ids + [id])
  {
    assert (ids + [id])[..|ids|] == ids && (ready + [id])[..|ready|] == ready;
  }

  // ------------------------------------------------------------------ shape

  /** `id` hangs `d` child links below `top`. */
  ghost predicate Below(t: Tree, top: Id, d: nat, id: Id) {
    if d == 0 then
      id == top
    else
      exists p :: p in t.goals && Below(t, top, d - 1, p) && id in t.goals[p].children
  }

  ghost predicate Descendant(t: Tree, id: Id) {
    exists d: nat :: d > 0 && Below(t, ROOT, d, id)
  }

  /** Every listed child exists, is not the root, and hangs under one parent. */
  ghost predicate Wired(t: Tree) {
    && (forall p, c {:trigger c in t.goals[p].children} :: p in t.goals && c in t.goals[p].children ==> c in t.goals && c != ROOT)
    && (forall p, q, c :: p in t.goals && q in t.goals && c in t.goals[p].children && c in t.goals[q].children ==> p == q)
  }

  ghost predicate Connected(t: Tree) {
    forall id :: id in t.goals && id != ROOT ==> Descendant(t, id)
  }

  ghost predicate Ranked(t: Tree, rank: map<Id, nat>) {
    && (forall id :: id in t.goals ==> id in rank)
    && forall p, c :: p in t.goals && c in t.goals[p].children ==> c in rank && rank[c] < rank[p]
  }

  ghost predicate Grounded(t: Tree) {
    exists rank :: Ranked(t, rank)
  }

  /** A finite tree of goals under ROOT. */
  ghost predicate WellFormed(t: Tree) {
    IsDict(t) && ROOT in t.goals && Wired(t) && Connected(t) && Grounded(t)
  }

  /** Same goals in the same order with the same child lists; only their progress differs. */
  ghost predicate SameShape(t: Tree, u: Tree) {
    && t.ids == u.ids
    && t.goals.Keys == u.goals.Keys
    && forall id :: id in t.goals ==> id in u.goals && u.goals[id].children == t.goals[id].children
  }

  lemma {:induction false} SameShapeBelow(t: Tree, u: Tree, top: Id, d: nat, id: Id)
    requires SameShape(t, u)
    ensures Below(t, top, d, id) == Below(u, top, d, id)
    decreases d
  {
    if d > 0 {
      forall p | p in t.goals
        ensures Below(t, top, d - 1, p) == Below(u, top, d - 1, p)
      {
        SameShapeBelow(t, u, top, d - 1, p);
      }
    }
  }

  lemma SameShapeDescendant(t: Tree, u: Tree, id: Id)
    requires SameShape(t, u)
    ensures Descendant(t, id) == Descendant(u, id)
  {
    forall d: nat
      ensures Below(t, ROOT, d, id) == Below(u, ROOT, d, id)
    {
      SameShapeBelow(t, u, ROOT, d, id);
    }
  }

  lemma SameShapeWellFormed(t: Tree, u: Tree)
    requires SameShape(t, u) && WellFormed(t)
    ensures WellFormed(u)
  {
    forall id | id in u.goals && id != ROOT
      ensures Descendant(u, id)
    {
      SameShapeDescendant(t, u, id);
    }
    var rank :| Ranked(t, rank);
    assert Ranked(u, rank);
  }

  /** In a tree a goal sits at one depth only. */
  lemma {:induction false} DepthUnique(t: Tree, d: nat, e: nat, id: Id)
    requires Wired(t) && Below(t, ROOT, d, id) && Below(t, ROOT, e, id)
    ensures d == e
    decreases d
  {
    if d > 0 && e > 0 {
      var p :| p in t.goals && Below(t, ROOT, d - 1, p) && id in t.goals[p].children;
      var q :| q in t.goals && Below(t, ROOT, e - 1, q) && id in t.goals[q].children;
      DepthUnique(t, d - 1, e - 1, p);
    }
  }

  /** In a well-formed tree the goals below the root are exactly the other goals. */
  lemma DescendantsAreTheOthers(t: Tree, id: Id)
    requires WellFormed(t)
    ensures Descendant(t, id) <==> id in t.goals && id != ROOT
  {
    if Descendant(t, id) {
      var d: nat :| d > 0 && Below(t, ROOT, d, id);
      var p :| p in t.goals && Below(t, ROOT, d - 1, p) && id in t.goals[p].children;
    }
  }

  // ------------------------------------------------------------------ growth

  /** What `plan` starts from: the root alone, not yet begun. */
  lemma RootAlone(desc: string)
    ensures WellFormed(Created(Tree([], map[]), ROOT, None, desc))
  {
    var t := Created(Tree([], map[]), ROOT, None, desc);
    assert Ranked(t, map[ROOT := 0]);
  }

  /** Creating a goal under an existing parent, with a new id, keeps the tree a tree. */
  lemma CreatedKeepsTree(t: Tree, gid: Id, parent: Id, desc: string)
    requires WellFormed(t) && gid !in t.goals && parent in t.goals && parent != ""
    ensures WellFormed(Created(t, gid, Some(parent), desc))
  {
    CreatedStaysDict(t, gid, parent, desc);
    CreatedStaysWired(t, gid, parent, desc);
    CreatedStaysConnected(t, gid, parent, desc);
    CreatedStaysGrounded(t, gid, parent, desc);
  }

  /** One call of `create_goal`. */
  datatype Creation = Creation(gid: Id, parent: Id, description: string)

  /** A plan: the root, then goals created one after the other. */
  function Planted(description: string, creations: seq<Creation>): Tree {
    if creations == [] then
      Created(Tree([], map[]), ROOT, None, description)
    else
      var c := creations[|creations| - 1];
      Created(Planted(description, creations[..|creations| - 1]), c.gid, Some(c.parent), c.description)
  }

  /** Each creation uses a new id, under a goal that is already there. */
  ghost predicate Orderly(description: string, creations: seq<Creation>) {
    forall i :: 0 <= i < |creations| ==>
      var t := Planted(description, creations[..i]);
      creations[i].gid !in t.goals && creations[i].parent in t.goals && creations[i].parent != ""
  }

  /** Any such sequence of creations builds a finite tree under the root. */
  lemma {:induction false} PlantedIsTree(description: string, creations: seq<Creation>)
    requires Orderly(description, creations)
    ensures WellFormed(Planted(description, creations))
    decreases |creations|
  {
    if creations == [] {
      RootAlone(description);
    } else {
      var before, c := creations[..|creations| - 1], creations[|creations| - 1];
      assert creations[..|creations| - 1] == before;
      forall i | 0 <= i < |before| ensures before[..i] == creations[..i] && before[i] == creations[i] {
      }
      PlantedIsTree(description, before);
      CreatedKeepsTree(Planted(description, before), c.gid, c.parent, c.description);
    }
  }

  /** The goals created under `id`, in order. */
  function ChildrenIn(creations: seq<Creation>, id: Id): seq<Id> {
    if creations == [] then []
    else
      var c := creations[|creations| - 1];
      ChildrenIn(creations[..|creations| - 1], id) + if c.parent == id then [c.gid] else []
  }

  /** The goal is pending, not yet tried, without a result or an error, and as described. */
  predicate IsFresh(g: Goal, parent: Option<Id>, description: string, children: seq<Id>) {
    && g.parent == parent && g.description == description && g.children == children
    && g.status == Pending && g.attempts == 0 && g.result.None? && g.error.None?
  }

  ghost predicate AsCreated(t: Tree, description: string, creations: seq<Creation>) {
    && |t.ids| == 1 + |creations| && t.ids[0] == ROOT
    && (forall id :: id in t.ids <==> id in t.goals)
    && ROOT in t.goals && IsFresh(t.goals[ROOT], None, description, ChildrenIn(creations, ROOT))
    && forall i :: 0 <= i < |creations| ==>
         var c := creations[i];
         && t.ids[i + 1] == c.gid && c.gid in t.goals
         && IsFresh(t.goals[c.gid], Some(c.parent), c.description, ChildrenIn(creations, c.gid))
  }

  lemma OrderlyPrefix(description: string, creations: seq<Creation>)
    requires Orderly(description, creations) && creations != []
    ensures var before, c := creations[..|creations| - 1], creations[|creations| - 1];
            var t := Planted(description, before);
            Orderly(description, before) && c.gid !in t.goals && c.parent in t.goals && c.parent != ""
  {
    var before := creations[..|creations| - 1];
    assert creations[..|creations| - 1] == before;
    forall i | 0 <= i < |before| ensures before[..i] == creations[..i] && before[i] == creations[i] {
    }
  }

  lemma {:induction false} UnknownHasNoChildren(description: string, creations: seq<Creation>, id: Id)
    requires Orderly(description, creations) && id !in Planted(description, creations).goals
    ensures ChildrenIn(creations, id) == []
    decreases |creations|
  {
    if creations != [] {
      OrderlyPrefix(description, creations);
      UnknownHasNoChildren(description, creations[..|creations| - 1], id);
    }
  }

  lemma CreatedAt(t: Tree, creations: seq<Creation>, id: Id, parent: Option<Id>, desc: string)
    requires creations != []
    requires var c := creations[|creations| - 1];
             c.gid !in t.goals && c.parent in t.goals && c.parent != "" && id in t.goals
    requires IsFresh(t.goals[id], parent, desc, ChildrenIn(creations[..|creations| - 1], id))
    ensures var c := creations[|creations| - 1];
            var u := Created(t, c.gid, Some(c.parent), c.description);
            id in u.goals && IsFresh(u.goals[id], parent, desc, ChildrenIn(creations, id))
  {
    var before := ChildrenIn(creations[..|creations| - 1], id);
    assert before + [] == before;
  }

  lemma CreatedStaysAsCreated(t: Tree, desc: string, creations: seq<Creation>)
    requires creations != [] && AsCreated(t, desc, creations[..|creations| - 1])
    requires var c := creations[|creations| - 1];
             && c.gid !in t.goals && c.parent in t.goals && c.parent != ""
             && ChildrenIn(creations[..|creations| - 1], c.gid) == []
    ensures var c := creations[|creations| - 1];
            AsCreated(Created(t, c.gid, Some(c.parent), c.description), desc, creations)
  {
    var before, c := creations[..|creations| - 1], creations[|creations| - 1];
    var u := Created(t, c.gid, Some(c.parent), c.description);
    assert u.ids == t.ids + [c.gid] && u.goals.Keys == t.goals.Keys + {c.gid};
    CreatedAt(t, creations, ROOT, None, desc);
    forall i | 0 <= i < |creations|
      ensures u.ids[i + 1] == creations[i].gid && creations[i].gid in u.goals
      ensures var x := creations[i]; IsFresh(u.goals[x.gid], Some(x.parent), x.description, ChildrenIn(creations, x.gid))
    {
      if i < |before| {
        assert creations[i] == before[i];
        CreatedAt(t, creations, before[i].gid, Some(before[i].parent), before[i].description);
      }
    }
  }

  /** A planted tree is what was asked for: the root and then each goal in the order of creation, with its own description and
      parent, its children in the order of their creation, and nothing done yet. */
  lemma {:induction false} PlantedAsCreated(description: string, creations: seq<Creation>)
    requires Orderly(description, creations)
    ensures AsCreated(Planted(description, creations), description, creations)
    decreases |creations|
  {
    if creations == [] {
    } else {
      var before := creations[..|creations| - 1];
      OrderlyPrefix(description, creations);
      PlantedAsCreated(description, before);
      UnknownHasNoChildren(description, before, creations[|creations| - 1].gid);
      CreatedStaysAsCreated(Planted(description, before), description, creations);
    }
  }

  /** All goals are the root's children. */
  ghost predicate Flat(t: Tree) {
    forall id :: id in t.goals && id != ROOT ==> t.goals[id].children == []
  }

  /** What `plan` builds is flat: it creates every goal under the root. */
  lemma {:induction false} PlanIsFlat(description: string, creations: seq<Creation>)
    requires Orderly(description, creations) && forall i :: 0 <= i < |creations| ==> creations[i].parent == ROOT
    ensures Flat(Planted(description, creations))
    decreases |creations|
  {
    if creations != [] {
      var before := creations[..|creations| - 1];
      forall i | 0 <= i < |before| ensures before[..i] == creations[..i] && before[i] == creations[i] {
      }
      PlanIsFlat(description, before);
    }
  }

  lemma CreatedStaysDict(t: Tree, gid: Id, parent: Id, desc: string)
    requires IsDict(t) && gid !in t.goals && parent in t.goals && parent != ""
    ensures IsDict(Created(t, gid, Some(parent), desc))
  {
    var u := Created(t, gid, Some(parent), desc);
    assert u.goals.Keys == t.goals.Keys + {gid};
  }

  lemma LinksOfCreated(t: Tree, gid: Id, parent: Id, desc: string, p: Id, c: Id)
    requires gid !in t.goals && parent in t.goals && parent != ""
    requires var u := Created(t, gid, Some(parent), desc); p in u.goals && c in u.goals[p].children
    ensures (p in t.goals && c in t.goals[p].children) || (p == parent && c == gid)
  {
  }

  lemma CreatedStaysWired(t: Tree, gid: Id, parent: Id, desc: string)
    requires IsDict(t) && ROOT in t.goals && Wired(t) && gid !in t.goals && parent in t.goals && parent != ""
    ensures Wired(Created(t, gid, Some(parent), desc))
  {
    var u := Created(t, gid, Some(parent), desc);
    forall p, c | p in u.goals && c in u.goals[p].children
      ensures (p in t.goals && c in t.goals[p].children) || (p == parent && c == gid)
    {
      LinksOfCreated(t, gid, parent, desc, p, c);
    }
  }

  /** Every rank one higher, and `gid` below them all. */
  function Raised(rank: map<Id, nat>, gid: Id): map<Id, nat> {
    map id | id in rank.Keys + {gid} :: if id == gid then 0 else rank[id] + 1
  }

  lemma RaisedRanks(t: Tree, u: Tree, rank: map<Id, nat>, gid: Id, parent: Id)
    requires Ranked(t, rank) && gid !in t.goals && parent in t.goals && u.goals.Keys == t.goals.Keys + {gid}
    requires forall p, c {:trigger c in u.goals[p].children} ::
               p in u.goals && c in u.goals[p].children
               ==> (p in t.goals && c in t.goals && c in t.goals[p].children) || (p == parent && c == gid)
    ensures Ranked(u, Raised(rank, gid))
  {
  }

  lemma CreatedStaysGrounded(t: Tree, gid: Id, parent: Id, desc: string)
    requires Wired(t) && Grounded(t) && gid !in t.goals && parent in t.goals && parent != ""
    ensures Grounded(Created(t, gid, Some(parent), desc))
  {
    var u := Created(t, gid, Some(parent), desc);
    var rank :| Ranked(t, rank);
    forall p, c | p in u.goals && c in u.goals[p].children
      ensures (p in t.goals && c in t.goals && c in t.goals[p].children) || (p == parent && c == gid)
    {
      LinksOfCreated(t, gid, parent, desc, p, c);
    }
    RaisedRanks(t, u, rank, gid, parent);
  }

  lemma CreatedStaysConnected(t: Tree, gid: Id, parent: Id, desc: string)
    requires IsDict(t) && Connected(t) && gid !in t.goals && parent in t.goals && parent != ""
    ensures Connected(Created(t, gid, Some(parent), desc))
  {
    var u := Created(t, gid, Some(parent), desc);
    forall id | id in u.goals && id != ROOT
      ensures Descendant(u, id)
    {
      if id == gid {
        var d: nat :| Below(t, ROOT, d, parent) by {
          if parent == ROOT {
            assert Below(t, ROOT, 0, parent);
          } else {
            assert Descendant(t, parent);
          }
        }
        GrowthKeepsDepth(t, u, d, parent);
        assert Below(u, ROOT, d + 1, gid);
      } else {
        var d: nat :| d > 0 && Below(t, ROOT, d, id);
        GrowthKeepsDepth(t, u, d, id);
      }
    }
  }

  lemma {:induction false} GrowthKeepsDepth(t: Tree, u: Tree, d: nat, id: Id)
    requires Below(t, ROOT, d, id)
    requires forall p :: p in t.goals ==> p in u.goals && t.goals[p].children <= u.goals[p].children
    ensures Below(u, ROOT, d, id)
    decreases d
  {
    if d > 0 {
      var p :| p in t.goals && Below(t, ROOT, d - 1, p) && id in t.goals[p].children;
      GrowthKeepsDepth(t, u, d - 1, p);
      assert id in u.goals[p].children;
    }
  }

  // ------------------------------------------------------------------ progress

  /** No deadlock: while some goal below the root is pending, and each goal below the root is pending or completed,
      some goal below the root is ready. */
  lemma SomeGoalReady(t: Tree)
    requires WellFormed(t)
    requires forall id :: id in t.goals && id != ROOT ==> t.goals[id].status in {Pending, Completed}
    requires exists id :: id in t.goals && id != ROOT && t.goals[id].status == Pending
    ensures exists id :: id != ROOT && Ready(t, id)
  {
    var rank :| Ranked(t, rank);
    var id :| id in t.goals && id != ROOT && t.goals[id].status == Pending;
    ReadyBelow(t, rank, id);
  }

  lemma {:induction false} ReadyBelow(t: Tree, rank: map<Id, nat>, id: Id)
    requires Wired(t) && Ranked(t, rank) && id in t.goals && id != ROOT
    requires forall x :: x in t.goals && x != ROOT ==> t.goals[x].status in {Pending, Completed}
    requires t.goals[id].status == Pending
    ensures exists r :: r != ROOT && Ready(t, r)
    decreases rank[id]
  {
    if !Ready(t, id) {
      var c :| c in t.goals[id].children && t.goals[c].status != Completed;
      ReadyBelow(t, rank, c);
    }
  }

  /** Each completed goal has only completed children. */
  ghost predicate CompletionIsHonest(t: Tree) {
    forall p, c {:trigger c in t.goals[p].children} ::
      p in t.goals && t.goals[p].status == Completed && c in t.goals[p].children
      ==> c in t.goals && t.goals[c].status == Completed
  }

  /** Then a completed goal's whole subtree is completed. */
  lemma {:induction false} CompletedSubtree(t: Tree, top: Id, d: nat, id: Id)
    requires CompletionIsHonest(t) && top in t.goals && t.goals[top].status == Completed
    requires Below(t, top, d, id)
    ensures id in t.goals && t.goals[id].status == Completed
    decreases d
  {
    if d > 0 {
      var p :| p in t.goals && Below(t, top, d - 1, p) && id in t.goals[p].children;
      CompletedSubtree(t, top, d - 1, p);
    }
  }
}
