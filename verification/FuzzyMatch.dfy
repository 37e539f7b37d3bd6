/** The file finder's fuzzy match: two pointers, one pass. Case folding is a parameter. */
module FuzzyMatch {

  /** Positions of `t`, strictly increasing, where the characters of `q` stand. */
  ghost predicate Embeds(at: seq<nat>, q: string, t: string) {
    && |at| == |q|
    && (forall i :: 0 <= i < |at| ==> at[i] < |t| && t[at[i]] == q[i])
    && forall i, j :: 0 <= i < j < |at| ==> at[i] < at[j]
  }

  ghost predicate IsSubsequence(q: string, t: string) {
    exists at :: Embeds(at, q, t)
  }

  method FuzzyMatch(lower: string -> string, query: string, target: string) returns (found: bool)
    ensures found <==> query == "" || IsSubsequence(lower(query), lower(target))
  {
    if query == "" {
      return true;
    }
    var q, t := lower(query), lower(target);
    var qi, ti := 0, 0;
    assert Embeds([], q[..0], t[..0]);
    NothingInEmptyText(q[..if q == "" then 0 else 1]);
    while ti < |t| && qi < |q|
      invariant 0 <= ti <= |t| && 0 <= qi <= |q|
      invariant IsSubsequence(q[..qi], t[..ti])
      invariant qi < |q| ==> !IsSubsequence(q[..qi + 1], t[..ti])
    {
      assert t[..ti + 1] == t[..ti] + [t[ti]] && q[..qi + 1] == q[..qi] + [q[qi]];
      LongerText(q[..qi], t[..ti], t[ti]);
      if t[ti] == q[qi] {
        BothLonger(q[..qi], t[..ti], t[ti]);
        if qi + 1 < |q| {
          assert q[..qi + 2] == q[..qi + 1] + [q[qi + 1]];
          LastNeedsRoom(q[..qi + 1], q[qi + 1], t[..ti], t[ti]);
        }
        qi := qi + 1;
      } else {
        MismatchIsNoHelp(q[..qi], q[qi], t[..ti], t[ti]);
      }
      ti := ti + 1;
    }
    assert t[..|t|] == t && q[..|q|] == q;
    if qi < |q| {
      ShorterQuery(q, qi + 1, t);
    } else if ti < |t| {
      TextPrefix(q, t, ti);
    }
    found := qi == |q|;
  }

  lemma NothingInEmptyText(q: string)
    ensures q != "" ==> !IsSubsequence(q, "")
  {
    forall at: seq<nat> ensures q != "" ==> !Embeds(at, q, "") {
      if at != [] {
        assert at[0] >= 0;
      }
    }
  }

  lemma LongerText(q: string, t: string, c: char)
    requires IsSubsequence(q, t)
    ensures IsSubsequence(q, t + [c])
  {
    var at: seq<nat> :| Embeds(at, q, t);
    assert Embeds(at, q, t + [c]);
  }

  lemma TextPrefix(q: string, t: string, n: nat)
    requires n <= |t| && IsSubsequence(q, t[..n])
    ensures IsSubsequence(q, t)
  {
    var at: seq<nat> :| Embeds(at, q, t[..n]);
    assert Embeds(at, q, t);
  }

  lemma BothLonger(q: string, t: string, c: char)
    requires IsSubsequence(q, t)
    ensures IsSubsequence(q + [c], t + [c])
  {
    var at: seq<nat> :| Embeds(at, q, t);
    assert Embeds(at + [|t|], q + [c], t + [c]);
  }

  lemma ShorterQuery(q: string, n: nat, t: string)
    requires n <= |q|
    ensures IsSubsequence(q, t) ==> IsSubsequence(q[..n], t)
  {
    if IsSubsequence(q, t) {
      var at: seq<nat> :| Embeds(at, q, t);
      assert Embeds(at[..n], q[..n], t);
    }
  }

  /** Greedy matching misses nothing: the last character of a longer query needs a place after all the others. */
  lemma LastNeedsRoom(q: string, next: char, t: string, c: char)
    ensures IsSubsequence(q + [next], t + [c]) ==> IsSubsequence(q, t)
  {
    if IsSubsequence(q + [next], t + [c]) {
      var at: seq<nat> :| Embeds(at, q + [next], t + [c]);
      assert forall i :: 0 <= i < |q| ==> at[i] < at[|q|] <= |t| && (q + [next])[i] == q[i];
      assert Embeds(at[..|q|], q, t);
    }
  }

  lemma MismatchIsNoHelp(q: string, next: char, t: string, c: char)
    requires c != next
    ensures IsSubsequence(q + [next], t + [c]) ==> IsSubsequence(q + [next], t)
  {
    if IsSubsequence(q + [next], t + [c]) {
      var at: seq<nat> :| Embeds(at, q + [next], t + [c]);
      assert (q + [next])[|q|] == next && at[|q|] != |t|;
      assert forall i :: 0 <= i < |q| ==> at[i] < at[|q|];
      assert Embeds(at, q + [next], t);
    }
  }
}
