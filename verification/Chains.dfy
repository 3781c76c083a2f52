/** With clocks in order, the tokens of each login form a chain of which only the newest is alive. */
module Chains {
  import opened Schema
  import opened Transactions
  import opened Machine
  import opened Rotation
  import opened Lineage

  ghost predicate WasSpent(cfg: Config, tr: seq<Event>, id: Uuid) {
    exists i :: RotatesAt(cfg, tr, i, id)
  }

  /** The last token of a login's chain. */
  ghost predicate Newest(f: Family, id: Uuid) {
    && id in f.root && f.root[id] in f.chain && f.chain[f.root[id]] != []
    && var c := f.chain[f.root[id]]; c[|c| - 1] == id
  }

  lemma SamePrefix(cfg: Config, tr: seq<Event>, n: nat, i: nat, id: Uuid)
    requires n <= |tr|
    ensures RotatesAt(cfg, tr[..n], i, id) <==> i < n && RotatesAt(cfg, tr, i, id)
  {
    if i < n {
      assert tr[..n][..i] == tr[..i];
    }
  }

  lemma PrefixInOrder(cfg: Config, tr: seq<Event>, n: nat)
    requires n <= |tr| && InOrder(cfg, tr)
    ensures InOrder(cfg, tr[..n])
  {
    forall i: nat, j: nat, t, u | i < j && RotatesAt(cfg, tr[..n], i, t) && RotatesAt(cfg, tr[..n], j, u)
      ensures tr[..n][i].now <= tr[..n][j].now
    {
      SamePrefix(cfg, tr, n, i, t);
      SamePrefix(cfg, tr, n, j, u);
    }
  }

  lemma SpentBefore(cfg: Config, tr: seq<Event>, n: nat, id: Uuid)
    requires n <= |tr| && WasSpent(cfg, tr[..n], id)
    ensures WasSpent(cfg, tr, id)
    ensures RotatesAt(cfg, tr, n, id) ==> !InOrder(cfg, tr)
  {
    var i :| RotatesAt(cfg, tr[..n], i, id);
    SamePrefix(cfg, tr, n, i, id);
    if RotatesAt(cfg, tr, n, id) {
      AcceptedAgainOnlyEarlier(cfg, tr, i, n, id);
    }
  }

  /** A refresh of the newest token makes its successor the newest, and changes nothing elsewhere. */
  lemma NewestAfterSuccessor(f: Family, id: Uuid, newId: Uuid)
    requires Consistent(f) && Newest(f, id) && newId !in f.root
    ensures var f' := AddSuccessor(f, id, newId);
      && Newest(f', newId)
      && (forall t | t in f.root :: Newest(f', t) <==> Newest(f, t) && t != id)
  {
    var f' := AddSuccessor(f, id, newId);
    forall t | t in f.root ensures Newest(f', t) <==> Newest(f, t) && t != id {
      assert f'.root[t] == f.root[t];
    }
  }

  lemma NewestAfterLogin(f: Family, id: Uuid, user: Uuid)
    requires Consistent(f) && id !in f.root
    ensures var f' := AddLogin(f, id, user);
      && Newest(f', id)
      && (forall t | t in f.root :: f.root[t] != id && (Newest(f', t) <==> Newest(f, t)))
  {
    LoginIsConsistent(f, id, user);
    var f' := AddLogin(f, id, user);
    forall t | t in f.root ensures f.root[t] != id && (Newest(f', t) <==> Newest(f, t)) {
      assert f'.root[t] == f.root[t];
    }
  }

  /** Every token but the newest of its chain was spent by a successful refresh. */
  lemma {:induction false} OlderWereSpent(cfg: Config, tr: seq<Event>, t: Uuid)
    requires InOrder(cfg, tr)
    requires t in FamilyOf(cfg, tr).root && !Newest(FamilyOf(cfg, tr), t)
    ensures WasSpent(cfg, tr, t)
  {
    var n := |tr| - 1;
    var s, f, e := Run(cfg, tr[..n]), FamilyOf(cfg, tr[..n]), tr[n];
    PrefixInOrder(cfg, tr, n);
    RunIsKin(cfg, tr[..n]);
    if Opens(cfg, s, e) {
      NewestAfterLogin(f, e.id, s.calls[e.call].user);
    } else if Rotates(cfg, s, e) {
      assert RotatesAt(cfg, tr, n, e.id);
      if !Newest(f, e.id) {
        OlderWereSpent(cfg, tr[..n], e.id);
        SpentBefore(cfg, tr, n, e.id);
      }
      NewestAfterSuccessor(f, e.id, e.newId);
    }
    if t in f.root && !Newest(f, t) {
      OlderWereSpent(cfg, tr[..n], t);
      SpentBefore(cfg, tr, n, t);
    }
  }

  /** Every successful refresh spends the newest token of its chain. */
  lemma RefreshSpendsTheNewest(cfg: Config, tr: seq<Event>, j: nat, id: Uuid)
    requires InOrder(cfg, tr) && RotatesAt(cfg, tr, j, id)
    ensures Newest(FamilyOf(cfg, tr[..j]), id)
  {
    PrefixInOrder(cfg, tr, j);
    RunIsKin(cfg, tr[..j]);
    if !Newest(FamilyOf(cfg, tr[..j]), id) {
      OlderWereSpent(cfg, tr[..j], id);
      SpentBefore(cfg, tr, j, id);
    }
  }

  /** The notes of the observer form chains: each token but the first replaced the one before it. */
  ghost predicate Linked(f: Family) {
    forall r, k | r in f.chain && 0 < k < |f.chain[r]| ::
      f.chain[r][k] in f.parent && f.parent[f.chain[r][k]] == f.chain[r][k - 1]
  }

  lemma SuccessorIsLinked(f: Family, id: Uuid, newId: Uuid)
    requires Consistent(f) && Linked(f) && Newest(f, id) && newId !in f.root
    ensures Linked(AddSuccessor(f, id, newId))
  {
    var f' := AddSuccessor(f, id, newId);
    forall r, k | r in f'.chain && 0 < k < |f'.chain[r]|
      ensures f'.chain[r][k] in f'.parent && f'.parent[f'.chain[r][k]] == f'.chain[r][k - 1]
    {
      if k < |f.chain[r]| {
        assert f.chain[r][k] in f.chain[r];
      }
    }
  }

  lemma LoginIsLinked(f: Family, id: Uuid, user: Uuid)
    requires Linked(f)
    ensures Linked(AddLogin(f, id, user))
  {
  }

  lemma {:induction false} RunIsLinked(cfg: Config, tr: seq<Event>)
    requires InOrder(cfg, tr)
    ensures Linked(FamilyOf(cfg, tr))
  {
    if tr != [] {
      var n := |tr| - 1;
      var s, f, e := Run(cfg, tr[..n]), FamilyOf(cfg, tr[..n]), tr[n];
      PrefixInOrder(cfg, tr, n);
      RunIsLinked(cfg, tr[..n]);
      RunIsKin(cfg, tr[..n]);
      if Opens(cfg, s, e) {
        LoginIsLinked(f, e.id, s.calls[e.call].user);
      } else if Rotates(cfg, s, e) {
        assert RotatesAt(cfg, tr, n, e.id);
        RefreshSpendsTheNewest(cfg, tr, n, e.id);
        SuccessorIsLinked(f, e.id, e.newId);
      }
    }
  }

  lemma SpentIsExpired(cfg: Config, tr: seq<Event>, t: Uuid, now: Time)
    requires WasSpent(cfg, tr, t)
    requires forall i: nat, u | RotatesAt(cfg, tr, i, u) :: tr[i].now <= now
    ensures !Unexpired(Run(cfg, tr).db, t, now)
  {
    var i: nat :| RotatesAt(cfg, tr, i, t);
    RunIsSound(cfg, tr[..i]);
    RotationSpends(cfg, Run(cfg, tr[..i]), tr[i]);
    RunOneMore(cfg, INIT, tr, i);
    SpentForGood(cfg, tr, i + 1, |tr|, t, tr[i].now);
    assert tr[..|tr|] == tr;
  }

  /**
    * In every reachable state, at any time that is not before the refreshes so far, no token but
    * the newest of its chain is unexpired.
    */
  lemma OnlyTheNewestLives(cfg: Config, tr: seq<Event>, t: Uuid, now: Time)
    requires InOrder(cfg, tr)
    requires forall i: nat, u | RotatesAt(cfg, tr, i, u) :: tr[i].now <= now
    requires Unexpired(Run(cfg, tr).db, t, now)
    ensures Newest(FamilyOf(cfg, tr), t)
  {
    RunIsKin(cfg, tr);
    if !Newest(FamilyOf(cfg, tr), t) {
      OlderWereSpent(cfg, tr, t);
      SpentIsExpired(cfg, tr, t, now);
    }
  }
}
