/** What ends a session, and what the clock hypothesis is needed for. */
module Ending {
  import opened Schema
  import opened UnitOfWork
  import opened Machine
  import opened Rotation
  import opened Lineage
  import opened Sessions

  // --- A password reset ends the sessions of its user ---

  /** No stored token descends from the login `r`, which has taken place. */
  ghost predicate Ended(s: Sys, f: Family, r: Uuid) {
    r in f.root && (forall t | t in s.db.refresh && t in f.root :: f.root[t] != r)
  }

  lemma EndedStaysEnded(cfg: Config, s: Sys, f: Family, e: Event, r: Uuid)
    requires Recorded(s.db.refresh, f) && f.root.Keys <= s.issued && Ended(s, f, r)
    ensures Ended(Step(cfg, s, e), Observe(cfg, f, s, e), r)
  {
    if Opens(cfg, s, e) {
      OpeningEffect(cfg, s, e);
    } else if Rotates(cfg, s, e) {
      RotationEffect(cfg, s, e);
    } else {
      OtherEffect(cfg, s, e);
    }
  }

  lemma {:induction false} EndedForGood(cfg: Config, tr: seq<Event>, i: nat, j: nat, r: Uuid)
    requires i <= j <= |tr|
    requires Ended(Run(cfg, tr[..i]), FamilyOf(cfg, tr[..i]), r)
    ensures Ended(Run(cfg, tr[..j]), FamilyOf(cfg, tr[..j]), r)
    decreases j
  {
    if i < j {
      var k := j - 1;
      EndedForGood(cfg, tr, i, k, r);
      EndedOneMore(cfg, tr, k, r);
    }
  }

  lemma EndedOneMore(cfg: Config, tr: seq<Event>, j: nat, r: Uuid)
    requires j < |tr| && Ended(Run(cfg, tr[..j]), FamilyOf(cfg, tr[..j]), r)
    ensures Ended(Run(cfg, tr[..j + 1]), FamilyOf(cfg, tr[..j + 1]), r)
  {
    RunIsRecorded(cfg, tr[..j]);
    EndedStaysEnded(cfg, Run(cfg, tr[..j]), FamilyOf(cfg, tr[..j]), tr[j], r);
    RunOneMore(cfg, INIT, tr, j);
    FamilyOneMore(cfg, tr, j);
  }

  lemma ResetEndsAll(cfg: Config, s: Sys, f: Family, e: Event, r: Uuid)
    requires KinOf(s, f) && ResetUser(s, e).Some?
    requires r in f.root && r in f.owner && f.root[r] == r && f.owner[r] == ResetUser(s, e).value
    ensures Ended(Step(cfg, s, e), Observe(cfg, f, s, e), r)
  {
    ResetWipes(cfg, s, f, e);
    var s' := Step(cfg, s, e);
    forall t | t in s'.db.refresh && t in f.root ensures f.root[t] != r {
      assert s.db.refresh[t].user == f.owner[f.root[t]];
    }
  }

  /** A reset leaves exactly the tokens of the other users. */
  lemma ResetWipes(cfg: Config, s: Sys, f: Family, e: Event)
    requires ResetUser(s, e).Some?
    ensures Observe(cfg, f, s, e) == f
    ensures var refresh' := Step(cfg, s, e).db.refresh;
      forall t :: t in refresh' <==> t in s.db.refresh && s.db.refresh[t].user != ResetUser(s, e).value
  {
  }

  /**
    * Once `ResetPassword` has succeeded for a user, no token that descends from a login of that
    * user made before it is ever accepted again, whatever the clocks read.
    */
  lemma ResetEndsSessions(cfg: Config, tr: seq<Event>, i: nat, j: nat, r: Uuid, id: Uuid)
    requires i < j < |tr|
    requires var s := Run(cfg, tr[..i]); var f := FamilyOf(cfg, tr[..i]);
      && r in f.chain && r in f.owner
      && ResetUser(s, tr[i]) == Some(f.owner[r])
    requires id in FamilyOf(cfg, tr[..j]).root && FamilyOf(cfg, tr[..j]).root[id] == r
    ensures !RotatesAt(cfg, tr, j, id)
  {
    RunIsKin(cfg, tr[..i]);
    var s, f := Run(cfg, tr[..i]), FamilyOf(cfg, tr[..i]);
    assert f.chain[r][0] in f.chain[r];
    ResetEndsAll(cfg, s, f, tr[i], r);
    RunOneMore(cfg, INIT, tr, i);
    FamilyOneMore(cfg, tr, i);
    EndedForGood(cfg, tr, i + 1, j, r);
  }

  // --- The order of clocks is needed, and exactly how ---

  /** The stored token was spent at `at` and has not been spent since. */
  ghost predicate SpentExactly(s: Sys, id: Uuid, at: Time) {
    id in s.issued && (id in s.db.refresh ==> s.db.refresh[id].expiresAt == at)
  }

  lemma SpentStaysExact(cfg: Config, s: Sys, e: Event, id: Uuid, at: Time)
    requires SpentExactly(s, id, at) && !(Rotates(cfg, s, e) && e.id == id)
    ensures SpentExactly(Step(cfg, s, e), id, at)
  {
    DrawnStaysDrawn(cfg, s, e);
    if Opens(cfg, s, e) {
      OpeningEffect(cfg, s, e);
    } else if Rotates(cfg, s, e) {
      RotationEffect(cfg, s, e);
    } else {
      OtherEffect(cfg, s, e);
    }
  }

  lemma {:induction false} SpentExactlyUntil(cfg: Config, tr: seq<Event>, i: nat, j: nat, id: Uuid, at: Time)
    requires i <= j <= |tr|
    requires SpentExactly(Run(cfg, tr[..i]), id, at)
    requires forall k: nat | i <= k < j :: !RotatesAt(cfg, tr, k, id)
    ensures SpentExactly(Run(cfg, tr[..j]), id, at)
    decreases j
  {
    if i < j {
      var k := j - 1;
      SpentExactlyUntil(cfg, tr, i, k, id, at);
      RunOneMore(cfg, INIT, tr, k);
      assert !RotatesAt(cfg, tr, k, id);
      SpentStaysExact(cfg, Run(cfg, tr[..k]), tr[k], id, at);
    }
  }

  /**
    * The exact condition: after a token was last spent by the i-th event, presenting it again,
    * while its row is still there and nothing else is at fault, succeeds if and only if the
    * second transaction reads an earlier clock than the first.
    */
  lemma SecondUseExactly(cfg: Config, tr: seq<Event>, i: nat, j: nat, id: Uuid)
    requires i < j < |tr| && RotatesAt(cfg, tr, i, id)
    requires forall k: nat | i < k < j :: !RotatesAt(cfg, tr, k, id)
    requires Attempted(cfg, Run(cfg, tr[..j]), tr[j]) && tr[j].id == id && id in Run(cfg, tr[..j]).db.refresh
    ensures RotatesAt(cfg, tr, j, id) <==> tr[j].now < tr[i].now
  {
    RunIsSound(cfg, tr[..i]);
    RunIsSound(cfg, tr[..j]);
    RotationEffect(cfg, Run(cfg, tr[..i]), tr[i]);
    RunOneMore(cfg, INIT, tr, i);
    SpentExactlyUntil(cfg, tr, i + 1, j, id, tr[i].now);
  }

  // --- A concrete run with clocks out of order ---

  const ANN := User("ann@example.com", Bcrypt(0, "secret"), "ann")

  /** One user logs in, and then two transactions present the same token; the second began first. */
  const OUT_OF_ORDER := [
    Register(Uuid(0), "ann@example.com", "ann", "secret", Some(0), false),
    LoginLookup(0, "ann@example.com", "secret", false),
    LoginSave(0, Uuid(1), 0, 0, false),
    Refresh(Uuid(1), Uuid(2), 5, 5, true, 5, NoFault),
    Refresh(Uuid(1), Uuid(3), 5, 5, true, 4, NoFault)
  ]

  lemma AnnRegisters(cfg: Config)
    ensures Step(cfg, INIT, OUT_OF_ORDER[0]) ==
      INIT.(db := EMPTY_TABLES.(users := map[Uuid(0) := ANN]), issued := {Uuid(0)})
  {
  }

  lemma AnnIsLookedUp(cfg: Config, s: Sys)
    requires s.db.users == map[Uuid(0) := ANN] && s.started == {} && s.calls == map[]
    ensures Step(cfg, s, OUT_OF_ORDER[1]) == s.(started := {0}, calls := map[0 := LoginSaving(Uuid(0))])
  {
    assert Uuid(0) in s.db.users && s.db.users[Uuid(0)].email == "ann@example.com";
  }

  lemma AnnLogsIn(cfg: Config, s: Sys)
    requires s.db.users == map[Uuid(0) := ANN] && s.db.refresh == map[] && s.issued == {Uuid(0)}
    requires s.calls == map[0 := LoginSaving(Uuid(0))]
    ensures var s' := Step(cfg, s, OUT_OF_ORDER[2]);
      && s'.db == s.db.(refresh := map[Uuid(1) := RefreshToken(Uuid(0), 0, cfg.refreshDuration)])
      && s'.issued == {Uuid(0), Uuid(1)}
  {
  }

  lemma BothAccepted(cfg: Config, s: Sys)
    requires cfg.refreshDuration > 5
    requires s.db.users == map[Uuid(0) := ANN] && s.issued == {Uuid(0), Uuid(1)}
    requires s.db.refresh == map[Uuid(1) := RefreshToken(Uuid(0), 0, cfg.refreshDuration)]
    ensures Rotates(cfg, s, OUT_OF_ORDER[3])
    ensures Rotates(cfg, Step(cfg, s, OUT_OF_ORDER[3]), OUT_OF_ORDER[4])
  {
    RotationEffect(cfg, s, OUT_OF_ORDER[3]);
    UsersUntouched(cfg, s, OUT_OF_ORDER[3]);
  }

  /** Without ordered clocks single use can fail: here one token is accepted by two calls. */
  lemma DoubleUseOutOfOrder(cfg: Config)
    requires cfg.refreshDuration > 5
    ensures RotatesAt(cfg, OUT_OF_ORDER, 3, Uuid(1)) && RotatesAt(cfg, OUT_OF_ORDER, 4, Uuid(1))
  {
    AnnRegisters(cfg);
    AnnIsLookedUp(cfg, Step(cfg, INIT, OUT_OF_ORDER[0]));
    var s := Step(cfg, Step(cfg, INIT, OUT_OF_ORDER[0]), OUT_OF_ORDER[1]);
    AnnLogsIn(cfg, s);
    BothAccepted(cfg, Step(cfg, s, OUT_OF_ORDER[2]));
    forall i | 0 <= i < 4
      ensures Run(cfg, OUT_OF_ORDER[..i + 1]) == Step(cfg, Run(cfg, OUT_OF_ORDER[..i]), OUT_OF_ORDER[i])
    {
      RunOneMore(cfg, INIT, OUT_OF_ORDER, i);
    }
    assert OUT_OF_ORDER[..0] == [];
  }
}
