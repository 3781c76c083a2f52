/** The tokens that descend from each login. */
module Lineage {
  import opened Schema
  import opened Machine
  import opened Rotation

  /** The event stores a refresh token for a login. */
  ghost predicate Opens(cfg: Config, s: Sys, e: Event) {
    && (e.LoginSave? || e.OtpSave?)
    && Legal(cfg, s, e)
    && !e.fault
    && e.id !in s.db.refresh
    && s.calls[e.call].user in s.db.users
  }

  /**
    * What an observer of the run writes down: for each token the login it descends from, named by
    * that login's own token; for each login its user and its tokens, oldest first; and for each
    * token that came from a refresh the token it replaced.
    */
  datatype Family = Family(
    root: map<Uuid, Uuid>,
    owner: map<Uuid, Uuid>,
    chain: map<Uuid, seq<Uuid>>,
    parent: map<Uuid, Uuid>
  )

  const NO_FAMILY := Family(map[], map[], map[], map[])

  function AddLogin(f: Family, id: Uuid, user: Uuid): Family {
    Family(f.root[id := id], f.owner[id := user], f.chain[id := [id]], f.parent)
  }

  function AddSuccessor(f: Family, id: Uuid, newId: Uuid): Family
    requires id in f.root && f.root[id] in f.chain
  {
    var r := f.root[id];
    Family(f.root[newId := r], f.owner, f.chain[r := f.chain[r] + [newId]], f.parent[newId := id])
  }

  ghost function Observe(cfg: Config, f: Family, s: Sys, e: Event): Family {
    if Opens(cfg, s, e) then AddLogin(f, e.id, s.calls[e.call].user)
    else if Rotates(cfg, s, e) && e.id in f.root && f.root[e.id] in f.chain then AddSuccessor(f, e.id, e.newId)
    else f
  }

  ghost function FamilyOf(cfg: Config, tr: seq<Event>): Family {
    if tr == [] then NO_FAMILY
    else Observe(cfg, FamilyOf(cfg, tr[..|tr| - 1]), Run(cfg, tr[..|tr| - 1]), tr[|tr| - 1])
  }

  lemma {:induction false} FamilyOneMore(cfg: Config, tr: seq<Event>, i: nat)
    requires i < |tr|
    ensures FamilyOf(cfg, tr[..i + 1]) == Observe(cfg, FamilyOf(cfg, tr[..i]), Run(cfg, tr[..i]), tr[i])
  {
    assert tr[..i + 1][..i] == tr[..i];
  }

  predicate NoRepeats(c: seq<Uuid>) {
    forall i, j | 0 <= i < j < |c| :: c[i] != c[j]
  }

  /** The observer's notes are consistent with each other. */
  ghost predicate Consistent(f: Family) {
    && f.chain.Keys <= f.owner.Keys
    && (forall t | t in f.root :: f.root[t] in f.chain && t in f.chain[f.root[t]])
    && (forall r | r in f.chain :: f.chain[r] != [] && f.chain[r][0] == r && NoRepeats(f.chain[r]))
    && (forall r, t | r in f.chain && t in f.chain[r] :: t in f.root && f.root[t] == r)
  }

  /** The stored tokens are all in the notes, under the user that owns their login. */
  ghost predicate Recorded(refresh: map<Uuid, RefreshToken>, f: Family) {
    forall t | t in refresh :: t in f.root && f.root[t] in f.owner && refresh[t].user == f.owner[f.root[t]]
  }

  ghost predicate Kin(issued: set<Uuid>, refresh: map<Uuid, RefreshToken>, f: Family) {
    && Consistent(f)
    && f.root.Keys <= issued
    && Recorded(refresh, f)
  }

  lemma LoginIsConsistent(f: Family, id: Uuid, user: Uuid)
    requires Consistent(f) && id !in f.root
    ensures id !in f.chain
    ensures Consistent(AddLogin(f, id, user))
  {
  }

  lemma SuccessorIsConsistent(f: Family, id: Uuid, newId: Uuid)
    requires Consistent(f) && id in f.root && newId !in f.root
    ensures Consistent(AddSuccessor(f, id, newId))
  {
  }

  lemma LoginKeepsKin(issued: set<Uuid>, refresh: map<Uuid, RefreshToken>, f: Family, id: Uuid, row: RefreshToken)
    requires Kin(issued, refresh, f) && id !in issued
    ensures Kin(issued + {id}, refresh[id := row], AddLogin(f, id, row.user))
  {
    LoginIsConsistent(f, id, row.user);
  }

  lemma SuccessorKeepsKin(
    issued: set<Uuid>, refresh: map<Uuid, RefreshToken>, f: Family, id: Uuid, spent: RefreshToken, newId: Uuid,
    row: RefreshToken)
    requires Kin(issued, refresh, f) && newId !in issued
    requires id in refresh && spent.user == row.user == refresh[id].user
    ensures Kin(issued + {newId}, refresh[id := spent][newId := row], AddSuccessor(f, id, newId))
  {
    SuccessorIsConsistent(f, id, newId);
  }

  // --- How the events change the stored tokens ---

  lemma OpeningEffect(cfg: Config, s: Sys, e: Event)
    requires Opens(cfg, s, e)
    ensures var s' := Step(cfg, s, e);
      && s'.issued == s.issued + {e.id}
      && s'.db.refresh ==
        s.db.refresh[e.id := RefreshToken(s.calls[e.call].user, e.createdAt, e.clock + cfg.refreshDuration)]
  {
  }

  lemma RotationEffect(cfg: Config, s: Sys, e: Event)
    requires Rotates(cfg, s, e)
    ensures var s' := Step(cfg, s, e);
      var row := s.db.refresh[e.id];
      && s'.issued == s.issued + {e.newId}
      && s'.db.refresh == s.db.refresh[e.id := row.(expiresAt := e.now)]
           [e.newId := RefreshToken(row.user, e.createdAt, e.clock + cfg.refreshDuration)]
  {
  }

  lemma NoEffect(cfg: Config, s: Sys, e: Event)
    requires !Opens(cfg, s, e) && !Rotates(cfg, s, e) && !e.Revoke? && !e.Reset?
    ensures Step(cfg, s, e).db.refresh == s.db.refresh
  {
    if !TouchesRefresh(e) {
      RefreshUntouched(cfg, s, e);
    }
  }

  /** All other events can only remove tokens. */
  lemma OtherEffect(cfg: Config, s: Sys, e: Event)
    requires !Opens(cfg, s, e) && !Rotates(cfg, s, e)
    ensures var s' := Step(cfg, s, e);
      forall t | t in s'.db.refresh :: t in s.db.refresh && s'.db.refresh[t] == s.db.refresh[t]
  {
    if !e.Revoke? && !e.Reset? {
      NoEffect(cfg, s, e);
    }
  }

  ghost predicate KinOf(s: Sys, f: Family) {
    Kin(s.issued, s.db.refresh, f)
  }

  lemma StepKeepsKin(cfg: Config, s: Sys, f: Family, e: Event)
    requires KinOf(s, f)
    ensures KinOf(Step(cfg, s, e), Observe(cfg, f, s, e))
  {
    if Opens(cfg, s, e) {
      OpeningEffect(cfg, s, e);
      var user := s.calls[e.call].user;
      LoginKeepsKin(s.issued, s.db.refresh, f, e.id, RefreshToken(user, e.createdAt, e.clock + cfg.refreshDuration));
    } else if Rotates(cfg, s, e) {
      RotationEffect(cfg, s, e);
      var row := s.db.refresh[e.id];
      SuccessorKeepsKin(s.issued, s.db.refresh, f, e.id, row.(expiresAt := e.now),
        e.newId, RefreshToken(row.user, e.createdAt, e.clock + cfg.refreshDuration));
    } else {
      DrawnStaysDrawn(cfg, s, e);
      OtherEffect(cfg, s, e);
    }
  }

  /** Every run keeps the notes and the table in step. */
  lemma {:induction false} RunIsKin(cfg: Config, tr: seq<Event>)
    ensures KinOf(Run(cfg, tr), FamilyOf(cfg, tr))
  {
    if tr != [] {
      RunIsKin(cfg, tr[..|tr| - 1]);
      StepKeepsKin(cfg, Run(cfg, tr[..|tr| - 1]), FamilyOf(cfg, tr[..|tr| - 1]), tr[|tr| - 1]);
    }
  }

  lemma RunIsRecorded(cfg: Config, tr: seq<Event>)
    ensures var s, f := Run(cfg, tr), FamilyOf(cfg, tr); Recorded(s.db.refresh, f) && f.root.Keys <= s.issued
  {
    RunIsKin(cfg, tr);
  }
}
