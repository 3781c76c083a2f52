/**
  * The refresh-token table, with its expired leftovers, deletions and roll-backs, behaves like a
  * plain map from logins to one current token each.
  */
module Sessions {
  import opened Schema
  import opened UnitOfWork
  import opened Machine
  import opened Rotation
  import opened Lineage
  import opened Chains

  // --- The simple machine ---

  datatype Session = Session(user: Uuid, token: Uuid, expiry: Time)

  datatype Label =
    | Open(id: Uuid, user: Uuid, expiry: Time)
    | Rotate(id: Uuid, newId: Uuid, expiry: Time, now: Time)
    | Close(id: Uuid)
    | Wipe(user: Uuid)
    | Idle

  /** The session whose current token is `id` may still be refreshed. */
  ghost predicate RenewableAt(a: map<Uuid, Session>, r: Uuid, id: Uuid, now: Time) {
    r in a && a[r].token == id && a[r].expiry > now
  }

  ghost predicate Renewable(a: map<Uuid, Session>, id: Uuid, now: Time) {
    exists r :: RenewableAt(a, r, id, now)
  }

  ghost function SessionStep(a: map<Uuid, Session>, l: Label): map<Uuid, Session> {
    match l
    case Open(id, user, expiry) => a[id := Session(user, id, expiry)]
    case Rotate(id, newId, expiry, now) =>
      if r :| RenewableAt(a, r, id, now) then a[r := Session(a[r].user, newId, expiry)] else a
    case Close(id) => map r | r in a && a[r].token != id :: a[r]
    case Wipe(user) => map r | r in a && a[r].user != user :: a[r]
    case Idle => a
  }

  // --- What an event means to it ---

  /** A call to `Refresh` in which nothing but the token can be at fault. */
  ghost predicate Attempted(cfg: Config, s: Sys, e: Event) {
    e.Refresh? && Legal(cfg, s, e) && e.signed && !Strikes(e.txFault, 2)
  }

  ghost function LabelOf(cfg: Config, s: Sys, e: Event): Label {
    if Opens(cfg, s, e) then Open(e.id, s.calls[e.call].user, e.clock + cfg.refreshDuration)
    else if Attempted(cfg, s, e) then Rotate(e.id, e.newId, e.clock + cfg.refreshDuration, e.now)
    else if e.Revoke? && !e.fault then Close(e.id)
    else if ResetUser(s, e).Some? then Wipe(ResetUser(s, e).value)
    else Idle
  }

  ghost function SessionsOf(cfg: Config, tr: seq<Event>): map<Uuid, Session> {
    if tr == [] then map[]
    else SessionStep(SessionsOf(cfg, tr[..|tr| - 1]), LabelOf(cfg, Run(cfg, tr[..|tr| - 1]), tr[|tr| - 1]))
  }

  // --- The simulation ---

  /** Each session is the stored row of the newest token of its chain, and each such row is a session. */
  ghost predicate Represents(refresh: map<Uuid, RefreshToken>, f: Family, a: map<Uuid, Session>) {
    && (forall r | r in a ::
          && a[r].token in refresh
          && refresh[a[r].token].user == a[r].user
          && refresh[a[r].token].expiresAt == a[r].expiry
          && Newest(f, a[r].token)
          && f.root[a[r].token] == r)
    && (forall t | t in refresh && Newest(f, t) :: f.root[t] in a && a[f.root[t]].token == t)
  }

  lemma OpenIsRepresented(
    refresh: map<Uuid, RefreshToken>, f: Family, f': Family, a: map<Uuid, Session>, id: Uuid, row: RefreshToken)
    requires Represents(refresh, f, a) && refresh.Keys <= f.root.Keys && id !in f.root
    requires f'.root == f.root[id := id] && Newest(f', id)
    requires forall t | t in f.root :: f.root[t] != id && (Newest(f', t) <==> Newest(f, t))
    ensures Represents(refresh[id := row], f', a[id := Session(row.user, id, row.expiresAt)])
  {
  }

  lemma RotateIsRepresented(
    refresh: map<Uuid, RefreshToken>, f: Family, f': Family, a: map<Uuid, Session>,
    id: Uuid, spent: RefreshToken, newId: Uuid, row: RefreshToken)
    requires Represents(refresh, f, a) && refresh.Keys <= f.root.Keys && newId !in f.root
    requires id in refresh && Newest(f, id)
    requires f'.root == f.root[newId := f.root[id]] && Newest(f', newId)
    requires forall t | t in f.root :: Newest(f', t) <==> Newest(f, t) && t != id
    ensures Represents(refresh[id := spent][newId := row], f', a[f.root[id] := Session(row.user, newId, row.expiresAt)])
  {
  }

  lemma TheSessionRotates(
    refresh: map<Uuid, RefreshToken>, f: Family, a: map<Uuid, Session>, id: Uuid, newId: Uuid, row: RefreshToken,
    now: Time)
    requires Represents(refresh, f, a) && id in refresh && Newest(f, id)
    requires refresh[id].expiresAt > now && row.user == refresh[id].user
    ensures SessionStep(a, Rotate(id, newId, row.expiresAt, now)) ==
      a[f.root[id] := Session(row.user, newId, row.expiresAt)]
  {
    assert RenewableAt(a, f.root[id], id, now);
  }

  /** Removing rows removes exactly the sessions whose current token goes. */
  lemma RemovalIsRepresented(
    refresh: map<Uuid, RefreshToken>, f: Family, a: map<Uuid, Session>,
    refresh': map<Uuid, RefreshToken>, a': map<Uuid, Session>)
    requires Represents(refresh, f, a)
    requires forall t | t in refresh' :: t in refresh && refresh'[t] == refresh[t]
    requires forall r :: r in a' <==> r in a && a[r].token in refresh'
    requires forall r | r in a' :: a'[r] == a[r]
    ensures Represents(refresh', f, a')
  {
  }

  lemma AcceptsAlike(cfg: Config, s: Sys, f: Family, a: map<Uuid, Session>, e: Event)
    requires Sound(s) && Represents(s.db.refresh, f, a)
    requires Rotates(cfg, s, e) ==> Newest(f, e.id)
    ensures Rotates(cfg, s, e) <==> Attempted(cfg, s, e) && Renewable(a, e.id, e.now)
  {
    if Rotates(cfg, s, e) {
      assert RenewableAt(a, f.root[e.id], e.id, e.now);
    }
  }

  lemma LoginIsRepresented(
    refresh: map<Uuid, RefreshToken>, f: Family, a: map<Uuid, Session>, id: Uuid, row: RefreshToken)
    requires Consistent(f) && Recorded(refresh, f) && Represents(refresh, f, a) && id !in f.root
    ensures Represents(refresh[id := row], AddLogin(f, id, row.user), SessionStep(a, Open(id, row.user, row.expiresAt)))
  {
    NewestAfterLogin(f, id, row.user);
    OpenIsRepresented(refresh, f, AddLogin(f, id, row.user), a, id, row);
  }

  lemma SuccessorIsRepresented(
    refresh: map<Uuid, RefreshToken>, f: Family, a: map<Uuid, Session>, id: Uuid, newId: Uuid, row: RefreshToken,
    now: Time)
    requires Consistent(f) && Recorded(refresh, f) && Represents(refresh, f, a) && newId !in f.root
    requires id in refresh && Newest(f, id) && refresh[id].expiresAt > now && row.user == refresh[id].user
    ensures Represents(refresh[id := refresh[id].(expiresAt := now)][newId := row], AddSuccessor(f, id, newId),
      SessionStep(a, Rotate(id, newId, row.expiresAt, now)))
  {
    NewestAfterSuccessor(f, id, newId);
    TheSessionRotates(refresh, f, a, id, newId, row, now);
    RotateIsRepresented(refresh, f, AddSuccessor(f, id, newId), a, id, refresh[id].(expiresAt := now), newId, row);
  }

  lemma RemovalEffect(cfg: Config, s: Sys, e: Event, a: map<Uuid, Session>)
    requires !Opens(cfg, s, e) && !Rotates(cfg, s, e)
    requires e.Refresh? ==> !(Attempted(cfg, s, e) && Renewable(a, e.id, e.now))
    requires forall r | r in a :: a[r].token in s.db.refresh && s.db.refresh[a[r].token].user == a[r].user
    ensures var refresh', a' := Step(cfg, s, e).db.refresh, SessionStep(a, LabelOf(cfg, s, e));
      && (forall t | t in refresh' :: t in s.db.refresh && refresh'[t] == s.db.refresh[t])
      && (forall r :: r in a' <==> r in a && a[r].token in refresh')
      && (forall r | r in a' :: a'[r] == a[r])
  {
    OtherEffect(cfg, s, e);
    if !e.Revoke? && !e.Reset? {
      NoEffect(cfg, s, e);
      assert SessionStep(a, LabelOf(cfg, s, e)) == a;
    }
  }

  // The three machines' views of the two events that add tokens.

  lemma OpeningViews(cfg: Config, s: Sys, f: Family, e: Event, row: RefreshToken)
    requires Opens(cfg, s, e)
    requires row == RefreshToken(s.calls[e.call].user, e.createdAt, e.clock + cfg.refreshDuration)
    ensures Step(cfg, s, e).db.refresh == s.db.refresh[e.id := row]
    ensures Observe(cfg, f, s, e) == AddLogin(f, e.id, row.user)
    ensures LabelOf(cfg, s, e) == Open(e.id, row.user, row.expiresAt)
  {
    OpeningEffect(cfg, s, e);
  }

  lemma RotationViews(cfg: Config, s: Sys, f: Family, e: Event, row: RefreshToken)
    requires Rotates(cfg, s, e) && e.id in f.root && f.root[e.id] in f.chain
    requires row == RefreshToken(s.db.refresh[e.id].user, e.createdAt, e.clock + cfg.refreshDuration)
    ensures Step(cfg, s, e).db.refresh == s.db.refresh[e.id := s.db.refresh[e.id].(expiresAt := e.now)][e.newId := row]
    ensures Observe(cfg, f, s, e) == AddSuccessor(f, e.id, e.newId)
    ensures LabelOf(cfg, s, e) == Rotate(e.id, e.newId, row.expiresAt, e.now)
  {
    RotationEffect(cfg, s, e);
  }

  lemma OpeningIsRepresented(cfg: Config, s: Sys, f: Family, a: map<Uuid, Session>, e: Event)
    requires KinOf(s, f) && Represents(s.db.refresh, f, a) && Opens(cfg, s, e)
    ensures Represents(Step(cfg, s, e).db.refresh, Observe(cfg, f, s, e), SessionStep(a, LabelOf(cfg, s, e)))
  {
    var row := RefreshToken(s.calls[e.call].user, e.createdAt, e.clock + cfg.refreshDuration);
    OpeningViews(cfg, s, f, e, row);
    LoginIsRepresented(s.db.refresh, f, a, e.id, row);
  }

  lemma RotationIsRepresented(cfg: Config, s: Sys, f: Family, a: map<Uuid, Session>, e: Event)
    requires KinOf(s, f) && Represents(s.db.refresh, f, a) && Rotates(cfg, s, e) && Newest(f, e.id)
    ensures Represents(Step(cfg, s, e).db.refresh, Observe(cfg, f, s, e), SessionStep(a, LabelOf(cfg, s, e)))
  {
    var row := RefreshToken(s.db.refresh[e.id].user, e.createdAt, e.clock + cfg.refreshDuration);
    RotationViews(cfg, s, f, e, row);
    SuccessorIsRepresented(s.db.refresh, f, a, e.id, e.newId, row, e.now);
  }

  lemma StepIsRepresented(cfg: Config, s: Sys, f: Family, a: map<Uuid, Session>, e: Event)
    requires Sound(s) && KinOf(s, f) && Represents(s.db.refresh, f, a)
    requires Rotates(cfg, s, e) ==> Newest(f, e.id)
    ensures Represents(Step(cfg, s, e).db.refresh, Observe(cfg, f, s, e), SessionStep(a, LabelOf(cfg, s, e)))
  {
    if Opens(cfg, s, e) {
      OpeningIsRepresented(cfg, s, f, a, e);
    } else if Rotates(cfg, s, e) {
      RotationIsRepresented(cfg, s, f, a, e);
    } else {
      AcceptsAlike(cfg, s, f, a, e);
      RemovalEffect(cfg, s, e, a);
      RemovalIsRepresented(s.db.refresh, f, a, Step(cfg, s, e).db.refresh, SessionStep(a, LabelOf(cfg, s, e)));
    }
  }

  /**
    * Refinement: with clocks in order, every run of the refresh-token table is a run of the simple
    * session map ...
    */
  lemma {:induction false} TableRefinesSessions(cfg: Config, tr: seq<Event>)
    requires InOrder(cfg, tr)
    ensures Represents(Run(cfg, tr).db.refresh, FamilyOf(cfg, tr), SessionsOf(cfg, tr))
  {
    if tr != [] {
      var n := |tr| - 1;
      PrefixInOrder(cfg, tr, n);
      TableRefinesSessions(cfg, tr[..n]);
      RunIsSound(cfg, tr[..n]);
      RunIsKin(cfg, tr[..n]);
      if Rotates(cfg, Run(cfg, tr[..n]), tr[n]) {
        RefreshSpendsTheNewest(cfg, tr, n, tr[n].id);
      }
      StepIsRepresented(cfg, Run(cfg, tr[..n]), FamilyOf(cfg, tr[..n]), SessionsOf(cfg, tr[..n]), tr[n]);
    }
  }

  /** ... and `Refresh` succeeds exactly when the simple map would accept it. */
  lemma TableAcceptsAsSessions(cfg: Config, tr: seq<Event>, j: nat)
    requires InOrder(cfg, tr) && j < |tr|
    ensures var s := Run(cfg, tr[..j]);
      Rotates(cfg, s, tr[j]) <==> Attempted(cfg, s, tr[j]) && Renewable(SessionsOf(cfg, tr[..j]), tr[j].id, tr[j].now)
  {
    PrefixInOrder(cfg, tr, j);
    TableRefinesSessions(cfg, tr[..j]);
    RunIsSound(cfg, tr[..j]);
    if Rotates(cfg, Run(cfg, tr[..j]), tr[j]) {
      RefreshSpendsTheNewest(cfg, tr, j, tr[j].id);
    }
    AcceptsAlike(cfg, Run(cfg, tr[..j]), FamilyOf(cfg, tr[..j]), SessionsOf(cfg, tr[..j]), tr[j]);
  }
}
