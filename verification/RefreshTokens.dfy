/** The service behind `internal/service/refresh_token.go`. */
module RefreshTokens {
  import opened Schema
  import opened Sql
  import opened Database
  import opened UnitOfWork
  import opened Transactions
  import opened Machine
  import opened Calls
  import opened Backends

  /** A transaction of `Refresh` is the machine's step. */
  lemma RefreshIsStep(
    cfg: Config, history: seq<Event>, id: Uuid, newId: Uuid, createdAt: Time, clock: Time, signed: bool, now: Time,
    txFault: TxFault)
    requires newId !in Run(cfg, history).issued
    ensures var t := Run(cfg, history).db;
      Run(cfg, history + [Event.Refresh(id, newId, createdAt, clock, signed, now, txFault)]).db
        == RefreshTables(t, id, newId, createdAt, clock + cfg.refreshDuration, signed, now, txFault)
  {
    var event := Event.Refresh(id, newId, createdAt, clock, signed, now, txFault);
    HistoryGrowsByOne(cfg, history, event);
  }

  /** The presented token is spent, its successor is stored for the same user, and nothing else changed. */
  ghost predicate Rotated(t: Tables, t': Tables, id: Uuid, newId: Uuid, createdAt: Time, expiresAt: Time, now: Time)
    requires id in t.refresh
  {
    && !Unexpired(t', id, now)
    && t' == t.(refresh := t.refresh[id := t.refresh[id].(expiresAt := now)]
         [newId := RefreshToken(t.refresh[id].user, createdAt, expiresAt)])
  }

  /** The statement that spends the token is executed and finds it unknown or expired. */
  ghost predicate Rejects(t: Tables, id: Uuid, now: Time, txFault: TxFault) {
    txFault != AtBegin && txFault != AtOperation(0) && !Unexpired(t, id, now)
  }

  /** Nothing is wrong with the token, but something else fails, or the token is never looked at. */
  ghost predicate Breaks(t: Tables, id: Uuid, signed: bool, now: Time, txFault: TxFault) {
    if Unexpired(t, id, now) then !signed || Strikes(txFault, 2)
    else txFault == AtBegin || txFault == AtOperation(0)
  }

  ghost function RefreshAnswer(
    t: Tables, id: Uuid, newId: Uuid, signed: bool, now: Time, txFault: TxFault): Result<Tokens>
  {
    if RefreshAccepted(t, id, newId, signed, now, txFault) then Ok(Tokens(t.refresh[id].user, newId))
    else Err(if Rejects(t, id, now, txFault) then Unauthenticated else Internal)
  }

  /** What `Refresh` answers, and leaves behind, in a state that was reached. */
  lemma RefreshAnswersExactly(
    cfg: Config, history: seq<Event>, id: Uuid, newId: Uuid, createdAt: Time, expiresAt: Time, signed: bool, now: Time,
    txFault: TxFault)
    requires newId !in Run(cfg, history).issued
    ensures var t := Run(cfg, history).db;
      var t' := RefreshTables(t, id, newId, createdAt, expiresAt, signed, now, txFault);
      var r := RefreshAnswer(t, id, newId, signed, now, txFault);
      && (r.Ok? <==> Unexpired(t, id, now) && signed && !Strikes(txFault, 2))
      && (r.Ok? ==>
            r.value == Tokens(t.refresh[id].user, newId) && Rotated(t, t', id, newId, createdAt, expiresAt, now))
      && (r.Err? ==> t' == t)
      && (r == Err(Unauthenticated) <==> Rejects(t, id, now, txFault))
      && (r == Err(Internal) <==> Breaks(t, id, signed, now, txFault))
  {
    RunIsSound(cfg, history);
  }

  lemma RefreshOutcome(
    t: Tables, id: Uuid, newId: Uuid, createdAt: Time, expiresAt: Time, signed: bool, now: Time, txFault: TxFault)
    ensures var w := RefreshWork(id, newId, createdAt, expiresAt, signed);
      var x, heard := ExecTx(t, w, now, txFault), Heard(t, w, [], false, now, txFault);
      && x.tables == RefreshTables(t, id, newId, createdAt, expiresAt, signed, now, txFault)
      && (x.error == None <==> RefreshAccepted(t, id, newId, signed, now, txFault))
      && (x.error == None ==> |heard| > 0 && heard[0].RefreshRow? && heard[0].refresh.user == t.refresh[id].user)
      && (x.error.Some? ==> x.error.value == if Rejects(t, id, now, txFault) then Unauthenticated else Internal)
  {
    RefreshEffect(t, id, newId, createdAt, expiresAt, signed, now, txFault);
    if RefreshAccepted(t, id, newId, signed, now, txFault) {
      RefreshHears(t, id, newId, createdAt, expiresAt, signed, now, txFault);
    }
  }

  lemma RevokeIsStep(cfg: Config, history: seq<Event>, id: Uuid, fault: bool)
    ensures var t := Run(cfg, history).db;
      Run(cfg, history + [Event.Revoke(id, fault)]).db == Attempt(t, fault, DeleteRefreshToken(t, id)).tables
  {
    HistoryGrowsByOne(cfg, history, Event.Revoke(id, fault));
  }

  class RefreshTokenService {
    const backend: Backend

    constructor (backend: Backend)
      ensures this.backend == backend
    {
      this.backend := backend;
    }

    method GenerateRefreshToken(user: Uuid, env: SaveEnv) returns (r: Result<Uuid>)
      requires backend.db.Valid()
      modifies backend.db
      ensures backend.db.Valid()
      ensures var o := SaveSession(backend.cfg, old(backend.db.Snapshot()), user, env);
        backend.db.Snapshot() == o.tables && r == if o.reply.Failed? then Err(Internal) else Ok(env.id)
    {
      ghost var before := backend.db.Snapshot();
      var token := RefreshToken(user, env.createdAt, env.clock + backend.cfg.refreshDuration);
      var reply := backend.db.SaveRefreshToken(env.id, token, env.fault);
      assert Outcome(backend.db.Snapshot(), reply) == SaveSession(backend.cfg, before, user, env);
      if reply.Failed? {
        return Err(Internal);
      }
      r := Ok(env.id);
    }

    /** `presented` is None when the text presented is not an identifier. */
    method Refresh(
      presented: Option<Uuid>, newId: Uuid, createdAt: Time, clock: Time, signed: bool, now: Time, txFault: TxFault)
      returns (r: Result<Tokens>)
      requires backend.Valid() && newId !in backend.State().issued
      modifies backend, backend.db
      ensures backend.Valid()
      ensures backend.history == old(backend.history) +
        if presented == None then []
        else [Event.Refresh(presented.value, newId, createdAt, clock, signed, now, txFault)]
      ensures var t, t' := old(backend.db.Snapshot()), backend.db.Snapshot();
        && (r.Ok? <==> presented.Some? && Unexpired(t, presented.value, now) && signed && !Strikes(txFault, 2))
        && (r.Ok? ==>
              r.value == Tokens(t.refresh[presented.value].user, newId)
              && Rotated(t, t', presented.value, newId, createdAt, clock + backend.cfg.refreshDuration, now))
        && (r.Err? ==> t' == t)
        && (r == Err(Unauthenticated) <==> presented == None || Rejects(t, presented.value, now, txFault))
        && (r == Err(Internal) <==> presented.Some? && Breaks(t, presented.value, signed, now, txFault))
    {
      if presented == None {
        return Err(Unauthenticated);
      }
      RefreshIsStep(backend.cfg, backend.history, presented.value, newId, createdAt, clock, signed, now, txFault);
      var expiresAt := clock + backend.cfg.refreshDuration;
      RefreshAnswersExactly(
        backend.cfg, backend.history, presented.value, newId, createdAt, expiresAt, signed, now, txFault);
      r := Rotate(presented.value, newId, createdAt, expiresAt, signed, now, txFault);
      backend.Record([Event.Refresh(presented.value, newId, createdAt, clock, signed, now, txFault)]);
    }

    /** The transaction of `Refresh`. */
    method Rotate(
      id: Uuid, newId: Uuid, createdAt: Time, expiresAt: Time, signed: bool, now: Time, txFault: TxFault)
      returns (r: Result<Tokens>)
      requires backend.unitOfWork.db == backend.db && backend.db.Valid()
      modifies backend.db
      ensures backend.db.Valid()
      ensures var t := old(backend.db.Snapshot());
        && backend.db.Snapshot() == RefreshTables(t, id, newId, createdAt, expiresAt, signed, now, txFault)
        && r == RefreshAnswer(t, id, newId, signed, now, txFault)
        && (r == Err(Internal) <==>
              !RefreshAccepted(t, id, newId, signed, now, txFault) && !Rejects(t, id, now, txFault))
    {
      var work := RefreshWork(id, newId, createdAt, expiresAt, signed);
      RefreshOutcome(backend.db.Snapshot(), id, newId, createdAt, expiresAt, signed, now, txFault);
      var error, heard := backend.unitOfWork.Exec(work, now, txFault);
      if error.Some? {
        return Err(error.value);
      }
      r := Ok(Tokens(heard[0].refresh.user, newId));
    }

    method Revoke(presented: Option<Uuid>, fault: bool) returns (r: Result<()>)
      requires backend.Valid()
      modifies backend, backend.db
      ensures backend.Valid()
      ensures backend.history == old(backend.history) +
        if presented == None then [] else [Event.Revoke(presented.value, fault)]
      ensures backend.db.Snapshot() ==
        if presented.Some? && r.Ok? then
          old(backend.db.Snapshot()).(refresh := old(backend.db.refresh) - {presented.value})
        else old(backend.db.Snapshot())
      ensures r == if presented == None then Err(Unauthenticated) else if fault then Err(Internal) else Ok(())
    {
      if presented == None {
        return Err(Unauthenticated);
      }
      ghost var event := Event.Revoke(presented.value, fault);
      var reply := backend.db.DeleteRefreshToken(presented.value, fault);
      RevokeIsStep(backend.cfg, backend.history, presented.value, fault);
      backend.Record([event]);
      if reply.Failed? {
        return Err(Internal);
      }
      r := Ok(());
    }
  }
}
