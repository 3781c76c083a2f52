/** The three callbacks that the services run in a transaction, and what each amounts to. */
module Transactions {
  import opened Schema
  import opened Sql
  import opened UnitOfWork

  // --- Refresh: spend the presented token and store its successor ---

  function RefreshWork(id: Uuid, newId: Uuid, createdAt: Time, expiresAt: Time, signed: bool): Work {
    Work(2,
      (had: seq<Reply>) =>
        if had == [] then Issue(ConsumeRefresh(id))
        else match had[0]
          case RefreshRow(_, row) => Issue(SaveRefresh(newId, RefreshToken(row.user, createdAt, expiresAt)))
          case NoRows => Stop(Some(Unauthenticated))
          case _ => Stop(Some(Internal)),
      (had: seq<Reply>) =>
        if |had| == 2 && !had[1].Failed? && signed then None else Some(Internal))
  }

  ghost predicate Unexpired(t: Tables, id: Uuid, now: Time) {
    id in t.refresh && t.refresh[id].expiresAt > now
  }

  /** The call to `Refresh` succeeds. */
  ghost predicate RefreshAccepted(t: Tables, id: Uuid, newId: Uuid, signed: bool, now: Time, fault: TxFault) {
    && Unexpired(t, id, now)
    && newId !in t.refresh
    && t.refresh[id].user in t.users
    && signed
    && !Strikes(fault, 2)
  }

  ghost function RefreshTables(
    t: Tables, id: Uuid, newId: Uuid, createdAt: Time, expiresAt: Time, signed: bool, now: Time, fault: TxFault): Tables
  {
    if RefreshAccepted(t, id, newId, signed, now, fault) then
      var spent := t.refresh[id];
      t.(refresh := t.refresh[id := spent.(expiresAt := now)][newId := RefreshToken(spent.user, createdAt, expiresAt)])
    else t
  }

  lemma RefreshEffect(
    t: Tables, id: Uuid, newId: Uuid, createdAt: Time, expiresAt: Time, signed: bool, now: Time, fault: TxFault)
    ensures var x := ExecTx(t, RefreshWork(id, newId, createdAt, expiresAt, signed), now, fault);
      && x.tables == RefreshTables(t, id, newId, createdAt, expiresAt, signed, now, fault)
      && (x.error == None <==> RefreshAccepted(t, id, newId, signed, now, fault))
      && (x.error == Some(Unauthenticated) <==>
            fault != AtBegin && fault != AtOperation(0) && !Unexpired(t, id, now))
      && (x.error.Some? ==> x.error.value == Unauthenticated || x.error.value == Internal)
  {
    var w := RefreshWork(id, newId, createdAt, expiresAt, signed);
    if fault != AtBegin {
      var op := ConsumeRefresh(id);
      var o := PerformInTx(t, false, op, now, fault == AtOperation(0));
      ConductIssue(t, w, [], op, now, fault);
      assert [] + [o.reply] == [o.reply];
      if o.reply.RefreshRow? {
        var save := SaveRefresh(newId, RefreshToken(o.reply.refresh.user, createdAt, expiresAt));
        var p := PerformInTx(o.tables, false, save, now, fault == AtOperation(1));
        ConductIssue(o.tables, w, [o.reply], save, now, fault);
        assert [o.reply] + [p.reply] == [o.reply, p.reply];
      }
    }
  }

  /** What the callback of `Refresh` learns when it succeeds, the owner of the token among it. */
  lemma RefreshHears(
    t: Tables, id: Uuid, newId: Uuid, createdAt: Time, expiresAt: Time, signed: bool, now: Time, fault: TxFault)
    requires RefreshAccepted(t, id, newId, signed, now, fault)
    ensures Heard(t, RefreshWork(id, newId, createdAt, expiresAt, signed), [], false, now, fault)
      == [RefreshRow(id, t.refresh[id].(expiresAt := now)), Done]
  {
    var w := RefreshWork(id, newId, createdAt, expiresAt, signed);
    var o := PerformInTx(t, false, ConsumeRefresh(id), now, false);
    assert [] + [o.reply] == [o.reply];
    assert w.next([]) == Issue(ConsumeRefresh(id));
    var save := SaveRefresh(newId, RefreshToken(o.reply.refresh.user, createdAt, expiresAt));
    assert w.next([o.reply]) == Issue(save);
    var p := PerformInTx(o.tables, false, save, now, false);
    assert [o.reply] + [p.reply] == [o.reply, p.reply];
    assert Heard(p.tables, w, [o.reply, p.reply], false, now, fault) == [o.reply, p.reply];
    assert Heard(o.tables, w, [o.reply], false, now, fault) == [o.reply, p.reply];
  }

  // --- SendCode: replace the challenge of an identifier ---

  function SendWork(challenge: Uuid, otp: Otp): Work {
    Work(2,
      (had: seq<Reply>) =>
        if had == [] then Issue(InvalidateOtps(otp.identifier))
        else if had[0].Failed? then Stop(Some(Internal))
        else Issue(SaveOtp(challenge, otp)),
      (had: seq<Reply>) =>
        if |had| == 2 && !had[1].Failed? then None else Some(Internal))
  }

  ghost function Replacement(t: Tables, challenge: Uuid, otp: Otp): Outcome {
    SaveOtpCode(InvalidateOtpCodesByIdentifier(t, otp.identifier).tables, challenge, otp)
  }

  ghost predicate SendAccepted(t: Tables, challenge: Uuid, otp: Otp, fault: TxFault) {
    !Replacement(t, challenge, otp).reply.Failed? && !Strikes(fault, 2)
  }

  ghost function SendTables(t: Tables, challenge: Uuid, otp: Otp, fault: TxFault): Tables {
    if SendAccepted(t, challenge, otp, fault) then Replacement(t, challenge, otp).tables else t
  }

  lemma SendEffect(t: Tables, challenge: Uuid, otp: Otp, now: Time, fault: TxFault)
    ensures var x := ExecTx(t, SendWork(challenge, otp), now, fault);
      && x.tables == SendTables(t, challenge, otp, fault)
      && (x.error == None <==> SendAccepted(t, challenge, otp, fault))
  {
    var w := SendWork(challenge, otp);
    if fault != AtBegin {
      var op := InvalidateOtps(otp.identifier);
      var o := PerformInTx(t, false, op, now, fault == AtOperation(0));
      ConductIssue(t, w, [], op, now, fault);
      assert [] + [o.reply] == [o.reply];
      if fault != AtOperation(0) {
        assert o == InvalidateOtpCodesByIdentifier(t, otp.identifier);
        SendEffectAfterInvalidate(o.tables, challenge, otp, now, fault);
      }
    }
  }

  lemma SendEffectAfterInvalidate(t: Tables, challenge: Uuid, otp: Otp, now: Time, fault: TxFault)
    ensures var end := Conduct(t, SendWork(challenge, otp), [Done], false, now, fault);
      var o := SaveOtpCode(t, challenge, otp);
      if fault == AtOperation(1) || o.reply.Failed? then end.result.Some?
      else end == TxEnd(o.tables, false, None)
  {
    var w := SendWork(challenge, otp);
    var op := SaveOtp(challenge, otp);
    var p := PerformInTx(t, false, op, now, fault == AtOperation(1));
    ConductIssue(t, w, [Done], op, now, fault);
    assert [Done] + [p.reply] == [Done, p.reply];
  }

  // --- ResetPassword: spend the reset token, set the password, end the sessions ---

  function ResetWork(hash: SecretHash, password: PasswordHash): Work {
    Work(3,
      (had: seq<Reply>) =>
        if had == [] then Issue(ConsumeReset(hash))
        else match had[0]
          case ResetRow(_, row) =>
            if had[|had| - 1].Failed? then Stop(Some(Internal))
            else if |had| == 1 then Issue(UpdatePassword(row.user, password))
            else Issue(DeleteRefreshByUser(row.user))
          case NoRows => Stop(Some(Unauthenticated))
          case _ => Stop(Some(Internal)),
      (had: seq<Reply>) =>
        if |had| == 3 && !had[2].Failed? then None else Some(Internal))
  }

  ghost predicate ResetAccepted(t: Tables, hash: SecretHash, now: Time, fault: TxFault) {
    ConsumePasswordResetToken(t, hash, now).reply.ResetRow? && !Strikes(fault, 3)
  }

  ghost function ResetTables(t: Tables, hash: SecretHash, password: PasswordHash, now: Time, fault: TxFault): Tables {
    var o := ConsumePasswordResetToken(t, hash, now);
    if ResetAccepted(t, hash, now, fault) then
      var user := o.reply.reset.user;
      DeleteRefreshTokensByUserID(UpdateUserPassword(o.tables, user, password).tables, user).tables
    else t
  }

  lemma ResetEffect(t: Tables, hash: SecretHash, password: PasswordHash, now: Time, fault: TxFault)
    ensures var x := ExecTx(t, ResetWork(hash, password), now, fault);
      && x.tables == ResetTables(t, hash, password, now, fault)
      && (x.error == None <==> ResetAccepted(t, hash, now, fault))
      && (x.error == Some(Unauthenticated) <==>
            fault != AtBegin && fault != AtOperation(0) && ConsumePasswordResetToken(t, hash, now).reply.NoRows?)
      && (x.error.Some? ==> x.error.value == Unauthenticated || x.error.value == Internal)
  {
    var w := ResetWork(hash, password);
    if fault != AtBegin {
      var op := ConsumeReset(hash);
      var o := PerformInTx(t, false, op, now, fault == AtOperation(0));
      ConductIssue(t, w, [], op, now, fault);
      assert [] + [o.reply] == [o.reply];
      if o.reply.ResetRow? {
        ResetEffectAfterConsume(o.tables, hash, password, o.reply, now, fault);
      }
    }
  }

  lemma ResetEffectAfterConsume(
    t: Tables, hash: SecretHash, password: PasswordHash, first: Reply, now: Time, fault: TxFault)
    requires first.ResetRow?
    ensures var end := Conduct(t, ResetWork(hash, password), [first], false, now, fault);
      var user := first.reset.user;
      if fault == AtOperation(1) || fault == AtOperation(2) then end.result == Some(Internal)
      else
        var t' := UpdateUserPassword(t, user, password).tables;
        end == TxEnd(DeleteRefreshTokensByUserID(t', user).tables, false, None)
  {
    var op := UpdatePassword(first.reset.user, password);
    var p := PerformInTx(t, false, op, now, fault == AtOperation(1));
    ConductIssue(t, ResetWork(hash, password), [first], op, now, fault);
    assert [first] + [p.reply] == [first, p.reply];
    if fault != AtOperation(1) {
      ResetEffectAfterUpdate(p.tables, hash, password, first, now, fault);
    }
  }

  lemma ResetEffectAfterUpdate(
    t: Tables, hash: SecretHash, password: PasswordHash, first: Reply, now: Time, fault: TxFault)
    requires first.ResetRow?
    ensures var end := Conduct(t, ResetWork(hash, password), [first, Done], false, now, fault);
      if fault == AtOperation(2) then end.result == Some(Internal)
      else end == TxEnd(DeleteRefreshTokensByUserID(t, first.reset.user).tables, false, None)
  {
    var op := DeleteRefreshByUser(first.reset.user);
    var p := PerformInTx(t, false, op, now, fault == AtOperation(2));
    ConductIssue(t, ResetWork(hash, password), [first, Done], op, now, fault);
    assert [first, Done] + [p.reply] == [first, Done, p.reply];
  }

  // --- The constraints ---

  lemma RefreshKeepsConstraints(
    t: Tables, id: Uuid, newId: Uuid, createdAt: Time, expiresAt: Time, signed: bool, now: Time, fault: TxFault)
    requires Constraints(t)
    ensures Constraints(RefreshTables(t, id, newId, createdAt, expiresAt, signed, now, fault))
  {
    assert RefreshOk(RefreshTables(t, id, newId, createdAt, expiresAt, signed, now, fault).refresh, t.users);
  }

  lemma SendKeepsConstraints(t: Tables, challenge: Uuid, otp: Otp, fault: TxFault)
    requires Constraints(t)
    ensures Constraints(SendTables(t, challenge, otp, fault))
  {
  }

  lemma ResetKeepsConstraints(t: Tables, hash: SecretHash, password: PasswordHash, now: Time, fault: TxFault)
    requires Constraints(t)
    ensures Constraints(ResetTables(t, hash, password, now, fault))
  {
  }
}
