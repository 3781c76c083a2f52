/**
  * What each SQL statement does to the tables. A statement that the database receives at
  * `NOW() == now` yields the new tables and a reply. Every statement keeps the constraints of
  * the schema, and a statement that fails changes nothing.
  */
module Sql {
  import opened Schema

  datatype DbError =
    | Fault                     // connection lost, context cancelled, ...
    | InFailedTransaction       // an earlier statement of the transaction failed
    | UniqueViolation           // SQLSTATE 23505
    | ForeignKeyViolation
    | ValueTooLong
    | NumericOutOfRange

  datatype Reply =
    | Done
    | NoRows
    | UserRow(userId: Uuid, user: User)
    | RefreshRow(refreshId: Uuid, refresh: RefreshToken)
    | ResetRow(resetId: Uuid, reset: ResetToken)
    | OtpRow(otpId: Uuid, otp: Otp)
    | Failed(error: DbError)

  datatype Outcome = Outcome(tables: Tables, reply: Reply)

  // --- users ---

  predicate Clashes(stored: User, user: User) {
    stored.email == user.email || stored.username == user.username
  }

  ghost function SaveUser(t: Tables, id: Uuid, user: User): (r: Outcome)
    ensures r.reply == Failed(ValueTooLong) <==> |user.email| > 255
    ensures r.reply == Done <==> id in r.tables.users && id !in t.users
    ensures Constraints(t) ==> Constraints(r.tables)
    ensures r.reply.Failed? ==> r.tables == t
  {
    if |user.email| > EMAIL_MAX then Outcome(t, Failed(ValueTooLong))
    else if id in t.users || exists u :: u in t.users && Clashes(t.users[u], user) then
      Outcome(t, Failed(UniqueViolation))
    else Outcome(t.(users := t.users[id := user]), Done)
  }

  ghost function GetByEmail(t: Tables, email: string): Reply {
    if u :| u in t.users && t.users[u].email == email then UserRow(u, t.users[u]) else NoRows
  }

  ghost function UpdateUserPassword(t: Tables, id: Uuid, password: PasswordHash): (r: Outcome)
    ensures Constraints(t) ==> Constraints(r.tables)
    ensures r.reply.Failed? ==> r.tables == t
  {
    if id in t.users then
      Outcome(t.(users := t.users[id := t.users[id].(password := password)]), Done)
    else Outcome(t, Done)
  }

  // --- refresh_tokens ---

  ghost function SaveRefreshToken(t: Tables, id: Uuid, token: RefreshToken): (r: Outcome)
    ensures Constraints(t) ==> Constraints(r.tables)
    ensures r.reply.Failed? ==> r.tables == t
  {
    if id in t.refresh then Outcome(t, Failed(UniqueViolation))
    else if token.user !in t.users then Outcome(t, Failed(ForeignKeyViolation))
    else Outcome(t.(refresh := t.refresh[id := token]), Done)
  }

  /** Spending a token does not remove its row; the row expires at the time of the statement. */
  ghost function ConsumeRefreshToken(t: Tables, id: Uuid, now: Time): (r: Outcome)
    ensures Constraints(t) ==> Constraints(r.tables)
    ensures r.reply.Failed? ==> r.tables == t
  {
    if id in t.refresh && t.refresh[id].expiresAt > now then
      var row := t.refresh[id].(expiresAt := now);
      Outcome(t.(refresh := t.refresh[id := row]), RefreshRow(id, row))
    else Outcome(t, NoRows)
  }

  ghost function DeleteRefreshToken(t: Tables, id: Uuid): (r: Outcome)
    ensures Constraints(t) ==> Constraints(r.tables)
    ensures r.reply.Failed? ==> r.tables == t
  {
    Outcome(t.(refresh := t.refresh - {id}), Done)
  }

  ghost function DeleteRefreshTokensByUserID(t: Tables, user: Uuid): (r: Outcome)
    ensures Constraints(t) ==> Constraints(r.tables)
    ensures r.reply.Failed? ==> r.tables == t
  {
    Outcome(t.(refresh := map i | i in t.refresh && t.refresh[i].user != user :: t.refresh[i]), Done)
  }

  // --- password_reset_tokens ---

  predicate Redeemable(r: ResetToken, hash: SecretHash, now: Time) {
    r.hash == hash && r.usedAt == None && r.expiresAt > now
  }

  ghost function SavePasswordResetToken(
    t: Tables, id: Uuid, user: Uuid, hash: SecretHash, expiresAt: Time, now: Time): (r: Outcome)
    ensures Constraints(t) ==> Constraints(r.tables)
    ensures r.reply.Failed? ==> r.tables == t
  {
    if id in t.resets || (exists i :: i in t.resets && t.resets[i].hash == hash)
    then Outcome(t, Failed(UniqueViolation))
    else if user !in t.users then Outcome(t, Failed(ForeignKeyViolation))
    else Outcome(t.(resets := t.resets[id := ResetToken(user, hash, expiresAt, None, now)]), Done)
  }

  ghost function ConsumePasswordResetToken(t: Tables, hash: SecretHash, now: Time): (r: Outcome)
    ensures Constraints(t) ==> Constraints(r.tables)
    ensures r.reply.Failed? ==> r.tables == t
  {
    if i :| i in t.resets && Redeemable(t.resets[i], hash, now) then
      var row := t.resets[i].(usedAt := Some(now));
      Outcome(t.(resets := t.resets[i := row]), ResetRow(i, row))
    else Outcome(t, NoRows)
  }

  // --- otp ---

  predicate LoginMatch(o: Otp, code: CodeHash, identifier: string, now: Time) {
    o.code == code && o.identifier == identifier && o.expiresAt > now
  }

  /** A challenge whose code may still be guessed. */
  predicate Guessable(o: Otp, maxAttempts: int, now: Time) {
    o.expiresAt > now && o.attempts < maxAttempts
  }

  ghost function SaveOtpCode(t: Tables, id: Uuid, otp: Otp): (r: Outcome)
    ensures Constraints(t) ==> Constraints(r.tables)
    ensures r.reply.Failed? ==> r.tables == t
  {
    if id in t.otps || (exists c :: c in t.otps && t.otps[c].identifier == otp.identifier)
    then Outcome(t, Failed(UniqueViolation))
    else if !(-0x8000 <= otp.attempts <= SMALLINT_MAX) then Outcome(t, Failed(NumericOutOfRange))
    else Outcome(t.(otps := t.otps[id := otp]), Done)
  }

  ghost function InvalidateOtpCodesByIdentifier(t: Tables, identifier: string): (r: Outcome)
    ensures Constraints(t) ==> Constraints(r.tables)
    ensures r.reply.Failed? ==> r.tables == t
  {
    Outcome(t.(otps := map c | c in t.otps && t.otps[c].identifier != identifier :: t.otps[c]), Done)
  }

  ghost function ConsumeOtpCode(t: Tables, code: CodeHash, identifier: string, now: Time): (r: Outcome)
    ensures Constraints(t) ==> Constraints(r.tables)
    ensures r.reply.Failed? ==> r.tables == t
  {
    if c :| c in t.otps && LoginMatch(t.otps[c], code, identifier, now) then
      Outcome(t.(otps := t.otps - {c}), OtpRow(c, t.otps[c]))
    else Outcome(t, NoRows)
  }

  ghost function ConsumeOtpCodeByChallengeID(
    t: Tables, id: Uuid, code: CodeHash, maxAttempts: int, now: Time): (r: Outcome)
    ensures Constraints(t) ==> Constraints(r.tables)
    ensures r.reply.Failed? ==> r.tables == t
  {
    if id in t.otps && t.otps[id].code == code && Guessable(t.otps[id], maxAttempts, now) then
      Outcome(t.(otps := t.otps - {id}), OtpRow(id, t.otps[id]))
    else Outcome(t, NoRows)
  }

  ghost function IncreaseOtpAttempts(t: Tables, id: Uuid, maxAttempts: int, now: Time): (r: Outcome)
    ensures Constraints(t) ==> Constraints(r.tables)
    ensures r.reply.Failed? ==> r.tables == t
  {
    if id in t.otps && Guessable(t.otps[id], maxAttempts, now) then
      var row := t.otps[id].(attempts := t.otps[id].attempts + 1);
      if row.attempts > SMALLINT_MAX then Outcome(t, Failed(NumericOutOfRange))
      else Outcome(t.(otps := t.otps[id := row]), Done)
    else Outcome(t, Done)
  }
}
