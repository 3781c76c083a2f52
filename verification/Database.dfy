/** A database connection: one method per SQL statement, changing the stored tables in place. */
module Database {
  import opened Schema
  import opened Sql

  /** A statement that is lost on the way to the database has no effect and reports an error. */
  ghost function Attempt(t: Tables, fault: bool, o: Outcome): Outcome {
    if fault then Outcome(t, Failed(Fault)) else o
  }

  class Db {
    var users: map<Uuid, User>
    var refresh: map<Uuid, RefreshToken>
    var resets: map<Uuid, ResetToken>
    var otps: map<Uuid, Otp>

    ghost function Snapshot(): Tables
      reads this
    {
      Tables(users, refresh, resets, otps)
    }

    ghost predicate Valid()
      reads this
    {
      Constraints(Snapshot())
    }

    constructor ()
      ensures Valid() && Snapshot() == EMPTY_TABLES
    {
      users, refresh, resets, otps := map[], map[], map[], map[];
    }

    /** The private view that a transaction works on. */
    constructor CopyOf(db: Db)
      ensures Snapshot() == db.Snapshot()
    {
      users, refresh, resets, otps := db.users, db.refresh, db.resets, db.otps;
    }

    method Publish(tx: Db)
      modifies this
      ensures Snapshot() == old(tx.Snapshot())
    {
      users, refresh, resets, otps := tx.users, tx.refresh, tx.resets, tx.otps;
    }

    method SaveUser(id: Uuid, user: User, fault: bool) returns (r: Reply)
      requires Valid()
      modifies this
      ensures Valid()
      ensures Outcome(Snapshot(), r) == Attempt(old(Snapshot()), fault, Sql.SaveUser(old(Snapshot()), id, user))
      ensures r == Failed(ValueTooLong) <==> !fault && |user.email| > 255
    {
      if fault {
        return Failed(Fault);
      }
      if |user.email| > EMAIL_MAX {
        return Failed(ValueTooLong);
      }
      if id in users || exists u :: u in users && Clashes(users[u], user) {
        return Failed(UniqueViolation);
      }
      users := users[id := user];
      r := Done;
    }

    method GetByEmail(email: string, fault: bool) returns (r: Reply)
      requires Valid()
      ensures r == if fault then Failed(Fault) else Sql.GetByEmail(Snapshot(), email)
    {
      if fault {
        return Failed(Fault);
      }
      if u :| u in users && users[u].email == email {
        r := UserRow(u, users[u]);
      } else {
        r := NoRows;
      }
    }

    method UpdateUserPassword(id: Uuid, password: PasswordHash, fault: bool) returns (r: Reply)
      requires Valid()
      modifies this
      ensures Valid()
      ensures Outcome(Snapshot(), r) ==
        Attempt(old(Snapshot()), fault, Sql.UpdateUserPassword(old(Snapshot()), id, password))
    {
      if fault {
        return Failed(Fault);
      }
      if id in users {
        users := users[id := users[id].(password := password)];
      }
      r := Done;
    }

    method SaveRefreshToken(id: Uuid, token: RefreshToken, fault: bool) returns (r: Reply)
      requires Valid()
      modifies this
      ensures Valid()
      ensures Outcome(Snapshot(), r) ==
        Attempt(old(Snapshot()), fault, Sql.SaveRefreshToken(old(Snapshot()), id, token))
    {
      if fault {
        return Failed(Fault);
      }
      if id in refresh {
        return Failed(UniqueViolation);
      }
      if token.user !in users {
        return Failed(ForeignKeyViolation);
      }
      refresh := refresh[id := token];
      r := Done;
    }

    method ConsumeRefreshToken(id: Uuid, now: Time, fault: bool) returns (r: Reply)
      requires Valid()
      modifies this
      ensures Valid()
      ensures Outcome(Snapshot(), r) ==
        Attempt(old(Snapshot()), fault, Sql.ConsumeRefreshToken(old(Snapshot()), id, now))
    {
      if fault {
        return Failed(Fault);
      }
      if id !in refresh || refresh[id].expiresAt <= now {
        return NoRows;
      }
      refresh := refresh[id := refresh[id].(expiresAt := now)];
      r := RefreshRow(id, refresh[id]);
    }

    method DeleteRefreshToken(id: Uuid, fault: bool) returns (r: Reply)
      requires Valid()
      modifies this
      ensures Valid()
      ensures Outcome(Snapshot(), r) == Attempt(old(Snapshot()), fault, Sql.DeleteRefreshToken(old(Snapshot()), id))
    {
      if fault {
        return Failed(Fault);
      }
      refresh := refresh - {id};
      r := Done;
    }

    method DeleteRefreshTokensByUserID(user: Uuid, fault: bool) returns (r: Reply)
      requires Valid()
      modifies this
      ensures Valid()
      ensures Outcome(Snapshot(), r) ==
        Attempt(old(Snapshot()), fault, Sql.DeleteRefreshTokensByUserID(old(Snapshot()), user))
    {
      if fault {
        return Failed(Fault);
      }
      refresh := map i | i in refresh && refresh[i].user != user :: refresh[i];
      r := Done;
    }

    method SavePasswordResetToken(
      id: Uuid, user: Uuid, hash: SecretHash, expiresAt: Time, now: Time, fault: bool) returns (r: Reply)
      requires Valid()
      modifies this
      ensures Valid()
      ensures Outcome(Snapshot(), r) ==
        Attempt(old(Snapshot()), fault, Sql.SavePasswordResetToken(old(Snapshot()), id, user, hash, expiresAt, now))
    {
      if fault {
        return Failed(Fault);
      }
      if id in resets || exists i :: i in resets && resets[i].hash == hash {
        return Failed(UniqueViolation);
      }
      if user !in users {
        return Failed(ForeignKeyViolation);
      }
      resets := resets[id := ResetToken(user, hash, expiresAt, None, now)];
      r := Done;
    }

    method ConsumePasswordResetToken(hash: SecretHash, now: Time, fault: bool) returns (r: Reply)
      requires Valid()
      modifies this
      ensures Valid()
      ensures Outcome(Snapshot(), r) ==
        Attempt(old(Snapshot()), fault, Sql.ConsumePasswordResetToken(old(Snapshot()), hash, now))
    {
      if fault {
        return Failed(Fault);
      }
      if i :| i in resets && Redeemable(resets[i], hash, now) {
        resets := resets[i := resets[i].(usedAt := Some(now))];
        r := ResetRow(i, resets[i]);
      } else {
        r := NoRows;
      }
    }

    method SaveOtpCode(id: Uuid, otp: Otp, fault: bool) returns (r: Reply)
      requires Valid()
      modifies this
      ensures Valid()
      ensures Outcome(Snapshot(), r) == Attempt(old(Snapshot()), fault, Sql.SaveOtpCode(old(Snapshot()), id, otp))
    {
      if fault {
        return Failed(Fault);
      }
      if id in otps || exists c :: c in otps && otps[c].identifier == otp.identifier {
        return Failed(UniqueViolation);
      }
      if otp.attempts < -0x8000 || SMALLINT_MAX < otp.attempts {
        return Failed(NumericOutOfRange);
      }
      otps := otps[id := otp];
      r := Done;
    }

    method InvalidateOtpCodesByIdentifier(identifier: string, fault: bool) returns (r: Reply)
      requires Valid()
      modifies this
      ensures Valid()
      ensures Outcome(Snapshot(), r) ==
        Attempt(old(Snapshot()), fault, Sql.InvalidateOtpCodesByIdentifier(old(Snapshot()), identifier))
    {
      if fault {
        return Failed(Fault);
      }
      otps := map c | c in otps && otps[c].identifier != identifier :: otps[c];
      r := Done;
    }

    method ConsumeOtpCode(code: CodeHash, identifier: string, now: Time, fault: bool) returns (r: Reply)
      requires Valid()
      modifies this
      ensures Valid()
      ensures Outcome(Snapshot(), r) ==
        Attempt(old(Snapshot()), fault, Sql.ConsumeOtpCode(old(Snapshot()), code, identifier, now))
    {
      if fault {
        return Failed(Fault);
      }
      if c :| c in otps && LoginMatch(otps[c], code, identifier, now) {
        r := OtpRow(c, otps[c]);
        otps := otps - {c};
      } else {
        r := NoRows;
      }
    }

    method ConsumeOtpCodeByChallengeID(
      id: Uuid, code: CodeHash, maxAttempts: int, now: Time, fault: bool) returns (r: Reply)
      requires Valid()
      modifies this
      ensures Valid()
      ensures Outcome(Snapshot(), r) ==
        Attempt(old(Snapshot()), fault, Sql.ConsumeOtpCodeByChallengeID(old(Snapshot()), id, code, maxAttempts, now))
    {
      if fault {
        return Failed(Fault);
      }
      if id in otps && otps[id].code == code && Guessable(otps[id], maxAttempts, now) {
        r := OtpRow(id, otps[id]);
        otps := otps - {id};
      } else {
        r := NoRows;
      }
    }

    method IncreaseOtpAttempts(id: Uuid, maxAttempts: int, now: Time, fault: bool) returns (r: Reply)
      requires Valid()
      modifies this
      ensures Valid()
      ensures Outcome(Snapshot(), r) ==
        Attempt(old(Snapshot()), fault, Sql.IncreaseOtpAttempts(old(Snapshot()), id, maxAttempts, now))
    {
      if fault {
        return Failed(Fault);
      }
      if id in otps && Guessable(otps[id], maxAttempts, now) {
        if otps[id].attempts + 1 > SMALLINT_MAX {
          return Failed(NumericOutOfRange);
        }
        otps := otps[id := otps[id].(attempts := otps[id].attempts + 1)];
      }
      r := Done;
    }
  }
}
