/** The service behind `internal/service/otp.go`. */
module OtpCodes {
  import opened Schema
  import opened Sql
  import opened Database
  import opened UnitOfWork
  import opened Transactions
  import opened Machine
  import opened Recovery
  import opened Calls
  import opened RoundTrip
  import opened Backends

  datatype Mail = Mail(email: string, code: string)

  ghost predicate KnownEmail(users: map<Uuid, User>, email: string) {
    exists u :: IsUser(users, u, email)
  }

  lemma LookupFindsExactly(t: Tables, email: string, fault: bool)
    ensures var r := Lookup(t, email, fault);
      && (r.UserRow? <==> !fault && KnownEmail(t.users, email))
      && (r.UserRow? ==> r.user.email == email)
      && (r.NoRows? <==> !fault && !KnownEmail(t.users, email))
  {
    var r := Lookup(t, email, fault);
    if r.UserRow? {
      assert IsUser(t.users, r.userId, email);
    }
  }

  lemma SendIsCall(cfg: Config, history: seq<Event>, call: CallId, email: string, env: SendEnv)
    requires call !in Run(cfg, history).started && env.challenge !in Run(cfg, history).issued
    requires env.draw.Some? ==> env.draw.value < cfg.maxValue
    ensures Run(cfg, history + SendCall(call, email, env)).db == SendCallTables(cfg, Run(cfg, history).db, email, env)
  {
    HistoryGrows(cfg, history, SendCall(call, email, env));
    SendCallEffect(cfg, Run(cfg, history), call, email, env);
  }

  /** In a state that was reached, replacing a challenge fails only if the connection does. */
  lemma FreshChallengeIsStored(cfg: Config, history: seq<Event>, challenge: Uuid, otp: Otp, txFault: TxFault)
    requires challenge !in Run(cfg, history).issued && otp.attempts == 0
    ensures SendAccepted(Run(cfg, history).db, challenge, otp, txFault) <==> !Strikes(txFault, 2)
  {
    RunIsTraced(cfg, history);
    assert challenge !in Run(cfg, history).db.otps;
  }

  /** The challenge takes the place of all others of its address, and nothing else changed. */
  ghost predicate Replaces(t: Tables, t': Tables, challenge: Uuid, otp: Otp) {
    var others := map c | c in t.otps && t.otps[c].identifier != otp.identifier :: t.otps[c];
    t' == t.(otps := others[challenge := otp])
  }

  lemma SendLeaves(t: Tables, challenge: Uuid, otp: Otp, fault: TxFault)
    ensures var t' := SendTables(t, challenge, otp, fault);
      if SendAccepted(t, challenge, otp, fault) then Replaces(t, t', challenge, otp) else t' == t
  {
  }

  /** The code is right, not too late, and not guessed at too often. */
  ghost predicate MatchesReset(cfg: Config, otps: map<Uuid, Otp>, challenge: Uuid, code: string, now: Time) {
    challenge in otps && otps[challenge].code == OtpMac(code) && Guessable(otps[challenge], cfg.AttemptLimit(), now)
  }

  /** A statement of the verification is lost, or no token can be drawn. */
  predicate VerifyBreaks(accepted: bool, env: VerifyEnv) {
    || env.consumeFault
    || (if accepted then env.lookupFault || env.secret == None || env.saveFault else env.increaseFault)
  }

  lemma VerifyIsCall(cfg: Config, history: seq<Event>, call: CallId, challenge: Uuid, code: string, env: VerifyEnv)
    requires var s := Run(cfg, history);
      call !in s.started && env.id !in s.issued && (env.secret.Some? ==> env.secret.value !in s.secrets)
    ensures Run(cfg, history + VerifyCall(call, challenge, code, env)).db
      == VerifyTables(cfg, Run(cfg, history).db, challenge, code, env)
  {
    HistoryGrows(cfg, history, VerifyCall(call, challenge, code, env));
    VerifyCallEffect(cfg, Run(cfg, history), call, challenge, code, env);
  }

  /** In a state that was reached, a challenge's address is a user's and a fresh token can be stored. */
  lemma FreshTokenIsStored(cfg: Config, history: seq<Event>, challenge: Uuid, env: VerifyEnv)
    requires env.id !in Run(cfg, history).issued
    requires env.secret.Some? ==> env.secret.value !in Run(cfg, history).secrets
    requires challenge in Run(cfg, history).db.otps
    ensures KnownEmail(Run(cfg, history).db.users, Run(cfg, history).db.otps[challenge].identifier)
    ensures var t := Run(cfg, history).db;
      forall u | u in t.users && env.secret.Some? && !env.saveFault ::
        SaveReset(cfg, t.(otps := t.otps - {challenge}), u, env.secret.value, env).reply == Done
  {
    var s := Run(cfg, history);
    RunIsSound(cfg, history);
    RunIsTraced(cfg, history);
    RunDrawsSecrets(cfg, history);
    var sent := LogOf(cfg, history).sent[challenge];
    assert IsUser(s.db.users, sent.user, s.db.otps[challenge].identifier);
  }

  ghost function TokenAnswer(cfg: Config, t: Tables, email: string, env: VerifyEnv): Result<string> {
    match Lookup(t, email, env.lookupFault)
    case UserRow(u, _) =>
      if env.secret.Some? && !SaveReset(cfg, t, u, env.secret.value, env).reply.Failed? then Ok(env.secret.value)
      else Err(Internal)
    case NoRows => Err(PermissionDenied)
    case _ => Err(Internal)
  }

  /** What a verification answers, whatever the tables. */
  ghost function VerifyAnswer(cfg: Config, t: Tables, challenge: Uuid, code: string, env: VerifyEnv): Result<string> {
    var o := Consumption(cfg, t, challenge, code, env);
    match o.reply
    case OtpRow(_, otp) => TokenAnswer(cfg, o.tables, otp.identifier, env)
    case NoRows => Err(if Increase(cfg, t, challenge, env).reply.Failed? then Internal else ResourceNotFound)
    case _ => Err(Internal)
  }

  /** What it answers, and leaves behind, in a state that was reached. */
  lemma VerifyAnswersExactly(cfg: Config, history: seq<Event>, challenge: Uuid, code: string, env: VerifyEnv)
    requires env.id !in Run(cfg, history).issued
    requires env.secret.Some? ==> env.secret.value !in Run(cfg, history).secrets
    ensures var t := Run(cfg, history).db;
      var t', r := VerifyTables(cfg, t, challenge, code, env), VerifyAnswer(cfg, t, challenge, code, env);
      var accepted := MatchesReset(cfg, t.otps, challenge, code, env.consumedAt);
      && (r.Ok? <==> !env.consumeFault && accepted && !env.lookupFault && env.secret.Some? && !env.saveFault)
      && (r == Err(ResourceNotFound) <==> !env.consumeFault && !accepted && !env.increaseFault)
      && r != Err(PermissionDenied)
      && (r == Err(Internal) <==> VerifyBreaks(accepted, env))
      && (r == Err(Internal) ==>
            t' == if accepted && !env.consumeFault then t.(otps := t.otps - {challenge}) else t)
      && (r == Err(ResourceNotFound) ==>
            t' == IncreaseOtpAttempts(t, challenge, cfg.AttemptLimit(), env.increasedAt).tables)
      && (r.Ok? ==>
            && r == Ok(env.secret.value)
            && env.id in t'.resets
            && t' == t.(otps := t.otps - {challenge}, resets := t.resets[env.id := t'.resets[env.id]])
            && var token := t'.resets[env.id];
              && token == ResetToken(token.user, ResetMac(r.value), env.clock + cfg.resetDuration, None, env.savedAt)
              && IsUser(t'.users, token.user, t.otps[challenge].identifier))
  {
    var t := Run(cfg, history).db;
    if MatchesReset(cfg, t.otps, challenge, code, env.consumedAt) {
      FreshTokenIsStored(cfg, history, challenge, env);
      LookupFindsExactly(t.(otps := t.otps - {challenge}), t.otps[challenge].identifier, env.lookupFault);
    }
  }

  class OtpService {
    const backend: Backend
    var outbox: seq<Mail>

    constructor (backend: Backend)
      ensures this.backend == backend && outbox == []
    {
      this.backend, outbox := backend, [];
    }

    method SendCode(ghost call: CallId, email: string, env: SendEnv) returns (r: Result<Uuid>)
      requires backend.Valid() && call !in backend.State().started && env.challenge !in backend.State().issued
      requires env.draw.Some? ==> env.draw.value < backend.cfg.maxValue
      modifies backend, backend.db, this`outbox
      ensures backend.Valid() && backend.history == old(backend.history) + SendCall(call, email, env)
      ensures r.Ok? <==>
        !env.lookupFault
        && (KnownEmail(old(backend.db.users), email) ==> env.draw.Some? && env.mailed && !Strikes(env.txFault, 2))
      ensures r == if r.Ok? then Ok(env.challenge) else Err(Internal)
      ensures outbox == old(outbox) +
        if !env.lookupFault && KnownEmail(old(backend.db.users), email) && env.draw.Some? && env.mailed
        then [Mail(email, Codes.FormatCode(env.draw.value))] else []
      ensures var t, t' := old(backend.db.Snapshot()), backend.db.Snapshot();
        if r.Ok? && KnownEmail(t.users, email) then
          var code := OtpMac(outbox[|outbox| - 1].code);
          Replaces(t, t', env.challenge, Otp(email, code, 0, env.clock + backend.cfg.otpDuration, env.createdAt))
        else t' == t
    {
      ghost var before := backend.db.Snapshot();
      SendIsCall(backend.cfg, backend.history, call, email, env);
      LookupFindsExactly(before, email, env.lookupFault);
      if env.draw.Some? {
        var otp := NewOtp(backend.cfg, email, Codes.FormatCode(env.draw.value), env.createdAt, env.clock);
        FreshChallengeIsStored(backend.cfg, backend.history, env.challenge, otp, env.txFault);
        SendLeaves(before, env.challenge, otp, env.txFault);
      }
      var reply := backend.db.GetByEmail(email, env.lookupFault);
      match reply {
        case UserRow(_, user) =>
          r := Deliver(user.email, env);
        case NoRows => r := Ok(env.challenge);
        case _ => r := Err(Internal);
      }
      backend.Record(SendCall(call, email, env));
    }

    /** Drawing, mailing and storing a code for a user that was found. */
    method Deliver(email: string, env: SendEnv) returns (r: Result<Uuid>)
      requires backend.unitOfWork.db == backend.db && backend.db.Valid()
      modifies backend.db, this`outbox
      ensures backend.db.Valid()
      ensures
        if env.draw.Some? && env.mailed then
          var code := Codes.FormatCode(env.draw.value);
          var t, otp := old(backend.db.Snapshot()), NewOtp(backend.cfg, email, code, env.createdAt, env.clock);
          && backend.db.Snapshot() == SendTables(t, env.challenge, otp, env.txFault)
          && r == (if SendAccepted(t, env.challenge, otp, env.txFault) then Ok(env.challenge) else Err(Internal))
          && outbox == old(outbox) + [Mail(email, code)]
        else
          backend.db.Snapshot() == old(backend.db.Snapshot()) && r == Err(Internal) && outbox == old(outbox)
    {
      if env.draw == None {
        return Err(Internal);
      }
      var code := Codes.FormatCode(env.draw.value);
      if !env.mailed {
        return Err(Internal);
      }
      outbox := outbox + [Mail(email, code)];
      var otp := Otp(email, OtpMac(code), Int16(0), env.clock + backend.cfg.otpDuration, env.createdAt);
      r := Replace(env.challenge, otp, env.now, env.txFault);
    }

    /** The transaction of `SendCode`. */
    method Replace(challenge: Uuid, otp: Otp, now: Time, txFault: TxFault) returns (r: Result<Uuid>)
      requires backend.unitOfWork.db == backend.db && backend.db.Valid()
      modifies backend.db
      ensures backend.db.Valid()
      ensures var t := old(backend.db.Snapshot());
        && backend.db.Snapshot() == SendTables(t, challenge, otp, txFault)
        && r == if SendAccepted(t, challenge, otp, txFault) then Ok(challenge) else Err(Internal)
    {
      SendEffect(backend.db.Snapshot(), challenge, otp, now, txFault);
      var error, _ := backend.unitOfWork.Exec(SendWork(challenge, otp), now, txFault);
      r := if error.Some? then Err(Internal) else Ok(challenge);
    }

    method VerifyLoginCode(code: string, email: string, now: Time, fault: bool) returns (r: Result<()>)
      requires backend.db.Valid()
      modifies backend.db
      ensures backend.db.Valid()
      ensures var t := old(backend.db.Snapshot());
        var o := Attempt(t, fault, ConsumeOtpCode(t, OtpMac(code), email, now));
        && backend.db.Snapshot() == o.tables
        && r == if o.reply.OtpRow? then Ok(()) else if o.reply.NoRows? then Err(ResourceNotFound) else Err(Internal)
    {
      var reply := backend.db.ConsumeOtpCode(OtpMac(code), email, now, fault);
      if reply.Failed? {
        return Err(Internal);
      }
      if reply.NoRows? {
        return Err(ResourceNotFound);
      }
      r := Ok(());
    }

    method VerifyPasswordResetCode(
      ghost call: CallId, code: string, challenge: Uuid, env: VerifyEnv) returns (r: Result<string>)
      requires backend.Valid()
      requires var s := backend.State();
        call !in s.started && env.id !in s.issued && (env.secret.Some? ==> env.secret.value !in s.secrets)
      modifies backend, backend.db
      ensures backend.Valid() && backend.history == old(backend.history) + VerifyCall(call, challenge, code, env)
      ensures var t := old(backend.db.Snapshot());
        var accepted := MatchesReset(backend.cfg, t.otps, challenge, code, env.consumedAt);
        && (r.Ok? <==> !env.consumeFault && accepted && !env.lookupFault && env.secret.Some? && !env.saveFault)
        && (r == Err(ResourceNotFound) <==> !env.consumeFault && !accepted && !env.increaseFault)
        && r != Err(PermissionDenied)
        && (r == Err(Internal) <==> VerifyBreaks(accepted, env))
        && (r == Err(Internal) ==>
              backend.db.Snapshot() ==
                if accepted && !env.consumeFault then t.(otps := t.otps - {challenge}) else t)
      ensures r == Err(ResourceNotFound) ==>
        backend.db.Snapshot() ==
          IncreaseOtpAttempts(old(backend.db.Snapshot()), challenge, backend.cfg.AttemptLimit(), env.increasedAt).tables
      ensures r.Ok? ==>
        && r == Ok(env.secret.value)
        && env.id in backend.db.resets
        && var t, token := old(backend.db.Snapshot()), backend.db.resets[env.id];
          && backend.db.Snapshot() == t.(otps := t.otps - {challenge}, resets := t.resets[env.id := token])
          && token ==
            ResetToken(token.user, ResetMac(r.value), env.clock + backend.cfg.resetDuration, None, env.savedAt)
          && IsUser(backend.db.users, token.user, old(backend.db.otps)[challenge].identifier)
    {
      VerifyIsCall(backend.cfg, backend.history, call, challenge, code, env);
      VerifyAnswersExactly(backend.cfg, backend.history, challenge, code, env);
      r := Examine(code, challenge, env);
      backend.Record(VerifyCall(call, challenge, code, env));
    }

    /** Consuming the challenge, counting a failure, and issuing a token. */
    method Examine(code: string, challenge: Uuid, env: VerifyEnv) returns (r: Result<string>)
      requires backend.db.Valid()
      modifies backend.db
      ensures backend.db.Valid()
      ensures backend.db.Snapshot() == VerifyTables(backend.cfg, old(backend.db.Snapshot()), challenge, code, env)
      ensures r == VerifyAnswer(backend.cfg, old(backend.db.Snapshot()), challenge, code, env)
    {
      var limit := Int16(backend.cfg.maxAttempts);
      var reply := backend.db.ConsumeOtpCodeByChallengeID(
        challenge, OtpMac(code), limit, env.consumedAt, env.consumeFault);
      match reply {
        case NoRows =>
          var counted := backend.db.IncreaseOtpAttempts(challenge, limit, env.increasedAt, env.increaseFault);
          r := Err(if counted.Failed? then Internal else ResourceNotFound);
        case OtpRow(_, otp) =>
          r := IssueToken(otp.identifier, env);
        case _ =>
          r := Err(Internal);
      }
    }

    /** What follows once the code is accepted: find the user and store a reset token. */
    method IssueToken(email: string, env: VerifyEnv) returns (r: Result<string>)
      requires backend.db.Valid()
      modifies backend.db
      ensures backend.db.Valid()
      ensures backend.db.Snapshot() == VerifyRestTables(backend.cfg, old(backend.db.Snapshot()), email, env)
      ensures r == TokenAnswer(backend.cfg, old(backend.db.Snapshot()), email, env)
    {
      var reply := backend.db.GetByEmail(email, env.lookupFault);
      match reply {
        case UserRow(u, _) =>
          if env.secret == None {
            return Err(Internal);
          }
          var secret := env.secret.value;
          var saved := backend.db.SavePasswordResetToken(
            env.id, u, ResetMac(secret), env.clock + backend.cfg.resetDuration, env.savedAt, env.saveFault);
          r := if saved.Failed? then Err(Internal) else Ok(secret);
        case NoRows =>
          r := Err(PermissionDenied);
        case _ =>
          r := Err(Internal);
      }
    }
  }
}
