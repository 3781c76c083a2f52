/**
  * The events that each call of the service's interface consists of when nothing falls in
  * between, and their effect on the tables. An event that the call does not reach, because an
  * earlier one ended it, is not legal and so not taken.
  */
module Calls {
  import opened Schema
  import opened Sql
  import opened Database
  import opened UnitOfWork
  import opened Transactions
  import opened Machine
  import opened Recovery

  // What the environment decides in the course of a call.

  /** Storing a session. */
  datatype SaveEnv = SaveEnv(id: Uuid, createdAt: Time, clock: Time, fault: bool)

  /** `draw` is the random number, if the generator works; `mailed` says whether the mail went out. */
  datatype SendEnv = SendEnv(
    challenge: Uuid, lookupFault: bool, draw: Option<nat>, mailed: bool,
    createdAt: Time, clock: Time, now: Time, txFault: TxFault)

  /** `secret` is the reset token, if the generator works. */
  datatype VerifyEnv = VerifyEnv(
    consumedAt: Time, consumeFault: bool, increasedAt: Time, increaseFault: bool, lookupFault: bool,
    secret: Option<string>, id: Uuid, clock: Time, savedAt: Time, saveFault: bool)

  function LoginCall(
    call: CallId, email: string, password: string, lookupFault: bool, signed: bool, env: SaveEnv): seq<Event>
  {
    [ LoginLookup(call, email, password, lookupFault),
      if signed then LoginSave(call, env.id, env.createdAt, env.clock, env.fault) else Abandon(call) ]
  }

  function OtpCall(
    call: CallId, email: string, code: string, lookupFault: bool, now: Time, fault: bool, signed: bool,
    env: SaveEnv): seq<Event>
  {
    [ OtpLookup(call, email, code, lookupFault),
      OtpConsume(call, now, fault),
      if signed then OtpSave(call, env.id, env.createdAt, env.clock, env.fault) else Abandon(call) ]
  }

  function SendCall(call: CallId, email: string, env: SendEnv): seq<Event> {
    if env.draw.Some? && env.mailed then
      [ SendLookup(call, env.challenge, email, env.lookupFault),
        SendMail(call, env.draw.value),
        SendStore(call, env.createdAt, env.clock, env.txFault) ]
    else
      [ SendLookup(call, env.challenge, email, env.lookupFault), Abandon(call) ]
  }

  function VerifyCall(call: CallId, challenge: Uuid, code: string, env: VerifyEnv): seq<Event> {
    [ VerifyBegin(call, challenge, code),
      VerifyConsume(call, env.consumedAt, env.consumeFault),
      VerifyIncrease(call, env.increasedAt, env.increaseFault) ] + VerifyRest(call, env)
  }

  function VerifyRest(call: CallId, env: VerifyEnv): seq<Event> {
    [ VerifyLookup(call, env.lookupFault),
      if env.secret.Some? then VerifySave(call, env.id, env.secret.value, env.clock, env.savedAt, env.saveFault)
      else Abandon(call) ]
  }

  // --- Their effects ---

  ghost function SaveSession(cfg: Config, t: Tables, user: Uuid, env: SaveEnv): Outcome {
    var token := RefreshToken(user, env.createdAt, env.clock + cfg.refreshDuration);
    Attempt(t, env.fault, SaveRefreshToken(t, env.id, token))
  }

  lemma RunOne(cfg: Config, s: Sys, a: Event)
    ensures RunFrom(cfg, s, [a]) == Step(cfg, s, a)
  {
    assert [a][..0] == [];
  }

  lemma RunTwo(cfg: Config, s: Sys, a: Event, b: Event)
    ensures RunFrom(cfg, s, [a, b]) == Step(cfg, Step(cfg, s, a), b)
  {
    RunOne(cfg, s, a);
    assert [a, b][..1] == [a];
  }

  lemma RunThree(cfg: Config, s: Sys, a: Event, b: Event, c: Event)
    ensures RunFrom(cfg, s, [a, b, c]) == Step(cfg, Step(cfg, Step(cfg, s, a), b), c)
  {
    RunTwo(cfg, s, a, b);
    assert [a, b, c][..2] == [a, b];
  }

  /** A call that is not in flight takes no further event. */
  lemma EndedCallIsStill(cfg: Config, s: Sys, e: Event)
    requires CallOf(e).Some? && CallOf(e).value !in s.calls && CallOf(e).value in s.started
    ensures Step(cfg, s, e) == s
  {
  }

  lemma AbandonEnds(cfg: Config, s: Sys, call: CallId)
    ensures Step(cfg, s, Abandon(call)).db == s.db
  {
  }

  lemma SavingEffect(cfg: Config, s: Sys, call: CallId, user: Uuid, env: SaveEnv, byCode: bool)
    requires call in s.calls && env.id !in s.issued
    requires
      if byCode then s.calls[call].OtpSaving? && s.calls[call].user == user
      else s.calls[call] == LoginSaving(user)
    ensures Step(cfg, s, if byCode then OtpSave(call, env.id, env.createdAt, env.clock, env.fault)
                         else LoginSave(call, env.id, env.createdAt, env.clock, env.fault)).db
      == SaveSession(cfg, s.db, user, env).tables
  {
  }

  ghost function LoginTables(
    cfg: Config, t: Tables, email: string, password: string, lookupFault: bool, signed: bool, env: SaveEnv): Tables
  {
    match Lookup(t, email, lookupFault)
    case UserRow(u, user) =>
      if CheckPassword(user.password, password) && signed then SaveSession(cfg, t, u, env).tables else t
    case _ => t
  }

  lemma LoginCallEffect(
    cfg: Config, s: Sys, call: CallId, email: string, password: string, lookupFault: bool, signed: bool, env: SaveEnv)
    requires call !in s.started && s.calls.Keys <= s.started && env.id !in s.issued
    ensures RunFrom(cfg, s, LoginCall(call, email, password, lookupFault, signed, env)).db
      == LoginTables(cfg, s.db, email, password, lookupFault, signed, env)
  {
    var e := LoginLookup(call, email, password, lookupFault);
    var s' := Step(cfg, s, e);
    var trace := LoginCall(call, email, password, lookupFault, signed, env);
    RunTwo(cfg, s, trace[0], trace[1]);
    assert s' == LoginLookedUp(s, call, email, password, lookupFault);
    if call !in s'.calls {
      EndedCallIsStill(cfg, s', trace[1]);
    } else if signed {
      SavingEffect(cfg, s', call, s'.calls[call].user, env, false);
    } else {
      AbandonEnds(cfg, s', call);
    }
  }

  ghost function OtpTables(
    cfg: Config, t: Tables, email: string, code: string, lookupFault: bool, now: Time, fault: bool, signed: bool,
    env: SaveEnv): Tables
  {
    match Lookup(t, email, lookupFault)
    case UserRow(u, _) =>
      var o := Attempt(t, fault, ConsumeOtpCode(t, OtpMac(code), email, now));
      if o.reply.OtpRow? && signed then SaveSession(cfg, o.tables, u, env).tables else o.tables
    case _ => t
  }

  lemma OtpConsumingEffect(
    cfg: Config, s: Sys, call: CallId, user: Uuid, email: string, code: string, now: Time, fault: bool)
    requires call in s.calls && s.calls[call] == OtpConsuming(user, email, code)
    ensures var o := Attempt(s.db, fault, ConsumeOtpCode(s.db, OtpMac(code), email, now));
      Step(cfg, s, OtpConsume(call, now, fault)) ==
        if o.reply.OtpRow? then Continue(s, call, OtpSaving(user, o.reply.otpId)).(db := o.tables)
        else End(s, call)
  {
  }

  lemma OtpRestEffect(
    cfg: Config, s: Sys, call: CallId, user: Uuid, email: string, code: string, now: Time, fault: bool, signed: bool,
    env: SaveEnv)
    requires call in s.calls && s.calls[call] == OtpConsuming(user, email, code)
    requires call in s.started && env.id !in s.issued
    ensures var o := Attempt(s.db, fault, ConsumeOtpCode(s.db, OtpMac(code), email, now));
      var e := if signed then OtpSave(call, env.id, env.createdAt, env.clock, env.fault) else Abandon(call);
      Step(cfg, Step(cfg, s, OtpConsume(call, now, fault)), e).db ==
        if o.reply.OtpRow? && signed then SaveSession(cfg, o.tables, user, env).tables else o.tables
  {
    OtpConsumingEffect(cfg, s, call, user, email, code, now, fault);
    var s' := Step(cfg, s, OtpConsume(call, now, fault));
    if call !in s'.calls {
      EndedCallIsStill(cfg, s',
        if signed then OtpSave(call, env.id, env.createdAt, env.clock, env.fault) else Abandon(call));
    } else if signed {
      SavingEffect(cfg, s', call, user, env, true);
    } else {
      AbandonEnds(cfg, s', call);
    }
  }

  lemma OtpCallEffect(
    cfg: Config, s: Sys, call: CallId, email: string, code: string, lookupFault: bool, now: Time, fault: bool,
    signed: bool,
    env: SaveEnv)
    requires call !in s.started && s.calls.Keys <= s.started && env.id !in s.issued
    ensures RunFrom(cfg, s, OtpCall(call, email, code, lookupFault, now, fault, signed, env)).db
      == OtpTables(cfg, s.db, email, code, lookupFault, now, fault, signed, env)
  {
    var trace := OtpCall(call, email, code, lookupFault, now, fault, signed, env);
    var s' := Step(cfg, s, trace[0]);
    RunThree(cfg, s, trace[0], trace[1], trace[2]);
    assert s' == OtpLookedUp(s, call, email, code, lookupFault);
    if call in s'.calls {
      OtpRestEffect(cfg, s', call, s'.calls[call].user, email, code, now, fault, signed, env);
    } else {
      EndedCallIsStill(cfg, s', trace[1]);
      EndedCallIsStill(cfg, s', trace[2]);
    }
  }

  ghost function SendCallTables(cfg: Config, t: Tables, email: string, env: SendEnv): Tables {
    match Lookup(t, email, env.lookupFault)
    case UserRow(u, user) =>
      if env.draw.Some? && env.mailed then
        var otp := NewOtp(cfg, user.email, Codes.FormatCode(env.draw.value), env.createdAt, env.clock);
        SendTables(t, env.challenge, otp, env.txFault)
      else t
    case _ => t
  }

  lemma SendRestEffect(cfg: Config, s: Sys, call: CallId, challenge: Uuid, user: Uuid, email: string, env: SendEnv)
    requires call in s.calls && s.calls[call] == SendMailing(challenge, user, email)
    requires env.draw.Some? && env.draw.value < cfg.maxValue
    ensures var otp := NewOtp(cfg, email, Codes.FormatCode(env.draw.value), env.createdAt, env.clock);
      Step(cfg, Step(cfg, s, SendMail(call, env.draw.value)), SendStore(call, env.createdAt, env.clock, env.txFault)).db
        == SendTables(s.db, challenge, otp, env.txFault)
  {
    var s' := Step(cfg, s, SendMail(call, env.draw.value));
    assert s' == Continue(s, call, SendStoring(challenge, user, email, Codes.FormatCode(env.draw.value)));
    SendStoreView(cfg, s', SendStore(call, env.createdAt, env.clock, env.txFault));
  }

  lemma SendCallEffect(cfg: Config, s: Sys, call: CallId, email: string, env: SendEnv)
    requires call !in s.started && s.calls.Keys <= s.started && env.challenge !in s.issued
    requires env.draw.Some? ==> env.draw.value < cfg.maxValue
    ensures RunFrom(cfg, s, SendCall(call, email, env)).db == SendCallTables(cfg, s.db, email, env)
  {
    var trace := SendCall(call, email, env);
    var s' := Step(cfg, s, trace[0]);
    assert s' == SendLookedUp(s, call, env.challenge, email, env.lookupFault);
    if env.draw.Some? && env.mailed {
      RunThree(cfg, s, trace[0], trace[1], trace[2]);
      if call in s'.calls {
        SendRestEffect(cfg, s', call, env.challenge, s'.calls[call].user, s'.calls[call].email, env);
      } else {
        EndedCallIsStill(cfg, s', trace[1]);
        EndedCallIsStill(cfg, s', trace[2]);
      }
    } else {
      RunTwo(cfg, s, trace[0], trace[1]);
      AbandonEnds(cfg, s', call);
    }
  }

  ghost function SaveReset(cfg: Config, t: Tables, user: Uuid, secret: string, env: VerifyEnv): Outcome {
    var expiresAt := env.clock + cfg.resetDuration;
    Attempt(t, env.saveFault, SavePasswordResetToken(t, env.id, user, ResetMac(secret), expiresAt, env.savedAt))
  }

  ghost function VerifyRestTables(cfg: Config, t: Tables, email: string, env: VerifyEnv): Tables {
    match Lookup(t, email, env.lookupFault)
    case UserRow(u, _) => if env.secret.Some? then SaveReset(cfg, t, u, env.secret.value, env).tables else t
    case _ => t
  }

  ghost function Consumption(cfg: Config, t: Tables, challenge: Uuid, code: string, env: VerifyEnv): Outcome {
    Attempt(t, env.consumeFault,
      ConsumeOtpCodeByChallengeID(t, challenge, OtpMac(code), cfg.AttemptLimit(), env.consumedAt))
  }

  ghost function Increase(cfg: Config, t: Tables, challenge: Uuid, env: VerifyEnv): Outcome {
    Attempt(t, env.increaseFault, IncreaseOtpAttempts(t, challenge, cfg.AttemptLimit(), env.increasedAt))
  }

  ghost function VerifyTables(cfg: Config, t: Tables, challenge: Uuid, code: string, env: VerifyEnv): Tables {
    var o := Consumption(cfg, t, challenge, code, env);
    match o.reply
    case OtpRow(_, otp) => VerifyRestTables(cfg, o.tables, otp.identifier, env)
    case NoRows => Increase(cfg, t, challenge, env).tables
    case _ => t
  }

  lemma VerifyingRestEffect(cfg: Config, s: Sys, call: CallId, challenge: Uuid, email: string, env: VerifyEnv)
    requires call in s.calls && s.calls[call] == VerifyLooking(challenge, email) && call in s.started
    requires env.id !in s.issued && (env.secret.Some? ==> env.secret.value !in s.secrets)
    ensures RunFrom(cfg, s, VerifyRest(call, env)).db == VerifyRestTables(cfg, s.db, email, env)
  {
    var trace := VerifyRest(call, env);
    var s' := Step(cfg, s, trace[0]);
    RunTwo(cfg, s, trace[0], trace[1]);
    assert s' == VerifyLookedUp(s, call, challenge, email, env.lookupFault);
    if call !in s'.calls {
      EndedCallIsStill(cfg, s', trace[1]);
    } else if env.secret.Some? {
      SavingResetEffect(cfg, s', call, challenge, s'.calls[call].user, env);
    } else {
      AbandonEnds(cfg, s', call);
    }
  }

  lemma SavingResetEffect(cfg: Config, s: Sys, call: CallId, challenge: Uuid, user: Uuid, env: VerifyEnv)
    requires call in s.calls && s.calls[call] == VerifySaving(challenge, user)
    requires env.id !in s.issued && env.secret.Some? && env.secret.value !in s.secrets
    ensures Step(cfg, s, VerifySave(call, env.id, env.secret.value, env.clock, env.savedAt, env.saveFault)).db
      == SaveReset(cfg, s.db, user, env.secret.value, env).tables
  {
  }

  lemma EndedRestIsStill(cfg: Config, s: Sys, call: CallId, env: VerifyEnv)
    requires call !in s.calls && call in s.started
    ensures RunFrom(cfg, s, VerifyRest(call, env)) == s
  {
    var trace := VerifyRest(call, env);
    RunTwo(cfg, s, trace[0], trace[1]);
    EndedCallIsStill(cfg, s, trace[0]);
    EndedCallIsStill(cfg, s, trace[1]);
  }

  lemma VerifyingEffect(cfg: Config, s: Sys, call: CallId, challenge: Uuid, code: string, env: VerifyEnv)
    requires call in s.calls && s.calls[call] == VerifyConsuming(challenge, code)
    ensures var o := Consumption(cfg, s.db, challenge, code, env);
      var s' := Step(cfg, s, VerifyConsume(call, env.consumedAt, env.consumeFault));
      match o.reply
      case OtpRow(_, otp) => s' == Continue(s, call, VerifyLooking(challenge, otp.identifier)).(db := o.tables)
      case NoRows => s' == Continue(s, call, VerifyIncreasing(challenge))
      case _ => s' == End(s, call)
  {
  }

  lemma IncreasingEffect(cfg: Config, s: Sys, call: CallId, challenge: Uuid, env: VerifyEnv)
    requires call in s.calls
    ensures var s' := Step(cfg, s, VerifyIncrease(call, env.increasedAt, env.increaseFault));
      && (s.calls[call] == VerifyIncreasing(challenge) ==>
        s' == End(s, call).(db := Increase(cfg, s.db, challenge, env).tables))
      && (!s.calls[call].VerifyIncreasing? ==> s' == s)
  {
  }

  lemma VerifyCallEffect(cfg: Config, s: Sys, call: CallId, challenge: Uuid, code: string, env: VerifyEnv)
    requires call !in s.started && s.calls.Keys <= s.started
    requires env.id !in s.issued && (env.secret.Some? ==> env.secret.value !in s.secrets)
    ensures RunFrom(cfg, s, VerifyCall(call, challenge, code, env)).db == VerifyTables(cfg, s.db, challenge, code, env)
  {
    var a, b, c := VerifyBegin(call, challenge, code), VerifyConsume(call, env.consumedAt, env.consumeFault),
      VerifyIncrease(call, env.increasedAt, env.increaseFault);
    RunAppend(cfg, s, [a, b, c], VerifyRest(call, env));
    RunThree(cfg, s, a, b, c);
    var s1 := Step(cfg, s, a);
    assert s1 == Continue(Begin(s, call), call, VerifyConsuming(challenge, code));
    VerifyingMiddle(cfg, s1, call, challenge, code, env);
  }

  lemma VerifyingMiddle(cfg: Config, s: Sys, call: CallId, challenge: Uuid, code: string, env: VerifyEnv)
    requires call in s.calls && s.calls[call] == VerifyConsuming(challenge, code) && call in s.started
    requires env.id !in s.issued && (env.secret.Some? ==> env.secret.value !in s.secrets)
    ensures var s2 := Step(cfg, s, VerifyConsume(call, env.consumedAt, env.consumeFault));
      var s3 := Step(cfg, s2, VerifyIncrease(call, env.increasedAt, env.increaseFault));
      RunFrom(cfg, s3, VerifyRest(call, env)).db == VerifyTables(cfg, s.db, challenge, code, env)
  {
    VerifyingEffect(cfg, s, call, challenge, code, env);
    var s2 := Step(cfg, s, VerifyConsume(call, env.consumedAt, env.consumeFault));
    if call !in s2.calls {
      EndedCallIsStill(cfg, s2, VerifyIncrease(call, env.increasedAt, env.increaseFault));
      EndedRestIsStill(cfg, s2, call, env);
    } else {
      IncreasingEffect(cfg, s2, call, challenge, env);
      if s2.calls[call].VerifyIncreasing? {
        EndedRestIsStill(cfg, Step(cfg, s2, VerifyIncrease(call, env.increasedAt, env.increaseFault)), call, env);
      } else {
        VerifyingRestEffect(cfg, s2, call, challenge, s2.calls[call].email, env);
      }
    }
  }
}
