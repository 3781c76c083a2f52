/** The service behind `internal/service/auth.go`. */
module Auth {
  import opened Schema
  import opened Sql
  import opened Database
  import opened UnitOfWork
  import opened Transactions
  import opened Machine
  import opened Recovery
  import opened Calls
  import opened Backends
  import opened RefreshTokens
  import opened OtpCodes

  // --- Answers, as functions of the tables ---

  ghost predicate Authenticates(users: map<Uuid, User>, email: string, password: string) {
    exists u :: IsUser(users, u, email) && CheckPassword(users[u].password, password)
  }

  /** The tokens handed out are those of the session just stored. */
  ghost predicate Handed(cfg: Config, t: Tables, t': Tables, tokens: Tokens, env: SaveEnv) {
    && tokens.refresh == env.id
    && var token := RefreshToken(tokens.subject, env.createdAt, env.clock + cfg.refreshDuration);
      t' == t.(refresh := t.refresh[env.id := token])
  }

  ghost function SaveAnswer(cfg: Config, t: Tables, user: Uuid, env: SaveEnv): Result<Tokens> {
    if SaveSession(cfg, t, user, env).reply.Failed? then Err(Internal) else Ok(Tokens(user, env.id))
  }

  ghost function LoginAnswer(
    cfg: Config, t: Tables, email: string, password: string, lookupFault: bool, signed: bool,
    env: SaveEnv): Result<Tokens>
  {
    match Lookup(t, email, lookupFault)
    case UserRow(u, user) =>
      if !CheckPassword(user.password, password) then Err(Unauthenticated)
      else if signed then SaveAnswer(cfg, t, u, env)
      else Err(Internal)
    case NoRows => Err(Unauthenticated)
    case _ => Err(Internal)
  }

  lemma FreshSessionIsStored(cfg: Config, history: seq<Event>, t: Tables, user: Uuid, env: SaveEnv)
    requires var s := Run(cfg, history); env.id !in s.issued && t.refresh == s.db.refresh && t.users == s.db.users
    requires user in t.users
    ensures var o := SaveSession(cfg, t, user, env);
      if env.fault then o == Outcome(t, Failed(Fault))
      else o.reply == Done && Handed(cfg, t, o.tables, Tokens(user, env.id), env)
  {
    RunIsSound(cfg, history);
  }

  /** A login succeeds exactly with the right password, and then stores a session of that user. */
  lemma LoginAnswersExactly(
    cfg: Config, history: seq<Event>, email: string, password: string, lookupFault: bool, signed: bool, env: SaveEnv)
    requires env.id !in Run(cfg, history).issued
    ensures var t := Run(cfg, history).db;
      var t' := LoginTables(cfg, t, email, password, lookupFault, signed, env);
      var r := LoginAnswer(cfg, t, email, password, lookupFault, signed, env);
      && (r.Ok? <==> !lookupFault && Authenticates(t.users, email, password) && signed && !env.fault)
      && (r == Err(Unauthenticated) <==> !lookupFault && !Authenticates(t.users, email, password))
      && (r == Err(Internal) <==>
            lookupFault || (Authenticates(t.users, email, password) && (!signed || env.fault)))
      && (r.Err? ==> t' == t)
      && (r.Ok? ==> IsUser(t.users, r.value.subject, email) && Handed(cfg, t, t', r.value, env))
  {
    var t := Run(cfg, history).db;
    RunIsSound(cfg, history);
    LookupFindsExactly(t, email, lookupFault);
    LookupFinds(t, email, lookupFault);
    var found := Lookup(t, email, lookupFault);
    if found.UserRow? {
      FreshSessionIsStored(cfg, history, t, found.userId, env);
      assert forall u | IsUser(t.users, u, email) :: u == found.userId;
    }
  }

  ghost function OtpAnswer(
    cfg: Config, t: Tables, email: string, code: string, lookupFault: bool, now: Time, fault: bool, signed: bool,
    env: SaveEnv): Result<Tokens>
  {
    match Lookup(t, email, lookupFault)
    case UserRow(u, _) =>
      var o := Attempt(t, fault, ConsumeOtpCode(t, OtpMac(code), email, now));
      if o.reply.NoRows? then Err(ResourceNotFound)
      else if o.reply.OtpRow? && signed then SaveAnswer(cfg, o.tables, u, env)
      else Err(Internal)
    case NoRows => Err(Unauthenticated)
    case _ => Err(Internal)
  }

  ghost predicate LogsIn(otps: map<Uuid, Otp>, c: Uuid, code: string, email: string, now: Time) {
    c in otps && LoginMatch(otps[c], OtpMac(code), email, now)
  }

  /** Nothing changed if a statement was lost; otherwise the code is gone. */
  ghost predicate Took(t: Tables, t': Tables, code: string, email: string, now: Time, lost: bool) {
    if lost then t' == t else exists c :: LogsIn(t.otps, c, code, email, now) && t' == t.(otps := t.otps - {c})
  }

  /** A login by code succeeds exactly with a live code for the address, and uses that code up. */
  lemma OtpAnswersExactly(
    cfg: Config, history: seq<Event>, email: string, code: string, lookupFault: bool, now: Time, fault: bool,
    signed: bool,
    env: SaveEnv)
    requires env.id !in Run(cfg, history).issued
    ensures var t := Run(cfg, history).db;
      var t' := OtpTables(cfg, t, email, code, lookupFault, now, fault, signed, env);
      var r := OtpAnswer(cfg, t, email, code, lookupFault, now, fault, signed, env);
      && (r.Ok? <==> !lookupFault && !fault && signed && !env.fault && exists c :: LogsIn(t.otps, c, code, email, now))
      && (r == Err(Unauthenticated) <==> !lookupFault && !KnownEmail(t.users, email))
      && (r == Err(ResourceNotFound) <==>
            !lookupFault && KnownEmail(t.users, email) && !fault && !exists c :: LogsIn(t.otps, c, code, email, now))
      && (r.Ok? ==> IsUser(t.users, r.value.subject, email))
      && (r.Ok? ==>
        exists c :: LogsIn(t.otps, c, code, email, now) && Handed(cfg, t.(otps := t.otps - {c}), t', r.value, env))
      && (r == Err(Unauthenticated) || r == Err(ResourceNotFound) ==> t' == t)
      && (r == Err(Internal) <==>
            || lookupFault
            || (KnownEmail(t.users, email) && fault)
            || ((exists c :: LogsIn(t.otps, c, code, email, now)) && (!signed || env.fault)))
      && (r == Err(Internal) ==> Took(t, t', code, email, now, lookupFault || fault))
  {
    var t := Run(cfg, history).db;
    RunIsSound(cfg, history);
    LookupFindsExactly(t, email, lookupFault);
    LookupFinds(t, email, lookupFault);
    LiveCodeHasUser(cfg, history, code, email, now);
    var found := Lookup(t, email, lookupFault);
    var o := ConsumeOtpCode(t, OtpMac(code), email, now);
    assert o.reply.NoRows? ==> forall c :: !LogsIn(t.otps, c, code, email, now);
    if o.reply.OtpRow? {
      assert LogsIn(t.otps, o.reply.otpId, code, email, now);
      if found.UserRow? {
        FreshSessionIsStored(cfg, history, o.tables, found.userId, env);
      }
    }
  }

  lemma LiveCodeHasUser(cfg: Config, history: seq<Event>, code: string, email: string, now: Time)
    ensures (exists c :: LogsIn(Run(cfg, history).db.otps, c, code, email, now)) ==>
      KnownEmail(Run(cfg, history).db.users, email)
  {
    RunIsTraced(cfg, history);
    if c :| LogsIn(Run(cfg, history).db.otps, c, code, email, now) {
      assert IsUser(Run(cfg, history).db.users, LogOf(cfg, history).sent[c].user, email);
    }
  }

  /** A reset succeeds exactly with a token that is stored, unused and not too late. */
  lemma ResetAnswersExactly(t: Tables, secret: string, password: PasswordHash, now: Time, txFault: TxFault)
    requires Constraints(t)
    ensures var t' := ResetTables(t, ResetMac(secret), password, now, txFault);
      if !Strikes(txFault, 3) && exists i :: Usable(t.resets, i, secret, now) then
        exists i :: Usable(t.resets, i, secret, now) && ResetFrom(t, t', i, password, now)
      else t' == t
  {
    var o := ConsumePasswordResetToken(t, ResetMac(secret), now);
    if o.reply.ResetRow? {
      assert Usable(t.resets, o.reply.resetId, secret, now);
      if !Strikes(txFault, 3) {
        assert ResetFrom(t, ResetTables(t, ResetMac(secret), password, now, txFault), o.reply.resetId, password, now);
      }
    }
  }

  ghost predicate Usable(resets: map<Uuid, ResetToken>, i: Uuid, secret: string, now: Time) {
    i in resets && Redeemable(resets[i], ResetMac(secret), now)
  }

  /** The token is used up, its user has the new password and no session, and nothing else changed. */
  ghost predicate ResetFrom(t: Tables, t': Tables, i: Uuid, password: PasswordHash, now: Time)
    requires i in t.resets
  {
    var u := t.resets[i].user;
    && t'.resets == t.resets[i := t.resets[i].(usedAt := Some(now))]
    && u in t.users && t'.users == t.users[u := t.users[u].(password := password)]
    && (forall k | k in t.refresh && t.refresh[k].user != u :: k in t'.refresh && t'.refresh[k] == t.refresh[k])
    && (forall k | k in t'.refresh :: k in t.refresh && t.refresh[k].user != u)
    && t'.otps == t.otps
  }

  /** The transaction fails although the token is valid, or before the token is looked at. */
  predicate ResetBreaks(valid: bool, txFault: TxFault) {
    if valid then Strikes(txFault, 3) else txFault == AtBegin || txFault == AtOperation(0)
  }

  lemma ResetOutcome(t: Tables, secret: string, hash: PasswordHash, now: Time, txFault: TxFault)
    ensures var x := ExecTx(t, ResetWork(ResetMac(secret), hash), now, txFault);
      var valid := exists i :: Usable(t.resets, i, secret, now);
      && x.tables == ResetTables(t, ResetMac(secret), hash, now, txFault)
      && (x.error == None <==> valid && !Strikes(txFault, 3))
      && (x.error == Some(Unauthenticated) <==> txFault != AtBegin && txFault != AtOperation(0) && !valid)
      && (x.error == Some(Internal) <==> ResetBreaks(valid, txFault))
  {
    ResetEffect(t, ResetMac(secret), hash, now, txFault);
    var o := ConsumePasswordResetToken(t, ResetMac(secret), now);
    assert o.reply.ResetRow? ==> Usable(t.resets, o.reply.resetId, secret, now);
  }

  ghost predicate Taken(users: map<Uuid, User>, email: string, username: string) {
    exists u :: u in users && (users[u].email == email || users[u].username == username)
  }

  /** What becomes of a registration whose password could be hashed. */
  lemma RegisterLeaves(t: Tables, id: Uuid, user: User, fault: bool)
    requires id !in t.users
    ensures var o := Attempt(t, fault, SaveUser(t, id, user));
      && (o.reply == Failed(UniqueViolation) <==>
            !fault && |user.email| <= 255 && Taken(t.users, user.email, user.username))
      && (o.reply.Failed? <==> fault || |user.email| > 255 || Taken(t.users, user.email, user.username))
      && (o.tables == if o.reply.Failed? then t else t.(users := t.users[id := user]))
  {
    assert forall u | u in t.users ::
        Clashes(t.users[u], user) <==> t.users[u].email == user.email || t.users[u].username == user.username;
  }

  // --- A call alone is the machine's run of its events ---

  lemma LoginIsCall(
    cfg: Config, history: seq<Event>, call: CallId, email: string, password: string, lookupFault: bool, signed: bool,
    env: SaveEnv)
    requires var s := Run(cfg, history); call !in s.started && env.id !in s.issued
    ensures Run(cfg, history + LoginCall(call, email, password, lookupFault, signed, env)).db
      == LoginTables(cfg, Run(cfg, history).db, email, password, lookupFault, signed, env)
  {
    HistoryGrows(cfg, history, LoginCall(call, email, password, lookupFault, signed, env));
    LoginCallEffect(cfg, Run(cfg, history), call, email, password, lookupFault, signed, env);
  }

  lemma OtpIsCall(
    cfg: Config, history: seq<Event>, call: CallId, email: string, code: string, lookupFault: bool, now: Time,
    fault: bool,
    signed: bool, env: SaveEnv)
    requires var s := Run(cfg, history); call !in s.started && env.id !in s.issued
    ensures Run(cfg, history + OtpCall(call, email, code, lookupFault, now, fault, signed, env)).db
      == OtpTables(cfg, Run(cfg, history).db, email, code, lookupFault, now, fault, signed, env)
  {
    HistoryGrows(cfg, history, OtpCall(call, email, code, lookupFault, now, fault, signed, env));
    OtpCallEffect(cfg, Run(cfg, history), call, email, code, lookupFault, now, fault, signed, env);
  }

  lemma ResetTakes(cfg: Config, s: Sys, secret: string, password: string, salt: nat, now: Time, txFault: TxFault)
    ensures Step(cfg, s, Event.Reset(secret, password, salt, now, txFault)).db
      == ResetTables(s.db, ResetMac(secret), Bcrypt(salt, password), now, txFault)
  {
  }

  lemma ResetIsStep(
    cfg: Config, history: seq<Event>, secret: string, password: string, salt: nat, now: Time, txFault: TxFault)
    ensures Run(cfg, history + [Event.Reset(secret, password, salt, now, txFault)]).db
      == ResetTables(Run(cfg, history).db, ResetMac(secret), Bcrypt(salt, password), now, txFault)
  {
    HistoryGrowsByOne(cfg, history, Event.Reset(secret, password, salt, now, txFault));
    ResetTakes(cfg, Run(cfg, history), secret, password, salt, now, txFault);
  }

  lemma RegisterIsStep(
    cfg: Config, history: seq<Event>, id: Uuid, email: string, username: string, password: string, salt: Option<nat>,
    fault: bool)
    requires id !in Run(cfg, history).issued
    ensures var t := Run(cfg, history).db;
      && Run(cfg, history + [Event.Register(id, email, username, password, salt, fault)]).db == (
           if salt == None then t
           else Attempt(t, fault, SaveUser(t, id, User(email, Bcrypt(salt.value, password), username))).tables)
      && id !in t.users
  {
    HistoryGrowsByOne(cfg, history, Event.Register(id, email, username, password, salt, fault));
  }

  /** The user that a registration is asked to store; `RegisterUser` fills in the rest in place. */
  class Account {
    var id: Option<Uuid>
    const email: string
    const username: string
    var password: string

    constructor (email: string, username: string, password: string)
      ensures this.email == email && this.username == username && this.password == password && id == None
    {
      this.email, this.username, this.password, id := email, username, password, None;
    }
  }

  class AuthService {
    const backend: Backend
    const refreshTokens: RefreshTokenService
    const otps: OtpService
    const textOf: PasswordHash -> string   // the text form of a hash, whatever it is

    constructor (backend: Backend, refreshTokens: RefreshTokenService, otps: OtpService, textOf: PasswordHash -> string)
      requires refreshTokens.backend == backend && otps.backend == backend
      ensures this.backend == backend && this.textOf == textOf && Wired()
    {
      this.backend, this.refreshTokens, this.otps, this.textOf := backend, refreshTokens, otps, textOf;
    }

    predicate Wired() {
      refreshTokens.backend == backend && otps.backend == backend
    }

    /** `salt` is None when hashing fails. */
    method RegisterUser(user: Account, id: Uuid, salt: Option<nat>, fault: bool) returns (r: Result<()>)
      requires backend.Valid() && id !in backend.State().issued
      modifies backend, backend.db, user
      ensures backend.Valid()
      ensures backend.history == old(backend.history) +
        [Event.Register(id, user.email, user.username, old(user.password), salt, fault)]
      ensures user.id == Some(id)
      ensures user.password ==
        if salt == None then old(user.password) else textOf(Bcrypt(salt.value, old(user.password)))
      ensures r == Err(AlreadyExists) <==>
        salt.Some? && !fault && |user.email| <= 255 && Taken(old(backend.db.users), user.email, user.username)
      ensures r.Ok? <==>
        salt.Some? && !fault && |user.email| <= 255 && !Taken(old(backend.db.users), user.email, user.username)
      ensures r == Err(Internal) <==> salt == None || fault || |user.email| > 255
      ensures backend.db.Snapshot() ==
        if r.Ok? then
          old(backend.db.Snapshot()).(users :=
            old(backend.db.users)[id := User(user.email, Bcrypt(salt.value, old(user.password)), user.username)])
        else old(backend.db.Snapshot())
    {
      ghost var text := user.password;
      RegisterIsStep(backend.cfg, backend.history, id, user.email, user.username, text, salt, fault);
      user.id := Some(id);
      if salt == None {
        backend.Record([Event.Register(id, user.email, user.username, text, salt, fault)]);
        return Err(Internal);
      }
      var hash := Bcrypt(salt.value, user.password);
      user.password := textOf(hash);
      RegisterLeaves(backend.db.Snapshot(), id, User(user.email, hash, user.username), fault);
      var reply := backend.db.SaveUser(id, User(user.email, hash, user.username), fault);
      backend.Record([Event.Register(id, user.email, user.username, text, salt, fault)]);
      if reply == Failed(UniqueViolation) {
        return Err(AlreadyExists);
      }
      if reply.Failed? {
        return Err(Internal);
      }
      r := Ok(());
    }

    method Login(
      ghost call: CallId, email: string, password: string, lookupFault: bool, signed: bool, env: SaveEnv)
      returns (r: Result<Tokens>)
      requires backend.Valid() && Wired()
      requires call !in backend.State().started && env.id !in backend.State().issued
      modifies backend, backend.db
      ensures backend.Valid()
      ensures backend.history == old(backend.history) + LoginCall(call, email, password, lookupFault, signed, env)
      ensures var t, t' := old(backend.db.Snapshot()), backend.db.Snapshot();
        && (r.Ok? <==> !lookupFault && Authenticates(t.users, email, password) && signed && !env.fault)
        && (r == Err(Unauthenticated) <==> !lookupFault && !Authenticates(t.users, email, password))
        && (r == Err(Internal) <==>
              lookupFault || (Authenticates(t.users, email, password) && (!signed || env.fault)))
        && (r.Err? ==> t' == t)
        && (r.Ok? ==> IsUser(t.users, r.value.subject, email) && Handed(backend.cfg, t, t', r.value, env))
    {
      LoginIsCall(backend.cfg, backend.history, call, email, password, lookupFault, signed, env);
      LoginAnswersExactly(backend.cfg, backend.history, email, password, lookupFault, signed, env);
      r := CheckAndOpen(email, password, lookupFault, signed, env);
      backend.Record(LoginCall(call, email, password, lookupFault, signed, env));
    }

    /** The statements of `Login`. */
    method CheckAndOpen(email: string, password: string, lookupFault: bool, signed: bool, env: SaveEnv)
      returns (r: Result<Tokens>)
      requires backend.db.Valid() && Wired()
      modifies backend.db
      ensures backend.db.Valid()
      ensures backend.db.Snapshot() ==
        LoginTables(backend.cfg, old(backend.db.Snapshot()), email, password, lookupFault, signed, env)
      ensures r == LoginAnswer(backend.cfg, old(backend.db.Snapshot()), email, password, lookupFault, signed, env)
    {
      var reply := backend.db.GetByEmail(email, lookupFault);
      match reply {
        case UserRow(u, user) =>
          if !CheckPassword(user.password, password) {
            return Err(Unauthenticated);
          }
          if !signed {
            return Err(Internal);
          }
          r := OpenSession(u, env);
        case NoRows =>
          r := Err(Unauthenticated);
        case _ =>
          r := Err(Internal);
      }
    }

    method OpenSession(user: Uuid, env: SaveEnv) returns (r: Result<Tokens>)
      requires backend.db.Valid() && Wired()
      modifies backend.db
      ensures backend.db.Valid()
      ensures backend.db.Snapshot() == SaveSession(backend.cfg, old(backend.db.Snapshot()), user, env).tables
      ensures r == SaveAnswer(backend.cfg, old(backend.db.Snapshot()), user, env)
    {
      var token := refreshTokens.GenerateRefreshToken(user, env);
      match token {
        case Ok(id) => r := Ok(Tokens(user, id));
        case Err(error) => r := Err(error);
      }
    }

    method LoginWithOtp(
      ghost call: CallId, email: string, code: string, lookupFault: bool, now: Time, fault: bool, signed: bool,
      env: SaveEnv)
      returns (r: Result<Tokens>)
      requires backend.Valid() && Wired()
      requires call !in backend.State().started && env.id !in backend.State().issued
      modifies backend, backend.db
      ensures backend.Valid()
      ensures backend.history == old(backend.history) + OtpCall(call, email, code, lookupFault, now, fault, signed, env)
      ensures var t, t' := old(backend.db.Snapshot()), backend.db.Snapshot();
        && (r.Ok? <==>
              !lookupFault && !fault && signed && !env.fault && exists c :: LogsIn(t.otps, c, code, email, now))
        && (r == Err(Unauthenticated) <==> !lookupFault && !KnownEmail(t.users, email))
        && (r == Err(ResourceNotFound) <==>
              !lookupFault && KnownEmail(t.users, email) && !fault && !exists c :: LogsIn(t.otps, c, code, email, now))
        && (r.Ok? ==> IsUser(t.users, r.value.subject, email))
        && (r.Ok? ==>
              exists c :: LogsIn(t.otps, c, code, email, now)
                && Handed(backend.cfg, t.(otps := t.otps - {c}), t', r.value, env))
        && (r == Err(Unauthenticated) || r == Err(ResourceNotFound) ==> t' == t)
        && (r == Err(Internal) <==>
              || lookupFault
              || (KnownEmail(t.users, email) && fault)
              || ((exists c :: LogsIn(t.otps, c, code, email, now)) && (!signed || env.fault)))
        && (r == Err(Internal) ==> Took(t, t', code, email, now, lookupFault || fault))
    {
      OtpIsCall(backend.cfg, backend.history, call, email, code, lookupFault, now, fault, signed, env);
      OtpAnswersExactly(backend.cfg, backend.history, email, code, lookupFault, now, fault, signed, env);
      r := VerifyAndOpen(email, code, lookupFault, now, fault, signed, env);
      backend.Record(OtpCall(call, email, code, lookupFault, now, fault, signed, env));
    }

    /** The statements of `LoginWithOtp`. */
    method VerifyAndOpen(
      email: string, code: string, lookupFault: bool, now: Time, fault: bool, signed: bool, env: SaveEnv)
      returns (r: Result<Tokens>)
      requires backend.db.Valid() && Wired()
      modifies backend.db
      ensures backend.db.Valid()
      ensures backend.db.Snapshot() ==
        OtpTables(backend.cfg, old(backend.db.Snapshot()), email, code, lookupFault, now, fault, signed, env)
      ensures r == OtpAnswer(backend.cfg, old(backend.db.Snapshot()), email, code, lookupFault, now, fault, signed, env)
    {
      var reply := backend.db.GetByEmail(email, lookupFault);
      match reply {
        case UserRow(u, _) =>
          var verified := otps.VerifyLoginCode(code, email, now, fault);
          if verified.Err? {
            return Err(verified.error);
          }
          if !signed {
            return Err(Internal);
          }
          r := OpenSession(u, env);
        case NoRows =>
          r := Err(Unauthenticated);
        case _ =>
          r := Err(Internal);
      }
    }

    /** `salt` is None when hashing fails. */
    method ResetPassword(secret: string, password: string, salt: Option<nat>, now: Time, txFault: TxFault)
      returns (r: Result<()>)
      requires backend.Valid()
      modifies backend, backend.db
      ensures backend.Valid()
      ensures backend.history == old(backend.history) +
        if salt == None then [] else [Event.Reset(secret, password, salt.value, now, txFault)]
      ensures var t, t' := old(backend.db.Snapshot()), backend.db.Snapshot();
        var valid := exists i :: Usable(t.resets, i, secret, now);
        && (r.Ok? <==> salt.Some? && !Strikes(txFault, 3) && valid)
        && (r == Err(Unauthenticated) <==> salt.Some? && txFault != AtBegin && txFault != AtOperation(0) && !valid)
        && (r == Err(Internal) <==> salt == None || ResetBreaks(valid, txFault))
        && (r.Err? ==> t' == t)
        && (r.Ok? ==>
          exists i :: Usable(t.resets, i, secret, now) && ResetFrom(t, t', i, Bcrypt(salt.value, password), now))
    {
      if salt == None {
        return Err(Internal);
      }
      ghost var t := backend.db.Snapshot();
      var hash := Bcrypt(salt.value, password);
      ResetIsStep(backend.cfg, backend.history, secret, password, salt.value, now, txFault);
      ResetAnswersExactly(t, secret, hash, now, txFault);
      r := Redeem(secret, hash, now, txFault);
      backend.Record([Event.Reset(secret, password, salt.value, now, txFault)]);
    }

    /** The transaction of `ResetPassword`. */
    method Redeem(secret: string, hash: PasswordHash, now: Time, txFault: TxFault) returns (r: Result<()>)
      requires backend.unitOfWork.db == backend.db && backend.db.Valid()
      modifies backend.db
      ensures backend.db.Valid()
      ensures var t := old(backend.db.Snapshot());
        var valid := exists i :: Usable(t.resets, i, secret, now);
        && backend.db.Snapshot() == ResetTables(t, ResetMac(secret), hash, now, txFault)
        && (r.Ok? <==> valid && !Strikes(txFault, 3))
        && (r == Err(Unauthenticated) <==> txFault != AtBegin && txFault != AtOperation(0) && !valid)
        && (r == Err(Internal) <==> ResetBreaks(valid, txFault))
    {
      ResetOutcome(backend.db.Snapshot(), secret, hash, now, txFault);
      var error, _ := backend.unitOfWork.Exec(ResetWork(ResetMac(secret), hash), now, txFault);
      r := if error.Some? then Err(error.value) else Ok(());
    }
  }
}
