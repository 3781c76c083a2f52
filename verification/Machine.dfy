/**
  * The service as one state machine. Every transaction and every statement outside a transaction
  * is one atomic step; a call that needs several of them stays in flight in between, so that
  * steps of other calls may fall anywhere. Everything the environment decides (clock readings,
  * fresh identifiers, drawn numbers, failures) is carried by the event.
  */
module Machine {
  import opened Schema
  import opened Sql
  import opened Database
  import opened UnitOfWork
  import opened Transactions
  import Codes

  datatype Config = Config(
    refreshDuration: int,
    resetDuration: int,
    otpDuration: int,
    maxValue: int,
    maxAttempts: int
  ) {
    /** The limit that reaches the database. */
    function AttemptLimit(): int {
      Int16(maxAttempts)
    }
  }

  type CallId = nat

  /** What a call in flight does next, and what it has learnt so far. */
  datatype Frame =
    | LoginSaving(user: Uuid)
    | OtpConsuming(user: Uuid, email: string, code: string)
    | OtpSaving(user: Uuid, challenge: Uuid)
    | SendMailing(challenge: Uuid, user: Uuid, email: string)
    | SendStoring(challenge: Uuid, user: Uuid, email: string, code: string)
    | VerifyConsuming(challenge: Uuid, code: string)
    | VerifyIncreasing(challenge: Uuid)
    | VerifyLooking(challenge: Uuid, email: string)
    | VerifySaving(challenge: Uuid, user: Uuid)

  datatype Sys = Sys(
    db: Tables,
    issued: set<Uuid>,         // identifiers drawn so far
    secrets: set<string>,      // reset tokens drawn so far
    started: set<CallId>,      // calls that have begun
    calls: map<CallId, Frame>  // calls in flight
  )

  const INIT := Sys(EMPTY_TABLES, {}, {}, {}, map[])

  datatype Event =
    | Register(id: Uuid, email: string, username: string, password: string, salted: Option<nat>, fault: bool)
    | LoginLookup(call: CallId, email: string, password: string, fault: bool)
    | LoginSave(call: CallId, id: Uuid, createdAt: Time, clock: Time, fault: bool)
    | OtpLookup(call: CallId, email: string, code: string, fault: bool)
    | OtpConsume(call: CallId, now: Time, fault: bool)
    | OtpSave(call: CallId, id: Uuid, createdAt: Time, clock: Time, fault: bool)
    | SendLookup(call: CallId, challenge: Uuid, email: string, fault: bool)
    | SendMail(call: CallId, draw: nat)
    | SendStore(call: CallId, createdAt: Time, clock: Time, txFault: TxFault)
    | VerifyBegin(call: CallId, challenge: Uuid, code: string)
    | VerifyConsume(call: CallId, now: Time, fault: bool)
    | VerifyIncrease(call: CallId, now: Time, fault: bool)
    | VerifyLookup(call: CallId, fault: bool)
    | VerifySave(call: CallId, id: Uuid, secret: string, clock: Time, now: Time, fault: bool)
    | Refresh(id: Uuid, newId: Uuid, createdAt: Time, clock: Time, signed: bool, now: Time, txFault: TxFault)
    | Revoke(id: Uuid, fault: bool)
    | Reset(secret: string, password: string, salt: nat, now: Time, txFault: TxFault)
    | Abandon(call: CallId)   // a call ends early: mail or signing failed, client gone, process died

  /** The call is where the event continues it, and drawn values have never been drawn before. */
  predicate Legal(cfg: Config, s: Sys, e: Event) {
    match e
    case Register(id, _, _, _, _, _) => id !in s.issued
    case LoginLookup(call, _, _, _) => call !in s.started
    case LoginSave(call, id, _, _, _) => call in s.calls && s.calls[call].LoginSaving? && id !in s.issued
    case OtpLookup(call, _, _, _) => call !in s.started
    case OtpConsume(call, _, _) => call in s.calls && s.calls[call].OtpConsuming?
    case OtpSave(call, id, _, _, _) => call in s.calls && s.calls[call].OtpSaving? && id !in s.issued
    case SendLookup(call, challenge, _, _) => call !in s.started && challenge !in s.issued
    case SendMail(call, draw) => call in s.calls && s.calls[call].SendMailing? && draw < cfg.maxValue
    case SendStore(call, _, _, _) => call in s.calls && s.calls[call].SendStoring?
    case VerifyBegin(call, _, _) => call !in s.started
    case VerifyConsume(call, _, _) => call in s.calls && s.calls[call].VerifyConsuming?
    case VerifyIncrease(call, _, _) => call in s.calls && s.calls[call].VerifyIncreasing?
    case VerifyLookup(call, _) => call in s.calls && s.calls[call].VerifyLooking?
    case VerifySave(call, id, secret, _, _, _) =>
      call in s.calls && s.calls[call].VerifySaving? && id !in s.issued && secret !in s.secrets
    case Refresh(_, newId, _, _, _, _, _) => newId !in s.issued
    case Revoke(_, _) => true
    case Reset(_, _, _, _, _) => true
    case Abandon(call) => call in s.calls
  }

  // --- Calls in flight ---

  function Begin(s: Sys, call: CallId): Sys {
    s.(started := s.started + {call})
  }

  function Continue(s: Sys, call: CallId, frame: Frame): Sys {
    s.(calls := s.calls[call := frame])
  }

  function End(s: Sys, call: CallId): Sys {
    s.(calls := s.calls - {call})
  }

  // --- The effect of each event ---

  /** The id is drawn first; without a salt the password could not be hashed and nothing is stored. */
  ghost function Registered(
    s: Sys, id: Uuid, email: string, username: string, password: string, salt: Option<nat>, fault: bool): Sys
  {
    var s' := s.(issued := s.issued + {id});
    match salt
    case Some(n) =>
      var user := User(email, Bcrypt(n, password), username);
      s'.(db := Attempt(s.db, fault, SaveUser(s.db, id, user)).tables)
    case None => s'
  }

  ghost function Lookup(t: Tables, email: string, fault: bool): Reply {
    if fault then Failed(Fault) else GetByEmail(t, email)
  }

  ghost function LoginLookedUp(s: Sys, call: CallId, email: string, password: string, fault: bool): Sys {
    match Lookup(s.db, email, fault)
    case UserRow(u, user) =>
      if CheckPassword(user.password, password) then Continue(Begin(s, call), call, LoginSaving(u)) else Begin(s, call)
    case _ => Begin(s, call)
  }

  ghost function SessionSaved(
    cfg: Config, s: Sys, call: CallId, user: Uuid, id: Uuid, createdAt: Time, clock: Time, fault: bool): Sys
  {
    var o := SaveRefreshToken(s.db, id, RefreshToken(user, createdAt, clock + cfg.refreshDuration));
    End(s, call).(db := Attempt(s.db, fault, o).tables, issued := s.issued + {id})
  }

  ghost function OtpLookedUp(s: Sys, call: CallId, email: string, code: string, fault: bool): Sys {
    match Lookup(s.db, email, fault)
    case UserRow(u, _) => Continue(Begin(s, call), call, OtpConsuming(u, email, code))
    case _ => Begin(s, call)
  }

  ghost function OtpConsumed(
    s: Sys, call: CallId, user: Uuid, email: string, code: string, now: Time, fault: bool): Sys
  {
    var o := Attempt(s.db, fault, ConsumeOtpCode(s.db, OtpMac(code), email, now));
    match o.reply
    case OtpRow(c, _) => Continue(s, call, OtpSaving(user, c)).(db := o.tables)
    case _ => End(s, call)
  }

  ghost function SendLookedUp(s: Sys, call: CallId, challenge: Uuid, email: string, fault: bool): Sys {
    var s' := Begin(s, call).(issued := s.issued + {challenge});
    match Lookup(s.db, email, fault)
    case UserRow(u, user) => Continue(s', call, SendMailing(challenge, u, user.email))
    case _ => s'
  }

  function NewOtp(cfg: Config, email: string, code: string, createdAt: Time, clock: Time): Otp {
    Otp(email, OtpMac(code), 0, clock + cfg.otpDuration, createdAt)
  }

  ghost function SendStored(
    cfg: Config, s: Sys, call: CallId, frame: Frame, createdAt: Time, clock: Time, txFault: TxFault): Sys
    requires frame.SendStoring?
  {
    var otp := NewOtp(cfg, frame.email, frame.code, createdAt, clock);
    End(s, call).(db := SendTables(s.db, frame.challenge, otp, txFault))
  }

  ghost function VerifyConsumed(
    cfg: Config, s: Sys, call: CallId, challenge: Uuid, code: string, now: Time, fault: bool): Sys
  {
    var o := Attempt(s.db, fault, ConsumeOtpCodeByChallengeID(s.db, challenge, OtpMac(code), cfg.AttemptLimit(), now));
    match o.reply
    case OtpRow(c, otp) => Continue(s, call, VerifyLooking(c, otp.identifier)).(db := o.tables)
    case NoRows => Continue(s, call, VerifyIncreasing(challenge))
    case _ => End(s, call)
  }

  ghost function VerifyIncreased(cfg: Config, s: Sys, call: CallId, challenge: Uuid, now: Time, fault: bool): Sys {
    End(s, call).(db := Attempt(s.db, fault, IncreaseOtpAttempts(s.db, challenge, cfg.AttemptLimit(), now)).tables)
  }

  ghost function VerifyLookedUp(s: Sys, call: CallId, challenge: Uuid, email: string, fault: bool): Sys {
    match Lookup(s.db, email, fault)
    case UserRow(u, _) => Continue(s, call, VerifySaving(challenge, u))
    case _ => End(s, call)
  }

  ghost function ResetTokenSaved(
    cfg: Config, s: Sys, call: CallId, user: Uuid, id: Uuid, secret: string, clock: Time, now: Time, fault: bool): Sys
  {
    var o := SavePasswordResetToken(s.db, id, user, ResetMac(secret), clock + cfg.resetDuration, now);
    End(s, call).(
      db := Attempt(s.db, fault, o).tables, issued := s.issued + {id}, secrets := s.secrets + {secret})
  }

  ghost function Refreshed(
    cfg: Config, s: Sys, id: Uuid, newId: Uuid, createdAt: Time, clock: Time, signed: bool, now: Time,
    txFault: TxFault): Sys
  {
    s.(db := RefreshTables(s.db, id, newId, createdAt, clock + cfg.refreshDuration, signed, now, txFault),
       issued := s.issued + {newId})
  }

  ghost function Take(cfg: Config, s: Sys, e: Event): Sys
    requires Legal(cfg, s, e)
  {
    match e
    case Register(id, email, username, password, salt, fault) =>
      Registered(s, id, email, username, password, salt, fault)
    case LoginLookup(call, email, password, fault) => LoginLookedUp(s, call, email, password, fault)
    case LoginSave(call, id, createdAt, clock, fault) =>
      SessionSaved(cfg, s, call, s.calls[call].user, id, createdAt, clock, fault)
    case OtpLookup(call, email, code, fault) => OtpLookedUp(s, call, email, code, fault)
    case OtpConsume(call, now, fault) =>
      var f := s.calls[call];
      OtpConsumed(s, call, f.user, f.email, f.code, now, fault)
    case OtpSave(call, id, createdAt, clock, fault) =>
      SessionSaved(cfg, s, call, s.calls[call].user, id, createdAt, clock, fault)
    case SendLookup(call, challenge, email, fault) => SendLookedUp(s, call, challenge, email, fault)
    case SendMail(call, draw) =>
      var f := s.calls[call];
      Continue(s, call, SendStoring(f.challenge, f.user, f.email, Codes.FormatCode(draw)))
    case SendStore(call, createdAt, clock, txFault) =>
      SendStored(cfg, s, call, s.calls[call], createdAt, clock, txFault)
    case VerifyBegin(call, challenge, code) => Continue(Begin(s, call), call, VerifyConsuming(challenge, code))
    case VerifyConsume(call, now, fault) =>
      VerifyConsumed(cfg, s, call, s.calls[call].challenge, s.calls[call].code, now, fault)
    case VerifyIncrease(call, now, fault) =>
      VerifyIncreased(cfg, s, call, s.calls[call].challenge, now, fault)
    case VerifyLookup(call, fault) =>
      VerifyLookedUp(s, call, s.calls[call].challenge, s.calls[call].email, fault)
    case VerifySave(call, id, secret, clock, now, fault) =>
      ResetTokenSaved(cfg, s, call, s.calls[call].user, id, secret, clock, now, fault)
    case Refresh(id, newId, createdAt, clock, signed, now, txFault) =>
      Refreshed(cfg, s, id, newId, createdAt, clock, signed, now, txFault)
    case Revoke(id, fault) => s.(db := Attempt(s.db, fault, DeleteRefreshToken(s.db, id)).tables)
    case Reset(secret, password, salt, now, txFault) =>
      s.(db := ResetTables(s.db, ResetMac(secret), Bcrypt(salt, password), now, txFault))
    case Abandon(call) => End(s, call)
  }

  ghost predicate ChangesPassword(s: Sys, e: Event) {
    e.Reset? && ResetAccepted(s.db, ResetMac(e.secret), e.now, e.txFault)
  }

  ghost function ResetRowOf(s: Sys, e: Event): Reply
    requires e.Reset?
  {
    ConsumePasswordResetToken(s.db, ResetMac(e.secret), e.now).reply
  }

  /** The user whose password the event resets. */
  ghost function ResetUser(s: Sys, e: Event): Option<Uuid> {
    if ChangesPassword(s, e) then Some(ResetRowOf(s, e).reset.user) else None
  }

  /** An event that is not legal is not taken, so that every sequence of events is a run. */
  ghost function Step(cfg: Config, s: Sys, e: Event): Sys {
    if Legal(cfg, s, e) then Take(cfg, s, e) else s
  }

  ghost function RunFrom(cfg: Config, s: Sys, tr: seq<Event>): Sys {
    if tr == [] then s else Step(cfg, RunFrom(cfg, s, tr[..|tr| - 1]), tr[|tr| - 1])
  }

  /** The state after a run of the service that begins with empty tables. */
  ghost function Run(cfg: Config, tr: seq<Event>): Sys {
    RunFrom(cfg, INIT, tr)
  }

  lemma {:induction false} RunOneMore(cfg: Config, s: Sys, tr: seq<Event>, i: nat)
    requires i < |tr|
    ensures RunFrom(cfg, s, tr[..i + 1]) == Step(cfg, RunFrom(cfg, s, tr[..i]), tr[i])
  {
    assert tr[..i + 1][..i] == tr[..i];
  }

  lemma {:induction false} RunAppend(cfg: Config, s: Sys, a: seq<Event>, b: seq<Event>)
    ensures RunFrom(cfg, s, a + b) == RunFrom(cfg, RunFrom(cfg, s, a), b)
  {
    if b == [] {
      assert a + b == a;
    } else {
      RunAppend(cfg, s, a, b[..|b| - 1]);
      assert (a + b)[..|a + b| - 1] == a + b[..|b| - 1];
    }
  }

  // --- What every run keeps ---

  /** The schema's constraints hold and everything stored or in flight was drawn before. */
  ghost predicate Sound(s: Sys) {
    && Constraints(s.db)
    && s.db.users.Keys <= s.issued
    && s.db.refresh.Keys <= s.issued
    && s.db.resets.Keys <= s.issued
    && s.calls.Keys <= s.started
  }

  // The events that may change each table, and the lemmas that say no other event does.

  predicate TouchesUsers(e: Event) {
    e.Register? || e.Reset?
  }

  predicate TouchesRefresh(e: Event) {
    e.LoginSave? || e.OtpSave? || e.Refresh? || e.Revoke? || e.Reset?
  }

  predicate TouchesResets(e: Event) {
    e.VerifySave? || e.Reset?
  }

  predicate TouchesOtps(e: Event) {
    e.OtpConsume? || e.SendStore? || e.VerifyConsume? || e.VerifyIncrease?
  }

  lemma UsersUntouched(cfg: Config, s: Sys, e: Event)
    requires !TouchesUsers(e)
    ensures Step(cfg, s, e).db.users == s.db.users
  {
  }

  lemma RefreshUntouched(cfg: Config, s: Sys, e: Event)
    requires !TouchesRefresh(e)
    ensures Step(cfg, s, e).db.refresh == s.db.refresh
  {
  }

  lemma ResetsUntouched(cfg: Config, s: Sys, e: Event)
    requires !TouchesResets(e)
    ensures Step(cfg, s, e).db.resets == s.db.resets
  {
  }

  lemma OtpsUntouched(cfg: Config, s: Sys, e: Event)
    requires !TouchesOtps(e)
    ensures Step(cfg, s, e).db.otps == s.db.otps
  {
  }

  /** The call that an event belongs to. */
  function CallOf(e: Event): Option<CallId> {
    if e.Register? || e.Refresh? || e.Revoke? || e.Reset? then None else Some(e.call)
  }

  /** An event leaves the other calls in flight where they are. */
  lemma OtherCallsUntouched(cfg: Config, s: Sys, e: Event, call: CallId)
    requires CallOf(e) != Some(call)
    ensures var s' := Step(cfg, s, e);
      && (call in s'.calls <==> call in s.calls)
      && (call in s.calls ==> s'.calls[call] == s.calls[call])
      && (call in s'.started <==> call in s.started)
  {
  }

  lemma {:induction false} SessionKeepsConstraints(cfg: Config, s: Sys, e: Event)
    requires e.LoginSave? || e.OtpSave? || e.Revoke? || e.VerifySave? || e.Register?
    requires Constraints(s.db)
    ensures Constraints(Step(cfg, s, e).db)
  {
  }

  lemma {:induction false} OtpKeepsConstraints(cfg: Config, s: Sys, e: Event)
    requires e.OtpConsume? || e.VerifyConsume? || e.VerifyIncrease?
    requires Constraints(s.db)
    ensures Constraints(Step(cfg, s, e).db)
  {
  }

  lemma TransactionKeepsConstraints(cfg: Config, s: Sys, e: Event)
    requires e.Refresh? || e.SendStore? || e.Reset?
    requires Constraints(s.db)
    ensures Constraints(Step(cfg, s, e).db)
  {
    if Legal(cfg, s, e) {
      match e
      case Refresh(id, newId, createdAt, clock, signed, now, txFault) =>
        RefreshKeepsConstraints(s.db, id, newId, createdAt, clock + cfg.refreshDuration, signed, now, txFault);
      case SendStore(call, createdAt, clock, txFault) =>
        var f := s.calls[call];
        SendKeepsConstraints(s.db, f.challenge, NewOtp(cfg, f.email, f.code, createdAt, clock), txFault);
      case Reset(secret, password, salt, now, txFault) =>
        ResetKeepsConstraints(s.db, ResetMac(secret), Bcrypt(salt, password), now, txFault);
    }
  }

  lemma StepKeepsConstraints(cfg: Config, s: Sys, e: Event)
    requires Constraints(s.db)
    ensures Constraints(Step(cfg, s, e).db)
  {
    if e.LoginSave? || e.OtpSave? || e.Revoke? || e.VerifySave? || e.Register? {
      SessionKeepsConstraints(cfg, s, e);
    } else if e.OtpConsume? || e.VerifyConsume? || e.VerifyIncrease? {
      OtpKeepsConstraints(cfg, s, e);
    } else if e.Refresh? || e.SendStore? || e.Reset? {
      TransactionKeepsConstraints(cfg, s, e);
    } else {
      UsersUntouched(cfg, s, e);
      RefreshUntouched(cfg, s, e);
      ResetsUntouched(cfg, s, e);
      OtpsUntouched(cfg, s, e);
    }
  }

  /** Identifiers and calls once drawn stay drawn. */
  lemma DrawnStaysDrawn(cfg: Config, s: Sys, e: Event)
    ensures s.issued <= Step(cfg, s, e).issued
    ensures s.started <= Step(cfg, s, e).started
    ensures s.secrets <= Step(cfg, s, e).secrets
  {
  }

  lemma UsersAreIssued(cfg: Config, s: Sys, e: Event)
    requires s.db.users.Keys <= s.issued
    ensures Step(cfg, s, e).db.users.Keys <= Step(cfg, s, e).issued
  {
    DrawnStaysDrawn(cfg, s, e);
    if TouchesUsers(e) {
      assert Step(cfg, s, e).db.users.Keys <= s.db.users.Keys + if e.Register? && Legal(cfg, s, e) then {e.id} else {};
    } else {
      UsersUntouched(cfg, s, e);
    }
  }

  /** The identifier under which an event may store a refresh token. */
  function NewRefreshIds(e: Event): set<Uuid> {
    if e.LoginSave? || e.OtpSave? then {e.id} else if e.Refresh? then {e.newId} else {}
  }

  lemma RefreshGrowsBy(cfg: Config, s: Sys, e: Event)
    ensures Step(cfg, s, e).db.refresh.Keys <= s.db.refresh.Keys + NewRefreshIds(e)
    ensures Legal(cfg, s, e) ==> NewRefreshIds(e) <= Step(cfg, s, e).issued
  {
    if !TouchesRefresh(e) {
      RefreshUntouched(cfg, s, e);
    }
  }

  lemma ResetsAreIssued(cfg: Config, s: Sys, e: Event)
    requires s.db.resets.Keys <= s.issued
    ensures Step(cfg, s, e).db.resets.Keys <= Step(cfg, s, e).issued
  {
    DrawnStaysDrawn(cfg, s, e);
    if TouchesResets(e) {
      assert Step(cfg, s, e).db.resets.Keys <=
        s.db.resets.Keys + if e.VerifySave? && Legal(cfg, s, e) then {e.id} else {};
    } else {
      ResetsUntouched(cfg, s, e);
    }
  }

  lemma CallsAreStarted(cfg: Config, s: Sys, e: Event)
    requires s.calls.Keys <= s.started
    ensures Step(cfg, s, e).calls.Keys <= Step(cfg, s, e).started
  {
  }

  lemma StepIsSound(cfg: Config, s: Sys, e: Event)
    requires Sound(s)
    ensures Sound(Step(cfg, s, e))
  {
    StepKeepsConstraints(cfg, s, e);
    UsersAreIssued(cfg, s, e);
    RefreshGrowsBy(cfg, s, e);
    ResetsAreIssued(cfg, s, e);
    DrawnStaysDrawn(cfg, s, e);
    CallsAreStarted(cfg, s, e);
  }

  lemma {:induction false} RunIsSound(cfg: Config, tr: seq<Event>)
    ensures Sound(Run(cfg, tr))
  {
    if tr != [] {
      RunIsSound(cfg, tr[..|tr| - 1]);
      StepIsSound(cfg, Run(cfg, tr[..|tr| - 1]), tr[|tr| - 1]);
    }
  }
}
