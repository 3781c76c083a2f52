/**
  * The life of a challenge: stored by `SendCode`, consumed by one verification, and turned into
  * one session or into one reset token, which changes one password.
  */
module Recovery {
  import opened Schema
  import opened Sql
  import opened Database
  import opened UnitOfWork
  import opened Transactions
  import opened Machine

  // --- What an observer of the run writes down ---

  /** A committed `SendCode`: whose challenge, the code, and until when it is good. */
  datatype Sent = Sent(user: Uuid, email: string, code: string, clock: Time)

  /** The verification that consumed a challenge, and what came of it. */
  datatype Use = Use(byReset: bool, call: CallId, at: Time, product: Option<Uuid>)

  datatype Minted = Minted(challenge: Uuid, user: Uuid, secret: string, setAt: Time)

  datatype OtpSession = OtpSession(challenge: Uuid, user: Uuid)

  datatype Change = Change(resetId: Uuid, user: Uuid, password: PasswordHash, at: Time)

  datatype Log = Log(
    drawn: map<Uuid, CallId>,      // challenge ids drawn by calls to SendCode
    sent: map<Uuid, Sent>,         // by challenge id
    used: map<Uuid, Use>,          // by challenge id
    minted: map<Uuid, Minted>,     // by reset token id
    sessions: map<Uuid, OtpSession>,  // by refresh token id
    changes: seq<Change>           // committed password resets, in order
  )

  const NOTHING := Log(map[], map[], map[], map[], map[], [])

  ghost predicate Stores(cfg: Config, s: Sys, e: Event) {
    && e.SendStore?
    && Legal(cfg, s, e)
    && var f := s.calls[e.call];
      SendAccepted(s.db, f.challenge, NewOtp(cfg, f.email, f.code, e.createdAt, e.clock), e.txFault)
  }

  /** The challenge that the event consumes, by either path. */
  ghost function Consumed(cfg: Config, s: Sys, e: Event): Option<Uuid> {
    if !Legal(cfg, s, e) then None
    else if e.OtpConsume? then
      var f := s.calls[e.call];
      var r := Attempt(s.db, e.fault, ConsumeOtpCode(s.db, OtpMac(f.code), f.email, e.now)).reply;
      if r.OtpRow? then Some(r.otpId) else None
    else if e.VerifyConsume? then
      var f := s.calls[e.call];
      var o := ConsumeOtpCodeByChallengeID(s.db, f.challenge, OtpMac(f.code), cfg.AttemptLimit(), e.now);
      if Attempt(s.db, e.fault, o).reply.OtpRow? then Some(f.challenge) else None
    else None
  }

  ghost predicate Mints(cfg: Config, s: Sys, e: Event) {
    && e.VerifySave?
    && Legal(cfg, s, e)
    && !e.fault
    && var user := s.calls[e.call].user;
      !SavePasswordResetToken(s.db, e.id, user, ResetMac(e.secret), e.clock + cfg.resetDuration, e.now).reply.Failed?
  }

  ghost predicate OpensByOtp(cfg: Config, s: Sys, e: Event) {
    && e.OtpSave?
    && Legal(cfg, s, e)
    && !e.fault
    && var token := RefreshToken(s.calls[e.call].user, e.createdAt, e.clock + cfg.refreshDuration);
      !SaveRefreshToken(s.db, e.id, token).reply.Failed?
  }

  // --- How the notes grow ---

  function Draw(l: Log, c: Uuid, call: CallId): Log {
    l.(drawn := l.drawn[c := call])
  }

  function Send(l: Log, c: Uuid, sent: Sent): Log {
    l.(sent := l.sent[c := sent])
  }

  function Consume(l: Log, c: Uuid, use: Use): Log {
    l.(used := l.used[c := use])
  }

  function Produce(used: map<Uuid, Use>, c: Uuid, product: Uuid): map<Uuid, Use> {
    if c in used then used[c := used[c].(product := Some(product))] else used
  }

  function Mint(l: Log, id: Uuid, m: Minted): Log {
    l.(minted := l.minted[id := m], used := Produce(l.used, m.challenge, id))
  }

  function OpenSession(l: Log, id: Uuid, o: OtpSession): Log {
    l.(sessions := l.sessions[id := o], used := Produce(l.used, o.challenge, id))
  }

  ghost function Note(cfg: Config, l: Log, s: Sys, e: Event): Log {
    if !Legal(cfg, s, e) then l else
    match e
    case SendLookup(call, challenge, _, _) => Draw(l, challenge, call)
    case SendStore(call, _, clock, _) =>
      var f := s.calls[call];
      if Stores(cfg, s, e) then Send(l, f.challenge, Sent(f.user, f.email, f.code, clock)) else l
    case OtpConsume(call, now, _) =>
      (match Consumed(cfg, s, e)
       case Some(c) => Consume(l, c, Use(false, call, now, None))
       case None => l)
    case VerifyConsume(call, now, _) =>
      (match Consumed(cfg, s, e)
       case Some(c) => Consume(l, c, Use(true, call, now, None))
       case None => l)
    case VerifySave(call, id, secret, clock, _, _) =>
      var f := s.calls[call];
      if Mints(cfg, s, e) then Mint(l, id, Minted(f.challenge, f.user, secret, clock)) else l
    case OtpSave(call, id, _, _, _) =>
      var f := s.calls[call];
      if OpensByOtp(cfg, s, e) then OpenSession(l, id, OtpSession(f.challenge, f.user)) else l
    case Reset(_, password, salt, now, _) =>
      if ChangesPassword(s, e) then
        var r := ResetRowOf(s, e);
        l.(changes := l.changes + [Change(r.resetId, r.reset.user, Bcrypt(salt, password), now)])
      else l
    case _ => l
  }

  ghost function LogOf(cfg: Config, tr: seq<Event>): Log {
    if tr == [] then NOTHING
    else Note(cfg, LogOf(cfg, tr[..|tr| - 1]), Run(cfg, tr[..|tr| - 1]), tr[|tr| - 1])
  }

  lemma {:induction false} LogOneMore(cfg: Config, tr: seq<Event>, i: nat)
    requires i < |tr|
    ensures LogOf(cfg, tr[..i + 1]) == Note(cfg, LogOf(cfg, tr[..i]), Run(cfg, tr[..i]), tr[i])
  {
    assert tr[..i + 1][..i] == tr[..i];
  }

  // --- Users keep their emails ---

  /** Users are never removed and their emails never change. */
  ghost predicate Later(users: map<Uuid, User>, users': map<Uuid, User>) {
    forall u | u in users :: u in users' && users'[u].email == users[u].email
  }

  lemma UsersStay(cfg: Config, s: Sys, e: Event)
    requires s.db.users.Keys <= s.issued
    ensures Later(s.db.users, Step(cfg, s, e).db.users)
  {
    if e.Register? {
      UsersStayOnRegister(cfg, s, e);
    } else if e.Reset? {
      UsersStayOnReset(cfg, s, e);
    } else {
      UsersUntouched(cfg, s, e);
    }
  }

  lemma UsersStayOnRegister(cfg: Config, s: Sys, e: Event)
    requires s.db.users.Keys <= s.issued && e.Register?
    ensures Later(s.db.users, Step(cfg, s, e).db.users)
  {
    assert Legal(cfg, s, e) ==> e.id !in s.db.users;
  }

  lemma UsersStayOnReset(cfg: Config, s: Sys, e: Event)
    requires e.Reset?
    ensures Later(s.db.users, Step(cfg, s, e).db.users)
  {
  }

  // --- What the notes say about the calls in flight ---

  ghost predicate IsUser(users: map<Uuid, User>, u: Uuid, email: string) {
    u in users && users[u].email == email
  }

  /** The call consumed the challenge and nothing has come of it yet. */
  ghost predicate Holds(l: Log, call: CallId, c: Uuid, byReset: bool, email: string) {
    && c in l.sent && l.sent[c].email == email
    && c in l.used && l.used[c] == Use(byReset, call, l.used[c].at, None)
  }

  /** The call drew the challenge and has not stored it. */
  ghost predicate Drew(l: Log, call: CallId, c: Uuid) {
    c in l.drawn && l.drawn[c] == call && c !in l.sent
  }

  ghost predicate FrameOk(users: map<Uuid, User>, l: Log, call: CallId, f: Frame) {
    match f
    case LoginSaving(u) => u in users
    case OtpConsuming(u, email, _) => IsUser(users, u, email)
    case OtpSaving(u, c) => u in users && Holds(l, call, c, false, users[u].email)
    case SendMailing(c, u, email) => IsUser(users, u, email) && Drew(l, call, c)
    case SendStoring(c, u, email, _) => IsUser(users, u, email) && Drew(l, call, c)
    case VerifyConsuming(_, _) => true
    case VerifyIncreasing(_) => true
    case VerifyLooking(c, email) => Holds(l, call, c, true, email)
    case VerifySaving(c, u) => u in users && Holds(l, call, c, true, users[u].email)
  }

  ghost predicate FramesOk(s: Sys, l: Log) {
    forall k | k in s.calls :: FrameOk(s.db.users, l, k, s.calls[k])
  }

  /** The notes before and after an event of `who`: nothing that is final or concerns other calls is lost. */
  ghost predicate LogLater(l: Log, l': Log, who: Option<CallId>) {
    && (forall c | c in l.drawn :: c in l'.drawn && l'.drawn[c] == l.drawn[c])
    && (forall c | c in l.sent :: c in l'.sent && l'.sent[c] == l.sent[c])
    && (forall c | c in l'.sent && c !in l.sent :: c in l.drawn && Some(l.drawn[c]) == who)
    && (forall c | c in l.used && (Some(l.used[c].call) != who || l.used[c].product.Some?) ::
          c in l'.used && l'.used[c] == l.used[c])
  }

  lemma OtherFramesOk(
    users: map<Uuid, User>, users': map<Uuid, User>, l: Log, l': Log, who: Option<CallId>, k: CallId, f: Frame)
    requires FrameOk(users, l, k, f) && Later(users, users') && LogLater(l, l', who) && who != Some(k)
    ensures FrameOk(users', l', k, f)
  {
  }

  /** A stored challenge is as noted: the code that was sent, for the address it was sent to. */
  ghost predicate AsSent(cfg: Config, o: Otp, sent: Sent) {
    o.identifier == sent.email && o.code == OtpMac(sent.code) && o.expiresAt == sent.clock + cfg.otpDuration
  }

  /** The stored challenges are exactly as noted and not yet consumed. */
  ghost predicate OtpsTraced(cfg: Config, otps: map<Uuid, Otp>, l: Log) {
    forall c | c in otps :: c in l.sent && c !in l.used && AsSent(cfg, otps[c], l.sent[c])
  }

  ghost predicate SentOk(users: map<Uuid, User>, issued: set<Uuid>, l: Log) {
    && l.used.Keys <= l.sent.Keys <= l.drawn.Keys <= issued
    && (forall c | c in l.sent :: IsUser(users, l.sent[c].user, l.sent[c].email))
  }

  lemma ConsumedWasStored(cfg: Config, s: Sys, e: Event)
    requires Consumed(cfg, s, e).Some?
    ensures var c := Consumed(cfg, s, e).value;
      var f := s.calls[e.call];
      && c in s.db.otps
      && s.db.otps[c].code == OtpMac(f.code)
      && s.db.otps[c].expiresAt > e.now
      && (e.OtpConsume? ==> s.db.otps[c].identifier == f.email)
      && (e.VerifyConsume? ==> c == f.challenge && s.db.otps[c].attempts < cfg.AttemptLimit())
  {
  }

  lemma SameIsLater(l: Log, changes: seq<Change>, who: Option<CallId>)
    ensures LogLater(l, l.(changes := changes), who)
  {
  }

  lemma DrawIsLater(l: Log, c: Uuid, call: CallId, who: Option<CallId>)
    requires c !in l.drawn
    ensures LogLater(l, Draw(l, c, call), who)
  {
  }

  lemma SendIsLater(l: Log, c: Uuid, sent: Sent, call: CallId)
    requires Drew(l, call, c)
    ensures LogLater(l, Send(l, c, sent), Some(call))
  {
  }

  lemma ConsumeIsLater(l: Log, c: Uuid, use: Use, who: Option<CallId>)
    requires c !in l.used
    ensures LogLater(l, Consume(l, c, use), who)
  {
  }

  lemma ProductIsLater(l: Log, id: Uuid, m: Minted, call: CallId, byReset: bool, email: string)
    requires Holds(l, call, m.challenge, byReset, email)
    ensures LogLater(l, Mint(l, id, m), Some(call))
    ensures LogLater(l, OpenSession(l, id, OtpSession(m.challenge, m.user)), Some(call))
  {
  }

  lemma ConsumingGrows(cfg: Config, s: Sys, l: Log, e: Event)
    requires OtpsTraced(cfg, s.db.otps, l) && (e.OtpConsume? || e.VerifyConsume?)
    ensures LogLater(l, Note(cfg, l, s, e), CallOf(e))
  {
    SameIsLater(l, l.changes, CallOf(e));
    if Consumed(cfg, s, e).Some? {
      ConsumedWasStored(cfg, s, e);
      ConsumeIsLater(l, Consumed(cfg, s, e).value, Use(e.VerifyConsume?, e.call, e.now, None), CallOf(e));
    }
  }

  lemma ProducingGrows(cfg: Config, s: Sys, l: Log, e: Event)
    requires FramesOk(s, l) && (e.VerifySave? || e.OtpSave?)
    ensures LogLater(l, Note(cfg, l, s, e), CallOf(e))
  {
    SameIsLater(l, l.changes, CallOf(e));
    if Legal(cfg, s, e) {
      var f := s.calls[e.call];
      assert FrameOk(s.db.users, l, e.call, f);
      var m := Minted(f.challenge, f.user, if e.VerifySave? then e.secret else "", e.clock);
      ProductIsLater(l, e.id, m, e.call, e.VerifySave?, s.db.users[f.user].email);
    }
  }

  lemma SendingGrows(cfg: Config, s: Sys, l: Log, e: Event)
    requires FramesOk(s, l) && l.drawn.Keys <= s.issued && (e.SendLookup? || e.SendStore?)
    ensures LogLater(l, Note(cfg, l, s, e), CallOf(e))
  {
    SameIsLater(l, l.changes, CallOf(e));
    if Legal(cfg, s, e) {
      if e.SendLookup? {
        DrawIsLater(l, e.challenge, e.call, CallOf(e));
      } else {
        var f := s.calls[e.call];
        assert FrameOk(s.db.users, l, e.call, f);
        SendIsLater(l, f.challenge, Sent(f.user, f.email, f.code, e.clock), e.call);
      }
    }
  }

  lemma NotesGrow(cfg: Config, s: Sys, l: Log, e: Event)
    requires FramesOk(s, l) && l.drawn.Keys <= s.issued && OtpsTraced(cfg, s.db.otps, l)
    ensures LogLater(l, Note(cfg, l, s, e), CallOf(e))
  {
    if e.OtpConsume? || e.VerifyConsume? {
      ConsumingGrows(cfg, s, l, e);
    } else if e.VerifySave? || e.OtpSave? {
      ProducingGrows(cfg, s, l, e);
    } else if e.SendLookup? || e.SendStore? {
      SendingGrows(cfg, s, l, e);
    } else {
      SameIsLater(l, Note(cfg, l, s, e).changes, CallOf(e));
    }
  }

  // --- Every run keeps the notes, the tables and the calls consistent ---

  ghost predicate Traced(cfg: Config, s: Sys, l: Log) {
    FramesOk(s, l) && SentOk(s.db.users, s.issued, l) && OtpsTraced(cfg, s.db.otps, l)
  }

  /** The user row a lookup finds has the email looked for. */
  lemma LookupFinds(t: Tables, email: string, fault: bool)
    ensures var r := Lookup(t, email, fault);
      r.UserRow? ==> r.userId in t.users && r.user == t.users[r.userId] && r.user.email == email
  {
  }

  ghost predicate OwnFrameOk(cfg: Config, s: Sys, l: Log, e: Event) {
    var s' := Step(cfg, s, e);
    CallOf(e).Some? && CallOf(e).value in s'.calls ==>
      FrameOk(s'.db.users, Note(cfg, l, s, e), CallOf(e).value, s'.calls[CallOf(e).value])
  }

  /** What consuming does to the state, and to the notes. */
  lemma ConsumeView(cfg: Config, s: Sys, e: Event)
    requires Legal(cfg, s, e) && (e.OtpConsume? || e.VerifyConsume?)
    ensures var s', f := Step(cfg, s, e), s.calls[e.call];
      match Consumed(cfg, s, e)
      case Some(c) =>
        && c in s.db.otps
        && s'.db == s.db.(otps := s.db.otps - {c})
        && s'.calls == s.calls[e.call :=
             if e.OtpConsume? then OtpSaving(f.user, c) else VerifyLooking(c, s.db.otps[c].identifier)]
      case None =>
        && s'.db == s.db
        && (e.call in s'.calls ==> s'.calls[e.call].VerifyIncreasing?)
  {
  }

  lemma ConsumeNoteView(cfg: Config, s: Sys, l: Log, e: Event)
    requires Legal(cfg, s, e) && (e.OtpConsume? || e.VerifyConsume?)
    ensures Note(cfg, l, s, e) == match Consumed(cfg, s, e)
      case Some(c) => Consume(l, c, Use(e.VerifyConsume?, e.call, e.now, None))
      case None => l
  {
  }

  /** The last step of a call takes it out of flight. */
  lemma LastStepEnds(cfg: Config, s: Sys, e: Event)
    requires e.LoginSave? || e.OtpSave? || e.SendStore? || e.VerifyIncrease? || e.VerifySave? || e.Abandon?
    ensures Legal(cfg, s, e) ==> Step(cfg, s, e).calls == s.calls - {e.call}
  {
  }

  lemma LoginLookupKeepsFrame(cfg: Config, s: Sys, l: Log, e: Event)
    requires Legal(cfg, s, e) && s.calls.Keys <= s.started && (e.LoginLookup? || e.OtpLookup?)
    ensures OwnFrameOk(cfg, s, l, e)
  {
    LookupFinds(s.db, e.email, e.fault);
  }

  lemma SendLookupKeepsFrame(cfg: Config, s: Sys, l: Log, e: Event)
    requires Legal(cfg, s, e) && s.calls.Keys <= s.started && e.SendLookup? && l.sent.Keys <= s.issued
    ensures OwnFrameOk(cfg, s, l, e)
  {
    LookupFinds(s.db, e.email, e.fault);
  }

  lemma LookingUpKeepsFrame(cfg: Config, s: Sys, l: Log, e: Event)
    requires Legal(cfg, s, e) && l.sent.Keys <= s.issued && s.calls.Keys <= s.started
    requires e.LoginLookup? || e.OtpLookup? || e.SendLookup?
    ensures OwnFrameOk(cfg, s, l, e)
  {
    if e.SendLookup? {
      SendLookupKeepsFrame(cfg, s, l, e);
    } else {
      LoginLookupKeepsFrame(cfg, s, l, e);
    }
  }

  lemma VerifyLookupKeepsFrame(cfg: Config, s: Sys, l: Log, e: Event)
    requires Legal(cfg, s, e) && e.VerifyLookup? && FrameOk(s.db.users, l, e.call, s.calls[e.call])
    ensures OwnFrameOk(cfg, s, l, e)
  {
    LookupFinds(s.db, s.calls[e.call].email, e.fault);
  }

  lemma ConsumedFrameOk(users: map<Uuid, User>, l: Log, call: CallId, f: Frame, c: Uuid, email: string, at: Time)
    requires FrameOk(users, l, call, f) && ((f.OtpConsuming? && f.email == email) || f.VerifyConsuming?)
    requires c in l.sent && l.sent[c].email == email
    ensures f.OtpConsuming? ==> FrameOk(users, Consume(l, c, Use(false, call, at, None)), call, OtpSaving(f.user, c))
    ensures f.VerifyConsuming? ==>
      FrameOk(users, Consume(l, c, Use(true, call, at, None)), call, VerifyLooking(c, email))
  {
  }

  lemma ConsumingKeepsFrame(cfg: Config, s: Sys, l: Log, e: Event)
    requires OtpsTraced(cfg, s.db.otps, l) && Legal(cfg, s, e) && (e.OtpConsume? || e.VerifyConsume?)
    requires FrameOk(s.db.users, l, e.call, s.calls[e.call])
    ensures OwnFrameOk(cfg, s, l, e)
  {
    ConsumeView(cfg, s, e);
    ConsumeNoteView(cfg, s, l, e);
    if Consumed(cfg, s, e).Some? {
      var c := Consumed(cfg, s, e).value;
      ConsumedWasStored(cfg, s, e);
      ConsumedFrameOk(s.db.users, l, e.call, s.calls[e.call], c, s.db.otps[c].identifier, e.now);
    }
  }

  lemma MailingKeepsFrame(cfg: Config, s: Sys, l: Log, e: Event)
    requires Legal(cfg, s, e) && (e.SendMail? || e.VerifyBegin?)
    requires e.SendMail? ==> FrameOk(s.db.users, l, e.call, s.calls[e.call])
    ensures OwnFrameOk(cfg, s, l, e)
  {
  }

  lemma NoFrameToKeep(cfg: Config, s: Sys, l: Log, e: Event)
    requires Legal(cfg, s, e)
    requires CallOf(e) == None
      || e.LoginSave? || e.OtpSave? || e.SendStore? || e.VerifyIncrease? || e.VerifySave? || e.Abandon?
    ensures OwnFrameOk(cfg, s, l, e)
  {
    if CallOf(e).Some? {
      LastStepEnds(cfg, s, e);
    }
  }

  lemma OwnFrameKept(cfg: Config, s: Sys, l: Log, e: Event)
    requires Sound(s) && Traced(cfg, s, l) && Legal(cfg, s, e)
    ensures OwnFrameOk(cfg, s, l, e)
  {
    if e.LoginLookup? || e.OtpLookup? || e.SendLookup? {
      LookingUpKeepsFrame(cfg, s, l, e);
    } else if e.VerifyLookup? {
      VerifyLookupKeepsFrame(cfg, s, l, e);
    } else if e.OtpConsume? || e.VerifyConsume? {
      ConsumingKeepsFrame(cfg, s, l, e);
    } else if e.SendMail? || e.VerifyBegin? {
      MailingKeepsFrame(cfg, s, l, e);
    } else {
      NoFrameToKeep(cfg, s, l, e);
    }
  }

  lemma FramesKept(cfg: Config, s: Sys, l: Log, e: Event)
    requires Sound(s) && Traced(cfg, s, l)
    ensures FramesOk(Step(cfg, s, e), Note(cfg, l, s, e))
  {
    if Legal(cfg, s, e) {
      var s', l' := Step(cfg, s, e), Note(cfg, l, s, e);
      UsersStay(cfg, s, e);
      NotesGrow(cfg, s, l, e);
      forall k | k in s'.calls ensures FrameOk(s'.db.users, l', k, s'.calls[k]) {
        if CallOf(e) == Some(k) {
          OwnFrameKept(cfg, s, l, e);
        } else {
          OtherCallsUntouched(cfg, s, e, k);
          OtherFramesOk(s.db.users, s'.db.users, l, l', CallOf(e), k, s.calls[k]);
        }
      }
    }
  }

  lemma SentStays(
    users: map<Uuid, User>, issued: set<Uuid>, l: Log, users': map<Uuid, User>, issued': set<Uuid>, l': Log)
    requires SentOk(users, issued, l) && Later(users, users') && issued <= issued'
    requires l'.drawn.Keys == l.drawn.Keys && l'.sent == l.sent && l'.used.Keys <= l.sent.Keys
    ensures SentOk(users', issued', l')
  {
  }

  lemma SentGrows(users: map<Uuid, User>, issued: set<Uuid>, l: Log, call: CallId, f: Frame, clock: Time)
    requires SentOk(users, issued, l) && f.SendStoring? && FrameOk(users, l, call, f)
    ensures SentOk(users, issued, Send(l, f.challenge, Sent(f.user, f.email, f.code, clock)))
  {
  }

  lemma OtherNotes(cfg: Config, s: Sys, l: Log, e: Event)
    requires !e.OtpConsume? && !e.VerifyConsume? && !e.SendLookup? && !e.SendStore?
    ensures var l' := Note(cfg, l, s, e); l'.drawn == l.drawn && l'.sent == l.sent && l'.used.Keys == l.used.Keys
  {
  }

  lemma SentKept(cfg: Config, s: Sys, l: Log, e: Event)
    requires Sound(s) && Traced(cfg, s, l)
    ensures SentOk(Step(cfg, s, e).db.users, Step(cfg, s, e).issued, Note(cfg, l, s, e))
  {
    var s', l' := Step(cfg, s, e), Note(cfg, l, s, e);
    DrawnStaysDrawn(cfg, s, e);
    UsersStay(cfg, s, e);
    SentStays(s.db.users, s.issued, l, s'.db.users, s'.issued, l);
    if e.OtpConsume? || e.VerifyConsume? {
      SentKeptByConsuming(cfg, s, l, e);
    } else if e.SendLookup? || e.SendStore? {
      SentKeptBySending(cfg, s, l, e);
    } else {
      OtherNotes(cfg, s, l, e);
      SentStays(s.db.users, s.issued, l, s'.db.users, s'.issued, l');
    }
  }

  lemma SentKeptByConsuming(cfg: Config, s: Sys, l: Log, e: Event)
    requires SentOk(Step(cfg, s, e).db.users, Step(cfg, s, e).issued, l)
    requires OtpsTraced(cfg, s.db.otps, l) && (e.OtpConsume? || e.VerifyConsume?)
    ensures SentOk(Step(cfg, s, e).db.users, Step(cfg, s, e).issued, Note(cfg, l, s, e))
  {
    if Legal(cfg, s, e) {
      ConsumeNoteView(cfg, s, l, e);
      if Consumed(cfg, s, e).Some? {
        ConsumedWasStored(cfg, s, e);
        var users, issued := Step(cfg, s, e).db.users, Step(cfg, s, e).issued;
        SentStays(users, issued, l, users, issued, Note(cfg, l, s, e));
      }
    }
  }

  lemma SentKeptBySending(cfg: Config, s: Sys, l: Log, e: Event)
    requires SentOk(s.db.users, s.issued, l) && FramesOk(s, l) && (e.SendLookup? || e.SendStore?)
    ensures SentOk(Step(cfg, s, e).db.users, Step(cfg, s, e).issued, Note(cfg, l, s, e))
  {
    UsersUntouched(cfg, s, e);
    if e.SendStore? && Legal(cfg, s, e) {
      SentGrows(s.db.users, s.issued, l, e.call, s.calls[e.call], e.clock);
    }
  }

  lemma SendStoreView(cfg: Config, s: Sys, e: Event)
    requires Legal(cfg, s, e) && e.SendStore?
    ensures var f := s.calls[e.call];
      var otp := NewOtp(cfg, f.email, f.code, e.createdAt, e.clock);
      Step(cfg, s, e).db == SendTables(s.db, f.challenge, otp, e.txFault)
  {
  }

  lemma IncreaseView(cfg: Config, s: Sys, e: Event)
    requires Legal(cfg, s, e) && e.VerifyIncrease?
    ensures Step(cfg, s, e).db ==
      Attempt(s.db, e.fault, IncreaseOtpAttempts(s.db, s.calls[e.call].challenge, cfg.AttemptLimit(), e.now)).tables
  {
  }

  /** What a committed `SendCode` leaves in the table. */
  lemma SendTablesOtps(t: Tables, challenge: Uuid, otp: Otp, fault: TxFault)
    ensures var t' := SendTables(t, challenge, otp, fault);
      && t'.users == t.users && t'.refresh == t.refresh && t'.resets == t.resets
      && (SendAccepted(t, challenge, otp, fault) ==>
            && challenge in t'.otps && t'.otps[challenge] == otp
            && (forall c | c != challenge ::
                  (c in t'.otps <==> c in t.otps && t.otps[c].identifier != otp.identifier)
                  && (c in t'.otps ==> t'.otps[c] == t.otps[c])))
      && (!SendAccepted(t, challenge, otp, fault) ==> t' == t)
  {
  }

  lemma OtpsKeptByStoring(cfg: Config, s: Sys, l: Log, e: Event)
    requires Traced(cfg, s, l) && e.SendStore?
    ensures OtpsTraced(cfg, Step(cfg, s, e).db.otps, Note(cfg, l, s, e))
  {
    if Legal(cfg, s, e) {
      var f := s.calls[e.call];
      var otp := NewOtp(cfg, f.email, f.code, e.createdAt, e.clock);
      assert FrameOk(s.db.users, l, e.call, f);
      SendStoreView(cfg, s, e);
      SendTablesOtps(s.db, f.challenge, otp, e.txFault);
      OtpsStored(cfg, s.db.otps, SendTables(s.db, f.challenge, otp, e.txFault).otps, l, f, e.createdAt, e.clock);
    }
  }

  lemma OtpsStored(
    cfg: Config, otps: map<Uuid, Otp>, otps': map<Uuid, Otp>, l: Log, f: Frame, createdAt: Time, clock: Time)
    requires OtpsTraced(cfg, otps, l) && f.SendStoring? && f.challenge !in l.sent && l.used.Keys <= l.sent.Keys
    requires forall c | c in otps' && c != f.challenge :: c in otps && otps'[c] == otps[c]
    requires f.challenge in otps' ==> otps'[f.challenge] == NewOtp(cfg, f.email, f.code, createdAt, clock)
    ensures OtpsTraced(cfg, otps', Send(l, f.challenge, Sent(f.user, f.email, f.code, clock)))
  {
  }

  lemma OtpsKeptByConsuming(cfg: Config, s: Sys, l: Log, e: Event)
    requires OtpsTraced(cfg, s.db.otps, l) && (e.OtpConsume? || e.VerifyConsume?)
    ensures OtpsTraced(cfg, Step(cfg, s, e).db.otps, Note(cfg, l, s, e))
  {
    if Legal(cfg, s, e) {
      ConsumeView(cfg, s, e);
      ConsumeNoteView(cfg, s, l, e);
    }
  }

  lemma OtpsKeptByIncreasing(cfg: Config, s: Sys, l: Log, e: Event)
    requires OtpsTraced(cfg, s.db.otps, l) && e.VerifyIncrease?
    ensures OtpsTraced(cfg, Step(cfg, s, e).db.otps, Note(cfg, l, s, e))
  {
    if Legal(cfg, s, e) {
      IncreaseView(cfg, s, e);
    }
  }

  lemma OtpsKept(cfg: Config, s: Sys, l: Log, e: Event)
    requires Traced(cfg, s, l)
    ensures OtpsTraced(cfg, Step(cfg, s, e).db.otps, Note(cfg, l, s, e))
  {
    if e.SendStore? {
      OtpsKeptByStoring(cfg, s, l, e);
    } else if e.OtpConsume? || e.VerifyConsume? {
      OtpsKeptByConsuming(cfg, s, l, e);
    } else if e.VerifyIncrease? {
      OtpsKeptByIncreasing(cfg, s, l, e);
    } else {
      OtpsUntouched(cfg, s, e);
      if !e.SendLookup? {
        OtherNotes(cfg, s, l, e);
      }
    }
  }

  lemma {:induction false} RunIsTraced(cfg: Config, tr: seq<Event>)
    ensures Traced(cfg, Run(cfg, tr), LogOf(cfg, tr))
  {
    if tr != [] {
      var before := tr[..|tr| - 1];
      RunIsTraced(cfg, before);
      RunIsSound(cfg, before);
      FramesKept(cfg, Run(cfg, before), LogOf(cfg, before), tr[|tr| - 1]);
      SentKept(cfg, Run(cfg, before), LogOf(cfg, before), tr[|tr| - 1]);
      OtpsKept(cfg, Run(cfg, before), LogOf(cfg, before), tr[|tr| - 1]);
    }
  }
}
