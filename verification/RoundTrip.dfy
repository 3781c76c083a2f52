/** The recovery flow gives the user back the account: from the mailed code to a login with the new password. */
module RoundTrip {
  import opened Schema
  import opened UnitOfWork
  import opened Machine
  import opened Lineage
  import opened Recovery
  import opened Provenance
  import opened Guarantees
  import opened Accounting
  import opened Guessing

  // --- A call stays where it is until its own next step ---

  ghost predicate Undisturbed(tr: seq<Event>, i: nat, j: nat, call: CallId) {
    i <= j <= |tr| && forall k | i <= k < j :: CallOf(tr[k]) != Some(call)
  }

  lemma {:induction false} FrameWaits(cfg: Config, tr: seq<Event>, i: nat, j: nat, call: CallId)
    requires Undisturbed(tr, i, j, call) && call in Run(cfg, tr[..i]).calls
    ensures call in Run(cfg, tr[..j]).calls && Run(cfg, tr[..j]).calls[call] == Run(cfg, tr[..i]).calls[call]
  {
    if i < j {
      var k := j - 1;
      FrameWaits(cfg, tr, i, k, call);
      FrameWaitsOneMore(cfg, tr, k, call);
    }
  }

  lemma FrameWaitsOneMore(cfg: Config, tr: seq<Event>, j: nat, call: CallId)
    requires j < |tr| && CallOf(tr[j]) != Some(call) && call in Run(cfg, tr[..j]).calls
    ensures call in Run(cfg, tr[..j + 1]).calls && Run(cfg, tr[..j + 1]).calls[call] == Run(cfg, tr[..j]).calls[call]
  {
    RunOneMore(cfg, INIT, tr, j);
    OtherCallsUntouched(cfg, Run(cfg, tr[..j]), tr[j], call);
  }

  // --- The code stays good ---

  ghost predicate Waiting(s: Sys, c: Uuid, email: string, code: string, expiresAt: Time) {
    && c in s.db.otps
    && s.db.otps[c].identifier == email && s.db.otps[c].code == OtpMac(code) && s.db.otps[c].expiresAt == expiresAt
  }

  /** Nothing in the stretch consumes the challenge or stores a newer one for the address. */
  ghost predicate LeftAlone(cfg: Config, tr: seq<Event>, i: nat, j: nat, c: Uuid, email: string) {
    && i <= j <= |tr|
    && (forall k | i <= k < j :: !ConsumesAt(cfg, tr, k, c))
    && (forall k, d | i <= k < j && StoresAt(cfg, tr, k, d) :: Run(cfg, tr[..k]).calls[tr[k].call].email != email)
  }

  lemma WaitingStays(cfg: Config, s: Sys, e: Event, c: Uuid, email: string, code: string, expiresAt: Time)
    requires Waiting(s, c, email, code, expiresAt) && Consumed(cfg, s, e) != Some(c)
    requires Stores(cfg, s, e) ==> s.calls[e.call].email != email && s.calls[e.call].challenge != c
    ensures Waiting(Step(cfg, s, e), c, email, code, expiresAt)
  {
    if e.SendStore? {
      if Legal(cfg, s, e) {
        var f := s.calls[e.call];
        SendStoreView(cfg, s, e);
        SendTablesOtps(s.db, f.challenge, NewOtp(cfg, f.email, f.code, e.createdAt, e.clock), e.txFault);
      }
    } else if e.OtpConsume? || e.VerifyConsume? {
      if Legal(cfg, s, e) {
        ConsumeView(cfg, s, e);
      }
    } else if e.VerifyIncrease? {
      if Legal(cfg, s, e) {
        IncreaseView(cfg, s, e);
      }
    } else {
      OtpsUntouched(cfg, s, e);
    }
  }

  lemma StoredAreDistinct(cfg: Config, tr: seq<Event>, g: nat, k: nat, c: Uuid)
    requires g < k && StoresAt(cfg, tr, g, c)
    ensures !StoresAt(cfg, tr, k, c)
  {
    if StoresAt(cfg, tr, k, c) {
      StoredIsNoted(cfg, tr, g, c);
      NotesAreKept(cfg, tr, g + 1, k);
      StoredIsNoted(cfg, tr, k, c);
    }
  }

  lemma WaitsOneMore(cfg: Config, tr: seq<Event>, k: nat, c: Uuid, email: string, code: string, expiresAt: Time)
    requires k < |tr| && Waiting(Run(cfg, tr[..k]), c, email, code, expiresAt)
    requires LeftAlone(cfg, tr, k, k + 1, c, email) && !StoresAt(cfg, tr, k, c)
    ensures Waiting(Run(cfg, tr[..k + 1]), c, email, code, expiresAt)
  {
    var s, e := Run(cfg, tr[..k]), tr[k];
    RunOneMore(cfg, INIT, tr, k);
    assert !ConsumesAt(cfg, tr, k, c);
    if Stores(cfg, s, e) {
      assert StoresAt(cfg, tr, k, s.calls[e.call].challenge);
    }
    WaitingStays(cfg, s, e, c, email, code, expiresAt);
  }

  lemma {:induction false} CodeWaits(cfg: Config, tr: seq<Event>, g: nat, j: nat, c: Uuid)
    requires StoresAt(cfg, tr, g, c) && g < j
    requires LeftAlone(cfg, tr, g + 1, j, c, Run(cfg, tr[..g]).calls[tr[g].call].email)
    ensures var f := Run(cfg, tr[..g]).calls[tr[g].call];
      Waiting(Run(cfg, tr[..j]), c, f.email, f.code, tr[g].clock + cfg.otpDuration)
  {
    if j == g + 1 {
      SendReplaces(cfg, tr, g, c);
    } else {
      CodeWaits(cfg, tr, g, j - 1, c);
      StoredAreDistinct(cfg, tr, g, j - 1, c);
      var f := Run(cfg, tr[..g]).calls[tr[g].call];
      WaitsOneMore(cfg, tr, j - 1, c, f.email, f.code, tr[g].clock + cfg.otpDuration);
    }
  }

  /**
    * Presented with its challenge id, the mailed code is accepted if and only if it is not too
    * late and fewer increments than the limit were executed on the challenge.
    */
  lemma MailedCodeAcceptedExactly(cfg: Config, tr: seq<Event>, g: nat, h: nat, c: Uuid)
    requires StoresAt(cfg, tr, g, c) && g < h < |tr|
    requires LeftAlone(cfg, tr, g + 1, h, c, Run(cfg, tr[..g]).calls[tr[g].call].email)
    requires tr[h].VerifyConsume? && Legal(cfg, Run(cfg, tr[..h]), tr[h]) && !tr[h].fault
    requires Run(cfg, tr[..h]).calls[tr[h].call] == VerifyConsuming(c, Run(cfg, tr[..g]).calls[tr[g].call].code)
    ensures ConsumesAt(cfg, tr, h, c) <==>
      tr[h].now < tr[g].clock + cfg.otpDuration && CountIncrements(cfg, tr[..h], c) < cfg.AttemptLimit()
  {
    CodeWaits(cfg, tr, g, h, c);
    AttemptsAreCounted(cfg, tr[..h], c);
  }

  /**
    * Presented with its address to `LoginWithOtp`, the mailed code is accepted if and only if it is
    * not too late, however many attempts were counted.
    */
  lemma MailedCodeLogsInExactly(cfg: Config, tr: seq<Event>, g: nat, h: nat, c: Uuid, u: Uuid)
    requires StoresAt(cfg, tr, g, c) && g < h < |tr|
    requires LeftAlone(cfg, tr, g + 1, h, c, Run(cfg, tr[..g]).calls[tr[g].call].email)
    requires tr[h].OtpConsume? && Legal(cfg, Run(cfg, tr[..h]), tr[h]) && !tr[h].fault
    requires var f := Run(cfg, tr[..g]).calls[tr[g].call];
      Run(cfg, tr[..h]).calls[tr[h].call] == OtpConsuming(u, f.email, f.code)
    ensures ConsumesAt(cfg, tr, h, c) <==> tr[h].now < tr[g].clock + cfg.otpDuration
  {
    CodeWaits(cfg, tr, g, h, c);
    RunIsSound(cfg, tr[..h]);
    var f := Run(cfg, tr[..g]).calls[tr[g].call];
    LoginConsumesExactly(cfg, Run(cfg, tr[..h]), tr[h], c, u, f.email, f.code, tr[g].clock + cfg.otpDuration);
  }

  lemma LoginConsumesExactly(
    cfg: Config, s: Sys, e: Event, c: Uuid, u: Uuid, email: string, code: string, expiresAt: Time)
    requires Sound(s) && Waiting(s, c, email, code, expiresAt)
    requires e.OtpConsume? && Legal(cfg, s, e) && !e.fault && s.calls[e.call] == OtpConsuming(u, email, code)
    ensures Consumed(cfg, s, e) == Some(c) <==> e.now < expiresAt
  {
    assert e.now < expiresAt <==> Sql.LoginMatch(s.db.otps[c], OtpMac(code), email, e.now);
  }

  // --- The consumed challenge becomes a reset token ---

  lemma ConsumingCallLooks(cfg: Config, tr: seq<Event>, h: nat, c: Uuid)
    requires ConsumesAt(cfg, tr, h, c) && tr[h].VerifyConsume?
    ensures var s' := Run(cfg, tr[..h + 1]);
      && tr[h].call in s'.calls
      && s'.calls[tr[h].call] == VerifyLooking(c, Run(cfg, tr[..h]).db.otps[c].identifier)
  {
    RunOneMore(cfg, INIT, tr, h);
    ConsumeView(cfg, Run(cfg, tr[..h]), tr[h]);
  }

  lemma LookingCallFinds(cfg: Config, tr: seq<Event>, j: nat, c: Uuid, email: string)
    requires j < |tr| && tr[j].VerifyLookup? && !tr[j].fault
    requires var s := Run(cfg, tr[..j]); tr[j].call in s.calls && s.calls[tr[j].call] == VerifyLooking(c, email)
    ensures var s' := Run(cfg, tr[..j + 1]);
      && tr[j].call in s'.calls
      && c in LogOf(cfg, tr[..j]).sent
      && s'.calls[tr[j].call] == VerifySaving(c, LogOf(cfg, tr[..j]).sent[c].user)
      && IsUser(Run(cfg, tr[..j]).db.users, LogOf(cfg, tr[..j]).sent[c].user, email)
  {
    RunIsTraced(cfg, tr[..j]);
    var s, l := Run(cfg, tr[..j]), LogOf(cfg, tr[..j]);
    assert FrameOk(s.db.users, l, tr[j].call, s.calls[tr[j].call]);
    ConsumedChallengeHasUser(cfg, tr[..j]);
    RunOneMore(cfg, INIT, tr, j);
  }

  /** The hashes stored are of secrets drawn. */
  ghost predicate SecretsDrawn(s: Sys) {
    forall i | i in s.db.resets :: s.db.resets[i].hash.secret in s.secrets
  }

  lemma {:induction false} RunDrawsSecrets(cfg: Config, tr: seq<Event>)
    ensures SecretsDrawn(Run(cfg, tr))
  {
    if tr != [] {
      var s, e := Run(cfg, tr[..|tr| - 1]), tr[|tr| - 1];
      RunDrawsSecrets(cfg, tr[..|tr| - 1]);
      DrawnStaysDrawn(cfg, s, e);
      if e.Reset? {
        ResetView(cfg, s, NOTHING, e);
      } else if !e.VerifySave? {
        ResetsUntouched(cfg, s, e);
      }
    }
  }

  lemma SavingCallMints(cfg: Config, tr: seq<Event>, m: nat, c: Uuid, u: Uuid)
    requires m < |tr| && tr[m].VerifySave? && !tr[m].fault && Legal(cfg, Run(cfg, tr[..m]), tr[m])
    requires Run(cfg, tr[..m]).calls[tr[m].call] == VerifySaving(c, u)
    ensures MintsAt(cfg, tr, m, c)
    ensures Unredeemed(Run(cfg, tr[..m + 1]), tr[m].id, u, tr[m].secret, tr[m].clock + cfg.resetDuration)
  {
    var s := Run(cfg, tr[..m]);
    RunIsTraced(cfg, tr[..m]);
    RunIsSound(cfg, tr[..m]);
    RunDrawsSecrets(cfg, tr[..m]);
    assert FrameOk(s.db.users, LogOf(cfg, tr[..m]), tr[m].call, s.calls[tr[m].call]);
    RunOneMore(cfg, INIT, tr, m);
    MintView(cfg, s, NOTHING, tr[m]);
  }

  // --- The reset token stays good ---

  ghost predicate Unredeemed(s: Sys, i: Uuid, u: Uuid, secret: string, expiresAt: Time) {
    && i in s.db.resets
    && var r := s.db.resets[i];
      r.user == u && r.hash == ResetMac(secret) && r.usedAt == None && r.expiresAt == expiresAt
  }

  lemma UnredeemedStays(cfg: Config, s: Sys, e: Event, i: Uuid, u: Uuid, secret: string, expiresAt: Time)
    requires s.db.resets.Keys <= s.issued && Unredeemed(s, i, u, secret, expiresAt)
    requires !(ChangesPassword(s, e) && e.secret == secret)
    ensures Unredeemed(Step(cfg, s, e), i, u, secret, expiresAt)
  {
    if e.VerifySave? {
      if Legal(cfg, s, e) {
        MintView(cfg, s, NOTHING, e);
      }
    } else if e.Reset? {
      ResetView(cfg, s, NOTHING, e);
    } else {
      ResetsUntouched(cfg, s, e);
    }
  }

  lemma {:induction false} TokenWaits(
    cfg: Config, tr: seq<Event>, i: nat, j: nat, id: Uuid, u: Uuid, secret: string, expiresAt: Time)
    requires i <= j <= |tr| && Unredeemed(Run(cfg, tr[..i]), id, u, secret, expiresAt)
    requires forall k: nat | i <= k < j && ChangesAt(cfg, tr, k) :: tr[k].secret != secret
    ensures Unredeemed(Run(cfg, tr[..j]), id, u, secret, expiresAt)
    decreases j
  {
    if i < j {
      var k := j - 1;
      TokenWaits(cfg, tr, i, k, id, u, secret, expiresAt);
      RunIsSound(cfg, tr[..k]);
      RunOneMore(cfg, INIT, tr, k);
      assert ChangesAt(cfg, tr, k) ==> tr[k].secret != secret;
      UnredeemedStays(cfg, Run(cfg, tr[..k]), tr[k], id, u, secret, expiresAt);
    }
  }

  /** A token not yet used changes its user's password if and only if it is not too late. */
  lemma TokenRedeemedExactly(cfg: Config, tr: seq<Event>, i: nat, id: Uuid, u: Uuid, expiresAt: Time)
    requires i < |tr| && tr[i].Reset? && !Strikes(tr[i].txFault, 3)
    requires Unredeemed(Run(cfg, tr[..i]), id, u, tr[i].secret, expiresAt)
    ensures ChangesAt(cfg, tr, i) <==> tr[i].now < expiresAt
    ensures ChangesAt(cfg, tr, i) ==>
      && ResetRowOf(Run(cfg, tr[..i]), tr[i]).reset.user == u
      && HasPassword(Run(cfg, tr[..i + 1]), u, tr[i].password)
  {
    RunIsSound(cfg, tr[..i]);
    RunOneMore(cfg, INIT, tr, i);
    ResetView(cfg, Run(cfg, tr[..i]), NOTHING, tr[i]);
  }

  // --- The new password works ---

  ghost predicate HasPassword(s: Sys, u: Uuid, password: string) {
    u in s.db.users && CheckPassword(s.db.users[u].password, password)
  }

  lemma PasswordStays(cfg: Config, s: Sys, e: Event, u: Uuid, password: string)
    requires Sound(s) && HasPassword(s, u, password) && ResetUser(s, e) != Some(u)
    ensures HasPassword(Step(cfg, s, e), u, password)
  {
    if e.Reset? {
      PasswordStaysOnReset(cfg, s, e, u, password);
    } else if !e.Register? {
      UsersUntouched(cfg, s, e);
    }
  }

  lemma PasswordStaysOnReset(cfg: Config, s: Sys, e: Event, u: Uuid, password: string)
    requires e.Reset? && HasPassword(s, u, password) && ResetUser(s, e) != Some(u)
    ensures HasPassword(Step(cfg, s, e), u, password)
  {
  }

  lemma {:induction false} PasswordWaits(cfg: Config, tr: seq<Event>, i: nat, j: nat, u: Uuid, password: string)
    requires i <= j <= |tr| && HasPassword(Run(cfg, tr[..i]), u, password)
    requires forall k: nat | i <= k < j :: !SetsAt(cfg, tr, k, u)
    ensures HasPassword(Run(cfg, tr[..j]), u, password)
    decreases j
  {
    if i < j {
      var k := j - 1;
      PasswordWaits(cfg, tr, i, k, u, password);
      PasswordWaitsOneMore(cfg, tr, k, u, password);
    }
  }

  lemma PasswordWaitsOneMore(cfg: Config, tr: seq<Event>, j: nat, u: Uuid, password: string)
    requires j < |tr| && HasPassword(Run(cfg, tr[..j]), u, password) && !SetsAt(cfg, tr, j, u)
    ensures HasPassword(Run(cfg, tr[..j + 1]), u, password)
  {
    RunIsSound(cfg, tr[..j]);
    RunOneMore(cfg, INIT, tr, j);
    PasswordStays(cfg, Run(cfg, tr[..j]), tr[j], u, password);
  }

  /** A login with a user's address gets past the password check exactly when the password is right. */
  lemma LoginChecksPassword(cfg: Config, tr: seq<Event>, n: nat, u: Uuid)
    requires n < |tr| && tr[n].LoginLookup? && !tr[n].fault && Legal(cfg, Run(cfg, tr[..n]), tr[n])
    requires IsUser(Run(cfg, tr[..n]).db.users, u, tr[n].email)
    ensures var s' := Run(cfg, tr[..n + 1]);
      if HasPassword(Run(cfg, tr[..n]), u, tr[n].password) then
        tr[n].call in s'.calls && s'.calls[tr[n].call] == LoginSaving(u)
      else tr[n].call !in s'.calls
  {
    RunIsSound(cfg, tr[..n]);
    RunOneMore(cfg, INIT, tr, n);
    LookupFinds(Run(cfg, tr[..n]).db, tr[n].email, false);
  }

  lemma SavingLoginOpens(cfg: Config, tr: seq<Event>, m: nat, u: Uuid)
    requires m < |tr| && tr[m].LoginSave? && !tr[m].fault && Legal(cfg, Run(cfg, tr[..m]), tr[m])
    requires Run(cfg, tr[..m]).calls[tr[m].call] == LoginSaving(u)
    ensures Opens(cfg, Run(cfg, tr[..m]), tr[m])
  {
    var s := Run(cfg, tr[..m]);
    RunIsSound(cfg, tr[..m]);
    RunIsTraced(cfg, tr[..m]);
    assert FrameOk(s.db.users, LogOf(cfg, tr[..m]), tr[m].call, s.calls[tr[m].call]);
  }

  lemma {:induction false} UserWaits(cfg: Config, tr: seq<Event>, i: nat, j: nat, u: Uuid, email: string)
    requires i <= j <= |tr| && IsUser(Run(cfg, tr[..i]).db.users, u, email)
    ensures IsUser(Run(cfg, tr[..j]).db.users, u, email)
    decreases j
  {
    if i < j {
      var k := j - 1;
      UserWaits(cfg, tr, i, k, u, email);
      RunIsSound(cfg, tr[..k]);
      RunOneMore(cfg, INIT, tr, k);
      UsersStay(cfg, Run(cfg, tr[..k]), tr[k]);
    }
  }

  // --- The whole way ---

  /** The `SendCode` that stores its challenge at `g`, with what it knows at that point. */
  ghost predicate SendsAt(cfg: Config, tr: seq<Event>, g: nat, c: Uuid, f: Frame) {
    StoresAt(cfg, tr, g, c) && f.SendStoring? && f == Run(cfg, tr[..g]).calls[tr[g].call]
  }

  /**
    * The mailed code is presented at `h` with its challenge id: in time, before the limit, with
    * no rival consumption or newer code.
    */
  ghost predicate PresentsAt(cfg: Config, tr: seq<Event>, g: nat, h: nat, c: Uuid, f: Frame) {
    && SendsAt(cfg, tr, g, c, f) && g < h < |tr|
    && tr[h].VerifyConsume? && Legal(cfg, Run(cfg, tr[..h]), tr[h]) && !tr[h].fault
    && Run(cfg, tr[..h]).calls[tr[h].call] == VerifyConsuming(c, f.code)
    && LeftAlone(cfg, tr, g + 1, h, c, f.email)
    && tr[h].now < tr[g].clock + cfg.otpDuration && CountIncrements(cfg, tr[..h], c) < cfg.AttemptLimit()
  }

  /** The verification goes on at `j` and `m` without being lost. */
  ghost predicate CarriesOn(cfg: Config, tr: seq<Event>, h: nat, j: nat, m: nat) {
    && h < j < m < |tr| && tr[h].VerifyConsume?
    && tr[j].VerifyLookup? && tr[j].call == tr[h].call && !tr[j].fault && Undisturbed(tr, h + 1, j, tr[h].call)
    && tr[m].VerifySave? && tr[m].call == tr[h].call && !tr[m].fault && Undisturbed(tr, j + 1, m, tr[h].call)
    && tr[m].id !in Run(cfg, tr[..m]).issued && tr[m].secret !in Run(cfg, tr[..m]).secrets
  }

  lemma PresentedCodeLooks(cfg: Config, tr: seq<Event>, g: nat, h: nat, c: Uuid, f: Frame)
    requires PresentsAt(cfg, tr, g, h, c, f)
    ensures ConsumesAt(cfg, tr, h, c)
    ensures var s' := Run(cfg, tr[..h + 1]); tr[h].call in s'.calls && s'.calls[tr[h].call] == VerifyLooking(c, f.email)
  {
    MailedCodeAcceptedExactly(cfg, tr, g, h, c);
    CodeWaits(cfg, tr, g, h, c);
    ConsumingCallLooks(cfg, tr, h, c);
  }

  lemma SentIsKept(cfg: Config, tr: seq<Event>, g: nat, j: nat, c: Uuid, f: Frame)
    requires SendsAt(cfg, tr, g, c, f) && g < j <= |tr|
    ensures c in LogOf(cfg, tr[..j]).sent && LogOf(cfg, tr[..j]).sent[c].user == f.user
  {
    StoredIsNoted(cfg, tr, g, c);
    NotesAreKept(cfg, tr, g + 1, j);
  }

  lemma LookingCallFindsUser(cfg: Config, tr: seq<Event>, g: nat, j: nat, c: Uuid, f: Frame)
    requires SendsAt(cfg, tr, g, c, f) && g < j < |tr| && tr[j].VerifyLookup? && !tr[j].fault
    requires var s := Run(cfg, tr[..j]); tr[j].call in s.calls && s.calls[tr[j].call] == VerifyLooking(c, f.email)
    ensures IsUser(Run(cfg, tr[..j]).db.users, f.user, f.email)
    ensures var s' := Run(cfg, tr[..j + 1]); tr[j].call in s'.calls && s'.calls[tr[j].call] == VerifySaving(c, f.user)
  {
    SentIsKept(cfg, tr, g, j, c, f);
    LookingCallFinds(cfg, tr, j, c, f.email);
  }

  ghost predicate InFrame(s: Sys, call: CallId, frame: Frame) {
    call in s.calls && s.calls[call] == frame
  }

  lemma LookingWaits(cfg: Config, tr: seq<Event>, h: nat, j: nat, m: nat, frame: Frame)
    requires CarriesOn(cfg, tr, h, j, m) && InFrame(Run(cfg, tr[..h + 1]), tr[h].call, frame)
    ensures InFrame(Run(cfg, tr[..j]), tr[j].call, frame)
  {
    FrameWaits(cfg, tr, h + 1, j, tr[h].call);
  }

  lemma SavingWaits(cfg: Config, tr: seq<Event>, h: nat, j: nat, m: nat, frame: Frame)
    requires CarriesOn(cfg, tr, h, j, m) && InFrame(Run(cfg, tr[..j + 1]), tr[j].call, frame)
    ensures InFrame(Run(cfg, tr[..m]), tr[m].call, frame)
  {
    FrameWaits(cfg, tr, j + 1, m, tr[h].call);
  }

  lemma LookingCallSaves(cfg: Config, tr: seq<Event>, g: nat, h: nat, j: nat, m: nat, c: Uuid, f: Frame)
    requires SendsAt(cfg, tr, g, c, f) && g < h && CarriesOn(cfg, tr, h, j, m)
    requires InFrame(Run(cfg, tr[..h + 1]), tr[h].call, VerifyLooking(c, f.email))
    ensures IsUser(Run(cfg, tr[..j]).db.users, f.user, f.email)
    ensures InFrame(Run(cfg, tr[..m]), tr[m].call, VerifySaving(c, f.user))
  {
    LookingWaits(cfg, tr, h, j, m, VerifyLooking(c, f.email));
    LookingCallFindsUser(cfg, tr, g, j, c, f);
    SavingWaits(cfg, tr, h, j, m, VerifySaving(c, f.user));
  }

  /** The first half: the mailed code yields a reset token for the user it was mailed to. */
  lemma CodeYieldsToken(cfg: Config, tr: seq<Event>, g: nat, h: nat, j: nat, m: nat, c: Uuid, f: Frame)
    requires PresentsAt(cfg, tr, g, h, c, f) && CarriesOn(cfg, tr, h, j, m)
    ensures ConsumesAt(cfg, tr, h, c) && MintsAt(cfg, tr, m, c)
    ensures IsUser(Run(cfg, tr[..m]).db.users, f.user, f.email)
    ensures Unredeemed(Run(cfg, tr[..m + 1]), tr[m].id, f.user, tr[m].secret, tr[m].clock + cfg.resetDuration)
  {
    PresentedCodeLooks(cfg, tr, g, h, c, f);
    LookingCallSaves(cfg, tr, g, h, j, m, c, f);
    UserWaits(cfg, tr, j, m, f.user, f.email);
    SavingCallMints(cfg, tr, m, c, f.user);
  }

  /**
    * A reset with the token at `i` and a login with the new password at `n` and `o`, none of whose
    * statements is lost, in time, with no other use of the token and no later reset of the user.
    */
  ghost predicate ResetAndLogin(cfg: Config, tr: seq<Event>, m: nat, i: nat, n: nat, o: nat, f: Frame) {
    && m < i < n < o < |tr| && tr[m].VerifySave? && f.SendStoring?
    && tr[i].Reset? && tr[i].secret == tr[m].secret && !Strikes(tr[i].txFault, 3)
    && tr[i].now < tr[m].clock + cfg.resetDuration
    && (forall k: nat | m < k < i && ChangesAt(cfg, tr, k) :: tr[k].secret != tr[m].secret)
    && tr[n].LoginLookup? && Legal(cfg, Run(cfg, tr[..n]), tr[n]) && !tr[n].fault
    && tr[n].email == f.email && tr[n].password == tr[i].password
    && (forall k: nat | i < k < n :: !SetsAt(cfg, tr, k, f.user))
    && tr[o].LoginSave? && tr[o].call == tr[n].call && !tr[o].fault && Undisturbed(tr, n + 1, o, tr[n].call)
    && tr[o].id !in Run(cfg, tr[..o]).issued
  }

  lemma TokenResets(cfg: Config, tr: seq<Event>, m: nat, i: nat, n: nat, o: nat, f: Frame)
    requires ResetAndLogin(cfg, tr, m, i, n, o, f)
    requires Unredeemed(Run(cfg, tr[..m + 1]), tr[m].id, f.user, tr[m].secret, tr[m].clock + cfg.resetDuration)
    ensures ChangesAt(cfg, tr, i) && ResetRowOf(Run(cfg, tr[..i]), tr[i]).reset.user == f.user
    ensures HasPassword(Run(cfg, tr[..i + 1]), f.user, tr[i].password)
  {
    TokenWaits(cfg, tr, m + 1, i, tr[m].id, f.user, tr[m].secret, tr[m].clock + cfg.resetDuration);
    TokenRedeemedExactly(cfg, tr, i, tr[m].id, f.user, tr[m].clock + cfg.resetDuration);
  }

  lemma TokenSetsPassword(cfg: Config, tr: seq<Event>, m: nat, i: nat, n: nat, o: nat, f: Frame)
    requires ResetAndLogin(cfg, tr, m, i, n, o, f)
    requires Unredeemed(Run(cfg, tr[..m + 1]), tr[m].id, f.user, tr[m].secret, tr[m].clock + cfg.resetDuration)
    ensures ChangesAt(cfg, tr, i) && ResetRowOf(Run(cfg, tr[..i]), tr[i]).reset.user == f.user
    ensures HasPassword(Run(cfg, tr[..n]), f.user, tr[n].password)
  {
    TokenResets(cfg, tr, m, i, n, o, f);
    PasswordWaits(cfg, tr, i + 1, n, f.user, tr[i].password);
  }

  lemma PasswordOpensSession(cfg: Config, tr: seq<Event>, n: nat, o: nat, u: Uuid)
    requires n < o < |tr| && tr[n].LoginLookup? && Legal(cfg, Run(cfg, tr[..n]), tr[n]) && !tr[n].fault
    requires IsUser(Run(cfg, tr[..n]).db.users, u, tr[n].email) && HasPassword(Run(cfg, tr[..n]), u, tr[n].password)
    requires tr[o].LoginSave? && tr[o].call == tr[n].call && !tr[o].fault && Undisturbed(tr, n + 1, o, tr[n].call)
    requires tr[o].id !in Run(cfg, tr[..o]).issued
    ensures tr[o].call in Run(cfg, tr[..o]).calls && Run(cfg, tr[..o]).calls[tr[o].call] == LoginSaving(u)
    ensures Opens(cfg, Run(cfg, tr[..o]), tr[o])
  {
    LoginChecksPassword(cfg, tr, n, u);
    FrameWaits(cfg, tr, n + 1, o, tr[n].call);
    SavingLoginOpens(cfg, tr, o, u);
  }

  /** The second half: the reset token yields a session of its user under the new password. */
  lemma TokenYieldsLogin(cfg: Config, tr: seq<Event>, m: nat, i: nat, n: nat, o: nat, f: Frame)
    requires ResetAndLogin(cfg, tr, m, i, n, o, f)
    requires IsUser(Run(cfg, tr[..m]).db.users, f.user, f.email)
    requires Unredeemed(Run(cfg, tr[..m + 1]), tr[m].id, f.user, tr[m].secret, tr[m].clock + cfg.resetDuration)
    ensures ChangesAt(cfg, tr, i) && ResetRowOf(Run(cfg, tr[..i]), tr[i]).reset.user == f.user
    ensures tr[o].call in Run(cfg, tr[..o]).calls && Run(cfg, tr[..o]).calls[tr[o].call] == LoginSaving(f.user)
    ensures Opens(cfg, Run(cfg, tr[..o]), tr[o])
  {
    TokenSetsPassword(cfg, tr, m, i, n, o, f);
    UserWaits(cfg, tr, m, n, f.user, f.email);
    PasswordOpensSession(cfg, tr, n, o, f.user);
  }

  /**
    * Recovery works, with any steps of other calls in between: the code that `SendCode` mailed
    * yields a token, the token sets the password, and a login with that password opens a session
    * of the user whose address the code was mailed to.
    */
  lemma RecoveryWorks(
    cfg: Config, tr: seq<Event>, g: nat, h: nat, j: nat, m: nat, i: nat, n: nat, o: nat, c: Uuid, f: Frame)
    requires PresentsAt(cfg, tr, g, h, c, f) && CarriesOn(cfg, tr, h, j, m) && ResetAndLogin(cfg, tr, m, i, n, o, f)
    ensures ConsumesAt(cfg, tr, h, c) && MintsAt(cfg, tr, m, c)
    ensures ChangesAt(cfg, tr, i) && ResetRowOf(Run(cfg, tr[..i]), tr[i]).reset.user == f.user
    ensures tr[o].call in Run(cfg, tr[..o]).calls && Run(cfg, tr[..o]).calls[tr[o].call] == LoginSaving(f.user)
    ensures Opens(cfg, Run(cfg, tr[..o]), tr[o])
  {
    CodeYieldsToken(cfg, tr, g, h, j, m, c, f);
    TokenYieldsLogin(cfg, tr, m, i, n, o, f);
  }
}
