/**
  * One run of the service. A user recovers the account by a mailed code, sets a new password and
  * logs in with it; a login that checked the former password before the reset stores its session last.
  */
module Example {
  import opened Schema
  import opened UnitOfWork
  import opened Sql
  import opened Transactions
  import opened Machine
  import opened Recovery
  import opened Guarantees
  import opened Guessing
  import opened RoundTrip
  import opened Lingering
  import opened Racing

  const CODE := Codes.FormatCode(0)
  const USER := Uuid(0)
  const SENDING := SendStoring(CHALLENGE, USER, EMAIL, CODE)

  const STORY := [
    Register(USER, EMAIL, "ann", "former", Some(0), false),
    LoginLookup(0, EMAIL, "former", false),
    SendLookup(1, CHALLENGE, EMAIL, false),
    SendMail(1, 0),
    SendStore(1, 0, 0, NoFault),
    VerifyBegin(2, CHALLENGE, CODE),
    VerifyConsume(2, 0, false),
    VerifyLookup(2, false),
    VerifySave(2, Uuid(2), "token", 0, 0, false),
    Reset("token", "new", 0, 0, NoFault),
    LoginLookup(3, EMAIL, "new", false),
    LoginSave(3, Uuid(3), 0, 0, false),
    LoginSave(0, Uuid(4), 0, 0, false)
  ]

  // --- What has been drawn by when ---

  function DrawnIds(e: Event): set<Uuid> {
    if e.Register? || e.LoginSave? || e.OtpSave? || e.VerifySave? then {e.id}
    else if e.SendLookup? then {e.challenge}
    else if e.Refresh? then {e.newId}
    else {}
  }

  lemma IssuedGrowsBy(cfg: Config, s: Sys, e: Event)
    ensures Step(cfg, s, e).issued <= s.issued + DrawnIds(e)
    ensures !e.VerifySave? ==> Step(cfg, s, e).secrets == s.secrets
  {
  }

  lemma {:induction false} OnlyIssued(cfg: Config, tr: seq<Event>, ids: set<Uuid>)
    requires forall i | 0 <= i < |tr| :: DrawnIds(tr[i]) <= ids
    ensures Run(cfg, tr).issued <= ids
  {
    if tr != [] {
      OnlyIssued(cfg, tr[..|tr| - 1], ids);
      IssuedGrowsBy(cfg, Run(cfg, tr[..|tr| - 1]), tr[|tr| - 1]);
    }
  }

  lemma {:induction false} NoSecrets(cfg: Config, tr: seq<Event>)
    requires forall i | 0 <= i < |tr| :: !tr[i].VerifySave?
    ensures Run(cfg, tr).secrets == {}
  {
    if tr != [] {
      NoSecrets(cfg, tr[..|tr| - 1]);
      IssuedGrowsBy(cfg, Run(cfg, tr[..|tr| - 1]), tr[|tr| - 1]);
    }
  }

  lemma {:induction false} NoIncrements(cfg: Config, tr: seq<Event>, c: Uuid)
    requires forall i | 0 <= i < |tr| :: !tr[i].VerifyIncrease?
    ensures CountIncrements(cfg, tr, c) == 0
  {
    if tr != [] {
      NoIncrements(cfg, tr[..|tr| - 1], c);
    }
  }

  // --- Up to the mailed code ---

  const REGISTERED := EMPTY_TABLES.(users := map[USER := User(EMAIL, Bcrypt(0, "former"), "ann")])

  lemma Registers(cfg: Config)
    ensures Run(cfg, STORY[..1]) == INIT.(db := REGISTERED, issued := {USER})
  {
    RunOneMore(cfg, INIT, STORY, 0);
    assert STORY[..0] == [];
  }

  lemma AnnIsFound()
    ensures Lookup(REGISTERED, EMAIL, false) == UserRow(USER, REGISTERED.users[USER])
  {
    LookupFinds(REGISTERED, EMAIL, false);
    assert REGISTERED.users[USER].email == EMAIL;
  }

  lemma ChecksFormerPassword(cfg: Config)
    ensures var s := Run(cfg, STORY[..2]);
      && s.db == REGISTERED
      && s.issued == {USER} && s.started == {0} && s.calls == map[0 := LoginSaving(USER)]
    ensures ChecksAt(cfg, STORY, 1, 0, USER)
  {
    Registers(cfg);
    RunOneMore(cfg, INIT, STORY, 1);
    AnnIsFound();
  }

  lemma AsksView(cfg: Config, s: Sys)
    requires 1 !in s.started && CHALLENGE !in s.issued && s.db == REGISTERED
    requires Lookup(REGISTERED, EMAIL, false) == UserRow(USER, REGISTERED.users[USER])
    ensures var s' := Step(cfg, s, SendLookup(1, CHALLENGE, EMAIL, false));
      s'.db == s.db && s'.calls == s.calls[1 := SendMailing(CHALLENGE, USER, EMAIL)]
  {
  }

  lemma AsksForCode(cfg: Config)
    ensures var s := Run(cfg, STORY[..3]);
      && s.db == REGISTERED
      && s.calls == map[0 := LoginSaving(USER), 1 := SendMailing(CHALLENGE, USER, EMAIL)]
  {
    ChecksFormerPassword(cfg);
    RunOneMore(cfg, INIT, STORY, 2);
    AnnIsFound();
    AsksView(cfg, Run(cfg, STORY[..2]));
  }

  lemma MailsCode(cfg: Config)
    requires cfg.maxValue > 0
    ensures var s := Run(cfg, STORY[..4]); s.db.otps == map[] && 1 in s.calls && s.calls[1] == SENDING
  {
    AsksForCode(cfg);
    RunOneMore(cfg, INIT, STORY, 3);
  }

  lemma FirstCodeIsAccepted(t: Tables, otp: Otp)
    requires t.otps == map[] && otp.attempts == 0
    ensures SendAccepted(t, CHALLENGE, otp, NoFault)
  {
  }

  lemma GetsCode(cfg: Config)
    requires cfg.maxValue > 0
    ensures SendsAt(cfg, STORY, 4, CHALLENGE, SENDING)
  {
    MailsCode(cfg);
    FirstCodeIsAccepted(Run(cfg, STORY[..4]).db, NewOtp(cfg, EMAIL, CODE, 0, 0));
  }

  // --- The hypotheses of the round trip ---

  lemma BeginsVerification(cfg: Config)
    ensures var s := Run(cfg, STORY[..6]); 2 in s.calls && s.calls[2] == VerifyConsuming(CHALLENGE, CODE)
  {
    OnlyStarted(cfg, STORY[..5], {0, 1});
    RunOneMore(cfg, INIT, STORY, 5);
  }

  lemma CodeIsLeftAlone(cfg: Config)
    ensures LeftAlone(cfg, STORY, 5, 6, CHALLENGE, EMAIL)
  {
    assert STORY[5].VerifyBegin?;
  }

  lemma PresentsCode(cfg: Config)
    requires cfg.maxValue > 0 && cfg.otpDuration > 0 && cfg.AttemptLimit() >= 1
    ensures PresentsAt(cfg, STORY, 4, 6, CHALLENGE, SENDING)
  {
    GetsCode(cfg);
    BeginsVerification(cfg);
    NoIncrements(cfg, STORY[..6], CHALLENGE);
    CodeIsLeftAlone(cfg);
  }

  lemma VerificationCarriesOn(cfg: Config)
    ensures CarriesOn(cfg, STORY, 6, 7, 8)
  {
    OnlyIssued(cfg, STORY[..8], {USER, CHALLENGE});
    NoSecrets(cfg, STORY[..8]);
  }

  lemma ResetsAndLogsIn(cfg: Config)
    requires cfg.resetDuration > 0
    ensures ResetAndLogin(cfg, STORY, 8, 9, 10, 11, SENDING)
  {
    OnlyStarted(cfg, STORY[..10], {0, 1, 2});
    OnlyIssued(cfg, STORY[..11], {USER, CHALLENGE, Uuid(2)});
  }

  /** The hypotheses of the round trip can be met, so the recovery of this run works. */
  lemma StoryRecovers(cfg: Config)
    requires cfg.maxValue > 0 && cfg.otpDuration > 0 && cfg.resetDuration > 0 && cfg.AttemptLimit() >= 1
    ensures PresentsAt(cfg, STORY, 4, 6, CHALLENGE, SENDING) && CarriesOn(cfg, STORY, 6, 7, 8)
    ensures ResetAndLogin(cfg, STORY, 8, 9, 10, 11, SENDING)
    ensures SetsAt(cfg, STORY, 9, USER) && OpensFor(cfg, STORY, 11, USER)
  {
    PresentsCode(cfg);
    VerificationCarriesOn(cfg);
    ResetsAndLogsIn(cfg);
    RecoveryWorks(cfg, STORY, 4, 6, 7, 8, 9, 10, 11, CHALLENGE, SENDING);
  }

  // --- The login that lingers ---

  lemma FormerLoginWaits(cfg: Config, j: nat)
    requires 2 <= j <= 12
    ensures var s := Run(cfg, STORY[..j]); 0 in s.calls && s.calls[0] == LoginSaving(USER)
  {
    ChecksFormerPassword(cfg);
    FrameWaits(cfg, STORY, 2, j, 0);
  }

  /**
    * A login that presented the former password before the reset is in flight when the reset
    * commits, and stores a session of the user after it.
    */
  lemma FormerPasswordOpensLater(cfg: Config)
    requires cfg.maxValue > 0 && cfg.otpDuration > 0 && cfg.resetDuration > 0 && cfg.AttemptLimit() >= 1
    ensures SetsAt(cfg, STORY, 9, USER) && LoginInFlight(Run(cfg, STORY[..10]), USER)
    ensures OpensFor(cfg, STORY, 12, USER) && STORY[12].LoginSave?
    ensures ChecksAt(cfg, STORY, 1, STORY[12].call, USER) && STORY[1].password != STORY[9].password
    ensures !CheckedSince(cfg, STORY, 9, 12, USER)
  {
    StoryRecovers(cfg);
    FormerLoginWaits(cfg, 10);
    FormerLoginOpens(cfg);
    ChecksFormerPassword(cfg);
    FormerLoginIsNotChecked(cfg);
  }

  lemma FormerLoginOpens(cfg: Config)
    ensures OpensFor(cfg, STORY, 12, USER)
  {
    FormerLoginWaits(cfg, 12);
    OnlyIssued(cfg, STORY[..12], {USER, CHALLENGE, Uuid(2), Uuid(3)});
    SavingLoginOpens(cfg, STORY, 12, USER);
  }

  lemma FormerLoginIsNotChecked(cfg: Config)
    ensures !CheckedSince(cfg, STORY, 9, 12, USER)
  {
    forall q: nat | 9 < q < 12 ensures !ChecksAt(cfg, STORY, q, 0, USER) {
      assert STORY[10].call == 3 && STORY[11].LoginSave?;
    }
  }
}
