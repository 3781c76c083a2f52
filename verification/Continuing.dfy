/**
  * What can always happen next: from every state that a run reaches, a registered user can recover
  * the account, and each thing that outlives a reset can be made to.
  */
module Continuing {
  import opened Schema
  import opened UnitOfWork
  import opened Machine
  import opened Recovery
  import opened Guarantees
  import opened RoundTrip
  import opened Lingering
  import opened Calls
  import opened OtpCodes

  /** Codes can be drawn, and nothing expires at once or is locked from the start. */
  predicate Works(cfg: Config) {
    cfg.maxValue > 0 && cfg.otpDuration > 0 && cfg.resetDuration > 0 && cfg.AttemptLimit() >= 1
  }

  // --- Fresh values ---

  lemma {:induction false} CallBound(calls: set<CallId>) returns (bound: nat)
    ensures forall k | k in calls :: k < bound
  {
    if calls == {} {
      bound := 0;
    } else {
      var k :| k in calls;
      var rest := CallBound(calls - {k});
      bound := if rest <= k then k + 1 else rest;
      forall j | j in calls ensures j < bound {
        assert j == k || j in calls - {k};
      }
    }
  }

  lemma {:induction false} LengthBound(secrets: set<string>) returns (bound: nat)
    ensures forall x | x in secrets :: |x| < bound
  {
    if secrets == {} {
      bound := 0;
    } else {
      var x :| x in secrets;
      bound := LengthBound(secrets - {x});
      if bound <= |x| {
        bound := |x| + 1;
      }
    }
  }

  lemma FreshValues(s: Sys) returns (id: Uuid, call: CallId, secret: string)
    ensures id !in s.issued && call !in s.started && secret !in s.secrets
  {
    var a := BoundOf(s.issued);
    call := CallBound(s.started);
    var n := LengthBound(s.secrets);
    id, secret := Uuid(a), seq(n, _ => 'x');
  }

  // --- One call after any run ---

  /** A live code for the address, that recovery may still guess at. */
  ghost predicate CodeReady(cfg: Config, t: Tables, c: Uuid, email: string, code: string, now: Time) {
    c in t.otps && t.otps[c] == NewOtp(cfg, email, code, now, now)
  }

  /** The user asks for a code, and it is mailed. */
  lemma AsksForCode(cfg: Config, tr: seq<Event>, u: Uuid, draw: nat, now: Time) returns (run: seq<Event>, c: Uuid)
    requires Works(cfg) && u in Run(cfg, tr).db.users && draw < cfg.maxValue
    ensures tr <= run && |run| == |tr| + 3
    ensures var t, t' := Run(cfg, tr).db, Run(cfg, run).db;
      && t'.users == t.users && t'.resets == t.resets
      && CodeReady(cfg, t', c, t.users[u].email, Codes.FormatCode(draw), now)
  {
    var t := Run(cfg, tr).db;
    var id, call, _ := FreshValues(Run(cfg, tr));
    c := id;
    var email := t.users[u].email;
    var env := SendEnv(c, false, Some(draw), true, now, now, now, NoFault);
    run := tr + SendCall(call, email, env);
    SendIsCall(cfg, tr, call, email, env);
    assert IsUser(t.users, u, email);
    LookupFindsExactly(t, email, false);
    var otp := NewOtp(cfg, email, Codes.FormatCode(draw), now, now);
    FreshChallengeIsStored(cfg, tr, c, otp, NoFault);
    SendTablesOtps(t, c, otp, NoFault);
  }

  lemma VerifyLeaves(cfg: Config, t: Tables, c: Uuid, code: string, env: VerifyEnv)
    ensures var t' := VerifyTables(cfg, t, c, code, env);
      && t'.users == t.users
      && (forall i | i in t.resets :: i in t'.resets && t'.resets[i] == t.resets[i])
  {
  }

  /** The user presents the code for recovery, and is handed a token. */
  lemma PresentsCode(cfg: Config, tr: seq<Event>, c: Uuid, u: Uuid, code: string, now: Time)
    returns (run: seq<Event>, id: Uuid, secret: string)
    requires Works(cfg) && u in Run(cfg, tr).db.users
    requires CodeReady(cfg, Run(cfg, tr).db, c, Run(cfg, tr).db.users[u].email, code, now)
    ensures tr <= run && |run| == |tr| + 5
    ensures secret !in Run(cfg, tr).secrets && id !in Run(cfg, tr).issued
    ensures Unredeemed(Run(cfg, run), id, u, secret, now + cfg.resetDuration)
    ensures var t, t' := Run(cfg, tr).db, Run(cfg, run).db;
      t'.users == t.users && forall i | i in t.resets :: i in t'.resets && t'.resets[i] == t.resets[i]
  {
    var t := Run(cfg, tr).db;
    var call;
    id, call, secret := FreshValues(Run(cfg, tr));
    var env := VerifyEnv(now, false, now, false, false, Some(secret), id, now, now, false);
    run := tr + VerifyCall(call, c, code, env);
    VerifyIsCall(cfg, tr, call, c, code, env);
    VerifyAnswersExactly(cfg, tr, c, code, env);
    VerifyLeaves(cfg, t, c, code, env);
    RunIsSound(cfg, tr);
  }

  /** Both: the user gets a reset token by a code. */
  lemma GetsToken(cfg: Config, tr: seq<Event>, u: Uuid, draw: nat, now: Time)
    returns (run: seq<Event>, id: Uuid, secret: string)
    requires Works(cfg) && u in Run(cfg, tr).db.users && draw < cfg.maxValue
    ensures tr <= run && |run| == |tr| + 8
    ensures Unredeemed(Run(cfg, run), id, u, secret, now + cfg.resetDuration)
    ensures var t, t' := Run(cfg, tr).db, Run(cfg, run).db;
      t'.users == t.users && forall i | i in t.resets :: i in t'.resets && t'.resets[i] == t.resets[i]
    ensures secret !in Run(cfg, tr).secrets
  {
    var asked, c := AsksForCode(cfg, tr, u, draw, now);
    run, id, secret := PresentsCode(cfg, asked, c, u, Codes.FormatCode(draw), now);
    SecretsStay(cfg, asked, |tr|, |asked|);
    assert asked[..|tr|] == tr && asked[..|asked|] == asked;
  }

  lemma {:induction false} SecretsStay(cfg: Config, tr: seq<Event>, i: nat, j: nat)
    requires i <= j <= |tr|
    ensures Run(cfg, tr[..i]).secrets <= Run(cfg, tr[..j]).secrets
    decreases j
  {
    if i < j {
      var k := j - 1;
      SecretsStay(cfg, tr, i, k);
      RunOneMore(cfg, INIT, tr, k);
      DrawnStaysDrawn(cfg, Run(cfg, tr[..k]), tr[k]);
    }
  }

  /** The user sets a new password with a token. */
  lemma SetsWithToken(
    cfg: Config, tr: seq<Event>, id: Uuid, u: Uuid, secret: string, expiresAt: Time, password: string, salt: nat,
    now: Time)
    returns (run: seq<Event>)
    requires Unredeemed(Run(cfg, tr), id, u, secret, expiresAt) && now < expiresAt
    ensures run == tr + [Reset(secret, password, salt, now, NoFault)]
    ensures SetsAt(cfg, run, |tr|, u) && HasPassword(Run(cfg, run), u, password)
    ensures Run(cfg, run).db.otps == Run(cfg, tr).db.otps
  {
    var e := Reset(secret, password, salt, now, NoFault);
    run := tr + [e];
    assert run[..|tr|] == tr && run[..|tr| + 1] == run;
    TokenRedeemedExactly(cfg, run, |tr|, id, u, expiresAt);
    RunOneMore(cfg, INIT, run, |tr|);
    OtpsUntouched(cfg, Run(cfg, tr), e);
  }

  lemma LooksUp(cfg: Config, s: Sys, call: CallId, u: Uuid, email: string, password: string)
    requires Sound(s) && call !in s.started && IsUser(s.db.users, u, email) && HasPassword(s, u, password)
    ensures var s' := Step(cfg, s, LoginLookup(call, email, password, false)); s'.issued == s.issued && s'.db == s.db
  {
  }

  /** The user logs in with the password. */
  lemma LogsInWith(cfg: Config, tr: seq<Event>, u: Uuid, password: string, now: Time) returns (run: seq<Event>)
    requires HasPassword(Run(cfg, tr), u, password)
    ensures tr <= run && |run| == |tr| + 2
    ensures OpensFor(cfg, run, |tr| + 1, u) && run[|tr| + 1].LoginSave?
    ensures ChecksAt(cfg, run, |tr|, run[|tr| + 1].call, u) && run[|tr|].password == password
  {
    var s := Run(cfg, tr);
    var id, call, _ := FreshValues(s);
    var email := s.db.users[u].email;
    run := tr + [LoginLookup(call, email, password, false), LoginSave(call, id, now, now, false)];
    assert run[..|tr|] == tr;
    RunIsSound(cfg, tr);
    assert IsUser(s.db.users, u, email);
    LooksUp(cfg, s, call, u, email, password);
    RunOneMore(cfg, INIT, run, |tr|);
    PasswordOpensSession(cfg, run, |tr|, |tr| + 1, u);
  }

  // --- Recovery is always possible ---

  /**
    * From every state that a run reaches, every registered user can, with any code that is drawn,
    * set any new password and open a session with it.
    */
  lemma EveryUserRecovers(cfg: Config, tr: seq<Event>, u: Uuid, draw: nat, password: string, salt: nat, now: Time)
    returns (run: seq<Event>)
    requires Works(cfg) && u in Run(cfg, tr).db.users && draw < cfg.maxValue
    ensures tr <= run && |run| == |tr| + 11
    ensures SetsAt(cfg, run, |run| - 3, u) && run[|run| - 3].password == password
    ensures OpensFor(cfg, run, |run| - 1, u) && CheckedSince(cfg, run, |run| - 3, |run| - 1, u)
  {
    var got, id, secret := GetsToken(cfg, tr, u, draw, now);
    var reset := SetsWithToken(cfg, got, id, u, secret, now + cfg.resetDuration, password, salt, now);
    run := LogsInWith(cfg, reset, u, password, now);
    assert run[..|got|] == got && reset[..|got|] == got;
    assert SetsAt(cfg, run, |got|, u);
  }

  // --- What outlives a reset, happening ---

  /**
    * From every state that a run reaches, a user can have two tokens, reset the password with the
    * newer one, and then change it again with the older.
    */
  lemma OlderTokenChangesAgain(
    cfg: Config, tr: seq<Event>, u: Uuid, draw: nat, password: string, again: string, salt: nat, now: Time)
    returns (run: seq<Event>)
    requires Works(cfg) && u in Run(cfg, tr).db.users && draw < cfg.maxValue
    ensures tr <= run && |run| == |tr| + 18
    ensures SetsAt(cfg, run, |run| - 2, u) && SetsAt(cfg, run, |run| - 1, u)
    ensures run[|run| - 2].secret != run[|run| - 1].secret && HasPassword(Run(cfg, run), u, again)
  {
    var expiresAt := now + cfg.resetDuration;
    var first, id, secret := GetsToken(cfg, tr, u, draw, now);
    var second, newId, newSecret := GetsToken(cfg, first, u, draw, now);
    RunDrawsSecrets(cfg, first);
    assert Unredeemed(Run(cfg, second), id, u, secret, expiresAt);
    var reset := SetsWithToken(cfg, second, newId, u, newSecret, expiresAt, password, salt, now);
    OtherTokenWaits(cfg, second, id, u, secret, expiresAt, Reset(newSecret, password, salt, now, NoFault));
    run := SetsWithToken(cfg, reset, id, u, secret, expiresAt, again, salt, now);
    assert run[..|second|] == second && reset[..|second|] == second;
  }

  lemma OtherTokenWaits(cfg: Config, tr: seq<Event>, id: Uuid, u: Uuid, secret: string, expiresAt: Time, e: Event)
    requires Unredeemed(Run(cfg, tr), id, u, secret, expiresAt) && e.Reset? && e.secret != secret
    ensures Unredeemed(Run(cfg, tr + [e]), id, u, secret, expiresAt)
  {
    var run := tr + [e];
    assert run[..|tr|] == tr && run[..|tr| + 1] == run;
    RunIsSound(cfg, tr);
    RunOneMore(cfg, INIT, run, |tr|);
    UnredeemedStays(cfg, Run(cfg, tr), e, id, u, secret, expiresAt);
  }

  /** The user presents a live code to `LoginWithOtp`, which consumes it and goes on to store a session. */
  lemma LogsInByCode(cfg: Config, tr: seq<Event>, c: Uuid, u: Uuid, code: string, now: Time)
    returns (run: seq<Event>, call: CallId)
    requires cfg.otpDuration > 0 && u in Run(cfg, tr).db.users
    requires CodeReady(cfg, Run(cfg, tr).db, c, Run(cfg, tr).db.users[u].email, code, now)
    ensures tr <= run && |run| == |tr| + 2
    ensures ConsumesAt(cfg, run, |tr| + 1, c) && run[|tr| + 1].OtpConsume?
    ensures HoldsCode(Run(cfg, run), call, u, c)
    ensures Run(cfg, run).db.users == Run(cfg, tr).db.users && Run(cfg, run).db.resets == Run(cfg, tr).db.resets
  {
    var s := Run(cfg, tr);
    call := CallBound(s.started);
    var email := s.db.users[u].email;
    run := tr + [OtpLookup(call, email, code, false), OtpConsume(call, now, false)];
    assert run[..|tr|] == tr && run[..|tr| + 2] == run;
    RunIsSound(cfg, tr);
    RunOneMore(cfg, INIT, run, |tr|);
    LooksUpForCode(cfg, s, call, u, email, code);
    var s' := Run(cfg, run[..|tr| + 1]);
    RunIsSound(cfg, run[..|tr| + 1]);
    LoginConsumesExactly(cfg, s', run[|tr| + 1], c, u, email, code, now + cfg.otpDuration);
    RunOneMore(cfg, INIT, run, |tr| + 1);
    ConsumeView(cfg, s', run[|tr| + 1]);
  }

  lemma LooksUpForCode(cfg: Config, s: Sys, call: CallId, u: Uuid, email: string, code: string)
    requires Sound(s) && call !in s.started && IsUser(s.db.users, u, email)
    ensures Step(cfg, s, OtpLookup(call, email, code, false)) ==
      Continue(Begin(s, call), call, OtpConsuming(u, email, code))
  {
    LookupFinds(s.db, email, false);
  }

  /** From every state that a run reaches, a code mailed before a reset can log its user in after it. */
  lemma MailedCodeLogsInAfterReset(
    cfg: Config, tr: seq<Event>, u: Uuid, draw: nat, password: string, salt: nat, now: Time)
    returns (run: seq<Event>, g: nat, c: Uuid)
    requires Works(cfg) && u in Run(cfg, tr).db.users && draw < cfg.maxValue
    ensures tr <= run && |run| == |tr| + 14
    ensures g < |run| - 3 && StoresAt(cfg, run, g, c) && SetsAt(cfg, run, |run| - 3, u)
    ensures ConsumesAt(cfg, run, |run| - 1, c) && run[|run| - 1].OtpConsume?
  {
    var got, id, secret := GetsToken(cfg, tr, u, draw, now);
    var asked;
    asked, c := AsksForCode(cfg, got, u, draw, now);
    RunIsTraced(cfg, asked);
    var reset := SetsWithToken(cfg, asked, id, u, secret, now + cfg.resetDuration, password, salt, now);
    EmailStays(cfg, reset, |asked|, u);
    var call;
    run, call := LogsInByCode(cfg, reset, c, u, Codes.FormatCode(draw), now);
    assert run[..|asked|] == asked && reset[..|asked|] == asked;
    g := SentHappened(cfg, run, |asked|, c);
  }

  lemma EmailStays(cfg: Config, tr: seq<Event>, i: nat, u: Uuid)
    requires i <= |tr| && u in Run(cfg, tr[..i]).db.users
    ensures u in Run(cfg, tr).db.users && Run(cfg, tr).db.users[u].email == Run(cfg, tr[..i]).db.users[u].email
  {
    UserWaits(cfg, tr, i, |tr|, u, Run(cfg, tr[..i]).db.users[u].email);
    assert tr[..|tr|] == tr;
  }

  /**
    * From every state that a run reaches, a login by code can be between its check and its session
    * when a reset commits, and store a session of the user after it.
    */
  lemma HeldCodeOpensAfterReset(
    cfg: Config, tr: seq<Event>, u: Uuid, draw: nat, password: string, salt: nat, now: Time)
    returns (run: seq<Event>)
    requires Works(cfg) && u in Run(cfg, tr).db.users && draw < cfg.maxValue
    ensures tr <= run && |run| == |tr| + 15
    ensures SetsAt(cfg, run, |run| - 2, u) && CodeLoginInFlight(Run(cfg, run[..|run| - 1]), u)
    ensures OpensFor(cfg, run, |run| - 1, u) && run[|run| - 1].OtpSave?
    ensures !ConsumedSince(cfg, run, |run| - 2, |run| - 1)
  {
    var got, id, secret := GetsToken(cfg, tr, u, draw, now);
    var asked, c := AsksForCode(cfg, got, u, draw, now);
    var held, call := LogsInByCode(cfg, asked, c, u, Codes.FormatCode(draw), now);
    var reset := SetsWithToken(cfg, held, id, u, secret, now + cfg.resetDuration, password, salt, now);
    assert reset == held + [reset[|held|]];
    run := HeldCodeOpens(cfg, held, reset[|held|], call, u, c);
    assert |run| - 2 == |held| && tr <= held <= run;
  }

  lemma HeldCodeOpens(cfg: Config, tr: seq<Event>, e: Event, call: CallId, u: Uuid, c: Uuid) returns (run: seq<Event>)
    requires HoldsCode(Run(cfg, tr), call, u, c) && SetsAt(cfg, tr + [e], |tr|, u)
    ensures tr + [e] <= run && |run| == |tr| + 2
    ensures SetsAt(cfg, run, |tr|, u) && CodeLoginInFlight(Run(cfg, run[..|tr| + 1]), u)
    ensures OpensFor(cfg, run, |tr| + 1, u) && run[|tr| + 1].OtpSave?
    ensures !ConsumedSince(cfg, run, |tr|, |tr| + 1)
  {
    ResetLeavesCalls(cfg, tr, e);
    run := LingeringCodeOpens(cfg, tr + [e], call, u, c);
    assert run[..|tr| + 1] == tr + [e] && run[..|tr|] == (tr + [e])[..|tr|];
    assert HoldsCode(Run(cfg, run[..|tr| + 1]), call, u, c);
  }

  lemma ResetLeavesCalls(cfg: Config, tr: seq<Event>, e: Event)
    requires e.Reset?
    ensures Run(cfg, tr + [e]).calls == Run(cfg, tr).calls
  {
    var run := tr + [e];
    assert run[..|tr|] == tr && run[..|tr| + 1] == run;
    RunOneMore(cfg, INIT, run, |tr|);
  }
}
