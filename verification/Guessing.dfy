/** The codes that are compared with a challenge, and its attempt counter. */
module Guessing {
  import opened Schema
  import opened Sql
  import opened Machine
  import opened Recovery

  function Min(a: int, b: int): int {
    if a <= b then a else b
  }

  function Max(a: int, b: int): int {
    if a >= b then a else b
  }

  /** The event is a statement of `VerifyPasswordResetCode` on the challenge. */
  predicate StatementOn(cfg: Config, s: Sys, e: Event, c: Uuid) {
    (e.VerifyConsume? || e.VerifyIncrease?) && Legal(cfg, s, e) && s.calls[e.call].challenge == c
  }

  /** An increment that reaches the database while the challenge is stored and unexpired. */
  predicate Increments(cfg: Config, s: Sys, e: Event, c: Uuid) {
    e.VerifyIncrease? && StatementOn(cfg, s, e, c) && !e.fault && c in s.db.otps && s.db.otps[c].expiresAt > e.now
  }

  /** `VerifyPasswordResetCode` compares a wrong code with the challenge, whose attempts are below the limit. */
  predicate ResetGuesses(cfg: Config, s: Sys, e: Event, c: Uuid) {
    && e.VerifyConsume? && StatementOn(cfg, s, e, c) && !e.fault
    && c in s.db.otps && Guessable(s.db.otps[c], cfg.AttemptLimit(), e.now)
    && s.db.otps[c].code != OtpMac(s.calls[e.call].code)
  }

  /** `LoginWithOtp` compares a wrong code with the challenge. Its statement has no limit and counts nothing. */
  predicate LoginGuesses(cfg: Config, s: Sys, e: Event, c: Uuid) {
    && e.OtpConsume? && Legal(cfg, s, e) && !e.fault
    && c in s.db.otps && s.db.otps[c].expiresAt > e.now && s.db.otps[c].identifier == s.calls[e.call].email
    && s.db.otps[c].code != OtpMac(s.calls[e.call].code)
  }

  /** The increment that a call owes the challenge fails, or the call ends without it. */
  predicate Loses(cfg: Config, s: Sys, e: Event, c: Uuid) {
    && Legal(cfg, s, e)
    && ((e.VerifyIncrease? && e.fault) || e.Abandon?)
    && s.calls[e.call] == VerifyIncreasing(c)
  }

  // --- Counting over a run ---

  ghost function CountIncrements(cfg: Config, tr: seq<Event>, c: Uuid): nat {
    if tr == [] then 0 else
    var before, e := tr[..|tr| - 1], tr[|tr| - 1];
    CountIncrements(cfg, before, c) + if Increments(cfg, Run(cfg, before), e, c) then 1 else 0
  }

  ghost function CountResetGuesses(cfg: Config, tr: seq<Event>, c: Uuid): nat {
    if tr == [] then 0 else
    var before, e := tr[..|tr| - 1], tr[|tr| - 1];
    CountResetGuesses(cfg, before, c) + if ResetGuesses(cfg, Run(cfg, before), e, c) then 1 else 0
  }

  ghost function CountLoginGuesses(cfg: Config, tr: seq<Event>, c: Uuid): nat {
    if tr == [] then 0 else
    var before, e := tr[..|tr| - 1], tr[|tr| - 1];
    CountLoginGuesses(cfg, before, c) + if LoginGuesses(cfg, Run(cfg, before), e, c) then 1 else 0
  }

  ghost function CountLost(cfg: Config, tr: seq<Event>, c: Uuid): nat {
    if tr == [] then 0 else
    var before, e := tr[..|tr| - 1], tr[|tr| - 1];
    CountLost(cfg, before, c) + if Loses(cfg, Run(cfg, before), e, c) then 1 else 0
  }

  // --- How one step changes the row of a challenge ---

  lemma RowAfterIncrease(cfg: Config, s: Sys, e: Event, c: Uuid)
    requires e.VerifyIncrease? && c in Step(cfg, s, e).db.otps
    ensures c in s.db.otps
    ensures var row := s.db.otps[c];
      Step(cfg, s, e).db.otps[c] ==
        if Increments(cfg, s, e, c) && row.attempts < cfg.AttemptLimit() then
          row.(attempts := row.attempts + 1)
        else row
  {
    if Legal(cfg, s, e) {
      IncreaseView(cfg, s, e);
    }
  }

  lemma RowAfterOther(cfg: Config, s: Sys, e: Event, c: Uuid)
    requires !e.VerifyIncrease? && c in Step(cfg, s, e).db.otps
    ensures
      || (c in s.db.otps && Step(cfg, s, e).db.otps[c] == s.db.otps[c])
      || (Stores(cfg, s, e) && s.calls[e.call].challenge == c && Step(cfg, s, e).db.otps[c].attempts == 0)
  {
    if e.SendStore? {
      if Legal(cfg, s, e) {
        var f := s.calls[e.call];
        SendStoreView(cfg, s, e);
        SendTablesOtps(s.db, f.challenge, NewOtp(cfg, f.email, f.code, e.createdAt, e.clock), e.txFault);
      }
    } else if e.OtpConsume? || e.VerifyConsume? {
      if Legal(cfg, s, e) {
        ConsumeView(cfg, s, e);
      }
    } else {
      OtpsUntouched(cfg, s, e);
    }
  }

  // --- The attempt counter ---

  /** Nothing is counted for a challenge that has not been stored. */
  lemma {:induction false} NothingBeforeStored(cfg: Config, tr: seq<Event>, c: Uuid)
    requires c !in LogOf(cfg, tr).sent
    ensures CountIncrements(cfg, tr, c) == 0 && CountResetGuesses(cfg, tr, c) == 0
  {
    if tr != [] {
      var before, e := tr[..|tr| - 1], tr[|tr| - 1];
      RunIsTraced(cfg, before);
      NotesGrow(cfg, Run(cfg, before), LogOf(cfg, before), e);
      NothingBeforeStored(cfg, before, c);
    }
  }

  lemma StoredFirst(cfg: Config, tr: seq<Event>, e: Event, c: Uuid)
    requires Stores(cfg, Run(cfg, tr), e) && Run(cfg, tr).calls[e.call].challenge == c
    ensures CountIncrements(cfg, tr, c) == 0 && CountResetGuesses(cfg, tr, c) == 0
  {
    RunIsTraced(cfg, tr);
    assert FrameOk(Run(cfg, tr).db.users, LogOf(cfg, tr), e.call, Run(cfg, tr).calls[e.call]);
    NothingBeforeStored(cfg, tr, c);
  }

  /**
    * The counter law: a stored challenge's attempts are the increments executed on it before its
    * expiry, capped at the limit.
    */
  lemma {:induction false} AttemptsAreCounted(cfg: Config, tr: seq<Event>, c: Uuid)
    requires c in Run(cfg, tr).db.otps
    ensures Run(cfg, tr).db.otps[c].attempts == Min(Max(0, cfg.AttemptLimit()), CountIncrements(cfg, tr, c))
  {
    var before, e := tr[..|tr| - 1], tr[|tr| - 1];
    var s := Run(cfg, before);
    if e.VerifyIncrease? {
      RowAfterIncrease(cfg, s, e, c);
      AttemptsAreCounted(cfg, before, c);
    } else {
      RowAfterOther(cfg, s, e, c);
      if Stores(cfg, s, e) && s.calls[e.call].challenge == c {
        StoredFirst(cfg, before, e, c);
      } else {
        AttemptsAreCounted(cfg, before, c);
      }
    }
  }

  /** The increment never leaves the range of its column, whatever limit is configured. */
  lemma IncrementNeverOverflows(cfg: Config, t: Tables, c: Uuid, now: Time)
    ensures IncreaseOtpAttempts(t, c, cfg.AttemptLimit(), now).reply == Done
  {
  }

  /** The limit is the configured number's low sixteen bits, read as a signed number. */
  lemma LimitThatArrives(cfg: Config)
    ensures -32768 <= cfg.AttemptLimit() <= 32767 && (cfg.maxAttempts - cfg.AttemptLimit()) % 65536 == 0
  {
  }

  /** The configured number itself is the cap exactly when it fits the column and is not negative. */
  lemma ConfiguredLimitExactly(cfg: Config)
    ensures (forall n: nat :: Min(Max(0, cfg.AttemptLimit()), n) == Min(cfg.maxAttempts, n))
      <==> 0 <= cfg.maxAttempts <= SMALLINT_MAX
  {
    if cfg.maxAttempts < 0 {
      assert Min(Max(0, cfg.AttemptLimit()), 0) != Min(cfg.maxAttempts, 0);
    } else if cfg.maxAttempts > SMALLINT_MAX {
      assert Min(Max(0, cfg.AttemptLimit()), cfg.maxAttempts) != Min(cfg.maxAttempts, cfg.maxAttempts);
    }
  }
}
