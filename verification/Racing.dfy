/** Runs in which as many wrong codes are compared with a challenge as can be, by either path. */
module Racing {
  import opened Schema
  import opened Sql
  import opened UnitOfWork
  import opened Machine
  import opened Recovery
  import opened Accounting
  import opened Calls
  import opened Guessing
  import opened GuessBound

  const EMAIL := "ann@example.com"
  const CHALLENGE := Uuid(1)
  const SENT := SendEnv(CHALLENGE, false, Some(0), true, 0, 0, 0, NoFault)

  /** A wrong code: it is shorter than any that is ever drawn. */
  const WRONG := ""

  function Opening(): seq<Event> {
    [Register(Uuid(0), EMAIL, "ann", "secret", Some(0), false)] + SendCall(0, EMAIL, SENT)
  }

  /** The run after some wrong codes: by path, what is counted, what is lost, and what is still owed. */
  ghost predicate Counted(
    cfg: Config, tr: seq<Event>, most: nat, guesses: int, attempts: int, lost: int, open: nat, logins: int,
    next: CallId)
  {
    var s := Run(cfg, tr);
    && CHALLENGE in s.db.otps
    && s.db.otps[CHALLENGE] == Otp(EMAIL, OtpMac(Codes.FormatCode(0)), attempts, cfg.otpDuration, 0)
    && CountResetGuesses(cfg, tr, CHALLENGE) == guesses
    && CountLost(cfg, tr, CHALLENGE) == lost
    && CountLoginGuesses(cfg, tr, CHALLENGE) == logins
    && |InFlight(s, CHALLENGE)| == open
    && AtMostInFlight(cfg, tr, CHALLENGE, most)
    && (forall k | k in s.started :: k < next)
  }

  /** All statements of recovery calls read the same time. */
  predicate AtZero(tr: seq<Event>) {
    forall i | 0 <= i < |tr| && (tr[i].VerifyConsume? || tr[i].VerifyIncrease?) :: tr[i].now == 0
  }

  ghost predicate Reached(
    cfg: Config, tr: seq<Event>, most: nat, guesses: int, attempts: int, lost: int, open: nat, logins: int,
    next: CallId)
  {
    Counted(cfg, tr, most, guesses, attempts, lost, open, logins, next) && AtZero(tr)
  }

  // --- One more event ---

  lemma OneMoreEvent(cfg: Config, tr: seq<Event>, e: Event, most: nat)
    requires AtMostInFlight(cfg, tr, CHALLENGE, most)
    requires |InFlight(Step(cfg, Run(cfg, tr), e), CHALLENGE)| <= most
    ensures Run(cfg, tr + [e]) == Step(cfg, Run(cfg, tr), e)
    ensures AtMostInFlight(cfg, tr + [e], CHALLENGE, most)
    ensures CountResetGuesses(cfg, tr + [e], CHALLENGE) ==
      CountResetGuesses(cfg, tr, CHALLENGE) + if ResetGuesses(cfg, Run(cfg, tr), e, CHALLENGE) then 1 else 0
    ensures CountLost(cfg, tr + [e], CHALLENGE) ==
      CountLost(cfg, tr, CHALLENGE) + if Loses(cfg, Run(cfg, tr), e, CHALLENGE) then 1 else 0
    ensures CountLoginGuesses(cfg, tr + [e], CHALLENGE) ==
      CountLoginGuesses(cfg, tr, CHALLENGE) + if LoginGuesses(cfg, Run(cfg, tr), e, CHALLENGE) then 1 else 0
  {
    assert (tr + [e])[..|tr|] == tr;
    forall i | 0 <= i <= |tr| + 1
      ensures |InFlight(Run(cfg, (tr + [e])[..i]), CHALLENGE)| <= most
    {
      if i <= |tr| {
        assert (tr + [e])[..i] == tr[..i];
      } else {
        assert (tr + [e])[..i] == tr + [e];
      }
    }
  }

  lemma BeginView(cfg: Config, s: Sys, call: CallId)
    requires call !in s.started && s.calls.Keys <= s.started
    ensures var s' := Step(cfg, s, VerifyBegin(call, CHALLENGE, WRONG));
      && s' == Continue(Begin(s, call), call, VerifyConsuming(CHALLENGE, WRONG))
      && InFlight(s', CHALLENGE) == InFlight(s, CHALLENGE) + {call}
      && call !in InFlight(s, CHALLENGE)
    ensures !ResetGuesses(cfg, s, VerifyBegin(call, CHALLENGE, WRONG), CHALLENGE)
    ensures !Loses(cfg, s, VerifyBegin(call, CHALLENGE, WRONG), CHALLENGE)
  {
  }

  lemma GuessView(cfg: Config, s: Sys, call: CallId)
    requires call in s.calls && s.calls[call] == VerifyConsuming(CHALLENGE, WRONG)
    requires CHALLENGE in s.db.otps && Guessable(s.db.otps[CHALLENGE], cfg.AttemptLimit(), 0)
    requires s.db.otps[CHALLENGE].code == OtpMac(Codes.FormatCode(0))
    ensures var e := VerifyConsume(call, 0, false);
      && Step(cfg, s, e) == Continue(s, call, VerifyIncreasing(CHALLENGE))
      && InFlight(Step(cfg, s, e), CHALLENGE) == InFlight(s, CHALLENGE)
      && ResetGuesses(cfg, s, e, CHALLENGE) && !Loses(cfg, s, e, CHALLENGE)
  {
    Codes.FormatCodeLength(0);
  }

  lemma SettleView(cfg: Config, s: Sys, call: CallId, fault: bool)
    requires call in s.calls && s.calls[call] == VerifyIncreasing(CHALLENGE)
    requires CHALLENGE in s.db.otps && Guessable(s.db.otps[CHALLENGE], cfg.AttemptLimit(), 0)
    ensures var e, row := VerifyIncrease(call, 0, fault), s.db.otps[CHALLENGE];
      var s' := Step(cfg, s, e);
      && s'.started == s.started
      && CHALLENGE in s'.db.otps
      && s'.db.otps[CHALLENGE] == row.(attempts := row.attempts + if fault then 0 else 1)
      && InFlight(s', CHALLENGE) == InFlight(s, CHALLENGE) - {call} && call in InFlight(s, CHALLENGE)
      && !ResetGuesses(cfg, s, e, CHALLENGE) && (Loses(cfg, s, e, CHALLENGE) <==> fault)
  {
  }

  /** One more call to recovery, about to present the wrong code. */
  lemma OneMoreCall(cfg: Config, tr: seq<Event>, most: nat, g: int, a: int, lost: int, open: nat, n: CallId)
    returns (tr': seq<Event>)
    requires Counted(cfg, tr, most, g, a, lost, open, 0, n) && open < most
    ensures Counted(cfg, tr', most, g, a, lost, open + 1, 0, n + 1) && (AtZero(tr) ==> AtZero(tr'))
    ensures n in Run(cfg, tr').calls && Run(cfg, tr').calls[n] == VerifyConsuming(CHALLENGE, WRONG)
  {
    RunIsSound(cfg, tr);
    BeginView(cfg, Run(cfg, tr), n);
    OneMoreEvent(cfg, tr, VerifyBegin(n, CHALLENGE, WRONG), most);
    tr' := tr + [VerifyBegin(n, CHALLENGE, WRONG)];
  }

  /** One more wrong guess, whose increment is left owing. */
  lemma OneMoreGuess(cfg: Config, tr: seq<Event>, most: nat, g: int, a: int, lost: int, open: nat, n: CallId)
    returns (tr': seq<Event>)
    requires Counted(cfg, tr, most, g, a, lost, open, 0, n)
    requires a < cfg.AttemptLimit() && open < most && cfg.otpDuration > 0
    ensures Counted(cfg, tr', most, g + 1, a, lost, open + 1, 0, n + 1) && (AtZero(tr) ==> AtZero(tr'))
    ensures n in Run(cfg, tr').calls && Run(cfg, tr').calls[n] == VerifyIncreasing(CHALLENGE)
  {
    var begun := OneMoreCall(cfg, tr, most, g, a, lost, open, n);
    GuessView(cfg, Run(cfg, begun), n);
    OneMoreEvent(cfg, begun, VerifyConsume(n, 0, false), most);
    tr' := begun + [VerifyConsume(n, 0, false)];
  }

  /** One more wrong guess, whose increment is executed or lost. */
  lemma OneMoreSettled(cfg: Config, tr: seq<Event>, most: nat, g: int, a: int, lost: int, n: CallId, fault: bool)
    returns (tr': seq<Event>)
    requires Reached(cfg, tr, most, g, a, lost, 0, 0, n) && a < cfg.AttemptLimit() && 0 < most && cfg.otpDuration > 0
    ensures Reached(cfg, tr', most, g + 1, if fault then a else a + 1, if fault then lost + 1 else lost, 0, 0, n + 1)
  {
    var guessed := OneMoreGuess(cfg, tr, most, g, a, lost, 0, n);
    SettleView(cfg, Run(cfg, guessed), n, fault);
    OneMoreEvent(cfg, guessed, VerifyIncrease(n, 0, fault), most);
    tr' := guessed + [VerifyIncrease(n, 0, fault)];
  }

  // --- From the first event to the bound ---

  lemma OwnFrameVerifies(cfg: Config, s: Sys, e: Event)
    requires Legal(cfg, s, e) && CallOf(e).Some? && !e.VerifyBegin?
    requires e.call in s.calls ==> !Verifies(s.calls[e.call], CHALLENGE)
    ensures var s' := Step(cfg, s, e); e.call in s'.calls ==> !Verifies(s'.calls[e.call], CHALLENGE)
    ensures !ResetGuesses(cfg, s, e, CHALLENGE) && !Loses(cfg, s, e, CHALLENGE)
  {
  }

  lemma NothingVerifies(cfg: Config, s: Sys, e: Event)
    requires InFlight(s, CHALLENGE) == {} && !e.VerifyBegin?
    ensures InFlight(Step(cfg, s, e), CHALLENGE) == {}
    ensures !ResetGuesses(cfg, s, e, CHALLENGE) && !Loses(cfg, s, e, CHALLENGE)
  {
    if Legal(cfg, s, e) && CallOf(e).Some? {
      assert e.call !in InFlight(s, CHALLENGE);
      OwnFrameVerifies(cfg, s, e);
    }
    forall j | j in Step(cfg, s, e).calls && CallOf(e) != Some(j)
      ensures !Verifies(Step(cfg, s, e).calls[j], CHALLENGE)
    {
      OtherCallsUntouched(cfg, s, e, j);
      assert j !in InFlight(s, CHALLENGE);
    }
  }

  lemma {:induction false} QuietRun(cfg: Config, tr: seq<Event>, most: nat)
    requires forall i | 0 <= i < |tr| :: !tr[i].VerifyBegin? && !tr[i].OtpConsume?
    ensures InFlight(Run(cfg, tr), CHALLENGE) == {}
    ensures CountResetGuesses(cfg, tr, CHALLENGE) == 0 && CountLost(cfg, tr, CHALLENGE) == 0
    ensures CountLoginGuesses(cfg, tr, CHALLENGE) == 0
    ensures AtMostInFlight(cfg, tr, CHALLENGE, most)
  {
    if tr != [] {
      var before, e := tr[..|tr| - 1], tr[|tr| - 1];
      QuietRun(cfg, before, most);
      NothingVerifies(cfg, Run(cfg, before), e);
      OneMoreEvent(cfg, before, e, most);
      assert before + [e] == tr;
    }
  }

  /** The first user registers and asks for a code. */
  lemma AnnAsksForCode(cfg: Config)
    requires cfg.maxValue > 0
    ensures var s := Run(cfg, Opening());
      && CHALLENGE in s.db.otps
      && s.db.otps[CHALLENGE] == NewOtp(cfg, EMAIL, Codes.FormatCode(0), 0, 0)
  {
    var register := Opening()[0];
    var s := Step(cfg, INIT, register);
    var ann := User(EMAIL, Bcrypt(0, "secret"), "ann");
    assert s == INIT.(db := EMPTY_TABLES.(users := map[Uuid(0) := ann]), issued := {Uuid(0)});
    RunAppend(cfg, INIT, [register], SendCall(0, EMAIL, SENT));
    RunOne(cfg, INIT, register);
    SendCallEffect(cfg, s, 0, EMAIL, SENT);
    assert s.db.users[Uuid(0)].email == EMAIL;
    SendTablesOtps(s.db, CHALLENGE, NewOtp(cfg, EMAIL, Codes.FormatCode(0), 0, 0), NoFault);
  }

  lemma StartedGrowsBy(cfg: Config, s: Sys, e: Event)
    ensures Step(cfg, s, e).started <= s.started + if CallOf(e).Some? then {CallOf(e).value} else {}
  {
  }

  lemma {:induction false} OnlyStarted(cfg: Config, tr: seq<Event>, calls: set<CallId>)
    requires forall i | 0 <= i < |tr| && CallOf(tr[i]).Some? :: CallOf(tr[i]).value in calls
    ensures Run(cfg, tr).started <= calls
  {
    if tr != [] {
      OnlyStarted(cfg, tr[..|tr| - 1], calls);
      StartedGrowsBy(cfg, Run(cfg, tr[..|tr| - 1]), tr[|tr| - 1]);
    }
  }

  lemma OpeningReached(cfg: Config, most: nat)
    requires cfg.maxValue > 0
    ensures Reached(cfg, Opening(), most, 0, 0, 0, 0, 0, 1)
  {
    AnnAsksForCode(cfg);
    QuietRun(cfg, Opening(), most);
    OnlyStarted(cfg, Opening(), {0});
  }

  lemma {:induction false} Settled(cfg: Config, most: nat, counted: nat, lost: nat) returns (tr: seq<Event>)
    requires cfg.maxValue > 0 && cfg.otpDuration > 0 && 0 < most
    requires counted < cfg.AttemptLimit() || (counted == cfg.AttemptLimit() && lost == 0)
    ensures Reached(cfg, tr, most, counted + lost, counted, lost, 0, 0, 1 + counted + lost)
  {
    if lost > 0 {
      var before := Settled(cfg, most, counted, lost - 1);
      tr := OneMoreSettled(cfg, before, most, counted + lost - 1, counted, lost - 1, counted + lost, true);
    } else if counted > 0 {
      var before := Settled(cfg, most, counted - 1, 0);
      tr := OneMoreSettled(cfg, before, most, counted - 1, counted - 1, 0, counted, false);
    } else {
      OpeningReached(cfg, most);
      tr := Opening();
    }
  }

  lemma {:induction false} Opened(cfg: Config, most: nat, counted: nat, lost: nat, open: nat) returns (tr: seq<Event>)
    requires cfg.maxValue > 0 && cfg.otpDuration > 0 && 0 < most && open <= most && counted < cfg.AttemptLimit()
    ensures Reached(cfg, tr, most, counted + lost + open, counted, lost, open, 0, 1 + counted + lost + open)
  {
    if open == 0 {
      tr := Settled(cfg, most, counted, lost);
    } else {
      var before := Opened(cfg, most, counted, lost, open - 1);
      tr := OneMoreGuess(cfg, before, most, counted + lost + open - 1, counted, lost, open - 1, counted + lost + open);
    }
  }

  // --- The login path ---

  lemma LookupView(cfg: Config, s: Sys, call: CallId, code: string)
    requires call !in s.started && s.calls.Keys <= s.started && GetByEmail(s.db, EMAIL).UserRow?
    ensures var e, u := OtpLookup(call, EMAIL, code, false), GetByEmail(s.db, EMAIL).userId;
      && Step(cfg, s, e) == Continue(Begin(s, call), call, OtpConsuming(u, EMAIL, code))
      && InFlight(Step(cfg, s, e), CHALLENGE) == InFlight(s, CHALLENGE)
  {
    var s' := Continue(Begin(s, call), call, OtpConsuming(GetByEmail(s.db, EMAIL).userId, EMAIL, code));
    assert Step(cfg, s, OtpLookup(call, EMAIL, code, false)) == s';
    assert InFlight(s', CHALLENGE) == InFlight(s, CHALLENGE);
  }

  /** A wrong code presented to `LoginWithOtp` leaves no trace in the tables. */
  lemma WrongLoginChangesNothing(cfg: Config, s: Sys, e: Event, c: Uuid)
    requires Sound(s) && LoginGuesses(cfg, s, e, c)
    ensures Step(cfg, s, e) == End(s, e.call)
    ensures forall d :: InFlight(Step(cfg, s, e), d) == InFlight(s, d)
    ensures forall d :: !ResetGuesses(cfg, s, e, d) && !Loses(cfg, s, e, d)
  {
    var f := s.calls[e.call];
    assert forall d | d in s.db.otps :: s.db.otps[d].identifier == f.email ==> d == c;
    assert ConsumeOtpCode(s.db, OtpMac(f.code), f.email, e.now).reply == NoRows;
  }

  lemma CodeOwnerIsKnown(cfg: Config, tr: seq<Event>)
    requires CHALLENGE in Run(cfg, tr).db.otps && Run(cfg, tr).db.otps[CHALLENGE].identifier == EMAIL
    ensures GetByEmail(Run(cfg, tr).db, EMAIL).UserRow?
  {
    ConsumedChallengeHasUser(cfg, tr);
  }

  /** A call to `LoginWithOtp` reaches its second statement. */
  lemma OneMoreLookup(
    cfg: Config, tr: seq<Event>, most: nat, g: int, a: int, lost: int, open: nat, logins: int, n: CallId, code: string)
    returns (tr': seq<Event>)
    requires Reached(cfg, tr, most, g, a, lost, open, logins, n) && open <= most
    ensures Reached(cfg, tr', most, g, a, lost, open, logins, n + 1)
    ensures var s := Run(cfg, tr');
      n in s.calls && s.calls[n].OtpConsuming? && s.calls[n].email == EMAIL && s.calls[n].code == code
  {
    RunIsSound(cfg, tr);
    CodeOwnerIsKnown(cfg, tr);
    LookupView(cfg, Run(cfg, tr), n, code);
    OneMoreEvent(cfg, tr, OtpLookup(n, EMAIL, code, false), most);
    tr' := tr + [OtpLookup(n, EMAIL, code, false)];
  }

  /** One more wrong code by the login path. */
  lemma OneMoreLogin(
    cfg: Config, tr: seq<Event>, most: nat, g: int, a: int, lost: int, open: nat, logins: int, n: CallId)
    returns (tr': seq<Event>)
    requires Reached(cfg, tr, most, g, a, lost, open, logins, n) && open <= most && cfg.otpDuration > 0
    ensures Reached(cfg, tr', most, g, a, lost, open, logins + 1, n + 1)
  {
    var before := OneMoreLookup(cfg, tr, most, g, a, lost, open, logins, n, WRONG);
    Codes.FormatCodeLength(0);
    RunIsSound(cfg, before);
    WrongLoginChangesNothing(cfg, Run(cfg, before), OtpConsume(n, 0, false), CHALLENGE);
    OneMoreEvent(cfg, before, OtpConsume(n, 0, false), most);
    tr' := before + [OtpConsume(n, 0, false)];
  }

  lemma {:induction false} MoreLogins(
    cfg: Config, tr: seq<Event>, most: nat, g: int, a: int, lost: int, open: nat, n: CallId, logins: nat)
    returns (tr': seq<Event>)
    requires Reached(cfg, tr, most, g, a, lost, open, 0, n) && open <= most && cfg.otpDuration > 0
    ensures Reached(cfg, tr', most, g, a, lost, open, logins, n + logins)
    decreases logins
  {
    if logins == 0 {
      tr' := tr;
    } else {
      var before := MoreLogins(cfg, tr, most, g, a, lost, open, n, logins - 1);
      tr' := OneMoreLogin(cfg, before, most, g, a, lost, open, logins - 1, n + logins - 1);
    }
  }

  /**
    * Without any recovery call, any number of wrong codes is compared with one challenge by
    * `LoginWithOtp`, and its counter still reads zero.
    */
  lemma LoginGuessesAreFree(cfg: Config, logins: nat) returns (tr: seq<Event>)
    requires cfg.maxValue > 0 && cfg.otpDuration > 0
    ensures AtMostInFlight(cfg, tr, CHALLENGE, 0) && CountLost(cfg, tr, CHALLENGE) == 0
    ensures CountLoginGuesses(cfg, tr, CHALLENGE) == logins && CountResetGuesses(cfg, tr, CHALLENGE) == 0
    ensures StatementsInOrder(cfg, tr, CHALLENGE)
    ensures CHALLENGE in Run(cfg, tr).db.otps && Run(cfg, tr).db.otps[CHALLENGE].attempts == 0
  {
    OpeningReached(cfg, 0);
    tr := MoreLogins(cfg, Opening(), 0, 0, 0, 0, 0, 1, logins);
  }

  /** A challenge that recovery has locked still logs its user in. */
  lemma LockedCodeLogsIn(cfg: Config) returns (tr: seq<Event>)
    requires cfg.maxValue > 0 && cfg.otpDuration > 0 && 1 <= cfg.AttemptLimit()
    ensures CHALLENGE in Run(cfg, tr).db.otps && Run(cfg, tr).db.otps[CHALLENGE].attempts == cfg.AttemptLimit()
    ensures exists e: Event :: e.OtpConsume? && Consumed(cfg, Run(cfg, tr), e) == Some(CHALLENGE)
  {
    var limit := cfg.AttemptLimit();
    var locked := Settled(cfg, 1, limit, 0);
    tr := OneMoreLookup(cfg, locked, 1, limit, limit, 0, 0, 0, 1 + limit, Codes.FormatCode(0));
    var s := Run(cfg, tr);
    RunIsSound(cfg, tr);
    assert LoginMatch(s.db.otps[CHALLENGE], OtpMac(Codes.FormatCode(0)), EMAIL, 0);
    assert Consumed(cfg, s, OtpConsume(1 + limit, 0, false)) == Some(CHALLENGE);
  }

  // --- The bound by both paths ---

  lemma GuessIsInFlight(cfg: Config, s: Sys, e: Event, c: Uuid)
    requires ResetGuesses(cfg, s, e, c)
    ensures |InFlight(s, c)| > 0
  {
    assert e.call in InFlight(s, c);
  }

  /** No recovery call in flight, no guess by recovery. */
  lemma {:induction false} NoCallsNoGuesses(cfg: Config, tr: seq<Event>, c: Uuid)
    requires AtMostInFlight(cfg, tr, c, 0)
    ensures CountResetGuesses(cfg, tr, c) == 0
  {
    if tr != [] {
      var n := |tr| - 1;
      forall i | 0 <= i <= n ensures tr[..n][..i] == tr[..i] {}
      assert |InFlight(Run(cfg, tr[..n]), c)| <= 0;
      NoCallsNoGuesses(cfg, tr[..n], c);
      if ResetGuesses(cfg, Run(cfg, tr[..n]), tr[n], c) {
        GuessIsInFlight(cfg, Run(cfg, tr[..n]), tr[n], c);
      }
    }
  }

  /**
    * For every limit, every number of recovery calls in flight, every number of lost increments
    * and every number of wrong logins there is a run, with all statements in order, in which
    * exactly as many wrong codes are compared as the bound and the logins together allow.
    */
  lemma GuessBoundIsReached(cfg: Config, most: nat, lost: nat, logins: nat) returns (tr: seq<Event>)
    requires cfg.maxValue > 0 && cfg.otpDuration > 0 && 0 < most && 1 <= cfg.AttemptLimit()
    ensures AtMostInFlight(cfg, tr, CHALLENGE, most) && StatementsInOrder(cfg, tr, CHALLENGE)
    ensures CountLost(cfg, tr, CHALLENGE) == lost && CountLoginGuesses(cfg, tr, CHALLENGE) == logins
    ensures CountResetGuesses(cfg, tr, CHALLENGE) == cfg.AttemptLimit() - 1 + most + lost
  {
    var limit := cfg.AttemptLimit();
    var reset := Opened(cfg, most, limit - 1, lost, most);
    tr := MoreLogins(cfg, reset, most, limit - 1 + lost + most, limit - 1, lost, most, limit + lost + most, logins);
  }

  // --- Clocks out of order ---

  /** An increment that the database executes at or after the expiry counts nothing, and is not lost either. */
  lemma LateView(cfg: Config, s: Sys, call: CallId)
    requires call in s.calls && s.calls[call] == VerifyIncreasing(CHALLENGE)
    requires CHALLENGE in s.db.otps && s.db.otps[CHALLENGE].expiresAt == cfg.otpDuration
    ensures var e := VerifyIncrease(call, cfg.otpDuration, false);
      var s' := Step(cfg, s, e);
      && s'.started == s.started && s'.db == s.db
      && InFlight(s', CHALLENGE) == InFlight(s, CHALLENGE) - {call} && call in InFlight(s, CHALLENGE)
      && !ResetGuesses(cfg, s, e, CHALLENGE) && !Loses(cfg, s, e, CHALLENGE)
  {
  }

  lemma OneMoreUncounted(cfg: Config, tr: seq<Event>, g: int, n: CallId) returns (tr': seq<Event>)
    requires Counted(cfg, tr, 1, g, 0, 0, 0, 0, n) && 1 <= cfg.AttemptLimit() && cfg.otpDuration > 0
    ensures Counted(cfg, tr', 1, g + 1, 0, 0, 0, 0, n + 1)
  {
    var guessed := OneMoreGuess(cfg, tr, 1, g, 0, 0, 0, n);
    LateView(cfg, Run(cfg, guessed), n);
    OneMoreEvent(cfg, guessed, VerifyIncrease(n, cfg.otpDuration, false), 1);
    tr' := guessed + [VerifyIncrease(n, cfg.otpDuration, false)];
  }

  lemma {:induction false} Uncounted(cfg: Config, guesses: nat) returns (tr: seq<Event>)
    requires cfg.maxValue > 0 && cfg.otpDuration > 0 && 1 <= cfg.AttemptLimit()
    ensures Counted(cfg, tr, 1, guesses, 0, 0, 0, 0, 1 + guesses)
  {
    if guesses == 0 {
      OpeningReached(cfg, 1);
      tr := Opening();
    } else {
      var before := Uncounted(cfg, guesses - 1);
      tr := OneMoreUncounted(cfg, before, guesses - 1, guesses);
    }
  }

  /**
    * The order of statements is needed: without it, one recovery call at a time, none losing its
    * increment, lets any number of wrong codes be compared while the counter reads zero.
    */
  lemma GuessesOutOfOrder(cfg: Config, guesses: nat) returns (tr: seq<Event>)
    requires cfg.maxValue > 0 && cfg.otpDuration > 0 && 1 <= cfg.AttemptLimit()
    ensures AtMostInFlight(cfg, tr, CHALLENGE, 1) && CountLost(cfg, tr, CHALLENGE) == 0
    ensures CountResetGuesses(cfg, tr, CHALLENGE) == guesses && CountLoginGuesses(cfg, tr, CHALLENGE) == 0
    ensures CHALLENGE in Run(cfg, tr).db.otps && Run(cfg, tr).db.otps[CHALLENGE].attempts == 0
  {
    tr := Uncounted(cfg, guesses);
  }

  // --- The exact condition ---

  /**
    * How a challenge is used at most: so many recovery calls at once, so many increments lost, so
    * many wrong logins; and whether the statements take effect in the order of their times.
    */
  datatype Load = Load(most: nat, lost: nat, logins: nat, ordered: bool)

  ghost predicate Usage(cfg: Config, tr: seq<Event>, c: Uuid, load: Load) {
    && AtMostInFlight(cfg, tr, c, load.most)
    && CountLost(cfg, tr, c) <= load.lost
    && CountLoginGuesses(cfg, tr, c) <= load.logins
    && (load.ordered ==> StatementsInOrder(cfg, tr, c))
  }

  ghost function CountAllGuesses(cfg: Config, tr: seq<Event>, c: Uuid): nat {
    CountResetGuesses(cfg, tr, c) + CountLoginGuesses(cfg, tr, c)
  }

  /** The configured number of attempts bounds the wrong codes that are compared with a challenge. */
  ghost predicate LimitHolds(cfg: Config, load: Load) {
    forall tr, c | Usage(cfg, tr, c, load) :: CountAllGuesses(cfg, tr, c) <= cfg.maxAttempts
  }

  /** No code is compared by recovery. */
  predicate LoginsOnly(cfg: Config, load: Load) {
    load.most == 0 || cfg.AttemptLimit() < 1
  }

  function Worst(cfg: Config, load: Load): int {
    if LoginsOnly(cfg, load) then load.logins
    else cfg.AttemptLimit() - 1 + load.most + load.lost + load.logins
  }

  lemma AllGuessesAreBounded(cfg: Config, tr: seq<Event>, c: Uuid, load: Load)
    requires Usage(cfg, tr, c, load) && (load.ordered || LoginsOnly(cfg, load))
    ensures CountAllGuesses(cfg, tr, c) <= Worst(cfg, load)
  {
    if load.most == 0 {
      NoCallsNoGuesses(cfg, tr, c);
    } else if cfg.AttemptLimit() < 1 {
      NoGuessesWithoutLimit(cfg, tr, c);
    } else {
      WrongGuessesAreBounded(cfg, tr, c, load.most);
    }
  }

  lemma WorstUsage(cfg: Config, load: Load, beyond: nat) returns (tr: seq<Event>)
    requires cfg.maxValue > 0 && cfg.otpDuration > 0
    ensures Usage(cfg, tr, CHALLENGE, load)
    ensures CountAllGuesses(cfg, tr, CHALLENGE) ==
      if load.ordered || LoginsOnly(cfg, load) then Worst(cfg, load) else beyond
  {
    if LoginsOnly(cfg, load) {
      tr := LoginGuessesAreFree(cfg, load.logins);
    } else if load.ordered {
      tr := GuessBoundIsReached(cfg, load.most, load.lost, load.logins);
    } else {
      tr := GuessesOutOfOrder(cfg, beyond);
    }
  }

  /**
    * Whatever number is configured, it bounds the wrong codes compared with a challenge, by both
    * paths together, if and only if the worst case stays within it, where there is a worst case.
    */
  lemma NumberHoldsExactly(cfg: Config, load: Load)
    requires cfg.maxValue > 0 && cfg.otpDuration > 0
    ensures LimitHolds(cfg, load) <==>
      (load.ordered || LoginsOnly(cfg, load)) && Worst(cfg, load) <= cfg.maxAttempts
  {
    var worst := WorstUsage(cfg, load, if cfg.maxAttempts < 0 then 0 else cfg.maxAttempts + 1);
    assert LimitHolds(cfg, load) ==> CountAllGuesses(cfg, worst, CHALLENGE) <= cfg.maxAttempts;
    if load.ordered || LoginsOnly(cfg, load) {
      forall tr, c | Usage(cfg, tr, c, load) ensures CountAllGuesses(cfg, tr, c) <= Worst(cfg, load) {
        AllGuessesAreBounded(cfg, tr, c, load);
      }
    }
  }

  /**
    * A number that fits the column bounds them if and only if there are only wrong logins, and few
    * enough of them, or only recovery calls, one at a time, none losing its increment, and with
    * their statements in order.
    */
  lemma LimitHoldsExactly(cfg: Config, load: Load)
    requires cfg.maxValue > 0 && cfg.otpDuration > 0 && 1 <= cfg.maxAttempts <= SMALLINT_MAX
    ensures LimitHolds(cfg, load) <==>
      || (load.most == 0 && load.logins <= cfg.maxAttempts)
      || (load.most == 1 && load.lost == 0 && load.logins == 0 && load.ordered)
  {
    NumberHoldsExactly(cfg, load);
  }

  /** In order and without losses, recovery alone keeps to it just when one call is in flight at a time. */
  lemma LimitIsNoBoundUnderConcurrency(cfg: Config, most: nat)
    requires cfg.maxValue > 0 && cfg.otpDuration > 0 && 1 <= cfg.maxAttempts <= SMALLINT_MAX && 0 < most
    ensures
      (forall tr, c | AtMostInFlight(cfg, tr, c, most) && StatementsInOrder(cfg, tr, c) && CountLost(cfg, tr, c) == 0 ::
        CountResetGuesses(cfg, tr, c) <= cfg.maxAttempts)
      <==> most == 1
  {
    var worst := GuessBoundIsReached(cfg, most, 0, 0);
    assert CountResetGuesses(cfg, worst, CHALLENGE) == cfg.maxAttempts - 1 + most;
    forall tr, c | AtMostInFlight(cfg, tr, c, most) && StatementsInOrder(cfg, tr, c) && CountLost(cfg, tr, c) == 0
      ensures CountResetGuesses(cfg, tr, c) <= cfg.maxAttempts - 1 + most
    {
      WrongGuessesAreBounded(cfg, tr, c, most);
    }
  }
}
