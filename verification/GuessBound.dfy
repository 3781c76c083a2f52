/** The bound on wrong codes presented to `VerifyPasswordResetCode`. */
module GuessBound {
  import opened Schema
  import opened Sql
  import opened Machine
  import opened Recovery
  import opened Guessing

  // --- Calls in flight ---

  /** The calls that still owe the challenge an increment. */
  ghost function Pending(s: Sys, c: Uuid): set<CallId> {
    set k | k in s.calls && s.calls[k] == VerifyIncreasing(c)
  }

  predicate Verifies(f: Frame, c: Uuid) {
    (f.VerifyConsuming? || f.VerifyIncreasing? || f.VerifyLooking? || f.VerifySaving?) && f.challenge == c
  }

  /** The calls to `VerifyPasswordResetCode` on the challenge. */
  ghost function InFlight(s: Sys, c: Uuid): set<CallId> {
    set k | k in s.calls && Verifies(s.calls[k], c)
  }

  ghost predicate AtMostInFlight(cfg: Config, tr: seq<Event>, c: Uuid, most: nat) {
    forall i | 0 <= i <= |tr| :: |InFlight(Run(cfg, tr[..i]), c)| <= most
  }

  // --- Statement times ---

  ghost predicate StatementAt(cfg: Config, tr: seq<Event>, i: nat, c: Uuid) {
    i < |tr| && StatementOn(cfg, Run(cfg, tr[..i]), tr[i], c) && !tr[i].fault
  }

  /** The statements on the challenge that reach the database take effect in the order of their times. */
  ghost predicate StatementsInOrder(cfg: Config, tr: seq<Event>, c: Uuid) {
    forall i: nat, j: nat | i < j && StatementAt(cfg, tr, i, c) && StatementAt(cfg, tr, j, c) :: tr[i].now <= tr[j].now
  }

  /** No statement on the challenge so far was later than `now`. */
  ghost predicate NotBefore(cfg: Config, tr: seq<Event>, c: Uuid, now: Time) {
    forall i: nat | StatementAt(cfg, tr, i, c) :: tr[i].now <= now
  }

  // --- How one step changes what is pending ---

  /** The verification's first statement found nothing. */
  ghost predicate Misses(cfg: Config, s: Sys, e: Event, c: Uuid) {
    e.VerifyConsume? && StatementOn(cfg, s, e, c) && !e.fault && Consumed(cfg, s, e) == None
  }

  lemma MissView(cfg: Config, s: Sys, e: Event)
    requires Legal(cfg, s, e) && e.VerifyConsume?
    ensures var c := s.calls[e.call].challenge;
      if Misses(cfg, s, e, c) then Step(cfg, s, e).calls == s.calls[e.call := VerifyIncreasing(c)]
      else e.call in Step(cfg, s, e).calls ==> !Step(cfg, s, e).calls[e.call].VerifyIncreasing?
    ensures forall c :: ResetGuesses(cfg, s, e, c) ==> Misses(cfg, s, e, c)
  {
  }

  /** Which call's debt the event settles, by paying or by losing it. */
  ghost predicate Settles(cfg: Config, s: Sys, e: Event, c: Uuid) {
    (e.VerifyIncrease? || e.Abandon?) && Legal(cfg, s, e) && s.calls[e.call] == VerifyIncreasing(c)
  }

  lemma OwnFramePending(cfg: Config, s: Sys, e: Event)
    requires Legal(cfg, s, e) && CallOf(e).Some? && !e.VerifyConsume? && s.calls.Keys <= s.started
    ensures e.call in Step(cfg, s, e).calls ==> !Step(cfg, s, e).calls[e.call].VerifyIncreasing?
    ensures !e.VerifyIncrease? && !e.Abandon? && e.call in s.calls ==> !s.calls[e.call].VerifyIncreasing?
  {
  }

  lemma PendingAfter(cfg: Config, s: Sys, e: Event, c: Uuid)
    requires s.calls.Keys <= s.started
    ensures Pending(Step(cfg, s, e), c) ==
      if Misses(cfg, s, e, c) then Pending(s, c) + {e.call}
      else if Settles(cfg, s, e, c) then Pending(s, c) - {e.call}
      else Pending(s, c)
  {
    if Legal(cfg, s, e) {
      if CallOf(e).Some? {
        if e.VerifyConsume? {
          MissView(cfg, s, e);
        } else {
          OwnFramePending(cfg, s, e);
        }
      }
      forall k: CallId | CallOf(e) != Some(k) ensures k in Pending(Step(cfg, s, e), c) <==> k in Pending(s, c) {
        OtherCallsUntouched(cfg, s, e, k);
      }
    }
  }

  /** The same, in numbers. */
  lemma PendingCount(cfg: Config, s: Sys, e: Event, c: Uuid)
    requires s.calls.Keys <= s.started
    ensures |Pending(Step(cfg, s, e), c)| == |Pending(s, c)|
      + (if Misses(cfg, s, e, c) then 1 else 0) - (if Settles(cfg, s, e, c) then 1 else 0)
    ensures Misses(cfg, s, e, c) ==> |Pending(s, c)| < |InFlight(s, c)|
  {
    PendingAfter(cfg, s, e, c);
    if Misses(cfg, s, e, c) {
      assert e.call !in Pending(s, c);
      var others := InFlight(s, c) - Pending(s, c);
      assert InFlight(s, c) == Pending(s, c) + others && e.call in others;
    } else if Settles(cfg, s, e, c) {
      assert e.call in Pending(s, c);
    }
  }

  // --- The invariant ---

  /**
    * While the challenge can still be guessed by recovery, every wrong guess is accounted for by an attempt
    * counted, an increment lost, or a call that still owes one.
    */
  ghost predicate Accounted(cfg: Config, tr: seq<Event>, c: Uuid) {
    var s := Run(cfg, tr);
    forall now | c in s.db.otps && Guessable(s.db.otps[c], cfg.AttemptLimit(), now) && NotBefore(cfg, tr, c, now) ::
      CountResetGuesses(cfg, tr, c) <= s.db.otps[c].attempts + CountLost(cfg, tr, c) + |Pending(s, c)|
  }

  ghost predicate Bounded(cfg: Config, tr: seq<Event>, c: Uuid, most: nat) {
    CountResetGuesses(cfg, tr, c) == 0
    || CountResetGuesses(cfg, tr, c) <= cfg.AttemptLimit() - 1 + most + CountLost(cfg, tr, c)
  }

  lemma SameStatements(cfg: Config, tr: seq<Event>, n: nat, i: nat, c: Uuid)
    requires n <= |tr|
    ensures StatementAt(cfg, tr[..n], i, c) <==> i < n && StatementAt(cfg, tr, i, c)
  {
    if i < n {
      assert tr[..n][..i] == tr[..i];
    }
  }

  lemma PrefixHypotheses(cfg: Config, tr: seq<Event>, n: nat, c: Uuid, most: nat)
    requires n <= |tr| && AtMostInFlight(cfg, tr, c, most) && StatementsInOrder(cfg, tr, c)
    ensures AtMostInFlight(cfg, tr[..n], c, most) && StatementsInOrder(cfg, tr[..n], c)
    ensures |InFlight(Run(cfg, tr[..n]), c)| <= most
    ensures forall now | NotBefore(cfg, tr, c, now) :: NotBefore(cfg, tr[..n], c, now)
    ensures n < |tr| && StatementAt(cfg, tr, n, c) ==> NotBefore(cfg, tr[..n], c, tr[n].now)
    ensures n < |tr| && StatementAt(cfg, tr, n, c) ==> forall now | NotBefore(cfg, tr, c, now) :: tr[n].now <= now
  {
    forall i: nat ensures StatementAt(cfg, tr[..n], i, c) <==> i < n && StatementAt(cfg, tr, i, c) {
      SameStatements(cfg, tr, n, i, c);
    }
    forall i | 0 <= i <= n ensures tr[..n][..i] == tr[..i] {}
  }

  lemma CountOneMore(cfg: Config, tr: seq<Event>, c: Uuid)
    requires tr != []
    ensures var before, e := tr[..|tr| - 1], tr[|tr| - 1];
      var s := Run(cfg, before);
      && Run(cfg, tr) == Step(cfg, s, e)
      && CountResetGuesses(cfg, tr, c) ==
        CountResetGuesses(cfg, before, c) + (if ResetGuesses(cfg, s, e, c) then 1 else 0)
      && CountLost(cfg, tr, c) == CountLost(cfg, before, c) + (if Loses(cfg, s, e, c) then 1 else 0)
      && |Pending(Run(cfg, tr), c)| == |Pending(s, c)|
           + (if Misses(cfg, s, e, c) then 1 else 0) - (if Settles(cfg, s, e, c) then 1 else 0)
  {
    RunIsSound(cfg, tr[..|tr| - 1]);
    PendingCount(cfg, Run(cfg, tr[..|tr| - 1]), tr[|tr| - 1], c);
  }

  lemma AccountedAfterIncrease(cfg: Config, tr: seq<Event>, c: Uuid, now: Time)
    requires tr != [] && tr[|tr| - 1].VerifyIncrease? && Accounted(cfg, tr[..|tr| - 1], c)
    requires NotBefore(cfg, tr[..|tr| - 1], c, now)
    requires StatementAt(cfg, tr, |tr| - 1, c) ==> tr[|tr| - 1].now <= now
    requires c in Run(cfg, tr).db.otps && Guessable(Run(cfg, tr).db.otps[c], cfg.AttemptLimit(), now)
    ensures CountResetGuesses(cfg, tr, c) <=
      Run(cfg, tr).db.otps[c].attempts + CountLost(cfg, tr, c) + |Pending(Run(cfg, tr), c)|
  {
    CountOneMore(cfg, tr, c);
    RowAfterIncrease(cfg, Run(cfg, tr[..|tr| - 1]), tr[|tr| - 1], c);
  }

  lemma AccountedAfterOther(cfg: Config, tr: seq<Event>, c: Uuid, now: Time)
    requires tr != [] && !tr[|tr| - 1].VerifyIncrease? && Accounted(cfg, tr[..|tr| - 1], c)
    requires NotBefore(cfg, tr[..|tr| - 1], c, now)
    requires c in Run(cfg, tr).db.otps && Guessable(Run(cfg, tr).db.otps[c], cfg.AttemptLimit(), now)
    ensures CountResetGuesses(cfg, tr, c) <=
      Run(cfg, tr).db.otps[c].attempts + CountLost(cfg, tr, c) + |Pending(Run(cfg, tr), c)|
  {
    var before, e := tr[..|tr| - 1], tr[|tr| - 1];
    var s := Run(cfg, before);
    CountOneMore(cfg, tr, c);
    RowAfterOther(cfg, s, e, c);
    if Stores(cfg, s, e) && s.calls[e.call].challenge == c {
      StoredFirst(cfg, before, e, c);
    } else if e.VerifyConsume? && Legal(cfg, s, e) {
      MissView(cfg, s, e);
    }
  }

  lemma BoundedAfter(cfg: Config, tr: seq<Event>, c: Uuid, most: nat)
    requires tr != [] && Accounted(cfg, tr[..|tr| - 1], c) && Bounded(cfg, tr[..|tr| - 1], c, most)
    requires |InFlight(Run(cfg, tr[..|tr| - 1]), c)| <= most
    requires StatementAt(cfg, tr, |tr| - 1, c) ==> NotBefore(cfg, tr[..|tr| - 1], c, tr[|tr| - 1].now)
    ensures Bounded(cfg, tr, c, most)
  {
    var before, e := tr[..|tr| - 1], tr[|tr| - 1];
    var s := Run(cfg, before);
    CountOneMore(cfg, tr, c);
    if ResetGuesses(cfg, s, e, c) {
      MissView(cfg, s, e);
      RunIsSound(cfg, before);
      PendingCount(cfg, s, e, c);
      assert StatementAt(cfg, tr, |tr| - 1, c);
    }
  }

  lemma {:induction false} GuessesAreAccounted(cfg: Config, tr: seq<Event>, c: Uuid, most: nat)
    requires AtMostInFlight(cfg, tr, c, most) && StatementsInOrder(cfg, tr, c)
    ensures Accounted(cfg, tr, c) && Bounded(cfg, tr, c, most)
  {
    if tr != [] {
      var n := |tr| - 1;
      PrefixHypotheses(cfg, tr, n, c, most);
      GuessesAreAccounted(cfg, tr[..n], c, most);
      BoundedAfter(cfg, tr, c, most);
      forall now |
        && c in Run(cfg, tr).db.otps && Guessable(Run(cfg, tr).db.otps[c], cfg.AttemptLimit(), now)
        && NotBefore(cfg, tr, c, now)
        ensures CountResetGuesses(cfg, tr, c) <=
          Run(cfg, tr).db.otps[c].attempts + CountLost(cfg, tr, c) + |Pending(Run(cfg, tr), c)|
      {
        if tr[n].VerifyIncrease? {
          AccountedAfterIncrease(cfg, tr, c, now);
        } else {
          AccountedAfterOther(cfg, tr, c, now);
        }
      }
    }
  }

  /**
    * The guess bound: if at most `most` verifications of a challenge are ever in flight at once and
    * its statements take effect in the order of their times, then `VerifyPasswordResetCode`
    * compares at most `limit - 1 + most + lost` wrong codes with it while it is below the limit.
    */
  lemma WrongGuessesAreBounded(cfg: Config, tr: seq<Event>, c: Uuid, most: nat)
    requires AtMostInFlight(cfg, tr, c, most) && StatementsInOrder(cfg, tr, c)
    ensures cfg.AttemptLimit() >= 1 ==>
      CountResetGuesses(cfg, tr, c) <= cfg.AttemptLimit() - 1 + most + CountLost(cfg, tr, c)
    ensures cfg.AttemptLimit() < 1 ==> CountResetGuesses(cfg, tr, c) == 0
  {
    GuessesAreAccounted(cfg, tr, c, most);
    if cfg.AttemptLimit() < 1 {
      NoGuessesWithoutLimit(cfg, tr, c);
    }
  }

  lemma {:induction false} NoGuessesWithoutLimit(cfg: Config, tr: seq<Event>, c: Uuid)
    requires cfg.AttemptLimit() < 1
    ensures CountResetGuesses(cfg, tr, c) == 0
  {
    if tr != [] {
      var before := tr[..|tr| - 1];
      NoGuessesWithoutLimit(cfg, before, c);
      if c in Run(cfg, before).db.otps {
        AttemptsAreCounted(cfg, before, c);
      }
    }
  }

  /** One verification at a time, none of whose increments is lost: at most the limit. */
  lemma SequentialGuesses(cfg: Config, tr: seq<Event>, c: Uuid)
    requires 1 <= cfg.maxAttempts <= SMALLINT_MAX
    requires AtMostInFlight(cfg, tr, c, 1) && StatementsInOrder(cfg, tr, c) && CountLost(cfg, tr, c) == 0
    ensures CountResetGuesses(cfg, tr, c) <= cfg.maxAttempts
  {
    WrongGuessesAreBounded(cfg, tr, c, 1);
  }

  /** A number just beyond the column arrives as a negative limit, with which recovery accepts no code at all. */
  lemma NumberBeyondColumnRefuses(cfg: Config, tr: seq<Event>, e: Event)
    requires 32768 <= cfg.maxAttempts <= 65535 && e.VerifyConsume?
    ensures cfg.AttemptLimit() == cfg.maxAttempts - 65536
    ensures Consumed(cfg, Run(cfg, tr), e) == None
  {
    if Consumed(cfg, Run(cfg, tr), e).Some? {
      ConsumedWasStored(cfg, Run(cfg, tr), e);
      AttemptsAreCounted(cfg, tr, Consumed(cfg, Run(cfg, tr), e).value);
    }
  }
}
