/** Where every challenge went: the exact accounts behind the inequalities of `Accounting`. */
module Ledger {
  import opened Schema
  import opened Machine
  import opened Recovery
  import opened Provenance
  import opened Guarantees
  import opened RoundTrip

  // --- Calls that hold a consumed challenge ---

  predicate HoldsChallenge(f: Frame) {
    f.OtpSaving? || f.VerifyLooking? || f.VerifySaving?
  }

  ghost predicate Holding(s: Sys, call: CallId) {
    call in s.calls && HoldsChallenge(s.calls[call])
  }

  ghost function Holders(s: Sys): set<CallId> {
    set k | k in s.calls && HoldsChallenge(s.calls[k])
  }

  /** A call that holds a challenge ends, and nothing came of it. */
  ghost predicate Strands(cfg: Config, s: Sys, e: Event) {
    && CallOf(e).Some? && Legal(cfg, s, e) && Holding(s, e.call) && e.call !in Step(cfg, s, e).calls
    && !Mints(cfg, s, e) && !OpensByOtp(cfg, s, e)
  }

  ghost function CountStranded(cfg: Config, tr: seq<Event>): nat {
    if tr == [] then 0 else
    var before, e := tr[..|tr| - 1], tr[|tr| - 1];
    CountStranded(cfg, before) + if Strands(cfg, Run(cfg, before), e) then 1 else 0
  }

  /** The event takes the challenge from the call that holds it. */
  ghost predicate Releases(cfg: Config, s: Sys, e: Event) {
    Mints(cfg, s, e) || OpensByOtp(cfg, s, e) || Strands(cfg, s, e)
  }

  lemma OwnHolding(cfg: Config, s: Sys, e: Event)
    requires Legal(cfg, s, e) && CallOf(e).Some? && s.calls.Keys <= s.started && !e.OtpConsume? && !e.VerifyConsume?
    ensures Holding(Step(cfg, s, e), e.call) <==> Holding(s, e.call) && !Releases(cfg, s, e)
    ensures Releases(cfg, s, e) ==> Holding(s, e.call)
  {
  }

  lemma ConsumerHolds(cfg: Config, s: Sys, e: Event)
    requires Legal(cfg, s, e) && (e.OtpConsume? || e.VerifyConsume?)
    ensures !Holding(s, e.call) && !Releases(cfg, s, e)
    ensures Holding(Step(cfg, s, e), e.call) <==> Consumed(cfg, s, e).Some?
  {
    ConsumeView(cfg, s, e);
  }

  lemma OtherHolding(cfg: Config, s: Sys, e: Event, k: CallId)
    requires CallOf(e) != Some(k)
    ensures k in Holders(Step(cfg, s, e)) <==> k in Holders(s)
  {
    OtherCallsUntouched(cfg, s, e, k);
  }

  lemma HoldersAfter(cfg: Config, s: Sys, e: Event)
    requires s.calls.Keys <= s.started
    ensures Holders(Step(cfg, s, e)) ==
      if Consumed(cfg, s, e).Some? then Holders(s) + {e.call}
      else if Releases(cfg, s, e) then Holders(s) - {e.call}
      else Holders(s)
    ensures Consumed(cfg, s, e).Some? ==> e.call !in Holders(s) && !Releases(cfg, s, e)
    ensures Releases(cfg, s, e) ==> e.call in Holders(s)
  {
    if Legal(cfg, s, e) {
      if CallOf(e).Some? {
        if e.OtpConsume? || e.VerifyConsume? {
          ConsumerHolds(cfg, s, e);
        } else {
          OwnHolding(cfg, s, e);
        }
      }
      forall k: CallId | CallOf(e) != Some(k) ensures k in Holders(Step(cfg, s, e)) <==> k in Holders(s) {
        OtherHolding(cfg, s, e, k);
      }
    }
  }

  lemma HoldersCount(cfg: Config, s: Sys, e: Event)
    requires s.calls.Keys <= s.started
    ensures |Holders(Step(cfg, s, e))| == |Holders(s)|
      + (if Consumed(cfg, s, e).Some? then 1 else 0) - (if Releases(cfg, s, e) then 1 else 0)
  {
    HoldersAfter(cfg, s, e);
  }

  // --- How the notes are counted ---

  lemma UsedCount(cfg: Config, s: Sys, l: Log, e: Event)
    requires OtpsTraced(cfg, s.db.otps, l)
    ensures |Note(cfg, l, s, e).used| == |l.used| + if Consumed(cfg, s, e).Some? then 1 else 0
  {
    if e.OtpConsume? || e.VerifyConsume? {
      if Legal(cfg, s, e) {
        ConsumeNoteView(cfg, s, l, e);
        if Consumed(cfg, s, e).Some? {
          ConsumedWasStored(cfg, s, e);
        }
      }
    } else {
      SameKeysSameSize(l.used, Note(cfg, l, s, e).used);
    }
  }

  lemma SameKeysSameSize(used: map<Uuid, Use>, used': map<Uuid, Use>)
    ensures used.Keys == used'.Keys ==> |used| == |used'|
  {
    assert |used| == |used.Keys| && |used'| == |used'.Keys|;
  }

  lemma MintedCount(cfg: Config, s: Sys, l: Log, e: Event)
    requires ResetsTraced(cfg, s.db.resets, l)
    ensures |Note(cfg, l, s, e).minted| == |l.minted| + if Mints(cfg, s, e) then 1 else 0
  {
    if e.VerifySave? && Legal(cfg, s, e) {
      MintView(cfg, s, l, e);
    }
  }

  lemma SessionsCount(cfg: Config, s: Sys, l: Log, e: Event)
    requires l.sessions.Keys <= s.issued
    ensures |Note(cfg, l, s, e).sessions| == |l.sessions| + if OpensByOtp(cfg, s, e) then 1 else 0
    ensures Note(cfg, l, s, e).sessions.Keys <= Step(cfg, s, e).issued
  {
    DrawnStaysDrawn(cfg, s, e);
  }

  /**
    * The exact account of the challenges consumed: each is a session, a reset token, held by a call
    * in flight, or was held by a call that ended with nothing.
    */
  lemma {:induction false} ConsumedAreAccounted(cfg: Config, tr: seq<Event>)
    ensures LogOf(cfg, tr).sessions.Keys <= Run(cfg, tr).issued
    ensures var s, l := Run(cfg, tr), LogOf(cfg, tr);
      |l.used| == |l.sessions| + |l.minted| + |Holders(s)| + CountStranded(cfg, tr)
  {
    if tr != [] {
      ConsumedAreAccounted(cfg, tr[..|tr| - 1]);
      OneMoreAccounted(cfg, tr);
    } else {
      assert Holders(INIT) == {};
    }
  }

  lemma OneMoreAccounted(cfg: Config, tr: seq<Event>)
    requires tr != []
    requires LogOf(cfg, tr[..|tr| - 1]).sessions.Keys <= Run(cfg, tr[..|tr| - 1]).issued
    ensures var before, e := tr[..|tr| - 1], tr[|tr| - 1];
      var s, l := Run(cfg, before), LogOf(cfg, before);
      var s', l' := Run(cfg, tr), LogOf(cfg, tr);
      && l'.sessions.Keys <= s'.issued
      && |l'.used| - |l'.sessions| - |l'.minted| - |Holders(s')|
           == |l.used| - |l.sessions| - |l.minted| - |Holders(s)| + if Strands(cfg, s, e) then 1 else 0
  {
    var before, e := tr[..|tr| - 1], tr[|tr| - 1];
    RunIsSound(cfg, before);
    RunIsTraced(cfg, before);
    RunIsSourced(cfg, before);
    CountsOfStep(cfg, Run(cfg, before), LogOf(cfg, before), e);
  }

  lemma CountsOfStep(cfg: Config, s: Sys, l: Log, e: Event)
    requires s.calls.Keys <= s.started && OtpsTraced(cfg, s.db.otps, l) && ResetsTraced(cfg, s.db.resets, l)
    requires l.sessions.Keys <= s.issued
    ensures var s', l' := Step(cfg, s, e), Note(cfg, l, s, e);
      && l'.sessions.Keys <= s'.issued
      && |l'.used| - |l'.sessions| - |l'.minted| - |Holders(s')|
           == |l.used| - |l.sessions| - |l.minted| - |Holders(s)| + if Strands(cfg, s, e) then 1 else 0
  {
    HoldersCount(cfg, s, e);
    UsedCount(cfg, s, l, e);
    MintedCount(cfg, s, l, e);
    SessionsCount(cfg, s, l, e);
  }

  // --- Why a challenge is stranded ---

  /** Only a statement that is lost, or a call that ends early, strands a challenge. */
  lemma StrandedByFault(cfg: Config, tr: seq<Event>, i: nat)
    requires i < |tr| && Strands(cfg, Run(cfg, tr[..i]), tr[i])
    ensures tr[i].Abandon? || ((tr[i].VerifyLookup? || tr[i].VerifySave? || tr[i].OtpSave?) && tr[i].fault)
  {
    var s, e := Run(cfg, tr[..i]), tr[i];
    StrandingEvents(cfg, s, e);
    if e.VerifyLookup? && !e.fault {
      LookingCallFinds(cfg, tr, i, s.calls[e.call].challenge, s.calls[e.call].email);
      RunOneMore(cfg, INIT, tr, i);
    } else if e.VerifySave? && !e.fault {
      SavingCallMints(cfg, tr, i, s.calls[e.call].challenge, s.calls[e.call].user);
    } else if e.OtpSave? && !e.fault {
      SavingCodeOpens(cfg, tr, i);
    }
  }

  lemma StrandingEvents(cfg: Config, s: Sys, e: Event)
    requires Strands(cfg, s, e)
    ensures e.Abandon? || e.VerifyLookup? || e.VerifySave? || e.OtpSave?
  {
  }

  lemma SavingCodeOpens(cfg: Config, tr: seq<Event>, i: nat)
    requires i < |tr| && tr[i].OtpSave? && !tr[i].fault && Legal(cfg, Run(cfg, tr[..i]), tr[i])
    ensures OpensByOtp(cfg, Run(cfg, tr[..i]), tr[i])
  {
    var s := Run(cfg, tr[..i]);
    RunIsSound(cfg, tr[..i]);
    RunIsTraced(cfg, tr[..i]);
    assert FrameOk(s.db.users, LogOf(cfg, tr[..i]), tr[i].call, s.calls[tr[i].call]);
  }

  // --- The challenges that were stored ---

  /** The challenges that a committed `SendCode` drops from the table. */
  ghost function Dropped(cfg: Config, s: Sys, e: Event): set<Uuid> {
    if Stores(cfg, s, e) then set d | d in s.db.otps && s.db.otps[d].identifier == s.calls[e.call].email
    else {}
  }

  ghost function CountDropped(cfg: Config, tr: seq<Event>): nat {
    if tr == [] then 0 else
    var before, e := tr[..|tr| - 1], tr[|tr| - 1];
    CountDropped(cfg, before) + |Dropped(cfg, Run(cfg, before), e)|
  }

  lemma SizeAfterStore(otps: map<Uuid, Otp>, otps': map<Uuid, Otp>, dropped: set<Uuid>, c: Uuid)
    requires dropped <= otps.Keys && c !in otps && otps'.Keys == otps.Keys - dropped + {c}
    ensures |otps'| == |otps| - |dropped| + 1
  {
    assert |otps'| == |otps'.Keys| && |otps| == |otps.Keys|;
    assert otps.Keys == (otps.Keys - dropped) + dropped;
  }

  lemma StoredKeys(cfg: Config, s: Sys, e: Event)
    requires Stores(cfg, s, e) && s.calls[e.call].challenge !in s.db.otps
    ensures Step(cfg, s, e).db.otps.Keys == s.db.otps.Keys - Dropped(cfg, s, e) + {s.calls[e.call].challenge}
  {
    var f := s.calls[e.call];
    SendStoreView(cfg, s, e);
    SendTablesOtps(s.db, f.challenge, NewOtp(cfg, f.email, f.code, e.createdAt, e.clock), e.txFault);
  }

  lemma StoredCount(cfg: Config, s: Sys, l: Log, e: Event)
    requires Traced(cfg, s, l) && Stores(cfg, s, e)
    ensures var s', l' := Step(cfg, s, e), Note(cfg, l, s, e);
      |l'.sent| - |s'.db.otps| - |l'.used| == |l.sent| - |s.db.otps| - |l.used| + |Dropped(cfg, s, e)|
  {
    var c := s.calls[e.call].challenge;
    assert FrameOk(s.db.users, l, e.call, s.calls[e.call]);
    StoredKeys(cfg, s, e);
    SizeAfterStore(s.db.otps, Step(cfg, s, e).db.otps, Dropped(cfg, s, e), c);
    SentIsNew(cfg, s, l, e);
  }

  lemma NothingStored(cfg: Config, s: Sys, l: Log, e: Event)
    requires e.SendStore? && !Stores(cfg, s, e)
    ensures Step(cfg, s, e).db == s.db && Note(cfg, l, s, e) == l
  {
    if Legal(cfg, s, e) {
      SendStoreView(cfg, s, e);
    }
  }

  lemma TakenCount(cfg: Config, s: Sys, l: Log, e: Event)
    requires Traced(cfg, s, l) && (e.OtpConsume? || e.VerifyConsume?) && Legal(cfg, s, e)
    ensures var s', l' := Step(cfg, s, e), Note(cfg, l, s, e);
      |l'.sent| - |s'.db.otps| - |l'.used| == |l.sent| - |s.db.otps| - |l.used|
  {
    ConsumeView(cfg, s, e);
    ConsumeNoteView(cfg, s, l, e);
    if Consumed(cfg, s, e).Some? {
      assert Step(cfg, s, e).db.otps.Keys == s.db.otps.Keys - {Consumed(cfg, s, e).value};
    }
  }

  lemma OtherCount(cfg: Config, s: Sys, l: Log, e: Event)
    requires !e.OtpConsume? && !e.VerifyConsume? && !e.SendStore?
    ensures var s', l' := Step(cfg, s, e), Note(cfg, l, s, e);
      && s'.db.otps.Keys == s.db.otps.Keys && l'.sent == l.sent && l'.used.Keys == l.used.Keys
  {
    if e.VerifyIncrease? {
      if Legal(cfg, s, e) {
        IncreaseView(cfg, s, e);
      }
    } else {
      OtpsUntouched(cfg, s, e);
    }
    if !e.SendLookup? {
      OtherNotes(cfg, s, l, e);
    }
  }

  lemma StoredCountOfStep(cfg: Config, s: Sys, l: Log, e: Event)
    requires Traced(cfg, s, l)
    ensures var s', l' := Step(cfg, s, e), Note(cfg, l, s, e);
      |l'.sent| - |s'.db.otps| - |l'.used| == |l.sent| - |s.db.otps| - |l.used| + |Dropped(cfg, s, e)|
  {
    if Stores(cfg, s, e) {
      StoredCount(cfg, s, l, e);
    } else if e.SendStore? {
      NothingStored(cfg, s, l, e);
    } else if Legal(cfg, s, e) && (e.OtpConsume? || e.VerifyConsume?) {
      TakenCount(cfg, s, l, e);
    } else if Legal(cfg, s, e) {
      OtherCount(cfg, s, l, e);
      SameKeysSameSize(l.used, Note(cfg, l, s, e).used);
      assert |Step(cfg, s, e).db.otps| == |Step(cfg, s, e).db.otps.Keys| && |s.db.otps| == |s.db.otps.Keys|;
    }
  }

  /** The exact account of the challenges stored: each was consumed, is still stored, or was dropped for a newer one. */
  lemma {:induction false} StoredAreAccounted(cfg: Config, tr: seq<Event>)
    ensures var s, l := Run(cfg, tr), LogOf(cfg, tr); |l.sent| == |l.used| + |s.db.otps| + CountDropped(cfg, tr)
  {
    if tr != [] {
      var before := tr[..|tr| - 1];
      StoredAreAccounted(cfg, before);
      RunIsTraced(cfg, before);
      StoredCountOfStep(cfg, Run(cfg, before), LogOf(cfg, before), tr[|tr| - 1]);
    }
  }
}
