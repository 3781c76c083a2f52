/** Where sessions, reset tokens and password changes come from. */
module Provenance {
  import opened Schema
  import opened Sql
  import opened Machine
  import opened Recovery

  /** `p` is the one thing that came of the challenge `c`, for the user whose address it was sent to. */
  ghost predicate IsProduct(users: map<Uuid, User>, l: Log, c: Uuid, u: Uuid, p: Uuid, byReset: bool) {
    && c in l.sent && c in l.used
    && l.used[c].byReset == byReset && l.used[c].product == Some(p)
    && IsUser(users, u, l.sent[c].email)
  }

  ghost predicate ProductsOk(users: map<Uuid, User>, l: Log) {
    && (forall i | i in l.minted :: IsProduct(users, l, l.minted[i].challenge, l.minted[i].user, i, true))
    && (forall t | t in l.sessions :: IsProduct(users, l, l.sessions[t].challenge, l.sessions[t].user, t, false))
  }

  lemma ProductsStay(users: map<Uuid, User>, users': map<Uuid, User>, l: Log, l': Log, who: Option<CallId>)
    requires ProductsOk(users, l) && Later(users, users') && LogLater(l, l', who)
    requires l'.minted == l.minted && l'.sessions == l.sessions
    ensures ProductsOk(users', l')
  {
  }

  lemma MintIsProduct(users: map<Uuid, User>, l: Log, call: CallId, id: Uuid, m: Minted)
    requires ProductsOk(users, l) && m.user in users
    requires Holds(l, call, m.challenge, true, users[m.user].email)
    ensures ProductsOk(users, Mint(l, id, m))
  {
  }

  lemma SessionIsProduct(users: map<Uuid, User>, l: Log, call: CallId, id: Uuid, o: OtpSession)
    requires ProductsOk(users, l) && o.user in users
    requires Holds(l, call, o.challenge, false, users[o.user].email)
    ensures ProductsOk(users, OpenSession(l, id, o))
  {
  }

  lemma OtherProducts(cfg: Config, s: Sys, l: Log, e: Event)
    requires !e.VerifySave? && !e.OtpSave?
    ensures Note(cfg, l, s, e).minted == l.minted && Note(cfg, l, s, e).sessions == l.sessions
  {
  }

  lemma ProductsKept(cfg: Config, s: Sys, l: Log, e: Event)
    requires Sound(s) && Traced(cfg, s, l) && ProductsOk(s.db.users, l)
    ensures ProductsOk(Step(cfg, s, e).db.users, Note(cfg, l, s, e))
  {
    if e.VerifySave? || e.OtpSave? {
      UsersUntouched(cfg, s, e);
      NewProduct(cfg, s, l, e);
    } else {
      UsersStay(cfg, s, e);
      NotesGrow(cfg, s, l, e);
      OtherProducts(cfg, s, l, e);
      ProductsStay(s.db.users, Step(cfg, s, e).db.users, l, Note(cfg, l, s, e), CallOf(e));
    }
  }

  lemma NewProduct(cfg: Config, s: Sys, l: Log, e: Event)
    requires FramesOk(s, l) && ProductsOk(s.db.users, l) && (e.VerifySave? || e.OtpSave?)
    ensures ProductsOk(s.db.users, Note(cfg, l, s, e))
  {
    if Legal(cfg, s, e) {
      var f := s.calls[e.call];
      assert FrameOk(s.db.users, l, e.call, f);
      if e.VerifySave? {
        MintIsProduct(s.db.users, l, e.call, e.id, Minted(f.challenge, f.user, e.secret, e.clock));
      } else {
        SessionIsProduct(s.db.users, l, e.call, e.id, OtpSession(f.challenge, f.user));
      }
    }
  }

  // --- Reset tokens ---

  ghost predicate AsMinted(cfg: Config, r: ResetToken, m: Minted) {
    r.user == m.user && r.hash == ResetMac(m.secret) && r.expiresAt == m.setAt + cfg.resetDuration
  }

  /** The stored reset tokens are exactly the ones noted. */
  ghost predicate ResetsTraced(cfg: Config, resets: map<Uuid, ResetToken>, l: Log) {
    && resets.Keys == l.minted.Keys
    && (forall i | i in resets :: AsMinted(cfg, resets[i], l.minted[i]))
  }

  /** A password change spent its reset token, which was unexpired and unused. */
  ghost predicate ChangeOk(resets: map<Uuid, ResetToken>, ch: Change) {
    && ch.resetId in resets
    && resets[ch.resetId].user == ch.user
    && resets[ch.resetId].usedAt == Some(ch.at)
    && ch.at < resets[ch.resetId].expiresAt
  }

  ghost predicate ChangesOk(resets: map<Uuid, ResetToken>, changes: seq<Change>) {
    && (forall k | 0 <= k < |changes| :: ChangeOk(resets, changes[k]))
    && (forall j, k | 0 <= j < k < |changes| :: changes[j].resetId != changes[k].resetId)
  }

  /** Every challenge that was consumed had not expired. */
  ghost predicate UsedInTime(cfg: Config, l: Log) {
    forall c | c in l.used :: c in l.sent && l.used[c].at < l.sent[c].clock + cfg.otpDuration
  }

  lemma MintView(cfg: Config, s: Sys, l: Log, e: Event)
    requires Legal(cfg, s, e) && e.VerifySave?
    ensures var f := s.calls[e.call];
      var m := Minted(f.challenge, f.user, e.secret, e.clock);
      if Mints(cfg, s, e) then
        && e.id !in s.db.resets
        && Step(cfg, s, e).db.resets ==
             s.db.resets[e.id := ResetToken(f.user, ResetMac(e.secret), e.clock + cfg.resetDuration, None, e.now)]
        && Note(cfg, l, s, e) == Mint(l, e.id, m)
      else Step(cfg, s, e).db.resets == s.db.resets && Note(cfg, l, s, e) == l
  {
  }

  lemma ResetView(cfg: Config, s: Sys, l: Log, e: Event)
    requires e.Reset?
    ensures if ChangesPassword(s, e) then
        var r := ResetRowOf(s, e);
        && r.ResetRow? && r.resetId in s.db.resets
        && Redeemable(s.db.resets[r.resetId], ResetMac(e.secret), e.now)
        && r.reset == s.db.resets[r.resetId].(usedAt := Some(e.now))
        && Step(cfg, s, e).db.resets == s.db.resets[r.resetId := r.reset]
        && Note(cfg, l, s, e) ==
          l.(changes := l.changes + [Change(r.resetId, r.reset.user, Bcrypt(e.salt, e.password), e.now)])
      else Step(cfg, s, e).db == s.db && Note(cfg, l, s, e) == l
  {
  }

  lemma OtherResets(cfg: Config, s: Sys, l: Log, e: Event)
    requires !TouchesResets(e)
    ensures Step(cfg, s, e).db.resets == s.db.resets
    ensures Note(cfg, l, s, e).minted == l.minted && Note(cfg, l, s, e).changes == l.changes
  {
    ResetsUntouched(cfg, s, e);
  }

  lemma ChangeIsRecorded(cfg: Config, resets: map<Uuid, ResetToken>, l: Log, i: Uuid, at: Time, password: PasswordHash)
    requires ResetsTraced(cfg, resets, l) && ChangesOk(resets, l.changes)
    requires i in resets && resets[i].usedAt == None && at < resets[i].expiresAt
    ensures var resets' := resets[i := resets[i].(usedAt := Some(at))];
      && ResetsTraced(cfg, resets', l)
      && ChangesOk(resets', l.changes + [Change(i, resets[i].user, password, at)])
  {
  }

  lemma ResetsKeptByMint(cfg: Config, s: Sys, l: Log, e: Event)
    requires ResetsTraced(cfg, s.db.resets, l) && ChangesOk(s.db.resets, l.changes)
    requires e.VerifySave? && Legal(cfg, s, e)
    ensures var s', l' := Step(cfg, s, e), Note(cfg, l, s, e);
      ResetsTraced(cfg, s'.db.resets, l') && ChangesOk(s'.db.resets, l'.changes)
  {
    MintView(cfg, s, l, e);
    if Mints(cfg, s, e) {
      var f := s.calls[e.call];
      MintIsRecorded(cfg, s.db.resets, l, e.id,
        ResetToken(f.user, ResetMac(e.secret), e.clock + cfg.resetDuration, None, e.now),
        Minted(f.challenge, f.user, e.secret, e.clock));
    }
  }

  lemma MintIsRecorded(cfg: Config, resets: map<Uuid, ResetToken>, l: Log, id: Uuid, row: ResetToken, m: Minted)
    requires ResetsTraced(cfg, resets, l) && ChangesOk(resets, l.changes) && id !in resets && AsMinted(cfg, row, m)
    ensures ResetsTraced(cfg, resets[id := row], Mint(l, id, m)) && ChangesOk(resets[id := row], l.changes)
  {
  }

  lemma ResetsKeptByReset(cfg: Config, s: Sys, l: Log, e: Event)
    requires ResetsTraced(cfg, s.db.resets, l) && ChangesOk(s.db.resets, l.changes) && e.Reset?
    ensures var s', l' := Step(cfg, s, e), Note(cfg, l, s, e);
      ResetsTraced(cfg, s'.db.resets, l') && ChangesOk(s'.db.resets, l'.changes)
  {
    ResetView(cfg, s, l, e);
    if ChangesPassword(s, e) {
      ChangeIsRecorded(cfg, s.db.resets, l, ResetRowOf(s, e).resetId, e.now, Bcrypt(e.salt, e.password));
    }
  }

  lemma ResetsKept(cfg: Config, s: Sys, l: Log, e: Event)
    requires ResetsTraced(cfg, s.db.resets, l) && ChangesOk(s.db.resets, l.changes)
    ensures var s', l' := Step(cfg, s, e), Note(cfg, l, s, e);
      ResetsTraced(cfg, s'.db.resets, l') && ChangesOk(s'.db.resets, l'.changes)
  {
    if !TouchesResets(e) {
      OtherResets(cfg, s, l, e);
    } else if e.Reset? {
      ResetsKeptByReset(cfg, s, l, e);
    } else if Legal(cfg, s, e) {
      ResetsKeptByMint(cfg, s, l, e);
    }
  }

  lemma UsedByStep(cfg: Config, s: Sys, l: Log, e: Event, c: Uuid)
    requires c in Note(cfg, l, s, e).used
    ensures var use := Note(cfg, l, s, e).used[c];
      || (Consumed(cfg, s, e) == Some(c) && use == Use(e.VerifyConsume?, e.call, e.now, None))
      || (c in l.used && use.byReset == l.used[c].byReset && use.call == l.used[c].call && use.at == l.used[c].at)
  {
    if e.OtpConsume? || e.VerifyConsume? {
      if Legal(cfg, s, e) {
        ConsumeNoteView(cfg, s, l, e);
      }
    }
  }

  lemma UsedInTimeFor(cfg: Config, s: Sys, l: Log, e: Event, c: Uuid)
    requires OtpsTraced(cfg, s.db.otps, l) && UsedInTime(cfg, l) && c in Note(cfg, l, s, e).used
    ensures c in l.sent && Note(cfg, l, s, e).used[c].at < l.sent[c].clock + cfg.otpDuration
  {
    UsedByStep(cfg, s, l, e, c);
    if Consumed(cfg, s, e) == Some(c) {
      ConsumedWasStored(cfg, s, e);
    }
  }

  lemma UsedInTimeKept(cfg: Config, s: Sys, l: Log, e: Event)
    requires Traced(cfg, s, l) && UsedInTime(cfg, l)
    ensures UsedInTime(cfg, Note(cfg, l, s, e))
  {
    NotesGrow(cfg, s, l, e);
    var l' := Note(cfg, l, s, e);
    forall c | c in l'.used ensures c in l'.sent && l'.used[c].at < l'.sent[c].clock + cfg.otpDuration {
      UsedInTimeFor(cfg, s, l, e, c);
    }
  }

  ghost predicate Sourced(cfg: Config, s: Sys, l: Log) {
    && ProductsOk(s.db.users, l)
    && ResetsTraced(cfg, s.db.resets, l)
    && ChangesOk(s.db.resets, l.changes)
    && UsedInTime(cfg, l)
  }

  lemma {:induction false} RunIsSourced(cfg: Config, tr: seq<Event>)
    ensures Sourced(cfg, Run(cfg, tr), LogOf(cfg, tr))
  {
    if tr != [] {
      var before, e := tr[..|tr| - 1], tr[|tr| - 1];
      RunIsSourced(cfg, before);
      RunIsSound(cfg, before);
      RunIsTraced(cfg, before);
      ProductsKept(cfg, Run(cfg, before), LogOf(cfg, before), e);
      ResetsKept(cfg, Run(cfg, before), LogOf(cfg, before), e);
      UsedInTimeKept(cfg, Run(cfg, before), LogOf(cfg, before), e);
    }
  }
}
