/** What holds of every run of the login-by-code and password-recovery flows, whatever the clocks read. */
module Guarantees {
  import opened Schema
  import opened Sql
  import opened Machine
  import opened Recovery
  import opened Provenance

  // --- The events of a run, by position ---

  ghost predicate StoresAt(cfg: Config, tr: seq<Event>, g: nat, c: Uuid) {
    && g < |tr|
    && var s := Run(cfg, tr[..g]);
      Stores(cfg, s, tr[g]) && s.calls[tr[g].call].challenge == c
  }

  ghost predicate ConsumesAt(cfg: Config, tr: seq<Event>, h: nat, c: Uuid) {
    h < |tr| && Consumed(cfg, Run(cfg, tr[..h]), tr[h]) == Some(c)
  }

  ghost predicate MintsAt(cfg: Config, tr: seq<Event>, j: nat, c: Uuid) {
    && j < |tr|
    && var s := Run(cfg, tr[..j]);
      Mints(cfg, s, tr[j]) && s.calls[tr[j].call].challenge == c
  }

  ghost predicate ChangesAt(cfg: Config, tr: seq<Event>, i: nat) {
    i < |tr| && ChangesPassword(Run(cfg, tr[..i]), tr[i])
  }

  /** A reset sets the user's password. */
  ghost predicate SetsAt(cfg: Config, tr: seq<Event>, m: nat, u: Uuid) {
    m < |tr| && ResetUser(Run(cfg, tr[..m]), tr[m]) == Some(u)
  }

  // --- What is noted has happened ---

  lemma SentByStep(cfg: Config, s: Sys, l: Log, e: Event, c: Uuid)
    requires c in Note(cfg, l, s, e).sent
    ensures
      || (Stores(cfg, s, e) && s.calls[e.call].challenge == c && Note(cfg, l, s, e).sent[c]
            == Sent(s.calls[e.call].user, s.calls[e.call].email, s.calls[e.call].code, e.clock))
      || (c in l.sent && Note(cfg, l, s, e).sent[c] == l.sent[c])
  {
    if e.OtpConsume? || e.VerifyConsume? {
      if Legal(cfg, s, e) {
        ConsumeNoteView(cfg, s, l, e);
      }
    } else if !e.SendLookup? && !e.SendStore? {
      OtherNotes(cfg, s, l, e);
    }
  }

  /** The event stores the reset token as noted. */
  predicate SavedAs(e: Event, i: Uuid, m: Minted) {
    e.VerifySave? && e.id == i && e.secret == m.secret && e.clock == m.setAt
  }

  lemma MintedByStep(cfg: Config, s: Sys, l: Log, e: Event, i: Uuid)
    requires i in Note(cfg, l, s, e).minted
    ensures var m := Note(cfg, l, s, e).minted[i];
      || (Mints(cfg, s, e) && s.calls[e.call].challenge == m.challenge && SavedAs(e, i, m))
      || (i in l.minted && m == l.minted[i])
  {
    if e.VerifySave? {
      if Legal(cfg, s, e) {
        MintView(cfg, s, l, e);
      }
    } else {
      OtherMinted(cfg, s, l, e);
    }
  }

  lemma OtherMinted(cfg: Config, s: Sys, l: Log, e: Event)
    requires !e.VerifySave?
    ensures Note(cfg, l, s, e).minted == l.minted
  {
  }

  lemma {:induction false} SentHappened(cfg: Config, tr: seq<Event>, n: nat, c: Uuid) returns (g: nat)
    requires n <= |tr| && c in LogOf(cfg, tr[..n]).sent
    ensures g < n && StoresAt(cfg, tr, g, c)
    ensures var f := Run(cfg, tr[..g]).calls[tr[g].call];
      LogOf(cfg, tr[..n]).sent[c] == Sent(f.user, f.email, f.code, tr[g].clock)
  {
    LogOneMore(cfg, tr, n - 1);
    SentByStep(cfg, Run(cfg, tr[..n - 1]), LogOf(cfg, tr[..n - 1]), tr[n - 1], c);
    if StoresAt(cfg, tr, n - 1, c) {
      g := n - 1;
      SentIsNew(cfg, Run(cfg, tr[..g]), LogOf(cfg, tr[..g]), tr[g]);
    } else {
      g := SentHappened(cfg, tr, n - 1, c);
    }
  }

  lemma SentIsNew(cfg: Config, s: Sys, l: Log, e: Event)
    requires Stores(cfg, s, e)
    ensures var f := s.calls[e.call];
      Note(cfg, l, s, e) == Send(l, f.challenge, Sent(f.user, f.email, f.code, e.clock))
  {
  }

  lemma {:induction false} UsedHappened(cfg: Config, tr: seq<Event>, n: nat, c: Uuid) returns (h: nat)
    requires n <= |tr| && c in LogOf(cfg, tr[..n]).used
    ensures h < n && ConsumesAt(cfg, tr, h, c)
    ensures var use := LogOf(cfg, tr[..n]).used[c];
      use.byReset == tr[h].VerifyConsume? && use.call == tr[h].call && use.at == tr[h].now
  {
    LogOneMore(cfg, tr, n - 1);
    UsedByStep(cfg, Run(cfg, tr[..n - 1]), LogOf(cfg, tr[..n - 1]), tr[n - 1], c);
    if ConsumesAt(cfg, tr, n - 1, c) {
      h := n - 1;
      ConsumeNoteView(cfg, Run(cfg, tr[..h]), LogOf(cfg, tr[..h]), tr[h]);
    } else {
      h := UsedHappened(cfg, tr, n - 1, c);
    }
  }

  lemma {:induction false} MintedHappened(cfg: Config, tr: seq<Event>, n: nat, i: Uuid) returns (j: nat)
    requires n <= |tr| && i in LogOf(cfg, tr[..n]).minted
    ensures var m := LogOf(cfg, tr[..n]).minted[i];
      j < n && MintsAt(cfg, tr, j, m.challenge) && SavedAs(tr[j], i, m)
  {
    LogOneMore(cfg, tr, n - 1);
    MintedByStep(cfg, Run(cfg, tr[..n - 1]), LogOf(cfg, tr[..n - 1]), tr[n - 1], i);
    var m := LogOf(cfg, tr[..n]).minted[i];
    if MintsAt(cfg, tr, n - 1, m.challenge) && SavedAs(tr[n - 1], i, m) {
      j := n - 1;
    } else {
      j := MintedHappened(cfg, tr, n - 1, i);
    }
  }

  // --- What is noted stays noted ---

  ghost predicate Kept(l: Log, l': Log) {
    && l.used.Keys <= l'.used.Keys
    && (forall c | c in l.sent :: c in l'.sent && l'.sent[c] == l.sent[c])
    && (forall c | c in l.used && l.used[c].product.Some? :: c in l'.used && l'.used[c] == l.used[c])
  }

  lemma UsedStaysUsed(cfg: Config, s: Sys, l: Log, e: Event)
    ensures l.used.Keys <= Note(cfg, l, s, e).used.Keys
  {
    if e.OtpConsume? || e.VerifyConsume? {
      if Legal(cfg, s, e) {
        ConsumeNoteView(cfg, s, l, e);
      }
    }
  }

  lemma StepKeepsNotes(cfg: Config, tr: seq<Event>, j: nat)
    requires j < |tr|
    ensures Kept(LogOf(cfg, tr[..j]), LogOf(cfg, tr[..j + 1]))
  {
    RunIsTraced(cfg, tr[..j]);
    LogOneMore(cfg, tr, j);
    UsedStaysUsed(cfg, Run(cfg, tr[..j]), LogOf(cfg, tr[..j]), tr[j]);
    NotesGrow(cfg, Run(cfg, tr[..j]), LogOf(cfg, tr[..j]), tr[j]);
  }

  lemma {:induction false} NotesAreKept(cfg: Config, tr: seq<Event>, i: nat, j: nat)
    requires i <= j <= |tr|
    ensures Kept(LogOf(cfg, tr[..i]), LogOf(cfg, tr[..j]))
    decreases j
  {
    if i < j {
      var k := j - 1;
      NotesAreKept(cfg, tr, i, k);
      StepKeepsNotes(cfg, tr, k);
    }
  }

  // --- Single use, without any assumption on clocks ---

  lemma ConsumedIsNoted(cfg: Config, tr: seq<Event>, h: nat, c: Uuid)
    requires ConsumesAt(cfg, tr, h, c)
    ensures c in LogOf(cfg, tr[..h]).sent && c !in LogOf(cfg, tr[..h]).used
    ensures c in LogOf(cfg, tr[..h + 1]).used
  {
    RunIsTraced(cfg, tr[..h]);
    ConsumedWasStored(cfg, Run(cfg, tr[..h]), tr[h]);
    LogOneMore(cfg, tr, h);
    ConsumeNoteView(cfg, Run(cfg, tr[..h]), LogOf(cfg, tr[..h]), tr[h]);
  }

  /** Each challenge is consumed at most once, counting both the login and the recovery path. */
  lemma ChallengeConsumedOnce(cfg: Config, tr: seq<Event>, h: nat, k: nat, c: Uuid)
    requires ConsumesAt(cfg, tr, h, c) && ConsumesAt(cfg, tr, k, c)
    ensures h == k
  {
    if h != k {
      var first, second := if h < k then h else k, if h < k then k else h;
      ConsumedIsNoted(cfg, tr, first, c);
      NotesAreKept(cfg, tr, first + 1, second);
      ConsumedIsNoted(cfg, tr, second, c);
    }
  }

  lemma MintedIsNoted(cfg: Config, tr: seq<Event>, j: nat, c: Uuid)
    requires MintsAt(cfg, tr, j, c)
    ensures var used := LogOf(cfg, tr[..j]).used;
      c in used && used[c].product == None && used[c].byReset && used[c].call == tr[j].call
    ensures var used := LogOf(cfg, tr[..j + 1]).used; c in used && used[c].product.Some?
  {
    var s, l := Run(cfg, tr[..j]), LogOf(cfg, tr[..j]);
    RunIsTraced(cfg, tr[..j]);
    assert FrameOk(s.db.users, l, tr[j].call, s.calls[tr[j].call]);
    LogOneMore(cfg, tr, j);
    MintView(cfg, s, l, tr[j]);
  }

  lemma NoSecondMint(cfg: Config, tr: seq<Event>, j: nat, k: nat, c: Uuid)
    requires j < k && MintsAt(cfg, tr, j, c)
    ensures !MintsAt(cfg, tr, k, c)
  {
    if MintsAt(cfg, tr, k, c) {
      NotesAreKept(cfg, tr, j + 1, k);
      MintedIsNoted(cfg, tr, j, c);
      MintedIsNoted(cfg, tr, k, c);
    }
  }

  /** Each challenge yields at most one reset token. */
  lemma ChallengeMintsOnce(cfg: Config, tr: seq<Event>, j: nat, k: nat, c: Uuid)
    requires MintsAt(cfg, tr, j, c) && MintsAt(cfg, tr, k, c)
    ensures j == k
  {
    if j < k {
      NoSecondMint(cfg, tr, j, k, c);
    } else if k < j {
      NoSecondMint(cfg, tr, k, j, c);
    }
  }

  ghost predicate Redeemed(s: Sys, i: Uuid, hash: SecretHash) {
    i in s.db.resets && s.db.resets[i].hash == hash && s.db.resets[i].usedAt.Some?
  }

  lemma RedeemedStays(cfg: Config, s: Sys, e: Event, i: Uuid, hash: SecretHash)
    requires Redeemed(s, i, hash)
    ensures Redeemed(Step(cfg, s, e), i, hash)
  {
    if e.VerifySave? {
      if Legal(cfg, s, e) {
        MintView(cfg, s, NOTHING, e);
      }
    } else if e.Reset? {
      ResetView(cfg, s, NOTHING, e);
    } else {
      ResetsUntouched(cfg, s, e);
    }
  }

  lemma {:induction false} RedeemedForGood(cfg: Config, tr: seq<Event>, i: nat, j: nat, id: Uuid, hash: SecretHash)
    requires i <= j <= |tr| && Redeemed(Run(cfg, tr[..i]), id, hash)
    ensures Redeemed(Run(cfg, tr[..j]), id, hash)
    decreases j
  {
    if i < j {
      var k := j - 1;
      RedeemedForGood(cfg, tr, i, k, id, hash);
      RunOneMore(cfg, INIT, tr, k);
      RedeemedStays(cfg, Run(cfg, tr[..k]), tr[k], id, hash);
    }
  }

  lemma ChangeRedeems(cfg: Config, tr: seq<Event>, i: nat)
    requires ChangesAt(cfg, tr, i)
    ensures var s, r := Run(cfg, tr[..i]), ResetRowOf(Run(cfg, tr[..i]), tr[i]);
      && r.ResetRow? && r.resetId in s.db.resets
      && Redeemable(s.db.resets[r.resetId], ResetMac(tr[i].secret), tr[i].now)
      && r.reset.user == s.db.resets[r.resetId].user
      && Redeemed(Run(cfg, tr[..i + 1]), r.resetId, ResetMac(tr[i].secret))
  {
    ResetView(cfg, Run(cfg, tr[..i]), NOTHING, tr[i]);
    RunOneMore(cfg, INIT, tr, i);
  }

  lemma NoSecondChange(cfg: Config, tr: seq<Event>, i: nat, k: nat)
    requires i < k && ChangesAt(cfg, tr, i) && k < |tr| && tr[k].Reset? && tr[k].secret == tr[i].secret
    ensures !ChangesAt(cfg, tr, k)
  {
    if ChangesAt(cfg, tr, k) {
      var id := ResetRowOf(Run(cfg, tr[..i]), tr[i]).resetId;
      ChangeRedeems(cfg, tr, i);
      RedeemedForGood(cfg, tr, i + 1, k, id, ResetMac(tr[i].secret));
      ChangeRedeems(cfg, tr, k);
      RunIsSound(cfg, tr[..k]);
    }
  }

  /** Each reset token changes a password at most once. */
  lemma ResetTokenUsedOnce(cfg: Config, tr: seq<Event>, i: nat, k: nat)
    requires ChangesAt(cfg, tr, i) && ChangesAt(cfg, tr, k) && tr[i].secret == tr[k].secret
    ensures i == k
  {
    if i < k {
      NoSecondChange(cfg, tr, i, k);
    } else if k < i {
      NoSecondChange(cfg, tr, k, i);
    }
  }

  // --- Provenance ---

  /**
    * Every committed password change goes back to one token, minted by the call that consumed
    * one challenge by presenting the very code that one `SendCode` sent for it, in this order; and
    * the user whose password changes is the one whose address that code was sent to.
    */
  lemma ResetProvenance(cfg: Config, tr: seq<Event>, i: nat) returns (g: nat, h: nat, j: nat, c: Uuid)
    requires ChangesAt(cfg, tr, i)
    ensures g < h < j < i
    ensures StoresAt(cfg, tr, g, c) && ConsumesAt(cfg, tr, h, c) && MintsAt(cfg, tr, j, c)
    ensures tr[j].secret == tr[i].secret && tr[j].id == ResetRowOf(Run(cfg, tr[..i]), tr[i]).resetId
    ensures tr[h].VerifyConsume? && tr[h].call == tr[j].call
    ensures Run(cfg, tr[..h]).calls[tr[h].call].code == Run(cfg, tr[..g]).calls[tr[g].call].code
    ensures IsUser(Run(cfg, tr[..i]).db.users, ResetRowOf(Run(cfg, tr[..i]), tr[i]).reset.user,
      Run(cfg, tr[..g]).calls[tr[g].call].email)
  {
    var id := ResetRowOf(Run(cfg, tr[..i]), tr[i]).resetId;
    c := MintedFor(cfg, tr, i);
    j := MintedHappened(cfg, tr, i, id);
    h := ConsumedForMint(cfg, tr, j, c);
    g := SentForConsume(cfg, tr, h, c);
    NotesAreKept(cfg, tr, h, i);
  }

  /** The challenge behind the token that the i-th event redeems. */
  lemma MintedFor(cfg: Config, tr: seq<Event>, i: nat) returns (c: Uuid)
    requires ChangesAt(cfg, tr, i)
    ensures var s, l, r := Run(cfg, tr[..i]), LogOf(cfg, tr[..i]), ResetRowOf(Run(cfg, tr[..i]), tr[i]);
      && r.resetId in l.minted
      && l.minted[r.resetId].challenge == c && l.minted[r.resetId].secret == tr[i].secret
      && c in l.sent && IsUser(s.db.users, r.reset.user, l.sent[c].email)
  {
    RunIsSourced(cfg, tr[..i]);
    ChangeRedeems(cfg, tr, i);
    c := LogOf(cfg, tr[..i]).minted[ResetRowOf(Run(cfg, tr[..i]), tr[i]).resetId].challenge;
  }

  lemma ConsumedForMint(cfg: Config, tr: seq<Event>, j: nat, c: Uuid) returns (h: nat)
    requires MintsAt(cfg, tr, j, c)
    ensures h < j && ConsumesAt(cfg, tr, h, c) && tr[h].VerifyConsume? && tr[h].call == tr[j].call
  {
    MintedIsNoted(cfg, tr, j, c);
    h := UsedHappened(cfg, tr, j, c);
  }

  lemma SentForConsume(cfg: Config, tr: seq<Event>, h: nat, c: Uuid) returns (g: nat)
    requires ConsumesAt(cfg, tr, h, c)
    ensures g < h && StoresAt(cfg, tr, g, c)
    ensures c in LogOf(cfg, tr[..h]).sent
    ensures LogOf(cfg, tr[..h]).sent[c].email == Run(cfg, tr[..g]).calls[tr[g].call].email
    ensures Run(cfg, tr[..h]).calls[tr[h].call].code == Run(cfg, tr[..g]).calls[tr[g].call].code
  {
    RunIsTraced(cfg, tr[..h]);
    ConsumedWasStored(cfg, Run(cfg, tr[..h]), tr[h]);
    g := SentHappened(cfg, tr, h, c);
  }

  /** The correspondence is injective: different changes have different tokens, challenges and sends. */
  lemma ProvenanceIsInjective(cfg: Config, tr: seq<Event>, i: nat, k: nat, j: nat, m: nat, c: Uuid, d: Uuid)
    requires ChangesAt(cfg, tr, i) && ChangesAt(cfg, tr, k) && i != k
    requires MintsAt(cfg, tr, j, c) && tr[j].secret == tr[i].secret
    requires MintsAt(cfg, tr, m, d) && tr[m].secret == tr[k].secret
    ensures j != m && c != d
    ensures forall g: nat, h: nat | StoresAt(cfg, tr, g, c) && StoresAt(cfg, tr, h, d) :: g != h
  {
    if j == m {
      ResetTokenUsedOnce(cfg, tr, i, k);
    }
    if c == d {
      ChallengeMintsOnce(cfg, tr, j, m, c);
    }
  }
}
