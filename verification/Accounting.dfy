/** Counting challenges, replacing them, and the time they leave for a reset. */
module Accounting {
  import opened Schema
  import opened Sql
  import opened Machine
  import opened Recovery
  import opened Provenance
  import opened Guarantees

  // --- Conservation ---

  /** An injective map has as many values as keys. */
  lemma {:induction false} InjectiveSize(image: map<Uuid, Uuid>)
    requires forall i, j | i in image && j in image && i != j :: image[i] != image[j]
    ensures |image.Values| == |image|
  {
    if image == map[] {
      assert image.Values == {};
    } else {
      var k :| k in image;
      InjectiveSize(image - {k});
      ValuesOfRest(image, k);
      assert image.Keys == (image - {k}).Keys + {k};
    }
  }

  lemma ValuesOfRest(image: map<Uuid, Uuid>, k: Uuid)
    requires k in image
    requires forall i, j | i in image && j in image && i != j :: image[i] != image[j]
    ensures image.Values == (image - {k}).Values + {image[k]} && image[k] !in (image - {k}).Values
  {
    var rest := image - {k};
    forall v | v in image.Values ensures v in rest.Values + {image[k]} {
      var i :| i in image && image[i] == v;
      assert i == k || (i in rest && rest[i] == v);
    }
  }

  lemma SubsetSize(a: set<Uuid>, b: set<Uuid>)
    requires a <= b
    ensures |a| <= |b|
  {
    assert b == a + (b - a);
  }

  function ChallengesOfSessions(l: Log): map<Uuid, Uuid> {
    map t | t in l.sessions :: l.sessions[t].challenge
  }

  function ChallengesOfTokens(l: Log): map<Uuid, Uuid> {
    map i | i in l.minted :: l.minted[i].challenge
  }

  lemma SessionsAreDistinct(users: map<Uuid, User>, l: Log)
    requires ProductsOk(users, l)
    ensures var m := ChallengesOfSessions(l); |m.Values| == |l.sessions|
    ensures forall c | c in ChallengesOfSessions(l).Values :: c in l.used && !l.used[c].byReset
  {
    var m := ChallengesOfSessions(l);
    forall i, j | i in m && j in m && i != j ensures m[i] != m[j] {
      assert IsProduct(users, l, m[i], l.sessions[i].user, i, false);
    }
    InjectiveSize(m);
    assert m.Keys == l.sessions.Keys;
  }

  lemma TokensAreDistinct(users: map<Uuid, User>, l: Log)
    requires ProductsOk(users, l)
    ensures var m := ChallengesOfTokens(l); |m.Values| == |l.minted|
    ensures forall c | c in ChallengesOfTokens(l).Values :: c in l.used && l.used[c].byReset
  {
    var m := ChallengesOfTokens(l);
    forall i, j | i in m && j in m && i != j ensures m[i] != m[j] {
      assert IsProduct(users, l, m[i], l.minted[i].user, i, true);
    }
    InjectiveSize(m);
    assert m.Keys == l.minted.Keys;
  }

  lemma ProductsAreFew(users: map<Uuid, User>, l: Log)
    requires ProductsOk(users, l)
    ensures |l.sessions| + |l.minted| <= |l.used.Keys|
  {
    var a, b := ChallengesOfSessions(l).Values, ChallengesOfTokens(l).Values;
    SessionsAreDistinct(users, l);
    TokensAreDistinct(users, l);
    assert |a + b| == |a| + |b|;
    SubsetSize(a + b, l.used.Keys);
  }

  /**
    * At every point of every run, the sessions opened by code together with the reset tokens
    * stored never outnumber the challenges consumed, which never outnumber the challenges stored.
    */
  lemma ChallengesAreConserved(cfg: Config, tr: seq<Event>)
    ensures var l := LogOf(cfg, tr); |l.sessions| + |l.minted| <= |l.used.Keys| <= |l.sent.Keys|
  {
    RunIsTraced(cfg, tr);
    RunIsSourced(cfg, tr);
    ProductsAreFew(Run(cfg, tr).db.users, LogOf(cfg, tr));
    SubsetSize(LogOf(cfg, tr).used.Keys, LogOf(cfg, tr).sent.Keys);
  }

  // --- Branches that are never taken ---

  /**
    * The address of every stored challenge belongs to a user, and so does the address that a
    * verification has consumed: the lookup that follows finds exactly the user it was sent to.
    */
  lemma ConsumedChallengeHasUser(cfg: Config, tr: seq<Event>)
    ensures var s := Run(cfg, tr);
      && (forall c | c in s.db.otps :: GetByEmail(s.db, s.db.otps[c].identifier).UserRow?)
      && (forall k | k in s.calls && s.calls[k].VerifyLooking? ::
            var f := s.calls[k];
            && f.challenge in LogOf(cfg, tr).sent
            && var u := LogOf(cfg, tr).sent[f.challenge].user;
              u in s.db.users && GetByEmail(s.db, f.email) == UserRow(u, s.db.users[u]))
  {
    RunIsTraced(cfg, tr);
    RunIsSound(cfg, tr);
    var s, l := Run(cfg, tr), LogOf(cfg, tr);
    forall c | c in s.db.otps ensures GetByEmail(s.db, s.db.otps[c].identifier).UserRow? {
      assert IsUser(s.db.users, l.sent[c].user, l.sent[c].email);
    }
    forall k | k in s.calls && s.calls[k].VerifyLooking?
      ensures s.calls[k].challenge in l.sent
      ensures var u := l.sent[s.calls[k].challenge].user;
        u in s.db.users && GetByEmail(s.db, s.calls[k].email) == UserRow(u, s.db.users[u])
    {
      assert FrameOk(s.db.users, l, k, s.calls[k]);
      var u := l.sent[s.calls[k].challenge].user;
      assert IsUser(s.db.users, u, s.calls[k].email);
    }
  }

  /** Every stored challenge was drawn before, and its address fits its column because a user has it. */
  lemma StoredChallengesFit(cfg: Config, tr: seq<Event>)
    ensures var s := Run(cfg, tr);
      s.db.otps.Keys <= s.issued && forall c | c in s.db.otps :: |s.db.otps[c].identifier| <= 255
  {
    RunIsTraced(cfg, tr);
    RunIsSound(cfg, tr);
    var s, l := Run(cfg, tr), LogOf(cfg, tr);
    forall c | c in s.db.otps ensures |s.db.otps[c].identifier| <= 255 {
      assert IsUser(s.db.users, l.sent[c].user, l.sent[c].email);
    }
  }

  // --- Replacement ---

  /**
    * Just after a successful `SendCode` the address has exactly one challenge: the returned id,
    * with the hash of the code that was mailed and no attempts; other addresses keep theirs.
    */
  lemma SendReplaces(cfg: Config, tr: seq<Event>, g: nat, c: Uuid)
    requires StoresAt(cfg, tr, g, c)
    ensures var t, t' := Run(cfg, tr[..g]).db, Run(cfg, tr[..g + 1]).db;
      var f := Run(cfg, tr[..g]).calls[tr[g].call];
      && c in t'.otps
      && t'.otps[c] == Otp(f.email, OtpMac(f.code), 0, tr[g].clock + cfg.otpDuration, tr[g].createdAt)
      && (forall d | d in t'.otps && t'.otps[d].identifier == f.email :: d == c)
      && (forall d | d != c :: d in t'.otps <==> d in t.otps && t.otps[d].identifier != f.email)
      && (forall d | d != c && d in t'.otps :: t'.otps[d] == t.otps[d])
  {
    var s := Run(cfg, tr[..g]);
    var f := s.calls[tr[g].call];
    RunOneMore(cfg, INIT, tr, g);
    SendStoreView(cfg, s, tr[g]);
    SendTablesOtps(s.db, f.challenge, NewOtp(cfg, f.email, f.code, tr[g].createdAt, tr[g].clock), tr[g].txFault);
  }

  /** A challenge that was stored once and is gone never comes back. */
  ghost predicate Gone(s: Sys, l: Log, c: Uuid) {
    c in l.sent && c !in s.db.otps
  }

  lemma GoneStaysGone(cfg: Config, s: Sys, l: Log, e: Event, c: Uuid)
    requires FramesOk(s, l) && Gone(s, l, c)
    ensures c !in Step(cfg, s, e).db.otps
  {
    if e.SendStore? {
      if Legal(cfg, s, e) {
        var f := s.calls[e.call];
        assert FrameOk(s.db.users, l, e.call, f);
        SendStoreView(cfg, s, e);
        SendTablesOtps(s.db, f.challenge, NewOtp(cfg, f.email, f.code, e.createdAt, e.clock), e.txFault);
      }
    } else if e.OtpConsume? || e.VerifyConsume? {
      if Legal(cfg, s, e) {
        ConsumeView(cfg, s, e);
      }
    } else if !e.VerifyIncrease? {
      OtpsUntouched(cfg, s, e);
    }
  }

  lemma {:induction false} GoneForGood(cfg: Config, tr: seq<Event>, i: nat, j: nat, c: Uuid)
    requires i <= j <= |tr| && Gone(Run(cfg, tr[..i]), LogOf(cfg, tr[..i]), c)
    ensures Gone(Run(cfg, tr[..j]), LogOf(cfg, tr[..j]), c)
    decreases j
  {
    if i < j {
      var k := j - 1;
      GoneForGood(cfg, tr, i, k, c);
      GoneOneMore(cfg, tr, k, c);
    }
  }

  lemma GoneOneMore(cfg: Config, tr: seq<Event>, j: nat, c: Uuid)
    requires j < |tr| && Gone(Run(cfg, tr[..j]), LogOf(cfg, tr[..j]), c)
    ensures Gone(Run(cfg, tr[..j + 1]), LogOf(cfg, tr[..j + 1]), c)
  {
    RunIsTraced(cfg, tr[..j]);
    StepKeepsNotes(cfg, tr, j);
    RunOneMore(cfg, INIT, tr, j);
    GoneStaysGone(cfg, Run(cfg, tr[..j]), LogOf(cfg, tr[..j]), tr[j], c);
  }

  /** The challenge that a newer `SendCode` replaces is never consumed afterwards. */
  lemma ReplacedIsNeverConsumed(cfg: Config, tr: seq<Event>, g: nat, h: nat, c: Uuid, d: Uuid)
    requires StoresAt(cfg, tr, g, c) && g < h && d != c
    requires d in Run(cfg, tr[..g]).db.otps
      && Run(cfg, tr[..g]).db.otps[d].identifier == Run(cfg, tr[..g]).calls[tr[g].call].email
    ensures !ConsumesAt(cfg, tr, h, d)
  {
    if ConsumesAt(cfg, tr, h, d) {
      SendReplaces(cfg, tr, g, c);
      RunIsTraced(cfg, tr[..g]);
      StepKeepsNotes(cfg, tr, g);
      GoneForGood(cfg, tr, g + 1, h, d);
      ConsumedWasStored(cfg, Run(cfg, tr[..h]), tr[h]);
    }
  }

  // --- The time window ---

  /**
    * A password change happens within the lifetimes of the code and of the token, plus the time
    * the verification took between consuming the challenge and setting the token's expiry.
    */
  lemma ResetTimeWindow(cfg: Config, tr: seq<Event>, i: nat) returns (g: nat, h: nat, j: nat, c: Uuid)
    requires ChangesAt(cfg, tr, i)
    ensures g < h < j < i && StoresAt(cfg, tr, g, c) && ConsumesAt(cfg, tr, h, c) && MintsAt(cfg, tr, j, c)
    ensures tr[j].secret == tr[i].secret
    ensures tr[h].now < tr[g].clock + cfg.otpDuration
    ensures tr[i].now < tr[j].clock + cfg.resetDuration
    ensures tr[i].now < tr[g].clock + cfg.otpDuration + (tr[j].clock - tr[h].now) + cfg.resetDuration
  {
    g, h, j, c := ResetProvenance(cfg, tr, i);
    ConsumedInTime(cfg, tr, g, h, c);
    RedeemedInTime(cfg, tr, i, j, c);
  }

  /** A challenge is stored once only. */
  lemma StoredIsNoted(cfg: Config, tr: seq<Event>, g: nat, c: Uuid)
    requires StoresAt(cfg, tr, g, c)
    ensures c !in LogOf(cfg, tr[..g]).sent
    ensures var f := Run(cfg, tr[..g]).calls[tr[g].call];
      c in LogOf(cfg, tr[..g + 1]).sent && LogOf(cfg, tr[..g + 1]).sent[c] == Sent(f.user, f.email, f.code, tr[g].clock)
  {
    var s, l := Run(cfg, tr[..g]), LogOf(cfg, tr[..g]);
    RunIsTraced(cfg, tr[..g]);
    assert FrameOk(s.db.users, l, tr[g].call, s.calls[tr[g].call]);
    LogOneMore(cfg, tr, g);
    SentIsNew(cfg, s, l, tr[g]);
  }

  lemma ConsumedInTime(cfg: Config, tr: seq<Event>, g: nat, h: nat, c: Uuid)
    requires g < h && StoresAt(cfg, tr, g, c) && ConsumesAt(cfg, tr, h, c)
    ensures tr[h].now < tr[g].clock + cfg.otpDuration
  {
    StoredIsNoted(cfg, tr, g, c);
    NotesAreKept(cfg, tr, g + 1, h);
    RunIsTraced(cfg, tr[..h]);
    ConsumedWasStored(cfg, Run(cfg, tr[..h]), tr[h]);
  }

  lemma RedeemedInTime(cfg: Config, tr: seq<Event>, i: nat, j: nat, c: Uuid)
    requires ChangesAt(cfg, tr, i) && MintsAt(cfg, tr, j, c) && j < i && tr[j].secret == tr[i].secret
    ensures tr[i].now < tr[j].clock + cfg.resetDuration
  {
    var id := ResetRowOf(Run(cfg, tr[..i]), tr[i]).resetId;
    var d := MintedFor(cfg, tr, i);
    var k := MintedHappened(cfg, tr, i, id);
    SecretsAreDistinct(cfg, tr, j, k);
    ChangeRedeems(cfg, tr, i);
    RunIsSourced(cfg, tr[..i]);
  }

  /** No two reset tokens are the same secret. */
  lemma SecretsAreDistinct(cfg: Config, tr: seq<Event>, j: nat, k: nat)
    requires j < |tr| && k < |tr| && tr[j].VerifySave? && tr[k].VerifySave? && tr[j].secret == tr[k].secret
    requires Legal(cfg, Run(cfg, tr[..j]), tr[j]) && Legal(cfg, Run(cfg, tr[..k]), tr[k])
    ensures j == k
  {
    if j < k {
      SecretStaysDrawn(cfg, tr, j + 1, k, tr[j].secret);
    } else if k < j {
      SecretStaysDrawn(cfg, tr, k + 1, j, tr[j].secret);
    }
  }

  lemma {:induction false} SecretStaysDrawn(cfg: Config, tr: seq<Event>, i: nat, j: nat, secret: string)
    requires 0 < i <= j <= |tr| && tr[i - 1].VerifySave? && tr[i - 1].secret == secret
    requires Legal(cfg, Run(cfg, tr[..i - 1]), tr[i - 1])
    ensures secret in Run(cfg, tr[..j]).secrets
    decreases j
  {
    RunOneMore(cfg, INIT, tr, j - 1);
    if i < j {
      var k := j - 1;
      SecretStaysDrawn(cfg, tr, i, k, secret);
      DrawnStaysDrawn(cfg, Run(cfg, tr[..k]), tr[k]);
    }
  }
}
