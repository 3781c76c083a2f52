/**
  * What a password reset leaves behind: calls that had already passed their check, and reset tokens
  * that were already stored.
  */
module Lingering {
  import opened Schema
  import opened UnitOfWork
  import opened Machine
  import opened Rotation
  import opened Lineage
  import opened Ending
  import opened Recovery
  import opened Guarantees
  import opened RoundTrip

  // --- The events of a run, by position ---

  /** A session of the user is stored. */
  ghost predicate OpensFor(cfg: Config, tr: seq<Event>, o: nat, u: Uuid) {
    o < |tr| && Opens(cfg, Run(cfg, tr[..o]), tr[o]) && Run(cfg, tr[..o]).calls[tr[o].call].user == u
  }

  /** The call finds that the password presented to it is the user's. */
  ghost predicate ChecksAt(cfg: Config, tr: seq<Event>, q: nat, call: CallId, u: Uuid) {
    q < |tr| && Checks(cfg, Run(cfg, tr[..q]), tr[q], call, u)
  }

  ghost predicate Checks(cfg: Config, s: Sys, e: Event, call: CallId, u: Uuid) {
    && e.LoginLookup? && e.call == call && !e.fault && Legal(cfg, s, e)
    && IsUser(s.db.users, u, e.email) && HasPassword(s, u, e.password)
  }

  // --- A call that may store a session has passed its check ---

  lemma LoginPasses(cfg: Config, s: Sys, e: Event, call: CallId, u: Uuid)
    requires call in Step(cfg, s, e).calls && Step(cfg, s, e).calls[call] == LoginSaving(u)
    requires !(call in s.calls && s.calls[call] == LoginSaving(u))
    ensures Checks(cfg, s, e, call, u)
  {
    if CallOf(e) != Some(call) {
      OtherCallsUntouched(cfg, s, e, call);
    } else if e.LoginLookup? {
      LookupFinds(s.db, e.email, e.fault);
    }
  }

  lemma {:induction false} CheckedBetween(cfg: Config, tr: seq<Event>, i: nat, o: nat, call: CallId, u: Uuid)
    returns (q: nat)
    requires i <= o <= |tr|
    requires call in Run(cfg, tr[..o]).calls && Run(cfg, tr[..o]).calls[call] == LoginSaving(u)
    requires !(call in Run(cfg, tr[..i]).calls && Run(cfg, tr[..i]).calls[call] == LoginSaving(u))
    ensures i <= q < o && ChecksAt(cfg, tr, q, call, u)
    decreases o
  {
    q := o - 1;
    var s := Run(cfg, tr[..q]);
    RunOneMore(cfg, INIT, tr, q);
    if call in s.calls && s.calls[call] == LoginSaving(u) {
      q := CheckedBetween(cfg, tr, i, o - 1, call, u);
    } else {
      LoginPasses(cfg, s, tr[q], call, u);
    }
  }

  ghost predicate HoldsCode(s: Sys, call: CallId, u: Uuid, c: Uuid) {
    call in s.calls && s.calls[call] == OtpSaving(u, c)
  }

  lemma CodePasses(cfg: Config, s: Sys, e: Event, call: CallId, u: Uuid, c: Uuid)
    requires HoldsCode(Step(cfg, s, e), call, u, c) && !HoldsCode(s, call, u, c)
    ensures e.OtpConsume? && e.call == call && Consumed(cfg, s, e) == Some(c)
  {
    if CallOf(e) != Some(call) {
      OtherCallsUntouched(cfg, s, e, call);
    } else if e.OtpConsume? {
      ConsumeView(cfg, s, e);
    }
  }

  lemma {:induction false} ConsumedBetween(
    cfg: Config, tr: seq<Event>, i: nat, o: nat, call: CallId, u: Uuid, c: Uuid) returns (h: nat)
    requires i <= o <= |tr| && HoldsCode(Run(cfg, tr[..o]), call, u, c) && !HoldsCode(Run(cfg, tr[..i]), call, u, c)
    ensures i <= h < o && ConsumesAt(cfg, tr, h, c) && tr[h].OtpConsume? && tr[h].call == call
    decreases o
  {
    h := o - 1;
    RunOneMore(cfg, INIT, tr, h);
    if HoldsCode(Run(cfg, tr[..h]), call, u, c) {
      h := ConsumedBetween(cfg, tr, i, o - 1, call, u, c);
    } else {
      CodePasses(cfg, Run(cfg, tr[..h]), tr[h], call, u, c);
    }
  }

  // --- Which password that was ---

  lemma SetsPassword(cfg: Config, s: Sys, e: Event, u: Uuid)
    requires Sound(s) && ResetUser(s, e) == Some(u)
    ensures HasPassword(Step(cfg, s, e), u, e.password)
  {
  }

  /** The password in force was set by the last reset. */
  lemma {:induction false} LastSet(cfg: Config, tr: seq<Event>, i: nat, q: nat, u: Uuid) returns (m: nat)
    requires i < q <= |tr| && SetsAt(cfg, tr, i, u)
    ensures i <= m < q && SetsAt(cfg, tr, m, u) && HasPassword(Run(cfg, tr[..q]), u, tr[m].password)
    decreases q
  {
    m := q - 1;
    if SetsAt(cfg, tr, m, u) {
      RunIsSound(cfg, tr[..m]);
      RunOneMore(cfg, INIT, tr, m);
      SetsPassword(cfg, Run(cfg, tr[..m]), tr[m], u);
    } else {
      m := LastSet(cfg, tr, i, q - 1, u);
      PasswordWaitsOneMore(cfg, tr, q - 1, u, tr[m].password);
    }
  }

  /** The session stored at `o` was opened with a password set by a reset at `i` or later. */
  ghost predicate CheckedSince(cfg: Config, tr: seq<Event>, i: nat, o: nat, u: Uuid) {
    && o < |tr| && tr[o].LoginSave?
    && exists q: nat, m: nat ::
         && i <= m < q < o && SetsAt(cfg, tr, m, u) && ChecksAt(cfg, tr, q, tr[o].call, u)
         && tr[q].password == tr[m].password
  }

  /** The session stored at `o` was opened by a code consumed after `i`. */
  ghost predicate ConsumedSince(cfg: Config, tr: seq<Event>, i: nat, o: nat) {
    && o < |tr| && tr[o].OtpSave?
    && exists h: nat, c :: i < h < o && ConsumesAt(cfg, tr, h, c) && tr[h].OtpConsume? && tr[h].call == tr[o].call
  }

  // --- The calls in flight when a reset commits decide ---

  ghost predicate LoginInFlight(s: Sys, u: Uuid) {
    exists call :: call in s.calls && s.calls[call] == LoginSaving(u)
  }

  ghost predicate CodeLoginInFlight(s: Sys, u: Uuid) {
    exists call, c :: HoldsCode(s, call, u, c)
  }

  /** However the run goes on, its later sessions by password are opened with a new password. */
  ghost predicate LaterLoginsAreNew(cfg: Config, tr: seq<Event>, u: Uuid)
    requires tr != []
  {
    forall run: seq<Event>, o: nat | tr <= run && |tr| <= o && OpensFor(cfg, run, o, u) && run[o].LoginSave? ::
      CheckedSince(cfg, run, |tr| - 1, o, u)
  }

  /** However the run goes on, its later sessions by code are opened with a code consumed later. */
  ghost predicate LaterCodeLoginsAreNew(cfg: Config, tr: seq<Event>, u: Uuid)
    requires tr != []
  {
    forall run: seq<Event>, o: nat | tr <= run && |tr| <= o && OpensFor(cfg, run, o, u) && run[o].OtpSave? ::
      ConsumedSince(cfg, run, |tr| - 1, o)
  }

  lemma LaterLoginIsNew(cfg: Config, run: seq<Event>, i: nat, o: nat, u: Uuid)
    requires i < o && SetsAt(cfg, run, i, u) && !LoginInFlight(Run(cfg, run[..i + 1]), u)
    requires OpensFor(cfg, run, o, u) && run[o].LoginSave?
    ensures CheckedSince(cfg, run, i, o, u)
  {
    var q := CheckedBetween(cfg, run, i + 1, o, run[o].call, u);
    var m := LastSet(cfg, run, i, q, u);
    assert run[q].password == run[m].password;
  }

  lemma LaterCodeLoginIsNew(cfg: Config, run: seq<Event>, i: nat, o: nat, u: Uuid)
    requires i < o < |run| && !CodeLoginInFlight(Run(cfg, run[..i + 1]), u)
    requires OpensFor(cfg, run, o, u) && run[o].OtpSave?
    ensures ConsumedSince(cfg, run, i, o)
  {
    var c := Run(cfg, run[..o]).calls[run[o].call].challenge;
    var h := ConsumedBetween(cfg, run, i + 1, o, run[o].call, u, c);
  }

  lemma {:induction false} BoundOf(ids: set<Uuid>) returns (bound: nat)
    ensures forall id | id in ids :: id.bits < bound
  {
    if ids == {} {
      bound := 0;
    } else {
      var id :| id in ids;
      bound := BoundOf(ids - {id});
      if bound <= id.bits {
        bound := id.bits + 1;
      }
    }
  }

  lemma LingeringLoginOpens(cfg: Config, tr: seq<Event>, call: CallId, u: Uuid) returns (run: seq<Event>)
    requires call in Run(cfg, tr).calls && Run(cfg, tr).calls[call] == LoginSaving(u)
    ensures tr <= run && |run| == |tr| + 1 && OpensFor(cfg, run, |tr|, u) && run[|tr|].LoginSave?
  {
    var bound := BoundOf(Run(cfg, tr).issued);
    run := tr + [LoginSave(call, Uuid(bound), 0, 0, false)];
    assert run[..|tr|] == tr;
    SavingLoginOpens(cfg, run, |tr|, u);
  }

  lemma LingeringCodeOpens(cfg: Config, tr: seq<Event>, call: CallId, u: Uuid, c: Uuid) returns (run: seq<Event>)
    requires HoldsCode(Run(cfg, tr), call, u, c)
    ensures tr <= run && |run| == |tr| + 1 && OpensFor(cfg, run, |tr|, u) && run[|tr|].OtpSave?
  {
    var bound := BoundOf(Run(cfg, tr).issued);
    run := tr + [OtpSave(call, Uuid(bound), 0, 0, false)];
    assert run[..|tr|] == tr;
    RunIsSound(cfg, tr);
    RunIsTraced(cfg, tr);
    assert FrameOk(Run(cfg, tr).db.users, LogOf(cfg, tr), call, Run(cfg, tr).calls[call]);
  }

  lemma LingeringLoginIsNotNew(cfg: Config, tr: seq<Event>, u: Uuid)
    requires tr != [] && LoginInFlight(Run(cfg, tr), u)
    ensures !LaterLoginsAreNew(cfg, tr, u)
  {
    var call :| call in Run(cfg, tr).calls && Run(cfg, tr).calls[call] == LoginSaving(u);
    var run := LingeringLoginOpens(cfg, tr, call, u);
    assert !CheckedSince(cfg, run, |tr| - 1, |tr|, u);
  }

  lemma LoginOfRunIsNew(cfg: Config, tr: seq<Event>, run: seq<Event>, o: nat, u: Uuid)
    requires tr != [] && SetsAt(cfg, tr, |tr| - 1, u) && !LoginInFlight(Run(cfg, tr), u)
    requires tr <= run && |tr| <= o && OpensFor(cfg, run, o, u) && run[o].LoginSave?
    ensures CheckedSince(cfg, run, |tr| - 1, o, u)
  {
    assert run[..|tr|] == tr && run[..|tr| - 1] == tr[..|tr| - 1];
    LaterLoginIsNew(cfg, run, |tr| - 1, o, u);
  }

  /**
    * After a reset, every session that is stored later by password was opened with a password set
    * by that reset or a later one, however the run goes on, if and only if no login of the user
    * was between its check and its session when the reset committed.
    */
  lemma LoginsAfterResetExactly(cfg: Config, tr: seq<Event>, u: Uuid)
    requires tr != [] && SetsAt(cfg, tr, |tr| - 1, u)
    ensures LaterLoginsAreNew(cfg, tr, u) <==> !LoginInFlight(Run(cfg, tr), u)
  {
    if LoginInFlight(Run(cfg, tr), u) {
      LingeringLoginIsNotNew(cfg, tr, u);
    } else {
      forall run: seq<Event>, o: nat | tr <= run && |tr| <= o && OpensFor(cfg, run, o, u) && run[o].LoginSave?
        ensures CheckedSince(cfg, run, |tr| - 1, o, u)
      {
        LoginOfRunIsNew(cfg, tr, run, o, u);
      }
    }
  }

  /** The same for logins by code and the consumption of their codes. */
  lemma CodeLoginsAfterResetExactly(cfg: Config, tr: seq<Event>, u: Uuid)
    requires tr != [] && SetsAt(cfg, tr, |tr| - 1, u)
    ensures LaterCodeLoginsAreNew(cfg, tr, u) <==> !CodeLoginInFlight(Run(cfg, tr), u)
  {
    if CodeLoginInFlight(Run(cfg, tr), u) {
      var call, c :| HoldsCode(Run(cfg, tr), call, u, c);
      var run := LingeringCodeOpens(cfg, tr, call, u, c);
      assert !ConsumedSince(cfg, run, |tr| - 1, |tr|);
    } else {
      forall run: seq<Event>, o: nat | tr <= run && |tr| <= o && OpensFor(cfg, run, o, u) && run[o].OtpSave?
        ensures ConsumedSince(cfg, run, |tr| - 1, o)
      {
        assert run[..|tr|] == tr;
        LaterCodeLoginIsNew(cfg, run, |tr| - 1, o, u);
      }
    }
  }

  // --- What is accepted after a reset ---

  ghost predicate NotedUnder(f: Family, r: Uuid, u: Uuid) {
    r in f.chain && r in f.owner && f.owner[r] == u
  }

  predicate DescendsFrom(f: Family, id: Uuid, r: Uuid) {
    id in f.root && f.root[id] == r
  }

  lemma NotedByStep(cfg: Config, s: Sys, f: Family, e: Event, r: Uuid, u: Uuid)
    requires NotedUnder(Observe(cfg, f, s, e), r, u)
    ensures NotedUnder(f, r, u) || (Opens(cfg, s, e) && e.id == r && s.calls[e.call].user == u)
  {
  }

  /** A login noted later was noted before, or was stored in between. */
  lemma {:induction false} RootOpened(cfg: Config, tr: seq<Event>, i: nat, j: nat, r: Uuid, u: Uuid) returns (o: nat)
    requires i <= j <= |tr| && NotedUnder(FamilyOf(cfg, tr[..j]), r, u)
    ensures NotedUnder(FamilyOf(cfg, tr[..i]), r, u) || (i <= o < j && OpensFor(cfg, tr, o, u) && tr[o].id == r)
    decreases j
  {
    o := i;
    if i < j {
      var k := j - 1;
      FamilyOneMore(cfg, tr, k);
      NotedByStep(cfg, Run(cfg, tr[..k]), FamilyOf(cfg, tr[..k]), tr[k], r, u);
      if NotedUnder(FamilyOf(cfg, tr[..k]), r, u) {
        o := RootOpened(cfg, tr, i, k, r, u);
      } else {
        o := k;
      }
    }
  }

  lemma EarlierLoginIsEnded(cfg: Config, tr: seq<Event>, i: nat, j: nat, r: Uuid, id: Uuid, u: Uuid)
    requires SetsAt(cfg, tr, i, u) && i < j < |tr| && NotedUnder(FamilyOf(cfg, tr[..i]), r, u)
    requires DescendsFrom(FamilyOf(cfg, tr[..j]), id, r)
    ensures !RotatesAt(cfg, tr, j, id)
  {
    ResetEndsSessions(cfg, tr, i, j, r, id);
  }

  lemma RootOfRow(cfg: Config, tr: seq<Event>, id: Uuid, u: Uuid) returns (r: Uuid)
    requires id in Run(cfg, tr).db.refresh && Run(cfg, tr).db.refresh[id].user == u
    ensures NotedUnder(FamilyOf(cfg, tr), r, u) && DescendsFrom(FamilyOf(cfg, tr), id, r)
  {
    RunIsKin(cfg, tr);
    r := FamilyOf(cfg, tr).root[id];
  }

  /** The token is accepted at `j`, for this user. */
  ghost predicate AcceptedFor(cfg: Config, tr: seq<Event>, j: nat, id: Uuid, u: Uuid) {
    RotatesAt(cfg, tr, j, id) && Run(cfg, tr[..j]).db.refresh[id].user == u
  }

  /** A token accepted after a reset of its user descends from a session stored after that reset. */
  lemma AcceptedWasOpenedLater(cfg: Config, tr: seq<Event>, i: nat, j: nat, id: Uuid, u: Uuid) returns (o: nat)
    requires SetsAt(cfg, tr, i, u) && i < j && AcceptedFor(cfg, tr, j, id, u)
    ensures i < o < j && OpensFor(cfg, tr, o, u) && DescendsFrom(FamilyOf(cfg, tr[..j]), id, tr[o].id)
  {
    var r := RootOfRow(cfg, tr[..j], id, u);
    o := RootOpened(cfg, tr, i, j, r, u);
    if NotedUnder(FamilyOf(cfg, tr[..i]), r, u) {
      EarlierLoginIsEnded(cfg, tr, i, j, r, id, u);
    }
  }

  /**
    * If no call of the user was between its check and its session when the reset committed, every
    * token accepted later descends from a login with a password set since, or by a code consumed since.
    */
  lemma AcceptedAfterResetIsNew(cfg: Config, tr: seq<Event>, i: nat, j: nat, id: Uuid, u: Uuid) returns (o: nat)
    requires SetsAt(cfg, tr, i, u) && i < j && AcceptedFor(cfg, tr, j, id, u)
    requires !LoginInFlight(Run(cfg, tr[..i + 1]), u) && !CodeLoginInFlight(Run(cfg, tr[..i + 1]), u)
    ensures i < o < j && OpensFor(cfg, tr, o, u) && DescendsFrom(FamilyOf(cfg, tr[..j]), id, tr[o].id)
    ensures CheckedSince(cfg, tr, i, o, u) || ConsumedSince(cfg, tr, i, o)
  {
    o := AcceptedWasOpenedLater(cfg, tr, i, j, id, u);
    if tr[o].LoginSave? {
      LaterLoginIsNew(cfg, tr, i, o, u);
    } else {
      LaterCodeLoginIsNew(cfg, tr, i, o, u);
    }
  }

  // --- The user's other reset tokens ---

  /**
    * A reset uses up the presented token only: another token of the user, not used in between,
    * changes the password again if and only if it is not too late.
    */
  lemma OtherTokenOutlivesReset(
    cfg: Config, tr: seq<Event>, i: nat, k: nat, id: Uuid, u: Uuid, secret: string, expiresAt: Time)
    requires i < k < |tr| && SetsAt(cfg, tr, i, u) && tr[i].secret != secret
    requires Unredeemed(Run(cfg, tr[..i]), id, u, secret, expiresAt)
    requires tr[k].Reset? && tr[k].secret == secret && !Strikes(tr[k].txFault, 3)
    requires forall n: nat | i < n < k && ChangesAt(cfg, tr, n) :: tr[n].secret != secret
    ensures SetsAt(cfg, tr, k, u) <==> tr[k].now < expiresAt
  {
    TokenWaits(cfg, tr, i, k, id, u, secret, expiresAt);
    TokenRedeemedExactly(cfg, tr, k, id, u, expiresAt);
  }

  /** Nor does a reset touch the codes that were mailed. */
  lemma CodesOutliveReset(cfg: Config, tr: seq<Event>, g: nat, i: nat, h: nat, c: Uuid, u: Uuid)
    requires g < i < h && SetsAt(cfg, tr, i, u)
    requires StoresAt(cfg, tr, g, c) && h < |tr|
    requires LeftAlone(cfg, tr, g + 1, h, c, Run(cfg, tr[..g]).calls[tr[g].call].email)
    requires tr[h].OtpConsume? && Legal(cfg, Run(cfg, tr[..h]), tr[h]) && !tr[h].fault
    requires var f := Run(cfg, tr[..g]).calls[tr[g].call];
      Run(cfg, tr[..h]).calls[tr[h].call] == OtpConsuming(u, f.email, f.code)
    ensures Run(cfg, tr[..i + 1]).db.otps == Run(cfg, tr[..i]).db.otps
    ensures ConsumesAt(cfg, tr, h, c) <==> tr[h].now < tr[g].clock + cfg.otpDuration
  {
    RunOneMore(cfg, INIT, tr, i);
    OtpsUntouched(cfg, Run(cfg, tr[..i]), tr[i]);
    MailedCodeLogsInExactly(cfg, tr, g, h, c, u);
  }
}
