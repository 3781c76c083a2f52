/** Refresh-token rotation: what every run of the service keeps. */
module Rotation {
  import opened Schema
  import opened Transactions
  import opened Machine

  /** The event is a call to `Refresh` that succeeds. */
  ghost predicate Rotates(cfg: Config, s: Sys, e: Event) {
    && e.Refresh?
    && Legal(cfg, s, e)
    && RefreshAccepted(s.db, e.id, e.newId, e.signed, e.now, e.txFault)
  }

  /** The i-th event of a run is a successful `Refresh` of the token `id`. */
  ghost predicate RotatesAt(cfg: Config, tr: seq<Event>, i: nat, id: Uuid) {
    i < |tr| && Rotates(cfg, Run(cfg, tr[..i]), tr[i]) && tr[i].id == id
  }

  /**
    * The hypothesis on clocks: successful refreshes take effect in the order of the times at
    * which their transactions began, which is what `NOW()` reads.
    */
  ghost predicate InOrder(cfg: Config, tr: seq<Event>) {
    forall i: nat, j: nat, t, u | i < j && RotatesAt(cfg, tr, i, t) && RotatesAt(cfg, tr, j, u) ::
      tr[i].now <= tr[j].now
  }

  // --- A token is accepted again only by an earlier clock ---

  /** The token can be accepted only at a time before `limit`. */
  ghost predicate SpentAt(s: Sys, id: Uuid, limit: Time) {
    id in s.issued && (id in s.db.refresh ==> s.db.refresh[id].expiresAt <= limit)
  }

  lemma SpentStaysSpent(cfg: Config, s: Sys, e: Event, id: Uuid, limit: Time)
    requires SpentAt(s, id, limit)
    ensures SpentAt(Step(cfg, s, e), id, limit)
  {
    DrawnStaysDrawn(cfg, s, e);
    if TouchesRefresh(e) {
      if e.Reset? || e.Refresh? || e.Revoke? {
      } else {
        assert id in Step(cfg, s, e).db.refresh ==> id in s.db.refresh;
      }
    } else {
      RefreshUntouched(cfg, s, e);
    }
  }

  lemma {:induction false} SpentForGood(cfg: Config, tr: seq<Event>, i: nat, j: nat, id: Uuid, limit: Time)
    requires i <= j <= |tr|
    requires SpentAt(Run(cfg, tr[..i]), id, limit)
    ensures SpentAt(Run(cfg, tr[..j]), id, limit)
    decreases j
  {
    if i < j {
      var k := j - 1;
      SpentForGood(cfg, tr, i, k, id, limit);
      RunOneMore(cfg, INIT, tr, k);
      SpentStaysSpent(cfg, Run(cfg, tr[..k]), tr[k], id, limit);
    }
  }

  lemma RotationSpends(cfg: Config, s: Sys, e: Event)
    requires Sound(s) && Rotates(cfg, s, e)
    ensures SpentAt(Step(cfg, s, e), e.id, e.now)
  {
  }

  /** Without any assumption on clocks: a token accepted once is accepted again only at an earlier `NOW()`. */
  lemma AcceptedAgainOnlyEarlier(cfg: Config, tr: seq<Event>, i: nat, j: nat, id: Uuid)
    requires i < j && RotatesAt(cfg, tr, i, id) && RotatesAt(cfg, tr, j, id)
    ensures tr[j].now < tr[i].now
  {
    RunIsSound(cfg, tr[..i]);
    RotationSpends(cfg, Run(cfg, tr[..i]), tr[i]);
    RunOneMore(cfg, INIT, tr, i);
    SpentForGood(cfg, tr, i + 1, j, id, tr[i].now);
  }

  /** With clocks in order, no token is accepted by two successful calls to `Refresh`. */
  lemma RefreshIsSingleUse(cfg: Config, tr: seq<Event>)
    requires InOrder(cfg, tr)
    ensures forall i: nat, j: nat, id | RotatesAt(cfg, tr, i, id) && RotatesAt(cfg, tr, j, id) :: i == j
  {
    forall i: nat, j: nat, id | RotatesAt(cfg, tr, i, id) && RotatesAt(cfg, tr, j, id)
      ensures i == j
    {
      if i < j {
        AcceptedAgainOnlyEarlier(cfg, tr, i, j, id);
      } else if j < i {
        AcceptedAgainOnlyEarlier(cfg, tr, j, i, id);
      }
    }
  }
}
