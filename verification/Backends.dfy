/**
  * The services, called one at a time. The in-place changes that they make to the database are
  * those of the machine: `Backend.history` records the events, and after every call the stored
  * tables are the tables of that run. What concurrent calls do is the machine's business.
  */
module Backends {
  import opened Schema
  import opened Database
  import opened UnitOfWork
  import opened Machine

  datatype Result<+T> = Ok(value: T) | Err(error: AppError)

  /** What a login hands out: an access token for a user, and the id of a refresh token. */
  datatype Tokens = Tokens(subject: Uuid, refresh: Uuid)

  class Backend {
    const db: Db
    const unitOfWork: Transactor
    const cfg: Config
    ghost var history: seq<Event>

    constructor (cfg: Config)
      ensures Valid() && this.cfg == cfg && history == [] && fresh(db)
    {
      var store := new Db();
      var transactor := new Transactor(store);
      this.db, this.unitOfWork, this.cfg, this.history := store, transactor, cfg, [];
    }

    ghost predicate Valid()
      reads this, db
    {
      unitOfWork.db == db && db.Valid() && db.Snapshot() == State().db
    }

    ghost function State(): Sys
      reads this
    {
      Run(cfg, history)
    }

    /** The changes made to the tables since the last call are those of these events. */
    ghost method Record(events: seq<Event>)
      requires unitOfWork.db == db && db.Valid() && db.Snapshot() == Run(cfg, history + events).db
      modifies this
      ensures Valid() && history == old(history) + events
    {
      history := history + events;
    }
  }

  lemma HistoryGrows(cfg: Config, history: seq<Event>, events: seq<Event>)
    ensures Run(cfg, history + events) == RunFrom(cfg, Run(cfg, history), events)
    ensures Sound(Run(cfg, history)) && Sound(Run(cfg, history + events))
  {
    RunAppend(cfg, INIT, history, events);
    RunIsSound(cfg, history);
    RunIsSound(cfg, history + events);
  }

  lemma HistoryGrowsByOne(cfg: Config, history: seq<Event>, event: Event)
    ensures Run(cfg, history + [event]) == Step(cfg, Run(cfg, history), event)
    ensures Sound(Run(cfg, history))
  {
    assert (history + [event])[..|history|] == history;
    RunIsSound(cfg, history);
  }
}
