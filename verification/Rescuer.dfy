/** The rescuer's sweep: three transactions in a fixed order. */
module Rescuers {
  import opened Common
  import opened Tables
  import opened ControlPlane
  import opened Statements

  datatype Summary = Summary(stalledWorkers: nat, expiredSessions: nat, removedWorkers: nat)

  /** Transaction k of a sweep: stall, expire, delete. */
  function Apply(c: Config, r: Rows, k: nat, now: int): Rows
    requires k < 3
  {
    if k == 0 then r.(workers := StallAll(c, r.workers, now))
    else if k == 1 then r.(sessions := ExpireAll(c, r.sessions, now))
    else r.(workers := DeleteAll(c, r.workers, r.sessions, now))
  }

  /** The tables after the first k transactions of one undisturbed sweep. */
  function AfterFirst(c: Config, r: Rows, k: nat, now: int): Rows
    requires k <= 3
  {
    if k == 0 then r else Apply(c, AfterFirst(c, r, k - 1, now), k - 1, now)
  }

  function Swept(c: Config, r: Rows, now: int): Rows {
    AfterFirst(c, r, 3, now)
  }

  /** How a transaction ends: committed, rolled back on an error, or committed with the
      reply lost, which the caller also sees as an error. */
  datatype Fate = Succeeds | RollsBack | LosesReply

  /** How many transactions of a sweep take effect: the first error ends it. */
  function Effective(stall: Fate, expire: Fate, remove: Fate): (k: nat)
    ensures k <= 3
  {
    if stall == RollsBack then 0
    else if stall == LosesReply || expire == RollsBack then 1
    else if expire == LosesReply || remove == RollsBack then 2
    else 3
  }

  class Rescuer {
    const config: Config

    constructor (config: Config)
      ensures this.config == config
    {
      this.config := config;
    }

    method StallSilentWorkers(db: Database, now: int, fate: Fate) returns (stalled: nat, ok: bool)
      modifies db`workers
      ensures ok <==> fate == Succeeds
      ensures db.workers == if fate == RollsBack then old(db.workers) else StallAll(config, old(db.workers), now)
      ensures stalled == if ok then |SilentIn(config, old(db.workers), now)| else 0
    {
      if fate == RollsBack {
        return 0, false;
      }
      stalled := db.StallSilentWorkers(config, now);
      return if fate == Succeeds then stalled else 0, fate == Succeeds;
    }

    /** Capacity is announced in the same transaction, exactly when a session expired. */
    method ExpireDeadSessions(db: Database, now: int, fate: Fate) returns (expired: set<SessionId>, ok: bool)
      modifies db`sessions, db`notices
      ensures ok <==> fate == Succeeds
      ensures db.sessions == if fate == RollsBack then old(db.sessions) else ExpireAll(config, old(db.sessions), now)
      ensures expired == if ok then BulkTarget(config, old(db.sessions), None, now) else {}
      ensures db.notices == old(db.notices) +
              if fate != RollsBack && BulkTarget(config, old(db.sessions), None, now) != {} then 1 else 0
    {
      if fate == RollsBack {
        return {}, false;
      }
      expired := db.EndSessions(config, None, now);
      if |expired| > 0 {
        db.NotifyCapacityChanged();
      }
      return if fate == Succeeds then expired else {}, fate == Succeeds;
    }

    method DeleteDeadWorkers(db: Database, now: int, fate: Fate) returns (removed: set<WorkerId>, ok: bool)
      modifies db`workers
      ensures ok <==> fate == Succeeds
      ensures db.workers ==
              if fate == RollsBack then old(db.workers) else DeleteAll(config, old(db.workers), db.sessions, now)
      ensures removed == if ok then old(db.workers.Keys) - db.workers.Keys else {}
    {
      if fate == RollsBack {
        return {}, false;
      }
      removed := db.DeleteDeadWorkers(config, now);
      return if fate == Succeeds then removed else {}, fate == Succeeds;
    }

    /** One sweep. The first failing transaction ends it with the summary so far. */
    method Sweep(db: Database, now: int, stall: Fate, expire: Fate, remove: Fate) returns (summary: Summary, ok: bool)
      modifies db
      ensures ok <==> stall == Succeeds && expire == Succeeds && remove == Succeeds
      ensures Rows(db.workers, db.sessions) ==
              AfterFirst(config, old(Rows(db.workers, db.sessions)), Effective(stall, expire, remove), now)
      ensures summary.stalledWorkers == if stall == Succeeds then |SilentIn(config, old(db.workers), now)| else 0
      ensures summary.expiredSessions ==
              if stall == Succeeds && expire == Succeeds then |BulkTarget(config, old(db.sessions), None, now)| else 0
      ensures summary.removedWorkers == if ok then |old(db.workers.Keys) - db.workers.Keys| else 0
      ensures db.notices == old(db.notices) +
              if Effective(stall, expire, remove) >= 2 && BulkTarget(config, old(db.sessions), None, now) != {}
              then 1 else 0
    {
      ThreeTransactions(config, Rows(db.workers, db.sessions), now);
      summary := Summary(0, 0, 0);
      var stalled;
      stalled, ok := StallSilentWorkers(db, now, stall);
      if !ok {
        return;
      }
      summary := summary.(stalledWorkers := stalled);
      var expired;
      expired, ok := ExpireDeadSessions(db, now, expire);
      if !ok {
        return;
      }
      summary := summary.(expiredSessions := |expired|);
      var removed;
      removed, ok := DeleteDeadWorkers(db, now, remove);
      if !ok {
        return;
      }
      summary := summary.(removedWorkers := |removed|);
    }
  }

  lemma ThreeTransactions(c: Config, r: Rows, now: int)
    ensures Swept(c, r, now) == Apply(c, Apply(c, Apply(c, r, 0, now), 1, now), 2, now)
    ensures AfterFirst(c, r, 1, now) == Apply(c, r, 0, now)
    ensures AfterFirst(c, r, 2, now) == Apply(c, Apply(c, r, 0, now), 1, now)
  {
    assert AfterFirst(c, r, 0, now) == r;
    assert AfterFirst(c, r, 1, now) == Apply(c, r, 0, now);
    assert AfterFirst(c, r, 2, now) == Apply(c, AfterFirst(c, r, 1, now), 1, now);
  }

  /** What the first m transactions did, repeating any of them does not change. */
  lemma RepeatingChangesNothing(c: Config, r: Rows, j: nat, m: nat, now: int)
    requires j < m <= 3
    ensures Apply(c, AfterFirst(c, r, m, now), j, now) == AfterFirst(c, r, m, now)
  {
    var one := AfterFirst(c, r, 1, now);
    var two := AfterFirst(c, r, 2, now);
    ThreeTransactions(c, r, now);
    assert forall w :: w in one.workers ==> !Silent(c, one.workers[w], now);
    if m >= 2 {
      assert forall s :: s in two.sessions ==> !Dead(c, two.sessions[s], now);
    }
    var done := AfterFirst(c, r, m, now);
    assert done.workers.Keys <= one.workers.Keys;
    assert Apply(c, done, j, now).workers == done.workers;
    assert Apply(c, done, j, now).sessions == done.sessions;
  }

  /** Sweeping again at the same clock reading changes nothing. */
  lemma SweepIsIdempotent(c: Config, r: Rows, now: int)
    ensures Swept(c, Swept(c, r, now), now) == Swept(c, r, now)
  {
    ThreeTransactions(c, Swept(c, r, now), now);
    RepeatingChangesNothing(c, r, 0, 3, now);
    RepeatingChangesNothing(c, r, 1, 3, now);
    RepeatingChangesNothing(c, r, 2, 3, now);
  }
}
