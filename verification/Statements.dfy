/** The statements over many rows, each run as one transaction, and the class that
    runs them row by row on the two tables. */
module Statements {
  import opened Common
  import opened Tables
  import opened ControlPlane

  function StallAll(c: Config, workers: Workers, now: int): (r: Workers)
    ensures r.Keys == workers.Keys
  {
    StallRows(workers, SilentIn(c, workers, now))
  }

  function SilentIn(c: Config, workers: Workers, now: int): set<WorkerId> {
    set w | w in workers && Silent(c, workers[w], now)
  }

  function StallRows(workers: Workers, rows: set<WorkerId>): Workers {
    map w | w in workers :: if w in rows then workers[w].(status := Stalled) else workers[w]
  }

  lemma SilentOneMore(c: Config, workers: Workers, now: int, todo: set<WorkerId>, w: WorkerId)
    requires w in todo && w in workers
    ensures SilentIn(c, workers, now) - (todo - {w}) ==
            (SilentIn(c, workers, now) - todo) + if Silent(c, workers[w], now) then {w} else {}
  {
  }

  lemma StallOneMore(workers: Workers, rows: set<WorkerId>, w: WorkerId)
    requires w in workers && w !in rows
    ensures StallRows(workers, rows)[w := workers[w].(status := Stalled)] == StallRows(workers, rows + {w})
  {
  }

  function ExpireAll(c: Config, sessions: Sessions, now: int): Sessions {
    AfterBulk(c, sessions, None, sessions.Keys, now)
  }

  function DeleteAll(c: Config, workers: Workers, sessions: Sessions, now: int): Workers {
    workers - SweepTarget(c, Delete, workers, sessions, now)
  }

  function FailUnreported(c: Config, sessions: Sessions, beat: Beat, now: int): Sessions {
    AfterBulk(c, sessions, Some(beat), sessions.Keys, now)
  }

  /** Reported ids that are not pending or running on this worker. */
  function StaleIds(sessions: Sessions, beat: Beat): set<SessionId> {
    beat.reported - ActiveOn(sessions, beat.worker)
  }

  class Database {
    var workers: Workers
    var sessions: Sessions
    var notices: nat

    constructor (workers: Workers, sessions: Sessions)
      ensures this.workers == workers && this.sessions == sessions
    {
      this.workers := workers;
      this.sessions := sessions;
      this.notices := 0;
    }

    method StallSilentWorkers(c: Config, now: int) returns (count: nat)
      modifies this`workers
      ensures workers == StallAll(c, old(workers), now)
      ensures count == |SilentIn(c, old(workers), now)|
    {
      var todo, stalled := workers.Keys, {};
      ghost var was := workers;
      while todo != {}
        invariant todo <= was.Keys && stalled == SilentIn(c, was, now) - todo
        invariant workers == StallRows(was, stalled)
        decreases todo
      {
        var w :| w in todo;
        SilentOneMore(c, was, now, todo, w);
        todo := todo - {w};
        if Silent(c, workers[w], now) {
          StallOneMore(was, stalled, w);
          workers := workers[w := workers[w].(status := Stalled)];
          stalled := stalled + {w};
        }
      }
      count := |stalled|;
    }

    /** The bulk session statements: `cause` is the heartbeat, or None for expiry. */
    method EndSessions(c: Config, cause: Option<Beat>, now: int) returns (ended: set<SessionId>)
      modifies this`sessions
      ensures ended == BulkTarget(c, old(sessions), cause, now)
      ensures sessions == AfterBulk(c, old(sessions), cause, old(sessions).Keys, now)
    {
      ended := {};
      var todo := sessions.Keys;
      while todo != {}
        invariant todo <= sessions.Keys == old(sessions).Keys
        invariant forall s :: s in todo ==> sessions[s] == old(sessions)[s]
        invariant forall s :: s in sessions.Keys - todo ==>
                    sessions[s] == AfterBulk(c, old(sessions), cause, old(sessions).Keys, now)[s]
        invariant ended == BulkTarget(c, old(sessions), cause, now) - todo
        decreases todo
      {
        var s :| s in todo;
        todo := todo - {s};
        if BulkHits(c, cause, s, sessions[s], now) {
          sessions := sessions[s := sessions[s].(status := if cause.Some? then Failed else Expired)];
          ended := ended + {s};
        }
      }
    }

    method DeleteDeadWorkers(c: Config, now: int) returns (removed: set<WorkerId>)
      modifies this`workers
      ensures removed == SweepTarget(c, Delete, old(workers), sessions, now)
      ensures workers == DeleteAll(c, old(workers), sessions, now)
    {
      removed := {};
      var todo := workers.Keys;
      while todo != {}
        invariant todo <= old(workers).Keys
        invariant removed == SweepTarget(c, Delete, old(workers), sessions, now) - todo
        invariant workers == old(workers) - removed
        decreases todo
      {
        var w :| w in todo;
        todo := todo - {w};
        if DeadColumns(c, workers[w], now) && ActiveOn(sessions, w) == {} {
          workers := workers - {w};
          removed := removed + {w};
        }
      }
    }

    method NotifyCapacityChanged()
      modifies this`notices
      ensures notices == old(notices) + 1
    {
      notices := notices + 1;
    }
  }
}
