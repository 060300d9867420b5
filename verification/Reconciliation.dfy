/** A worker's heartbeat: the server fails what the worker lost, and tells the worker
    to close what the server no longer knows. */
module Reconciliation {
  import opened Common
  import opened Tables
  import opened ControlPlane
  import opened Statements

  datatype HeartbeatReply = HeartbeatReply(worker: Worker, stale: set<SessionId>, failed: set<SessionId>)

  datatype HeartbeatResult = Replied(reply: HeartbeatReply) | UnknownWorker | DatabaseError

  /** The calls of one heartbeat's transaction. */
  datatype Call = Begin | UpdateBeat | FailSessions | Notify | ListStale | Drain | Commit

  class Reconciler {
    const config: Config

    constructor (config: Config)
      ensures this.config == config
    {
      this.config := config;
    }

    /** The tables and notifications after a heartbeat that commits. */
    ghost predicate Reconciled(workers: Workers, sessions: Sessions, notices: nat, beat: Beat, now: int, db: Database)
      requires beat.worker in workers
      reads db
    {
      db.workers == workers[beat.worker := BeatRow(config, workers[beat.worker], now)] &&
      db.sessions == FailUnreported(config, sessions, beat, now) &&
      db.notices == notices + if BulkTarget(config, sessions, Some(beat), now) != {} then 1 else 0
    }

    /** The scheduler's Heartbeat. `faults` are the calls that fail; the first of them
        rolls everything back, except that a failing commit may have been applied. An
        unknown worker gets an error and changes nothing. */
    method Heartbeat(db: Database, beat: Beat, now: int, faults: set<Call>, applied: bool)
      returns (result: HeartbeatResult)
      modifies db
      ensures result.UnknownWorker? ==> beat.worker !in old(db.workers)
      ensures result.DatabaseError? ==> faults != {}
      ensures result.Replied? ==>
        beat.worker in old(db.workers) && Reconciled(old(db.workers), old(db.sessions), old(db.notices), beat, now, db)
      ensures result.Replied? ==>
        result.reply == HeartbeatReply(db.workers[beat.worker], StaleIds(old(db.sessions), beat),
                                       BulkTarget(config, old(db.sessions), Some(beat), now))
      ensures !result.Replied? ==>
        (db.workers == old(db.workers) && db.sessions == old(db.sessions) && db.notices == old(db.notices)) ||
        (Commit in faults && applied && beat.worker in old(db.workers) &&
         Reconciled(old(db.workers), old(db.sessions), old(db.notices), beat, now, db))
    {
      if Begin in faults {
        return DatabaseError;
      }
      var workers, sessions, notices := db.workers, db.sessions, db.notices;
      if UpdateBeat in faults {
        return DatabaseError;
      }
      if beat.worker !in db.workers {
        return UnknownWorker;
      }
      var row := db.workers[beat.worker];
      row := row.(lastHeartbeat := now, status := if row.status == Stalled then Available else row.status);
      db.workers := db.workers[beat.worker := row];
      if FailSessions in faults {
        Rollback(db, workers, sessions, notices);
        return DatabaseError;
      }
      var failed := db.EndSessions(config, Some(beat), now);
      if |failed| > 0 {
        if Notify in faults {
          Rollback(db, workers, sessions, notices);
          return DatabaseError;
        }
        db.NotifyCapacityChanged();
      }
      if ListStale in faults {
        Rollback(db, workers, sessions, notices);
        return DatabaseError;
      }
      var stale := StaleIds(db.sessions, beat);
      StaleIdsBeforeAndAfter(config, sessions, beat, now);
      var shouldDrain := config.maxLifetime > 0 && row.lifetime >= config.maxLifetime && row.status == Available;
      if shouldDrain {
        if Drain in faults {
          Rollback(db, workers, sessions, notices);
          return DatabaseError;
        }
        if StatusAllowed(row.status, Draining) {
          row := row.(status := Draining);
          db.workers := db.workers[beat.worker := row];
        }
      }
      if Commit in faults {
        if !applied {
          Rollback(db, workers, sessions, notices);
        }
        return DatabaseError;
      }
      return Replied(HeartbeatReply(row, stale, failed));
    }

    method Rollback(db: Database, workers: Workers, sessions: Sessions, notices: nat)
      modifies db
      ensures db.workers == workers && db.sessions == sessions && db.notices == notices
    {
      db.workers, db.sessions, db.notices := workers, sessions, notices;
    }

    /** Two heartbeats of a registered worker at one clock reading, with the gateway
        closing in between what the first reply called stale: the second is idle. */
    method HeartbeatTwice(db: Database, beat: Beat, now: int) returns (second: HeartbeatReply)
      requires beat.worker in db.workers
      modifies db
      ensures second.stale == {} && second.failed == {}
      ensures db.workers == old(db.workers)[beat.worker := BeatRow(config, old(db.workers)[beat.worker], now)]
      ensures db.sessions == FailUnreported(config, old(db.sessions), beat, now)
      ensures db.notices <= old(db.notices) + 1
    {
      ghost var workers, sessions := db.workers, db.sessions;
      var first := Heartbeat(db, beat, now, {}, false);
      OneRoundReconciles(config, workers, sessions, beat, now);
      var answer := Heartbeat(db, Closed(beat, first.reply.stale), now, {}, false);
      second := answer.reply;
    }
  }

  /** The heartbeat fails only sessions it does not report, so it makes none of the
      reported ones stale. */
  lemma StaleIdsBeforeAndAfter(c: Config, sessions: Sessions, beat: Beat, now: int)
    ensures StaleIds(FailUnreported(c, sessions, beat, now), beat) == StaleIds(sessions, beat)
  {
    var after := FailUnreported(c, sessions, beat, now);
    assert forall s :: s in beat.reported ==>
      (s in ActiveOn(after, beat.worker) <==> s in ActiveOn(sessions, beat.worker));
  }

  /** One row at a time: exactly the running, past-grace, unreported sessions of this
      worker become failed, and every other row stays as it is. */
  lemma FailsExactlyTheUnreported(c: Config, sessions: Sessions, beat: Beat, now: int, s: SessionId)
    requires s in sessions
    ensures var after := FailUnreported(c, sessions, beat, now);
            s in after &&
            (if sessions[s].worker == beat.worker && sessions[s].status == Running && s !in beat.reported &&
                sessions[s].startedAt.Some? && sessions[s].startedAt.value < now - c.grace
             then after[s] == sessions[s].(status := Failed)
             else after[s] == sessions[s])
  {
  }

  /** After the gateway has closed what the reply called stale. */
  function Closed(beat: Beat, stale: set<SessionId>): Beat {
    beat.(reported := beat.reported - stale)
  }

  predicate PastGrace(c: Config, s: Session, now: int) {
    s.status == Running && s.startedAt.Some? && s.startedAt.value < now - c.grace
  }

  /** Main result: one round is enough. After it, at the same clock reading, a second
      heartbeat fails nothing, calls nothing stale and changes no row; both sides
      agree: every session the worker holds is active on it, and every session that
      runs on it past the grace period is held by it. */
  lemma OneRoundReconciles(c: Config, workers: Workers, sessions: Sessions, beat: Beat, now: int)
    requires beat.worker in workers
    ensures var after := FailUnreported(c, sessions, beat, now);
            var second := Closed(beat, StaleIds(sessions, beat));
            BulkTarget(c, after, Some(second), now) == {} &&
            StaleIds(after, second) == {} &&
            FailUnreported(c, after, second, now) == after &&
            second.reported <= ActiveOn(after, beat.worker) &&
            (forall s :: s in ActiveOn(after, beat.worker) && PastGrace(c, after[s], now) ==> s in second.reported)
    ensures var row := BeatRow(c, workers[beat.worker], now); BeatRow(c, row, now) == row
  {
    StaleIdsBeforeAndAfter(c, sessions, beat, now);
    var after := FailUnreported(c, sessions, beat, now);
    var second := Closed(beat, StaleIds(sessions, beat));
    forall s | s in after
      ensures !Unreported(c, s, after[s], second.worker, second.reported, now)
    {
      if s in beat.reported && s !in second.reported {
        assert s !in ActiveOn(sessions, beat.worker);
      }
    }
    assert FailUnreported(c, after, second, now) == after;
  }
}
