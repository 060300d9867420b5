/** The bulk statements with nothing else running, as steps of the database: snapshot,
    row locks one by one, commit. Each ends in exactly the tables of the one-shot
    statement, and changes nothing else. */
module StatementRuns {
  import opened Common
  import opened Tables
  import opened ControlPlane
  import opened Statements

  function Elements(order: seq<nat>): set<nat> {
    set x | x in order
  }

  /** The database while only transaction t is open. */
  function With(d: Db, t: TxId, tx: Tx): Db {
    d.(txs := map[t := tx])
  }

  lemma Opens(c: Config, d: Db, a: Action, t: TxId, tx: Tx)
    requires d.txs == map[] && Step(c, d, a) == Some(SetTx(d, t, tx))
    ensures Leads(c, d, With(d, t, tx))
  {
    LeadsNowhere(c, d);
    assert d.txs[t := tx] == map[t := tx];
    LeadsOn(c, d, d, a, With(d, t, tx));
  }

  lemma Moves(c: Config, d: Db, t: TxId, from: Tx, a: Action, to: Tx)
    requires Leads(c, d, With(d, t, from)) && Step(c, With(d, t, from), a) == Some(SetTx(With(d, t, from), t, to))
    ensures Leads(c, d, With(d, t, to))
  {
    assert With(d, t, from).txs[t := to] == map[t := to];
    LeadsOn(c, d, With(d, t, from), a, With(d, t, to));
  }

  lemma {:induction false} LocksEveryWorker(c: Config, d: Db, t: TxId, kind: SweepKind,
                                            order: seq<WorkerId>, rows: set<WorkerId>)
    requires Leads(c, d, With(d, t, Sweep(d.now, kind, order, rows))) && Elements(order) <= d.workers.Keys
    ensures Leads(c, d, With(d, t, Sweep(d.now, kind, [], rows + Elements(order))))
    decreases |order|
  {
    if order == [] {
      assert rows + Elements(order) == rows;
    } else {
      Moves(c, d, t, Sweep(d.now, kind, order, rows), OfWorker(t, SweepLock),
            Sweep(d.now, kind, order[1..], rows + {order[0]}));
      LocksEveryWorker(c, d, t, kind, order[1..], rows + {order[0]});
      assert rows + {order[0]} + Elements(order[1..]) == rows + Elements(order);
    }
  }

  function AfterSweep(c: Config, d: Db, kind: SweepKind): Db {
    d.(workers := match kind
                  case Stall => StallAll(c, d.workers, d.now)
                  case Delete => DeleteAll(c, d.workers, d.sessions, d.now))
  }

  lemma SweepCommitsIt(c: Config, d: Db, t: TxId, kind: SweepKind)
    requires d.txs == map[]
    ensures var target := SweepTarget(c, kind, d.workers, d.sessions, d.now);
            CommitSweep(c, With(d, t, Sweep(d.now, kind, [], target)), t, d.now, kind, target) == AfterSweep(c, d, kind)
  {
    var target := SweepTarget(c, kind, d.workers, d.sessions, d.now);
    var e := With(d, t, Sweep(d.now, kind, [], target));
    var hit := set w | w in target && w in d.workers && SweepHits(c, kind, d.workers[w], d.now);
    assert hit == target;
    assert e.txs - {t} == d.txs;
    assert CommitSweep(c, e, t, d.now, kind, target).workers == AfterSweep(c, d, kind).workers;
  }

  /** A stall or delete sweep on its own. */
  lemma SweepAloneIsTheStatement(c: Config, d: Db, t: TxId, kind: SweepKind)
    requires d.txs == map[] && t !in d.claims
    ensures Leads(c, d, AfterSweep(c, d, kind))
  {
    var target := SweepTarget(c, kind, d.workers, d.sessions, d.now);
    var order := Sorted(target);
    assert Lists(order, target);
    Opens(c, d, OfWorker(t, SweepBegin(kind, order)), t, Sweep(d.now, kind, order, {}));
    LocksEveryWorker(c, d, t, kind, order, {});
    assert {} + Elements(order) == target;
    var e := With(d, t, Sweep(d.now, kind, [], target));
    SweepCommitsIt(c, d, t, kind);
    LeadsOn(c, d, e, OfWorker(t, SweepCommit), AfterSweep(c, d, kind));
  }

  lemma {:induction false} LocksEverySession(c: Config, d: Db, t: TxId, cause: Option<Beat>,
                                             todo: seq<SessionId>, locked: set<SessionId>)
    requires Leads(c, d, With(d, t, Bulk(d.now, cause, todo, locked)))
    ensures Leads(c, d, With(d, t, Bulk(d.now, cause, [], locked + Elements(todo))))
    decreases |todo|
  {
    if todo == [] {
      assert locked + Elements(todo) == locked;
    } else {
      Moves(c, d, t, Bulk(d.now, cause, todo, locked), OfBulk(t, BulkLock),
            Bulk(d.now, cause, todo[1..], locked + {todo[0]}));
      LocksEverySession(c, d, t, cause, todo[1..], locked + {todo[0]});
      assert locked + {todo[0]} + Elements(todo[1..]) == locked + Elements(todo);
    }
  }

  /** The state after a bulk statement that ran alone: sessions, the heartbeat's worker
      row, and one notification if a session ended. */
  function AfterStatement(c: Config, d: Db, cause: Option<Beat>): Db
    requires cause.Some? ==> cause.value.worker in d.workers
  {
    d.(sessions := if cause.Some?
                   then FailUnreported(c, d.sessions, cause.value, d.now) else ExpireAll(c, d.sessions, d.now),
       workers := if cause.Some?
                  then d.workers[cause.value.worker := BeatRow(c, d.workers[cause.value.worker], d.now)] else d.workers,
       notices := d.notices + if BulkTarget(c, d.sessions, cause, d.now) != {} then 1 else 0)
  }

  lemma BulkCommitsIt(c: Config, d: Db, t: TxId, cause: Option<Beat>)
    requires d.txs == map[] && (cause.Some? ==> cause.value.worker in d.workers)
    ensures var target := BulkTarget(c, d.sessions, cause, d.now);
            CommitBulk(c, With(d, t, Bulk(d.now, cause, [], target)), t, d.now, cause, target) ==
            AfterStatement(c, d, cause)
  {
    var target := BulkTarget(c, d.sessions, cause, d.now);
    assert With(d, t, Bulk(d.now, cause, [], target)).txs - {t} == d.txs;
    assert target * target == target;
    assert AfterBulk(c, d.sessions, cause, target, d.now) == AfterBulk(c, d.sessions, cause, d.sessions.Keys, d.now);
  }

  lemma BulkLocks(c: Config, d: Db, t: TxId, cause: Option<Beat>, target: set<SessionId>)
    requires Leads(c, d, With(d, t, Bulk(d.now, cause, Sorted(target), {})))
    ensures Leads(c, d, With(d, t, Bulk(d.now, cause, [], target)))
  {
    LocksEverySession(c, d, t, cause, Sorted(target), {});
    assert {} + Elements(Sorted(target)) == target;
  }

  lemma BulkRuns(c: Config, d: Db, t: TxId, cause: Option<Beat>)
    requires d.txs == map[] && (cause.Some? ==> cause.value.worker in d.workers)
    requires Leads(c, d, With(d, t, Bulk(d.now, cause, Sorted(BulkTarget(c, d.sessions, cause, d.now)), {})))
    ensures Leads(c, d, AfterStatement(c, d, cause))
  {
    var target := BulkTarget(c, d.sessions, cause, d.now);
    BulkLocks(c, d, t, cause, target);
    BulkCommitsIt(c, d, t, cause);
    LeadsOn(c, d, With(d, t, Bulk(d.now, cause, [], target)), OfBulk(t, BulkCommit), AfterStatement(c, d, cause));
  }

  /** Session expiry on its own. */
  lemma ExpiryAloneIsTheStatement(c: Config, d: Db, t: TxId)
    requires d.txs == map[] && t !in d.claims
    ensures Leads(c, d, AfterStatement(c, d, None))
  {
    var todo := Sorted(BulkTarget(c, d.sessions, None, d.now));
    Opens(c, d, OfBulk(t, ExpireBegin), t, Bulk(d.now, None, todo, {}));
    BulkRuns(c, d, t, None);
  }

  /** A registered worker's heartbeat on its own. */
  lemma HeartbeatAloneIsTheStatement(c: Config, d: Db, t: TxId, beat: Beat)
    requires d.txs == map[] && t !in d.claims && beat.worker in d.workers
    ensures Leads(c, d, AfterStatement(c, d, Some(beat)))
  {
    var todo := Sorted(BulkTarget(c, d.sessions, Some(beat), d.now));
    Opens(c, d, OfBulk(t, BeatBegin(beat)), t, BeatOpen(d.now, beat));
    Moves(c, d, t, BeatOpen(d.now, beat), OfBulk(t, BeatLock), BeatHeld(d.now, beat));
    Moves(c, d, t, BeatHeld(d.now, beat), OfBulk(t, BeatSelect), Bulk(d.now, Some(beat), todo, {}));
    BulkRuns(c, d, t, Some(beat));
  }

  /** An update of one session on its own. */
  lemma UpdateAloneIsTheStatement(c: Config, d: Db, t: TxId, s: SessionId, op: SessionOp)
    requires d.txs == map[] && t !in d.claims && s in d.sessions
    ensures Leads(c, d, CommitOne(d, t, s, op, d.now))
  {
    Opens(c, d, OfRow(t, OneBegin(s, op)), t, One(d.now, s, op, false));
    Moves(c, d, t, One(d.now, s, op, false), OfRow(t, OneLock), One(d.now, s, op, true));
    var e := With(d, t, One(d.now, s, op, true));
    assert e.txs - {t} == d.txs && d.txs - {t} == d.txs;
    LeadsOn(c, d, e, OfRow(t, OneCommit), CommitOne(e, t, s, op, d.now));
    assert CommitOne(e, t, s, op, d.now) == CommitOne(d, t, s, op, d.now);
  }

  /** A status request of a registered worker on its own. */
  lemma StatusAloneIsTheStatement(c: Config, d: Db, t: TxId, w: WorkerId, target: WorkerStatus)
    requires d.txs == map[] && t !in d.claims && w in d.workers
    ensures Leads(c, d, CommitStatus(d, t, w, target))
  {
    Opens(c, d, OfWorker(t, StatusBegin(w, target)), t, SetStatus(d.now, w, target, false));
    Moves(c, d, t, SetStatus(d.now, w, target, false), OfWorker(t, StatusLock), SetStatus(d.now, w, target, true));
    var e := With(d, t, SetStatus(d.now, w, target, true));
    assert e.txs - {t} == d.txs && d.txs - {t} == d.txs;
    LeadsOn(c, d, e, OfWorker(t, StatusCommit), CommitStatus(e, t, w, target));
    assert CommitStatus(e, t, w, target) == CommitStatus(d, t, w, target);
  }
}
