/** What the updates of single rows and the sweeps do, stated on the columns of the rows
    alone. */
module RowFacts {
  import opened Common
  import opened Tables
  import opened ControlPlane
  import opened Statements
  import opened StatementRuns
  import opened Rescuers
  import opened Sweeps

  // ------------------------------------------------------------------ row locks

  /** The transaction keeps the row locks it has. */
  predicate KeepsLocks(tx: Tx, tx': Tx) {
    HeldW(tx) <= HeldW(tx') && HeldS(tx) <= HeldS(tx')
  }

  lemma ClaimMovesKeepLocks(c: Config, d: Db, u: TxId, m: ClaimMove, d': Db, t: TxId)
    requires ClaimStep(c, d, u, m) == Some(d') && t in d.txs && t in d'.txs
    ensures KeepsLocks(d.txs[t], d'.txs[t])
    ensures u == t && m == SkipStale ==> d.txs[t].phase.rest[0] in HeldW(d'.txs[t])
    ensures u == t && m == Take ==> d.txs[t].phase.rest[0] in HeldW(d'.txs[t])
  {
  }

  lemma BulkMovesKeepLocks(c: Config, d: Db, u: TxId, m: BulkMove, d': Db, t: TxId)
    requires BulkStep(c, d, u, m) == Some(d') && t in d.txs && t in d'.txs
    ensures KeepsLocks(d.txs[t], d'.txs[t])
    ensures u == t && m == BulkLock ==> d.txs[t].todo[0] in HeldS(d'.txs[t])
    ensures u == t && m == BeatLock ==> d.txs[t].beat.worker in HeldW(d'.txs[t])
  {
  }

  lemma WorkerMovesKeepLocks(c: Config, d: Db, u: TxId, m: WorkerMove, d': Db, t: TxId)
    requires WorkerStep(c, d, u, m) == Some(d') && t in d.txs && t in d'.txs
    ensures KeepsLocks(d.txs[t], d'.txs[t])
    ensures u == t && m == SweepLock ==> d.txs[t].order[0] in HeldW(d'.txs[t])
    ensures u == t && m == StatusLock ==> d.txs[t].worker in HeldW(d'.txs[t])
  {
  }

  /** Row locks are held to the end of the transaction, whatever it was locked for: also a
      worker that a claim passed over because its columns no longer fit. */
  lemma LocksAreHeldToTheEnd(c: Config, d: Db, a: Action, d': Db, t: TxId)
    requires Step(c, d, a) == Some(d') && t in d.txs && t in d'.txs
    ensures KeepsLocks(d.txs[t], d'.txs[t])
    ensures a == OfClaim(t, SkipStale) || a == OfClaim(t, Take) ==> d.txs[t].phase.rest[0] in HeldW(d'.txs[t])
  {
    match a
    case OfClaim(u, m) => ClaimMovesKeepLocks(c, d, u, m, d', t);
    case OfBulk(u, m) => BulkMovesKeepLocks(c, d, u, m, d', t);
    case OfWorker(u, m) => WorkerMovesKeepLocks(c, d, u, m, d', t);
    case _ =>
  }

  // ------------------------------------------------------------ session updates

  /** The session row after a committed update, column by column. Each update applies to
      its own statuses only, and only StartSession touches anything but the status and
      the heartbeat: it sets the start time and clears the expiry. */
  predicate RowAfter(op: SessionOp, row: Session, start: int, after: Session) {
    match op
    case Start =>
      if row.status == Pending
      then after == Session(row.worker, row.browser, row.version, Running, Some(start), None, start)
      else after == row
    case Complete =>
      after == if row.status == Running then row.(status := Completed) else row
    case Fail =>
      after == if row.status in {Pending, Running} then row.(status := Failed) else row
    case Terminate =>
      after == if row.status in {Pending, Running} then row.(status := Completed) else row
    case Renew =>
      after == if row.status == Running then row.(lastHeartbeat := start) else row
  }

  /** A committed update writes its own row and nothing else, and it notifies exactly when
      it ends a session. */
  lemma UpdateWritesItsRow(c: Config, d: Db, t: TxId, d': Db)
    requires t in d.txs && d.txs[t].One? && RowStep(c, d, t, OneCommit) == Some(d')
    ensures d.txs[t].session in d.sessions && d'.workers == d.workers && d'.claims == d.claims
    ensures var s, row := d.txs[t].session, d.sessions[d.txs[t].session];
            d'.sessions.Keys == d.sessions.Keys && RowAfter(d.txs[t].op, row, d.txs[t].start, d'.sessions[s]) &&
            (forall x :: x in d.sessions && x != s ==> d'.sessions[x] == d.sessions[x]) &&
            d'.notices == d.notices +
              if row.status in {Pending, Running} && d'.sessions[s].status !in {Pending, Running} then 1 else 0
  {
  }

  // ------------------------------------------------------------- worker updates

  /** A committed status request: draining only from available or draining, shutting down
      from any status, and nothing else ever changes the row. */
  lemma StatusWritesItsRow(c: Config, d: Db, t: TxId, d': Db)
    requires t in d.txs && d.txs[t].SetStatus? && WorkerStep(c, d, t, StatusCommit) == Some(d')
    ensures d.txs[t].worker in d.workers && d'.sessions == d.sessions && d'.notices == d.notices
    ensures var w, target, row := d.txs[t].worker, d.txs[t].target, d.workers[d.txs[t].worker];
            d'.workers == d.workers[w := row.(status :=
              if target == ShuttingDown then ShuttingDown
              else if target == Draining && row.status == Available then Draining
              else row.status)]
  {
    var w := d.txs[t].worker;
    assert d.workers == d.workers[w := d.workers[w]];
  }

  /** A registered worker starts available, heard from now, unused, and is announced. */
  lemma RegistrationWritesItsRow(c: Config, d: Db, w: WorkerId, browser: string, version: string, maxSlots: nat, d': Db)
    requires Step(c, d, Register(w, browser, version, maxSlots)) == Some(d')
    ensures w !in d.used && w in d'.used && maxSlots > 0 && d'.notices == d.notices + 1 && d'.sessions == d.sessions
    ensures d'.workers == d.workers[w := Worker(browser, version, maxSlots, Available, d.now, 0)]
  {
  }

  /** A heartbeat on its own leads to these rows: the worker was heard from now; it is
      revived if it was stalled, and told to drain instead of serving once its lifetime
      is used up; what it asked to stop stays stopped. Its running sessions that are past
      the grace period and not reported have failed. */
  lemma HeartbeatWritesItsRows(c: Config, d: Db, t: TxId, beat: Beat) returns (d': Db)
    requires d.txs == map[] && t !in d.claims && beat.worker in d.workers
    ensures Leads(c, d, d') && d'.workers.Keys == d.workers.Keys && d'.sessions.Keys == d.sessions.Keys
    ensures forall w :: w in d.workers && w != beat.worker ==> d'.workers[w] == d.workers[w]
    ensures var row, after := d.workers[beat.worker], d'.workers[beat.worker];
            after == row.(lastHeartbeat := d.now, status := after.status) &&
            (row.status in {Draining, ShuttingDown} ==> after.status == row.status) &&
            (row.status in {Available, Stalled} ==>
              after.status == if c.maxLifetime > 0 && row.lifetime >= c.maxLifetime then Draining else Available)
    ensures forall s :: s in d.sessions ==>
              var row := d.sessions[s];
              d'.sessions[s] ==
              if row.worker == beat.worker && row.status == Running && row.startedAt.Some? &&
                 row.startedAt.value + c.grace < d.now && s !in beat.reported
              then row.(status := Failed) else row
  {
    HeartbeatAloneIsTheStatement(c, d, t, beat);
    d' := AfterStatement(c, d, Some(beat));
  }

  // --------------------------------------------------------------------- sweeps

  /** The session is pending or running, and its heartbeat or its expiry has passed. */
  predicate Overdue(c: Config, row: Session, now: int) {
    row.status in {Pending, Running} &&
    (row.lastHeartbeat + c.sessionTtl < now || (row.expiresAt.Some? && row.expiresAt.value < now))
  }

  /** The row once silent available workers are stalled. */
  function Stalling(c: Config, row: Worker, now: int): Worker {
    if row.status == Available && row.lastHeartbeat + c.workerTtl < now then row.(status := Stalled) else row
  }

  /** The worker has shut down for the worker timeout, or stalled or drained for the
      stalled-worker timeout. */
  predicate LongGone(c: Config, row: Worker, now: int) {
    (row.status == ShuttingDown && row.lastHeartbeat + c.workerTtl < now) ||
    (row.status in {Stalled, Draining} && row.lastHeartbeat + c.stalledTtl < now)
  }

  /** Some session of the worker is pending or running and not overdue. */
  ghost predicate StillUsed(c: Config, d: Db, w: WorkerId) {
    exists s :: s in d.sessions && d.sessions[s].worker == w && d.sessions[s].status in {Pending, Running} &&
                !Overdue(c, d.sessions[s], d.now)
  }

  /** Main result: once a sweep has committed its second transaction, by itself or among
      any number of others, exactly the overdue sessions have expired; in particular every
      pending session that was not started in time. */
  lemma SweepExpiresTheOverdue(c: Config, fleets: seq<Fleet>, turns: seq<Turn>, k: nat, i: nat, s: SessionId)
    requires FleetRun(c, fleets, turns) && k < |fleets|
    requires i < |fleets[k].sweepers| && fleets[k].sweepers[i].done >= 2 && s in fleets[0].db.sessions
    ensures s in fleets[k].db.sessions
    ensures var row := fleets[0].db.sessions[s];
            fleets[k].db.sessions[s] ==
            if Overdue(c, row, fleets[0].db.now) then row.(status := Expired) else row
  {
    var m := FurthestSweepDecides(c, fleets, turns, k);
    var r, now := RowsOf(fleets[0].db), fleets[0].db.now;
    assert SweeperOk(c, r, now, m, fleets[k].db, fleets[k].sweepers[i]);
    AfterTwo(c, r, m, now);
  }

  lemma AfterTwo(c: Config, r: Rows, m: nat, now: int)
    requires 2 <= m <= 3
    ensures AfterFirst(c, r, m, now).sessions == ExpireAll(c, r.sessions, now)
  {
    ThreeTransactions(c, r, now);
    if m == 3 {
      StageRows(c, r, 2, now);
    }
  }

  /** Main result: once a sweep has finished, exactly the long gone workers without a
      session that still uses them are gone; every other row is as it was, except that
      silent available workers are stalled. */
  lemma SweepRemovesTheLongGone(c: Config, fleets: seq<Fleet>, turns: seq<Turn>, k: nat, i: nat, w: WorkerId)
    requires FleetRun(c, fleets, turns) && k < |fleets|
    requires i < |fleets[k].sweepers| && fleets[k].sweepers[i].done == 3 && w in fleets[0].db.workers
    ensures var d, d' := fleets[0].db, fleets[k].db;
            var row := Stalling(c, d.workers[w], d.now);
            (w in d'.workers <==> !LongGone(c, row, d.now) || StillUsed(c, d, w)) &&
            (w in d'.workers ==> d'.workers[w] == row)
  {
    ConcurrentSweepsAreHarmless(c, fleets, turns, k, i);
    SweptOnRows(c, fleets[0].db, w);
  }

  lemma SweptOnRows(c: Config, d: Db, w: WorkerId)
    requires w in d.workers
    ensures var workers, row := Swept(c, RowsOf(d), d.now).workers, Stalling(c, d.workers[w], d.now);
            (w in workers <==> !LongGone(c, row, d.now) || StillUsed(c, d, w)) && (w in workers ==> workers[w] == row)
  {
    var r := RowsOf(d);
    ThreeTransactions(c, r, d.now);
    StageRows(c, r, 2, d.now);
    var two := AfterFirst(c, r, 2, d.now);
    assert two.workers[w] == Stalling(c, d.workers[w], d.now);
    UsedAfterExpiry(c, d, w);
  }

  lemma UsedAfterExpiry(c: Config, d: Db, w: WorkerId)
    ensures StillUsed(c, d, w) <==> ActiveOn(ExpireAll(c, d.sessions, d.now), w) != {}
  {
    var after := ExpireAll(c, d.sessions, d.now);
    if StillUsed(c, d, w) {
      var s :| s in d.sessions && d.sessions[s].worker == w && d.sessions[s].status in {Pending, Running} &&
               !Overdue(c, d.sessions[s], d.now);
      assert s in ActiveOn(after, w);
    }
    if ActiveOn(after, w) != {} {
      var s :| s in ActiveOn(after, w);
      assert s in d.sessions && !Overdue(c, d.sessions[s], d.now);
    }
  }
}
