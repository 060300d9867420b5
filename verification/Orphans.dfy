/** Worker rows of pending and running sessions. DeleteDeadWorkers looks for active
    sessions only in its snapshot, so a worker that is revived, claimed and given up
    again before the delete locks its row could lose that row under a live session.
    Only a heartbeat that is slow to commit leaves the old last_heartbeat which the
    delete's recheck needs; every other transaction may be arbitrarily slow. */
module Orphans {
  import opened Common
  import opened Tables
  import opened ControlPlane
  import opened Safety

  ghost predicate NoOrphans(d: Db) {
    forall s :: s in d.sessions && Active(d.sessions[s]) ==> d.sessions[s].worker in d.workers
  }

  function Patience(c: Config): int {
    Min(c.workerTtl, c.stalledTtl)
  }

  /** A row a running delete may still remove has no active session; any other row
      it selected was revived too recently to pass the recheck. */
  predicate Harmless(c: Config, d: Db, w: WorkerId, start: int)
    requires w in d.workers
  {
    d.workers[w].lastHeartbeat >= start - Patience(c) ||
    (d.workers[w].status != Available && ActiveOn(d.sessions, w) == {})
  }

  ghost predicate DeleteOk(c: Config, d: Db, tx: Tx) {
    tx.Sweep? && tx.kind == Delete ==>
      tx.start <= d.now &&
      forall w :: w in tx.order || w in tx.rows ==> w in d.used && (w in d.workers ==> Harmless(c, d, w, tx.start))
  }

  ghost predicate DeletesOk(c: Config, d: Db) {
    forall t :: t in d.txs ==> DeleteOk(c, d, d.txs[t])
  }

  /** How the tables may change while open deletes stay harmless. */
  ghost predicate Calm(c: Config, d: Db, d': Db) {
    d.now <= d'.now && d.used <= d'.used &&
    (forall w :: w in d'.workers ==> w in d.workers || w !in d.used) &&
    (forall w :: w in d'.workers && w in d.workers ==>
      (d'.workers[w].lastHeartbeat >= d.now - Patience(c) || StaysIdle(d, d', w)))
  }

  ghost predicate StaysIdle(d: Db, d': Db, w: WorkerId)
    requires w in d'.workers && w in d.workers
  {
    d'.workers[w].lastHeartbeat == d.workers[w].lastHeartbeat &&
    (d.workers[w].status != Available ==>
      d'.workers[w].status != Available && ActiveOn(d'.sessions, w) <= ActiveOn(d.sessions, w))
  }

  /** The step's own transaction t is already shown; the others are as before. */
  lemma CalmStepKeepsDeletes(c: Config, d: Db, d': Db, t: TxId)
    requires DeletesOk(c, d) && Calm(c, d, d')
    requires forall u :: u in d'.txs && u != t ==> u in d.txs && d'.txs[u] == d.txs[u]
    requires t in d'.txs ==> DeleteOk(c, d', d'.txs[t])
    ensures DeletesOk(c, d')
  {
    forall u | u in d'.txs
      ensures DeleteOk(c, d', d'.txs[u])
    {
      if u != t {
        assert DeleteOk(c, d, d.txs[u]);
      }
    }
  }

  lemma ClaimCommitIsCalm(c: Config, d: Db, t: TxId, d': Db)
    requires InvAt(c, d, t) && NoOrphans(d) && ClaimStep(c, d, t, ClaimCommit) == Some(d')
    ensures Calm(c, d, d') && NoOrphans(d') && t !in d'.txs
  {
    var w, s := d.txs[t].phase.worker, d.txs[t].phase.session;
    assert d.workers[w].status == Available;
    forall v | v in d'.workers
      ensures StaysIdle(d, d', v)
    {
      ClaimCommitRows(c, d, t, w, s, v);
    }
  }

  lemma BulkCommitIsCalm(c: Config, d: Db, t: TxId, d': Db)
    requires c.beatLimit <= Patience(c) && NoOrphans(d) && BulkStep(c, d, t, BulkCommit) == Some(d')
    ensures Calm(c, d, d') && NoOrphans(d') && t !in d'.txs
  {
    BulkCommitIsBenign(c, d, t, d');
    forall w
      ensures ActiveOn(d'.sessions, w) <= ActiveOn(d.sessions, w)
    {
      BenignShrinks(d, d', HeldW(d.txs[t]), w);
    }
  }

  lemma RowCommitIsCalm(c: Config, d: Db, t: TxId, d': Db)
    requires NoOrphans(d) && RowStep(c, d, t, OneCommit) == Some(d')
    ensures Calm(c, d, d') && NoOrphans(d') && t !in d'.txs
  {
    RowCommitIsBenign(c, d, t, d');
    forall w
      ensures ActiveOn(d'.sessions, w) <= ActiveOn(d.sessions, w)
    {
      BenignShrinks(d, d', HeldW(d.txs[t]), w);
    }
  }

  lemma WorkerCommitIsCalm(c: Config, d: Db, t: TxId, m: WorkerMove, d': Db)
    requires NoOrphans(d) && DeletesOk(c, d)
    requires WorkerStep(c, d, t, m) == Some(d') && (m.SweepCommit? || m.StatusCommit?)
    ensures Calm(c, d, d') && NoOrphans(d') && t !in d'.txs
  {
    assert DeleteOk(c, d, d.txs[t]);
    assert d'.sessions == d.sessions;
    forall s | s in d.sessions && Active(d.sessions[s])
      ensures d.sessions[s].worker in d'.workers
    {
      assert s in ActiveOn(d.sessions, d.sessions[s].worker);
    }
  }

  /** A new delete selects only idle rows; later steps only walk through its list. */
  lemma WorkerStepKeepsOwnDelete(c: Config, d: Db, t: TxId, m: WorkerMove, d': Db)
    requires RowsOk(c, d) && DeletesOk(c, d)
    requires WorkerStep(c, d, t, m) == Some(d') && !m.SweepCommit? && !m.StatusCommit?
    ensures t in d'.txs ==> DeleteOk(c, d', d'.txs[t])
  {
    if m.SweepBegin? {
      forall w | w in m.order
        ensures w in d.used
      {
        assert WorkerOk(c, d, w);
      }
    } else if t in d.txs {
      assert DeleteOk(c, d, d.txs[t]);
    }
  }

  lemma QuietIsCalm(c: Config, d: Db, d': Db, t: TxId)
    requires OnlyTx(d, d', t) && d.now <= d'.now && NoOrphans(d)
    ensures Calm(c, d, d') && NoOrphans(d')
  {
  }

  lemma OutsideStepKeepsDeletes(c: Config, d: Db, a: Action, d': Db)
    requires Inv(c, d) && DeletesOk(c, d) && NoOrphans(d) && Step(c, d, a) == Some(d') && (a.Tick? || a.Register?)
    ensures DeletesOk(c, d') && NoOrphans(d')
  {
    forall u | u in d'.txs
      ensures DeleteOk(c, d', d'.txs[u])
    {
      assert DeleteOk(c, d, d.txs[u]);
    }
  }

  lemma ClaimStepStaysClaim(c: Config, d: Db, t: TxId, m: ClaimMove, d': Db)
    requires InvAt(c, d, t) && ClaimStep(c, d, t, m) == Some(d')
    ensures t in d'.txs ==> d'.txs[t].Claim?
  {
  }

  lemma ClaimStepKeepsDeletes(c: Config, d: Db, t: TxId, m: ClaimMove, d': Db)
    requires InvAt(c, d, t) && DeletesOk(c, d) && NoOrphans(d) && ClaimStep(c, d, t, m) == Some(d')
    ensures DeletesOk(c, d') && NoOrphans(d')
  {
    if m.ClaimCommit? {
      ClaimCommitIsCalm(c, d, t, d');
    } else {
      ClaimStepIsQuiet(c, d, t, m, d');
      ClaimStepStaysClaim(c, d, t, m, d');
      assert d'.now == d.now;
      QuietIsCalm(c, d, d', t);
    }
    CalmStepKeepsDeletes(c, d, d', t);
  }

  lemma BulkStepKeepsDeletes(c: Config, d: Db, t: TxId, m: BulkMove, d': Db)
    requires c.beatLimit <= Patience(c)
    requires InvAt(c, d, t) && DeletesOk(c, d) && NoOrphans(d) && BulkStep(c, d, t, m) == Some(d')
    ensures DeletesOk(c, d') && NoOrphans(d')
  {
    if m.BulkCommit? {
      BulkCommitIsCalm(c, d, t, d');
    } else {
      BulkStepIsQuiet(c, d, t, m, d');
      QuietIsCalm(c, d, d', t);
    }
    CalmStepKeepsDeletes(c, d, d', t);
  }

  lemma RowStepKeepsDeletes(c: Config, d: Db, t: TxId, m: RowMove, d': Db)
    requires InvAt(c, d, t) && DeletesOk(c, d) && NoOrphans(d) && RowStep(c, d, t, m) == Some(d')
    ensures DeletesOk(c, d') && NoOrphans(d')
  {
    if m.OneCommit? {
      RowCommitIsCalm(c, d, t, d');
    } else {
      RowStepIsQuiet(c, d, t, m, d');
      QuietIsCalm(c, d, d', t);
    }
    CalmStepKeepsDeletes(c, d, d', t);
  }

  lemma WorkerStepKeepsDeletes(c: Config, d: Db, t: TxId, m: WorkerMove, d': Db)
    requires RowsOk(c, d)
    requires InvAt(c, d, t) && DeletesOk(c, d) && NoOrphans(d) && WorkerStep(c, d, t, m) == Some(d')
    ensures DeletesOk(c, d') && NoOrphans(d')
  {
    if m.SweepCommit? || m.StatusCommit? {
      WorkerCommitIsCalm(c, d, t, m, d');
    } else {
      WorkerStepIsQuiet(c, d, t, m, d');
      WorkerStepKeepsOwnDelete(c, d, t, m, d');
      QuietIsCalm(c, d, d', t);
    }
    CalmStepKeepsDeletes(c, d, d', t);
  }

  lemma StepKeepsDeletes(c: Config, d: Db, a: Action, d': Db)
    requires c.beatLimit <= Patience(c)
    requires Inv(c, d) && DeletesOk(c, d) && NoOrphans(d) && Step(c, d, a) == Some(d')
    ensures DeletesOk(c, d') && NoOrphans(d')
  {
    match a
    case Tick(_) => OutsideStepKeepsDeletes(c, d, a, d');
    case Register(_, _, _, _) => OutsideStepKeepsDeletes(c, d, a, d');
    case OfClaim(t, m) => InvHere(c, d, t); ClaimStepKeepsDeletes(c, d, t, m, d');
    case OfBulk(t, m) => InvHere(c, d, t); BulkStepKeepsDeletes(c, d, t, m, d');
    case OfRow(t, m) => InvHere(c, d, t); RowStepKeepsDeletes(c, d, t, m, d');
    case OfWorker(t, m) => InvHere(c, d, t); WorkerStepKeepsDeletes(c, d, t, m, d');
    case Abort(t) => InvHere(c, d, t); AbortKeepsDeletes(c, d, t, d');
  }

  lemma AbortKeepsDeletes(c: Config, d: Db, t: TxId, d': Db)
    requires InvAt(c, d, t) && DeletesOk(c, d) && NoOrphans(d) && Step(c, d, Abort(t)) == Some(d')
    ensures DeletesOk(c, d') && NoOrphans(d')
  {
    AbortIsQuiet(c, d, t, d');
    QuietIsCalm(c, d, d', t);
    CalmStepKeepsDeletes(c, d, d', t);
  }

  lemma {:induction false} PromptRunHasNoOrphans(c: Config, run: seq<Db>, i: nat)
    requires Run(c, run) && i < |run| && c.beatLimit <= Patience(c)
    ensures DeletesOk(c, run[i]) && NoOrphans(run[i])
  {
    if i > 0 {
      PromptRunHasNoOrphans(c, run, i - 1);
      RunKeepsInv(c, run, i - 1);
      assert Next(c, run[i - 1], run[i - 1 + 1]);
      var a :| Step(c, run[i - 1], a) == Some(run[i]);
      StepKeepsDeletes(c, run[i - 1], a, run[i]);
    }
  }
}
