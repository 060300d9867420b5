/** How single rows may change over a run: the two state machines, and the promise
    that every step that frees a slot notifies in the same commit. */
module Transitions {
  import opened Common
  import opened Tables
  import opened ControlPlane
  import opened Safety

  /** The session state machine: pending to running to an end, or straight to an end. */
  predicate SessionMoves(a: Session, b: Session) {
    a.worker == b.worker &&
    match a.status
    case Pending => true
    case Running => !b.status.Pending?
    case _ => b == a
  }

  /** Drain and shutdown intent is never overwritten; shutting down is final. */
  predicate WorkerMoves(a: Worker, b: Worker) {
    match a.status
    case Draining => b.status.Draining? || b.status.ShuttingDown?
    case ShuttingDown => b.status.ShuttingDown?
    case _ => true
  }

  ghost predicate RowsMove(d: Db, d': Db) {
    (forall s :: s in d.sessions ==> s in d'.sessions && SessionMoves(d.sessions[s], d'.sessions[s])) &&
    (forall s :: s in d'.sessions && s !in d.sessions ==> d'.sessions[s].status == Pending) &&
    (forall w :: w in d.workers && w in d'.workers ==> WorkerMoves(d.workers[w], d'.workers[w])) &&
    d.used <= d'.used && (forall w :: w in d.used && w !in d.workers ==> w !in d'.workers)
  }

  /** Some session of `d` that used a slot does not use one in `d'`. */
  ghost predicate Frees(d: Db, d': Db) {
    exists s :: s in d.sessions && Active(d.sessions[s]) && !(s in d'.sessions && Active(d'.sessions[s]))
  }

  ghost predicate Notified(d: Db, d': Db) {
    d.notices <= d'.notices && (Frees(d, d') ==> d.notices < d'.notices)
  }

  lemma ClaimCommitMoves(c: Config, d: Db, t: TxId, d': Db)
    requires InvAt(c, d, t) && ClaimStep(c, d, t, ClaimCommit) == Some(d')
    ensures RowsMove(d, d') && Notified(d, d')
  {
    assert d.txs[t].phase.session !in d.sessions;
  }

  lemma BulkCommitMoves(c: Config, d: Db, t: TxId, d': Db)
    requires BulkStep(c, d, t, BulkCommit) == Some(d')
    ensures RowsMove(d, d') && Notified(d, d')
  {
    if Frees(d, d') {
      var s :| s in d.sessions && Active(d.sessions[s]) && !(s in d'.sessions && Active(d'.sessions[s]));
      var tx := d.txs[t];
      assert s in tx.locked * BulkTarget(c, d.sessions, tx.cause, tx.start);
    }
  }

  lemma RowCommitMoves(c: Config, d: Db, t: TxId, d': Db)
    requires RowStep(c, d, t, OneCommit) == Some(d')
    ensures RowsMove(d, d') && Notified(d, d')
  {
  }

  lemma WorkerCommitMoves(c: Config, d: Db, t: TxId, m: WorkerMove, d': Db)
    requires WorkerStep(c, d, t, m) == Some(d') && (m.SweepCommit? || m.StatusCommit?)
    ensures RowsMove(d, d') && Notified(d, d')
  {
  }

  lemma QuietMoves(d: Db, d': Db, t: TxId)
    requires OnlyTx(d, d', t)
    ensures RowsMove(d, d') && Notified(d, d')
  {
  }

  lemma ClaimStepMoves(c: Config, d: Db, t: TxId, m: ClaimMove, d': Db)
    requires InvAt(c, d, t) && ClaimStep(c, d, t, m) == Some(d')
    ensures RowsMove(d, d') && Notified(d, d')
  {
    if m.ClaimCommit? {
      ClaimCommitMoves(c, d, t, d');
    } else {
      ClaimStepIsQuiet(c, d, t, m, d');
      QuietMoves(d, d', t);
    }
  }

  lemma BulkStepMoves(c: Config, d: Db, t: TxId, m: BulkMove, d': Db)
    requires InvAt(c, d, t) && BulkStep(c, d, t, m) == Some(d')
    ensures RowsMove(d, d') && Notified(d, d')
  {
    if m.BulkCommit? {
      BulkCommitMoves(c, d, t, d');
    } else {
      BulkStepIsQuiet(c, d, t, m, d');
      QuietMoves(d, d', t);
    }
  }

  lemma RowStepMoves(c: Config, d: Db, t: TxId, m: RowMove, d': Db)
    requires InvAt(c, d, t) && RowStep(c, d, t, m) == Some(d')
    ensures RowsMove(d, d') && Notified(d, d')
  {
    if m.OneCommit? {
      RowCommitMoves(c, d, t, d');
    } else {
      RowStepIsQuiet(c, d, t, m, d');
      QuietMoves(d, d', t);
    }
  }

  lemma WorkerStepMoves(c: Config, d: Db, t: TxId, m: WorkerMove, d': Db)
    requires InvAt(c, d, t) && WorkerStep(c, d, t, m) == Some(d')
    ensures RowsMove(d, d') && Notified(d, d')
  {
    if m.SweepCommit? || m.StatusCommit? {
      WorkerCommitMoves(c, d, t, m, d');
    } else {
      WorkerStepIsQuiet(c, d, t, m, d');
      QuietMoves(d, d', t);
    }
  }

  lemma RegisterMoves(c: Config, d: Db, a: Action, d': Db)
    requires RowsOk(c, d) && a.Register? && Step(c, d, a) == Some(d')
    ensures RowsMove(d, d') && Notified(d, d')
  {
    assert a.worker in d.workers ==> WorkerOk(c, d, a.worker);
  }

  lemma StepMoves(c: Config, d: Db, a: Action, d': Db)
    requires Inv(c, d) && Step(c, d, a) == Some(d')
    ensures RowsMove(d, d') && Notified(d, d')
  {
    match a
    case Tick(_) =>
    case Register(_, _, _, _) => RegisterMoves(c, d, a, d');
    case OfClaim(t, m) => InvHere(c, d, t); ClaimStepMoves(c, d, t, m, d');
    case OfBulk(t, m) => InvHere(c, d, t); BulkStepMoves(c, d, t, m, d');
    case OfRow(t, m) => InvHere(c, d, t); RowStepMoves(c, d, t, m, d');
    case OfWorker(t, m) => InvHere(c, d, t); WorkerStepMoves(c, d, t, m, d');
    case Abort(t) => InvHere(c, d, t); AbortIsQuiet(c, d, t, d'); QuietMoves(d, d', t);
  }

  lemma RunMoves(c: Config, run: seq<Db>, i: nat)
    requires Run(c, run) && i + 1 < |run|
    ensures RowsMove(run[i], run[i + 1]) && Notified(run[i], run[i + 1])
  {
    RunKeepsInv(c, run, i);
    assert Next(c, run[i], run[i + 1]);
    var a :| Step(c, run[i], a) == Some(run[i + 1]);
    StepMoves(c, run[i], a, run[i + 1]);
  }

  ghost predicate Moving(run: seq<Db>) {
    forall i :: 0 <= i < |run| - 1 ==> RowsMove(run[i], run[i + 1])
  }

  lemma RunIsMoving(c: Config, run: seq<Db>)
    requires Run(c, run)
    ensures Moving(run)
  {
    forall i | 0 <= i < |run| - 1
      ensures RowsMove(run[i], run[i + 1])
    {
      RunMoves(c, run, i);
    }
  }

  lemma {:induction false} SessionOverTime(run: seq<Db>, i: nat, j: nat, s: SessionId)
    requires Moving(run) && i <= j < |run| && s in run[i].sessions
    ensures s in run[j].sessions
    ensures Terminal(run[i].sessions[s]) ==> run[j].sessions[s] == run[i].sessions[s]
    ensures !run[i].sessions[s].status.Pending? ==> !run[j].sessions[s].status.Pending?
    ensures run[j].sessions[s].worker == run[i].sessions[s].worker
    decreases j
  {
    if i < j {
      SessionOverTime(run, i, j - 1, s);
      assert RowsMove(run[j - 1], run[j - 1 + 1]);
    }
  }

  lemma {:induction false} WorkerOverTime(run: seq<Db>, i: nat, j: nat, w: WorkerId)
    requires Moving(run) && i <= j < |run| && w in run[i].used
    requires w in run[i].workers ==> run[i].workers[w].status.Draining? || run[i].workers[w].status.ShuttingDown?
    ensures w in run[j].used
    ensures w in run[j].workers ==> w in run[i].workers
    ensures w in run[j].workers ==> run[j].workers[w].status.Draining? || run[j].workers[w].status.ShuttingDown?
    decreases j
  {
    if i < j {
      WorkerOverTime(run, i, j - 1, w);
      assert RowsMove(run[j - 1], run[j - 1 + 1]);
    }
  }

  /** A session that has ended keeps its row, unchanged, for the rest of the run, and
      one that was started never becomes pending, hence startable, again. */
  lemma SessionsOnlyMoveForward(c: Config, run: seq<Db>, i: nat, j: nat, s: SessionId)
    requires Run(c, run) && i <= j < |run| && s in run[i].sessions
    ensures s in run[j].sessions
    ensures Terminal(run[i].sessions[s]) ==> run[j].sessions[s] == run[i].sessions[s]
    ensures run[i].sessions[s].status != Pending ==> run[j].sessions[s].status != Pending
  {
    RunIsMoving(c, run);
    SessionOverTime(run, i, j, s);
  }

  /** A worker that drains or shuts down is never available or stalled again, in
      spite of heartbeats and stall sweeps; and a deleted row never returns. */
  lemma DrainIntentIsForever(c: Config, run: seq<Db>, i: nat, j: nat, w: WorkerId)
    requires Run(c, run) && i <= j < |run| && w in run[i].used
    requires w in run[i].workers ==> run[i].workers[w].status == Draining || run[i].workers[w].status == ShuttingDown
    ensures w in run[j].workers ==> w in run[i].workers
    ensures w in run[j].workers ==> run[j].workers[w].status == Draining || run[j].workers[w].status == ShuttingDown
  {
    RunIsMoving(c, run);
    WorkerOverTime(run, i, j, w);
  }
}
