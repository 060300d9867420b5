/** Row locks never form a wait cycle among claims, heartbeats, session expiry and
    single-row updates. */
module Deadlock {
  import opened Common
  import opened Tables
  import opened ControlPlane

  datatype Resource = WorkerRow(worker: WorkerId) | SessionRow(session: SessionId)

  /** The row lock a transaction asks for next. A claim never waits: it skips
      locked rows. */
  function Wants(tx: Tx): Option<Resource> {
    match tx
    case BeatOpen(_, b) => Some(WorkerRow(b.worker))
    case Bulk(_, _, todo, _) => if todo != [] then Some(SessionRow(todo[0])) else None
    case One(_, s, _, held) => if held then None else Some(SessionRow(s))
    case Sweep(_, _, order, _) => if order != [] then Some(WorkerRow(order[0])) else None
    case SetStatus(_, w, _, held) => if held then None else Some(WorkerRow(w))
    case _ => None
  }

  predicate Holds(tx: Tx, r: Resource) {
    match r
    case WorkerRow(w) => w in HeldW(tx)
    case SessionRow(s) => s in HeldS(tx)
  }

  predicate WaitsFor(d: Db, a: TxId, b: TxId) {
    a in d.txs && b in d.txs && a != b &&
    var want := Wants(d.txs[a]);
    want.Some? && Holds(d.txs[b], want.value)
  }

  /** Transactions that each wait for the next one, and the last for the first. */
  ghost predicate Cycle(d: Db, ts: seq<TxId>) {
    |ts| > 0 && WaitsFor(d, ts[|ts| - 1], ts[0]) && forall i :: 0 <= i < |ts| - 1 ==> WaitsFor(d, ts[i], ts[i + 1])
  }

  /** Bulk session locks are taken in ascending id order. */
  predicate InOrder(tx: Tx) {
    tx.Bulk? ==> Ascending(tx.todo) && forall s, i :: s in tx.locked && 0 <= i < |tx.todo| ==> s < tx.todo[i]
  }

  ghost predicate LockOrder(d: Db) {
    forall t :: t in d.txs ==> InOrder(d.txs[t])
  }

  /** Only transaction t changes, and it stays in order. */
  ghost predicate OrderStep(d: Db, d': Db, t: TxId) {
    (forall u :: u in d'.txs && u != t ==> u in d.txs && d'.txs[u] == d.txs[u]) &&
    (t in d'.txs ==> InOrder(d'.txs[t]))
  }

  lemma ClaimStepOrder(c: Config, d: Db, t: TxId, m: ClaimMove, d': Db)
    requires ClaimStep(c, d, t, m) == Some(d') && (t in d.txs ==> InOrder(d.txs[t]))
    ensures OrderStep(d, d', t)
  {
  }

  lemma BulkStepOrder(c: Config, d: Db, t: TxId, m: BulkMove, d': Db)
    requires BulkStep(c, d, t, m) == Some(d') && (t in d.txs ==> InOrder(d.txs[t]))
    ensures OrderStep(d, d', t)
  {
  }

  lemma RowStepOrder(c: Config, d: Db, t: TxId, m: RowMove, d': Db)
    requires RowStep(c, d, t, m) == Some(d')
    ensures OrderStep(d, d', t)
  {
  }

  lemma WorkerStepOrder(c: Config, d: Db, t: TxId, m: WorkerMove, d': Db)
    requires WorkerStep(c, d, t, m) == Some(d')
    ensures OrderStep(d, d', t)
  {
  }

  lemma StepKeepsLockOrder(c: Config, d: Db, a: Action, d': Db)
    requires LockOrder(d) && Step(c, d, a) == Some(d')
    ensures LockOrder(d')
  {
    match a
    case Tick(_) =>
    case Register(_, _, _, _) =>
    case OfClaim(t, m) => ClaimStepOrder(c, d, t, m, d');
    case OfBulk(t, m) => BulkStepOrder(c, d, t, m, d');
    case OfRow(t, m) => RowStepOrder(c, d, t, m, d');
    case OfWorker(t, m) => WorkerStepOrder(c, d, t, m, d');
    case Abort(t) => assert OrderStep(d, d', t);
  }

  lemma {:induction false} RunKeepsLockOrder(c: Config, run: seq<Db>, i: nat)
    requires Run(c, run) && i < |run|
    ensures LockOrder(run[i])
  {
    if i > 0 {
      RunKeepsLockOrder(c, run, i - 1);
      assert Next(c, run[i - 1], run[i - 1 + 1]);
      var a :| Step(c, run[i - 1], a) == Some(run[i]);
      StepKeepsLockOrder(c, run[i - 1], a, run[i]);
    }
  }

  /** The session a bulk transaction waits for is above every session it holds, and
      whoever holds a session and still waits is such a bulk transaction. */
  lemma HolderWaitsHigher(d: Db, a: TxId, b: TxId, e: TxId)
    requires LockOrder(d) && WaitsFor(d, a, b) && WaitsFor(d, b, e) && Wants(d.txs[a]).value.SessionRow?
    ensures d.txs[b].Bulk?
    ensures Wants(d.txs[b]).value.SessionRow?
    ensures Wants(d.txs[a]).value.session < Wants(d.txs[b]).value.session
  {
    assert InOrder(d.txs[b]);
  }

  function After(ts: seq<TxId>, k: nat): TxId
    requires k < |ts|
  {
    if k + 1 < |ts| then ts[k + 1] else ts[0]
  }

  lemma CycleEdge(d: Db, ts: seq<TxId>, k: nat)
    requires Cycle(d, ts) && k < |ts|
    ensures WaitsFor(d, ts[k], After(ts, k))
  {
    if k + 1 < |ts| {
      assert WaitsFor(d, ts[k], ts[k + 1]);
    }
  }

  lemma {:induction false} SessionsAscend(d: Db, ts: seq<TxId>, k: nat)
    requires LockOrder(d) && Cycle(d, ts) && k < |ts|
    requires WaitsFor(d, ts[0], After(ts, 0)) && Wants(d.txs[ts[0]]).value.SessionRow?
    ensures WaitsFor(d, ts[k], After(ts, k))
    ensures Wants(d.txs[ts[k]]).value.SessionRow?
    ensures Wants(d.txs[ts[0]]).value.session + k <= Wants(d.txs[ts[k]]).value.session
  {
    if k > 0 {
      SessionsAscend(d, ts, k - 1);
      CycleEdge(d, ts, k);
      HolderWaitsHigher(d, ts[k - 1], ts[k], After(ts, k));
    }
  }

  /** Rotating a cycle by one gives a cycle. */
  lemma Rotate(d: Db, ts: seq<TxId>)
    requires Cycle(d, ts)
    ensures Cycle(d, ts[1..] + [ts[0]])
  {
    var r := ts[1..] + [ts[0]];
    forall i | 0 <= i < |r| - 1
      ensures WaitsFor(d, r[i], r[i + 1])
    {
      CycleEdge(d, ts, i + 1);
    }
  }

  lemma {:induction false} RotateTo(d: Db, ts: seq<TxId>, k: nat)
    requires Cycle(d, ts) && k < |ts|
    ensures Cycle(d, ts[k..] + ts[..k])
  {
    if k == 0 {
      assert ts[0..] + ts[..0] == ts;
    } else {
      RotateTo(d, ts, k - 1);
      var r := ts[k - 1..] + ts[..k - 1];
      Rotate(d, r);
      assert r[1..] + [r[0]] == ts[k..] + ts[..k];
    }
  }

  /** The wait edges are the ones the steps obey: a transaction whose next row exists can
      lock it exactly when it waits for nobody. */
  lemma LocksUnlessWaiting(c: Config, d: Db, t: TxId)
    requires t in d.txs
    ensures match d.txs[t]
            case BeatOpen(_, b) =>
              b.worker in d.workers ==> (BulkStep(c, d, t, BeatLock).Some? <==> forall u :: !WaitsFor(d, t, u))
            case Bulk(_, _, todo, _) =>
              todo != [] ==> (BulkStep(c, d, t, BulkLock).Some? <==> forall u :: !WaitsFor(d, t, u))
            case One(_, s, _, held) =>
              s in d.sessions && !held ==> (RowStep(c, d, t, OneLock).Some? <==> forall u :: !WaitsFor(d, t, u))
            case Sweep(_, _, order, _) =>
              order != [] && order[0] in d.workers ==>
                (WorkerStep(c, d, t, SweepLock).Some? <==> forall u :: !WaitsFor(d, t, u))
            case SetStatus(_, w, _, held) =>
              w in d.workers && !held ==> (WorkerStep(c, d, t, StatusLock).Some? <==> forall u :: !WaitsFor(d, t, u))
            case _ => forall u :: !WaitsFor(d, t, u)
  {
    match d.txs[t]
    case BeatOpen(_, b) => FreeUnlessWaiting(d, t, WorkerRow(b.worker));
    case Bulk(_, _, todo, _) =>
      if todo != [] {
        FreeUnlessWaiting(d, t, SessionRow(todo[0]));
      }
    case One(_, s, _, held) =>
      if !held {
        FreeUnlessWaiting(d, t, SessionRow(s));
      }
    case Sweep(_, _, order, _) =>
      if order != [] {
        FreeUnlessWaiting(d, t, WorkerRow(order[0]));
      }
    case SetStatus(_, w, _, held) =>
      if !held {
        FreeUnlessWaiting(d, t, WorkerRow(w));
      }
    case _ =>
  }

  lemma FreeUnlessWaiting(d: Db, t: TxId, want: Resource)
    requires t in d.txs && Wants(d.txs[t]) == Some(want)
    ensures (match want
             case WorkerRow(w) => FreeW(d, t, w)
             case SessionRow(s) => FreeS(d, t, s)) <==> forall u :: !WaitsFor(d, t, u)
  {
    if u :| u in d.txs && u != t && Holds(d.txs[u], want) {
      assert WaitsFor(d, t, u);
    }
  }

  /** A claim never waits: whatever is locked, a claim that scans can go on. */
  lemma ClaimsNeverWait(c: Config, d: Db, t: TxId) returns (m: ClaimMove)
    requires t in d.txs && t in d.claims && d.txs[t].Claim? && d.txs[t].phase.Scanning?
    ensures ClaimStep(c, d, t, m).Some?
  {
    var rest, tx := d.txs[t].phase.rest, d.txs[t];
    m := if rest == [] then NoneLeft
         else if !FreeW(d, t, rest[0]) then SkipLocked
         else if rest[0] !in d.workers then SkipGone
         else if ClaimColumns(c, rest[0], d.workers[rest[0]], tx.request, tx.start) then Take
         else SkipStale;
  }

  /** Main result: whatever the length of a wait cycle, all its members are sweeps
      over worker rows, whose lock order the statements leave open. Claims,
      heartbeats, session expiry and single-row updates are never in one. */
  lemma OnlyWorkerSweepsCanDeadlock(c: Config, run: seq<Db>, i: nat, ts: seq<TxId>)
    requires Run(c, run) && i < |run| && Cycle(run[i], ts)
    ensures forall k :: 0 <= k < |ts| ==> ts[k] in run[i].txs && run[i].txs[ts[k]].Sweep?
  {
    var d := run[i];
    RunKeepsLockOrder(c, run, i);
    forall k | 0 <= k < |ts|
      ensures ts[k] in d.txs && d.txs[ts[k]].Sweep?
    {
      RotateTo(d, ts, k);
      var r := ts[k..] + ts[..k];
      CycleEdge(d, r, 0);
      if Wants(d.txs[r[0]]).value.SessionRow? {
        SessionsAscend(d, r, |r| - 1);
        HolderWaitsHigher(d, r[|r| - 1], r[0], After(r, 0));
        assert false;
      }
    }
  }
}
