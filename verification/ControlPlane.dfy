/** The database as a step system. Transactions of unboundedly many replicas
    interleave: each statement snapshot, each row lock and each commit is a step of
    its own, and a commit makes all of a transaction's writes visible at once.
    A row that is locked cannot change, so a transaction's writes are computed from
    the locked rows when it commits. */
module ControlPlane {
  import opened Common
  import opened Tables

  type TxId = nat

  /** Where claimOnce is. The row lock is held from Holding to Committing. */
  datatype ClaimPhase =
    | Begun
    | Scanning(rest: seq<WorkerId>)
    | Holding(worker: WorkerId)
    | Recounted(worker: WorkerId)
    | Inserted(worker: WorkerId, session: SessionId)
    | Bumped(worker: WorkerId, session: SessionId)
    | Committing(worker: WorkerId, session: SessionId)

  datatype Beat = Beat(worker: WorkerId, reported: set<SessionId>)
  datatype SweepKind = Stall | Delete

  /** An open transaction. Every kind carries its start time.
      A row that fails its recheck after the lock was granted stays locked until the
      transaction ends: `extra` and `locked` include such rows. */
  datatype Tx =
    | Claim(start: int, request: Request, extra: set<WorkerId>, phase: ClaimPhase)
    | BeatOpen(start: int, beat: Beat)
    | BeatHeld(start: int, beat: Beat)
    | Bulk(start: int, cause: Option<Beat>, todo: seq<SessionId>, locked: set<SessionId>)
    | One(start: int, session: SessionId, op: SessionOp, held: bool)
    | Sweep(start: int, kind: SweepKind, order: seq<WorkerId>, rows: set<WorkerId>)
    | SetStatus(start: int, worker: WorkerId, target: WorkerStatus, held: bool)

  /** What claimOnce returned to its caller, and what the database really did. */
  datatype Report = Waiting | Granted(session: SessionId) | NoCapacity(full: Option<WorkerId>) | Errored | Uncertain
  datatype ClaimRecord = ClaimRecord(request: Request, committed: Option<SessionId>, report: Report)

  /** `used` is every worker id ever registered; `notices` counts the committed
      notifications on the capacity channel. */
  datatype Db = Db(
    now: int,
    workers: Workers,
    sessions: Sessions,
    txs: map<TxId, Tx>,
    claims: map<TxId, ClaimRecord>,
    used: set<WorkerId>,
    notices: nat)

  function RowsOf(d: Db): Rows {
    Rows(d.workers, d.sessions)
  }

  // -------------------------------------------------------------- row locks

  predicate HoldsClaimed(p: ClaimPhase) {
    !p.Begun? && !p.Scanning?
  }

  function HeldW(tx: Tx): set<WorkerId> {
    match tx
    case Claim(_, _, extra, p) => if HoldsClaimed(p) then extra + {p.worker} else extra
    case BeatHeld(_, b) => {b.worker}
    case Bulk(_, cause, _, _) => if cause.Some? then {cause.value.worker} else {}
    case Sweep(_, _, _, rows) => rows
    case SetStatus(_, w, _, held) => if held then {w} else {}
    case _ => {}
  }

  function HeldS(tx: Tx): set<SessionId> {
    match tx
    case Bulk(_, _, _, locked) => locked
    case One(_, s, _, held) => if held then {s} else {}
    case _ => {}
  }

  predicate FreeW(d: Db, t: TxId, w: WorkerId) {
    forall u :: u in d.txs && u != t ==> w !in HeldW(d.txs[u])
  }

  predicate FreeS(d: Db, t: TxId, s: SessionId) {
    forall u :: u in d.txs && u != t ==> s !in HeldS(d.txs[u])
  }

  // ----------------------------------------------------------------- actions

  datatype ClaimMove =
    | ClaimBegin(request: Request)
    | Select
    | SkipLocked
    | SkipGone
    | SkipStale
    | Take
    | NoneLeft
    | Recount
    | Insert(session: SessionId)
    | Bump
    | Send
    | ClaimCommit
    | Reply
    | Lost
    | ServerRollback

  datatype BulkMove =
    | BeatBegin(beat: Beat)
    | BeatMissing
    | BeatLock
    | BeatSelect
    | ExpireBegin
    | BulkLock
    | BulkCommit

  datatype RowMove =
    | OneBegin(session: SessionId, op: SessionOp)
    | OneMissing
    | OneLock
    | OneCommit

  datatype WorkerMove =
    | SweepBegin(kind: SweepKind, order: seq<WorkerId>)
    | SweepGone
    | SweepLock
    | SweepCommit
    | StatusBegin(worker: WorkerId, target: WorkerStatus)
    | StatusMissing
    | StatusLock
    | StatusCommit

  datatype Action =
    | Tick(elapsed: nat)
    | Register(worker: WorkerId, browser: string, version: string, maxSlots: nat)
    | OfClaim(t: TxId, claim: ClaimMove)
    | OfBulk(t: TxId, bulk: BulkMove)
    | OfRow(t: TxId, row: RowMove)
    | OfWorker(t: TxId, move: WorkerMove)
    | Abort(t: TxId)

  function SetTx(d: Db, t: TxId, tx: Tx): Db {
    d.(txs := d.txs[t := tx])
  }

  function EndTx(d: Db, t: TxId): Db {
    d.(txs := d.txs - {t})
  }

  /** Heartbeats commit within the beat limit; every other transaction may be as old
      as it likes. */
  predicate InTime(c: Config, d: Db, start: int, cause: Option<Beat>) {
    cause.Some? ==> d.now - start <= c.beatLimit
  }

  /** One step of claimOnce, or None when the step is not possible now. */
  ghost function ClaimStep(c: Config, d: Db, t: TxId, m: ClaimMove): Option<Db> {
    if m.ClaimBegin? then
      if t in d.txs || t in d.claims then None
      else Some(SetTx(d, t, Claim(d.now, m.request, {}, Begun))
                .(claims := d.claims[t := ClaimRecord(m.request, None, Waiting)]))
    else if t !in d.claims then None
    else if m.Reply? then
      if t !in d.txs && d.claims[t].committed.Some? && d.claims[t].report == Waiting
      then Some(SetReport(d, t, Granted(d.claims[t].committed.value)))
      else None
    else if m.Lost? then
      if d.claims[t].report == Waiting &&
         (t !in d.txs || (d.txs[t].Claim? && d.txs[t].phase.Committing?))
      then Some(SetReport(d, t, Uncertain))
      else None
    else if t !in d.txs || !d.txs[t].Claim? then None
    else OpenClaimStep(c, d, t, m)
  }

  function SetReport(d: Db, t: TxId, r: Report): Db
    requires t in d.claims
  {
    d.(claims := d.claims[t := d.claims[t].(report := r)])
  }

  ghost function OpenClaimStep(c: Config, d: Db, t: TxId, m: ClaimMove): Option<Db>
    requires t in d.claims && t in d.txs && d.txs[t].Claim?
  {
    var tx := d.txs[t];
    match (m, tx.phase)
    case (Select, Begun) =>
      var cands := Candidates(c, d.workers, d.sessions, tx.request, tx.start);
      Some(SetTx(d, t, tx.(phase := Scanning(InClaimOrder(d.workers, d.sessions, cands)))))
    case (SkipLocked, Scanning(rest)) =>
      if rest != [] && !FreeW(d, t, rest[0])
      then Some(SetTx(d, t, tx.(phase := Scanning(rest[1..])))) else None
    case (SkipGone, Scanning(rest)) =>
      if rest != [] && rest[0] !in d.workers && FreeW(d, t, rest[0])
      then Some(SetTx(d, t, tx.(phase := Scanning(rest[1..])))) else None
    case (SkipStale, Scanning(rest)) =>
      if rest != [] && rest[0] in d.workers && FreeW(d, t, rest[0]) &&
         !ClaimColumns(c, rest[0], d.workers[rest[0]], tx.request, tx.start)
      then Some(SetTx(d, t, tx.(phase := Scanning(rest[1..]), extra := tx.extra + {rest[0]}))) else None
    case (Take, Scanning(rest)) =>
      if rest != [] && rest[0] in d.workers && FreeW(d, t, rest[0]) &&
         ClaimColumns(c, rest[0], d.workers[rest[0]], tx.request, tx.start)
      then Some(SetTx(d, t, tx.(phase := Holding(rest[0])))) else None
    case (NoneLeft, Scanning(rest)) =>
      if rest == [] then Some(SetReport(EndTx(d, t), t, NoCapacity(None))) else None
    case (Recount, Holding(w)) =>
      if w !in d.workers then None
      else if |ActiveOn(d.sessions, w)| >= d.workers[w].maxSlots
      then Some(SetReport(EndTx(d, t), t, NoCapacity(Some(w))))
      else Some(SetTx(d, t, tx.(phase := Recounted(w))))
    case (Insert(s), Recounted(w)) =>
      if s in d.sessions || Reserved(d, s) then None
      else Some(SetTx(d, t, tx.(phase := Inserted(w, s))))
    case (Bump, Inserted(w, s)) => Some(SetTx(d, t, tx.(phase := Bumped(w, s))))
    case (Send, Bumped(w, s)) => Some(SetTx(d, t, tx.(phase := Committing(w, s))))
    case (ClaimCommit, Committing(w, s)) =>
      if w in d.workers then Some(CommitClaim(c, d, t, tx, w, s)) else None
    case (ServerRollback, Committing(_, _)) => Some(EndTx(d, t))
    case _ => None
  }

  /** The session id of an uncommitted row: uuid.New() never repeats one. */
  ghost predicate Reserved(d: Db, s: SessionId) {
    exists u :: u in d.txs && OwnRow(d.txs[u]) == Some(s)
  }

  function OwnRow(tx: Tx): Option<SessionId> {
    if tx.Claim? && (tx.phase.Inserted? || tx.phase.Bumped? || tx.phase.Committing?)
    then Some(tx.phase.session) else None
  }

  function CommitClaim(c: Config, d: Db, t: TxId, tx: Tx, w: WorkerId, s: SessionId): Db
    requires w in d.workers && t in d.claims
  {
    EndTx(d, t).(
      workers := d.workers[w := d.workers[w].(lifetime := d.workers[w].lifetime + 1)],
      sessions := d.sessions[s := ClaimedRow(c, w, d.workers[w], tx.start)],
      claims := d.claims[t := d.claims[t].(committed := Some(s))])
  }

  /** The rows a bulk statement changes: expired by the rescuer, or failed by a
      heartbeat because the worker no longer reports them. */
  predicate BulkHits(c: Config, cause: Option<Beat>, sid: SessionId, s: Session, now: int) {
    match cause
    case None => Dead(c, s, now)
    case Some(b) => Unreported(c, sid, s, b.worker, b.reported, now)
  }

  function BulkTarget(c: Config, sessions: Sessions, cause: Option<Beat>, now: int): set<SessionId> {
    set sid | sid in sessions && BulkHits(c, cause, sid, sessions[sid], now)
  }

  function AfterBulk(c: Config, sessions: Sessions, cause: Option<Beat>, rows: set<SessionId>, now: int): Sessions {
    map sid | sid in sessions ::
      if sid in rows && BulkHits(c, cause, sid, sessions[sid], now)
      then sessions[sid].(status := if cause.Some? then Failed else Expired)
      else sessions[sid]
  }

  ghost function BulkStep(c: Config, d: Db, t: TxId, m: BulkMove): Option<Db> {
    if m.BeatBegin? || m.ExpireBegin? then
      if t in d.txs || t in d.claims then None
      else if m.BeatBegin? then Some(SetTx(d, t, BeatOpen(d.now, m.beat)))
      else Some(SetTx(d, t, Bulk(d.now, None, Sorted(BulkTarget(c, d.sessions, None, d.now)), {})))
    else if t !in d.txs then None
    else
      var tx := d.txs[t];
      match (m, tx)
      case (BeatMissing, BeatOpen(_, b)) =>
        if b.worker !in d.workers && FreeW(d, t, b.worker) then Some(EndTx(d, t)) else None
      case (BeatLock, BeatOpen(start, b)) =>
        if b.worker in d.workers && FreeW(d, t, b.worker) then Some(SetTx(d, t, BeatHeld(start, b))) else None
      case (BeatSelect, BeatHeld(start, b)) =>
        Some(SetTx(d, t, Bulk(start, Some(b), Sorted(BulkTarget(c, d.sessions, Some(b), start)), {})))
      case (BulkLock, Bulk(_, _, todo, locked)) =>
        if todo != [] && FreeS(d, t, todo[0])
        then Some(SetTx(d, t, tx.(todo := todo[1..], locked := locked + {todo[0]}))) else None
      case (BulkCommit, Bulk(start, cause, todo, locked)) =>
        if todo == [] && InTime(c, d, start, cause) && (cause.Some? ==> cause.value.worker in d.workers)
        then Some(CommitBulk(c, d, t, start, cause, locked)) else None
      case _ => None
  }

  function CommitBulk(c: Config, d: Db, t: TxId, start: int, cause: Option<Beat>, locked: set<SessionId>): Db
    requires cause.Some? ==> cause.value.worker in d.workers
  {
    EndTx(d, t).(
      workers := if cause.None? then d.workers
                 else d.workers[cause.value.worker := BeatRow(c, d.workers[cause.value.worker], start)],
      sessions := AfterBulk(c, d.sessions, cause, locked, start),
      notices := d.notices + if locked * BulkTarget(c, d.sessions, cause, start) != {} then 1 else 0)
  }

  /** The autocommit updates of one session row. */
  ghost function RowStep(c: Config, d: Db, t: TxId, m: RowMove): Option<Db> {
    if m.OneBegin? then
      if t in d.txs || t in d.claims then None
      else Some(SetTx(d, t, One(d.now, m.session, m.op, false)))
    else if t !in d.txs || !d.txs[t].One? then None
    else
      var tx := d.txs[t];
      match m
      case OneMissing => if tx.session !in d.sessions then Some(EndTx(d, t)) else None
      case OneLock =>
        if tx.session in d.sessions && !tx.held && FreeS(d, t, tx.session)
        then Some(SetTx(d, t, One(tx.start, tx.session, tx.op, true))) else None
      case OneCommit =>
        if tx.held && tx.session in d.sessions
        then Some(CommitOne(d, t, tx.session, tx.op, tx.start)) else None
  }

  function CommitOne(d: Db, t: TxId, sid: SessionId, op: SessionOp, now: int): Db
    requires sid in d.sessions
  {
    if OpApplies(op, d.sessions[sid])
    then EndTx(d, t).(sessions := d.sessions[sid := OpRow(op, d.sessions[sid], now)],
                      notices := d.notices + if OpNotifies(op) then 1 else 0)
    else EndTx(d, t)
  }

  /** What a sweep's snapshot selects. Only DeleteDeadWorkers looks at sessions. */
  predicate SweepHits(c: Config, kind: SweepKind, w: Worker, now: int) {
    match kind
    case Stall => Silent(c, w, now)
    case Delete => DeadColumns(c, w, now)
  }

  function SweepTarget(c: Config, kind: SweepKind, workers: Workers, sessions: Sessions, now: int): set<WorkerId> {
    set w | w in workers && SweepHits(c, kind, workers[w], now) &&
            (kind == Delete ==> ActiveOn(sessions, w) == {})
  }

  ghost predicate Lists(order: seq<WorkerId>, s: set<WorkerId>) {
    (forall w :: w in order <==> w in s) && forall i, j :: 0 <= i < j < |order| ==> order[i] != order[j]
  }

  ghost function WorkerStep(c: Config, d: Db, t: TxId, m: WorkerMove): Option<Db> {
    if m.SweepBegin? || m.StatusBegin? then
      if t in d.txs || t in d.claims then None
      else if m.StatusBegin? then Some(SetTx(d, t, SetStatus(d.now, m.worker, m.target, false)))
      else if Lists(m.order, SweepTarget(c, m.kind, d.workers, d.sessions, d.now))
      then Some(SetTx(d, t, Sweep(d.now, m.kind, m.order, {}))) else None
    else if t !in d.txs then None
    else
      var tx := d.txs[t];
      match (m, tx)
      case (SweepGone, Sweep(_, _, order, _)) =>
        if order != [] && order[0] !in d.workers && FreeW(d, t, order[0])
        then Some(SetTx(d, t, tx.(order := order[1..]))) else None
      case (SweepLock, Sweep(_, _, order, rows)) =>
        if order != [] && order[0] in d.workers && FreeW(d, t, order[0])
        then Some(SetTx(d, t, tx.(order := order[1..], rows := rows + {order[0]}))) else None
      case (SweepCommit, Sweep(start, kind, order, rows)) =>
        if order == [] then Some(CommitSweep(c, d, t, start, kind, rows)) else None
      case (StatusMissing, SetStatus(_, w, _, held)) =>
        if !held && w !in d.workers && FreeW(d, t, w) then Some(EndTx(d, t)) else None
      case (StatusLock, SetStatus(_, w, _, held)) =>
        if !held && w in d.workers && FreeW(d, t, w)
        then Some(SetTx(d, t, SetStatus(tx.start, w, tx.target, true))) else None
      case (StatusCommit, SetStatus(_, w, target, held)) =>
        if held && w in d.workers then Some(CommitStatus(d, t, w, target)) else None
      case _ => None
  }

  /** The row columns are tested on the row as locked; the NOT EXISTS part of the
      delete was settled by the snapshot and is not tested again. */
  function CommitSweep(c: Config, d: Db, t: TxId, start: int, kind: SweepKind, rows: set<WorkerId>): Db {
    var hit := set w | w in rows && w in d.workers && SweepHits(c, kind, d.workers[w], start);
    EndTx(d, t).(workers := match kind
                            case Stall =>
                              map w | w in d.workers ::
                                if w in hit then d.workers[w].(status := Stalled) else d.workers[w]
                            case Delete => d.workers - hit)
  }

  function CommitStatus(d: Db, t: TxId, w: WorkerId, target: WorkerStatus): Db
    requires w in d.workers
  {
    if StatusAllowed(d.workers[w].status, target)
    then EndTx(d, t).(workers := d.workers[w := d.workers[w].(status := target)])
    else EndTx(d, t)
  }

  ghost function Step(c: Config, d: Db, a: Action): Option<Db> {
    match a
    case Tick(elapsed) => Some(d.(now := d.now + elapsed))
    case Register(w, browser, version, maxSlots) =>
      if w in d.used || maxSlots == 0 then None
      else Some(d.(workers := d.workers[w := Worker(browser, version, maxSlots, Available, d.now, 0)],
                   used := d.used + {w},
                   notices := d.notices + 1))
    case OfClaim(t, m) => ClaimStep(c, d, t, m)
    case OfBulk(t, m) => BulkStep(c, d, t, m)
    case OfRow(t, m) => RowStep(c, d, t, m)
    case OfWorker(t, m) => WorkerStep(c, d, t, m)
    case Abort(t) =>
      if t !in d.txs then None
      else if !d.txs[t].Claim? then Some(EndTx(d, t))
      else if d.txs[t].phase.Committing? || t !in d.claims then None
      else Some(SetReport(EndTx(d, t), t, Errored))
  }

  ghost predicate Next(c: Config, d: Db, d': Db) {
    exists a :: Step(c, d, a) == Some(d')
  }

  predicate Init(d: Db) {
    d.workers == map[] && d.sessions == map[] && d.txs == map[] && d.claims == map[] && d.used == {}
  }

  /** A run: an initial state and any finite number of steps. */
  ghost predicate Run(c: Config, states: seq<Db>) {
    |states| > 0 && Init(states[0]) && forall i :: 0 <= i < |states| - 1 ==> Next(c, states[i], states[i + 1])
  }

  ghost predicate Reachable(c: Config, d: Db) {
    exists run :: Run(c, run) && run[|run| - 1] == d
  }

  lemma StartIsReachable(c: Config, d: Db)
    requires Init(d)
    ensures Reachable(c, d)
  {
    assert Run(c, [d]) && [d][|[d]| - 1] == d;
  }

  lemma StepStaysReachable(c: Config, d: Db, a: Action, d': Db)
    requires Reachable(c, d) && Step(c, d, a) == Some(d')
    ensures Reachable(c, d')
  {
    var run :| Run(c, run) && run[|run| - 1] == d;
    var longer := run + [d'];
    assert Next(c, d, d');
    forall i | 0 <= i < |longer| - 1
      ensures Next(c, longer[i], longer[i + 1])
    {
      if i < |run| - 1 {
        assert Next(c, run[i], run[i + 1]);
      }
    }
    assert Run(c, longer) && longer[|longer| - 1] == d';
  }

  /** Any finite number of steps from one given state to another. */
  ghost predicate Path(c: Config, path: seq<Db>, d: Db, e: Db) {
    |path| > 0 && path[0] == d && path[|path| - 1] == e &&
    forall i :: 0 <= i < |path| - 1 ==> Next(c, path[i], path[i + 1])
  }

  ghost predicate Leads(c: Config, d: Db, e: Db) {
    exists path :: Path(c, path, d, e)
  }

  lemma LeadsNowhere(c: Config, d: Db)
    ensures Leads(c, d, d)
  {
    assert Path(c, [d], d, d);
  }

  lemma LeadsOn(c: Config, d: Db, e: Db, a: Action, e': Db)
    requires Leads(c, d, e) && Step(c, e, a) == Some(e')
    ensures Leads(c, d, e')
  {
    assert Next(c, e, e');
    assert Path(c, [e, e'], e, e');
    LeadsFurther(c, d, e, e');
  }

  lemma LeadsFurther(c: Config, d: Db, e: Db, e': Db)
    requires Leads(c, d, e) && Leads(c, e, e')
    ensures Leads(c, d, e')
  {
    var p :| Path(c, p, d, e);
    var q :| Path(c, q, e, e');
    var pq := p + q[1..];
    forall i | 0 <= i < |pq| - 1
      ensures Next(c, pq[i], pq[i + 1])
    {
      if i < |p| - 1 {
        assert Next(c, p[i], p[i + 1]);
      } else {
        assert pq[i] == q[i - (|p| - 1)];
        assert Next(c, q[i - (|p| - 1)], q[i - (|p| - 1) + 1]);
      }
    }
    assert Path(c, pq, d, e');
  }

  lemma LeadsToReachable(c: Config, d: Db, e: Db)
    requires Reachable(c, d) && Leads(c, d, e)
    ensures Reachable(c, e)
  {
    var run :| Run(c, run) && run[|run| - 1] == d;
    assert Path(c, run, run[0], d);
    LeadsFurther(c, run[0], d, e);
    var path :| Path(c, path, run[0], e);
    assert Run(c, path);
  }
}
