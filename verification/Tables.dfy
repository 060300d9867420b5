/** The workers and sessions tables: their rows, and the statements that read or
    change one row. Statements over many rows are built from these in the modules
    that need them. `now` is always the start time of the enclosing transaction,
    because that is what `now()` means in PostgreSQL. */
module Tables {
  import opened Common

  type WorkerId = nat
  type SessionId = nat

  datatype WorkerStatus = Available | Draining | Stalled | ShuttingDown
  datatype SessionStatus = Pending | Running | Completed | Failed | Expired

  datatype Worker = Worker(
    browser: string,
    version: string,
    maxSlots: nat,
    status: WorkerStatus,
    lastHeartbeat: int,
    lifetime: nat)

  datatype Session = Session(
    worker: WorkerId,
    browser: string,
    version: string,
    status: SessionStatus,
    startedAt: Option<int>,
    expiresAt: Option<int>,
    lastHeartbeat: int)

  type Workers = map<WorkerId, Worker>
  type Sessions = map<SessionId, Session>

  datatype Rows = Rows(workers: Workers, sessions: Sessions)

  datatype Config = Config(
    workerTtl: nat,
    stalledTtl: nat,
    sessionTtl: nat,
    pendingTtl: nat,
    grace: nat,
    maxLifetime: nat,
    beatLimit: nat)

  datatype Request = Request(browser: string, prefix: string, excluded: set<WorkerId>)

  // ---------------------------------------------------------------- sessions

  predicate Active(s: Session) {
    s.status == Pending || s.status == Running
  }

  predicate Terminal(s: Session) {
    !Active(s)
  }

  /** The five single-session updates; each is guarded by the status it expects. */
  datatype SessionOp = Start | Complete | Fail | Terminate | Renew

  predicate OpApplies(op: SessionOp, s: Session) {
    match op
    case Start => s.status == Pending
    case Complete => s.status == Running
    case Fail => Active(s)
    case Terminate => Active(s)
    case Renew => s.status == Running
  }

  function OpRow(op: SessionOp, s: Session, now: int): Session {
    match op
    case Start => s.(status := Running, startedAt := Some(now), lastHeartbeat := now, expiresAt := None)
    case Complete => s.(status := Completed)
    case Fail => s.(status := Failed)
    case Terminate => s.(status := Completed)
    case Renew => s.(lastHeartbeat := now)
  }

  /** Complete, Fail and Terminate end the session and notify in the same statement. */
  predicate OpNotifies(op: SessionOp) {
    op == Complete || op == Fail || op == Terminate
  }

  /** The rows ExpireDeadSessions picks. */
  predicate Dead(c: Config, s: Session, now: int) {
    Active(s) &&
    (s.lastHeartbeat < now - c.sessionTtl || (s.expiresAt.Some? && s.expiresAt.value < now))
  }

  /** The rows FailUnreportedWorkerSessions picks. */
  predicate Unreported(c: Config, sid: SessionId, s: Session, w: WorkerId, reported: set<SessionId>, now: int) {
    s.worker == w && s.status == Running && s.startedAt.Some? &&
    s.startedAt.value < now - c.grace && sid !in reported
  }

  /** The pending or running sessions of one worker. */
  function ActiveOn(sessions: Sessions, w: WorkerId): set<SessionId> {
    set sid | sid in sessions && sessions[sid].worker == w && Active(sessions[sid])
  }

  /** Every session row ever committed for one worker: rows are never deleted. */
  function EverOn(sessions: Sessions, w: WorkerId): set<SessionId> {
    set sid | sid in sessions && sessions[sid].worker == w
  }

  // ----------------------------------------------------------------- workers

  predicate StatusAllowed(current: WorkerStatus, target: WorkerStatus) {
    match target
    case Draining => current == Available || current == Draining
    case ShuttingDown => true
    case _ => false
  }

  /** UpdateWorkerHeartbeat followed by the scheduler's lifetime drain. */
  function BeatRow(c: Config, w: Worker, now: int): Worker {
    var revived := w.(lastHeartbeat := now, status := if w.status == Stalled then Available else w.status);
    if c.maxLifetime > 0 && revived.lifetime >= c.maxLifetime && revived.status == Available
    then revived.(status := Draining)
    else revived
  }

  predicate Silent(c: Config, w: Worker, now: int) {
    w.status == Available && w.lastHeartbeat < now - c.workerTtl
  }

  /** The row columns DeleteDeadWorkers tests; its NOT EXISTS part is separate. */
  predicate DeadColumns(c: Config, w: Worker, now: int) {
    match w.status
    case ShuttingDown => w.lastHeartbeat < now - c.workerTtl
    case Stalled => w.lastHeartbeat < now - c.stalledTtl
    case Draining => w.lastHeartbeat < now - c.stalledTtl
    case Available => false
  }

  predicate StartsWith(s: string, prefix: string) {
    prefix <= s
  }

  /** Available, fresh and below the lifetime limit: the part of eligibility that
      the claim query and the capacity report share. */
  predicate Serving(c: Config, w: Worker, now: int) {
    w.status == Available && w.lastHeartbeat > now - c.workerTtl &&
    (c.maxLifetime == 0 || w.lifetime < c.maxLifetime)
  }

  /** The row columns SelectClaimableWorker tests, also when it rechecks a row
      that changed before the lock was granted. */
  predicate ClaimColumns(c: Config, id: WorkerId, w: Worker, r: Request, now: int) {
    Serving(c, w, now) && w.browser == r.browser && StartsWith(w.version, r.prefix) && id !in r.excluded
  }

  /** The candidates of SelectClaimableWorker on one snapshot. */
  function Candidates(c: Config, workers: Workers, sessions: Sessions, r: Request, now: int): set<WorkerId> {
    set w | w in workers && ClaimColumns(c, w, workers[w], r, now) &&
            |ActiveOn(sessions, w)| < workers[w].maxSlots
  }

  /** ORDER BY lifetime_sessions DESC, active_count ASC, id. */
  predicate Before(workers: Workers, sessions: Sessions, a: WorkerId, b: WorkerId)
    requires a in workers && b in workers
  {
    var la, lb := workers[a].lifetime, workers[b].lifetime;
    var na, nb := |ActiveOn(sessions, a)|, |ActiveOn(sessions, b)|;
    la > lb || (la == lb && (na < nb || (na == nb && a < b)))
  }

  ghost predicate IsFirst(workers: Workers, sessions: Sessions, s: set<WorkerId>, f: WorkerId)
    requires s <= workers.Keys
  {
    f in s && forall w :: w in s && w != f ==> Before(workers, sessions, f, w)
  }

  lemma {:induction false} FirstExists(workers: Workers, sessions: Sessions, s: set<WorkerId>)
    requires s <= workers.Keys && s != {}
    ensures exists f :: IsFirst(workers, sessions, s, f)
  {
    var x :| x in s;
    if s == {x} {
      assert IsFirst(workers, sessions, s, x);
    } else {
      FirstExists(workers, sessions, s - {x});
      var f :| IsFirst(workers, sessions, s - {x}, f);
      if Before(workers, sessions, x, f) {
        forall w | w in s && w != x
          ensures Before(workers, sessions, x, w)
        {
          assert w in s - {x};
        }
        assert IsFirst(workers, sessions, s, x);
      } else {
        assert IsFirst(workers, sessions, s, f);
      }
    }
  }

  ghost function First(workers: Workers, sessions: Sessions, s: set<WorkerId>): (f: WorkerId)
    requires s <= workers.Keys && s != {}
    ensures IsFirst(workers, sessions, s, f)
    ensures forall w :: IsFirst(workers, sessions, s, w) ==> w == f
  {
    FirstExists(workers, sessions, s);
    var f :| IsFirst(workers, sessions, s, f);
    f
  }

  /** The candidates in the order in which the claim query tries to lock them. */
  ghost function InClaimOrder(workers: Workers, sessions: Sessions, s: set<WorkerId>): (order: seq<WorkerId>)
    requires s <= workers.Keys
    ensures |order| == |s| && forall w :: w in order <==> w in s
    ensures s != {} ==> order != [] && IsFirst(workers, sessions, s, order[0])
    decreases |s|
  {
    if s == {} then []
    else
      var f := First(workers, sessions, s);
      [f] + InClaimOrder(workers, sessions, s - {f})
  }

  /** The row InsertClaimedSession writes. */
  function ClaimedRow(c: Config, id: WorkerId, w: Worker, now: int): Session {
    Session(id, w.browser, w.version, Pending, None, Some(now + c.pendingTtl), now)
  }
}
