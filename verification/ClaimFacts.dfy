/** What the claims of the database mean for the rows they touch, stated on the columns of
    the rows alone. */
module ClaimFacts {
  import opened Common
  import opened Tables
  import opened ControlPlane
  import opened Safety
  import opened Capacity
  import opened ClaimRuns

  /** The sessions that use a slot of the worker. */
  function Occupying(sessions: Sessions, w: WorkerId): set<SessionId> {
    set s | s in sessions && sessions[s].worker == w && sessions[s].status in {Pending, Running}
  }

  /** The worker is available, was heard from within the timeout and is below a positive
      lifetime limit. */
  predicate Live(c: Config, row: Worker, now: int) {
    row.status == Available && now < row.lastHeartbeat + c.workerTtl &&
    (c.maxLifetime == 0 || row.lifetime < c.maxLifetime)
  }

  /** The worker is what the request asks for. */
  predicate Fitting(w: WorkerId, row: Worker, r: Request) {
    row.browser == r.browser && r.prefix <= row.version && w !in r.excluded
  }

  predicate HasFreeSlot(d: Db, w: WorkerId)
    requires w in d.workers
  {
    |Occupying(d.sessions, w)| < d.workers[w].maxSlots
  }

  predicate Eligible(c: Config, d: Db, r: Request, w: WorkerId) {
    w in d.workers && Live(c, d.workers[w], d.now) && Fitting(w, d.workers[w], r) && HasFreeSlot(d, w)
  }

  lemma OccupyingIsActive(sessions: Sessions, w: WorkerId)
    ensures Occupying(sessions, w) == ActiveOn(sessions, w)
  {
  }

  lemma EligibleAreCandidates(c: Config, d: Db, r: Request, w: WorkerId)
    ensures Eligible(c, d, r, w) <==> w in Candidates(c, d.workers, d.sessions, r, d.now)
  {
    OccupyingIsActive(d.sessions, w);
  }

  // --------------------------------------------------------- any claim of a run

  lemma BulkKeepsClaims(c: Config, d: Db, u: TxId, m: BulkMove, d': Db)
    requires BulkStep(c, d, u, m) == Some(d')
    ensures d'.claims == d.claims
  {
  }

  lemma WorkerKeepsClaims(c: Config, d: Db, u: TxId, m: WorkerMove, d': Db)
    requires WorkerStep(c, d, u, m) == Some(d')
    ensures d'.claims == d.claims
  {
  }

  lemma OtherMovesKeepCommitted(c: Config, d: Db, u: TxId, m: ClaimMove, d': Db, t: TxId)
    requires ClaimStep(c, d, u, m) == Some(d') && t in d.claims && !(u == t && m == ClaimCommit)
    ensures t in d'.claims && d'.claims[t].committed == d.claims[t].committed
  {
  }

  /** Only the commit of claim t changes what was committed for it. */
  lemma OnlyCommitCommits(c: Config, d: Db, a: Action, d': Db, t: TxId)
    requires Step(c, d, a) == Some(d') && t in d.claims && a != OfClaim(t, ClaimCommit)
    ensures t in d'.claims && d'.claims[t].committed == d.claims[t].committed
  {
    match a
    case OfClaim(u, m) => OtherMovesKeepCommitted(c, d, u, m, d', t);
    case OfBulk(u, m) => BulkKeepsClaims(c, d, u, m, d');
    case OfRow(u, m) =>
    case OfWorker(u, m) => WorkerKeepsClaims(c, d, u, m, d');
    case _ =>
  }

  /** What a committing claim does: the worker it takes is live at the claim's start and
      fits the request, with a slot free at the commit; it gets one more lifetime session
      and a new pending session of its own kind, which expires unless it is started. */
  ghost predicate TakesLiveWorker(c: Config, d: Db, d': Db, t: TxId, w: WorkerId, s: SessionId) {
    t in d.txs && d.txs[t].Claim? && w in d.workers && s !in d.sessions && t in d.claims && t in d'.claims &&
    d'.claims[t].committed == Some(s) &&
    var row, start, r := d.workers[w], d.txs[t].start, d.claims[t].request;
    row.status == Available && row.lastHeartbeat > start - c.workerTtl &&
    (c.maxLifetime == 0 || row.lifetime < c.maxLifetime) &&
    row.browser == r.browser && r.prefix <= row.version && w !in r.excluded &&
    |Occupying(d.sessions, w)| < row.maxSlots &&
    d'.workers == d.workers[w := row.(lifetime := row.lifetime + 1)] &&
    d'.sessions ==
      d.sessions[s := Session(w, row.browser, row.version, Pending, None, Some(start + c.pendingTtl), start)]
  }

  lemma CommitTakesLiveWorker(c: Config, d: Db, t: TxId, d': Db) returns (w: WorkerId, s: SessionId)
    requires InvAt(c, d, t) && ClaimStep(c, d, t, ClaimCommit) == Some(d')
    ensures TakesLiveWorker(c, d, d', t, w, s)
  {
    w, s := d.txs[t].phase.worker, d.txs[t].phase.session;
    OccupyingIsActive(d.sessions, w);
  }

  /** Main result: in every run, whatever else happens between its select and its commit,
      a claim only ever commits a session on a live worker that fits and has room. */
  lemma ClaimsTakeLiveWorkers(c: Config, run: seq<Db>, i: nat, t: TxId) returns (w: WorkerId, s: SessionId)
    requires Run(c, run) && i + 1 < |run| && t in run[i].claims && t in run[i + 1].claims
    requires run[i + 1].claims[t].committed != run[i].claims[t].committed
    ensures TakesLiveWorker(c, run[i], run[i + 1], t, w, s)
  {
    RunKeepsInv(c, run, i);
    assert Next(c, run[i], run[i + 1]);
    var a :| Step(c, run[i], a) == Some(run[i + 1]);
    if a != OfClaim(t, ClaimCommit) {
      OnlyCommitCommits(c, run[i], a, run[i + 1], t);
    }
    InvHere(c, run[i], t);
    w, s := CommitTakesLiveWorker(c, run[i], t, run[i + 1]);
  }

  /** Once a claim has sent its commit it no longer reports an ordinary error: it ends by
      the commit or the server's rollback, and the caller learns of the commit or that it
      cannot tell. */
  lemma SentClaimsAreNeverErrors(c: Config, d: Db, a: Action, d': Db, t: TxId)
    requires Step(c, d, a) == Some(d') && t in d.txs && d.txs[t].Claim? && d.txs[t].phase.Committing? && t in d.claims
    ensures t in d'.claims
    ensures d'.claims[t].report == d.claims[t].report ||
            (d.claims[t].report == Waiting && d'.claims[t].report == Uncertain)
    ensures t in d'.txs ==> d'.txs[t] == d.txs[t]
    ensures t !in d'.txs ==> a == OfClaim(t, ClaimCommit) || a == OfClaim(t, ServerRollback)
  {
    match a
    case OfClaim(u, m) => SentClaimMoves(c, d, u, m, d', t);
    case OfBulk(u, m) => SentDuringBulk(c, d, u, m, d', t);
    case OfWorker(u, m) => SentDuringWorker(c, d, u, m, d', t);
    case _ =>
  }

  lemma SentClaimMoves(c: Config, d: Db, u: TxId, m: ClaimMove, d': Db, t: TxId)
    requires ClaimStep(c, d, u, m) == Some(d') && t in d.txs && t in d.claims
    requires d.txs[t].Claim? && d.txs[t].phase.Committing?
    ensures t in d'.claims
    ensures d'.claims[t].report == d.claims[t].report ||
            (d.claims[t].report == Waiting && d'.claims[t].report == Uncertain)
    ensures t in d'.txs ==> d'.txs[t] == d.txs[t]
    ensures t !in d'.txs ==> u == t && (m == ClaimCommit || m == ServerRollback)
  {
  }

  lemma SentDuringBulk(c: Config, d: Db, u: TxId, m: BulkMove, d': Db, t: TxId)
    requires BulkStep(c, d, u, m) == Some(d') && t in d.txs && d.txs[t].Claim?
    ensures t in d'.txs && d'.txs[t] == d.txs[t] && d'.claims == d.claims
  {
  }

  lemma SentDuringWorker(c: Config, d: Db, u: TxId, m: WorkerMove, d': Db, t: TxId)
    requires WorkerStep(c, d, u, m) == Some(d') && t in d.txs && d.txs[t].Claim?
    ensures t in d'.txs && d'.txs[t] == d.txs[t] && d'.claims == d.claims
  {
  }

  /** Why the report of claim t changes: it is refused with the worker that its recount
      found full, or with none after it has gone through all its candidates; it fails only
      by an abort; it is granted only what was committed for it; and it is uncertain only
      if its commit was under way or done. */
  ghost predicate AnswersFor(d: Db, a: Action, report: Report, t: TxId) {
    match report
    case Waiting => false
    case NoCapacity(Some(w)) =>
      t in d.txs && d.txs[t].Claim? && d.txs[t].phase == Holding(w) && w in d.workers &&
      |Occupying(d.sessions, w)| >= d.workers[w].maxSlots
    case NoCapacity(None) => t in d.txs && d.txs[t].Claim? && d.txs[t].phase == Scanning([])
    case Granted(s) => t in d.claims && d.claims[t].committed == Some(s)
    case Errored => a == Abort(t)
    case Uncertain =>
      a == OfClaim(t, Lost) && (t in d.txs ==> d.txs[t].Claim? && d.txs[t].phase.Committing?)
  }

  lemma ClaimAnswers(c: Config, d: Db, u: TxId, m: ClaimMove, d': Db, t: TxId)
    requires ClaimStep(c, d, u, m) == Some(d') && t in d.claims
    ensures t in d'.claims
    ensures d'.claims[t].report == d.claims[t].report ||
            AnswersFor(d, OfClaim(u, m), d'.claims[t].report, t)
  {
    if t in d.txs && d.txs[t].Claim? && d.txs[t].phase.Holding? {
      OccupyingIsActive(d.sessions, d.txs[t].phase.worker);
    }
  }

  lemma ReportsAnswer(c: Config, d: Db, a: Action, d': Db, t: TxId)
    requires Step(c, d, a) == Some(d') && t in d.claims
    ensures t in d'.claims
    ensures d'.claims[t].report == d.claims[t].report || AnswersFor(d, a, d'.claims[t].report, t)
  {
    match a
    case OfClaim(u, m) => ClaimAnswers(c, d, u, m, d', t);
    case OfBulk(u, m) => BulkKeepsClaims(c, d, u, m, d');
    case OfWorker(u, m) => WorkerKeepsClaims(c, d, u, m, d');
    case _ =>
  }

  /** The recount decides on what is committed now: a full worker is named in the refusal,
      and otherwise the claim goes on with it. */
  lemma RecountDecides(c: Config, d: Db, t: TxId, w: WorkerId, d': Db)
    requires t in d.txs && d.txs[t].Claim? && d.txs[t].phase == Holding(w) && t in d.claims
    requires ClaimStep(c, d, t, Recount) == Some(d')
    ensures w in d.workers && t in d'.claims && d'.workers == d.workers && d'.sessions == d.sessions
    ensures if |Occupying(d.sessions, w)| >= d.workers[w].maxSlots
            then d'.claims[t].report == NoCapacity(Some(w)) && t !in d'.txs
            else d'.claims == d.claims && t in d'.txs && d'.txs[t] == d.txs[t].(phase := Recounted(w))
  {
    OccupyingIsActive(d.sessions, w);
  }

  // -------------------------------------------------------------- lone claims

  /** The worker comes before the other: closer to its limit, or as close and less
      loaded, or equal in both with the smaller id. */
  predicate Preferred(d: Db, w: WorkerId, p: WorkerId)
    requires w in d.workers && p in d.workers
  {
    var lw, lp := d.workers[w].lifetime, d.workers[p].lifetime;
    var nw, np := |Occupying(d.sessions, w)|, |Occupying(d.sessions, p)|;
    lw > lp || (lw == lp && nw < np) || (lw == lp && nw == np && w <= p)
  }

  lemma ChoiceIsPreferred(c: Config, d: Db, r: Request)
    ensures match Choice(c, RowsOf(d), r, d.now)
            case None => forall w :: !Eligible(c, d, r, w)
            case Some(w) => Eligible(c, d, r, w) && forall p :: Eligible(c, d, r, p) ==> Preferred(d, w, p)
  {
    var cands := Candidates(c, d.workers, d.sessions, r, d.now);
    forall p
      ensures Eligible(c, d, r, p) <==> p in cands
    {
      EligibleAreCandidates(c, d, r, p);
    }
    if cands != {} {
      var w := First(d.workers, d.sessions, cands);
      OccupyingIsActive(d.sessions, w);
      forall p | Eligible(c, d, r, p)
        ensures Preferred(d, w, p)
      {
        OccupyingIsActive(d.sessions, p);
        assert p != w ==> Before(d.workers, d.sessions, w, p);
      }
    }
  }

  /** Main result: a claim with nothing else running is refused exactly when no worker is
      live, fits and has a free slot; otherwise it is granted a session on the one that
      comes before all others. */
  lemma LoneClaimAnswers(c: Config, d: Db, t: TxId, r: Request, states: seq<Db>, k: nat)
    requires d.txs == map[] && t !in d.claims && k < |states| && LoneRun(c, d, t, r, states)
    requires t in states[k].claims && states[k].claims[t].report != Waiting
    ensures states[k].claims[t].report == NoCapacity(None) <==> forall w :: !Eligible(c, d, r, w)
    ensures states[k].claims[t].report != NoCapacity(None) ==>
              states[k].claims[t].report.Granted? && states[k].claims[t].report.session in states[k].sessions &&
              var w := states[k].sessions[states[k].claims[t].report.session].worker;
              Eligible(c, d, r, w) && forall p :: Eligible(c, d, r, p) ==> Preferred(d, w, p)
  {
    LoneClaimIsDecided(c, d, t, r, states, k);
    ChoiceIsPreferred(c, d, r);
    if Choice(c, RowsOf(d), r, d.now).Some? {
      var w := Choice(c, RowsOf(d), r, d.now).value;
      var s :| s !in d.sessions && states[k] == Committed(c, d, t, r, w, s, Granted(s));
    }
  }

  // --------------------------------------------------------------- the report

  /** The report counts, for every live worker of the browser, the slots that no pending
      or running session uses, and nothing for any other worker. */
  lemma ReportCountsFreeSlots(c: Config, rows: Rows, browser: string, now: int, w: WorkerId)
    requires w in rows.workers
    ensures w in ReportedSlots(c, rows, browser, now)
    ensures var row, used := rows.workers[w], |Occupying(rows.sessions, w)|;
            ReportedSlots(c, rows, browser, now)[w] ==
            if row.status == Available && row.lastHeartbeat > now - c.workerTtl && row.browser == browser &&
               (c.maxLifetime == 0 || row.lifetime < c.maxLifetime) && used < row.maxSlots
            then row.maxSlots - used else 0
  {
    OccupyingIsActive(rows.sessions, w);
  }

  /** The room of a worker: its free slots, but no more than its lifetime limit leaves. */
  lemma RoomIsBounded(c: Config, rows: Rows, r: Request, now: int, w: WorkerId)
    requires w in rows.workers
    ensures w in Rooms(c, rows, r, now)
    ensures var row, used, room := rows.workers[w], |Occupying(rows.sessions, w)|, Rooms(c, rows, r, now)[w];
            (!(Live(c, row, now) && Fitting(w, row, r)) ==> room == 0) &&
            (Live(c, row, now) && Fitting(w, row, r) && used >= row.maxSlots ==> room == 0) &&
            (Live(c, row, now) && Fitting(w, row, r) && used < row.maxSlots ==>
              room <= row.maxSlots - used && (c.maxLifetime > 0 ==> room <= c.maxLifetime - row.lifetime) &&
              (room == row.maxSlots - used || (c.maxLifetime > 0 && room == c.maxLifetime - row.lifetime)))
  {
    OccupyingIsActive(rows.sessions, w);
  }
}
