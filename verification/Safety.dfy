/** What every step of the database keeps: exclusive row locks, the capacity and
    lifetime bounds, and an honest report of every claim. */
module Safety {
  import opened Common
  import opened Tables
  import opened ControlPlane

  /** No row is locked by two transactions. */
  ghost predicate Exclusive(d: Db) {
    (forall t, u, w :: t in d.txs && u in d.txs && t != u && w in HeldW(d.txs[t]) ==> w !in HeldW(d.txs[u])) &&
    (forall t, u, s :: t in d.txs && u in d.txs && t != u && s in HeldS(d.txs[t]) ==> s !in HeldS(d.txs[u]))
  }

  /** The promises about one worker row. */
  predicate WorkerOk(c: Config, d: Db, w: WorkerId)
    requires w in d.workers
  {
    w in d.used &&
    d.workers[w].maxSlots > 0 &&
    |ActiveOn(d.sessions, w)| <= d.workers[w].maxSlots &&
    d.workers[w].lifetime == |EverOn(d.sessions, w)| &&
    (c.maxLifetime > 0 ==> d.workers[w].lifetime <= c.maxLifetime)
  }

  predicate ClaimOk(c: Config, d: Db, tx: Tx)
    requires tx.Claim?
  {
    HoldsClaimed(tx.phase) ==>
      var w := tx.phase.worker;
      w in d.workers && ClaimColumns(c, w, d.workers[w], tx.request, tx.start) &&
      (!tx.phase.Holding? ==> |ActiveOn(d.sessions, w)| < d.workers[w].maxSlots)
  }

  ghost predicate TxOk(c: Config, d: Db, t: TxId)
    requires t in d.txs
  {
    var tx := d.txs[t];
    HeldW(tx) <= d.workers.Keys && HeldS(tx) <= d.sessions.Keys &&
    (tx.Bulk? ==> forall s :: s in tx.todo ==> s in d.sessions) &&
    (tx.Claim? <==> t in d.claims) &&
    (tx.Claim? ==> ClaimOk(c, d, tx) && d.claims[t].request == tx.request) &&
    (OwnRow(tx).Some? ==>
      OwnRow(tx).value !in d.sessions &&
      forall u :: u in d.txs && u != t ==> OwnRow(d.txs[u]) != OwnRow(tx))
  }

  /** The session is of the kind that was asked for. */
  predicate Suits(s: Session, r: Request) {
    s.browser == r.browser && StartsWith(s.version, r.prefix) && s.worker !in r.excluded
  }

  /** The report of a claim agrees with what was committed for it. */
  predicate RecordOk(d: Db, t: TxId)
    requires t in d.claims
  {
    var r := d.claims[t];
    (r.committed.Some? ==>
      t !in d.txs && r.committed.value in d.sessions && Suits(d.sessions[r.committed.value], r.request)) &&
    (t in d.txs ==>
      (r.report == Waiting || (r.report == Uncertain && d.txs[t].Claim? && d.txs[t].phase.Committing?))) &&
    match r.report
    case Granted(s) => r.committed == Some(s)
    case NoCapacity(full) => r.committed == None && (full.Some? ==> full.value !in r.request.excluded)
    case Errored => r.committed == None
    case _ => true
  }

  ghost predicate RowsOk(c: Config, d: Db) {
    (forall w :: w in d.workers ==> WorkerOk(c, d, w)) &&
    (forall s :: s in d.sessions ==> d.sessions[s].worker in d.used)
  }

  ghost predicate TxsOk(c: Config, d: Db) {
    forall t :: t in d.txs ==> TxOk(c, d, t)
  }

  ghost predicate RecordsOk(d: Db) {
    (forall t :: t in d.claims ==> RecordOk(d, t)) &&
    (forall t, u :: t in d.claims && u in d.claims && t != u && d.claims[t].committed.Some? ==>
      d.claims[t].committed != d.claims[u].committed)
  }

  ghost predicate Inv(c: Config, d: Db) {
    Exclusive(d) && RowsOk(c, d) && TxsOk(c, d) && RecordsOk(d)
  }

  // ------------------------------------------------- steps that change no row

  /** The tables stay as they are and at most transaction t changes. */
  ghost predicate OnlyTx(d: Db, d': Db, t: TxId) {
    d'.workers == d.workers && d'.sessions == d.sessions && d'.used == d.used && d'.notices == d.notices &&
    (forall u :: u != t ==> (u in d'.txs <==> u in d.txs)) &&
    (forall u :: u != t && u in d.txs ==> d'.txs[u] == d.txs[u]) &&
    (forall u :: u != t ==> (u in d'.claims <==> u in d.claims)) &&
    (forall u :: u != t && u in d.claims ==> d'.claims[u] == d.claims[u])
  }

  /** What a quiet step must show about its own transaction. */
  ghost predicate OwnOk(c: Config, d: Db, d': Db, t: TxId) {
    (t in d'.txs ==>
      TxOk(c, d', t) &&
      (forall w :: w in HeldW(d'.txs[t]) ==> (t in d.txs && w in HeldW(d.txs[t])) || FreeW(d, t, w)) &&
      (forall s :: s in HeldS(d'.txs[t]) ==> (t in d.txs && s in HeldS(d.txs[t])) || FreeS(d, t, s))) &&
    (t in d'.claims ==> RecordOk(d', t) && (d'.claims[t].committed.Some? ==>
      t in d.claims && d'.claims[t].committed == d.claims[t].committed))
  }

  lemma QuietStepKeepsExclusive(c: Config, d: Db, d': Db, t: TxId)
    requires Exclusive(d) && OnlyTx(d, d', t) && OwnOk(c, d, d', t)
    ensures Exclusive(d')
  {
    forall u, v, w | u in d'.txs && v in d'.txs && u != v && w in HeldW(d'.txs[u])
      ensures w !in HeldW(d'.txs[v])
    {
      var mine := if u == t then u else v;
      assert mine == t || d'.txs[mine] == d.txs[mine];
    }
    forall u, v, s | u in d'.txs && v in d'.txs && u != v && s in HeldS(d'.txs[u])
      ensures s !in HeldS(d'.txs[v])
    {
      var mine := if u == t then u else v;
      assert mine == t || d'.txs[mine] == d.txs[mine];
    }
  }

  lemma QuietStepKeepsTxs(c: Config, d: Db, d': Db, t: TxId)
    requires TxsOk(c, d) && OnlyTx(d, d', t) && OwnOk(c, d, d', t)
    ensures TxsOk(c, d')
  {
    forall u | u in d'.txs
      ensures TxOk(c, d', u)
    {
      if u != t {
        assert TxOk(c, d, u);
      }
    }
  }

  lemma QuietStepKeepsRecords(c: Config, d: Db, d': Db, t: TxId)
    requires RecordsOk(d) && OnlyTx(d, d', t) && OwnOk(c, d, d', t)
    ensures RecordsOk(d')
  {
    forall u | u in d'.claims
      ensures RecordOk(d', u)
    {
      if u != t {
        assert RecordOk(d, u);
      }
    }
  }

  lemma QuietStepKeepsInv(c: Config, d: Db, d': Db, t: TxId)
    requires Inv(c, d) && OnlyTx(d, d', t) && OwnOk(c, d, d', t)
    ensures Inv(c, d')
  {
    QuietStepKeepsExclusive(c, d, d', t);
    QuietStepKeepsTxs(c, d, d', t);
    QuietStepKeepsRecords(c, d, d', t);
    forall w | w in d'.workers
      ensures WorkerOk(c, d', w)
    {
      assert WorkerOk(c, d, w);
    }
  }

  // ---------------------------------------------------- steps that change rows

  predicate SameOrigin(a: Session, b: Session) {
    a.worker == b.worker && a.browser == b.browser && a.version == b.version
  }

  /** Sessions only end, and worker rows other than those in `own` stay. */
  ghost predicate Benign(d: Db, d': Db, own: set<WorkerId>) {
    d'.sessions.Keys == d.sessions.Keys && d'.used == d.used && d'.claims == d.claims &&
    (forall s :: s in d.sessions ==> SameOrigin(d.sessions[s], d'.sessions[s])) &&
    (forall s :: s in d.sessions && Active(d'.sessions[s]) ==> Active(d.sessions[s])) &&
    d'.workers.Keys <= d.workers.Keys &&
    (forall w :: w in d'.workers ==> d'.workers[w].maxSlots == d.workers[w].maxSlots) &&
    (forall w :: w in d'.workers ==> d'.workers[w].lifetime == d.workers[w].lifetime) &&
    (forall w :: w in d.workers && w !in own ==> w in d'.workers && d'.workers[w] == d.workers[w])
  }

  lemma BenignShrinks(d: Db, d': Db, own: set<WorkerId>, w: WorkerId)
    requires Benign(d, d', own)
    ensures ActiveOn(d'.sessions, w) <= ActiveOn(d.sessions, w)
    ensures |ActiveOn(d'.sessions, w)| <= |ActiveOn(d.sessions, w)|
    ensures EverOn(d'.sessions, w) == EverOn(d.sessions, w)
  {
    SubsetSize(ActiveOn(d'.sessions, w), ActiveOn(d.sessions, w));
  }

  /** A commit that writes only rows its transaction had locked. */
  lemma BenignCommitKeepsInv(c: Config, d: Db, d': Db, t: TxId)
    requires Inv(c, d) && t in d.txs && !d.txs[t].Claim?
    requires Benign(d, d', HeldW(d.txs[t])) && d'.txs == d.txs - {t}
    ensures Inv(c, d')
  {
    forall w | w in d'.workers
      ensures WorkerOk(c, d', w)
    {
      assert WorkerOk(c, d, w);
      BenignShrinks(d, d', HeldW(d.txs[t]), w);
    }
    forall u | u in d'.txs
      ensures TxOk(c, d', u)
    {
      assert TxOk(c, d, u);
      assert forall w :: w in HeldW(d.txs[u]) ==> w !in HeldW(d.txs[t]);
      if d.txs[u].Claim? && HoldsClaimed(d.txs[u].phase) {
        BenignShrinks(d, d', HeldW(d.txs[t]), d.txs[u].phase.worker);
      }
    }
    forall u | u in d'.claims
      ensures RecordOk(d', u)
    {
      assert RecordOk(d, u);
      assert TxOk(c, d, t);
    }
  }

  // -------------------------------------------------------- the groups of steps

  /** The part of the invariant that speaks about transaction t alone. */
  ghost predicate InvAt(c: Config, d: Db, t: TxId) {
    (t in d.txs ==> TxOk(c, d, t)) && (t in d.claims ==> RecordOk(d, t))
  }

  lemma InvHere(c: Config, d: Db, t: TxId)
    requires Inv(c, d)
    ensures InvAt(c, d, t)
  {
  }

  lemma ClaimStepIsQuiet(c: Config, d: Db, t: TxId, m: ClaimMove, d': Db)
    requires ClaimStep(c, d, t, m) == Some(d') && !m.ClaimCommit?
    ensures OnlyTx(d, d', t)
  {
  }

  lemma ScanStepOwn(c: Config, d: Db, t: TxId, m: ClaimMove, d': Db)
    requires InvAt(c, d, t) && t in d.txs && t in d.claims && d.txs[t].Claim?
    requires OpenClaimStep(c, d, t, m) == Some(d')
    requires d.txs[t].phase.Begun? || d.txs[t].phase.Scanning?
    ensures OwnOk(c, d, d', t)
  {
  }

  lemma HeldStepOwn(c: Config, d: Db, t: TxId, m: ClaimMove, d': Db)
    requires InvAt(c, d, t) && t in d.txs && t in d.claims && d.txs[t].Claim?
    requires OpenClaimStep(c, d, t, m) == Some(d') && !m.ClaimCommit?
    requires HoldsClaimed(d.txs[t].phase)
    ensures OwnOk(c, d, d', t)
  {
  }

  lemma ReplyStepOwn(c: Config, d: Db, t: TxId, m: ClaimMove, d': Db)
    requires InvAt(c, d, t) && ClaimStep(c, d, t, m) == Some(d')
    requires m.ClaimBegin? || m.Reply? || m.Lost?
    ensures OwnOk(c, d, d', t)
  {
  }

  lemma ClaimCommitRows(c: Config, d: Db, t: TxId, w: WorkerId, s: SessionId, v: WorkerId)
    requires t in d.txs && t in d.claims && d.txs[t].Claim? && w in d.workers && s !in d.sessions
    ensures var d' := CommitClaim(c, d, t, d.txs[t], w, s);
            EverOn(d'.sessions, v) == EverOn(d.sessions, v) + (if v == w then {s} else {}) &&
            ActiveOn(d'.sessions, v) == ActiveOn(d.sessions, v) + (if v == w then {s} else {})
  {
  }

  lemma ClaimCommitKeepsRow(c: Config, d: Db, t: TxId, w: WorkerId, s: SessionId, v: WorkerId)
    requires t in d.claims && t in d.txs && d.txs[t].Claim? && ClaimOk(c, d, d.txs[t])
    requires d.txs[t].phase == Committing(w, s) && w in d.workers && s !in d.sessions
    requires v in d.workers && WorkerOk(c, d, v)
    ensures WorkerOk(c, CommitClaim(c, d, t, d.txs[t], w, s), v)
  {
    ClaimCommitRows(c, d, t, w, s, v);
  }

  lemma ClaimCommitKeepsRows(c: Config, d: Db, t: TxId, w: WorkerId, s: SessionId)
    requires RowsOk(c, d) && t in d.claims && t in d.txs && TxOk(c, d, t)
    requires d.txs[t].phase == Committing(w, s) && w in d.workers
    ensures RowsOk(c, CommitClaim(c, d, t, d.txs[t], w, s))
  {
    var d' := CommitClaim(c, d, t, d.txs[t], w, s);
    forall v | v in d'.workers
      ensures WorkerOk(c, d', v)
    {
      ClaimCommitKeepsRow(c, d, t, w, s, v);
    }
    assert WorkerOk(c, d, w);
  }

  lemma ClaimCommitKeepsTxs(c: Config, d: Db, t: TxId, w: WorkerId, s: SessionId)
    requires Exclusive(d) && TxsOk(c, d) && t in d.claims && t in d.txs && TxOk(c, d, t)
    requires d.txs[t].phase == Committing(w, s) && w in d.workers
    ensures TxsOk(c, CommitClaim(c, d, t, d.txs[t], w, s))
  {
    var d' := CommitClaim(c, d, t, d.txs[t], w, s);
    forall u | u in d'.txs
      ensures TxOk(c, d', u)
    {
      assert TxOk(c, d, u);
      assert w in HeldW(d.txs[t]);
      assert w !in HeldW(d.txs[u]);
      assert OwnRow(d.txs[t]) == Some(s);
      if d.txs[u].Claim? && HoldsClaimed(d.txs[u].phase) {
        ClaimCommitRows(c, d, t, w, s, d.txs[u].phase.worker);
      }
    }
  }

  lemma ClaimCommitKeepsRecords(c: Config, d: Db, t: TxId, w: WorkerId, s: SessionId)
    requires RecordsOk(d) && t in d.claims && t in d.txs && TxOk(c, d, t)
    requires d.txs[t].phase == Committing(w, s) && w in d.workers
    ensures RecordsOk(CommitClaim(c, d, t, d.txs[t], w, s))
  {
    var d' := CommitClaim(c, d, t, d.txs[t], w, s);
    forall u | u in d'.claims
      ensures RecordOk(d', u)
    {
      assert RecordOk(d, u);
    }
  }

  lemma ClaimCommitKeepsInv(c: Config, d: Db, t: TxId, w: WorkerId, s: SessionId)
    requires Inv(c, d) && t in d.txs && t in d.claims && d.txs[t].Claim?
    requires d.txs[t].phase == Committing(w, s) && w in d.workers
    ensures Inv(c, CommitClaim(c, d, t, d.txs[t], w, s))
  {
    ClaimCommitKeepsRows(c, d, t, w, s);
    ClaimCommitKeepsTxs(c, d, t, w, s);
    ClaimCommitKeepsRecords(c, d, t, w, s);
  }

  lemma ClaimStepKeepsInv(c: Config, d: Db, t: TxId, m: ClaimMove, d': Db)
    requires Inv(c, d) && ClaimStep(c, d, t, m) == Some(d')
    ensures Inv(c, d')
  {
    if m.ClaimCommit? {
      ClaimCommitKeepsInv(c, d, t, d.txs[t].phase.worker, d.txs[t].phase.session);
    } else {
      ClaimStepIsQuiet(c, d, t, m, d');
      assert InvAt(c, d, t);
      if m.ClaimBegin? || m.Reply? || m.Lost? {
        ReplyStepOwn(c, d, t, m, d');
      } else if HoldsClaimed(d.txs[t].phase) {
        HeldStepOwn(c, d, t, m, d');
      } else {
        ScanStepOwn(c, d, t, m, d');
      }
      QuietStepKeepsInv(c, d, d', t);
    }
  }

  // ---- bulk session statements, single-row statements and worker statements

  /** The actor's own locks after a step of any other kind of transaction. */
  lemma BulkStepIsQuiet(c: Config, d: Db, t: TxId, m: BulkMove, d': Db)
    requires InvAt(c, d, t) && BulkStep(c, d, t, m) == Some(d') && !m.BulkCommit?
    ensures OnlyTx(d, d', t) && OwnOk(c, d, d', t)
  {
  }

  lemma RowStepIsQuiet(c: Config, d: Db, t: TxId, m: RowMove, d': Db)
    requires InvAt(c, d, t) && RowStep(c, d, t, m) == Some(d') && !m.OneCommit?
    ensures OnlyTx(d, d', t) && OwnOk(c, d, d', t)
  {
  }

  lemma WorkerStepIsQuiet(c: Config, d: Db, t: TxId, m: WorkerMove, d': Db)
    requires InvAt(c, d, t) && WorkerStep(c, d, t, m) == Some(d') && !m.SweepCommit? && !m.StatusCommit?
    ensures OnlyTx(d, d', t) && OwnOk(c, d, d', t)
  {
  }

  lemma BulkCommitIsBenign(c: Config, d: Db, t: TxId, d': Db)
    requires BulkStep(c, d, t, BulkCommit) == Some(d')
    ensures t in d.txs && !d.txs[t].Claim? && Benign(d, d', HeldW(d.txs[t])) && d'.txs == d.txs - {t}
  {
  }

  lemma RowCommitIsBenign(c: Config, d: Db, t: TxId, d': Db)
    requires RowStep(c, d, t, OneCommit) == Some(d')
    ensures t in d.txs && !d.txs[t].Claim? && Benign(d, d', HeldW(d.txs[t])) && d'.txs == d.txs - {t}
  {
  }

  lemma WorkerCommitIsBenign(c: Config, d: Db, t: TxId, m: WorkerMove, d': Db)
    requires WorkerStep(c, d, t, m) == Some(d') && (m.SweepCommit? || m.StatusCommit?)
    ensures t in d.txs && !d.txs[t].Claim? && Benign(d, d', HeldW(d.txs[t])) && d'.txs == d.txs - {t}
  {
  }

  lemma RegisterKeepsInv(c: Config, d: Db, d': Db, w: WorkerId, browser: string, version: string, maxSlots: nat)
    requires Inv(c, d) && Step(c, d, Register(w, browser, version, maxSlots)) == Some(d')
    ensures Inv(c, d')
  {
    assert w in d.workers ==> WorkerOk(c, d, w);
    assert EverOn(d.sessions, w) == {} && ActiveOn(d.sessions, w) == {};
    forall v | v in d'.workers
      ensures WorkerOk(c, d', v)
    {
      assert v != w ==> WorkerOk(c, d, v);
    }
    forall u | u in d'.txs
      ensures TxOk(c, d', u)
    {
      assert TxOk(c, d, u);
    }
    forall u | u in d'.claims
      ensures RecordOk(d', u)
    {
      assert RecordOk(d, u);
    }
  }

  lemma AbortKeepsInv(c: Config, d: Db, t: TxId, d': Db)
    requires Inv(c, d) && Step(c, d, Abort(t)) == Some(d')
    ensures Inv(c, d')
  {
    assert InvAt(c, d, t);
    AbortIsQuiet(c, d, t, d');
    QuietStepKeepsInv(c, d, d', t);
  }

  lemma AbortIsQuiet(c: Config, d: Db, t: TxId, d': Db)
    requires InvAt(c, d, t) && Step(c, d, Abort(t)) == Some(d')
    ensures OnlyTx(d, d', t) && OwnOk(c, d, d', t)
  {
  }

  lemma TickKeepsInv(c: Config, d: Db, elapsed: nat)
    requires Inv(c, d)
    ensures Inv(c, d.(now := d.now + elapsed))
  {
    var d' := d.(now := d.now + elapsed);
    forall u | u in d'.txs
      ensures TxOk(c, d', u)
    {
      assert TxOk(c, d, u);
    }
    forall u | u in d'.claims
      ensures RecordOk(d', u)
    {
      assert RecordOk(d, u);
    }
    forall w | w in d'.workers
      ensures WorkerOk(c, d', w)
    {
      assert WorkerOk(c, d, w);
    }
  }

  lemma BulkStepKeepsInv(c: Config, d: Db, t: TxId, m: BulkMove, d': Db)
    requires Inv(c, d) && BulkStep(c, d, t, m) == Some(d')
    ensures Inv(c, d')
  {
    if m.BulkCommit? {
      BulkCommitIsBenign(c, d, t, d');
      BenignCommitKeepsInv(c, d, d', t);
    } else {
      assert InvAt(c, d, t);
      BulkStepIsQuiet(c, d, t, m, d');
      QuietStepKeepsInv(c, d, d', t);
    }
  }

  lemma RowStepKeepsInv(c: Config, d: Db, t: TxId, m: RowMove, d': Db)
    requires Inv(c, d) && RowStep(c, d, t, m) == Some(d')
    ensures Inv(c, d')
  {
    if m.OneCommit? {
      RowCommitIsBenign(c, d, t, d');
      BenignCommitKeepsInv(c, d, d', t);
    } else {
      assert InvAt(c, d, t);
      RowStepIsQuiet(c, d, t, m, d');
      QuietStepKeepsInv(c, d, d', t);
    }
  }

  lemma WorkerStepKeepsInv(c: Config, d: Db, t: TxId, m: WorkerMove, d': Db)
    requires Inv(c, d) && WorkerStep(c, d, t, m) == Some(d')
    ensures Inv(c, d')
  {
    if m.SweepCommit? || m.StatusCommit? {
      WorkerCommitIsBenign(c, d, t, m, d');
      BenignCommitKeepsInv(c, d, d', t);
    } else {
      assert InvAt(c, d, t);
      WorkerStepIsQuiet(c, d, t, m, d');
      QuietStepKeepsInv(c, d, d', t);
    }
  }

  lemma OutsideStepKeepsInv(c: Config, d: Db, a: Action, d': Db)
    requires Inv(c, d) && Step(c, d, a) == Some(d') && (a.Tick? || a.Register? || a.Abort?)
    ensures Inv(c, d')
  {
    match a
    case Tick(elapsed) => TickKeepsInv(c, d, elapsed);
    case Register(w, browser, version, maxSlots) => RegisterKeepsInv(c, d, d', w, browser, version, maxSlots);
    case Abort(t) => AbortKeepsInv(c, d, t, d');
  }

  lemma StepKeepsInv(c: Config, d: Db, a: Action, d': Db)
    requires Inv(c, d) && Step(c, d, a) == Some(d')
    ensures Inv(c, d')
  {
    match a
    case OfClaim(t, m) => ClaimStepKeepsInv(c, d, t, m, d');
    case OfBulk(t, m) => BulkStepKeepsInv(c, d, t, m, d');
    case OfRow(t, m) => RowStepKeepsInv(c, d, t, m, d');
    case OfWorker(t, m) => WorkerStepKeepsInv(c, d, t, m, d');
    case _ => OutsideStepKeepsInv(c, d, a, d');
  }

  lemma {:induction false} RunKeepsInv(c: Config, run: seq<Db>, i: nat)
    requires Run(c, run) && i < |run|
    ensures Inv(c, run[i])
  {
    if i > 0 {
      RunKeepsInv(c, run, i - 1);
      assert Next(c, run[i - 1], run[i - 1 + 1]);
      var a :| Step(c, run[i - 1], a) == Some(run[i]);
      StepKeepsInv(c, run[i - 1], a, run[i]);
    }
  }

  // ------------------------------------------------------------- main results

  /** Capacity: in every state of every run, no registered worker has more
      committed pending or running sessions than slots. */
  lemma NeverOverCapacity(c: Config, run: seq<Db>)
    requires Run(c, run)
    ensures forall i, w :: 0 <= i < |run| && w in run[i].workers ==>
              |ActiveOn(run[i].sessions, w)| <= run[i].workers[w].maxSlots
  {
    forall i, w | 0 <= i < |run| && w in run[i].workers
      ensures |ActiveOn(run[i].sessions, w)| <= run[i].workers[w].maxSlots
    {
      RunKeepsInv(c, run, i);
      assert WorkerOk(c, run[i], w);
    }
  }

  /** The lifetime counter counts exactly the session rows ever committed for the
      worker, and a positive limit is never passed. */
  lemma LifetimeIsExact(c: Config, run: seq<Db>)
    requires Run(c, run)
    ensures forall i, w :: 0 <= i < |run| && w in run[i].workers ==>
              run[i].workers[w].lifetime == |EverOn(run[i].sessions, w)| &&
              (c.maxLifetime > 0 ==> run[i].workers[w].lifetime <= c.maxLifetime)
  {
    forall i, w | 0 <= i < |run| && w in run[i].workers
      ensures run[i].workers[w].lifetime == |EverOn(run[i].sessions, w)|
      ensures c.maxLifetime > 0 ==> run[i].workers[w].lifetime <= c.maxLifetime
    {
      RunKeepsInv(c, run, i);
      assert WorkerOk(c, run[i], w);
    }
  }

  /** What a caller may conclude from claimOnce: a granted session is the one that
      was committed, no capacity and an ordinary error mean that nothing was, and
      no two claims ever committed the same session. */
  lemma ReportsAreHonest(c: Config, run: seq<Db>, i: nat, t: TxId)
    requires Run(c, run) && i < |run| && t in run[i].claims
    ensures var r := run[i].claims[t];
            (r.report.Granted? ==> r.committed == Some(r.report.session)) &&
            (r.committed.Some? ==>
              r.committed.value in run[i].sessions && Suits(run[i].sessions[r.committed.value], r.request)) &&
            (r.report.NoCapacity? || r.report.Errored? ==> r.committed == None && t !in run[i].txs) &&
            (forall u :: u in run[i].claims && u != t && r.committed.Some? ==>
              run[i].claims[u].committed != r.committed)
  {
    RunKeepsInv(c, run, i);
    assert RecordOk(run[i], t);
  }
}
