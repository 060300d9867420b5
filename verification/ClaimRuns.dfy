/** A claim with nothing else running, as steps of the database: it ends exactly as
    the capacity module computes. */
module ClaimRuns {
  import opened Common
  import opened Tables
  import opened ControlPlane
  import opened Capacity

  /** The database while only claim t is open, in phase p. */
  function Open(d: Db, t: TxId, r: Request, p: ClaimPhase): Db {
    d.(txs := map[t := Claim(d.now, r, {}, p)], claims := d.claims[t := ClaimRecord(r, None, Waiting)])
  }

  lemma Begins(c: Config, d: Db, t: TxId, r: Request)
    requires d.txs == map[] && t !in d.claims
    ensures Leads(c, d, Open(d, t, r, Begun))
  {
    LeadsNowhere(c, d);
    assert d.txs[t := Claim(d.now, r, {}, Begun)] == Open(d, t, r, Begun).txs;
    LeadsOn(c, d, d, OfClaim(t, ClaimBegin(r)), Open(d, t, r, Begun));
  }

  lemma Advances(c: Config, d: Db, t: TxId, r: Request, m: ClaimMove, from: ClaimPhase, to: ClaimPhase)
    requires Leads(c, d, Open(d, t, r, from)) && !m.ClaimBegin? && !m.Reply? && !m.Lost?
    requires OpenClaimStep(c, Open(d, t, r, from), t, m) ==
             Some(SetTx(Open(d, t, r, from), t, Claim(d.now, r, {}, to)))
    ensures Leads(c, d, Open(d, t, r, to))
  {
    assert Open(d, t, r, from).txs[t := Claim(d.now, r, {}, to)] == Open(d, t, r, to).txs;
    LeadsOn(c, d, Open(d, t, r, from), OfClaim(t, m), Open(d, t, r, to));
  }

  /** The candidates of the lone claim, in the order in which it tries them. */
  ghost function Order(c: Config, d: Db, r: Request): seq<WorkerId> {
    InClaimOrder(d.workers, d.sessions, Candidates(c, d.workers, d.sessions, r, d.now))
  }

  lemma FirstInOrder(c: Config, d: Db, r: Request)
    ensures Order(c, d, r) == [] <==> Choice(c, RowsOf(d), r, d.now) == None
    ensures Order(c, d, r) != [] ==>
              Choice(c, RowsOf(d), r, d.now) == Some(Order(c, d, r)[0]) && Order(c, d, r)[0] in d.workers &&
              ClaimColumns(c, Order(c, d, r)[0], d.workers[Order(c, d, r)[0]], r, d.now) &&
              |ActiveOn(d.sessions, Order(c, d, r)[0])| < d.workers[Order(c, d, r)[0]].maxSlots
  {
    var cands := Candidates(c, d.workers, d.sessions, r, d.now);
    if cands != {} {
      assert Order(c, d, r)[0] == First(d.workers, d.sessions, cands);
      assert Order(c, d, r)[0] in cands;
    }
  }

  lemma Takes(c: Config, d: Db, t: TxId, r: Request, w: WorkerId)
    requires d.txs == map[] && t !in d.claims && Choice(c, RowsOf(d), r, d.now) == Some(w)
    ensures Leads(c, d, Open(d, t, r, Recounted(w)))
  {
    Begins(c, d, t, r);
    Advances(c, d, t, r, Select, Begun, Scanning(Order(c, d, r)));
    Locks(c, d, t, r, w);
    Recounts(c, d, t, r, w);
  }

  lemma Locks(c: Config, d: Db, t: TxId, r: Request, w: WorkerId)
    requires d.txs == map[] && Choice(c, RowsOf(d), r, d.now) == Some(w)
    requires Leads(c, d, Open(d, t, r, Scanning(Order(c, d, r))))
    ensures Leads(c, d, Open(d, t, r, Holding(w)))
  {
    FirstInOrder(c, d, r);
    Advances(c, d, t, r, Take, Scanning(Order(c, d, r)), Holding(w));
  }

  lemma Recounts(c: Config, d: Db, t: TxId, r: Request, w: WorkerId)
    requires Choice(c, RowsOf(d), r, d.now) == Some(w) && Leads(c, d, Open(d, t, r, Holding(w)))
    ensures Leads(c, d, Open(d, t, r, Recounted(w)))
  {
    FirstInOrder(c, d, r);
    Advances(c, d, t, r, Recount, Holding(w), Recounted(w));
  }

  lemma Sends(c: Config, d: Db, t: TxId, r: Request, w: WorkerId, s: SessionId)
    requires Leads(c, d, Open(d, t, r, Recounted(w))) && s !in d.sessions
    ensures Leads(c, d, Open(d, t, r, Committing(w, s)))
  {
    Inserts(c, d, t, r, w, s);
    Advances(c, d, t, r, Bump, Inserted(w, s), Bumped(w, s));
    Advances(c, d, t, r, Send, Bumped(w, s), Committing(w, s));
  }

  lemma Inserts(c: Config, d: Db, t: TxId, r: Request, w: WorkerId, s: SessionId)
    requires Leads(c, d, Open(d, t, r, Recounted(w))) && s !in d.sessions
    ensures Leads(c, d, Open(d, t, r, Inserted(w, s)))
  {
    Advances(c, d, t, r, Insert(s), Recounted(w), Inserted(w, s));
  }

  /** The database after a lone claim that committed, with what it reported so far. */
  function Committed(c: Config, d: Db, t: TxId, r: Request, w: WorkerId, s: SessionId, report: Report): Db
    requires w in d.workers
  {
    var after := AfterClaim(c, RowsOf(d), w, s, d.now);
    d.(workers := after.workers, sessions := after.sessions, claims := d.claims[t := ClaimRecord(r, Some(s), report)])
  }

  lemma Commits(c: Config, d: Db, t: TxId, r: Request, w: WorkerId, s: SessionId)
    requires Leads(c, d, Open(d, t, r, Committing(w, s))) && d.txs == map[] && w in d.workers
    ensures Leads(c, d, Committed(c, d, t, r, w, s, Granted(s)))
  {
    CommitIs(c, d, t, r, w, s);
    LeadsOn(c, d, Open(d, t, r, Committing(w, s)), OfClaim(t, ClaimCommit), Committed(c, d, t, r, w, s, Waiting));
    ReplyIs(c, d, t, r, w, s);
    LeadsOn(c, d, Committed(c, d, t, r, w, s, Waiting), OfClaim(t, Reply), Committed(c, d, t, r, w, s, Granted(s)));
  }

  lemma CommitIs(c: Config, d: Db, t: TxId, r: Request, w: WorkerId, s: SessionId)
    requires d.txs == map[] && w in d.workers
    ensures var e := Open(d, t, r, Committing(w, s));
            CommitClaim(c, e, t, e.txs[t], w, s) == Committed(c, d, t, r, w, s, Waiting)
  {
    var e := Open(d, t, r, Committing(w, s));
    assert e.txs - {t} == d.txs;
    assert e.claims[t := ClaimRecord(r, Some(s), Waiting)] == d.claims[t := ClaimRecord(r, Some(s), Waiting)];
  }

  lemma ReplyIs(c: Config, d: Db, t: TxId, r: Request, w: WorkerId, s: SessionId)
    requires w in d.workers
    ensures SetReport(Committed(c, d, t, r, w, s, Waiting), t, Granted(s)) == Committed(c, d, t, r, w, s, Granted(s))
  {
    var claims := d.claims[t := ClaimRecord(r, Some(s), Waiting)];
    assert claims[t := ClaimRecord(r, Some(s), Granted(s))] == d.claims[t := ClaimRecord(r, Some(s), Granted(s))];
  }

  /** A lone claim that has a choice can commit it, and is granted exactly that session. */
  lemma LoneClaimIsGranted(c: Config, d: Db, t: TxId, r: Request, s: SessionId, w: WorkerId)
    requires d.txs == map[] && t !in d.claims && s !in d.sessions
    requires Choice(c, RowsOf(d), r, d.now) == Some(w)
    ensures w in d.workers && Leads(c, d, Committed(c, d, t, r, w, s, Granted(s)))
  {
    FirstInOrder(c, d, r);
    Takes(c, d, t, r, w);
    Sends(c, d, t, r, w, s);
    Commits(c, d, t, r, w, s);
  }

  /** The database after a lone claim that found nothing. */
  function TurnedAway(d: Db, t: TxId, r: Request): Db {
    d.(claims := d.claims[t := ClaimRecord(r, None, NoCapacity(None))])
  }

  lemma RefusalIs(d: Db, t: TxId, r: Request)
    requires d.txs == map[]
    ensures SetReport(EndTx(Open(d, t, r, Scanning([])), t), t, NoCapacity(None)) == TurnedAway(d, t, r)
  {
    var e := Open(d, t, r, Scanning([]));
    assert e.txs - {t} == d.txs;
    var record := ClaimRecord(r, None, NoCapacity(None));
    assert e.claims[t := record] == d.claims[t := record];
  }

  /** A lone claim without a choice reports no capacity and leaves the tables alone. */
  lemma LoneClaimIsRefused(c: Config, d: Db, t: TxId, r: Request)
    requires d.txs == map[] && t !in d.claims && Choice(c, RowsOf(d), r, d.now) == None
    ensures Leads(c, d, TurnedAway(d, t, r))
  {
    FirstInOrder(c, d, r);
    Begins(c, d, t, r);
    Advances(c, d, t, r, Select, Begun, Scanning([]));
    RefusalIs(d, t, r);
    LeadsOn(c, d, Open(d, t, r, Scanning([])), OfClaim(t, NoneLeft), TurnedAway(d, t, r));
  }

  /** A claim whose connection is lost while it commits learns only that it cannot tell,
      and the database may have committed its session or not. */
  lemma UncertainCommitGoesEitherWay(c: Config, d: Db, t: TxId, r: Request, s: SessionId, w: WorkerId)
    requires d.txs == map[] && t !in d.claims && s !in d.sessions && Choice(c, RowsOf(d), r, d.now) == Some(w)
    ensures w in d.workers && Leads(c, d, Committed(c, d, t, r, w, s, Uncertain))
    ensures Leads(c, d, d.(claims := d.claims[t := ClaimRecord(r, None, Uncertain)]))
  {
    FirstInOrder(c, d, r);
    Takes(c, d, t, r, w);
    Sends(c, d, t, r, w, s);
    LosesTheReply(c, d, t, r, w, s);
    LosesTheCommit(c, d, t, r, w, s);
  }

  lemma LosesTheReply(c: Config, d: Db, t: TxId, r: Request, w: WorkerId, s: SessionId)
    requires Leads(c, d, Open(d, t, r, Committing(w, s))) && d.txs == map[] && w in d.workers
    ensures Leads(c, d, Committed(c, d, t, r, w, s, Uncertain))
  {
    CommitIs(c, d, t, r, w, s);
    var e := Committed(c, d, t, r, w, s, Waiting);
    LeadsOn(c, d, Open(d, t, r, Committing(w, s)), OfClaim(t, ClaimCommit), e);
    var record := ClaimRecord(r, Some(s), Uncertain);
    assert e.claims[t := record] == d.claims[t := record];
    LeadsOn(c, d, e, OfClaim(t, Lost), Committed(c, d, t, r, w, s, Uncertain));
  }

  lemma LosesTheCommit(c: Config, d: Db, t: TxId, r: Request, w: WorkerId, s: SessionId)
    requires Leads(c, d, Open(d, t, r, Committing(w, s))) && d.txs == map[]
    ensures Leads(c, d, d.(claims := d.claims[t := ClaimRecord(r, None, Uncertain)]))
  {
    var e := Open(d, t, r, Committing(w, s));
    var lost := SetReport(e, t, Uncertain);
    LeadsOn(c, d, e, OfClaim(t, Lost), lost);
    var record := ClaimRecord(r, None, Uncertain);
    assert lost.claims == d.claims[t := record] && lost.txs - {t} == d.txs;
    LeadsOn(c, d, lost, OfClaim(t, ServerRollback), EndTx(lost, t));
    assert EndTx(lost, t) == d.(claims := d.claims[t := record]);
  }

  // ---------------------------------------------- nothing else can come of it

  /** A phase that the lone claim passes through. */
  ghost predicate OnTheWay(c: Config, d: Db, r: Request, p: ClaimPhase) {
    match p
    case Begun => true
    case Scanning(rest) => rest == Order(c, d, r)
    case _ =>
      Choice(c, RowsOf(d), r, d.now) == Some(p.worker) &&
      (p.Inserted? || p.Bumped? || p.Committing? ==> p.session !in d.sessions)
  }

  ghost predicate IsCommitted(c: Config, d: Db, t: TxId, r: Request, e: Db, s: SessionId) {
    s !in d.sessions &&
    match Choice(c, RowsOf(d), r, d.now)
    case None => false
    case Some(w) =>
      w in d.workers &&
      (e == Committed(c, d, t, r, w, s, Waiting) || e == Committed(c, d, t, r, w, s, Granted(s)))
  }

  ghost predicate IsOpen(c: Config, d: Db, t: TxId, r: Request, e: Db, p: ClaimPhase) {
    e == Open(d, t, r, p) && OnTheWay(c, d, r, p)
  }

  /** Where a lone claim can be: not begun, on its way, committed, or turned away. */
  ghost predicate OnTrack(c: Config, d: Db, t: TxId, r: Request, e: Db) {
    e == d || (exists p :: IsOpen(c, d, t, r, e, p)) || (exists s :: IsCommitted(c, d, t, r, e, s)) ||
    (Choice(c, RowsOf(d), r, d.now) == None && e == TurnedAway(d, t, r))
  }

  /** The step leads to phase p' of the same lone claim. */
  ghost predicate GoesOn(c: Config, d: Db, t: TxId, r: Request, e: Db, e': Db) {
    t in e'.txs && e'.txs[t].Claim? && e' == SetTx(e, t, Claim(d.now, r, {}, e'.txs[t].phase)) &&
    OnTheWay(c, d, r, e'.txs[t].phase)
  }

  lemma ScanningGoesOn(c: Config, d: Db, t: TxId, r: Request, p: ClaimPhase, m: ClaimMove, e': Db)
    requires d.txs == map[] && OnTheWay(c, d, r, p) && (p.Begun? || p.Scanning?)
    requires OpenClaimStep(c, Open(d, t, r, p), t, m) == Some(e')
    ensures GoesOn(c, d, t, r, Open(d, t, r, p), e') || (p == Scanning([]) && m == NoneLeft)
  {
    FirstInOrder(c, d, r);
  }

  lemma HoldingGoesOn(c: Config, d: Db, t: TxId, r: Request, p: ClaimPhase, m: ClaimMove, e': Db)
    requires d.txs == map[] && OnTheWay(c, d, r, p) && HoldsClaimed(p)
    requires OpenClaimStep(c, Open(d, t, r, p), t, m) == Some(e') && m != ServerRollback
    ensures GoesOn(c, d, t, r, Open(d, t, r, p), e') || (p.Committing? && m == ClaimCommit)
  {
    FirstInOrder(c, d, r);
  }

  lemma OpenStaysOnTrack(c: Config, d: Db, t: TxId, r: Request, p: ClaimPhase, m: ClaimMove, e': Db)
    requires d.txs == map[] && t !in d.claims && OnTheWay(c, d, r, p)
    requires OpenClaimStep(c, Open(d, t, r, p), t, m) == Some(e') && m != ServerRollback
    ensures OnTrack(c, d, t, r, e')
  {
    if p.Begun? || p.Scanning? {
      ScanningGoesOn(c, d, t, r, p, m, e');
    } else {
      HoldingGoesOn(c, d, t, r, p, m, e');
    }
    if GoesOn(c, d, t, r, Open(d, t, r, p), e') {
      GoingOnIsOpen(c, d, t, r, p, e');
    } else {
      EndsOnTrack(c, d, t, r, p, m, e');
    }
  }

  lemma EndsOnTrack(c: Config, d: Db, t: TxId, r: Request, p: ClaimPhase, m: ClaimMove, e': Db)
    requires d.txs == map[] && t !in d.claims && OnTheWay(c, d, r, p)
    requires OpenClaimStep(c, Open(d, t, r, p), t, m) == Some(e')
    requires (p == Scanning([]) && m == NoneLeft) || (p.Committing? && m == ClaimCommit)
    ensures OnTrack(c, d, t, r, e')
  {
    FirstInOrder(c, d, r);
    if m == NoneLeft {
      RefusalIs(d, t, r);
    } else {
      CommitIs(c, d, t, r, p.worker, p.session);
      assert IsCommitted(c, d, t, r, e', p.session);
    }
  }

  lemma GoingOnIsOpen(c: Config, d: Db, t: TxId, r: Request, p: ClaimPhase, e': Db)
    requires GoesOn(c, d, t, r, Open(d, t, r, p), e')
    ensures IsOpen(c, d, t, r, e', e'.txs[t].phase)
  {
    var e, p' := Open(d, t, r, p), e'.txs[t].phase;
    assert e.txs[t := Claim(d.now, r, {}, p')] == Open(d, t, r, p').txs;
  }

  lemma CommittedStaysOnTrack(c: Config, d: Db, t: TxId, r: Request, e: Db, s: SessionId, m: ClaimMove, e': Db)
    requires d.txs == map[] && IsCommitted(c, d, t, r, e, s) && ClaimStep(c, e, t, m) == Some(e') && m != Lost
    ensures OnTrack(c, d, t, r, e')
  {
    ReplyIs(c, d, t, r, Choice(c, RowsOf(d), r, d.now).value, s);
    assert IsCommitted(c, d, t, r, e', s);
  }

  lemma BeginIsOnTrack(c: Config, d: Db, t: TxId, r: Request, m: ClaimMove, e': Db)
    requires d.txs == map[] && t !in d.claims && ClaimStep(c, d, t, m) == Some(e') && (m.ClaimBegin? ==> m.request == r)
    ensures OnTrack(c, d, t, r, e')
  {
    assert d.txs[t := Claim(d.now, r, {}, Begun)] == Open(d, t, r, Begun).txs;
    assert IsOpen(c, d, t, r, e', Begun);
  }

  lemma StepStaysOnTrack(c: Config, d: Db, t: TxId, r: Request, e: Db, m: ClaimMove, e': Db)
    requires d.txs == map[] && t !in d.claims && OnTrack(c, d, t, r, e)
    requires ClaimStep(c, e, t, m) == Some(e') && m != Lost && m != ServerRollback
    requires m.ClaimBegin? ==> m.request == r
    ensures OnTrack(c, d, t, r, e')
  {
    if e == d {
      BeginIsOnTrack(c, d, t, r, m, e');
    } else if p :| IsOpen(c, d, t, r, e, p) {
      assert t in e.txs;
      OpenStaysOnTrack(c, d, t, r, p, m, e');
    } else if s :| IsCommitted(c, d, t, r, e, s) {
      CommittedStaysOnTrack(c, d, t, r, e, s, m, e');
    }
  }

  /** A step of claim t while its connection holds. */
  predicate Undisturbed(r: Request, m: ClaimMove) {
    m != Lost && m != ServerRollback && (m.ClaimBegin? ==> m.request == r)
  }

  ghost predicate LoneStep(c: Config, t: TxId, r: Request, e: Db, e': Db) {
    exists m: ClaimMove :: Undisturbed(r, m) && ClaimStep(c, e, t, m) == Some(e')
  }

  ghost predicate LoneRun(c: Config, d: Db, t: TxId, r: Request, states: seq<Db>) {
    |states| > 0 && states[0] == d && forall i :: 0 <= i < |states| - 1 ==> LoneStep(c, t, r, states[i], states[i + 1])
  }

  lemma {:induction false} LoneRunIsOnTrack(c: Config, d: Db, t: TxId, r: Request, states: seq<Db>, k: nat)
    requires d.txs == map[] && t !in d.claims && k < |states| && LoneRun(c, d, t, r, states)
    ensures OnTrack(c, d, t, r, states[k])
  {
    if k > 0 {
      LoneRunIsOnTrack(c, d, t, r, states, k - 1);
      assert LoneStep(c, t, r, states[k - 1], states[k - 1 + 1]);
      var m: ClaimMove :| Undisturbed(r, m) && ClaimStep(c, states[k - 1], t, m) == Some(states[k]);
      StepStaysOnTrack(c, d, t, r, states[k - 1], m, states[k]);
    }
  }

  ghost predicate WasGranted(c: Config, d: Db, t: TxId, r: Request, w: WorkerId, e: Db)
    requires w in d.workers
  {
    exists s :: s !in d.sessions && e == Committed(c, d, t, r, w, s, Granted(s))
  }

  /** Whatever steps a lone claim takes while its connection holds: if it is answered and
      there was a choice, it was granted, and the tables are those of that choice; if
      there was none, it was turned away, and the tables are as they were. */
  lemma LoneClaimIsDecided(c: Config, d: Db, t: TxId, r: Request, states: seq<Db>, k: nat)
    requires d.txs == map[] && t !in d.claims && k < |states| && LoneRun(c, d, t, r, states)
    requires t in states[k].claims && states[k].claims[t].report != Waiting
    ensures match Choice(c, RowsOf(d), r, d.now)
            case None => states[k] == TurnedAway(d, t, r)
            case Some(w) => w in d.workers && WasGranted(c, d, t, r, w, states[k])
  {
    LoneRunIsOnTrack(c, d, t, r, states, k);
    AnsweredOnTrack(c, d, t, r, states[k]);
  }

  lemma AnsweredOnTrack(c: Config, d: Db, t: TxId, r: Request, e: Db)
    requires t !in d.claims && OnTrack(c, d, t, r, e) && t in e.claims && e.claims[t].report != Waiting
    ensures match Choice(c, RowsOf(d), r, d.now)
            case None => e == TurnedAway(d, t, r)
            case Some(w) => w in d.workers && WasGranted(c, d, t, r, w, e)
  {
    if s :| IsCommitted(c, d, t, r, e, s) {
      assert e == Committed(c, d, t, r, Choice(c, RowsOf(d), r, d.now).value, s, Granted(s));
    }
  }

  // ------------------------------------------------------ consecutive claims

  /** Distinct claims that the database has not seen. */
  predicate NewClaims(d: Db, ts: seq<TxId>) {
    (forall i :: 0 <= i < |ts| ==> ts[i] !in d.claims) && forall i, j :: 0 <= i < j < |ts| ==> ts[i] != ts[j]
  }

  predicate KeepsClaims(d: Db, d': Db) {
    forall t :: t in d.claims ==> t in d'.claims && d'.claims[t] == d.claims[t]
  }

  /** Claim i of these was granted session i. */
  predicate AllGranted(d: Db, r: Request, ids: seq<SessionId>, ts: seq<TxId>)
    requires |ids| <= |ts|
  {
    forall i :: 0 <= i < |ids| ==>
      ts[i] in d.claims && d.claims[ts[i]] == ClaimRecord(r, Some(ids[i]), Granted(ids[i]))
  }

  function Elements(ids: seq<SessionId>): set<SessionId> {
    set s | s in ids
  }

  /** All the sessions were granted, one claim each, the next claim was turned away, and
      nothing else happened. */
  ghost predicate Filled(c: Config, d: Db, d': Db, r: Request, ids: seq<SessionId>, ts: seq<TxId>)
    requires |ts| == |ids| + 1
  {
    Leads(c, d, d') && d'.now == d.now && d'.txs == map[] && KeepsClaims(d, d') && AllGranted(d', r, ids, ts) &&
    ts[|ids|] in d'.claims && d'.claims[ts[|ids|]] == ClaimRecord(r, None, NoCapacity(None)) &&
    d'.sessions.Keys == d.sessions.Keys + Elements(ids)
  }

  lemma FilledWithNone(c: Config, d: Db, r: Request, ts: seq<TxId>)
    requires d.txs == map[] && NewClaims(d, ts) && |ts| == 1 && Choice(c, RowsOf(d), r, d.now) == None
    ensures Filled(c, d, TurnedAway(d, ts[0], r), r, [], ts)
  {
    LoneClaimIsRefused(c, d, ts[0], r);
  }

  /** The first claim is granted and leaves the problem one session smaller. */
  lemma FirstIsGranted(c: Config, d: Db, r: Request, ids: seq<SessionId>, ts: seq<TxId>) returns (e: Db)
    requires d.txs == map[] && FreshIds(RowsOf(d), ids) && NewClaims(d, ts) && |ts| == |ids| + 1 && ids != []
    requires Choice(c, RowsOf(d), r, d.now).Some?
    ensures Leads(c, d, e) && e.now == d.now && e.txs == map[] && KeepsClaims(d, e)
    ensures Total(Rooms(c, RowsOf(e), r, d.now)) == Total(Rooms(c, RowsOf(d), r, d.now)) - 1
    ensures FreshIds(RowsOf(e), ids[1..]) && NewClaims(e, ts[1..]) && e.sessions.Keys == d.sessions.Keys + {ids[0]}
    ensures ts[0] in e.claims && e.claims[ts[0]] == ClaimRecord(r, Some(ids[0]), Granted(ids[0]))
  {
    var w := Choice(c, RowsOf(d), r, d.now).value;
    LoneClaimIsGranted(c, d, ts[0], r, ids[0], w);
    ClaimTakesOneRoom(c, RowsOf(d), r, d.now, ids[0]);
    e := Committed(c, d, ts[0], r, w, ids[0], Granted(ids[0]));
  }

  lemma FilledWithOneMore(c: Config, d: Db, e: Db, d': Db, r: Request, ids: seq<SessionId>, ts: seq<TxId>)
    requires ids != [] && |ts| == |ids| + 1
    requires Leads(c, d, e) && e.now == d.now && KeepsClaims(d, e) && e.sessions.Keys == d.sessions.Keys + {ids[0]}
    requires ts[0] in e.claims && e.claims[ts[0]] == ClaimRecord(r, Some(ids[0]), Granted(ids[0]))
    requires Filled(c, e, d', r, ids[1..], ts[1..])
    ensures Filled(c, d, d', r, ids, ts)
  {
    LeadsFurther(c, d, e, d');
    forall i | 0 <= i < |ids|
      ensures ts[i] in d'.claims && d'.claims[ts[i]] == ClaimRecord(r, Some(ids[i]), Granted(ids[i]))
    {
      if i > 0 {
        assert ts[i] == ts[1..][i - 1] && ids[i] == ids[1..][i - 1];
      }
    }
    assert ids == [ids[0]] + ids[1..];
  }

  /** Main result: with the clock frozen and nothing else running, the database goes
      through exactly as many granted claims as the workers have room, and then turns
      the next claim away. */
  lemma {:induction false} ClaimsFillTheRoom(c: Config, d: Db, r: Request, ids: seq<SessionId>, ts: seq<TxId>)
    returns (d': Db)
    requires d.txs == map[] && FreshIds(RowsOf(d), ids) && NewClaims(d, ts)
    requires |ids| == Total(Rooms(c, RowsOf(d), r, d.now)) && |ts| == |ids| + 1
    ensures Filled(c, d, d', r, ids, ts) && (Reachable(c, d) ==> Reachable(c, d'))
    decreases |ids|
  {
    NoChoiceMeansNoRoom(c, RowsOf(d), r, d.now);
    if ids == [] {
      FilledWithNone(c, d, r, ts);
      d' := TurnedAway(d, ts[0], r);
    } else {
      var e := FirstIsGranted(c, d, r, ids, ts);
      d' := ClaimsFillTheRoom(c, e, r, ids[1..], ts[1..]);
      FilledWithOneMore(c, d, e, d', r, ids, ts);
    }
    if Reachable(c, d) {
      LeadsToReachable(c, d, d');
    }
  }
}
