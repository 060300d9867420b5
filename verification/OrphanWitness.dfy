/** A run in which a live session loses its worker row, for every configuration that
    lets a heartbeat take longer than the shorter of the two worker timeouts. */
module OrphanWitness {
  import opened Common
  import opened Tables
  import opened ControlPlane
  import opened Orphans

  const REQUEST := Request("chromium", "", {})
  const BEAT := Beat(0, {})
  const STALL_TX := 1
  const BEAT_TX := 2
  const CLAIM_TX := 3
  const DELETE_TX := 4
  const STATUS_TX := 5

  /** When the worker is stalled and the slow claim begins. */
  function StallTime(c: Config): int {
    c.workerTtl + c.stalledTtl + 1
  }

  /** When the slow heartbeat begins. */
  function BeatTime(c: Config): int {
    StallTime(c) + 1
  }

  /** When everything else happens. */
  function LateTime(c: Config): int {
    BeatTime(c) + Patience(c) + 1
  }

  function Row(status: WorkerStatus, heartbeat: int, lifetime: nat): Worker {
    Worker("chromium", "1.62.1", 1, status, heartbeat, lifetime)
  }

  function At(now: int, w: Workers, s: Sessions, txs: map<TxId, Tx>, claims: map<TxId, ClaimRecord>): Db {
    Db(now, w, s, txs, claims, {0}, 1)
  }

  /** The worker is registered, falls silent and is stalled. */
  lemma Stalls(c: Config)
    ensures Reachable(c, At(StallTime(c), map[0 := Row(Stalled, 0, 0)], map[], map[], map[]))
  {
    var t := StallTime(c);
    var d0 := Db(0, map[], map[], map[], map[], {}, 0);
    StartIsReachable(c, d0);
    var w := map[0 := Row(Available, 0, 0)];
    var d1 := At(0, w, map[], map[], map[]);
    assert d0.workers[0 := Row(Available, 0, 0)] == w && d0.used + {0} == {0};
    StepStaysReachable(c, d0, Register(0, "chromium", "1.62.1", 1), d1);
    var d2 := d1.(now := t);
    StepStaysReachable(c, d1, Tick(t), d2);
    StallSweep(c, d2);
  }

  lemma StallSweep(c: Config, d: Db)
    requires d == At(StallTime(c), map[0 := Row(Available, 0, 0)], map[], map[], map[]) && Reachable(c, d)
    ensures Reachable(c, At(StallTime(c), map[0 := Row(Stalled, 0, 0)], map[], map[], map[]))
  {
    var t := StallTime(c);
    assert SweepTarget(c, Stall, d.workers, map[], t) == {0};
    var d1 := SetTx(d, STALL_TX, Sweep(t, Stall, [0], {}));
    StepStaysReachable(c, d, OfWorker(STALL_TX, SweepBegin(Stall, [0])), d1);
    var d2 := SetTx(d1, STALL_TX, Sweep(t, Stall, [], {0}));
    assert [0][1..] == [] && {} + {0} == {0};
    StepStaysReachable(c, d1, OfWorker(STALL_TX, SweepLock), d2);
    assert d2.txs - {STALL_TX} == map[];
    StallCommits(c, d2);
  }

  lemma StallCommits(c: Config, d: Db)
    requires Reachable(c, d) && d.now == StallTime(c) && d.workers == map[0 := Row(Available, 0, 0)]
    requires d.sessions == map[] && d.claims == map[] && d.used == {0} && d.notices == 1
    requires STALL_TX in d.txs && d.txs[STALL_TX] == Sweep(StallTime(c), Stall, [], {0}) && d.txs - {STALL_TX} == map[]
    ensures Reachable(c, At(StallTime(c), map[0 := Row(Stalled, 0, 0)], map[], map[], map[]))
  {
    var d' := CommitSweep(c, d, STALL_TX, StallTime(c), Stall, {0});
    assert d'.workers == map[0 := Row(Stalled, 0, 0)];
    StepStaysReachable(c, d, OfWorker(STALL_TX, SweepCommit), d');
  }

  function SlowBeat(c: Config): Tx {
    BeatOpen(BeatTime(c), BEAT)
  }

  function SlowClaim(c: Config, p: ClaimPhase): Tx {
    Claim(StallTime(c), REQUEST, {}, p)
  }

  function LateDelete(c: Config, rest: seq<WorkerId>, rows: set<WorkerId>): Tx {
    Sweep(LateTime(c), Delete, rest, rows)
  }

  function AllOpen(c: Config): map<TxId, Tx> {
    map[BEAT_TX := SlowBeat(c), CLAIM_TX := SlowClaim(c, Begun), DELETE_TX := LateDelete(c, [0], {})]
  }

  const OPEN_CLAIM := map[CLAIM_TX := ClaimRecord(REQUEST, None, Waiting)]

  /** A claim and a heartbeat begin and dawdle; then a delete takes its snapshot. */
  lemma SnapshotIsTaken(c: Config)
    ensures Reachable(c, At(LateTime(c), map[0 := Row(Stalled, 0, 0)], map[],
              AllOpen(c), OPEN_CLAIM))
  {
    Stalls(c);
    var w := map[0 := Row(Stalled, 0, 0)];
    var d0 := At(StallTime(c), w, map[], map[], map[]);
    var d1 := At(StallTime(c), w, map[], map[CLAIM_TX := SlowClaim(c, Begun)], OPEN_CLAIM);
    StepStaysReachable(c, d0, OfClaim(CLAIM_TX, ClaimBegin(REQUEST)), d1);
    StepStaysReachable(c, d1, Tick(1), d1.(now := BeatTime(c)));
    var d2 := At(BeatTime(c), w, map[], map[BEAT_TX := SlowBeat(c), CLAIM_TX := SlowClaim(c, Begun)], OPEN_CLAIM);
    assert d1.txs[BEAT_TX := SlowBeat(c)] == d2.txs;
    StepStaysReachable(c, d1.(now := BeatTime(c)), OfBulk(BEAT_TX, BeatBegin(BEAT)), d2);
    var d3 := d2.(now := LateTime(c));
    StepStaysReachable(c, d2, Tick(Patience(c) + 1), d3);
    assert SweepTarget(c, Delete, w, map[], LateTime(c)) == {0};
    var d4 := d3.(txs := AllOpen(c));
    StepStaysReachable(c, d3, OfWorker(DELETE_TX, SweepBegin(Delete, [0])), d4);
  }

  /** The heartbeat gets its row and finds nothing to fail. */
  lemma BeatSelects(c: Config) returns (d: Db)
    ensures Reachable(c, d) && d.now == LateTime(c) && d.workers == map[0 := Row(Stalled, 0, 0)]
    ensures d.sessions == map[] && d.claims == OPEN_CLAIM && d.used == {0} && d.notices == 1
    ensures d.txs == AllOpen(c)[BEAT_TX := Bulk(BeatTime(c), Some(BEAT), [], {})]
  {
    SnapshotIsTaken(c);
    var d0 := At(LateTime(c), map[0 := Row(Stalled, 0, 0)], map[], AllOpen(c), OPEN_CLAIM);
    var d1 := SetTx(d0, BEAT_TX, BeatHeld(BeatTime(c), BEAT));
    StepStaysReachable(c, d0, OfBulk(BEAT_TX, BeatLock), d1);
    d := SetTx(d1, BEAT_TX, Bulk(BeatTime(c), Some(BEAT), [], {}));
    assert BulkTarget(c, map[], Some(BEAT), BeatTime(c)) == {};
    assert Sorted({}) == [];
    StepStaysReachable(c, d1, OfBulk(BEAT_TX, BeatSelect), d);
    assert d.txs == AllOpen(c)[BEAT_TX := Bulk(BeatTime(c), Some(BEAT), [], {})];
  }

  /** The heartbeat commits late: the worker is available again, with an old time. */
  lemma Revives(c: Config)
    requires c.beatLimit > Patience(c)
    ensures Reachable(c, At(LateTime(c), map[0 := Row(Available, BeatTime(c), 0)], map[],
              map[CLAIM_TX := SlowClaim(c, Begun), DELETE_TX := LateDelete(c, [0], {})], OPEN_CLAIM))
  {
    var d := BeatSelects(c);
    BeatCommits(c, d);
    assert d.txs - {BEAT_TX} == map[CLAIM_TX := SlowClaim(c, Begun), DELETE_TX := LateDelete(c, [0], {})];
  }

  lemma BeatCommits(c: Config, d: Db)
    requires Reachable(c, d) && c.beatLimit > Patience(c)
    requires d.now == LateTime(c) && d.workers == map[0 := Row(Stalled, 0, 0)] && d.sessions == map[]
    requires d.claims == OPEN_CLAIM && d.used == {0} && d.notices == 1
    requires BEAT_TX in d.txs && d.txs[BEAT_TX] == Bulk(BeatTime(c), Some(BEAT), [], {})
    ensures var w := map[0 := Row(Available, BeatTime(c), 0)];
            Reachable(c, At(LateTime(c), w, map[], d.txs - {BEAT_TX}, OPEN_CLAIM))
  {
    var d' := CommitBulk(c, d, BEAT_TX, BeatTime(c), Some(BEAT), {});
    assert d'.workers == map[0 := Row(Available, BeatTime(c), 0)];
    assert d'.sessions == map[];
    StepStaysReachable(c, d, OfBulk(BEAT_TX, BulkCommit), d');
  }

  /** A state in which only the claim's phase still matters. */
  function ClaimAt(c: Config, p: ClaimPhase): Db {
    At(LateTime(c), map[0 := Row(Available, BeatTime(c), 0)], map[],
       map[CLAIM_TX := SlowClaim(c, p), DELETE_TX := LateDelete(c, [0], {})], OPEN_CLAIM)
  }

  /** The claim finds the revived worker fresh, because it is older than the heartbeat. */
  lemma ClaimLocks(c: Config)
    requires c.beatLimit > Patience(c)
    ensures Reachable(c, ClaimAt(c, Holding(0)))
  {
    Revives(c);
    var w := map[0 := Row(Available, BeatTime(c), 0)];
    assert ActiveOn(map[], 0) == {};
    assert Candidates(c, w, map[], REQUEST, StallTime(c)) == {0};
    assert InClaimOrder(w, map[], {0}) == [0];
    ClaimAdvances(c, Select, Begun, Scanning([0]));
    ClaimAdvances(c, Take, Scanning([0]), Holding(0));
  }

  /** It passes the recount and inserts its row. */
  lemma ClaimInserts(c: Config)
    requires c.beatLimit > Patience(c)
    ensures Reachable(c, ClaimAt(c, Inserted(0, 0)))
  {
    ClaimLocks(c);
    assert ActiveOn(map[], 0) == {};
    ClaimAdvances(c, Recount, Holding(0), Recounted(0));
    ClaimAdvances(c, Insert(0), Recounted(0), Inserted(0, 0));
  }

  /** It bumps the lifetime counter and asks to commit. */
  lemma ClaimSends(c: Config)
    requires c.beatLimit > Patience(c)
    ensures Reachable(c, ClaimAt(c, Committing(0, 0)))
  {
    ClaimInserts(c);
    ClaimAdvances(c, Bump, Inserted(0, 0), Bumped(0, 0));
    ClaimAdvances(c, Send, Bumped(0, 0), Committing(0, 0));
  }

  lemma ClaimAdvances(c: Config, m: ClaimMove, from: ClaimPhase, to: ClaimPhase)
    requires !m.ClaimBegin? && !m.Reply? && !m.Lost? && Reachable(c, ClaimAt(c, from))
    requires OpenClaimStep(c, ClaimAt(c, from), CLAIM_TX, m) ==
             Some(SetTx(ClaimAt(c, from), CLAIM_TX, SlowClaim(c, to)))
    ensures Reachable(c, ClaimAt(c, to))
  {
    assert ClaimAt(c, from).txs[CLAIM_TX := SlowClaim(c, to)] == ClaimAt(c, to).txs;
    StepStaysReachable(c, ClaimAt(c, from), OfClaim(CLAIM_TX, m), ClaimAt(c, to));
  }

  function LiveRow(c: Config): Session {
    ClaimedRow(c, 0, Row(Available, BeatTime(c), 0), StallTime(c))
  }

  const COMMITTED := map[CLAIM_TX := ClaimRecord(REQUEST, Some(0), Waiting)]

  /** A state in which the claim is committed and the delete still waits. */
  function Claimed(c: Config, status: WorkerStatus): Db {
    At(LateTime(c), map[0 := Row(status, BeatTime(c), 1)], map[0 := LiveRow(c)],
       map[DELETE_TX := LateDelete(c, [0], {})], COMMITTED)
  }

  lemma ClaimCommits(c: Config)
    requires c.beatLimit > Patience(c)
    ensures Reachable(c, Claimed(c, Available))
  {
    ClaimSends(c);
    var d := ClaimAt(c, Committing(0, 0));
    var d' := CommitClaim(c, d, CLAIM_TX, SlowClaim(c, Committing(0, 0)), 0, 0);
    assert d'.txs == Claimed(c, Available).txs;
    assert d'.workers == Claimed(c, Available).workers;
    assert d'.sessions == Claimed(c, Available).sessions;
    assert d'.claims == Claimed(c, Available).claims;
    StepStaysReachable(c, d, OfClaim(CLAIM_TX, ClaimCommit), d');
  }

  /** A status request, from its start to its commit, on an otherwise fixed state. */
  lemma StatusChanges(c: Config, d: Db, status: WorkerStatus)
    requires Reachable(c, d) && STATUS_TX !in d.txs && STATUS_TX !in d.claims
    requires 0 in d.workers && FreeW(d, STATUS_TX, 0) && StatusAllowed(d.workers[0].status, status)
    ensures Reachable(c, d.(workers := d.workers[0 := d.workers[0].(status := status)]))
  {
    var d1 := SetTx(d, STATUS_TX, SetStatus(d.now, 0, status, false));
    StepStaysReachable(c, d, OfWorker(STATUS_TX, StatusBegin(0, status)), d1);
    var d2 := SetTx(d1, STATUS_TX, SetStatus(d.now, 0, status, true));
    StepStaysReachable(c, d1, OfWorker(STATUS_TX, StatusLock), d2);
    assert d2.txs - {STATUS_TX} == d.txs;
    StepStaysReachable(c, d2, OfWorker(STATUS_TX, StatusCommit), CommitStatus(d2, STATUS_TX, 0, status));
  }

  /** The worker is told to drain or shut down. */
  lemma GivesUp(c: Config, status: WorkerStatus)
    requires c.beatLimit > Patience(c) && (status == Draining || status == ShuttingDown)
    ensures Reachable(c, Claimed(c, status))
  {
    ClaimCommits(c);
    var d := Claimed(c, Available);
    StatusChanges(c, d, status);
    assert d.workers[0 := d.workers[0].(status := status)] == Claimed(c, status).workers;
  }

  /** The delete gets the row lock, finds the old heartbeat, and removes the row. */
  lemma SlowRunOrphans(c: Config) returns (d: Db)
    requires c.beatLimit > Patience(c)
    ensures Reachable(c, d) && !NoOrphans(d)
  {
    var status := if c.workerTtl <= c.stalledTtl then ShuttingDown else Draining;
    GivesUp(c, status);
    var d0 := Claimed(c, status);
    var d1 := SetTx(d0, DELETE_TX, LateDelete(c, [], {0}));
    assert [0][1..] == [] && {} + {0} == {0};
    StepStaysReachable(c, d0, OfWorker(DELETE_TX, SweepLock), d1);
    d := CommitSweep(c, d1, DELETE_TX, LateTime(c), Delete, {0});
    StepStaysReachable(c, d1, OfWorker(DELETE_TX, SweepCommit), d);
    LosesItsRow(c, status, d1);
  }

  lemma LosesItsRow(c: Config, status: WorkerStatus, d: Db)
    requires status == if c.workerTtl <= c.stalledTtl then ShuttingDown else Draining
    requires d.workers == map[0 := Row(status, BeatTime(c), 1)] && d.sessions == map[0 := LiveRow(c)]
    ensures !NoOrphans(CommitSweep(c, d, DELETE_TX, LateTime(c), Delete, {0}))
  {
    var d' := CommitSweep(c, d, DELETE_TX, LateTime(c), Delete, {0});
    assert 0 in d'.sessions && Active(d'.sessions[0]) && 0 !in d'.workers;
  }

  /** Main result: every pending or running session keeps its worker row in every
      reachable state if and only if no heartbeat commits later, counted from its
      start, than the shorter of the worker timeout and the stalled-worker timeout.
      Claims, sweeps, status calls and session updates may be arbitrarily slow. */
  lemma WorkerRowsOutliveSessionsIff(c: Config)
    ensures (forall d :: Reachable(c, d) ==> NoOrphans(d)) <==> c.beatLimit <= Min(c.workerTtl, c.stalledTtl)
  {
    if c.beatLimit <= Patience(c) {
      forall d | Reachable(c, d)
        ensures NoOrphans(d)
      {
        var run :| Run(c, run) && run[|run| - 1] == d;
        PromptRunHasNoOrphans(c, run, |run| - 1);
      }
    } else {
      var d := SlowRunOrphans(c);
    }
  }
}
