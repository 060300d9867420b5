/** Why any number of replicas may sweep at once. Each sweep runs its three transactions
    one after another as steps of the database, so that transactions of different sweeps
    overlap: their snapshots go stale, they wait for each other's row locks, and they
    test the row columns again, but not the NOT EXISTS, when they commit. */
module Sweeps {
  import opened Common
  import opened Tables
  import opened ControlPlane
  import opened Statements
  import opened Rescuers

  /** One sweep: the transactions it has committed and the one it has open. A sweep
      whose transaction fails, or whose commit reply is lost, does not go on. */
  datatype Sweeper = Sweeper(done: nat, open: Option<TxId>, failed: bool)

  datatype Fleet = Fleet(db: Db, sweepers: seq<Sweeper>)

  /** Sweeper i performs one step of the database; `lost` if it is a commit whose reply
      does not arrive. */
  datatype Turn = Turn(i: nat, action: Action, lost: bool)

  /** The step that opens transaction k of a sweep: stall, expire, delete. */
  predicate Opens(k: nat, a: Action) {
    match k
    case 0 => a.OfWorker? && a.move.SweepBegin? && a.move.kind == Stall
    case 1 => a.OfBulk? && a.bulk.ExpireBegin?
    case 2 => a.OfWorker? && a.move.SweepBegin? && a.move.kind == Delete
    case _ => false
  }

  predicate Locks(a: Action) {
    (a.OfWorker? && (a.move.SweepGone? || a.move.SweepLock?)) || (a.OfBulk? && a.bulk.BulkLock?)
  }

  predicate Finishes(a: Action) {
    (a.OfWorker? && a.move.SweepCommit?) || (a.OfBulk? && a.bulk.BulkCommit?)
  }

  predicate OnTx(a: Action, t: TxId) {
    (a.OfWorker? || a.OfBulk? || a.Abort?) && a.t == t
  }

  ghost function TurnStep(c: Config, f: Fleet, turn: Turn): Option<Fleet> {
    if turn.i >= |f.sweepers| || f.sweepers[turn.i].failed then None
    else
      var me := f.sweepers[turn.i];
      match Step(c, f.db, turn.action)
      case None => None
      case Some(d) =>
        if me.open.None? then
          if Opens(me.done, turn.action)
          then Some(Fleet(d, f.sweepers[turn.i := me.(open := Some(turn.action.t))])) else None
        else if !OnTx(turn.action, me.open.value) then None
        else if Locks(turn.action) then Some(f.(db := d))
        else if Finishes(turn.action)
        then Some(Fleet(d, f.sweepers[turn.i := Sweeper(me.done + 1, None, turn.lost)]))
        else if turn.action.Abort?
        then Some(Fleet(d, f.sweepers[turn.i := me.(open := None, failed := true)]))
        else None
  }

  predicate Starts(f: Fleet) {
    f.db.txs == map[] && forall i :: 0 <= i < |f.sweepers| ==> f.sweepers[i] == Sweeper(0, None, false)
  }

  ghost predicate Linked(c: Config, fleets: seq<Fleet>, turns: seq<Turn>, i: nat)
    requires |fleets| == |turns| + 1 && i < |turns|
  {
    TurnStep(c, fleets[i], turns[i]) == Some(fleets[i + 1])
  }

  /** Any interleaving of the steps of any number of sweeps, from any tables, with
      nothing else running. The clock stands still, because no turn moves it. */
  ghost predicate FleetRun(c: Config, fleets: seq<Fleet>, turns: seq<Turn>) {
    |fleets| == |turns| + 1 && Starts(fleets[0]) && forall i :: 0 <= i < |turns| ==> Linked(c, fleets, turns, i)
  }

  // ---------------------------------------------------------- the invariant

  /** What transaction k selects on these tables. */
  function Target(c: Config, r: Rows, k: nat, now: int): set<nat> {
    match k
    case 0 => SweepTarget(c, Stall, r.workers, r.sessions, now)
    case 1 => BulkTarget(c, r.sessions, None, now)
    case _ => SweepTarget(c, Delete, r.workers, r.sessions, now)
  }

  /** What the transaction has locked or still means to lock. */
  function Listed(tx: Tx): set<nat>
    requires tx.Sweep? || tx.Bulk?
  {
    match tx
    case Sweep(_, _, order, rows) => (set w | w in order) + rows
    case Bulk(_, _, todo, locked) => (set s | s in todo) + locked
  }

  /** The open transaction is number k of a sweep. While no sweep has committed its own
      number k, it lists the whole target; and a delete lists nothing else. */
  predicate Fits(c: Config, r: Rows, now: int, k: nat, m: nat, tx: Tx)
    requires k < 3
  {
    (if k == 1 then tx.Bulk? && tx.cause == None else tx.Sweep? && tx.kind == if k == 0 then Stall else Delete) &&
    tx.start == now &&
    (m <= k ==> Target(c, AfterFirst(c, r, k, now), k, now) <= Listed(tx)) &&
    (k == 2 ==> Listed(tx) <= Target(c, AfterFirst(c, r, 2, now), 2, now))
  }

  predicate SweeperOk(c: Config, r: Rows, now: int, m: nat, d: Db, s: Sweeper) {
    s.done <= m &&
    (s.open.Some? ==> s.done < 3 && s.open.value in d.txs && Fits(c, r, now, s.done, m, d.txs[s.open.value]))
  }

  predicate IsFurthest(sweepers: seq<Sweeper>, m: nat) {
    (forall i :: 0 <= i < |sweepers| ==> sweepers[i].done <= m) &&
    (m == 0 || exists i :: 0 <= i < |sweepers| && sweepers[i].done == m)
  }

  predicate Apart(sweepers: seq<Sweeper>) {
    forall i, j :: 0 <= i < j < |sweepers| && sweepers[i].open.Some? ==> sweepers[i].open != sweepers[j].open
  }

  /** Capacity is announced once, by the sweep that expires the sessions. */
  function Announced(c: Config, r: Rows, now: int, m: nat): nat {
    if m >= 2 && BulkTarget(c, r.sessions, None, now) != {} then 1 else 0
  }

  ghost predicate Inv(c: Config, start: Db, f: Fleet, m: nat) {
    m <= 3 && f.db.now == start.now &&
    RowsOf(f.db) == AfterFirst(c, RowsOf(start), m, start.now) &&
    f.db.notices == start.notices + Announced(c, RowsOf(start), start.now, m) &&
    (forall i :: 0 <= i < |f.sweepers| ==> SweeperOk(c, RowsOf(start), start.now, m, f.db, f.sweepers[i])) &&
    Apart(f.sweepers) && IsFurthest(f.sweepers, m)
  }

  // ------------------------------------------------- one transaction's steps

  lemma StageRows(c: Config, r: Rows, k: nat, now: int)
    requires k < 3
    ensures AfterFirst(c, r, k + 1, now) == Apply(c, AfterFirst(c, r, k, now), k, now)
  {
  }

  /** What the first m transactions did leaves nothing to select for any of them. */
  lemma NothingLeft(c: Config, r: Rows, k: nat, m: nat, now: int)
    requires k < m <= 3
    ensures Target(c, AfterFirst(c, r, m, now), k, now) == {}
  {
    ThreeTransactions(c, r, now);
    var one, two, done := AfterFirst(c, r, 1, now), AfterFirst(c, r, 2, now), AfterFirst(c, r, m, now);
    assert forall w :: w in one.workers ==> !Silent(c, one.workers[w], now);
    assert forall s :: s in two.sessions ==> !Dead(c, two.sessions[s], now);
    StageRows(c, r, 2, now);
    assert forall w :: w in done.workers ==> w in one.workers && done.workers[w] == one.workers[w];
  }

  lemma OpeningFits(c: Config, r: Rows, k: nat, m: nat, d: Db, t: TxId, a: Action, d': Db)
    requires k < 3 && k <= m <= 3 && RowsOf(d) == AfterFirst(c, r, m, d.now)
    requires Opens(k, a) && a.t == t && Step(c, d, a) == Some(d')
    ensures t !in d.txs && t in d'.txs && d' == d.(txs := d.txs[t := d'.txs[t]])
    ensures Fits(c, r, d.now, k, m, d'.txs[t])
  {
    if k < m {
      NothingLeft(c, r, k, m, d.now);
    }
    assert Listed(d'.txs[t]) == Target(c, RowsOf(d), k, d.now);
  }

  lemma SessionLockIs(c: Config, d: Db, t: TxId, a: Action, d': Db)
    requires a.OfBulk? && a.bulk.BulkLock? && a.t == t && Step(c, d, a) == Some(d') && t in d.txs
    ensures t in d'.txs && d' == d.(txs := d.txs[t := d'.txs[t]])
    ensures d.txs[t].Bulk? && d'.txs[t].Bulk? && Listed(d'.txs[t]) == Listed(d.txs[t])
    ensures d'.txs[t].start == d.txs[t].start && d'.txs[t].cause == d.txs[t].cause
  {
    assert d.txs[t].todo == [d.txs[t].todo[0]] + d.txs[t].todo[1..];
  }

  lemma WorkerLockIs(c: Config, d: Db, t: TxId, a: Action, d': Db)
    requires a.OfWorker? && (a.move.SweepGone? || a.move.SweepLock?) && a.t == t
    requires Step(c, d, a) == Some(d') && t in d.txs
    ensures t in d'.txs && d' == d.(txs := d.txs[t := d'.txs[t]])
    ensures d.txs[t].Sweep? && d'.txs[t].Sweep? && Listed(d'.txs[t]) <= Listed(d.txs[t])
    ensures forall w :: w in Listed(d.txs[t]) && w in d.workers ==> w in Listed(d'.txs[t])
    ensures d'.txs[t].start == d.txs[t].start && d'.txs[t].kind == d.txs[t].kind
  {
    assert d.txs[t].order == [d.txs[t].order[0]] + d.txs[t].order[1..];
  }

  lemma LockingFits(c: Config, r: Rows, k: nat, m: nat, d: Db, t: TxId, a: Action, d': Db)
    requires k < 3 && k <= m <= 3 && RowsOf(d) == AfterFirst(c, r, m, d.now)
    requires t in d.txs && Fits(c, r, d.now, k, m, d.txs[t])
    requires Locks(a) && a.t == t && Step(c, d, a) == Some(d')
    ensures t in d'.txs && d' == d.(txs := d.txs[t := d'.txs[t]])
    ensures Fits(c, r, d.now, k, m, d'.txs[t])
  {
    if a.OfBulk? {
      SessionLockIs(c, d, t, a, d');
    } else {
      WorkerLockIs(c, d, t, a, d');
    }
  }

  /** The first commit of transaction k does all of its work. */
  lemma FirstCommit(c: Config, r: Rows, k: nat, d: Db, t: TxId, a: Action, d': Db)
    requires k < 3 && RowsOf(d) == AfterFirst(c, r, k, d.now)
    requires t in d.txs && Fits(c, r, d.now, k, k, d.txs[t])
    requires Finishes(a) && a.t == t && Step(c, d, a) == Some(d')
    ensures RowsOf(d') == AfterFirst(c, r, k + 1, d.now) && d'.now == d.now && d'.txs == d.txs - {t}
    ensures d'.notices == d.notices + if k == 1 && Target(c, RowsOf(d), 1, d.now) != {} then 1 else 0
  {
    StageRows(c, r, k, d.now);
    var tx, target := d.txs[t], Target(c, RowsOf(d), k, d.now);
    if k == 1 {
      assert target <= tx.locked;
      assert tx.locked * target == target;
      assert d'.sessions == ExpireAll(c, d.sessions, d.now);
    } else {
      assert target <= tx.rows;
      SweepCommits(c, d, t, a, d', target);
    }
  }

  /** A commit that hits exactly the target of its own statement. */
  lemma SweepCommits(c: Config, d: Db, t: TxId, a: Action, d': Db, target: set<WorkerId>)
    requires t in d.txs && d.txs[t].Sweep? && d.txs[t].start == d.now && Step(c, d, a) == Some(d')
    requires a.OfWorker? && a.move.SweepCommit? && a.t == t
    requires target == SweepTarget(c, d.txs[t].kind, d.workers, d.sessions, d.now) && target <= d.txs[t].rows
    requires d.txs[t].kind == Delete ==> d.txs[t].rows <= target
    ensures d'.sessions == d.sessions && d'.now == d.now && d'.txs == d.txs - {t} && d'.notices == d.notices
    ensures d'.workers == match d.txs[t].kind
                          case Stall => StallAll(c, d.workers, d.now)
                          case Delete => DeleteAll(c, d.workers, d.sessions, d.now)
  {
    var rows, kind := d.txs[t].rows, d.txs[t].kind;
    var hit := set w | w in rows && w in d.workers && SweepHits(c, kind, d.workers[w], d.now);
    assert hit == target;
  }

  /** Every later commit of transaction k finds nothing left to change. */
  lemma LaterCommit(c: Config, r: Rows, k: nat, m: nat, d: Db, t: TxId, a: Action, d': Db)
    requires k < m <= 3 && RowsOf(d) == AfterFirst(c, r, m, d.now)
    requires t in d.txs && Fits(c, r, d.now, k, m, d.txs[t])
    requires Finishes(a) && a.t == t && Step(c, d, a) == Some(d')
    ensures d' == d.(txs := d.txs - {t})
  {
    NothingLeft(c, r, k, m, d.now);
    var tx := d.txs[t];
    if k == 1 {
      assert forall s :: s in d.sessions ==> s !in Target(c, RowsOf(d), 1, d.now);
      assert d'.sessions == d.sessions;
    } else {
      if k == 2 {
        StageRows(c, r, 2, d.now);
        assert forall w :: w in tx.rows ==> w in Listed(tx) && w !in d.workers;
      } else {
        assert forall w :: w in d.workers ==> w !in Target(c, RowsOf(d), 0, d.now);
      }
      assert d'.workers == d.workers;
    }
  }

  // ------------------------------------------------------------- any fleet

  /** The other sweepers stay in order while the furthest only moves on. */
  lemma OthersStayOk(c: Config, r: Rows, now: int, m: nat, m': nat, d: Db, d': Db, t: TxId, s: Sweeper)
    requires SweeperOk(c, r, now, m, d, s) && m <= m' && s.open != Some(t)
    requires forall u :: u in d.txs && u != t ==> u in d'.txs && d'.txs[u] == d.txs[u]
    ensures SweeperOk(c, r, now, m', d', s)
  {
  }

  /** Enough to carry the invariant over a turn of sweeper i on transaction t. */
  lemma TurnKeepsInv(c: Config, start: Db, f: Fleet, f': Fleet, i: nat, t: TxId, m: nat, m': nat)
    requires Inv(c, start, f, m) && i < |f.sweepers| && m <= m' <= 3
    requires |f'.sweepers| == |f.sweepers| && f'.sweepers == f.sweepers[i := f'.sweepers[i]]
    requires forall j :: 0 <= j < |f.sweepers| && j != i ==> f.sweepers[j].open != Some(t)
    requires f'.sweepers[i].open == None || f'.sweepers[i].open == Some(t)
    requires forall u :: u in f.db.txs && u != t ==> u in f'.db.txs && f'.db.txs[u] == f.db.txs[u]
    requires f'.db.now == start.now && RowsOf(f'.db) == AfterFirst(c, RowsOf(start), m', start.now)
    requires f'.db.notices == start.notices + Announced(c, RowsOf(start), start.now, m')
    requires SweeperOk(c, RowsOf(start), start.now, m', f'.db, f'.sweepers[i])
    requires f'.sweepers[i].done >= f.sweepers[i].done
    requires m' == m || f'.sweepers[i].done == m'
    ensures Inv(c, start, f', m')
  {
    forall j | 0 <= j < |f'.sweepers|
      ensures SweeperOk(c, RowsOf(start), start.now, m', f'.db, f'.sweepers[j])
    {
      if j != i {
        OthersStayOk(c, RowsOf(start), start.now, m, m', f.db, f'.db, t, f.sweepers[j]);
      }
    }
    FurthestMovesOn(f.sweepers, f'.sweepers, i, m, m');
  }

  lemma FurthestMovesOn(s: seq<Sweeper>, s': seq<Sweeper>, i: nat, m: nat, m': nat)
    requires IsFurthest(s, m) && i < |s| == |s'| && s' == s[i := s'[i]] && m <= m'
    requires s[i].done <= s'[i].done <= m' && (m' == m || s'[i].done == m')
    ensures IsFurthest(s', m')
  {
    if m' != m {
      assert s'[i].done == m';
    } else if m > 0 {
      var j :| 0 <= j < |s| && s[j].done == m;
      assert s'[j].done == m;
    }
  }

  lemma OpeningTurn(c: Config, start: Db, f: Fleet, turn: Turn, f': Fleet, m: nat)
    requires Inv(c, start, f, m) && TurnStep(c, f, turn) == Some(f') && f.sweepers[turn.i].open.None?
    ensures Inv(c, start, f', m)
  {
    var i, me, t := turn.i, f.sweepers[turn.i], turn.action.t;
    assert SweeperOk(c, RowsOf(start), start.now, m, f.db, me);
    OpeningFits(c, RowsOf(start), me.done, m, f.db, t, turn.action, f'.db);
    forall j | 0 <= j < |f.sweepers| && j != i
      ensures f.sweepers[j].open != Some(t)
    {
      assert SweeperOk(c, RowsOf(start), start.now, m, f.db, f.sweepers[j]);
    }
    TurnKeepsInv(c, start, f, f', i, t, m, m);
  }

  lemma LockingTurn(c: Config, start: Db, f: Fleet, turn: Turn, f': Fleet, m: nat)
    requires Inv(c, start, f, m) && TurnStep(c, f, turn) == Some(f')
    requires f.sweepers[turn.i].open.Some? && Locks(turn.action)
    ensures Inv(c, start, f', m)
  {
    var me := f.sweepers[turn.i];
    assert SweeperOk(c, RowsOf(start), start.now, m, f.db, me);
    LockingFits(c, RowsOf(start), me.done, m, f.db, me.open.value, turn.action, f'.db);
    TurnKeepsInv(c, start, f, f', turn.i, me.open.value, m, m);
  }

  lemma AbortingTurn(c: Config, start: Db, f: Fleet, turn: Turn, f': Fleet, m: nat)
    requires Inv(c, start, f, m) && TurnStep(c, f, turn) == Some(f')
    requires f.sweepers[turn.i].open.Some? && turn.action.Abort?
    ensures Inv(c, start, f', m)
  {
    var me := f.sweepers[turn.i];
    assert SweeperOk(c, RowsOf(start), start.now, m, f.db, me);
    TurnKeepsInv(c, start, f, f', turn.i, me.open.value, m, m);
  }

  lemma FinishingTurn(c: Config, start: Db, f: Fleet, turn: Turn, f': Fleet, m: nat) returns (m': nat)
    requires Inv(c, start, f, m) && TurnStep(c, f, turn) == Some(f')
    requires f.sweepers[turn.i].open.Some? && Finishes(turn.action)
    ensures Inv(c, start, f', m')
  {
    var me := f.sweepers[turn.i];
    assert SweeperOk(c, RowsOf(start), start.now, m, f.db, me);
    if me.done < m {
      LaterCommit(c, RowsOf(start), me.done, m, f.db, me.open.value, turn.action, f'.db);
      m' := m;
    } else {
      FirstCommit(c, RowsOf(start), m, f.db, me.open.value, turn.action, f'.db);
      ThreeTransactions(c, RowsOf(start), start.now);
      m' := m + 1;
    }
    TurnKeepsInv(c, start, f, f', turn.i, me.open.value, m, m');
  }

  /** Main result: in every state of every interleaving of any number of sweeps, their
      transactions overlapping in any way, the tables are those of a single undisturbed
      sweep that is as far as the furthest of them, and capacity was announced once if
      sessions expired. */
  lemma {:induction false} FurthestSweepDecides(c: Config, fleets: seq<Fleet>, turns: seq<Turn>, k: nat)
    returns (m: nat)
    requires FleetRun(c, fleets, turns) && k < |fleets|
    ensures Inv(c, fleets[0].db, fleets[k], m) && IsFurthest(fleets[k].sweepers, m)
    ensures RowsOf(fleets[k].db) == AfterFirst(c, RowsOf(fleets[0].db), m, fleets[0].db.now)
    decreases k
  {
    if k == 0 {
      m := 0;
    } else {
      m := FurthestSweepDecides(c, fleets, turns, k - 1);
      assert Linked(c, fleets, turns, k - 1);
      var f, turn, f' := fleets[k - 1], turns[k - 1], fleets[k];
      if f.sweepers[turn.i].open.None? {
        OpeningTurn(c, fleets[0].db, f, turn, f', m);
      } else if Locks(turn.action) {
        LockingTurn(c, fleets[0].db, f, turn, f', m);
      } else if Finishes(turn.action) {
        m := FinishingTurn(c, fleets[0].db, f, turn, f', m);
      } else {
        AbortingTurn(c, fleets[0].db, f, turn, f', m);
      }
    }
  }

  /** Main result: as soon as one sweep has finished, and for ever after, the tables are
      those that a single sweep leaves, whatever the other sweeps have open, go on to
      commit or give up. */
  lemma ConcurrentSweepsAreHarmless(c: Config, fleets: seq<Fleet>, turns: seq<Turn>, k: nat, i: nat)
    requires FleetRun(c, fleets, turns) && k < |fleets| && i < |fleets[k].sweepers| && fleets[k].sweepers[i].done == 3
    ensures var d0 := fleets[0].db;
            RowsOf(fleets[k].db) == Swept(c, RowsOf(d0), d0.now) && fleets[k].db.now == d0.now &&
            fleets[k].db.notices == d0.notices + if BulkTarget(c, d0.sessions, None, d0.now) != {} then 1 else 0
  {
    var m := FurthestSweepDecides(c, fleets, turns, k);
    assert SweeperOk(c, RowsOf(fleets[0].db), fleets[0].db.now, m, fleets[k].db, fleets[k].sweepers[i]);
  }
}
