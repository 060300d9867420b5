/** The capacity report, and what an undisturbed series of claims really gets. */
module Capacity {
  import opened Common
  import opened Tables

  /** claimOnce with nothing else running: the worker it takes, or None. */
  ghost function Choice(c: Config, rows: Rows, r: Request, now: int): Option<WorkerId> {
    var cands := Candidates(c, rows.workers, rows.sessions, r, now);
    if cands == {} then None else Some(First(rows.workers, rows.sessions, cands))
  }

  function AfterClaim(c: Config, rows: Rows, w: WorkerId, s: SessionId, now: int): Rows
    requires w in rows.workers
  {
    Rows(rows.workers[w := rows.workers[w].(lifetime := rows.workers[w].lifetime + 1)],
         rows.sessions[s := ClaimedRow(c, w, rows.workers[w], now)])
  }

  // ------------------------------------------------- sums over a table

  type Counts = map<WorkerId, nat>

  ghost function Total(f: Counts): nat
    decreases |f|
  {
    if f == map[] then 0
    else
      var k :| k in f;
      f[k] + Total(f - {k})
  }

  lemma {:induction false} TotalSplits(f: Counts, k: WorkerId)
    requires k in f
    ensures Total(f) == f[k] + Total(f - {k})
    decreases |f|
  {
    var j :| j in f && Total(f) == f[j] + Total(f - {j});
    if j != k {
      TotalSplits(f - {j}, k);
      TotalSplits(f - {k}, j);
      assert f - {j} - {k} == f - {k} - {j};
    }
  }

  lemma TotalAfterUpdate(f: Counts, k: WorkerId, v: nat)
    requires k in f
    ensures Total(f[k := v]) + f[k] == Total(f) + v
  {
    TotalSplits(f, k);
    TotalSplits(f[k := v], k);
    assert f[k := v] - {k} == f - {k};
  }

  lemma {:induction false} TotalOfZeros(f: Counts)
    ensures Total(f) == 0 <==> forall k :: k in f ==> f[k] == 0
    decreases |f|
  {
    if f != map[] {
      var k :| k in f && Total(f) == f[k] + Total(f - {k});
      TotalOfZeros(f - {k});
      assert forall j :: j in f ==> j == k || j in f - {k};
    }
  }

  lemma {:induction false} TotalIsMonotone(f: Counts, g: Counts)
    requires f.Keys == g.Keys && forall k :: k in f ==> f[k] <= g[k]
    ensures Total(f) <= Total(g)
    ensures Total(f) == Total(g) <==> f == g
    decreases |f|
  {
    if f != map[] {
      var k :| k in f && Total(f) == f[k] + Total(f - {k});
      TotalSplits(g, k);
      TotalIsMonotone(f - {k}, g - {k});
      if f - {k} == g - {k} && f[k] == g[k] {
        assert f == g by {
          forall j | j in f
            ensures f[j] == g[j]
          {
            assert j == k || (f - {k})[j] == (g - {k})[j];
          }
        }
      }
    }
  }

  // ------------------------------------------------- report and allocator

  function Free(rows: Rows, w: WorkerId): nat
    requires w in rows.workers
  {
    var active := |ActiveOn(rows.sessions, w)|;
    if active < rows.workers[w].maxSlots then rows.workers[w].maxSlots - active else 0
  }

  /** How many more sessions the worker may get: its free slots, and not more than
      its lifetime limit leaves. */
  function Room(c: Config, rows: Rows, w: WorkerId): nat
    requires w in rows.workers
  {
    if c.maxLifetime == 0 then Free(rows, w)
    else if rows.workers[w].lifetime >= c.maxLifetime then 0
    else Min(Free(rows, w), c.maxLifetime - rows.workers[w].lifetime)
  }

  /** The room of every worker the request could get. */
  function Rooms(c: Config, rows: Rows, r: Request, now: int): Counts {
    map w | w in rows.workers :: if ClaimColumns(c, w, rows.workers[w], r, now) then Room(c, rows, w) else 0
  }

  /** The free slots of every worker GetCapacityByBrowser counts for a browser. */
  function ReportedSlots(c: Config, rows: Rows, browser: string, now: int): Counts {
    map w | w in rows.workers ::
      if Serving(c, rows.workers[w], now) && rows.workers[w].browser == browser then Free(rows, w) else 0
  }

  /** The available_slots column of the report. */
  ghost function AvailableSlots(c: Config, rows: Rows, browser: string, now: int): nat {
    Total(ReportedSlots(c, rows, browser, now))
  }

  lemma ActiveAfterClaim(c: Config, rows: Rows, w: WorkerId, s: SessionId, now: int, v: WorkerId)
    requires w in rows.workers && s !in rows.sessions
    ensures ActiveOn(AfterClaim(c, rows, w, s, now).sessions, v) ==
            ActiveOn(rows.sessions, v) + (if v == w then {s} else {})
  {
  }

  lemma RoomAfterClaim(c: Config, rows: Rows, r: Request, now: int, w: WorkerId, s: SessionId, v: WorkerId)
    requires w in Candidates(c, rows.workers, rows.sessions, r, now) && s !in rows.sessions && v in rows.workers
    ensures Rooms(c, rows, r, now)[w] > 0
    ensures Rooms(c, AfterClaim(c, rows, w, s, now), r, now)[v] ==
            Rooms(c, rows, r, now)[v] - if v == w then 1 else 0
  {
    ActiveAfterClaim(c, rows, w, s, now, v);
    assert s !in ActiveOn(rows.sessions, v);
  }

  lemma ClaimTakesOneRoom(c: Config, rows: Rows, r: Request, now: int, s: SessionId)
    requires s !in rows.sessions && Choice(c, rows, r, now).Some?
    ensures var w := Choice(c, rows, r, now).value;
            w in rows.workers &&
            Total(Rooms(c, AfterClaim(c, rows, w, s, now), r, now)) == Total(Rooms(c, rows, r, now)) - 1
  {
    var w := Choice(c, rows, r, now).value;
    var before, after := Rooms(c, rows, r, now), Rooms(c, AfterClaim(c, rows, w, s, now), r, now);
    assert w in Candidates(c, rows.workers, rows.sessions, r, now);
    RoomAfterClaim(c, rows, r, now, w, s, w);
    forall v | v in before
      ensures after[v] == before[w := before[w] - 1][v]
    {
      RoomAfterClaim(c, rows, r, now, w, s, v);
    }
    assert after == before[w := before[w] - 1];
    TotalAfterUpdate(before, w, before[w] - 1);
  }

  lemma NoChoiceMeansNoRoom(c: Config, rows: Rows, r: Request, now: int)
    ensures Choice(c, rows, r, now).None? <==> Total(Rooms(c, rows, r, now)) == 0
  {
    var rooms := Rooms(c, rows, r, now);
    TotalOfZeros(rooms);
    forall w | w in rooms
      ensures rooms[w] > 0 <==> w in Candidates(c, rows.workers, rows.sessions, r, now)
    {
    }
  }

  /** Consecutive claims, one for each fresh session id, all succeed. */
  ghost predicate AllSucceed(c: Config, rows: Rows, r: Request, now: int, ids: seq<SessionId>)
    decreases |ids|
  {
    ids == [] ||
    (Choice(c, rows, r, now).Some? &&
     AllSucceed(c, AfterClaim(c, rows, Choice(c, rows, r, now).value, ids[0], now), r, now, ids[1..]))
  }

  ghost predicate FreshIds(rows: Rows, ids: seq<SessionId>) {
    (forall i :: 0 <= i < |ids| ==> ids[i] !in rows.sessions) && forall i, j :: 0 <= i < j < |ids| ==> ids[i] != ids[j]
  }

  /** Main result: with the clock frozen and nothing else running, the number of
      consecutive claims that succeed before there is no capacity is exactly the
      total room of the workers the request accepts. */
  lemma {:induction false} ClaimsUseExactlyTheRoom(c: Config, rows: Rows, r: Request, now: int, ids: seq<SessionId>)
    requires FreshIds(rows, ids)
    ensures AllSucceed(c, rows, r, now, ids) <==> |ids| <= Total(Rooms(c, rows, r, now))
    decreases |ids|
  {
    if ids != [] {
      NoChoiceMeansNoRoom(c, rows, r, now);
      if Choice(c, rows, r, now).Some? {
        ClaimTakesOneRoom(c, rows, r, now, ids[0]);
        var rest := AfterClaim(c, rows, Choice(c, rows, r, now).value, ids[0], now);
        assert FreshIds(rest, ids[1..]);
        ClaimsUseExactlyTheRoom(c, rest, r, now, ids[1..]);
      }
    }
  }

  /** Any client of a browser: no version asked for, no worker excluded. */
  function AnyVersion(browser: string): Request {
    Request(browser, "", {})
  }

  /** Main result: the report never promises less than the allocator gives, and the
      two agree exactly when no serving worker of that browser has more free slots
      than its lifetime limit leaves; in particular whenever there is no limit. */
  lemma ReportAgreesIff(c: Config, rows: Rows, browser: string, now: int)
    ensures Total(Rooms(c, rows, AnyVersion(browser), now)) <= AvailableSlots(c, rows, browser, now)
    ensures Total(Rooms(c, rows, AnyVersion(browser), now)) == AvailableSlots(c, rows, browser, now) <==>
            forall w :: w in rows.workers && Serving(c, rows.workers[w], now) && rows.workers[w].browser == browser ==>
              c.maxLifetime == 0 || Free(rows, w) <= c.maxLifetime - rows.workers[w].lifetime
  {
    var rooms, slots := Rooms(c, rows, AnyVersion(browser), now), ReportedSlots(c, rows, browser, now);
    TotalIsMonotone(rooms, slots);
    if forall w :: w in rows.workers && Serving(c, rows.workers[w], now) && rows.workers[w].browser == browser ==>
         c.maxLifetime == 0 || Free(rows, w) <= c.maxLifetime - rows.workers[w].lifetime {
      assert rooms == slots;
    } else {
      var w :| w in rows.workers && Serving(c, rows.workers[w], now) && rows.workers[w].browser == browser &&
               !(c.maxLifetime == 0 || Free(rows, w) <= c.maxLifetime - rows.workers[w].lifetime);
      assert rooms[w] < slots[w];
    }
  }

  /** Without a lifetime limit the report is exact. */
  lemma ReportIsExactWithoutLimit(c: Config, rows: Rows, browser: string, now: int, ids: seq<SessionId>)
    requires c.maxLifetime == 0 && FreshIds(rows, ids)
    ensures AllSucceed(c, rows, AnyVersion(browser), now, ids) <==> |ids| <= AvailableSlots(c, rows, browser, now)
  {
    ClaimsUseExactlyTheRoom(c, rows, AnyVersion(browser), now, ids);
    ReportAgreesIff(c, rows, browser, now);
  }
}
