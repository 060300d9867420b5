/** Staggered recycling: workers reach the lifetime limit one at a time. */
module Recycling {
  import opened Common
  import opened Tables
  import opened Capacity

  /** Part of the way to the limit. */
  predicate Partial(c: Config, w: Worker) {
    0 < w.lifetime < c.maxLifetime
  }

  ghost predicate AtMostOnePartial(c: Config, workers: Workers) {
    forall a, b :: a in workers && b in workers && Partial(c, workers[a]) && Partial(c, workers[b]) ==> a == b
  }

  /** Every worker below the limit is of the kind asked for, available and fresh. */
  ghost predicate Uniform(c: Config, workers: Workers, r: Request, now: int) {
    forall w :: w in workers && workers[w].lifetime < c.maxLifetime ==>
      ClaimColumns(c, w, workers[w], r, now) && workers[w].maxSlots > 0
  }

  /** No session uses a slot. */
  ghost predicate Idle(sessions: Sessions) {
    forall s :: s in sessions ==> Terminal(sessions[s])
  }

  /** Between claims heartbeats may refresh rows and drain workers at the limit. */
  ghost predicate SameLifetimes(a: Workers, b: Workers) {
    a.Keys == b.Keys && forall w :: w in a ==> a[w].lifetime == b[w].lifetime
  }

  /** One claim, and the heartbeats after it. */
  ghost predicate ClaimedFrom(c: Config, rows: Rows, after: Workers, r: Request, now: int, s: SessionId) {
    match Choice(c, rows, r, now)
    case None => SameLifetimes(rows.workers, after)
    case Some(w) => w in rows.workers && SameLifetimes(AfterClaim(c, rows, w, s, now).workers, after)
  }

  /** One claim when every earlier session has ended. */
  ghost predicate ClaimRound(c: Config, before: Workers, after: Workers, r: Request, now: int) {
    Uniform(c, before, r, now) &&
    exists sessions, s ::
      Idle(sessions) && s !in sessions && ClaimedFrom(c, Rows(before, sessions), after, r, now, s)
  }

  /** Whatever the load: a claim starts an unused worker only if every eligible worker
      that is part of the way has no free slot. */
  lemma NewWorkerOnlyWhenOthersAreFull(c: Config, rows: Rows, r: Request, now: int, w: WorkerId, p: WorkerId)
    requires Choice(c, rows, r, now) == Some(w)
    requires p in rows.workers && ClaimColumns(c, p, rows.workers[p], r, now) && rows.workers[p].lifetime > 0
    ensures w in rows.workers
    ensures rows.workers[w].lifetime == 0 ==> |ActiveOn(rows.sessions, p)| >= rows.workers[p].maxSlots
  {
    var cands := Candidates(c, rows.workers, rows.sessions, r, now);
    assert IsFirst(rows.workers, rows.sessions, cands, w);
    if p in cands && p != w {
      assert Before(rows.workers, rows.sessions, w, p);
    }
  }

  /** The claim goes to the one worker that is part of the way, if there is one. */
  lemma ClaimGoesToThePartial(c: Config, rows: Rows, r: Request, now: int, w: WorkerId, p: WorkerId)
    requires Uniform(c, rows.workers, r, now) && Idle(rows.sessions) && AtMostOnePartial(c, rows.workers)
    requires Choice(c, rows, r, now) == Some(w) && p in rows.workers && Partial(c, rows.workers[p])
    ensures p == w
  {
    assert ActiveOn(rows.sessions, p) == {};
    NewWorkerOnlyWhenOthersAreFull(c, rows, r, now, w, p);
    assert w in Candidates(c, rows.workers, rows.sessions, r, now);
  }

  lemma RoundKeepsAtMostOnePartial(c: Config, before: Workers, after: Workers, r: Request, now: int)
    requires ClaimRound(c, before, after, r, now) && AtMostOnePartial(c, before)
    ensures AtMostOnePartial(c, after)
  {
    var sessions, s :|
      Idle(sessions) && s !in sessions && ClaimedFrom(c, Rows(before, sessions), after, r, now, s);
    ClaimKeepsAtMostOnePartial(c, Rows(before, sessions), after, r, now, s);
  }

  lemma ClaimKeepsAtMostOnePartial(c: Config, rows: Rows, after: Workers, r: Request, now: int, s: SessionId)
    requires Uniform(c, rows.workers, r, now) && Idle(rows.sessions) && AtMostOnePartial(c, rows.workers)
    requires ClaimedFrom(c, rows, after, r, now, s)
    ensures AtMostOnePartial(c, after)
  {
    match Choice(c, rows, r, now)
    case None => SameLifetimesSamePartials(c, rows.workers, after);
    case Some(w) =>
      OnlyPartialIs(c, rows, r, now, w);
      OneGrows(c, rows, w, s, now);
      SameLifetimesSamePartials(c, AfterClaim(c, rows, w, s, now).workers, after);
  }

  ghost predicate NoOtherPartial(c: Config, workers: Workers, w: WorkerId) {
    forall p :: p in workers && Partial(c, workers[p]) ==> p == w
  }

  lemma OnlyPartialIs(c: Config, rows: Rows, r: Request, now: int, w: WorkerId)
    requires Uniform(c, rows.workers, r, now) && Idle(rows.sessions) && AtMostOnePartial(c, rows.workers)
    requires Choice(c, rows, r, now) == Some(w)
    ensures NoOtherPartial(c, rows.workers, w)
  {
    forall p | p in rows.workers && Partial(c, rows.workers[p])
      ensures p == w
    {
      ClaimGoesToThePartial(c, rows, r, now, w, p);
    }
  }

  lemma OneGrows(c: Config, rows: Rows, w: WorkerId, s: SessionId, now: int)
    requires w in rows.workers && NoOtherPartial(c, rows.workers, w)
    ensures AtMostOnePartial(c, AfterClaim(c, rows, w, s, now).workers)
  {
  }

  lemma SameLifetimesSamePartials(c: Config, a: Workers, b: Workers)
    requires SameLifetimes(a, b) && AtMostOnePartial(c, a)
    ensures AtMostOnePartial(c, b)
  {
  }

  /** Main result: workers of one kind that start unused and stay available and fresh
      below the limit, claimed one session after another, are at every moment at
      most one part of the way to the limit. */
  lemma {:induction false} WorkersRecycleOneAtATime(c: Config, fleet: seq<Workers>, r: Request, times: seq<int>, i: nat)
    requires |fleet| == |times| + 1 && i < |fleet|
    requires forall w :: w in fleet[0] ==> fleet[0][w].lifetime == 0
    requires forall k :: 0 <= k < |times| ==> ClaimRound(c, fleet[k], fleet[k + 1], r, times[k])
    ensures AtMostOnePartial(c, fleet[i])
  {
    if i > 0 {
      WorkersRecycleOneAtATime(c, fleet, r, times, i - 1);
      RoundKeepsAtMostOnePartial(c, fleet[i - 1], fleet[i], r, times[i - 1]);
    }
  }
}
