/** Admission: the bounded queue and the retry loop around claimOnce.
    Everything a call observes from outside comes in through an environment: what each
    claimOnce returned and committed, how its contexts stood, what woke it, and what
    other calls did to the queue meanwhile. */
module Admission {
  import opened Common
  import opened Tables
  import opened ControlPlane
  import opened Safety

  const MAX_CLAIM_ATTEMPTS: nat := 8

  datatype ContextError = Canceled | DeadlineExceeded

  datatype Failure =
    | ErrNoCapacity
    | ErrQueueFull
    | ErrWaitTimeout
    | ErrDraining
    | ErrUncertainCommit
    | ErrContext(cause: ContextError)
    | ErrDatabase

  datatype Result = Admitted(session: SessionId) | Refused(failure: Failure)

  /** What claimOnce returned. */
  datatype Outcome =
    | Claimed(session: SessionId)
    | Full(worker: WorkerId)
    | Nothing
    | Unsure
    | Broken(cause: Option<ContextError>)

  /** One claimOnce: what it returned, and the session row it really committed. */
  datatype Attempt = Attempt(outcome: Outcome, committed: Option<SessionId>)

  /** A caller may rely on this: see ReachableClaimsAreHonest. */
  predicate Honest(a: Attempt) {
    match a.outcome
    case Claimed(s) => a.committed == Some(s)
    case Unsure => true
    case _ => a.committed == None
  }

  /** The attempt that a claim record of the database stands for, once answered. */
  function AttemptOf(r: ClaimRecord, cause: Option<ContextError>): Attempt
    requires r.report != Waiting
  {
    Attempt(match r.report
            case Granted(s) => Claimed(s)
            case NoCapacity(full) => if full.Some? then Full(full.value) else Nothing
            case Errored => Broken(cause)
            case Uncertain => Unsure,
            r.committed)
  }

  /** In every reachable state of the database every answered claim is honest, and a
      worker reported full is not one the request had excluded. */
  lemma ReachableClaimsAreHonest(c: Config, d: Db, t: TxId, cause: Option<ContextError>)
    requires Reachable(c, d) && t in d.claims && d.claims[t].report != Waiting
    ensures var a := AttemptOf(d.claims[t], cause);
            Honest(a) && (a.outcome.Full? ==> a.outcome.worker !in d.claims[t].request.excluded)
  {
    var run :| Run(c, run) && run[|run| - 1] == d;
    RunKeepsInv(c, run, |run| - 1);
    assert RecordOk(d, t);
  }

  /** The contexts at one instant: the request's, the server's lifecycle, and the
      queue wait derived from the request's. */
  datatype Moment = Moment(request: Option<ContextError>, draining: bool, wait: Option<ContextError>)

  /** The order in which a queued call reports why it must stop. */
  function QueueWaitError(m: Moment): Option<Failure> {
    if m.request.Some? then Some(ErrContext(m.request.value))
    else if m.draining then Some(ErrDraining)
    else if m.wait == Some(DeadlineExceeded) then Some(ErrWaitTimeout)
    else if m.wait.Some? then Some(ErrContext(m.wait.value))
    else None
  }

  /** What ended the select. */
  datatype WakeCause = WaitDone | LifecycleDone | Token | PollTimer

  /** One turn of the loop. `others` is what other calls do to the queue during it:
      true for a call that tries to enter, false for one that leaves. */
  datatype Turn = Turn(
    before: Moment,
    attempt: Attempt,
    after: Moment,
    cause: WakeCause,
    atSelect: Moment,
    others: seq<bool>)

  /** No other call enters or leaves the queue during these turns. */
  predicate Undisturbed(turns: seq<Turn>) {
    forall i :: 0 <= i < |turns| ==> turns[i].others == []
  }

  /** The select sees the wait context done only when it is. */
  predicate Sane(t: Turn) {
    t.cause == WaitDone ==> t.atSelect.wait.Some?
  }

  predicate AllSane(turns: seq<Turn>) {
    forall i :: 0 <= i < |turns| ==> Sane(turns[i])
  }

  /** One attempt of the direct claim, and how waiting for the next one ended. */
  datatype Try = Try(attempt: Attempt, retry: Option<ContextError>)

  /** What the direct claim makes of its attempts: it stops at the first answer other
      than no capacity, at a context error between attempts, or after the last one. */
  function ClaimResult(tries: seq<Try>): Result {
    if |tries| == 0 then Refused(ErrNoCapacity)
    else match tries[0].attempt.outcome
      case Claimed(s) => Admitted(s)
      case Unsure => Refused(ErrUncertainCommit)
      case Broken(cause) => Refused(if cause.Some? then ErrContext(cause.value) else ErrDatabase)
      case Full(_) => ClaimResult(tries[1..])
      case Nothing =>
        if |tries| > 1 && tries[0].retry.Some? then Refused(ErrContext(tries[0].retry.value))
        else ClaimResult(tries[1..])
  }

  /** How one turn of the queue loop ends the call, if it does. */
  function Decision(t: Turn): Option<Result> {
    if QueueWaitError(t.before).Some? then Some(Refused(QueueWaitError(t.before).value))
    else match t.attempt.outcome
      case Claimed(s) => Some(Admitted(s))
      case Full(_) => None
      case Unsure => Some(Refused(ErrUncertainCommit))
      case _ =>
        if QueueWaitError(t.after).Some? then Some(Refused(QueueWaitError(t.after).value))
        else if t.attempt.outcome.Broken? && t.attempt.outcome.cause.Some?
        then Some(Refused(ErrContext(t.attempt.outcome.cause.value)))
        else match t.cause
          case WaitDone => (match QueueWaitError(t.atSelect)
                            case Some(f) => Some(Refused(f))
                            case None => None)
          case LifecycleDone => Some(Refused(ErrDraining))
          case _ => None
  }

  /** The first turn that ends the call. */
  function QueueResult(turns: seq<Turn>): Option<Result> {
    if |turns| == 0 then None
    else if Decision(turns[0]).Some? then Decision(turns[0])
    else QueueResult(turns[1..])
  }

  // ------------------------------------- which failure a stopped call reports

  /** Nothing stops the call: its request lives, the server does not drain, and the
      queue wait has not ended. */
  predicate Clear(m: Moment) {
    m.request == None && !m.draining && m.wait == None
  }

  /** The request's own end comes first, then draining, then the end of the wait. */
  predicate Stops(m: Moment, f: Failure) {
    match f
    case ErrContext(cause) =>
      m.request == Some(cause) ||
      (m.request == None && !m.draining && m.wait == Some(Canceled) && cause == Canceled)
    case ErrDraining => m.request == None && m.draining
    case ErrWaitTimeout => m.request == None && !m.draining && m.wait == Some(DeadlineExceeded)
    case _ => false
  }

  /** The turn leaves the call in the queue: it found a full worker, or it found nothing
      (or a database error) with nothing to stop it, and a token or the poll timer ended
      the wait. */
  predicate Inconclusive(t: Turn) {
    Clear(t.before) &&
    (t.attempt.outcome.Full? ||
     ((t.attempt.outcome == Nothing || t.attempt.outcome == Broken(None)) &&
      Clear(t.after) && (t.cause == Token || t.cause == PollTimer)))
  }

  /** The turn ends the call with this result. */
  predicate EndsWith(t: Turn, result: Result) {
    if !Clear(t.before) then result.Refused? && Stops(t.before, result.failure)
    else match t.attempt.outcome
      case Claimed(s) => result == Admitted(s)
      case Unsure => result == Refused(ErrUncertainCommit)
      case Full(_) => false
      case _ =>
        result.Refused? &&
        if !Clear(t.after) then Stops(t.after, result.failure)
        else if t.attempt.outcome.Broken? && t.attempt.outcome.cause.Some?
        then result.failure == ErrContext(t.attempt.outcome.cause.value)
        else (t.cause == LifecycleDone && result.failure == ErrDraining) ||
             (t.cause == WaitDone && Stops(t.atSelect, result.failure))
  }

  lemma StopsAreQueueWaitErrors(m: Moment, f: Failure)
    ensures QueueWaitError(m) == Some(f) <==> Stops(m, f)
    ensures QueueWaitError(m) == None <==> Clear(m)
  {
    if m.wait.Some? {
      assert m.wait.value == Canceled || m.wait.value == DeadlineExceeded;
    }
    if f.ErrContext? {
      assert f.cause == Canceled || f.cause == DeadlineExceeded;
    }
  }

  lemma TurnTable(t: Turn, result: Result)
    requires Sane(t)
    ensures Decision(t) == Some(result) <==> EndsWith(t, result)
    ensures Decision(t) == None <==> Inconclusive(t)
  {
    if result.Refused? {
      StopsAreQueueWaitErrors(t.before, result.failure);
      StopsAreQueueWaitErrors(t.after, result.failure);
      StopsAreQueueWaitErrors(t.atSelect, result.failure);
    }
  }

  /** The first k turns are inconclusive. */
  predicate StillQueued(turns: seq<Turn>, k: nat)
    requires k <= |turns|
  {
    forall i :: 0 <= i < k ==> Inconclusive(turns[i])
  }

  /** Turn k is the first that is not inconclusive: it ends the call with this result,
      and it is the last to ask for a worker, unless it was stopped before it asked. */
  predicate EndsAt(turns: seq<Turn>, k: nat, result: Result, asked: int) {
    k < |turns| && StillQueued(turns, k) && EndsWith(turns[k], result) &&
    asked == if Clear(turns[k].before) then k + 1 else k
  }

  /** How a queued call ends: with the first turn that is not inconclusive, or not yet. */
  lemma {:induction false} QueueEnds(turns: seq<Turn>, excluded: seq<WorkerId>) returns (k: nat)
    requires AllSane(turns)
    ensures k <= |turns| && StillQueued(turns, k)
    ensures match QueueResult(turns)
            case None => k == |turns| == |QueueAsks(turns, excluded)|
            case Some(result) => EndsAt(turns, k, result, |QueueAsks(turns, excluded)|)
  {
    if turns == [] {
      return 0;
    }
    FirstTurn(turns, excluded);
    if Decision(turns[0]).Some? {
      return 0;
    }
    var w := turns[0].attempt.outcome;
    k := QueueEnds(turns[1..], if w.Full? then excluded + [w.worker] else []);
    LaterTurns(turns, k);
    k := k + 1;
  }

  lemma FirstTurn(turns: seq<Turn>, excluded: seq<WorkerId>)
    requires turns != [] && AllSane(turns)
    ensures AllSane(turns[1..])
    ensures match Decision(turns[0])
            case Some(result) =>
              QueueResult(turns) == Some(result) && EndsAt(turns, 0, result, |QueueAsks(turns, excluded)|)
            case None =>
              Inconclusive(turns[0]) && QueueResult(turns) == QueueResult(turns[1..]) &&
              var more := if turns[0].attempt.outcome.Full? then excluded + [turns[0].attempt.outcome.worker] else [];
              |QueueAsks(turns, excluded)| == 1 + |QueueAsks(turns[1..], more)|
  {
    var t := turns[0];
    assert Sane(t);
    TurnTable(t, if Decision(t).Some? then Decision(t).value else Refused(ErrNoCapacity));
    StopsAreQueueWaitErrors(t.before, ErrDraining);
  }

  lemma LaterTurns(turns: seq<Turn>, k: nat)
    requires turns != [] && k <= |turns[1..]| && StillQueued(turns[1..], k) && Inconclusive(turns[0])
    ensures StillQueued(turns, k + 1)
    ensures forall result, asked :: EndsAt(turns[1..], k, result, asked) ==> EndsAt(turns, k + 1, result, asked + 1)
  {
    forall i | 0 <= i < k + 1
      ensures Inconclusive(turns[i])
    {
      assert i > 0 ==> turns[i] == turns[1..][i - 1];
    }
  }

  /** The call ended with its first turn that is not inconclusive, after this many asks,
      or it is still queued after all of them. */
  ghost predicate EndsProperly(turns: seq<Turn>, result: Option<Result>, asked: int) {
    match result
    case None => StillQueued(turns, |turns|) && asked == |turns|
    case Some(r) => exists k :: EndsAt(turns, k, r, asked)
  }

  lemma QueueEndsProperly(turns: seq<Turn>)
    requires AllSane(turns)
    ensures EndsProperly(turns, QueueResult(turns), |QueueAsks(turns, [])|)
  {
    var k := QueueEnds(turns, []);
  }

  /** Main result: what a queued call answers when its turn k, the first that is not
      inconclusive, begins with something to stop it. A draining server hands out
      nothing and says so, unless the request itself has ended, which comes first. */
  lemma StoppedBeforeAsking(turns: seq<Turn>, k: nat)
    requires AllSane(turns) && k < |turns| && StillQueued(turns, k) && !Clear(turns[k].before)
    ensures |QueueAsks(turns, [])| == k && QueueResult(turns).Some?
    ensures var m := turns[k].before;
            QueueResult(turns).value ==
            Refused(if m.request.Some? then ErrContext(m.request.value)
                    else if m.draining then ErrDraining
                    else if m.wait == Some(DeadlineExceeded) then ErrWaitTimeout
                    else ErrContext(Canceled))
  {
    var j := QueueEnds(turns, []);
    FirstIsUnique(turns, k, j);
  }

  /** Likewise when something stops it after a claim that found nothing or failed. */
  lemma StoppedAfterAsking(turns: seq<Turn>, k: nat)
    requires AllSane(turns) && k < |turns| && StillQueued(turns, k)
    requires Clear(turns[k].before) && !Clear(turns[k].after)
    requires turns[k].attempt.outcome.Nothing? || turns[k].attempt.outcome.Broken?
    ensures |QueueAsks(turns, [])| == k + 1 && QueueResult(turns).Some?
    ensures var m := turns[k].after;
            QueueResult(turns).value ==
            Refused(if m.request.Some? then ErrContext(m.request.value)
                    else if m.draining then ErrDraining
                    else if m.wait == Some(DeadlineExceeded) then ErrWaitTimeout
                    else ErrContext(Canceled))
  {
    var j := QueueEnds(turns, []);
    FirstIsUnique(turns, k, j);
  }

  lemma FirstIsUnique(turns: seq<Turn>, k: nat, j: nat)
    requires k < |turns| && StillQueued(turns, k) && !Inconclusive(turns[k])
    requires j <= |turns| && StillQueued(turns, j) && (j < |turns| ==> !Inconclusive(turns[j]))
    ensures j == k
  {
    assert j > k ==> false;
    assert j < k ==> false;
  }

  /** The workers excluded in turn i: those reported full in the unbroken block of
      immediate retries just before it. Parking forgets them all, so that a round
      which a wake-up begins looks at every worker again. */
  function ExcludedAt(turns: seq<Turn>, i: nat): seq<WorkerId>
    requires i <= |turns|
  {
    if i == 0 then []
    else match turns[i - 1].attempt.outcome
      case Full(w) => ExcludedAt(turns, i - 1) + [w]
      case _ => []
  }

  predicate Distinct(e: seq<WorkerId>) {
    forall i, j :: 0 <= i < j < |e| ==> e[i] != e[j]
  }

  lemma DistinctExtends(e: seq<WorkerId>, w: WorkerId)
    requires Distinct(e) && w !in e
    ensures Distinct(e + [w])
  {
  }

  /** In the first i turns claimOnce reported no worker that it was told to exclude. */
  predicate RespectsExclusions(turns: seq<Turn>, i: nat)
    requires i <= |turns|
  {
    i == 0 ||
    (RespectsExclusions(turns, i - 1) &&
     (turns[i - 1].attempt.outcome.Full? ==> turns[i - 1].attempt.outcome.worker !in ExcludedAt(turns, i - 1)))
  }

  /** If claimOnce never reports a worker it was told to exclude, then a block of
      immediate retries names a new worker each time: it cannot spin. */
  lemma {:induction false} RetriesNameNewWorkers(turns: seq<Turn>, i: nat)
    requires i <= |turns| && RespectsExclusions(turns, i)
    ensures Distinct(ExcludedAt(turns, i))
  {
    if i > 0 && turns[i - 1].attempt.outcome.Full? {
      RetriesNameNewWorkers(turns, i - 1);
      DistinctExtends(ExcludedAt(turns, i - 1), turns[i - 1].attempt.outcome.worker);
    }
  }

  /** At most one session is committed, and the result says which: success returns
      exactly that one, and a failure other than an uncertain commit means none. */
  predicate Accounts(result: Result, commits: seq<SessionId>) {
    |commits| <= 1 &&
    match result
    case Admitted(s) => commits == [s]
    case Refused(f) => f != ErrUncertainCommit ==> commits == []
  }

  function CommitsOf(a: Attempt): seq<SessionId> {
    if a.committed.Some? then [a.committed.value] else []
  }

  // -------------------------------------------------- the claims a call makes

  /** One claimOnce: the workers it was told to exclude, and how it went. */
  datatype Ask = Ask(excluded: seq<WorkerId>, attempt: Attempt)

  /** Every session the asks committed, in order. */
  function Commits(asks: seq<Ask>): seq<SessionId> {
    if asks == [] then [] else CommitsOf(asks[0].attempt) + Commits(asks[1..])
  }

  lemma Regroup(a: seq<SessionId>, b: seq<SessionId>, c: seq<SessionId>)
    ensures a + (b + c) == a + b + c
  {
  }

  lemma {:induction false} CommitsAppend(asks: seq<Ask>, more: seq<Ask>)
    ensures Commits(asks + more) == Commits(asks) + Commits(more)
  {
    if asks == [] {
      assert asks + more == more;
    } else {
      var all := asks + more;
      assert all[0] == asks[0] && all[1..] == asks[1..] + more;
      CommitsAppend(asks[1..], more);
      Regroup(CommitsOf(asks[0].attempt), Commits(asks[1..]), Commits(more));
    }
  }

  /** The direct claim's asks: it never forgets a worker that was full. */
  function DirectAsks(tries: seq<Try>, excluded: seq<WorkerId>): seq<Ask> {
    if tries == [] then []
    else [Ask(excluded, tries[0].attempt)] +
         match tries[0].attempt.outcome
         case Full(w) => DirectAsks(tries[1..], excluded + [w])
         case Nothing => if |tries| > 1 && tries[0].retry.Some? then [] else DirectAsks(tries[1..], excluded)
         case _ => []
  }

  /** The queue loop's asks: parking forgets the excluded workers. */
  function QueueAsks(turns: seq<Turn>, excluded: seq<WorkerId>): seq<Ask> {
    if turns == [] || QueueWaitError(turns[0].before).Some? then []
    else [Ask(excluded, turns[0].attempt)] +
         if turns[0].attempt.outcome.Full? then QueueAsks(turns[1..], excluded + [turns[0].attempt.outcome.worker])
         else if Decision(turns[0]).Some? then [] else QueueAsks(turns[1..], [])
  }

  /** What is left to ask after the first of the remaining attempts. */
  function DirectRest(tries: seq<Try>, i: nat, excluded: seq<WorkerId>): seq<Ask>
    requires i < |tries|
  {
    match tries[i].attempt.outcome
    case Full(w) => DirectAsks(tries[i + 1..], excluded + [w])
    case Nothing => if i + 1 < |tries| && tries[i].retry.Some? then [] else DirectAsks(tries[i + 1..], excluded)
    case _ => []
  }

  lemma {:induction false} FewDirectAsks(tries: seq<Try>, excluded: seq<WorkerId>)
    ensures |DirectAsks(tries, excluded)| <= |tries|
  {
    if tries != [] {
      match tries[0].attempt.outcome
      case Full(w) => FewDirectAsks(tries[1..], excluded + [w]);
      case Nothing => FewDirectAsks(tries[1..], excluded);
      case _ =>
    }
  }

  lemma DirectStep(tries: seq<Try>, i: nat, excluded: seq<WorkerId>)
    requires i < |tries|
    ensures DirectAsks(tries[i..], excluded) == [Ask(excluded, tries[i].attempt)] + DirectRest(tries, i, excluded)
  {
    assert tries[i..][0] == tries[i] && tries[i..][1..] == tries[i + 1..];
  }

  /** One more ask has been made; the others are still to come. */
  lemma AskMade(all: seq<Ask>, asks: seq<Ask>, ask: Ask, rest: seq<Ask>)
    requires all == asks + ([ask] + rest)
    ensures all == asks + [ask] + rest
    ensures Commits(asks + [ask]) == Commits(asks) + CommitsOf(ask.attempt)
  {
    CommitsAppend(asks, [ask]);
  }

  function QueueRest(turns: seq<Turn>, i: nat, excluded: seq<WorkerId>): seq<Ask>
    requires i < |turns|
  {
    if turns[i].attempt.outcome.Full? then QueueAsks(turns[i + 1..], excluded + [turns[i].attempt.outcome.worker])
    else if Decision(turns[i]).Some? then [] else QueueAsks(turns[i + 1..], [])
  }

  lemma QueueStep(turns: seq<Turn>, i: nat, excluded: seq<WorkerId>)
    requires i < |turns|
    ensures QueueAsks(turns[i..], excluded) ==
            if QueueWaitError(turns[i].before).Some? then []
            else [Ask(excluded, turns[i].attempt)] + QueueRest(turns, i, excluded)
  {
    assert turns[i..][0] == turns[i] && turns[i..][1..] == turns[i + 1..];
  }

  lemma QueueResultStep(turns: seq<Turn>, i: nat)
    requires i < |turns|
    ensures QueueResult(turns[i..]) ==
            if Decision(turns[i]).Some? then Decision(turns[i]) else QueueResult(turns[i + 1..])
  {
    assert turns[i..][0] == turns[i] && turns[i..][1..] == turns[i + 1..];
  }

  /** What is settled after attempt i of the direct claim, and what is left of it. */
  lemma TryMade(tries: seq<Try>, i: nat, excluded: seq<WorkerId>, all: seq<Ask>, asks: seq<Ask>)
    requires i < |tries| && all == asks + DirectAsks(tries[i..], excluded)
    ensures all == asks + [Ask(excluded, tries[i].attempt)] + DirectRest(tries, i, excluded)
    ensures Commits(asks + [Ask(excluded, tries[i].attempt)]) == Commits(asks) + CommitsOf(tries[i].attempt)
    ensures ClaimResult(tries[i..]) ==
            match tries[i].attempt.outcome
            case Claimed(s) => Admitted(s)
            case Unsure => Refused(ErrUncertainCommit)
            case Broken(cause) => Refused(if cause.Some? then ErrContext(cause.value) else ErrDatabase)
            case Full(_) => ClaimResult(tries[i + 1..])
            case Nothing =>
              if i + 1 < |tries| && tries[i].retry.Some? then Refused(ErrContext(tries[i].retry.value))
              else ClaimResult(tries[i + 1..])
  {
    DirectStep(tries, i, excluded);
    AskMade(all, asks, Ask(excluded, tries[i].attempt), DirectRest(tries, i, excluded));
    assert tries[i..][0] == tries[i] && tries[i..][1..] == tries[i + 1..];
  }

  /** What is settled after turn i, and what the rest of the loop still has to do. */
  lemma TurnMade(turns: seq<Turn>, i: nat, excluded: seq<WorkerId>, next: seq<WorkerId>, all: seq<Ask>, asks: seq<Ask>)
    requires i < |turns| && all == asks + QueueAsks(turns[i..], excluded)
    requires turns[i].attempt.outcome.Full? && Decision(turns[i]).None? ==>
               next == excluded + [turns[i].attempt.outcome.worker]
    requires !turns[i].attempt.outcome.Full? && Decision(turns[i]).None? ==> next == []
    ensures var stopped := QueueWaitError(turns[i].before).Some?;
            var made := if stopped then asks else asks + [Ask(excluded, turns[i].attempt)];
            if Decision(turns[i]).Some? then all == made && QueueResult(turns[i..]) == Decision(turns[i])
            else all == made + QueueAsks(turns[i + 1..], next) && QueueResult(turns[i..]) == QueueResult(turns[i + 1..])
  {
    QueueStep(turns, i, excluded);
    QueueResultStep(turns, i);
    if QueueWaitError(turns[i].before).None? {
      AskMade(all, asks, Ask(excluded, turns[i].attempt), QueueRest(turns, i, excluded));
    }
  }

  predicate AllHonest(asks: seq<Ask>) {
    forall i :: 0 <= i < |asks| ==> Honest(asks[i].attempt)
  }

  lemma TailIsHonest(asks: seq<Ask>)
    requires AllHonest(asks) && asks != []
    ensures Honest(asks[0].attempt) && AllHonest(asks[1..])
  {
    forall i | 0 <= i < |asks[1..]|
      ensures Honest(asks[1..][i].attempt)
    {
      assert asks[1..][i] == asks[i + 1];
    }
  }

  lemma {:induction false} DirectAccounts(tries: seq<Try>, excluded: seq<WorkerId>)
    requires AllHonest(DirectAsks(tries, excluded))
    ensures Accounts(ClaimResult(tries), Commits(DirectAsks(tries, excluded)))
  {
    if tries != [] {
      var asks := DirectAsks(tries, excluded);
      TailIsHonest(asks);
      match tries[0].attempt.outcome
      case Full(w) =>
        assert asks[1..] == DirectAsks(tries[1..], excluded + [w]);
        DirectAccounts(tries[1..], excluded + [w]);
      case Nothing =>
        if !(|tries| > 1 && tries[0].retry.Some?) {
          assert asks[1..] == DirectAsks(tries[1..], excluded);
          DirectAccounts(tries[1..], excluded);
        }
      case _ =>
    }
  }

  /** While the call is undecided nothing was committed for it. */
  predicate QueueAccounted(result: Option<Result>, commits: seq<SessionId>) {
    if result.Some? then Accounts(result.value, commits) else commits == []
  }

  lemma {:induction false} QueueAccounts(turns: seq<Turn>, excluded: seq<WorkerId>)
    requires AllHonest(QueueAsks(turns, excluded))
    ensures QueueAccounted(QueueResult(turns), Commits(QueueAsks(turns, excluded)))
  {
    if turns != [] && QueueWaitError(turns[0].before).None? {
      var asks := QueueAsks(turns, excluded);
      TailIsHonest(asks);
      if turns[0].attempt.outcome.Full? {
        var more := excluded + [turns[0].attempt.outcome.worker];
        assert asks[1..] == QueueAsks(turns[1..], more);
        QueueAccounts(turns[1..], more);
      } else if Decision(turns[0]).None? {
        assert asks[1..] == QueueAsks(turns[1..], []);
        QueueAccounts(turns[1..], []);
      }
    }
  }

  /** Ask i of the queue loop belongs to turn i and excludes what ExcludedAt says. */
  lemma {:induction false} QueueAsksExclude(turns: seq<Turn>, k: nat, i: nat)
    requires k <= |turns| && i < |QueueAsks(turns[k..], ExcludedAt(turns, k))|
    ensures k + i < |turns|
    ensures QueueAsks(turns[k..], ExcludedAt(turns, k))[i] == Ask(ExcludedAt(turns, k + i), turns[k + i].attempt)
    decreases |turns| - k
  {
    assert turns[k..][1..] == turns[k + 1..];
    if i > 0 {
      QueueAsksExclude(turns, k + 1, i - 1);
    }
  }

  /** No ask reports a worker full that it was told to exclude. */
  predicate AllRespectful(asks: seq<Ask>) {
    forall i :: 0 <= i < |asks| && asks[i].attempt.outcome.Full? ==> asks[i].attempt.outcome.worker !in asks[i].excluded
  }

  predicate AllDistinct(asks: seq<Ask>) {
    forall i :: 0 <= i < |asks| ==> Distinct(asks[i].excluded)
  }

  lemma TailIsRespectful(asks: seq<Ask>)
    requires AllRespectful(asks) && asks != []
    ensures AllRespectful(asks[1..])
  {
    forall i | 0 <= i < |asks[1..]| && asks[1..][i].attempt.outcome.Full?
      ensures asks[1..][i].attempt.outcome.worker !in asks[1..][i].excluded
    {
      assert asks[1..][i] == asks[i + 1];
    }
  }

  lemma {:induction false} DirectAsksAreDistinct(tries: seq<Try>, excluded: seq<WorkerId>)
    requires Distinct(excluded) && AllRespectful(DirectAsks(tries, excluded))
    ensures AllDistinct(DirectAsks(tries, excluded))
  {
    if tries != [] {
      var asks := DirectAsks(tries, excluded);
      TailIsRespectful(asks);
      match tries[0].attempt.outcome
      case Full(w) =>
        assert asks[1..] == DirectAsks(tries[1..], excluded + [w]);
        assert asks[0].attempt.outcome.worker !in asks[0].excluded;
        DistinctExtends(excluded, w);
        DirectAsksAreDistinct(tries[1..], excluded + [w]);
      case Nothing =>
        if !(|tries| > 1 && tries[0].retry.Some?) {
          assert asks[1..] == DirectAsks(tries[1..], excluded);
          DirectAsksAreDistinct(tries[1..], excluded);
        }
      case _ =>
    }
  }

  lemma {:induction false} QueueAsksAreDistinct(turns: seq<Turn>, excluded: seq<WorkerId>)
    requires Distinct(excluded) && AllRespectful(QueueAsks(turns, excluded))
    ensures AllDistinct(QueueAsks(turns, excluded))
  {
    if turns != [] && QueueWaitError(turns[0].before).None? {
      var asks := QueueAsks(turns, excluded);
      TailIsRespectful(asks);
      if turns[0].attempt.outcome.Full? {
        var w := turns[0].attempt.outcome.worker;
        assert asks[1..] == QueueAsks(turns[1..], excluded + [w]);
        assert asks[0].attempt.outcome.worker !in asks[0].excluded;
        DistinctExtends(excluded, w);
        QueueAsksAreDistinct(turns[1..], excluded + [w]);
      } else if Decision(turns[0]).None? {
        assert asks[1..] == QueueAsks(turns[1..], []);
        QueueAsksAreDistinct(turns[1..], []);
      }
    }
  }

  // --------------------------------------------------------- one whole Admit

  /** What one Admit observes: whether the server drains at its two checks, its direct
      attempts, what other calls do to the queue before it tries to enter, and its turns
      in the queue. */
  datatype World = World(
    drainingAtStart: bool,
    tries: seq<Try>,
    drainingAfter: bool,
    others: seq<bool>,
    turns: seq<Turn>)

  predicate WorldOk(w: World) {
    |w.tries| == MAX_CLAIM_ATTEMPTS && AllSane(w.turns)
  }

  /** The call gets as far as asking for a place in the queue. */
  predicate ReachesQueue(w: World) {
    !w.drainingAtStart && ClaimResult(w.tries) == Refused(ErrNoCapacity) && !w.drainingAfter
  }

  function AdmitResult(w: World, entered: bool): Option<Result> {
    if w.drainingAtStart then Some(Refused(ErrDraining))
    else if ClaimResult(w.tries) != Refused(ErrNoCapacity) then Some(ClaimResult(w.tries))
    else if w.drainingAfter then Some(Refused(ErrDraining))
    else if !entered then Some(Refused(ErrQueueFull))
    else QueueResult(w.turns)
  }

  function AdmitAsks(w: World, entered: bool): seq<Ask> {
    (if w.drainingAtStart then [] else DirectAsks(w.tries, [])) +
    (if ReachesQueue(w) && entered then QueueAsks(w.turns, []) else [])
  }

  lemma PartsOf(a: seq<Ask>, b: seq<Ask>)
    ensures AllHonest(a + b) ==> AllHonest(a) && AllHonest(b)
    ensures AllRespectful(a + b) ==> AllRespectful(a) && AllRespectful(b)
    ensures AllDistinct(a) && AllDistinct(b) ==> AllDistinct(a + b)
  {
    assert forall i :: 0 <= i < |a| ==> (a + b)[i] == a[i];
    assert forall i :: 0 <= i < |b| ==> (a + b)[|a| + i] == b[i];
  }

  lemma HonestParts(w: World)
    requires AllHonest(AdmitAsks(w, true))
    ensures !w.drainingAtStart ==> AllHonest(DirectAsks(w.tries, []))
    ensures ReachesQueue(w) ==> AllHonest(QueueAsks(w.turns, []))
    ensures AllHonest(AdmitAsks(w, false)) && AllHonest(AdmitAsks(w, true))
  {
    PartsOf(if w.drainingAtStart then [] else DirectAsks(w.tries, []),
            if ReachesQueue(w) then QueueAsks(w.turns, []) else []);
  }

  /** Over the direct claim and the queue together at most one session is committed. */
  lemma AdmitAccounts(w: World, entered: bool)
    requires AllHonest(AdmitAsks(w, entered))
    ensures QueueAccounted(AdmitResult(w, entered), Commits(AdmitAsks(w, entered)))
  {
    var direct := if w.drainingAtStart then [] else DirectAsks(w.tries, []);
    var queue := if ReachesQueue(w) && entered then QueueAsks(w.turns, []) else [];
    PartsOf(direct, queue);
    CommitsAppend(direct, queue);
    if !w.drainingAtStart {
      DirectAccounts(w.tries, []);
    }
    if ReachesQueue(w) && entered {
      QueueAccounts(w.turns, []);
    }
  }

  lemma AdmitAsksAreDistinct(w: World, entered: bool)
    requires AllRespectful(AdmitAsks(w, entered))
    ensures AllDistinct(AdmitAsks(w, entered))
  {
    var direct := if w.drainingAtStart then [] else DirectAsks(w.tries, []);
    var queue := if ReachesQueue(w) && entered then QueueAsks(w.turns, []) else [];
    PartsOf(direct, queue);
    if !w.drainingAtStart {
      DirectAsksAreDistinct(w.tries, []);
    }
    if ReachesQueue(w) && entered {
      QueueAsksAreDistinct(w.turns, []);
    }
  }

  // ------------------------------------------------------- on the database

  /** Transaction t of the database is the claim that this ask made. */
  ghost predicate Backs(d: Db, request: Request, ask: Ask, t: TxId) {
    t in d.claims && d.claims[t].report != Waiting &&
    d.claims[t].request == request.(excluded := set w | w in ask.excluded) &&
    exists cause :: ask.attempt == AttemptOf(d.claims[t], cause)
  }

  ghost predicate AllBacked(d: Db, request: Request, asks: seq<Ask>, ts: seq<TxId>) {
    |ts| == |asks| && forall i :: 0 <= i < |asks| ==> Backs(d, request, asks[i], ts[i])
  }

  /** What the database committed for these transactions. */
  function CommittedFor(d: Db, ts: seq<TxId>): seq<SessionId>
    requires forall t :: t in ts ==> t in d.claims
  {
    if ts == [] then []
    else (if d.claims[ts[0]].committed.Some? then [d.claims[ts[0]].committed.value] else []) + CommittedFor(d, ts[1..])
  }

  lemma BackedIsHonest(c: Config, d: Db, request: Request, ask: Ask, t: TxId)
    requires Reachable(c, d) && Backs(d, request, ask, t)
    ensures Honest(ask.attempt)
    ensures ask.attempt.outcome.Full? ==> ask.attempt.outcome.worker !in ask.excluded
  {
    var cause :| ask.attempt == AttemptOf(d.claims[t], cause);
    ReachableClaimsAreHonest(c, d, t, cause);
  }

  lemma {:induction false} SameCommits(d: Db, request: Request, asks: seq<Ask>, ts: seq<TxId>)
    requires AllBacked(d, request, asks, ts)
    ensures forall t :: t in ts ==> t in d.claims
    ensures CommittedFor(d, ts) == Commits(asks)
  {
    if asks != [] {
      assert Backs(d, request, asks[0], ts[0]);
      forall i | 0 <= i < |asks[1..]|
        ensures Backs(d, request, asks[1..][i], ts[1..][i])
      {
        assert Backs(d, request, asks[i + 1], ts[i + 1]);
      }
      SameCommits(d, request, asks[1..], ts[1..]);
      assert ts == [ts[0]] + ts[1..];
    }
  }

  /** Main result: if the claims of one Admit are transactions of a run of the database,
      each with the exclusions that the call had gathered, then together they committed
      at most one session, and the result accounts for it. No exclusion list ever names
      a worker twice, so the immediate retries cannot spin. */
  lemma OneSessionPerAdmit(c: Config, d: Db, request: Request, w: World, entered: bool, ts: seq<TxId>)
    requires Reachable(c, d) && AllBacked(d, request, AdmitAsks(w, entered), ts)
    ensures forall t :: t in ts ==> t in d.claims
    ensures |CommittedFor(d, ts)| <= 1 && QueueAccounted(AdmitResult(w, entered), CommittedFor(d, ts))
    ensures AllDistinct(AdmitAsks(w, entered))
  {
    var asks := AdmitAsks(w, entered);
    forall i | 0 <= i < |asks|
      ensures Honest(asks[i].attempt)
      ensures asks[i].attempt.outcome.Full? ==> asks[i].attempt.outcome.worker !in asks[i].excluded
    {
      assert Backs(d, request, asks[i], ts[i]);
      BackedIsHonest(c, d, request, asks[i], ts[i]);
    }
    SameCommits(d, request, asks, ts);
    AdmitAccounts(w, entered);
    AdmitAsksAreDistinct(w, entered);
  }

  /** One request inside Admit; it exists to tell requests apart. */
  class Call {
    constructor () {}
  }

  class Scheduler {
    const maxQueueSize: nat
    var queued: int

    /** The calls between enterQueue and leaveQueue. */
    ghost var inQueue: set<Call>

    ghost predicate Valid()
      reads this
    {
      queued == |inQueue| && queued <= maxQueueSize
    }

    constructor (maxQueueSize: nat)
      ensures Valid() && inQueue == {} && this.maxQueueSize == maxQueueSize
    {
      this.maxQueueSize := maxQueueSize;
      queued := 0;
      inQueue := {};
    }

    method EnterQueue(call: Call) returns (ok: bool)
      requires Valid() && call !in inQueue
      modifies this
      ensures Valid()
      ensures ok <==> |old(inQueue)| < maxQueueSize
      ensures inQueue == if ok then old(inQueue) + {call} else old(inQueue)
    {
      if queued >= maxQueueSize {
        return false;
      }
      queued := queued + 1;
      inQueue := inQueue + {call};
      return true;
    }

    method LeaveQueue(call: Call)
      requires Valid() && call in inQueue
      modifies this
      ensures Valid() && inQueue == old(inQueue) - {call}
    {
      queued := queued - 1;
      inQueue := inQueue - {call};
    }

    /** Other calls enter and leave the queue; this one stays where it is. */
    method Others(ops: seq<bool>, call: Call, inside: bool)
      requires Valid() && (inside <==> call in inQueue)
      modifies this
      ensures Valid() && (inside <==> call in inQueue)
      ensures ops == [] ==> inQueue == old(inQueue)
    {
      for i := 0 to |ops|
        invariant Valid() && (inside <==> call in inQueue)
        invariant i == 0 ==> inQueue == old(inQueue)
      {
        if ops[i] {
          var other := new Call();
          var _ := EnterQueue(other);
        } else if queued > if inside then 1 else 0 {
          AnotherIsInside(call);
          ghost var leaving :| leaving in inQueue - {call};
          queued := queued - 1;
          inQueue := inQueue - {leaving};
        }
      }
    }

    lemma AnotherIsInside(call: Call)
      requires |inQueue| > if call in inQueue then 1 else 0
      ensures inQueue - {call} != {}
    {
      if call in inQueue {
        assert |inQueue - {call}| == |inQueue| - 1;
      } else {
        assert inQueue - {call} == inQueue;
      }
    }

    /** The direct claim: at most eight attempts, none after an uncertain commit. */
    method Claim(tries: seq<Try>) returns (result: Result, commits: seq<SessionId>, asks: seq<Ask>)
      requires |tries| == MAX_CLAIM_ATTEMPTS && AllHonest(DirectAsks(tries, []))
      ensures result == ClaimResult(tries)
      ensures asks == DirectAsks(tries, []) && |asks| <= 8 && commits == Commits(asks)
      ensures Accounts(result, commits)
    {
      DirectAccounts(tries, []);
      FewDirectAsks(tries, []);
      ghost var all, end := DirectAsks(tries, []), ClaimResult(tries);
      commits, asks := [], [];
      var excluded := [];
      for attempt := 0 to MAX_CLAIM_ATTEMPTS
        invariant end == ClaimResult(tries[attempt..])
        invariant commits == Commits(asks)
        invariant all == asks + DirectAsks(tries[attempt..], excluded)
      {
        var one := tries[attempt];
        TryMade(tries, attempt, excluded, all, asks);
        asks := asks + [Ask(excluded, one.attempt)];
        commits := commits + CommitsOf(one.attempt);
        match one.attempt.outcome {
          case Claimed(s) =>
            return Admitted(s), commits, asks;
          case Unsure =>
            return Refused(ErrUncertainCommit), commits, asks;
          case Broken(cause) =>
            return Refused(if cause.Some? then ErrContext(cause.value) else ErrDatabase), commits, asks;
          case Full(w) =>
            excluded := excluded + [w];
            continue;
          case Nothing =>
        }
        if attempt == MAX_CLAIM_ATTEMPTS - 1 {
          break;
        }
        if one.retry.Some? {
          return Refused(ErrContext(one.retry.value)), commits, asks;
        }
      }
      return Refused(ErrNoCapacity), commits, asks;
    }

    /** One turn of the loop: how it ends the call, if it does; whether it asked for a
        worker at all; and which workers the next turn excludes. */
    method TakeTurn(turn: Turn, excluded: seq<WorkerId>)
      returns (result: Option<Result>, asked: bool, next: seq<WorkerId>)
      requires Sane(turn)
      ensures result == Decision(turn) && (asked <==> QueueWaitError(turn.before).None?)
      ensures asked <==> Clear(turn.before)
      ensures if result.Some? then EndsWith(turn, result.value) else Inconclusive(turn)
      ensures result != Some(Refused(ErrNoCapacity)) && result != Some(Refused(ErrQueueFull))
      ensures result.None? && turn.attempt.outcome.Full? ==> next == excluded + [turn.attempt.outcome.worker]
      ensures result.None? && !turn.attempt.outcome.Full? ==> next == []
    {
      TurnTable(turn, if Decision(turn).Some? then Decision(turn).value else Refused(ErrNoCapacity));
      StopsAreQueueWaitErrors(turn.before, ErrDraining);
      next := excluded;
      var stop := QueueWaitError(turn.before);
      asked := stop.None?;
      if stop.Some? {
        return Some(Refused(stop.value)), asked, next;
      }
      match turn.attempt.outcome {
        case Claimed(s) =>
          return Some(Admitted(s)), asked, next;
        case Full(w) =>
          return None, asked, excluded + [w];
        case Unsure =>
          return Some(Refused(ErrUncertainCommit)), asked, next;
        case _ =>
      }
      next := [];
      stop := QueueWaitError(turn.after);
      if stop.Some? {
        return Some(Refused(stop.value)), asked, next;
      }
      if turn.attempt.outcome.Broken? && turn.attempt.outcome.cause.Some? {
        return Some(Refused(ErrContext(turn.attempt.outcome.cause.value))), asked, next;
      }
      match turn.cause {
        case WaitDone =>
          stop := QueueWaitError(turn.atSelect);
          return Some(Refused(stop.value)), asked, next;
        case LifecycleDone =>
          return Some(Refused(ErrDraining)), asked, next;
        case Token =>
        case PollTimer =>
      }
      return None, asked, next;
    }

    /** The retry loop of a queued call, over any number of turns. None means that the
        environment ended first: the call is still parked. */
    method QueueLoop(turns: seq<Turn>, call: Call)
      returns (result: Option<Result>, commits: seq<SessionId>, asks: seq<Ask>)
      requires Valid() && call in inQueue
      requires AllHonest(QueueAsks(turns, [])) && AllSane(turns)
      modifies this
      ensures Valid() && call in inQueue
      ensures Undisturbed(turns) ==> inQueue == old(inQueue)
      ensures result == QueueResult(turns)
      ensures asks == QueueAsks(turns, []) && commits == Commits(asks)
      ensures QueueAccounted(result, commits)
      ensures result != Some(Refused(ErrNoCapacity)) && result != Some(Refused(ErrQueueFull))
      ensures EndsProperly(turns, result, |asks|)
    {
      QueueAccounts(turns, []);
      QueueEndsProperly(turns);
      ghost var all, end := QueueAsks(turns, []), QueueResult(turns);
      result, commits, asks := None, [], [];
      var excluded := [];
      for i := 0 to |turns|
        invariant Valid() && call in inQueue
        invariant Undisturbed(turns) ==> inQueue == old(inQueue)
        invariant result == None && commits == Commits(asks)
        invariant end == QueueResult(turns[i..])
        invariant all == asks + QueueAsks(turns[i..], excluded)
      {
        var turn := turns[i];
        Others(turn.others, call, true);
        var asked, next;
        result, asked, next := TakeTurn(turn, excluded);
        TurnMade(turns, i, excluded, next, all, asks);
        if asked {
          CommitsAppend(asks, [Ask(excluded, turn.attempt)]);
          asks, commits := asks + [Ask(excluded, turn.attempt)], commits + CommitsOf(turn.attempt);
        }
        if result.Some? {
          assert all == asks && end == result;
          return;
        }
        excluded := next;
      }
      assert all == asks && end == result;
    }

    /** Admit, from its first drain check to its deferred leaveQueue. `entered` tells
        whether the call got a place in the queue. */
    method Admit(call: Call, w: World)
      returns (result: Option<Result>, commits: seq<SessionId>, asks: seq<Ask>, entered: bool)
      requires Valid() && call !in inQueue
      requires WorldOk(w) && AllHonest(AdmitAsks(w, true))
      modifies this
      ensures Valid() && (call in inQueue <==> result == None)
      ensures result == AdmitResult(w, entered) && result != Some(Refused(ErrNoCapacity))
      ensures asks == AdmitAsks(w, entered) && commits == Commits(asks)
      ensures QueueAccounted(result, commits)
      ensures w.drainingAtStart ==> result == Some(Refused(ErrDraining)) && asks == []
      ensures !w.drainingAtStart && ClaimResult(w.tries) == Refused(ErrNoCapacity) && w.drainingAfter ==>
        result == Some(Refused(ErrDraining)) && !entered
      ensures ReachesQueue(w) && entered ==> EndsProperly(w.turns, result, |asks| - |DirectAsks(w.tries, [])|)
      ensures ReachesQueue(w) && w.others == [] ==> (entered <==> |old(inQueue)| < maxQueueSize)
      ensures w.others == [] && Undisturbed(w.turns) && result.Some? ==>
                inQueue == old(inQueue) && queued == old(queued)
    {
      HonestParts(w);
      asks, commits, entered := [], [], false;
      if w.drainingAtStart {
        return Some(Refused(ErrDraining)), commits, asks, entered;
      }
      var direct;
      direct, commits, asks := Claim(w.tries);
      if direct != Refused(ErrNoCapacity) {
        return Some(direct), commits, asks, entered;
      }
      if w.drainingAfter {
        return Some(Refused(ErrDraining)), commits, asks, entered;
      }
      Others(w.others, call, false);
      entered := EnterQueue(call);
      if !entered {
        return Some(Refused(ErrQueueFull)), commits, asks, entered;
      }
      var more, later;
      result, more, later := QueueLoop(w.turns, call);
      CommitsAppend(asks, later);
      asks, commits := asks + later, commits + more;
      AdmitAccounts(w, true);
      if result.Some? {
        LeaveQueue(call);
      }
    }
  }
}
