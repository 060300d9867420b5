/** How long reconciliation must wait before it trusts that a worker does not have a
    session: the time a session may take to reach the gateway, plus the time a
    heartbeat may take from its snapshot to its processing. */
module Grace {
  import opened Common
  import opened Tables
  import opened ControlPlane
  import opened Statements

  /** The session ids a worker read from its gateway, and when. */
  datatype Snapshot = Snapshot(time: int, reported: set<SessionId>)

  /** One worker and its sessions; `held` is the gateway's map. */
  datatype State = State(now: int, worker: WorkerId, sessions: Sessions, held: set<SessionId>, inFlight: set<Snapshot>)

  datatype Bounds = Bounds(arrival: nat, processing: nat)

  datatype Event =
    | Elapse(elapsed: nat)
    | Create(s: SessionId, row: Session)
    | Update(s: SessionId, op: SessionOp)
    | Arrive(s: SessionId)
    | Leave(s: SessionId)
    | Snap
    | Process(snapshot: Snapshot)

  function EventStep(c: Config, b: Bounds, g: State, e: Event): Option<State> {
    match e
    case Elapse(elapsed) => Some(g.(now := g.now + elapsed))
    case Create(s, row) =>
      if s !in g.sessions && row.status == Pending && row.startedAt == None
      then Some(g.(sessions := g.sessions[s := row])) else None
    case Update(s, op) =>
      if s in g.sessions && OpApplies(op, g.sessions[s])
      then Some(g.(sessions := g.sessions[s := OpRow(op, g.sessions[s], g.now)])) else None
    case Arrive(s) =>
      if s in g.sessions && g.sessions[s].startedAt.Some? && g.now <= g.sessions[s].startedAt.value + b.arrival
      then Some(g.(held := g.held + {s})) else None
    case Leave(s) => Some(g.(held := g.held - {s}))
    case Snap => Some(g.(inFlight := g.inFlight + {Snapshot(g.now, g.held)}))
    case Process(snapshot) =>
      if Processable(b, g, snapshot)
      then Some(g.(sessions := FailUnreported(c, g.sessions, Beat(g.worker, snapshot.reported), g.now),
                   inFlight := g.inFlight - {snapshot})) else None
  }

  predicate Processable(b: Bounds, g: State, snapshot: Snapshot) {
    snapshot in g.inFlight && g.now <= snapshot.time + b.processing
  }

  predicate Starts(g: State) {
    g.sessions == map[] && g.held == {} && g.inFlight == {}
  }

  ghost predicate Run(c: Config, b: Bounds, states: seq<State>, events: seq<Event>) {
    |states| == |events| + 1 && Starts(states[0]) &&
    forall i :: 0 <= i < |events| ==> EventStep(c, b, states[i], events[i]) == Some(states[i + 1])
  }

  /** Processing this snapshot now fails no session that the gateway holds. */
  predicate Spares(c: Config, g: State, snapshot: Snapshot) {
    BulkTarget(c, g.sessions, Some(Beat(g.worker, snapshot.reported)), g.now) !! g.held
  }

  /** No run ever fails a held session as unreported. */
  ghost predicate NeverFailsHeld(c: Config, b: Bounds) {
    forall states, events, i, snapshot ::
      Run(c, b, states, events) && 0 <= i < |states| && Processable(b, states[i], snapshot) ==>
      Spares(c, states[i], snapshot)
  }

  predicate SessionOk(s: Session) {
    s.status == Pending ==> s.startedAt == None
  }

  /** A held session that an open snapshot lacks reached the gateway after it. */
  predicate ArrivedLater(b: Bounds, g: State, snapshot: Snapshot, s: SessionId)
    requires s in g.sessions && g.sessions[s].startedAt.Some?
  {
    s in snapshot.reported || snapshot.time <= g.sessions[s].startedAt.value + b.arrival
  }

  ghost predicate Inv(b: Bounds, g: State) {
    (forall s :: s in g.sessions ==> SessionOk(g.sessions[s])) &&
    (forall s :: s in g.held ==> s in g.sessions && g.sessions[s].startedAt.Some?) &&
    (forall p :: p in g.inFlight ==> p.time <= g.now) &&
    (forall p, s :: p in g.inFlight && s in g.held ==> ArrivedLater(b, g, p, s))
  }

  lemma StepKeepsInv(c: Config, b: Bounds, g: State, e: Event, g': State)
    requires Inv(b, g) && EventStep(c, b, g, e) == Some(g')
    ensures Inv(b, g')
  {
    forall p, s | p in g'.inFlight && s in g'.held
      ensures s in g'.sessions && g'.sessions[s].startedAt.Some? && ArrivedLater(b, g', p, s)
    {
      if p in g.inFlight && s in g.held {
        assert ArrivedLater(b, g, p, s);
        assert SessionOk(g.sessions[s]);
      }
    }
    forall s | s in g'.held
      ensures s in g'.sessions && g'.sessions[s].startedAt.Some?
    {
      if s in g.held {
        assert SessionOk(g.sessions[s]);
      }
    }
  }

  lemma {:induction false} RunKeepsInv(c: Config, b: Bounds, states: seq<State>, events: seq<Event>, i: nat)
    requires Run(c, b, states, events) && i < |states|
    ensures Inv(b, states[i])
  {
    if i > 0 {
      RunKeepsInv(c, b, states, events, i - 1);
      StepKeepsInv(c, b, states[i - 1], events[i - 1], states[i]);
    }
  }

  lemma SlackSparesHeld(c: Config, b: Bounds, g: State, snapshot: Snapshot)
    requires Inv(b, g) && Processable(b, g, snapshot) && b.arrival + b.processing <= c.grace
    ensures Spares(c, g, snapshot)
  {
    forall s | s in g.held
      ensures s !in BulkTarget(c, g.sessions, Some(Beat(g.worker, snapshot.reported)), g.now)
    {
      assert ArrivedLater(b, g, snapshot, s);
    }
  }

  function StartedRow(startedAt: int): Session {
    OpRow(Start, PendingRow(), startedAt)
  }

  function PendingRow(): Session {
    Session(0, "chromium", "1.62.1", Pending, None, Some(30), 0)
  }

  /** A run that fails a held session when the bounds exceed the grace period: the
      snapshot is taken just before the session arrives, and processed late. */
  lemma LateRunFailsHeld(c: Config, b: Bounds) returns (states: seq<State>, events: seq<Event>)
    requires b.arrival + b.processing > c.grace
    ensures Run(c, b, states, events) && |states| == 7
    ensures Processable(b, states[6], Snapshot(b.arrival, {})) && !Spares(c, states[6], Snapshot(b.arrival, {}))
  {
    var snapshot := Snapshot(b.arrival, {});
    var pending: Sessions := map[0 := PendingRow()];
    var running: Sessions := map[0 := StartedRow(0)];
    var late := b.arrival + b.processing;
    events := [Create(0, PendingRow()), Update(0, Start), Elapse(b.arrival), Snap, Arrive(0), Elapse(b.processing)];
    states := [State(0, 0, map[], {}, {}),
               State(0, 0, pending, {}, {}),
               State(0, 0, running, {}, {}),
               State(b.arrival, 0, running, {}, {}),
               State(b.arrival, 0, running, {}, {snapshot}),
               State(b.arrival, 0, running, {0}, {snapshot}),
               State(late, 0, running, {0}, {snapshot})];
    assert states[0].sessions[0 := PendingRow()] == pending;
    assert pending[0 := StartedRow(0)] == running;
    assert EventStep(c, b, states[3], events[3]) == Some(states[4]) by {
      assert {} + {snapshot} == {snapshot};
    }
    assert EventStep(c, b, states[4], events[4]) == Some(states[5]) by {
      assert {} + {0} == {0};
    }
    assert 0 in BulkTarget(c, running, Some(Beat(0, {})), late);
  }

  /** Main result: reconciliation never fails a session that the gateway holds, in any
      run, if and only if the two delays together stay within the grace period. */
  lemma GraceBoundIff(c: Config, b: Bounds)
    ensures NeverFailsHeld(c, b) <==> b.arrival + b.processing <= c.grace
  {
    if b.arrival + b.processing <= c.grace {
      forall states, events, i, snapshot |
        Run(c, b, states, events) && 0 <= i < |states| && Processable(b, states[i], snapshot)
        ensures Spares(c, states[i], snapshot)
      {
        RunKeepsInv(c, b, states, events, i);
        SlackSparesHeld(c, b, states[i], snapshot);
      }
    } else {
      var states, events := LateRunFailsHeld(c, b);
    }
  }
}
