/** Which way sessions end. Every call that records an outcome is a step of a run of the
    attachment system; what it writes is stated on the status before and after it. */
module AttachOutcomes {
  import opened Common
  import opened Tables
  import opened Relay
  import opened Attaching
  import opened AttachSafety

  /** The status of a's session in states i and i + 1. */
  predicate Changes(states: seq<System>, i: nat, a: AttachId, before: SessionStatus, after: SessionStatus)
    requires i + 1 < |states|
  {
    a in states[i].attaches &&
    states[i].attaches[a].session in states[i].sessions && states[i].attaches[a].session in states[i + 1].sessions &&
    states[i].sessions[states[i].attaches[a].session] == before &&
    states[i + 1].sessions[states[i].attaches[a].session] == after
  }

  /** No session but a's own changes, and no other attachment. */
  predicate NothingElse(states: seq<System>, i: nat, a: AttachId)
    requires i + 1 < |states| && a in states[i].attaches
  {
    states[i + 1].sessions.Keys == states[i].sessions.Keys &&
    (forall s :: s in states[i].sessions && s != states[i].attaches[a].session ==>
      states[i + 1].sessions[s] == states[i].sessions[s]) &&
    (forall b :: b in states[i].attaches && b != a ==>
      b in states[i + 1].attaches && states[i + 1].attaches[b] == states[i].attaches[b])
  }

  lemma StepHappens(states: seq<System>, events: seq<Event>, i: nat, a: AttachId, m: AttachMove)
    requires Run(states, events) && i < |events| && events[i] == OfAttach(a, m)
    ensures Inv(states[i]) && Ready(states[i], a) && AttachStep(states[i], a, m) == Some(states[i + 1])
    ensures a in states[i].attaches && NothingElse(states, i, a)
  {
    RunKeepsInv(states, events, i);
    assert Linked(states, events, i);
    MoveChangesOnlyItself(states[i], a, m, states[i + 1]);
    OtherSessionsStay(states[i], a, m, states[i + 1]);
  }

  lemma OtherSessionsStay(s: System, a: AttachId, m: AttachMove, s': System)
    requires Ready(s, a) && AttachStep(s, a, m) == Some(s')
    ensures s'.sessions.Keys == s.sessions.Keys
    ensures forall id :: id in s.sessions && id != s.attaches[a].session ==> s'.sessions[id] == s.sessions[id]
  {
  }

  /** The outcome of a relay: the first event ever offered to it decides. A session that
      still runs is completed if that event was a normal end and failed otherwise; one
      that has ended meanwhile, and one whose outcome cannot be written, stay. */
  lemma FirstEventDecidesOutcome(states: seq<System>, events: seq<Event>, i: nat, a: AttachId, ok: bool)
    returns (before: SessionStatus, after: SessionStatus)
    requires Run(states, events) && i < |events| && events[i] == OfAttach(a, Record(ok))
    ensures Changes(states, i, a, before, after) && NothingElse(states, i, a)
    ensures states[i].attaches[a].offered != [] && before != Pending
    ensures ok && before == SessionStatus.Running ==>
      after == if states[i].attaches[a].offered[0].normal then Completed else Failed
    ensures !ok || before != SessionStatus.Running ==> after == before
  {
    StepHappens(states, events, i, a, Record(ok));
    var at := states[i].attaches[a];
    assert AttachOk(states[i], a);
    before, after := states[i].sessions[at.session], states[i + 1].sessions[at.session];
  }

  /** A session whose start, dial or upgrade failed is failed, unless it has ended. */
  lemma FailedAttachFailsSession(states: seq<System>, events: seq<Event>, i: nat, a: AttachId, ok: bool)
    returns (before: SessionStatus, after: SessionStatus)
    requires Run(states, events) && i < |events| && events[i] == OfAttach(a, FailSession(ok))
    ensures Changes(states, i, a, before, after) && NothingElse(states, i, a)
    ensures ok && (before == Pending || before == SessionStatus.Running) ==> after == Failed
    ensures !ok || (before != Pending && before != SessionStatus.Running) ==> after == before
  {
    StepHappens(states, events, i, a, FailSession(ok));
    var at := states[i].attaches[a];
    before, after := states[i].sessions[at.session], states[i + 1].sessions[at.session];
  }

  /** A relay that comes while its manager drains ends its running session normally. */
  lemma RefusedRelayCompletesSession(states: seq<System>, events: seq<Event>, i: nat, a: AttachId, ok: bool)
    returns (before: SessionStatus, after: SessionStatus)
    requires Run(states, events) && i < |events| && events[i] == OfAttach(a, RecordRefusal(ok))
    ensures Changes(states, i, a, before, after) && NothingElse(states, i, a)
    ensures before != Pending
    ensures ok && before == SessionStatus.Running ==> after == Completed
    ensures !ok || before != SessionStatus.Running ==> after == before
  {
    StepHappens(states, events, i, a, RecordRefusal(ok));
    var at := states[i].attaches[a];
    assert AttachOk(states[i], a);
    before, after := states[i].sessions[at.session], states[i + 1].sessions[at.session];
  }

  /** StartSession: only a pending session starts; a lost reply may hide that it did. */
  lemma StartRunsPendingOnly(states: seq<System>, events: seq<Event>, i: nat, a: AttachId, m: AttachMove)
    returns (before: SessionStatus, after: SessionStatus)
    requires Run(states, events) && i < |events| && events[i] == OfAttach(a, m)
    requires m.StartWins? || m.StartLoses? || m.StartErrors?
    ensures Changes(states, i, a, before, after) && NothingElse(states, i, a)
    ensures m.StartWins? ==> before == Pending && after == SessionStatus.Running
    ensures m.StartLoses? ==> before != Pending && after == before
    ensures m.StartErrors? ==>
      after == if m.applied && before == Pending then SessionStatus.Running else before
    ensures a in states[i + 1].attaches &&
            (states[i + 1].attaches[a].won <==> before == Pending && after == SessionStatus.Running)
  {
    StepHappens(states, events, i, a, m);
    var at := states[i].attaches[a];
    assert AttachOk(states[i], a);
    before, after := states[i].sessions[at.session], states[i + 1].sessions[at.session];
  }

  /** The broadcast of a draining replica is a normal end: to a relay that was offered
      nothing before, it is the first event, which decides the outcome. */
  lemma BroadcastEndsNormally(states: seq<System>, events: seq<Event>, i: nat, r: ReplicaId, a: AttachId)
    requires Run(states, events) && i < |events| && events[i] == OfShutdown(r, StopRelay(a))
    ensures a in states[i].attaches && a in states[i + 1].attaches
    ensures var before, after := states[i].attaches[a], states[i + 1].attaches[a];
            |after.offered| == |before.offered| + 1 && before.offered <= after.offered &&
            after.offered[|before.offered|].code == 1001 && after.offered[|before.offered|].normal &&
            after.phase == before.phase && states[i + 1].sessions == states[i].sessions
  {
    assert Linked(states, events, i);
  }

  /** A start, dial or upgrade that fails leaves the attachment with FailSession still to
      call, and it goes no further before it has called it. */
  lemma FailuresAreRecorded(states: seq<System>, events: seq<Event>, i: nat, a: AttachId)
    requires Run(states, events) && i < |events| && a in states[i].attaches
    ensures a in states[i + 1].attaches
    ensures events[i].OfAttach? && events[i].a == a &&
            (events[i].move.StartErrors? || events[i].move.DialFails? || events[i].move.UpgradeFails?) ==>
              states[i + 1].attaches[a].phase == Failing
    ensures states[i].attaches[a].phase == Failing && states[i + 1].attaches[a].phase != Failing ==>
              events[i].OfAttach? && events[i].a == a && events[i].move.FailSession?
  {
    assert Linked(states, events, i);
    match events[i]
    case OfAttach(b, m) =>
      StepHappens(states, events, i, b, m);
      AfterAttachMove(states[i], b, m, states[i + 1]);
    case _ =>
  }

  lemma AfterAttachMove(s: System, a: AttachId, m: AttachMove, s': System)
    requires Ready(s, a) && AttachStep(s, a, m) == Some(s')
    ensures a in s'.attaches
    ensures m.StartErrors? || m.DialFails? || m.UpgradeFails? ==> s'.attaches[a].phase == Failing
    ensures s.attaches[a].phase == Failing && s'.attaches[a].phase != Failing ==> m.FailSession?
  {
  }

  /** An attachment that lost the start never ends anybody's session: only one that started
      it, or whose start failed without an answer, writes an outcome. */
  lemma OnlyStartersEndSessions(states: seq<System>, events: seq<Event>, i: nat, a: AttachId, m: AttachMove)
    requires Run(states, events) && i < |events| && events[i] == OfAttach(a, m)
    ensures a in states[i].attaches && states[i].attaches[a].session in states[i].sessions
    ensures states[i].attaches[a].session in states[i + 1].sessions
    ensures var at := states[i].attaches[a];
            Ended(states[i + 1].sessions[at.session]) && !Ended(states[i].sessions[at.session]) ==>
              (at.won || at.faulted) && (m.Record? || m.FailSession? || m.RecordRefusal?)
  {
    StepHappens(states, events, i, a, m);
    assert AttachOk(states[i], a);
    OnlyOutcomesEnd(states[i], a, m, states[i + 1]);
  }

  lemma OnlyOutcomesEnd(s: System, a: AttachId, m: AttachMove, s': System)
    requires Ready(s, a) && AttachStep(s, a, m) == Some(s') && Sound(s.attaches[a])
    ensures s.attaches[a].session in s'.sessions
    ensures Ended(s'.sessions[s.attaches[a].session]) && !Ended(s.sessions[s.attaches[a].session]) ==>
              (s.attaches[a].won || s.attaches[a].faulted) && (m.Record? || m.FailSession? || m.RecordRefusal?)
  {
  }

  /** The order of the calls of attach and Run. */
  lemma CallsInOrder(s: System, a: AttachId, m: AttachMove, s': System)
    requires Ready(s, a) && AttachStep(s, a, m) == Some(s')
    ensures a in s'.attaches && s'.attaches[a].replica == s.attaches[a].replica && s.attaches[a].replica in s'.replicas
    ensures var before, after := s.attaches[a].phase, s'.attaches[a].phase;
            var manager := s.replicas[s.attaches[a].replica].manager;
            match m
            case StartWins => before == Reserved && after == Dialing
            case StartLoses => before == Reserved && after == Returning
            case StartErrors(_) => before == Reserved && after == Failing
            case DialFails => before == Dialing && after == Failing
            case DialWorks => before == Dialing && after == Upgrading
            case UpgradeFails => before == Upgrading && after == Failing
            case UpgradeWorks => before == Upgrading && after == Registering
            case FailSession(_) => before == Failing && after == Returning
            case Register =>
              before == Registering &&
              after == (if manager.draining then Refused
                        else if s.attaches[a].session in manager.live then Duplicate
                        else Live)
            case RecordRefusal(_) => before == Refused && after == Returning
            case DuplicateReturns => before == Duplicate && after == Returning
            case Send(_) => after == before && (before.Live? || before.Closing?)
            case TakeEvent => before == Live && after.Closing?
            case Record(_) => before.Closing? && after == Recorded && s.attaches[a].senders == 0
            case Remove => before == Recorded && after == Removed
            case WaitGroupDone => before == Removed && after == Returning
            case Release => before == Returning && after == Gone
  {
  }
}
