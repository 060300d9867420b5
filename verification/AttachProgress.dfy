/** Attachments neither stick nor go on for ever: whatever the other replicas do, the next
    step of an attachment is always possible, and each one brings it closer to its end. */
module AttachProgress {
  import opened Common
  import opened Tables
  import opened Relay
  import opened Attaching
  import opened AttachSafety

  /** How far the phase is from the end. */
  function Rank(p: Phase): nat {
    match p
    case Reserved => 9
    case Dialing => 8
    case Upgrading => 7
    case Registering => 6
    case Live => 5
    case Closing(_) => 4
    case Recorded => 3
    case Removed => 2
    case Failing => 2
    case Refused => 2
    case Duplicate => 2
    case Returning => 1
    case Gone => 0
  }

  /** An upper bound on the steps that are left; a relay still has to wait for its four
      goroutines. */
  function Left(at: Attach): nat {
    5 * Rank(at.phase) + at.senders
  }

  /** Every step brings the attachment closer to its end. */
  lemma StepsAreFew(s: System, a: AttachId, m: AttachMove, s': System)
    requires Ready(s, a) && AttachStep(s, a, m) == Some(s')
    ensures a in s'.attaches && Left(s'.attaches[a]) < Left(s.attaches[a])
  {
  }

  /** One step that the attachment can take now, if its calls succeed. */
  function NextMove(s: System, a: AttachId): AttachMove
    requires Ready(s, a) && s.attaches[a].phase != Gone
  {
    var at := s.attaches[a];
    match at.phase
    case Reserved => if s.sessions[at.session] == Pending then StartWins else StartLoses
    case Dialing => DialWorks
    case Upgrading => UpgradeWorks
    case Failing => FailSession(true)
    case Registering => AttachMove.Register
    case Refused => RecordRefusal(true)
    case Duplicate => DuplicateReturns
    case Live => if at.channel != [] then TakeEvent else Send(GOING_AWAY)
    case Closing(_) => if at.senders > 0 then Send(GOING_AWAY) else Record(true)
    case Recorded => Remove
    case Removed => WaitGroupDone
    case Returning => Release
  }

  lemma NextCallIsPossible(s: System, a: AttachId)
    requires Ready(s, a) && s.attaches[a].phase != Gone && !InMap(s.attaches[a].phase)
    ensures AttachStep(s, a, NextMove(s, a)).Some?
  {
  }

  lemma NextRelayStepIsPossible(s: System, a: AttachId)
    requires Ready(s, a) && InMap(s.attaches[a].phase) && Sound(s.attaches[a])
    ensures AttachStep(s, a, NextMove(s, a)).Some?
  {
    if s.attaches[a].phase.Live? && s.attaches[a].channel == [] {
      assert s.attaches[a].offered == [];
    }
  }

  lemma NextMoveIsPossible(s: System, a: AttachId)
    requires Ready(s, a) && AttachOk(s, a) && s.attaches[a].phase != Gone
    ensures AttachStep(s, a, NextMove(s, a)).Some?
  {
    if InMap(s.attaches[a].phase) {
      NextRelayStepIsPossible(s, a);
    } else {
      NextCallIsPossible(s, a);
    }
  }

  /** Main result: in every state of every run, every attachment that has not returned can
      take a step, and every step of it leaves fewer; so it returns after at most as many
      steps as Left says, and Shutdown does not wait for ever. */
  lemma AttachmentsReturn(states: seq<System>, events: seq<Event>, i: nat, a: AttachId)
    requires Run(states, events) && i < |states| && a in states[i].attaches && states[i].attaches[a].phase != Gone
    ensures Ready(states[i], a) && AttachStep(states[i], a, NextMove(states[i], a)).Some?
    ensures forall m, s' :: AttachStep(states[i], a, m) == Some(s') ==>
              a in s'.attaches && Left(s'.attaches[a]) < Left(states[i].attaches[a])
    ensures Left(states[i].attaches[a]) <= 49
  {
    RunKeepsInv(states, events, i);
    assert Ready(states[i], a) && AttachOk(states[i], a);
    NextMoveIsPossible(states[i], a);
    forall m, s' | AttachStep(states[i], a, m) == Some(s')
      ensures a in s'.attaches && Left(s'.attaches[a]) < Left(states[i].attaches[a])
    {
      StepsAreFew(states[i], a, m, s');
    }
  }

  /** A replica that shuts down can always go on, too: through the grace period and the
      broadcast, relay by relay, to its return. */
  lemma ShutdownGoesOn(states: seq<System>, events: seq<Event>, i: nat, r: ReplicaId) returns (m: ShutdownMove)
    requires Run(states, events) && i < |states| && r in states[i].replicas
    requires states[i].replicas[r].shutdown != ReturnedNil && states[i].replicas[r].shutdown != ReturnedError
    ensures ShutdownStep(states[i], r, m).Some?
    ensures states[i].replicas[r].shutdown == AfterBroadcast && OpenOn(states[i], r) == {} ==> m == ReturnNil
  {
    RunKeepsInv(states, events, i);
    assert ReplicaOk(states[i], r);
    match states[i].replicas[r].shutdown
    case NotStarted => m := BeginShutdown;
    case InGrace => m := GraceOver;
    case Broadcasting(todo) =>
      if a :| a in todo {
        m := StopRelay(a);
      } else {
        m := BroadcastDone;
      }
    case AfterBroadcast => m := if OpenOn(states[i], r) == {} then ReturnNil else ReturnError;
  }
}
