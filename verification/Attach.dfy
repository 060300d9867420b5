/** All attachments of all replicas as one step system over the session rows and the
    managers: who may start a session, what Shutdown waits for, and what is recorded
    before a reservation is given back. */
module Attaching {
  import opened Common
  import opened Tables
  import opened Relay

  type AttachId = nat
  type ReplicaId = nat

  /** Where `attach` is, including the part of it that runs inside `Run`. */
  datatype Phase =
    | Reserved
    | Dialing
    | Upgrading
    | Failing
    | Registering
    | Refused
    | Duplicate
    | Live
    | Closing(event: RelayEvent)
    | Recorded
    | Removed
    | Returning
    | Gone

  /** `won`: this attachment's StartSession changed the row. `faulted`: one of its
      database calls failed. `senders` is the number of goroutines that may still send;
      `offered` is every event offered to the channel, in order. */
  datatype Attach = Attach(
    replica: ReplicaId,
    session: SessionId,
    phase: Phase,
    consumed: bool,
    won: bool,
    faulted: bool,
    senders: nat,
    channel: seq<RelayEvent>,
    offered: seq<RelayEvent>)

  datatype Shutdown =
    | NotStarted
    | InGrace
    | Broadcasting(todo: set<AttachId>)
    | AfterBroadcast
    | ReturnedNil
    | ReturnedError

  datatype Replica = Replica(manager: ManagerState<AttachId>, shutdown: Shutdown)

  datatype System = System(
    sessions: map<SessionId, SessionStatus>,
    attaches: map<AttachId, Attach>,
    replicas: map<ReplicaId, Replica>)

  datatype AttachMove =
    | StartWins
    | StartLoses
    | StartErrors(applied: bool)
    | DialFails
    | DialWorks
    | UpgradeFails
    | UpgradeWorks
    | FailSession(ok: bool)
    | Register
    | RecordRefusal(ok: bool)
    | DuplicateReturns
    | Send(event: RelayEvent)
    | TakeEvent
    | Record(ok: bool)
    | Remove
    | WaitGroupDone
    | Release

  datatype ShutdownMove =
    | BeginShutdown
    | ReturnNil
    | ReturnError
    | GraceOver
    | StopRelay(a: AttachId)
    | BroadcastDone

  datatype Event =
    | NewSession(s: SessionId)
    | EndSession(s: SessionId, to: SessionStatus)
    | BeginAttach(a: AttachId, r: ReplicaId, s: SessionId)
    | OfAttach(a: AttachId, move: AttachMove)
    | OfShutdown(r: ReplicaId, shut: ShutdownMove)

  predicate Ended(st: SessionStatus) {
    st != Pending && st != SessionStatus.Running
  }

  /** CompleteSession and FailSession as they apply to a status. */
  function CompleteStatus(st: SessionStatus): SessionStatus {
    if st == SessionStatus.Running then Completed else st
  }

  function FailStatus(st: SessionStatus): SessionStatus {
    if Ended(st) then st else Failed
  }

  function SetAttach(s: System, a: AttachId, to: Attach): System {
    s.(attaches := s.attaches[a := to])
  }

  function SetManager(s: System, r: ReplicaId, m: ManagerState<AttachId>): System
    requires r in s.replicas
  {
    s.(replicas := s.replicas[r := s.replicas[r].(manager := m)])
  }

  function SetSession(s: System, id: SessionId, st: SessionStatus): System {
    s.(sessions := s.sessions[id := st])
  }

  function Offered(at: Attach, e: RelayEvent): Attach {
    at.(channel := Offer(at.channel, e), offered := at.offered + [e])
  }

  function Step(s: System, e: Event): Option<System> {
    match e
    case NewSession(id) => if id in s.sessions then None else Some(SetSession(s, id, Pending))
    case EndSession(id, to) =>
      if id in s.sessions && !Ended(s.sessions[id]) && Ended(to) then Some(SetSession(s, id, to)) else None
    case BeginAttach(a, r, id) =>
      if a in s.attaches || r !in s.replicas || id !in s.sessions || s.replicas[r].manager.draining then None
      else Some(SetAttach(SetManager(s, r, AfterBegin(s.replicas[r].manager)), a,
                          Attach(r, id, Reserved, false, false, false, 0, [], [])))
    case OfAttach(a, m) =>
      if a in s.attaches && s.attaches[a].replica in s.replicas && s.attaches[a].session in s.sessions
      then AttachStep(s, a, m) else None
    case OfShutdown(r, m) => if r in s.replicas then ShutdownStep(s, r, m) else None
  }

  predicate Ready(s: System, a: AttachId) {
    a in s.attaches && s.attaches[a].replica in s.replicas && s.attaches[a].session in s.sessions
  }

  function AttachStep(s: System, a: AttachId, m: AttachMove): Option<System>
    requires Ready(s, a)
  {
    var at := s.attaches[a];
    var st := s.sessions[at.session];
    match (m, at.phase)
    case (StartWins, Reserved) =>
      if st != Pending then None
      else Some(SetAttach(SetSession(s, at.session, SessionStatus.Running), a, at.(phase := Dialing, won := true)))
    case (StartLoses, Reserved) =>
      if st == Pending then None else Some(SetAttach(s, a, at.(phase := Returning)))
    case (StartErrors(applied), Reserved) =>
      if applied && st == Pending
      then Some(SetAttach(SetSession(s, at.session, SessionStatus.Running), a,
                          at.(phase := Failing, won := true, faulted := true)))
      else Some(SetAttach(s, a, at.(phase := Failing, faulted := true)))
    case (DialFails, Dialing) => Some(SetAttach(s, a, at.(phase := Failing)))
    case (DialWorks, Dialing) => Some(SetAttach(s, a, at.(phase := Upgrading)))
    case (UpgradeFails, Upgrading) => Some(SetAttach(s, a, at.(phase := Failing)))
    case (UpgradeWorks, Upgrading) => Some(SetAttach(s, a, at.(phase := Registering)))
    case (FailSession(ok), Failing) =>
      if ok then Some(SetAttach(SetSession(s, at.session, FailStatus(st)), a, at.(phase := Returning)))
      else Some(SetAttach(s, a, at.(phase := Returning, faulted := true)))
    case (Register, Registering) =>
      var manager := s.replicas[at.replica].manager;
      (match Registration(manager, at.session)
       case RegisterDraining => Some(SetAttach(s, a, at.(phase := Refused)))
       case RegisterDuplicate => Some(SetAttach(s, a, at.(phase := Duplicate)))
       case RegisterAccepted =>
         Some(SetAttach(SetManager(s, at.replica, AfterRegister(manager, at.session, a)), a,
                        at.(phase := Live, consumed := true, senders := 4))))
    case (RecordRefusal(ok), Refused) =>
      if ok then Some(SetAttach(SetSession(s, at.session, CompleteStatus(st)), a, at.(phase := Returning)))
      else Some(SetAttach(s, a, at.(phase := Returning, faulted := true)))
    case (DuplicateReturns, Duplicate) => Some(SetAttach(s, a, at.(phase := Returning)))
    case (Send(e), Live) =>
      if at.senders > 0 then Some(SetAttach(s, a, Offered(at, e).(senders := at.senders - 1))) else None
    case (Send(e), Closing(_)) =>
      if at.senders > 0 then Some(SetAttach(s, a, Offered(at, e).(senders := at.senders - 1))) else None
    case (TakeEvent, Live) =>
      if at.channel == [] then None
      else Some(SetAttach(s, a, at.(phase := Closing(at.channel[0]), channel := at.channel[1..])))
    case (Record(ok), Closing(e)) =>
      if at.senders > 0 then None
      else if !ok then Some(SetAttach(s, a, at.(phase := Recorded, faulted := true)))
      else Some(SetAttach(SetSession(s, at.session, if e.normal then CompleteStatus(st) else FailStatus(st)), a,
                          at.(phase := Recorded)))
    case (Remove, Recorded) =>
      Some(SetAttach(SetManager(s, at.replica, AfterRemove(s.replicas[at.replica].manager, at.session)), a,
                     at.(phase := Removed)))
    case (WaitGroupDone, Removed) =>
      Some(SetAttach(SetManager(s, at.replica, AfterDone(s.replicas[at.replica].manager)), a, at.(phase := Returning)))
    case (Release, Returning) =>
      if at.consumed then Some(SetAttach(s, a, at.(phase := Gone)))
      else Some(SetAttach(SetManager(s, at.replica, AfterDone(s.replicas[at.replica].manager)), a,
                          at.(phase := Gone, consumed := true)))
    case _ => None
  }

  function SetShutdown(s: System, r: ReplicaId, to: Shutdown): System
    requires r in s.replicas
  {
    s.(replicas := s.replicas[r := s.replicas[r].(shutdown := to)])
  }

  function ShutdownStep(s: System, r: ReplicaId, m: ShutdownMove): Option<System>
    requires r in s.replicas
  {
    var me := s.replicas[r];
    match (m, me.shutdown)
    case (BeginShutdown, NotStarted) =>
      Some(SetShutdown(SetManager(s, r, me.manager.(draining := true)), r, InGrace))
    case (ReturnNil, InGrace) => if me.manager.waiting == 0 then Some(SetShutdown(s, r, ReturnedNil)) else None
    case (ReturnError, InGrace) => Some(SetShutdown(s, r, ReturnedError))
    case (GraceOver, InGrace) => Some(SetShutdown(s, r, Broadcasting(me.manager.live.Values)))
    case (StopRelay(a), Broadcasting(todo)) =>
      if a in todo && a in s.attaches
      then Some(SetAttach(SetShutdown(s, r, Broadcasting(todo - {a})), a, Offered(s.attaches[a], GOING_AWAY))) else None
    case (BroadcastDone, Broadcasting(todo)) =>
      if todo == {} then Some(SetShutdown(s, r, AfterBroadcast)) else None
    case (ReturnNil, AfterBroadcast) => if me.manager.waiting == 0 then Some(SetShutdown(s, r, ReturnedNil)) else None
    case (ReturnError, AfterBroadcast) => Some(SetShutdown(s, r, ReturnedError))
    case _ => None
  }

  predicate Init(s: System) {
    s.attaches == map[] &&
    forall r :: r in s.replicas ==> s.replicas[r] == Replica(ManagerState(false, map[], 0), NotStarted)
  }

  ghost predicate Run(states: seq<System>, events: seq<Event>) {
    |states| == |events| + 1 && Init(states[0]) && forall i :: 0 <= i < |events| ==> Linked(states, events, i)
  }

  predicate Linked(states: seq<System>, events: seq<Event>, i: nat)
    requires |states| == |events| + 1 && i < |events|
  {
    Step(states[i], events[i]) == Some(states[i + 1])
  }
}
