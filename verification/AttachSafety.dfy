/** What every step of the attachment system keeps, and the main results about it. */
module AttachSafety {
  import opened Common
  import opened Tables
  import opened Relay
  import opened Attaching

  /** In the live map. */
  predicate InMap(p: Phase) {
    p.Live? || p.Closing? || p.Recorded?
  }

  /** Accepted and not yet fully unregistered. */
  predicate Adopted(p: Phase) {
    InMap(p) || p.Removed?
  }

  /** An unconsumed reservation, or an accepted relay that is not fully unregistered. */
  predicate Counts(at: Attach) {
    !at.consumed || Adopted(at.phase)
  }

  predicate PastStart(p: Phase) {
    p.Dialing? || p.Upgrading? || p.Registering? || p.Refused? || p.Duplicate? || Adopted(p)
  }

  predicate AfterOutcome(p: Phase) {
    p.Recorded? || p.Removed? || p.Returning? || p.Gone?
  }

  predicate ChannelOk(at: Attach) {
    match at.phase
    case Live => at.channel == at.offered[..Min(|at.offered|, EVENT_CAPACITY)] && at.senders + |at.offered| >= 4
    case Closing(e) => at.offered != [] && e == at.offered[0]
    case Recorded => true
    case Removed => true
    case Returning => true
    case Gone => true
    case _ => at.offered == [] && at.channel == []
  }

  /** The facts about one attachment alone. */
  predicate Sound(at: Attach) {
    (PastStart(at.phase) ==> at.won) &&
    (Adopted(at.phase) || at.phase.Gone? ==> at.consumed) &&
    (at.consumed ==> Adopted(at.phase) || at.phase.Returning? || at.phase.Gone?) &&
    (at.phase.Reserved? ==> !at.won) &&
    (at.phase.Failing? ==> at.won || at.faulted) &&
    !at.phase.Duplicate? && at.senders <= 4 && ChannelOk(at)
  }

  predicate AttachOk(s: System, a: AttachId)
    requires Ready(s, a)
  {
    var at := s.attaches[a];
    var live := s.replicas[at.replica].manager.live;
    Sound(at) &&
    (at.won ==> s.sessions[at.session] != Pending) &&
    (InMap(at.phase) <==> at.session in live && live[at.session] == a) &&
    (AfterOutcome(at.phase) && at.won && !at.faulted ==> Ended(s.sessions[at.session]))
  }

  function OpenOn(s: System, r: ReplicaId): set<AttachId> {
    set a | a in s.attaches && s.attaches[a].replica == r && Counts(s.attaches[a])
  }

  predicate LiveOk(s: System, r: ReplicaId)
    requires r in s.replicas
  {
    forall id :: id in s.replicas[r].manager.live ==>
      var a := s.replicas[r].manager.live[id];
      a in s.attaches && s.attaches[a].replica == r && s.attaches[a].session == id && InMap(s.attaches[a].phase)
  }

  predicate HasEvent(s: System, r: ReplicaId, except: set<AttachId>) {
    forall a :: a in s.attaches && s.attaches[a].replica == r && s.attaches[a].phase.Live? ==>
      a in except || s.attaches[a].channel != []
  }

  predicate ShutdownOk(s: System, r: ReplicaId)
    requires r in s.replicas
  {
    var me := s.replicas[r];
    (me.shutdown != NotStarted ==> me.manager.draining) &&
    match me.shutdown
    case Broadcasting(todo) =>
      HasEvent(s, r, todo) &&
      forall a :: a in todo ==> a in s.attaches && s.attaches[a].replica == r && s.attaches[a].consumed
    case AfterBroadcast => HasEvent(s, r, {})
    case ReturnedNil => me.manager.waiting == 0
    case _ => true
  }

  predicate ReplicaOk(s: System, r: ReplicaId)
    requires r in s.replicas
  {
    s.replicas[r].manager.waiting == |OpenOn(s, r)| && LiveOk(s, r) && ShutdownOk(s, r)
  }

  /** At most one attachment ever started a given session. */
  predicate OneWinner(s: System) {
    forall a, b :: a in s.attaches && b in s.attaches && a != b && s.attaches[a].won && s.attaches[b].won ==>
      s.attaches[a].session != s.attaches[b].session
  }

  ghost predicate Inv(s: System) {
    (forall a :: a in s.attaches ==> Ready(s, a) && AttachOk(s, a)) &&
    (forall r :: r in s.replicas ==> ReplicaOk(s, r)) &&
    OneWinner(s)
  }

  // ------------------------------------------------------------------ frames

  /** Sessions appear, leave pending for good, and end for good. */
  predicate SessionsAdvance(s: System, s': System) {
    forall id :: id in s.sessions ==>
      id in s'.sessions &&
      (s.sessions[id] != Pending ==> s'.sessions[id] != Pending) &&
      (Ended(s.sessions[id]) ==> s'.sessions[id] == s.sessions[id])
  }

  /** Only attachment a, its manager and its session change. */
  predicate OnlyAttach(s: System, s': System, a: AttachId) {
    a in s.attaches && SessionsAdvance(s, s') &&
    s'.attaches.Keys == s.attaches.Keys && s'.replicas.Keys == s.replicas.Keys &&
    (forall b :: b in s.attaches && b != a ==> s'.attaches[b] == s.attaches[b]) &&
    s'.attaches[a].replica == s.attaches[a].replica && s'.attaches[a].session == s.attaches[a].session &&
    (forall r :: r in s.replicas && r != s.attaches[a].replica ==> s'.replicas[r] == s.replicas[r]) &&
    (forall r :: r in s.replicas ==>
      s'.replicas[r].shutdown == s.replicas[r].shutdown &&
      s'.replicas[r].manager.draining == s.replicas[r].manager.draining)
  }

  /** The live map gains or loses at most a's own entry. */
  predicate LiveStep(s: System, s': System, a: AttachId)
    requires OnlyAttach(s, s', a) && s.attaches[a].replica in s.replicas
  {
    var live := s.replicas[s.attaches[a].replica].manager.live;
    var live' := s'.replicas[s.attaches[a].replica].manager.live;
    var id := s.attaches[a].session;
    live' == live || (id !in live && live' == live[id := a]) || (id in live && live[id] == a && live' == live - {id})
  }

  /** The wait group follows the attachment: nobody else's part of it changes. */
  predicate WaitStep(s: System, s': System, a: AttachId)
    requires OnlyAttach(s, s', a) && s.attaches[a].replica in s.replicas
  {
    var r := s.attaches[a].replica;
    s'.replicas[r].manager.waiting - s.replicas[r].manager.waiting ==
    (if Counts(s'.attaches[a]) then 1 else 0) - (if Counts(s.attaches[a]) then 1 else 0)
  }

  /** Adoption happens only while not draining; consumed reservations stay so. */
  predicate JoinStep(s: System, s': System, a: AttachId)
    requires OnlyAttach(s, s', a) && s.attaches[a].replica in s.replicas
  {
    var at, at' := s.attaches[a], s'.attaches[a];
    (at.consumed ==> at'.consumed) && (Counts(at') ==> Counts(at)) &&
    (at'.phase.Live? ==> at.phase.Live? || !s.replicas[at.replica].manager.draining) &&
    (at'.phase.Live? && at.phase.Live? && at.channel != [] ==> at'.channel != [])
  }

  lemma OthersStayOk(s: System, s': System, a: AttachId, b: AttachId)
    requires Inv(s) && OnlyAttach(s, s', a) && s.attaches[a].replica in s.replicas && LiveStep(s, s', a)
    requires b in s.attaches && b != a
    ensures Ready(s', b) && AttachOk(s', b)
  {
    assert Ready(s, b) && AttachOk(s, b);
  }

  lemma OpenStays(s: System, s': System, a: AttachId, r: ReplicaId)
    requires OnlyAttach(s, s', a) && s.attaches[a].replica in s.replicas && r in s.replicas && ReplicaOk(s, r)
    requires WaitStep(s, s', a) && JoinStep(s, s', a)
    ensures s'.replicas[r].manager.waiting == |OpenOn(s', r)|
    ensures OpenOn(s', r) <= OpenOn(s, r)
  {
    var before, after := Counts(s.attaches[a]), Counts(s'.attaches[a]);
    if r == s.attaches[a].replica && before && !after {
      assert OpenOn(s', r) == OpenOn(s, r) - {a};
      assert a in OpenOn(s, r);
    } else {
      assert OpenOn(s', r) == OpenOn(s, r);
    }
  }

  lemma LiveStays(s: System, s': System, a: AttachId, r: ReplicaId)
    requires OnlyAttach(s, s', a) && s.attaches[a].replica in s.replicas && r in s.replicas && ReplicaOk(s, r)
    requires LiveStep(s, s', a) && Ready(s', a) && AttachOk(s', a)
    ensures LiveOk(s', r)
  {
  }

  lemma ShutdownStays(s: System, s': System, a: AttachId, r: ReplicaId)
    requires OnlyAttach(s, s', a) && s.attaches[a].replica in s.replicas && r in s.replicas && ReplicaOk(s, r)
    requires WaitStep(s, s', a) && JoinStep(s, s', a)
    ensures ShutdownOk(s', r)
  {
    OpenStays(s, s', a, r);
    SubsetSize(OpenOn(s', r), OpenOn(s, r));
  }

  /** Enough to carry the invariant over a step of attachment a. */
  lemma AttachStepKeepsInv(s: System, s': System, a: AttachId)
    requires Inv(s) && OnlyAttach(s, s', a) && Ready(s, a)
    requires LiveStep(s, s', a) && WaitStep(s, s', a) && JoinStep(s, s', a)
    requires Ready(s', a) && AttachOk(s', a) && OneWinner(s')
    ensures Inv(s')
  {
    forall b | b in s'.attaches
      ensures Ready(s', b) && AttachOk(s', b)
    {
      if b != a {
        OthersStayOk(s, s', a, b);
      }
    }
    forall r | r in s'.replicas
      ensures ReplicaOk(s', r)
    {
      OpenStays(s, s', a, r);
      LiveStays(s, s', a, r);
      ShutdownStays(s, s', a, r);
    }
  }

  // ------------------------------------------------------- attachment steps

  /** A relay that is about to register has won its session, so nobody else of the
      same session can be in the map. */
  lemma NoDuplicate(s: System, a: AttachId)
    requires Inv(s) && a in s.attaches && s.attaches[a].phase.Registering?
    ensures Ready(s, a) && s.attaches[a].session !in s.replicas[s.attaches[a].replica].manager.live
  {
    assert AttachOk(s, a);
    var at := s.attaches[a];
    assert ReplicaOk(s, at.replica);
    var live := s.replicas[at.replica].manager.live;
    assert at.session in live ==> AttachOk(s, live[at.session]);
  }

  /** The moves that write the session row. */
  predicate WritesSession(m: AttachMove) {
    m.StartWins? || m.StartErrors? || m.FailSession? || m.RecordRefusal? || m.Record?
  }

  /** The moves that change the manager. */
  predicate WritesManager(m: AttachMove) {
    m.Register? || m.Remove? || m.WaitGroupDone? || m.Release?
  }

  lemma SessionMoveChangesOnlyItself(s: System, a: AttachId, m: AttachMove, s': System)
    requires Ready(s, a) && AttachStep(s, a, m) == Some(s') && WritesSession(m)
    ensures OnlyAttach(s, s', a) && Ready(s', a)
  {
  }

  lemma ManagerMoveChangesOnlyItself(s: System, a: AttachId, m: AttachMove, s': System)
    requires Ready(s, a) && AttachStep(s, a, m) == Some(s') && WritesManager(m)
    ensures OnlyAttach(s, s', a) && Ready(s', a)
  {
  }

  lemma OtherMoveChangesOnlyItself(s: System, a: AttachId, m: AttachMove, s': System)
    requires Ready(s, a) && AttachStep(s, a, m) == Some(s') && !WritesSession(m) && !WritesManager(m)
    ensures OnlyAttach(s, s', a) && Ready(s', a)
  {
  }

  lemma MoveChangesOnlyItself(s: System, a: AttachId, m: AttachMove, s': System)
    requires Ready(s, a) && AttachStep(s, a, m) == Some(s')
    ensures OnlyAttach(s, s', a) && Ready(s', a)
  {
    if WritesSession(m) {
      SessionMoveChangesOnlyItself(s, a, m, s');
    } else if WritesManager(m) {
      ManagerMoveChangesOnlyItself(s, a, m, s');
    } else {
      OtherMoveChangesOnlyItself(s, a, m, s');
    }
  }

  lemma SessionMoveAndManager(s: System, a: AttachId, m: AttachMove, s': System)
    requires Ready(s, a) && AttachStep(s, a, m) == Some(s') && WritesSession(m)
    requires AttachOk(s, a) && OnlyAttach(s, s', a)
    ensures LiveStep(s, s', a) && WaitStep(s, s', a) && JoinStep(s, s', a)
  {
  }

  lemma ManagerMoveAndManager(s: System, a: AttachId, m: AttachMove, s': System)
    requires Ready(s, a) && AttachStep(s, a, m) == Some(s') && WritesManager(m)
    requires AttachOk(s, a) && OnlyAttach(s, s', a)
    ensures LiveStep(s, s', a) && WaitStep(s, s', a) && JoinStep(s, s', a)
  {
  }

  lemma OtherMoveAndManager(s: System, a: AttachId, m: AttachMove, s': System)
    requires Ready(s, a) && AttachStep(s, a, m) == Some(s') && !WritesSession(m) && !WritesManager(m)
    requires AttachOk(s, a) && OnlyAttach(s, s', a)
    ensures LiveStep(s, s', a) && WaitStep(s, s', a) && JoinStep(s, s', a)
  {
  }

  lemma MoveAndManager(s: System, a: AttachId, m: AttachMove, s': System)
    requires Ready(s, a) && AttachOk(s, a) && AttachStep(s, a, m) == Some(s') && OnlyAttach(s, s', a)
    ensures LiveStep(s, s', a) && WaitStep(s, s', a) && JoinStep(s, s', a)
  {
    if WritesSession(m) {
      SessionMoveAndManager(s, a, m, s');
    } else if WritesManager(m) {
      ManagerMoveAndManager(s, a, m, s');
    } else {
      OtherMoveAndManager(s, a, m, s');
    }
  }

  lemma SessionMoveIsSound(s: System, a: AttachId, m: AttachMove, s': System)
    requires Ready(s, a) && AttachOk(s, a) && AttachStep(s, a, m) == Some(s') && Ready(s', a)
    requires m.Register? ==> s.attaches[a].session !in s.replicas[s.attaches[a].replica].manager.live
    requires WritesSession(m)
    ensures Sound(s'.attaches[a])
  {
  }

  lemma ManagerMoveIsSound(s: System, a: AttachId, m: AttachMove, s': System)
    requires Ready(s, a) && AttachOk(s, a) && AttachStep(s, a, m) == Some(s') && Ready(s', a)
    requires m.Register? ==> s.attaches[a].session !in s.replicas[s.attaches[a].replica].manager.live
    requires WritesManager(m)
    ensures Sound(s'.attaches[a])
  {
  }

  lemma OtherMoveIsSound(s: System, a: AttachId, m: AttachMove, s': System)
    requires Ready(s, a) && AttachOk(s, a) && AttachStep(s, a, m) == Some(s') && Ready(s', a)
    requires m.Register? ==> s.attaches[a].session !in s.replicas[s.attaches[a].replica].manager.live
    requires !WritesSession(m) && !WritesManager(m)
    ensures Sound(s'.attaches[a])
  {
  }

  lemma SessionMoveIsOk(s: System, a: AttachId, m: AttachMove, s': System)
    requires Ready(s, a) && AttachOk(s, a) && AttachStep(s, a, m) == Some(s') && Ready(s', a)
    requires m.Register? ==> s.attaches[a].session !in s.replicas[s.attaches[a].replica].manager.live
    requires WritesSession(m)
    ensures AttachOk(s', a)
  {
    SessionMoveIsSound(s, a, m, s');
  }

  lemma ManagerMoveIsOk(s: System, a: AttachId, m: AttachMove, s': System)
    requires Ready(s, a) && AttachOk(s, a) && AttachStep(s, a, m) == Some(s') && Ready(s', a)
    requires m.Register? ==> s.attaches[a].session !in s.replicas[s.attaches[a].replica].manager.live
    requires WritesManager(m)
    ensures AttachOk(s', a)
  {
    ManagerMoveIsSound(s, a, m, s');
  }

  lemma OtherMoveIsOk(s: System, a: AttachId, m: AttachMove, s': System)
    requires Ready(s, a) && AttachOk(s, a) && AttachStep(s, a, m) == Some(s') && Ready(s', a)
    requires m.Register? ==> s.attaches[a].session !in s.replicas[s.attaches[a].replica].manager.live
    requires !WritesSession(m) && !WritesManager(m)
    ensures AttachOk(s', a)
  {
    OtherMoveIsSound(s, a, m, s');
  }

  lemma MoveIsOk(s: System, a: AttachId, m: AttachMove, s': System)
    requires Ready(s, a) && AttachOk(s, a) && AttachStep(s, a, m) == Some(s') && Ready(s', a)
    requires m.Register? ==> s.attaches[a].session !in s.replicas[s.attaches[a].replica].manager.live
    ensures AttachOk(s', a)
  {
    if WritesSession(m) {
      SessionMoveIsOk(s, a, m, s');
    } else if WritesManager(m) {
      ManagerMoveIsOk(s, a, m, s');
    } else {
      OtherMoveIsOk(s, a, m, s');
    }
  }

  predicate StartedIsNotPending(s: System) {
    forall b :: b in s.attaches && s.attaches[b].won ==>
      s.attaches[b].session in s.sessions && s.sessions[s.attaches[b].session] != Pending
  }

  /** StartSession changes a row only from pending, which no started session is. */
  lemma MoveKeepsOneWinner(s: System, a: AttachId, m: AttachMove, s': System)
    requires OneWinner(s) && StartedIsNotPending(s)
    requires Ready(s, a) && AttachStep(s, a, m) == Some(s') && OnlyAttach(s, s', a)
    ensures OneWinner(s')
  {
    if s'.attaches[a].won && !s.attaches[a].won {
      assert s.sessions[s.attaches[a].session] == Pending;
    }
  }

  lemma InvMeansStartedIsNotPending(s: System)
    requires Inv(s)
    ensures StartedIsNotPending(s)
  {
    forall b | b in s.attaches && s.attaches[b].won
      ensures s.attaches[b].session in s.sessions && s.sessions[s.attaches[b].session] != Pending
    {
      assert Ready(s, b) && AttachOk(s, b);
    }
  }

  lemma MoveKeepsInv(s: System, a: AttachId, m: AttachMove, s': System)
    requires Inv(s) && Ready(s, a) && AttachStep(s, a, m) == Some(s')
    ensures Inv(s')
  {
    assert AttachOk(s, a);
    if m.Register? {
      NoDuplicate(s, a);
    }
    MoveChangesOnlyItself(s, a, m, s');
    MoveAndManager(s, a, m, s');
    MoveIsOk(s, a, m, s');
    InvMeansStartedIsNotPending(s);
    MoveKeepsOneWinner(s, a, m, s');
    AttachStepKeepsInv(s, s', a);
  }

  // ------------------------------------------------------------ other steps

  lemma SessionEventIsSmall(s: System, e: Event, s': System)
    requires (e.NewSession? || e.EndSession?) && Step(s, e) == Some(s')
    ensures s'.attaches == s.attaches && s'.replicas == s.replicas && SessionsAdvance(s, s')
  {
  }

  lemma SessionsAdvanceKeepsInv(s: System, s': System)
    requires Inv(s) && s'.attaches == s.attaches && s'.replicas == s.replicas && SessionsAdvance(s, s')
    ensures Inv(s')
  {
    forall a | a in s'.attaches
      ensures Ready(s', a) && AttachOk(s', a)
    {
      assert Ready(s, a) && AttachOk(s, a);
    }
    forall r | r in s'.replicas
      ensures ReplicaOk(s', r)
    {
      assert ReplicaOk(s, r);
      assert OpenOn(s', r) == OpenOn(s, r);
    }
  }

  lemma SessionEventKeepsInv(s: System, e: Event, s': System)
    requires Inv(s) && (e.NewSession? || e.EndSession?) && Step(s, e) == Some(s')
    ensures Inv(s')
  {
    SessionEventIsSmall(s, e, s');
    SessionsAdvanceKeepsInv(s, s');
  }

  lemma BeginOpensOne(s: System, s': System, a: AttachId, at: Attach, q: ReplicaId)
    requires a !in s.attaches && s'.attaches == s.attaches[a := at] && Counts(at)
    ensures |OpenOn(s', q)| == |OpenOn(s, q)| + if q == at.replica then 1 else 0
  {
    if q == at.replica {
      assert OpenOn(s', q) == OpenOn(s, q) + {a};
    } else {
      assert OpenOn(s', q) == OpenOn(s, q);
    }
  }

  lemma BeginKeepsShutdown(s: System, a: AttachId, r: ReplicaId, id: SessionId, s': System, q: ReplicaId)
    requires Step(s, BeginAttach(a, r, id)) == Some(s') && q in s.replicas && LiveOk(s, q) && ShutdownOk(s, q)
    ensures LiveOk(s', q) && ShutdownOk(s', q)
  {
  }

  lemma BeginKeepsReplica(s: System, a: AttachId, r: ReplicaId, id: SessionId, s': System, q: ReplicaId)
    requires Step(s, BeginAttach(a, r, id)) == Some(s') && q in s.replicas && ReplicaOk(s, q)
    ensures ReplicaOk(s', q)
  {
    BeginOpensOne(s, s', a, s'.attaches[a], q);
    BeginKeepsShutdown(s, a, r, id, s', q);
  }

  lemma BeginKeepsInv(s: System, a: AttachId, r: ReplicaId, id: SessionId, s': System)
    requires Inv(s) && Step(s, BeginAttach(a, r, id)) == Some(s')
    ensures Inv(s')
  {
    forall b | b in s'.attaches
      ensures Ready(s', b) && AttachOk(s', b)
    {
      if b != a {
        assert Ready(s, b) && AttachOk(s, b);
      } else {
        assert ReplicaOk(s, r);
      }
    }
    forall q | q in s'.replicas
      ensures ReplicaOk(s', q)
    {
      BeginKeepsReplica(s, a, r, id, s', q);
    }
  }

  /** A shutdown step leaves the attachments of its replica as they are, except that
      StopRelay offers an event to one that was adopted. */
  lemma ShutdownMoveKeepsAttach(s: System, r: ReplicaId, m: ShutdownMove, s': System, b: AttachId)
    requires r in s.replicas && ReplicaOk(s, r) && ShutdownStep(s, r, m) == Some(s')
    requires b in s.attaches && Ready(s, b) && AttachOk(s, b)
    ensures b in s'.attaches && Ready(s', b) && AttachOk(s', b)
    ensures s'.attaches[b].replica == s.attaches[b].replica && s'.attaches[b].session == s.attaches[b].session
    ensures s'.attaches[b].phase == s.attaches[b].phase && s'.attaches[b].consumed == s.attaches[b].consumed
    ensures s'.attaches[b].won == s.attaches[b].won
    ensures s.attaches[b].channel != [] ==> s'.attaches[b].channel != []
    ensures m == StopRelay(b) ==> s'.attaches[b].channel != []
  {
  }

  lemma LiveRelaysAreListed(s: System, r: ReplicaId)
    requires r in s.replicas && forall a :: a in s.attaches ==> Ready(s, a) && AttachOk(s, a)
    ensures HasEvent(s, r, s.replicas[r].manager.live.Values)
  {
    forall a | a in s.attaches && s.attaches[a].replica == r && s.attaches[a].phase.Live?
      ensures a in s.replicas[r].manager.live.Values
    {
      assert Ready(s, a) && AttachOk(s, a);
      assert s.attaches[a].session in s.replicas[r].manager.live.Keys;
    }
  }

  lemma AdoptedAreConsumed(s: System, r: ReplicaId)
    requires r in s.replicas && LiveOk(s, r) && forall a :: a in s.attaches ==> Ready(s, a) && AttachOk(s, a)
    ensures forall a :: a in s.replicas[r].manager.live.Values ==>
              a in s.attaches && s.attaches[a].replica == r && s.attaches[a].consumed
  {
    forall a | a in s.replicas[r].manager.live.Values
      ensures a in s.attaches && s.attaches[a].replica == r && s.attaches[a].consumed
    {
      var id :| id in s.replicas[r].manager.live && s.replicas[r].manager.live[id] == a;
      assert Ready(s, a) && AttachOk(s, a);
    }
  }

  lemma ShutdownMoveKeepsReplica(s: System, r: ReplicaId, m: ShutdownMove, s': System, q: ReplicaId)
    requires r in s.replicas && ShutdownStep(s, r, m) == Some(s') && ReplicaOk(s, r)
    requires q in s.replicas && ReplicaOk(s, q)
    requires s'.attaches.Keys == s.attaches.Keys
    requires forall b :: b in s.attaches ==> SameButChannel(s.attaches[b], s'.attaches[b])
    requires forall b :: b in s.attaches && m == StopRelay(b) ==> s'.attaches[b].channel != []
    requires m.GraceOver? && q == r ==> HasEvent(s, r, s.replicas[r].manager.live.Values)
    requires m.GraceOver? && q == r ==> forall a :: a in s.replicas[r].manager.live.Values ==>
               a in s.attaches && s.attaches[a].replica == r && s.attaches[a].consumed
    ensures ReplicaOk(s', q)
  {
    assert OpenOn(s', q) == OpenOn(s, q);
  }

  predicate SameButChannel(x: Attach, y: Attach) {
    x.replica == y.replica && x.session == y.session && x.phase == y.phase && x.consumed == y.consumed &&
    x.won == y.won && (x.channel != [] ==> y.channel != [])
  }

  lemma ShutdownMoveKeepsAttaches(s: System, r: ReplicaId, m: ShutdownMove, s': System)
    requires r in s.replicas && ReplicaOk(s, r) && ShutdownStep(s, r, m) == Some(s')
    requires forall b :: b in s.attaches ==> Ready(s, b) && AttachOk(s, b)
    ensures s'.attaches.Keys == s.attaches.Keys
    ensures forall b :: b in s'.attaches ==> Ready(s', b) && AttachOk(s', b)
    ensures forall b :: b in s.attaches ==> SameButChannel(s.attaches[b], s'.attaches[b])
    ensures forall b :: b in s.attaches && m == StopRelay(b) ==> s'.attaches[b].channel != []
  {
    forall b | b in s.attaches
      ensures b in s'.attaches && Ready(s', b) && AttachOk(s', b)
      ensures SameButChannel(s.attaches[b], s'.attaches[b])
      ensures m == StopRelay(b) ==> s'.attaches[b].channel != []
    {
      assert Ready(s, b) && AttachOk(s, b);
      ShutdownMoveKeepsAttach(s, r, m, s', b);
    }
    assert s'.attaches.Keys == s.attaches.Keys;
  }

  lemma ShutdownMoveKeepsInv(s: System, r: ReplicaId, m: ShutdownMove, s': System)
    requires Inv(s) && r in s.replicas && ShutdownStep(s, r, m) == Some(s')
    ensures Inv(s')
  {
    assert ReplicaOk(s, r);
    ShutdownMoveKeepsAttaches(s, r, m, s');
    LiveRelaysAreListed(s, r);
    AdoptedAreConsumed(s, r);
    forall q | q in s'.replicas
      ensures ReplicaOk(s', q)
    {
      assert q in s.replicas && ReplicaOk(s, q);
      ShutdownMoveKeepsReplica(s, r, m, s', q);
    }
    SameWinners(s, s');
  }

  lemma SameWinners(s: System, s': System)
    requires OneWinner(s) && s'.attaches.Keys == s.attaches.Keys
    requires forall b :: b in s.attaches ==> SameButChannel(s.attaches[b], s'.attaches[b])
    ensures OneWinner(s')
  {
  }

  lemma StepKeepsInv(s: System, e: Event, s': System)
    requires Inv(s) && Step(s, e) == Some(s')
    ensures Inv(s')
  {
    match e
    case NewSession(_) => SessionEventKeepsInv(s, e, s');
    case EndSession(_, _) => SessionEventKeepsInv(s, e, s');
    case BeginAttach(a, r, id) => BeginKeepsInv(s, a, r, id, s');
    case OfAttach(a, m) => MoveKeepsInv(s, a, m, s');
    case OfShutdown(r, m) => ShutdownMoveKeepsInv(s, r, m, s');
  }

  lemma InitIsOk(s: System)
    requires Init(s)
    ensures Inv(s)
  {
    forall r | r in s.replicas
      ensures ReplicaOk(s, r)
    {
      assert OpenOn(s, r) == {};
    }
  }

  lemma {:induction false} RunKeepsInv(states: seq<System>, events: seq<Event>, i: nat)
    requires Run(states, events) && i < |states|
    ensures Inv(states[i])
  {
    if i == 0 {
      InitIsOk(states[0]);
    } else {
      RunKeepsInv(states, events, i - 1);
      assert Linked(states, events, i - 1);
      StepKeepsInv(states[i - 1], events[i - 1], states[i]);
    }
  }

  // ------------------------------------------------------------ main results

  /** The wait group counts exactly the unconsumed reservations and the accepted
      relays that are not fully unregistered; so it is never negative, each
      reservation is given back exactly once, and Shutdown returns nil only when
      nothing of the replica is left. */
  lemma WaitGroupIsExact(states: seq<System>, events: seq<Event>, i: nat, r: ReplicaId)
    requires Run(states, events) && i < |states| && r in states[i].replicas
    ensures states[i].replicas[r].manager.waiting == |OpenOn(states[i], r)|
    ensures states[i].replicas[r].shutdown == ReturnedNil ==>
              OpenOn(states[i], r) == {} && states[i].replicas[r].manager.live == map[]
  {
    RunKeepsInv(states, events, i);
    assert ReplicaOk(states[i], r);
    LiveRelaysAreOpen(states[i], r);
  }

  lemma LiveRelaysAreOpen(s: System, r: ReplicaId)
    requires r in s.replicas && LiveOk(s, r)
    ensures OpenOn(s, r) == {} ==> s.replicas[r].manager.live == map[]
  {
    var live := s.replicas[r].manager.live;
    assert forall id :: id in live ==> live[id] in OpenOn(s, r);
  }

  /** After the broadcast every relay that still runs has an event to take. */
  lemma BroadcastReachesEveryone(states: seq<System>, events: seq<Event>, i: nat, a: AttachId)
    requires Run(states, events) && i < |states| && a in states[i].attaches
    requires states[i].attaches[a].replica in states[i].replicas
    requires states[i].replicas[states[i].attaches[a].replica].shutdown == AfterBroadcast
    ensures states[i].attaches[a].phase.Live? ==> states[i].attaches[a].channel != []
  {
    RunKeepsInv(states, events, i);
    assert ReplicaOk(states[i], states[i].attaches[a].replica);
  }

  /** The first event offered to a relay is the one that tears it down. */
  lemma FirstEventWins(states: seq<System>, events: seq<Event>, i: nat, a: AttachId)
    requires Run(states, events) && i < |states| && a in states[i].attaches && states[i].attaches[a].phase.Closing?
    ensures states[i].attaches[a].offered != [] && states[i].attaches[a].phase.event == states[i].attaches[a].offered[0]
  {
    RunKeepsInv(states, events, i);
    assert AttachOk(states[i], a);
  }

  /** Nothing joins once a replica drains: what is open only shrinks. */
  lemma NothingJoinsWhileDraining(states: seq<System>, events: seq<Event>, i: nat, r: ReplicaId)
    requires Run(states, events) && i < |events| && r in states[i].replicas && states[i].replicas[r].manager.draining
    ensures r in states[i + 1].replicas && states[i + 1].replicas[r].manager.draining
    ensures OpenOn(states[i + 1], r) <= OpenOn(states[i], r)
    ensures states[i + 1].replicas[r].manager.live.Keys <= states[i].replicas[r].manager.live.Keys
  {
    RunKeepsInv(states, events, i);
    assert Linked(states, events, i);
    DrainingStep(states[i], events[i], states[i + 1], r);
  }

  lemma DrainingMove(s: System, a: AttachId, m: AttachMove, s': System, r: ReplicaId)
    requires Ready(s, a) && AttachOk(s, a) && AttachStep(s, a, m) == Some(s')
    requires r in s.replicas && ReplicaOk(s, r) && s.replicas[r].manager.draining
    ensures r in s'.replicas && s'.replicas[r].manager.draining
    ensures OpenOn(s', r) <= OpenOn(s, r)
    ensures s'.replicas[r].manager.live.Keys <= s.replicas[r].manager.live.Keys
  {
    MoveChangesOnlyItself(s, a, m, s');
    MoveAndManager(s, a, m, s');
    OpenStays(s, s', a, r);
  }

  lemma DrainingShutdownMove(s: System, q: ReplicaId, m: ShutdownMove, s': System, r: ReplicaId)
    requires q in s.replicas && ShutdownStep(s, q, m) == Some(s') && r in s.replicas && s.replicas[r].manager.draining
    ensures r in s'.replicas && s'.replicas[r].manager.draining
    ensures OpenOn(s', r) <= OpenOn(s, r)
    ensures s'.replicas[r].manager.live == s.replicas[r].manager.live
  {
  }

  lemma DrainingStep(s: System, e: Event, s': System, r: ReplicaId)
    requires Inv(s) && Step(s, e) == Some(s') && r in s.replicas && s.replicas[r].manager.draining
    ensures r in s'.replicas && s'.replicas[r].manager.draining
    ensures OpenOn(s', r) <= OpenOn(s, r)
    ensures s'.replicas[r].manager.live.Keys <= s.replicas[r].manager.live.Keys
  {
    match e
    case OfAttach(a, m) =>
      assert AttachOk(s, a) && ReplicaOk(s, r);
      DrainingMove(s, a, m, s', r);
    case OfShutdown(q, m) => DrainingShutdownMove(s, q, m, s', r);
    case _ =>
  }

  /** At most one attachment, on whatever replica, starts a session; so an attachment
      is never turned away as a duplicate, and the map never loses another's relay. */
  lemma OneAttachPerSession(states: seq<System>, events: seq<Event>, i: nat, a: AttachId, b: AttachId)
    requires Run(states, events) && i < |states| && a in states[i].attaches && b in states[i].attaches
    ensures a != b && states[i].attaches[a].won && states[i].attaches[b].won ==>
              states[i].attaches[a].session != states[i].attaches[b].session
    ensures states[i].attaches[a].phase != Duplicate
    ensures states[i].attaches[a].phase == Registering ==>
              Ready(states[i], a) &&
              states[i].attaches[a].session !in states[i].replicas[states[i].attaches[a].replica].manager.live
  {
    RunKeepsInv(states, events, i);
    assert AttachOk(states[i], a);
    if states[i].attaches[a].phase == Registering {
      NoDuplicate(states[i], a);
    }
  }

  /** When its database calls succeed, an attachment that started its session has
      ended it before it stops counting for Shutdown. */
  lemma StartedSessionsEndFirst(states: seq<System>, events: seq<Event>, i: nat, a: AttachId)
    requires Run(states, events) && i < |states| && a in states[i].attaches
    requires states[i].attaches[a].won && !states[i].attaches[a].faulted && !Counts(states[i].attaches[a])
    ensures states[i].attaches[a].session in states[i].sessions &&
            Ended(states[i].sessions[states[i].attaches[a].session])
  {
    RunKeepsInv(states, events, i);
    assert AttachOk(states[i], a);
  }
}
