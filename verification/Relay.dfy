/** The relay manager: reservations, live relays and draining. Each function is what
    one critical section does to the manager; the class runs them on real fields. */
module Relay {
  import opened Tables

  const EVENT_CAPACITY: nat := 4

  /** A teardown event. Only its outcome matters here: normal ones complete the
      session, the others fail it. */
  datatype RelayEvent = RelayEvent(code: int, normal: bool)

  const GOING_AWAY := RelayEvent(1001, true)

  /** What ended a copy loop: a close frame with its code, or any other error. */
  datatype PeerError = CloseReceived(code: int) | OtherError

  /** The close codes that the peers' library accepts from the wire. */
  predicate IsValidReceivedCode(code: int) {
    code in {1000, 1001, 1002, 1003} || 1007 <= code <= 1013 || 3000 <= code <= 4999
  }

  predicate IsNormalCode(code: int) {
    code in {1000, 1001, 1005}
  }

  /** errorEvent: how the end of a copy loop tears the relay down. */
  function ErrorEvent(e: PeerError): RelayEvent {
    match e
    case CloseReceived(code) =>
      if code != 1005 && !IsValidReceivedCode(code) then RelayEvent(1011, false)
      else RelayEvent(code, IsNormalCode(code))
    case OtherError => RelayEvent(1011, false)
  }

  /** A relay ends normally exactly when a peer closed with 1000, 1001 or no status at
      all, and it never passes on a code that a peer could not have sent. */
  lemma NormalEndsAreCloses(e: PeerError)
    ensures ErrorEvent(e).normal <==> e in {CloseReceived(1000), CloseReceived(1001), CloseReceived(1005)}
    ensures ErrorEvent(e).normal ==> ErrorEvent(e).code == e.code
    ensures ErrorEvent(e).code in {1000, 1001, 1002, 1003, 1005, 1007, 1008, 1009, 1010, 1011, 1012, 1013} ||
            3000 <= ErrorEvent(e).code < 5000
    ensures e.CloseReceived? && ErrorEvent(e).code != e.code ==>
              ErrorEvent(e).code == 1011 &&
              (e.code < 1000 || e.code in {1004, 1006} || 1013 < e.code < 3000 || e.code >= 5000)
  {
  }

  /** A send that gives up when the buffer is full. */
  function Offer(events: seq<RelayEvent>, e: RelayEvent): seq<RelayEvent> {
    if |events| < EVENT_CAPACITY then events + [e] else events
  }

  /** `live` maps a session to its relay; `waiting` is the wait group's counter. */
  datatype ManagerState<T> = ManagerState(draining: bool, live: map<SessionId, T>, waiting: int)

  datatype RegisterResult = RegisterAccepted | RegisterDraining | RegisterDuplicate

  function AfterBegin<T>(m: ManagerState<T>): ManagerState<T> {
    if m.draining then m else m.(waiting := m.waiting + 1)
  }

  function AfterDone<T>(m: ManagerState<T>): ManagerState<T> {
    m.(waiting := m.waiting - 1)
  }

  function Registration<T>(m: ManagerState<T>, s: SessionId): RegisterResult {
    if m.draining then RegisterDraining else if s in m.live then RegisterDuplicate else RegisterAccepted
  }

  function AfterRegister<T>(m: ManagerState<T>, s: SessionId, relay: T): ManagerState<T> {
    if Registration(m, s) == RegisterAccepted then m.(live := m.live[s := relay]) else m
  }

  function AfterRemove<T>(m: ManagerState<T>, s: SessionId): ManagerState<T> {
    m.(live := m.live - {s})
  }

  /** The event channel of one running relay. */
  class EventChannel {
    var events: seq<RelayEvent>

    constructor ()
      ensures events == []
    {
      events := [];
    }

    method Stop(e: RelayEvent)
      modifies this
      ensures events == Offer(old(events), e)
    {
      if |events| < EVENT_CAPACITY {
        events := events + [e];
      }
    }
  }

  class AttachReservation {
    const session: SessionId
    var consumed: bool

    constructor (session: SessionId)
      ensures this.session == session && !consumed
    {
      this.session := session;
      consumed := false;
    }
  }

  class Manager {
    var draining: bool
    var live: map<SessionId, EventChannel>
    var waiting: int

    ghost function State(): ManagerState<EventChannel>
      reads this
    {
      ManagerState(draining, live, waiting)
    }

    constructor ()
      ensures State() == ManagerState(false, map[], 0)
    {
      draining := false;
      live := map[];
      waiting := 0;
    }

    method Accepting() returns (b: bool)
      ensures b == !draining
    {
      b := !draining;
    }

    method BeginAttach(session: SessionId) returns (r: AttachReservation?)
      modifies this
      ensures State() == AfterBegin(old(State()))
      ensures r == null <==> old(draining)
      ensures r != null ==> fresh(r) && r.session == session && !r.consumed
    {
      if draining {
        return null;
      }
      waiting := waiting + 1;
      r := new AttachReservation(session);
    }

    /** Gives the reservation back unless a relay adopted it or it was given back. */
    method Release(r: AttachReservation)
      modifies this, r
      ensures r.consumed
      ensures State() == if old(r.consumed) then old(State()) else AfterDone(old(State()))
    {
      if !r.consumed {
        r.consumed := true;
        waiting := waiting - 1;
      }
    }

    method Register(r: AttachReservation, channel: EventChannel) returns (result: RegisterResult)
      modifies this, r
      ensures result == Registration(old(State()), r.session)
      ensures State() == AfterRegister(old(State()), r.session, channel)
      ensures r.consumed <==> old(r.consumed) || result == RegisterAccepted
    {
      if draining {
        return RegisterDraining;
      }
      if r.session in live {
        return RegisterDuplicate;
      }
      live := live[r.session := channel];
      r.consumed := true;
      return RegisterAccepted;
    }

    /** unregister: the relay leaves the map first and the wait group afterwards. */
    method Unregister(session: SessionId)
      modifies this
      ensures State() == AfterDone(AfterRemove(old(State()), session))
    {
      live := live - {session};
      waiting := waiting - 1;
    }

    /** The critical section that opens Shutdown. */
    method StartDraining()
      modifies this
      ensures State() == old(State()).(draining := true)
    {
      draining := true;
    }

    /** The second critical section of Shutdown: the stop functions of the relays that
        are live at this moment, each once. Every Run makes its own channel. */
    method LiveStops() returns (stops: seq<EventChannel>)
      requires forall s, t :: s in live && t in live && s != t ==> live[s] != live[t]
      ensures forall c :: c in stops <==> c in live.Values
      ensures forall i, j :: 0 <= i < j < |stops| ==> stops[i] != stops[j]
    {
      stops := [];
      var todo := live.Keys;
      while todo != {}
        invariant todo <= live.Keys
        invariant forall c :: c in stops <==> exists s :: s in live && s !in todo && live[s] == c
        invariant forall i, j :: 0 <= i < j < |stops| ==> stops[i] != stops[j]
        decreases todo
      {
        var s :| s in todo;
        assert live[s] !in stops;
        stops := stops + [live[s]];
        todo := todo - {s};
      }
    }

    /** The broadcast, outside the lock: each of these relays is offered the event once,
        whether or not it still is in the map. */
    static method StopAll(stops: seq<EventChannel>, e: RelayEvent)
      requires forall i, j :: 0 <= i < j < |stops| ==> stops[i] != stops[j]
      modifies set i | 0 <= i < |stops| :: stops[i]
      ensures forall i :: 0 <= i < |stops| ==> stops[i].events == Offer(old(stops[i].events), e)
      ensures forall i :: 0 <= i < |stops| ==> stops[i].events != []
    {
      for i := 0 to |stops|
        invariant forall j :: i <= j < |stops| ==> stops[j].events == old(stops[j].events)
        invariant forall j :: 0 <= j < i ==> stops[j].events == Offer(old(stops[j].events), e)
      {
        stops[i].Stop(e);
      }
    }
  }
}
