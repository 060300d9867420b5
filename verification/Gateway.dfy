/** The worker's session gateway: its maps, and the handlers that the runtime calls one
    at a time. Listeners may fire late, after their session id was taken over by a new
    connection; identity of the dial or of the session object decides whether they
    may still touch the maps. */
module Gateway {
  import opened Common

  predicate HexDigit(ch: char) {
    '0' <= ch <= '9' || 'a' <= ch <= 'f' || 'A' <= ch <= 'F'
  }

  /** The UUID pattern, which ignores case. */
  predicate IsUuid(s: string) {
    |s| == 36 &&
    (forall i :: 0 <= i < 36 ==> if i in {8, 13, 18, 23} then s[i] == '-' else HexDigit(s[i])) &&
    '1' <= s[14] <= '5' && s[19] in {'8', '9', 'a', 'b', 'A', 'B'}
  }

  predicate AllHex(s: string) {
    forall i :: 0 <= i < |s| ==> HexDigit(s[i])
  }

  /** The five groups of the pattern: 8, 4, 4, 4 and 12 hexadecimal digits, the third of
      which begins with the version 1 to 5 and the fourth with the variant. */
  predicate UuidGroups(a: string, b: string, c: string, d: string, e: string) {
    |a| == 8 && |b| == 4 && |c| == 4 && |d| == 4 && |e| == 12 &&
    AllHex(a) && AllHex(b) && AllHex(c) && AllHex(d) && AllHex(e) &&
    c[0] in "12345" && d[0] in "89abAB"
  }

  /** Exactly the strings of the pattern are accepted. */
  lemma IsUuidIsThePattern(s: string)
    ensures IsUuid(s) <==>
            exists a, b, c, d, e :: UuidGroups(a, b, c, d, e) && s == a + "-" + b + "-" + c + "-" + d + "-" + e
  {
    if IsUuid(s) {
      SplitUuid(s);
    }
    if a, b, c, d, e :| UuidGroups(a, b, c, d, e) && s == a + "-" + b + "-" + c + "-" + d + "-" + e {
      JoinUuid(a, b, c, d, e);
    }
  }

  lemma SplitUuid(s: string)
    requires IsUuid(s)
    ensures UuidGroups(s[..8], s[9..13], s[14..18], s[19..23], s[24..])
    ensures s == s[..8] + "-" + s[9..13] + "-" + s[14..18] + "-" + s[19..23] + "-" + s[24..]
  {
    assert s[14] in "12345" && s[19] in "89abAB";
    assert s[8] == '-' && s[13] == '-' && s[18] == '-' && s[23] == '-';
  }

  lemma JoinUuid(a: string, b: string, c: string, d: string, e: string)
    requires UuidGroups(a, b, c, d, e)
    ensures IsUuid(a + "-" + b + "-" + c + "-" + d + "-" + e)
  {
    var s := a + "-" + b + "-" + c + "-" + d + "-" + e;
    assert s[..8] == a && s[9..13] == b && s[14..18] == c && s[19..23] == d && s[24..] == e;
    forall i | 0 <= i < 36
      ensures if i in {8, 13, 18, 23} then s[i] == '-' else HexDigit(s[i])
    {
    }
  }

  const GOING_AWAY := 1001
  const INTERNAL_ERROR := 1011

  /** The close codes that may be sent; the WebSocket library throws on any other. */
  predicate IsLegalCloseCode(code: int) {
    (1000 <= code <= 1014 && code !in {1004, 1005, 1006}) || 3000 <= code <= 4999
  }

  /** The codes that a peer may receive, one by one; the codes 1004, 1005, 1006 and 1015
      stand for conditions that are never sent. */
  lemma LegalCloseCodes(code: int)
    ensures IsLegalCloseCode(code) <==>
            code in {1000, 1001, 1002, 1003, 1007, 1008, 1009, 1010, 1011, 1012, 1013, 1014} || 3000 <= code < 5000
  {
  }

  /** One side of an accepted session, and the close code it was sent. */
  datatype Socket = Socket(open: bool, sent: Option<int>)

  /** The pair of sockets of an accepted session; compared by identity. */
  class SessionSockets {
    const sessionId: string
    var client: Socket
    var upstream: Socket

    constructor (sessionId: string)
      ensures this.sessionId == sessionId && client == Socket(true, None) && upstream == Socket(true, None)
    {
      this.sessionId := sessionId;
      client, upstream := Socket(true, None), Socket(true, None);
    }

    /** closeSocket on the client's side: a socket that is not open is left alone. */
    method CloseClient(code: int)
      requires IsLegalCloseCode(code)
      modifies this`client
      ensures client == if old(client.open) then Socket(false, Some(code)) else old(client)
    {
      if client.open {
        client := Socket(false, Some(code));
      }
    }

    method CloseUpstream(code: int)
      requires IsLegalCloseCode(code)
      modifies this`upstream
      ensures upstream == if old(upstream.open) then Socket(false, Some(code)) else old(upstream)
    {
      if upstream.open {
        upstream := Socket(false, Some(code));
      }
    }
  }

  /** One upgrade attempt and the browser connection it dials. The first flags say which
      of its one-time listeners are still attached; `terminated` that the browser
      connection was cut, and `answer` with which status the client was turned away. */
  class Dial {
    const sessionId: string
    var openArmed: bool
    var abortArmed: bool
    var socketDestroyed: bool
    var terminated: bool
    var answer: Option<int>
    var accepted: SessionSockets?

    constructor (sessionId: string)
      ensures this.sessionId == sessionId && openArmed && abortArmed && !socketDestroyed && accepted == null
      ensures !terminated && answer == None
    {
      this.sessionId := sessionId;
      openArmed, abortArmed, socketDestroyed, accepted := true, true, false, null;
      terminated, answer := false, None;
    }
  }

  datatype UpgradeReply = Rejected(status: int) | Dialing(dial: Dial)

  /** What the WebSocket library does with the client's upgrade request. */
  datatype ClientUpgrade = Accepted | Refused | Threw

  class SessionGateway {
    var sessions: map<string, SessionSockets>
    var pendingIds: set<string>
    var pending: map<string, Dial>
    var shuttingDown: bool

    /** Every dial ever started, every session object ever accepted, and the session
        objects whose sessionClose event was emitted, in order. */
    ghost var dials: set<Dial>
    ghost var accepted: set<SessionSockets>
    ghost var announced: seq<SessionSockets>

    ghost predicate Valid()
      reads this, dials
    {
      MapsOk() && NoneForgotten()
    }

    ghost predicate MapsOk()
      reads this, dials
    {
      Consistent() && (shuttingDown ==> pending == map[] && sessions == map[])
    }

    /** No browser connection is forgotten: each is awaited, belongs to a session that was
        accepted, or was cut. */
    ghost predicate NoneForgotten()
      reads this, dials
    {
      forall d :: d in dials ==> Awaited(d) || d.accepted != null || d.terminated
    }

    /** What also holds halfway through a shutdown. */
    ghost predicate Consistent()
      reads this, dials
    {
      PendingOk() && SessionsOk() && pending.Keys !! sessions.Keys
    }

    /** The two pending collections agree, and only the pending dial of an id may still
        accept a client for it. */
    ghost predicate PendingOk()
      reads this, dials
    {
      pending.Keys == pendingIds &&
      (forall id :: id in pending ==> pending[id] in dials && pending[id].sessionId == id) &&
      (forall d :: d in dials && d.openArmed && !shuttingDown ==> Awaited(d))
    }

    /** An accepted session is in the map until its one sessionClose event. */
    ghost predicate SessionsOk()
      reads this
    {
      (forall id :: id in sessions ==> sessions[id] in accepted && sessions[id].sessionId == id) &&
      (forall s :: s in accepted ==> (Current(s) <==> s !in announced)) &&
      (forall i :: 0 <= i < |announced| ==> announced[i] in accepted) &&
      (forall i, j :: 0 <= i < j < |announced| ==> announced[i] != announced[j])
    }

    /** Both sides of the session are closed now; each that was open got this code. */
    twostate predicate ClosedWith(s: SessionSockets, code: int)
      reads s
    {
      s.client == (if old(s.client.open) then Socket(false, Some(code)) else old(s.client)) &&
      s.upstream == (if old(s.upstream.open) then Socket(false, Some(code)) else old(s.upstream))
    }

    /** The dial is the pending one of its session. */
    predicate Awaited(d: Dial)
      reads this
    {
      d.sessionId in pending && pending[d.sessionId] == d
    }

    /** The session is the accepted one of its id. */
    predicate Current(s: SessionSockets)
      reads this
    {
      s.sessionId in sessions && sessions[s.sessionId] == s
    }

    constructor ()
      ensures Valid() && sessions == map[] && pending == map[] && !shuttingDown
      ensures dials == {} && accepted == {} && announced == []
    {
      sessions, pendingIds, pending, shuttingDown := map[], {}, map[], false;
      dials, accepted, announced := {}, {}, [];
    }

    // ---------------------------------------------------- removing a session

    /** removeSession: only this very session object is removed, and its removal is
        announced once. */
    method RemoveSession(expected: SessionSockets)
      requires Consistent()
      modifies this`sessions, this`announced
      ensures Consistent() && (old(Valid()) ==> Valid()) && !Current(expected)
      ensures if old(Current(expected))
              then sessions == old(sessions) - {expected.sessionId} && announced == old(announced) + [expected]
              else sessions == old(sessions) && announced == old(announced)
    {
      if !Current(expected) {
        return;
      }
      sessions := sessions - {expected.sessionId};
      announced := announced + [expected];
    }

    /** closeSession with an expected session object: if it is the current one, both
        sides that are still open get the code, and it leaves the map. */
    method CloseCurrent(expected: SessionSockets, code: int)
      requires Consistent() && IsLegalCloseCode(code)
      modifies this`sessions, this`announced, expected`client, expected`upstream
      ensures Consistent() && (old(Valid()) ==> Valid()) && !Current(expected)
      ensures if old(Current(expected))
              then sessions == old(sessions) - {expected.sessionId} && announced == old(announced) + [expected]
              else sessions == old(sessions) && announced == old(announced)
      ensures if old(Current(expected)) then ClosedWith(expected, code) else unchanged(expected)
    {
      if !Current(expected) {
        return;
      }
      expected.CloseClient(code);
      expected.CloseUpstream(code);
      RemoveSession(expected);
    }

    /** closeSession by id alone, as the control plane and shutdown call it. */
    method CloseSession(id: string)
      requires Consistent()
      modifies this`sessions, this`announced
      modifies if id in sessions then {sessions[id]} else {}
      ensures Consistent() && (old(Valid()) ==> Valid())
      ensures sessions == old(sessions) - {id}
      ensures announced == old(announced) + if id in old(sessions) then [old(sessions)[id]] else []
      ensures id in old(sessions) ==> ClosedWith(old(sessions)[id], 1001)
    {
      if id in sessions {
        CloseCurrent(sessions[id], GOING_AWAY);
      }
    }

    /** What the worker does with the stale ids of a heartbeat reply: exactly those
        sessions are told to go away, removed and announced; the others keep their
        connections. */
    method CloseStale(ids: seq<string>)
      requires Valid()
      modifies this`sessions, this`announced, sessions.Values
      ensures Valid() && old(announced) <= announced
      ensures forall id :: id in sessions <==> id in old(sessions) && id !in ids
      ensures forall id :: id in sessions ==> sessions[id] == old(sessions)[id] && unchanged(sessions[id])
      ensures forall id :: id in old(sessions) && id in ids ==>
                ClosedWith(old(sessions)[id], 1001) && old(sessions)[id] in announced
    {
      ghost var was, log := sessions, announced;
      for i := 0 to |ids|
        invariant Valid() && Among(was) && log <= announced
        invariant forall id :: id in was ==> was[id] in accepted
        invariant forall id :: id in sessions <==> id in was && id !in ids[..i]
        invariant forall id :: id in sessions ==> unchanged(sessions[id])
        invariant forall id :: id in was && id in ids[..i] ==> ClosedWith(was[id], 1001) && was[id] in announced
      {
        label before:
        CloseSession(ids[i]);
        assert ids[..i + 1] == ids[..i] + [ids[i]];
        forall id | id in sessions
          ensures unchanged(sessions[id])
        {
          assert unchanged@before(sessions[id]);
        }
        forall id | id in was && id in ids[..i + 1]
          ensures ClosedWith(was[id], 1001) && was[id] in announced
        {
          assert was[id] in accepted;
          assert id in ids[..i] ==> was[id] in old@before(announced);
        }
      }
      assert ids[..|ids|] == ids;
    }

    /** The sessions are among those of an earlier moment. */
    ghost predicate Among(was: map<string, SessionSockets>)
      reads this
    {
      forall id :: id in sessions ==> id in was && sessions[id] == was[id]
    }

    /** An error of either socket or a failed write of one session: only that session
        object leaves the map, and both its sides are told. */
    method SessionFails(session: SessionSockets)
      requires Valid()
      modifies this`sessions, this`announced, session`client, session`upstream
      ensures Valid() && !Current(session)
      ensures if old(Current(session))
              then sessions == old(sessions) - {session.sessionId} && announced == old(announced) + [session]
              else sessions == old(sessions) && announced == old(announced)
      ensures if old(Current(session)) then ClosedWith(session, 1011) else unchanged(session)
    {
      CloseCurrent(session, INTERNAL_ERROR);
    }

    /** One side closed with this code: the other side gets the same code where it may
        be sent, and an internal error otherwise. */
    method ClosePeer(session: SessionSockets, clientClosed: bool, code: int)
      requires Valid()
      modifies this`sessions, this`announced, session`client, session`upstream
      ensures Valid() && !Current(session)
      ensures if old(Current(session))
              then sessions == old(sessions) - {session.sessionId} && announced == old(announced) + [session]
              else sessions == old(sessions) && announced == old(announced) && unchanged(session)
      ensures old(Current(session)) && IsLegalCloseCode(code) && clientClosed ==>
        session.client == old(session.client) &&
        session.upstream == if old(session.upstream.open) then Socket(false, Some(code)) else old(session.upstream)
      ensures old(Current(session)) && IsLegalCloseCode(code) && !clientClosed ==>
        session.upstream == old(session.upstream) &&
        session.client == if old(session.client.open) then Socket(false, Some(code)) else old(session.client)
      ensures old(Current(session)) && !IsLegalCloseCode(code) && clientClosed ==>
        session.client == old(session.client) &&
        session.upstream == if old(session.upstream.open) then Socket(false, Some(1011)) else old(session.upstream)
      ensures old(Current(session)) && !IsLegalCloseCode(code) && !clientClosed ==>
        session.upstream == old(session.upstream) &&
        session.client == if old(session.client.open) then Socket(false, Some(1011)) else old(session.client)
    {
      if !Current(session) {
        return;
      }
      var outgoing := if IsLegalCloseCode(code) then code else INTERNAL_ERROR;
      if clientClosed {
        session.CloseUpstream(outgoing);
      } else {
        session.CloseClient(outgoing);
      }
      RemoveSession(session);
    }

    // ------------------------------------------------------ pending upgrades

    /** An upgrade is dialed only for an id that is neither pending nor accepted, so no
        entry is ever overwritten. */
    method HandleUpgrade(header: Option<string>, constructorThrows: bool) returns (reply: UpgradeReply)
      requires Valid()
      modifies this`pending, this`pendingIds, this`dials
      ensures Valid()
      ensures header.None? || !IsUuid(header.value) ==> reply == Rejected(400)
      ensures header.Some? && IsUuid(header.value) && shuttingDown ==> reply == Rejected(503)
      ensures header.Some? && IsUuid(header.value) && !shuttingDown ==>
        if header.value in old(pending) || header.value in sessions then reply == Rejected(409)
        else if constructorThrows then reply == Rejected(502)
        else reply.Dialing?
      ensures reply.Rejected? ==> pending == old(pending) && dials == old(dials)
      ensures reply.Dialing? ==>
        fresh(reply.dial) && reply.dial.sessionId == header.value && reply.dial.openArmed && reply.dial.abortArmed &&
        pending == old(pending)[header.value := reply.dial] && dials == old(dials) + {reply.dial}
    {
      if header.None? || !IsUuid(header.value) {
        return Rejected(400);
      }
      if shuttingDown {
        return Rejected(503);
      }
      var id := header.value;
      if id in pendingIds || id in sessions {
        return Rejected(409);
      }
      pendingIds := pendingIds + {id};
      if constructorThrows {
        pendingIds := pendingIds - {id};
        return Rejected(502);
      }
      var dial := new Dial(id);
      dials := dials + {dial};
      pending := pending[id := dial];
      return Dialing(dial);
    }

    /** clearPending: a dial clears only its own entry, and detaches its listeners. */
    method ClearPending(dial: Dial) returns (cleared: bool)
      requires PendingOk() && dial in dials
      modifies this`pending, this`pendingIds, dial`openArmed, dial`abortArmed
      ensures PendingOk() && (old(MapsOk()) ==> MapsOk())
      ensures cleared == old(Awaited(dial))
      ensures pending == if cleared then old(pending) - {dial.sessionId} else old(pending)
      ensures cleared ==> !dial.openArmed && !dial.abortArmed
      ensures !cleared ==> dial.openArmed == old(dial.openArmed) && dial.abortArmed == old(dial.abortArmed)
    {
      if !Awaited(dial) {
        return false;
      }
      pendingIds := pendingIds - {dial.sessionId};
      pending := pending - {dial.sessionId};
      dial.abortArmed := false;
      dial.openArmed := false;
      return true;
    }

    /** abortDial: the client is gone, so the browser connection is cut. */
    method AbortDial(dial: Dial)
      requires Valid() && dial in dials
      modifies this`pending, this`pendingIds, dial`openArmed, dial`abortArmed, dial`terminated
      ensures Valid() && !Awaited(dial)
      ensures pending == if old(Awaited(dial)) then old(pending) - {dial.sessionId} else old(pending)
      ensures dial.terminated == (old(dial.terminated) || old(Awaited(dial)))
      ensures old(Awaited(dial)) ==> !dial.openArmed && !dial.abortArmed
      ensures !old(Awaited(dial)) ==> dial.openArmed == old(dial.openArmed) && dial.abortArmed == old(dial.abortArmed)
    {
      var cleared := ClearPending(dial);
      if cleared {
        dial.terminated := true;
      }
    }

    /** rejectClient: the browser connection is cut, and the client, if it is still there,
        gets the status. */
    method RejectClient(dial: Dial, status: int)
      requires Valid() && dial in dials
      modifies this`pending, this`pendingIds, dial`openArmed, dial`abortArmed, dial`terminated, dial`answer
      ensures Valid() && !Awaited(dial)
      ensures pending == if old(Awaited(dial)) then old(pending) - {dial.sessionId} else old(pending)
      ensures dial.terminated == (old(dial.terminated) || old(Awaited(dial)))
      ensures dial.answer == if old(Awaited(dial)) && !dial.socketDestroyed then Some(status) else old(dial.answer)
      ensures old(Awaited(dial)) ==> !dial.openArmed && !dial.abortArmed
      ensures !old(Awaited(dial)) ==> dial.openArmed == old(dial.openArmed) && dial.abortArmed == old(dial.abortArmed)
    {
      var cleared := ClearPending(dial);
      if !cleared {
        return;
      }
      dial.terminated := true;
      if !dial.socketDestroyed {
        dial.answer := Some(status);
      }
    }

    /** The upgrade callback: in one handler the session joins the map and its dial
        stops being pending. */
    method AcceptClient(dial: Dial)
      requires Valid() && dial in dials && Awaited(dial) && !shuttingDown
      modifies this`sessions, this`accepted, this`pending, this`pendingIds
      modifies dial`openArmed, dial`abortArmed, dial`accepted
      ensures Valid() && !dial.openArmed && !dial.abortArmed
      ensures dial.accepted != null && fresh(dial.accepted) && accepted == old(accepted) + {dial.accepted}
      ensures dial.sessionId !in old(sessions) && sessions == old(sessions)[dial.sessionId := dial.accepted]
      ensures pending == old(pending) - {dial.sessionId}
    {
      var session := new SessionSockets(dial.sessionId);
      dial.accepted := session;
      sessions := sessions[dial.sessionId := session];
      accepted := accepted + {session};
      var _ := ClearPending(dial);
    }

    /** The browser connection opens: the only way into the sessions map. A listener
        that was detached does nothing; a shutdown, a client that is gone, or an upgrade
        that throws ends the attempt; one that the library refuses stays pending until
        the client's socket closes. */
    method UpstreamOpens(dial: Dial, upgrade: ClientUpgrade)
      requires Valid() && dial in dials
      modifies this`sessions, this`accepted, this`pending, this`pendingIds, dial
      ensures Valid() && !dial.openArmed
      ensures var admits := old(dial.openArmed) && !shuttingDown && !old(dial.socketDestroyed) && upgrade == Accepted;
              if admits
              then dial.sessionId !in old(sessions) && dial.accepted != null && fresh(dial.accepted) &&
                   sessions == old(sessions)[dial.sessionId := dial.accepted] &&
                   accepted == old(accepted) + {dial.accepted}
              else sessions == old(sessions) && accepted == old(accepted)
      ensures !old(dial.openArmed) ==> pending == old(pending) && dial.answer == old(dial.answer)
      ensures old(dial.openArmed) && !shuttingDown ==>
        pending == if upgrade == Refused && !old(dial.socketDestroyed)
                   then old(pending) else old(pending) - {dial.sessionId}
      ensures old(dial.openArmed) && !shuttingDown && !old(dial.socketDestroyed) ==>
        dial.answer == if upgrade == Threw then Some(400) else old(dial.answer)
      ensures old(dial.openArmed) && !shuttingDown && (old(dial.socketDestroyed) || upgrade == Threw) ==>
        dial.terminated
    {
      if !dial.openArmed {
        return;
      }
      if !shuttingDown && !dial.socketDestroyed && upgrade == Accepted {
        AcceptClient(dial);
        return;
      }
      dial.openArmed := false;
      if shuttingDown {
        RejectClient(dial, 503);
      } else if dial.socketDestroyed {
        AbortDial(dial);
      } else if upgrade == Threw {
        RejectClient(dial, 400);
      }
    }

    /** The browser connection fails: before acceptance the upgrade is rejected, and
        afterwards the session that this dial produced, if it is still there, ends. */
    method UpstreamFails(dial: Dial)
      requires Valid() && dial in dials
      modifies this`sessions, this`announced, this`pending, this`pendingIds
      modifies dial`openArmed, dial`abortArmed, dial`terminated, dial`answer
      modifies if dial.accepted == null then {} else {dial.accepted}
      ensures Valid() && !Awaited(dial)
      ensures pending == if old(Awaited(dial)) then old(pending) - {dial.sessionId} else old(pending)
      ensures old(Awaited(dial)) ==> dial.terminated
      ensures old(Awaited(dial)) && !dial.socketDestroyed ==> dial.answer == Some(502)
      ensures if !old(Awaited(dial)) && dial.accepted != null && old(Current(dial.accepted))
              then sessions == old(sessions) - {dial.accepted.sessionId} &&
                   announced == old(announced) + [dial.accepted] && ClosedWith(dial.accepted, 1011)
              else sessions == old(sessions) && announced == old(announced)
    {
      if Awaited(dial) {
        RejectClient(dial, 502);
      } else if dial.accepted != null {
        CloseCurrent(dial.accepted, INTERNAL_ERROR);
      }
    }

    /** The client's socket closes; its listener is attached while the dial is pending. */
    method ClientSocketCloses(dial: Dial)
      requires Valid() && dial in dials
      modifies this`pending, this`pendingIds, dial`openArmed, dial`abortArmed, dial`socketDestroyed, dial`terminated
      ensures Valid() && dial.socketDestroyed
      ensures var gone := old(dial.abortArmed) && old(Awaited(dial));
              pending == (if gone then old(pending) - {dial.sessionId} else old(pending)) &&
              dial.terminated == (old(dial.terminated) || gone)
    {
      dial.socketDestroyed := true;
      if dial.abortArmed {
        dial.abortArmed := false;
        AbortDial(dial);
      }
    }

    // --------------------------------------------------------------- shutdown

    /** runShutdown up to its first wait: every session is told to go away and announced,
        every pending dial is cut and its client turned away, and from here on both maps
        stay empty, because every handler keeps Valid. */
    method Shutdown()
      requires Valid()
      modifies this`sessions, this`announced, this`pending, this`pendingIds, this`shuttingDown, sessions.Values
      modifies pending.Values`terminated, pending.Values`answer
      ensures Valid() && shuttingDown && sessions == map[] && pending == map[] && pendingIds == {}
      ensures forall s :: s in accepted ==> s in announced
      ensures forall id :: id in old(sessions) ==> ClosedWith(old(sessions)[id], 1001)
      ensures forall id :: id in old(pending) ==> Dropped(old(pending)[id])
    {
      shuttingDown := true;
      CloseAll();
      AllAnnounced();
      DropPending();
    }

    /** Shutdown has begun, and all sessions are closed. */
    ghost predicate HalfDown()
      reads this, dials
    {
      Consistent() && NoneForgotten() && shuttingDown && sessions == map[]
    }

    /** The dial was cut, and its client turned away if it was still there. */
    predicate Dropped(d: Dial)
      reads d
    {
      d.terminated && (!d.socketDestroyed ==> d.answer == Some(503))
    }

    method DropPending()
      requires HalfDown()
      modifies this`pending, this`pendingIds, pending.Values`terminated, pending.Values`answer
      ensures Valid() && pending == map[] && pendingIds == {}
      ensures forall id :: id in old(pending) ==> Dropped(old(pending)[id])
    {
      ghost var was := pending;
      while pendingIds != {}
        invariant HalfDown()
        invariant forall id :: id in pending ==> id in was && pending[id] == was[id]
        invariant forall id :: id in was ==> was[id] in dials && was[id].sessionId == id
        invariant forall id :: id in was && id !in pending ==> Dropped(was[id])
        decreases pendingIds
      {
        var id :| id in pendingIds;
        DropOne(pending[id]);
      }
      assert pending == map[];
    }

    method DropOne(dial: Dial)
      requires HalfDown() && Awaited(dial)
      modifies this`pending, this`pendingIds, dial`terminated, dial`answer
      ensures HalfDown() && Dropped(dial)
      ensures pending == old(pending) - {dial.sessionId} && pendingIds == old(pendingIds) - {dial.sessionId}
    {
      pending := pending - {dial.sessionId};
      pendingIds := pendingIds - {dial.sessionId};
      dial.terminated := true;
      if !dial.socketDestroyed {
        dial.answer := Some(503);
      }
    }

    method CloseAll()
      requires Consistent()
      modifies this`sessions, this`announced, sessions.Values
      ensures Consistent() && sessions == map[]
      ensures forall id :: id in old(sessions) ==> ClosedWith(old(sessions)[id], 1001)
    {
      ghost var was := sessions;
      while sessions != map[]
        invariant Consistent() && Among(was)
        invariant forall id :: id in was ==> was[id] in accepted
        invariant forall id :: id in sessions ==> unchanged(sessions[id])
        invariant forall id :: id in was && id !in sessions ==> ClosedWith(was[id], 1001)
        decreases sessions.Keys
      {
        var next :| next in sessions;
        label before:
        CloseSession(next);
        forall id | id in sessions
          ensures unchanged(sessions[id])
        {
          assert unchanged@before(sessions[id]);
        }
        forall id | id in was && id !in sessions
          ensures ClosedWith(was[id], 1001)
        {
          assert was[id] in accepted;
          assert id != next ==> unchanged@before(was[id]);
        }
      }
    }

    lemma AllAnnounced()
      requires SessionsOk() && sessions == map[]
      ensures forall s :: s in accepted ==> s in announced
    {
      forall s | s in accepted
        ensures s in announced
      {
        assert !Current(s);
      }
    }

    // ------------------------------------------------------------------ counts

    /** Accepted sessions are the active ones plus the announced ones, by number. */
    lemma AcceptedAreActiveOrAnnounced()
      requires Valid()
      ensures |accepted| == |sessions| + |announced|
    {
      var closed := set s | s in announced;
      DistinctCount(announced);
      InjectiveCount(sessions);
      assert accepted == sessions.Values + closed by {
        forall s | s in accepted && s !in closed
          ensures s in sessions.Values
        {
          assert Current(s);
        }
      }
      assert sessions.Values !! closed by {
        forall id | id in sessions
          ensures sessions[id] !in closed
        {
          assert Current(sessions[id]);
        }
      }
    }

    static lemma {:induction false} DistinctCount(log: seq<SessionSockets>)
      requires forall i, j :: 0 <= i < j < |log| ==> log[i] != log[j]
      ensures |(set s | s in log)| == |log|
    {
      if log != [] {
        DistinctCount(log[1..]);
        assert (set s | s in log) == (set s | s in log[1..]) + {log[0]};
      }
    }

    static lemma {:induction false} InjectiveCount(m: map<string, SessionSockets>)
      requires forall id :: id in m ==> m[id].sessionId == id
      ensures |m.Values| == |m|
      decreases |m|
    {
      if m != map[] {
        var id :| id in m;
        var rest := m - {id};
        InjectiveCount(rest);
        forall v | v in m.Values
          ensures v in rest.Values + {m[id]}
        {
          var j :| j in m && m[j] == v;
          assert j == id || (j in rest && rest[j] == v);
        }
        assert m.Values == rest.Values + {m[id]};
        assert m.Keys == rest.Keys + {id};
      } else {
        assert m.Values == {};
      }
    }
  }
}
