/** Database, notification delivery and the wakers of all replicas as one system. */
module Wakeups {
  import opened Common
  import opened Tables
  import opened ControlPlane
  import opened Safety
  import opened Transitions
  import opened Wakers

  /** One server replica: how many committed notifications its listener has taken
      from the channel, and its waker. A disconnected listener misses the rest. */
  datatype Replica = Replica(connected: bool, delivered: nat, nextId: nat, tokens: Tokens)
  datatype System = System(db: Db, replicas: map<nat, Replica>)

  datatype Event =
    | DbEvent(action: Action)
    | Deliver(r: nat)
    | Subscribe(r: nat)
    | Unsubscribe(r: nat, id: nat)
    | Consume(r: nat, id: nat)
    | Disconnect(r: nat)
    | Connect(r: nat)

  function SetReplica(s: System, r: nat, to: Replica): Option<System> {
    Some(s.(replicas := s.replicas[r := to]))
  }

  ghost function WakeStep(c: Config, s: System, e: Event): Option<System> {
    if e.DbEvent? then
      var d := Step(c, s.db, e.action);
      if d.Some? then Some(s.(db := d.value)) else None
    else ReplicaStep(s, e)
  }

  function ReplicaStep(s: System, e: Event): Option<System>
    requires !e.DbEvent?
  {
    if e.r !in s.replicas then None
    else
      var me := s.replicas[e.r];
      match e
      case Deliver(r) =>
        if me.connected && me.delivered < s.db.notices
        then SetReplica(s, r, me.(delivered := me.delivered + 1, tokens := WakeAll(me.tokens))) else None
      case Subscribe(r) =>
        SetReplica(s, r, me.(nextId := me.nextId + 1, tokens := me.tokens[me.nextId := false]))
      case Unsubscribe(r, id) => SetReplica(s, r, me.(tokens := me.tokens - {id}))
      case Consume(r, id) =>
        if id in me.tokens && me.tokens[id] then SetReplica(s, r, me.(tokens := me.tokens[id := false])) else None
      case Disconnect(r) => SetReplica(s, r, me.(connected := false))
      case Connect(r) =>
        if me.connected then None else SetReplica(s, r, me.(connected := true, delivered := s.db.notices))
  }

  predicate ReplicaOk(s: System, r: nat)
    requires r in s.replicas
  {
    s.replicas[r].delivered <= s.db.notices && forall id :: id in s.replicas[r].tokens ==> id < s.replicas[r].nextId
  }

  ghost predicate SystemInv(c: Config, s: System) {
    Inv(c, s.db) && forall r :: r in s.replicas ==> ReplicaOk(s, r)
  }

  ghost predicate Starts(s: System) {
    Init(s.db) &&
    forall r :: r in s.replicas ==> s.replicas[r].delivered <= s.db.notices && s.replicas[r].tokens == map[]
  }

  /** `states[i + 1]` results from `events[i]` in `states[i]`. */
  ghost predicate WakeRun(c: Config, states: seq<System>, events: seq<Event>) {
    |states| == |events| + 1 && Starts(states[0]) && forall i :: 0 <= i < |events| ==> Linked(c, states, events, i)
  }

  ghost predicate Linked(c: Config, states: seq<System>, events: seq<Event>, i: nat)
    requires |states| == |events| + 1 && i < |events|
  {
    WakeStep(c, states[i], events[i]) == Some(states[i + 1])
  }

  lemma DbEventKeepsSystemInv(c: Config, s: System, a: Action, s': System)
    requires SystemInv(c, s) && WakeStep(c, s, DbEvent(a)) == Some(s')
    ensures SystemInv(c, s') && s'.replicas == s.replicas && Notified(s.db, s'.db)
  {
    StepKeepsInv(c, s.db, a, s'.db);
    StepMoves(c, s.db, a, s'.db);
    forall r | r in s'.replicas
      ensures ReplicaOk(s', r)
    {
      assert ReplicaOk(s, r);
    }
  }

  lemma ReplicaEventKeepsSystemInv(c: Config, s: System, e: Event, s': System)
    requires SystemInv(c, s) && !e.DbEvent? && ReplicaStep(s, e) == Some(s')
    ensures SystemInv(c, s') && s'.db == s.db
  {
    forall r | r in s'.replicas
      ensures ReplicaOk(s', r)
    {
      assert ReplicaOk(s, r);
    }
  }

  lemma {:induction false} WakeRunKeepsInv(c: Config, states: seq<System>, events: seq<Event>, i: nat)
    requires WakeRun(c, states, events) && i < |states|
    ensures SystemInv(c, states[i])
  {
    if i > 0 {
      WakeRunKeepsInv(c, states, events, i - 1);
      assert Linked(c, states, events, i - 1);
      if events[i - 1].DbEvent? {
        DbEventKeepsSystemInv(c, states[i - 1], events[i - 1].action, states[i]);
      } else {
        ReplicaEventKeepsSystemInv(c, states[i - 1], events[i - 1], states[i]);
      }
    }
  }

  /** The waiter is subscribed and its replica's listener connected. */
  predicate Waits(s: System, r: nat, id: nat) {
    r in s.replicas && s.replicas[r].connected && id in s.replicas[r].tokens
  }

  /** The wake-up owed for notification number `notice` is not lost: the waiter has
      a token, or that notification still has to be delivered to its replica. */
  predicate Owed(s: System, r: nat, id: nat, notice: nat)
    requires Waits(s, r, id)
  {
    s.replicas[r].tokens[id] || s.replicas[r].delivered < notice
  }

  lemma EventKeepsOwed(c: Config, s: System, e: Event, s': System, r: nat, id: nat, notice: nat)
    requires SystemInv(c, s) && WakeStep(c, s, e) == Some(s')
    requires Waits(s, r, id) && Waits(s', r, id) && Owed(s, r, id, notice) && e != Consume(r, id)
    ensures Owed(s', r, id, notice)
  {
    if e.DbEvent? {
      DbEventKeepsSystemInv(c, s, e.action, s');
    } else {
      assert ReplicaOk(s, r);
    }
  }

  lemma FreeingEventOwes(c: Config, s: System, e: Event, s': System, r: nat, id: nat)
    requires SystemInv(c, s) && WakeStep(c, s, e) == Some(s') && Frees(s.db, s'.db)
    requires Waits(s, r, id) && Waits(s', r, id)
    ensures Owed(s', r, id, s'.db.notices)
  {
    if e.DbEvent? {
      DbEventKeepsSystemInv(c, s, e.action, s');
      assert ReplicaOk(s, r);
    } else {
      ReplicaEventKeepsSystemInv(c, s, e, s');
    }
  }

  /** What one event means for one waiter. */
  ghost predicate Keeps(s: System, e: Event, s': System, r: nat, id: nat) {
    Waits(s, r, id) && Waits(s', r, id) ==>
      (Frees(s.db, s'.db) ==> Owed(s', r, id, s'.db.notices)) &&
      (e != Consume(r, id) ==> forall notice :: Owed(s, r, id, notice) ==> Owed(s', r, id, notice))
  }

  lemma RunKeeps(c: Config, states: seq<System>, events: seq<Event>, i: nat, r: nat, id: nat)
    requires WakeRun(c, states, events) && i < |events|
    ensures Keeps(states[i], events[i], states[i + 1], r, id)
  {
    WakeRunKeepsInv(c, states, events, i);
    assert Linked(c, states, events, i);
    EventKeeps(c, states[i], events[i], states[i + 1], r, id);
  }

  lemma EventKeeps(c: Config, s: System, e: Event, s': System, r: nat, id: nat)
    requires SystemInv(c, s) && WakeStep(c, s, e) == Some(s')
    ensures Keeps(s, e, s', r, id)
  {
    if Waits(s, r, id) && Waits(s', r, id) {
      if Frees(s.db, s'.db) {
        FreeingEventOwes(c, s, e, s', r, id);
      }
      forall notice | Owed(s, r, id, notice) && e != Consume(r, id)
        ensures Owed(s', r, id, notice)
      {
        EventKeepsOwed(c, s, e, s', r, id, notice);
      }
    }
  }

  /** From state k to state j the waiter is subscribed and connected, and after the
      event in state k it consumes no token. */
  ghost predicate StaysParked(states: seq<System>, events: seq<Event>, k: nat, j: nat, r: nat, id: nat)
    requires |states| == |events| + 1 && j < |states|
  {
    (forall m :: k <= m <= j ==> Waits(states[m], r, id)) && forall m :: k < m < j ==> events[m] != Consume(r, id)
  }

  lemma {:induction false} KeepsUpTo(states: seq<System>, events: seq<Event>, k: nat, j: nat, r: nat, id: nat)
    requires |states| == |events| + 1 && k < j < |states|
    requires forall i :: 0 <= i < |events| ==> Keeps(states[i], events[i], states[i + 1], r, id)
    requires Frees(states[k].db, states[k + 1].db)
    requires StaysParked(states, events, k, j, r, id)
    ensures Owed(states[j], r, id, states[k + 1].db.notices)
    decreases j
  {
    assert Keeps(states[j - 1], events[j - 1], states[j - 1 + 1], r, id);
    assert Waits(states[j - 1], r, id) && Waits(states[j], r, id);
    if k + 1 < j {
      KeepsUpTo(states, events, k, j - 1, r, id);
    }
  }

  /** Main result, no lost wake-up. Whenever a step frees a slot on any worker, every
      waiter that is subscribed then, stays subscribed and connected, and has not
      consumed a token since, has a token now, or the notification of that very
      commit is still in flight to its replica. Nothing restricts what else happens:
      other commits, other waiters, coalesced wakes. */
  lemma NoLostWakeup(c: Config, states: seq<System>, events: seq<Event>, k: nat, j: nat, r: nat, id: nat)
    requires WakeRun(c, states, events) && k < j < |states|
    requires Frees(states[k].db, states[k + 1].db)
    requires StaysParked(states, events, k, j, r, id)
    ensures Owed(states[j], r, id, states[k + 1].db.notices)
  {
    forall i | 0 <= i < |events|
      ensures Keeps(states[i], events[i], states[i + 1], r, id)
    {
      RunKeeps(c, states, events, i, r, id);
    }
    KeepsUpTo(states, events, k, j, r, id);
  }

  /** Consequence for a parked request: once its listener has caught up, it cannot
      stay parked past a slot that was freed after its round began. */
  lemma CaughtUpMeansWoken(c: Config, states: seq<System>, events: seq<Event>, k: nat, j: nat, r: nat, id: nat)
    requires WakeRun(c, states, events) && k < j < |states|
    requires Frees(states[k].db, states[k + 1].db)
    requires StaysParked(states, events, k, j, r, id)
    requires states[j].replicas[r].delivered >= states[k + 1].db.notices
    ensures states[j].replicas[r].tokens[id]
  {
    NoLostWakeup(c, states, events, k, j, r, id);
  }

  predicate HasToken(s: System, r: nat, id: nat) {
    r in s.replicas && id in s.replicas[r].tokens && s.replicas[r].tokens[id]
  }

  lemma TokensAppearByDelivery(c: Config, s: System, e: Event, s': System, r: nat, id: nat)
    requires SystemInv(c, s) && WakeStep(c, s, e) == Some(s') && HasToken(s', r, id)
    ensures e == Deliver(r) || (HasToken(s, r, id) && e != Consume(r, id))
  {
    if !e.DbEvent? && e.r == r && r in s.replicas {
      assert ReplicaOk(s, r);
    }
  }

  /** No spurious wake-up: a waiter has a token only if a notification was delivered to
      its replica after it subscribed and after it last consumed one. */
  lemma {:induction false} TokensComeFromNotifications(c: Config, states: seq<System>, events: seq<Event>, j: nat,
                                                       r: nat, id: nat) returns (k: nat)
    requires WakeRun(c, states, events) && j < |states| && HasToken(states[j], r, id)
    ensures k < j && events[k] == Deliver(r) && forall m :: k < m <= j ==> HasToken(states[m], r, id)
    ensures forall m :: k < m < j ==> events[m] != Consume(r, id)
    decreases j
  {
    assert j > 0;
    WakeRunKeepsInv(c, states, events, j - 1);
    assert Linked(c, states, events, j - 1);
    TokensAppearByDelivery(c, states[j - 1], events[j - 1], states[j], r, id);
    if events[j - 1] == Deliver(r) {
      k := j - 1;
    } else {
      k := TokensComeFromNotifications(c, states, events, j - 1, r, id);
    }
  }
}
