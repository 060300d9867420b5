/** The in-process waker: one-slot channels that coalesce wake-ups. */
module Wakers {
  /** A buffered channel of capacity one that carries empty values. */
  class Slot {
    var token: bool

    constructor ()
      ensures !token
    {
      token := false;
    }

    /** A send that gives up when the slot is full. */
    method Offer()
      modifies this
      ensures token
    {
      if !token {
        token := true;
      }
    }
  }

  /** What waiters can observe: which ids are subscribed, and who has a token. */
  type Tokens = map<nat, bool>

  function WakeAll(tokens: Tokens): Tokens {
    map id | id in tokens :: true
  }

  class Waker {
    var nextId: nat
    var waiters: map<nat, Slot>

    ghost predicate Valid()
      reads this
    {
      (forall id :: id in waiters ==> id < nextId) &&
      forall i, j :: i in waiters && j in waiters && i != j ==> waiters[i] != waiters[j]
    }

    ghost function Observed(): Tokens
      reads this, waiters.Values
    {
      map id | id in waiters :: waiters[id].token
    }

    constructor ()
      ensures Valid() && Observed() == map[]
    {
      nextId := 0;
      waiters := map[];
    }

    /** A new waiter starts without a token, under an id never used before. */
    method Subscribe() returns (waiter: Slot, id: nat)
      requires Valid()
      modifies this
      ensures Valid() && fresh(waiter)
      ensures id == old(nextId) && nextId == id + 1 && id !in old(waiters)
      ensures waiters == old(waiters)[id := waiter]
      ensures Observed() == old(Observed())[id := false]
    {
      id := nextId;
      nextId := nextId + 1;
      waiter := new Slot();
      waiters := waiters[id := waiter];
    }

    method Unsubscribe(id: nat)
      requires Valid()
      modifies this
      ensures Valid() && nextId == old(nextId)
      ensures waiters == old(waiters) - {id}
      ensures Observed() == old(Observed()) - {id}
    {
      waiters := waiters - {id};
    }

    /** Every subscribed waiter has a token afterwards; nobody else's slot changes. */
    method Wake()
      requires Valid()
      modifies waiters.Values
      ensures Valid()
      ensures Observed() == WakeAll(old(Observed()))
    {
      var todo := waiters.Keys;
      while todo != {}
        invariant todo <= waiters.Keys
        invariant forall id :: id in waiters && id !in todo ==> waiters[id].token
        decreases todo
      {
        var id :| id in todo;
        waiters[id].Offer();
        todo := todo - {id};
      }
    }
  }
}
