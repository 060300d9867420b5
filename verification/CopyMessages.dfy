/** The relay's copy loop. Messages arrive in chunks of any size; any call on either
    connection may fail at any point. */
module CopyMessages {
  import opened Common

  type Byte = x: int | 0 <= x < 256
  datatype Kind = Text | Binary
  datatype Message = Message(kind: Kind, payload: seq<Byte>)

  /** One message as the source delivers it: chunk by chunk, and whether its end comes. */
  datatype Incoming = Incoming(kind: Kind, chunks: seq<seq<Byte>>, finished: bool)

  function Joined(chunks: seq<seq<Byte>>): seq<Byte> {
    if chunks == [] then [] else chunks[0] + Joined(chunks[1..])
  }

  lemma {:induction false} JoinedGrows(chunks: seq<seq<Byte>>, k: nat)
    requires k < |chunks|
    ensures Joined(chunks[..k + 1]) == Joined(chunks[..k]) + chunks[k]
  {
    if k == 0 {
      assert chunks[..1][1..] == [] && chunks[..0] == [];
    } else {
      JoinedGrows(chunks[1..], k - 1);
      assert chunks[1..][..k] == chunks[..k + 1][1..];
      assert chunks[1..][..k - 1] == chunks[..k][1..];
    }
  }

  /** The messages completed at the source: all before the first unfinished one. */
  function Completed(source: seq<Incoming>): seq<Message> {
    if source == [] || !source[0].finished then []
    else [Message(source[0].kind, Joined(source[0].chunks))] + Completed(source[1..])
  }

  lemma {:induction false} CompletedGrows(source: seq<Incoming>, k: nat)
    requires k < |source| && forall i :: 0 <= i <= k ==> source[i].finished
    ensures Completed(source[..k + 1]) == Completed(source[..k]) + [Message(source[k].kind, Joined(source[k].chunks))]
    ensures Completed(source[..k + 1]) <= Completed(source)
  {
    if k == 0 {
      assert source[..1][1..] == [] && source[..0] == [];
    } else {
      CompletedGrows(source[1..], k - 1);
      assert source[1..][..k] == source[..k + 1][1..];
      assert source[1..][..k - 1] == source[..k][1..];
    }
  }

  /** At an unfinished message, or at the end, nothing more will be completed. */
  lemma {:induction false} CompletedStops(source: seq<Incoming>, k: nat)
    requires k <= |source| && forall i :: 0 <= i < k ==> source[i].finished
    requires k < |source| ==> !source[k].finished
    ensures Completed(source) == Completed(source[..k])
  {
    if k > 0 {
      CompletedStops(source[1..], k - 1);
      assert source[1..][..k - 1] == source[..k][1..];
    }
  }

  /** The destination's sending side. Opening a new message while one is open closes
      the old one first, as the library does: a caller that gave up on a message must
      never open another. */
  class Destination {
    var completed: seq<Message>
    var open: seq<Message>

    ghost predicate Valid()
      reads this
    {
      |open| <= 1
    }

    constructor ()
      ensures Valid() && completed == [] && open == []
    {
      completed, open := [], [];
    }

    method NextWriter(kind: Kind, fails: bool)
      requires Valid()
      modifies this
      ensures Valid() && completed == old(completed + open)
      ensures !fails ==> open == [Message(kind, [])]
    {
      completed := completed + open;
      open := if fails then [] else [Message(kind, [])];
    }

    /** A failing write may still have sent a part of the chunk. */
    method Write(chunk: seq<Byte>, fails: bool, sent: nat)
      requires Valid() && open != []
      modifies this
      ensures Valid() && completed == old(completed) && open != []
      ensures exists part :: part <= chunk && (!fails ==> part == chunk) &&
                open == [Message(old(open)[0].kind, old(open)[0].payload + part)]
    {
      var part := if !fails then chunk else if sent < |chunk| then chunk[..sent] else chunk;
      open := [open[0].(payload := open[0].payload + part)];
    }

    /** A failing close may still have sent the final frame. */
    method Close(fails: bool, sent: bool)
      requires Valid() && open != []
      modifies this
      ensures Valid() && open == []
      ensures completed == old(completed) + if !fails || sent then old(open) else []
    {
      completed := completed + if !fails || sent then open else [];
      open := [];
    }
  }

  /** Which of the calls, numbered in the order in which they happen, fail; and how
      much a failing call got through. */
  datatype Faults = Faults(fails: nat -> bool, sent: nat -> nat)

  predicate NoneFails(faults: Faults, calls: nat) {
    forall k :: 0 <= k < calls ==> !faults.fails(k)
  }

  /** The first call that fails. */
  predicate FailsFirst(faults: Faults, call: nat) {
    faults.fails(call) && NoneFails(faults, call)
  }

  /** copyMessages. Whatever fails and however the source is cut into chunks, what the
      destination completes is a prefix, in order, type and content, of what the source
      completed; without a fault it is all of it; and the first call that fails is the
      one that ends the loop. The result is None if the source has no more. */
  method Copy(source: seq<Incoming>, dst: Destination, faults: Faults) returns (failed: Option<nat>)
    requires dst.Valid() && dst.open == [] && dst.completed == []
    modifies dst
    ensures dst.completed <= Completed(source)
    ensures failed.Some? ==> FailsFirst(faults, failed.value)
    ensures failed.None? ==> dst.completed == Completed(source)
    ensures (forall n :: !faults.fails(n)) ==> failed == None
  {
    var calls: nat := 0;
    var i := 0;
    while i < |source|
      invariant i <= |source| && dst.Valid() && dst.open == [] && NoneFails(faults, calls)
      invariant forall k :: 0 <= k < i ==> source[k].finished
      invariant dst.completed == Completed(source[..i]) && dst.completed <= Completed(source)
    {
      var message := source[i];
      // SetReadDeadline, NextReader and SetWriteDeadline
      for k := 0 to 3
        invariant NoneFails(faults, calls + k)
      {
        if faults.fails(calls + k) {
          return Some(calls + k);
        }
      }
      dst.NextWriter(message.kind, faults.fails(calls + 3));
      if faults.fails(calls + 3) {
        return Some(calls + 3);
      }
      calls := calls + 4;
      var finished;
      failed, calls, finished := CopyChunks(message, dst, faults, calls, Completed(source[..i]));
      if failed.Some? {
        return;
      }
      if !finished {
        CompletedStops(source, i);
        return;
      }
      CompletedGrows(source, i);
      // SetWriteDeadline and Close both run; either error ends the loop
      var deadlineFails := faults.fails(calls);
      dst.Close(faults.fails(calls + 1), faults.sent(calls + 1) > 0);
      if deadlineFails {
        return Some(calls);
      }
      if faults.fails(calls + 1) {
        return Some(calls + 1);
      }
      calls := calls + 2;
      i := i + 1;
    }
    CompletedStops(source, i);
    assert source[..i] == source;
    return None;
  }

  /** The chunks of one message, as far as the source delivers them. */
  method CopyChunks(message: Incoming, dst: Destination, faults: Faults, start: nat, ghost before: seq<Message>)
    returns (failed: Option<nat>, calls: nat, finished: bool)
    requires dst.Valid() && dst.open == [Message(message.kind, [])] && dst.completed == before
    requires NoneFails(faults, start)
    modifies dst
    ensures dst.Valid() && dst.completed == before
    ensures failed.Some? ==> FailsFirst(faults, failed.value)
    ensures failed.None? ==> NoneFails(faults, calls) && finished == message.finished
    ensures failed.None? ==> dst.open == [Message(message.kind, Joined(message.chunks))]
  {
    calls := start;
    var j := 0;
    while j < |message.chunks|
      invariant j <= |message.chunks| && dst.Valid() && dst.completed == before && NoneFails(faults, calls)
      invariant dst.open == [Message(message.kind, Joined(message.chunks[..j]))]
    {
      // Read, then the writer's deadline and the write, then the reader's deadline
      if faults.fails(calls) {
        return Some(calls), calls, false;
      }
      if faults.fails(calls + 1) {
        return Some(calls + 1), calls, false;
      }
      dst.Write(message.chunks[j], faults.fails(calls + 2), faults.sent(calls + 2));
      if faults.fails(calls + 2) {
        return Some(calls + 2), calls, false;
      }
      if faults.fails(calls + 3) {
        return Some(calls + 3), calls, false;
      }
      JoinedGrows(message.chunks, j);
      j := j + 1;
      calls := calls + 4;
    }
    assert message.chunks[..j] == message.chunks;
    return None, calls, message.finished;
  }
}
