/**
  The connection object as the client keeps it: `pending`, `next`, `greeted`,
  `closed` and each call's `sent` are updated in place by events. A socket write
  appends to `writes`, a resolved promise is an entry of `resolved`.
*/
module ClientConnection {
  import opened Wrappers
  import opened ClientLink

  class Connection {
    var next: Id
    var greeted: bool
    var closed: bool
    var pending: map<Id, Pend>
    var resolved: map<Id, Outcome>
    var writes: seq<Wire>
    ghost var asked: map<Id, Request>

    ghost function Now(): Client
      reads this
    {
      Client(next, greeted, closed, pending, resolved, asked, writes)
    }

    ghost predicate Valid()
      reads this
    {
      LinkOk(Now())
    }

    constructor ()
      ensures Now() == CONNECTED && Valid()
    {
      next, greeted, closed, pending := 1, false, false, map[];
      resolved, asked, writes := map[], map[], [SecretFrame];
    }

    /** `send`: marks the call and writes its frame. */
    method Send(id: Id)
      requires id in pending
      modifies this`pending, this`writes
      ensures pending == old(pending)[id := old(pending)[id].(sent := true)]
      ensures writes == old(writes) + [CallFrame(id, old(pending)[id].request)]
    {
      pending := pending[id := pending[id].(sent := true)];
      writes := writes + [CallFrame(id, pending[id].request)];
    }

    /** `call`: its id, or None for a closed connection, whose caller is answered Failed at once. */
    method Call(request: Request) returns (id: Option<Id>)
      requires Valid()
      modifies this
      ensures Valid() && (id.None? <==> old(closed))
      ensures Now() == if old(closed) then old(Now()) else ClientLink.Call(old(Now()), request)
      ensures id.Some? ==> id.value == old(next)
    {
      if closed {
        return None;
      }
      CallKeeps(Now(), request);
      var n := next;
      next := next + 1;
      pending := pending[n := Pend(request, false)];
      asked := asked[n := request];
      if greeted {
        Send(n);
        assert pending == old(pending)[n := Pend(request, true)];
      }
      return Some(n);
    }

    /** `lost`: answers every pending call by whether it was sent, once. */
    method Lost()
      requires Valid()
      modifies this`closed, this`pending, this`resolved
      ensures Valid() && Now() == ClientLink.Lost(old(Now()))
    {
      if closed {
        return;
      }
      LostKeeps(Now());
      PendingBelow(Now());
      closed := true;
      ResolveLost();
      pending := map[];
    }

    method ResolveLost()
      requires forall n :: n in pending ==> n < next
      modifies this`resolved
      ensures resolved == old(resolved) + LostOutcomes(pending)
    {
      for id := 0 to next
        invariant forall n :: n in resolved <==> n in old(resolved) || (n in pending && n < id)
        invariant forall n :: n in resolved ==>
          resolved[n] == if n in pending && n < id then LostOutcomes(pending)[n] else old(resolved)[n]
      {
        if id in pending {
          resolved := resolved[id := if pending[id].sent then UnknownSent else FailedNotSent];
        }
      }
    }

    /** The frame handler. */
    method Receive(id: Id, answer: Answer)
      requires Valid()
      modifies this`closed, this`pending, this`resolved, this`greeted, this`writes
      ensures Valid() && Now() == ClientLink.Receive(old(Now()), id, answer)
    {
      ReceiveKeeps(Now(), id, answer);
      if id == 0 {
        if greeted || answer != Hello {
          Lost();
          return;
        }
        Greeted();
        return;
      }
      if id !in pending {
        return;
      }
      pending := pending - {id};
      resolved := resolved[id := if answer.Thrown? then UnknownThrown else Answered(answer)];
    }

    /** The greeting: every call kept back is sent, oldest first. */
    method Greeted()
      requires Valid() && !greeted
      modifies this`greeted, this`pending, this`writes
      ensures Now() == Greet(old(Now()))
    {
      greeted := true;
      var waiting := pending;
      PendingBelow(old(Now()));
      for id := 0 to next
        invariant greeted && pending.Keys == waiting.Keys
        invariant forall n :: n in waiting ==> pending[n] == if n < id then waiting[n].(sent := true) else waiting[n]
        invariant writes == old(writes) + Frames(waiting, 0, id)
      {
        FramesSnoc(waiting, 0, id);
        if id in pending {
          Send(id);
        }
      }
      assert pending == AllSent(waiting);
    }
  }

  lemma PendingBelow(c: Client)
    requires LinkOk(c)
    ensures forall n :: n in c.pending ==> n < c.next
  {
    forall n | n in c.pending ensures n < c.next {
      assert CallOk(c, n);
    }
  }

  lemma {:induction false} FramesSnoc(pending: map<Id, Pend>, lo: Id, hi: Id)
    requires lo <= hi
    ensures Frames(pending, lo, hi + 1) ==
      Frames(pending, lo, hi) + if hi in pending then [CallFrame(hi, pending[hi].request)] else []
    decreases hi - lo
  {
    if lo < hi {
      FramesSnoc(pending, lo + 1, hi);
    } else {
      assert Frames(pending, hi + 1, hi + 1) == [];
    }
  }
}
