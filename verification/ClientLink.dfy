/**
  The worker client's connection: calls wait for the greeting, each is written
  once, and a lost connection answers every pending call by whether it was
  written. The invariant holds against any sequence of received frames.
*/
module ClientLink {

  type Id = nat

  /** A binding call as the client sends it; its content does not matter here. */
  datatype Request = Request(fn: string, op: string, payload: string)

  /** The `answer` field of a received frame. */
  datatype Answer = Hello | Value(text: string) | Refused(code: string) | Thrown(why: string) | Malformed

  datatype Wire = SecretFrame | CallFrame(id: Id, request: Request)

  datatype Pend = Pend(request: Request, sent: bool)

  /** How a call's promise is resolved. */
  datatype Outcome = Answered(answer: Answer) | UnknownThrown | FailedNotSent | UnknownSent

  /** `asked` remembers every request by id; `writes` is everything written to the socket. */
  datatype Client = Client(
    next: Id,
    greeted: bool,
    closed: bool,
    pending: map<Id, Pend>,
    resolved: map<Id, Outcome>,
    asked: map<Id, Request>,
    writes: seq<Wire>)

  const CONNECTED := Client(1, false, false, map[], map[], map[], [SecretFrame])

  /** The frames of the pending calls from `lo` up, oldest first. */
  function Frames(pending: map<Id, Pend>, lo: Id, hi: Id): seq<Wire>
    requires lo <= hi
    decreases hi - lo
  {
    if lo == hi then []
    else (if lo in pending then [CallFrame(lo, pending[lo].request)] else []) + Frames(pending, lo + 1, hi)
  }

  function AllSent(pending: map<Id, Pend>): map<Id, Pend> {
    map id | id in pending :: pending[id].(sent := true)
  }

  /** A call on an open connection: written at once after the greeting, kept back before it. */
  function Call(c: Client, r: Request): Client
    requires !c.closed
  {
    c.(next := c.next + 1,
       pending := c.pending[c.next := Pend(r, c.greeted)],
       asked := c.asked[c.next := r],
       writes := if c.greeted then c.writes + [CallFrame(c.next, r)] else c.writes)
  }

  function LostOutcomes(pending: map<Id, Pend>): map<Id, Outcome> {
    map id | id in pending :: if pending[id].sent then UnknownSent else FailedNotSent
  }

  function Lost(c: Client): Client {
    if c.closed then c
    else c.(closed := true, pending := map[], resolved := c.resolved + LostOutcomes(c.pending))
  }

  function Greet(c: Client): Client {
    c.(greeted := true, pending := AllSent(c.pending), writes := c.writes + Frames(c.pending, 0, c.next))
  }

  function Settle(c: Client, id: Id, a: Answer): Client {
    c.(pending := c.pending - {id}, resolved := c.resolved[id := if a.Thrown? then UnknownThrown else Answered(a)])
  }

  /** A received frame: id 0 is the greeting, any other id settles its own call. */
  function Receive(c: Client, id: Id, a: Answer): Client {
    if id == 0 then
      if c.greeted || a != Hello then Lost(c) else Greet(c)
    else if id !in c.pending then c
    else Settle(c, id, a)
  }

  // What every state of the client satisfies.

  /** Whether the call was ever written. */
  predicate Written(writes: seq<Wire>, id: Id) {
    exists i :: 0 <= i < |writes| && writes[i].CallFrame? && writes[i].id == id
  }

  /** No call is written twice. */
  ghost predicate WrittenOnce(writes: seq<Wire>) {
    forall i, j :: 0 <= i < j < |writes| && writes[i].CallFrame? && writes[j].CallFrame? ==>
      writes[i].id != writes[j].id
  }

  ghost predicate WritesOk(c: Client) {
    && |c.writes| > 0 && c.writes[0] == SecretFrame
    && WrittenOnce(c.writes)
    && forall i :: 0 < i < |c.writes| ==>
         c.writes[i].CallFrame? && c.writes[i].id in c.asked && c.writes[i].request == c.asked[c.writes[i].id]
  }

  ghost predicate CallOk(c: Client, id: Id) {
    && (id in c.asked <==> 1 <= id < c.next)
    && (id in c.asked <==> (id in c.pending || id in c.resolved))
    && !(id in c.pending && id in c.resolved)
    && (id in c.pending ==> c.pending[id].request == c.asked[id] && (c.pending[id].sent <==> Written(c.writes, id)))
    && (id in c.resolved && c.resolved[id] == FailedNotSent ==> !Written(c.writes, id))
    && (id in c.resolved && c.resolved[id] == UnknownSent ==> Written(c.writes, id))
  }

  ghost predicate LinkOk(c: Client) {
    && WritesOk(c) && c.next >= 1
    && (forall id :: CallOk(c, id))
    && (c.closed ==> c.pending == map[])
    && (!c.greeted ==> c.writes == [SecretFrame])
    && (c.greeted ==> forall id :: id in c.pending ==> c.pending[id].sent)
    && (!c.greeted ==> forall id :: id in c.pending ==> !c.pending[id].sent)
  }

  lemma WrittenAfter(writes: seq<Wire>, more: seq<Wire>, id: Id)
    ensures Written(writes + more, id) <==> Written(writes, id) || Written(more, id)
  {
    var all := writes + more;
    if Written(writes, id) {
      var i :| 0 <= i < |writes| && writes[i].CallFrame? && writes[i].id == id;
      assert all[i] == writes[i];
    }
    if Written(more, id) {
      var i :| 0 <= i < |more| && more[i].CallFrame? && more[i].id == id;
      assert all[|writes| + i] == more[i];
    }
  }

  lemma CallKeeps(c: Client, r: Request)
    requires LinkOk(c) && !c.closed
    ensures LinkOk(Call(c, r))
  {
    var d := Call(c, r);
    assert CallOk(c, c.next);
    assert !Written(c.writes, c.next);
    var f := [CallFrame(c.next, r)];
    assert f[0] == CallFrame(c.next, r);
    forall id ensures CallOk(d, id) {
      assert CallOk(c, id);
      WrittenAfter(c.writes, f, id);
    }
    forall i, j | 0 <= i < j < |d.writes| && d.writes[i].CallFrame? && d.writes[j].CallFrame?
      ensures d.writes[i].id != d.writes[j].id
    {
      if j == |c.writes| {
        assert d.writes[i] == c.writes[i];
      }
    }
  }

  lemma LostKeeps(c: Client)
    requires LinkOk(c)
    ensures LinkOk(Lost(c)) && Lost(c).closed && Lost(c).pending == map[]
    ensures forall id :: id in c.asked ==> id in Lost(c).resolved
  {
    var d := Lost(c);
    forall id ensures CallOk(d, id) {
      assert CallOk(c, id);
    }
    forall id | id in c.asked ensures id in d.resolved {
      assert CallOk(d, id);
    }
  }

  lemma SettleKeeps(c: Client, id: Id, a: Answer)
    requires LinkOk(c) && id in c.pending
    ensures LinkOk(Settle(c, id, a))
  {
    var d := Settle(c, id, a);
    forall n ensures CallOk(d, n) {
      assert CallOk(c, n);
    }
  }

  lemma {:induction false} FramesOf(pending: map<Id, Pend>, lo: Id, hi: Id)
    requires lo <= hi
    ensures forall id: Id :: Written(Frames(pending, lo, hi), id) <==> lo <= id < hi && id in pending
    ensures forall i :: 0 <= i < |Frames(pending, lo, hi)| ==>
      var f := Frames(pending, lo, hi)[i];
      f.CallFrame? && lo <= f.id < hi && f.id in pending && f.request == pending[f.id].request
    ensures forall i, j :: 0 <= i < j < |Frames(pending, lo, hi)| ==>
      Frames(pending, lo, hi)[i].id < Frames(pending, lo, hi)[j].id
    decreases hi - lo
  {
    if lo < hi {
      FramesOf(pending, lo + 1, hi);
      var head := if lo in pending then [CallFrame(lo, pending[lo].request)] else [];
      var all := Frames(pending, lo, hi);
      forall id: Id ensures Written(all, id) <==> lo <= id < hi && id in pending {
        WrittenAfter(head, Frames(pending, lo + 1, hi), id);
        assert id == lo && lo in pending ==> head[0].id == id;
      }
    }
  }

  lemma GreetKeeps(c: Client)
    requires LinkOk(c) && !c.greeted
    ensures LinkOk(Greet(c))
  {
    var d := Greet(c);
    var more := Frames(c.pending, 0, c.next);
    FramesOf(c.pending, 0, c.next);
    forall id ensures CallOk(d, id) {
      assert CallOk(c, id);
      WrittenAfter(c.writes, more, id);
    }
    forall i | 0 < i < |d.writes|
      ensures d.writes[i].CallFrame? && d.writes[i].id in d.asked && d.writes[i].request == d.asked[d.writes[i].id]
    {
      assert d.writes[i] == more[i - 1];
      assert CallOk(c, more[i - 1].id);
    }
    forall i, j | 0 <= i < j < |d.writes| && d.writes[i].CallFrame? && d.writes[j].CallFrame?
      ensures d.writes[i].id != d.writes[j].id
    {
      assert d.writes[i] == more[i - 1] && d.writes[j] == more[j - 1];
    }
  }

  /** Any frame whatever, from any worker, keeps the client's promises. */
  lemma ReceiveKeeps(c: Client, id: Id, a: Answer)
    requires LinkOk(c)
    ensures LinkOk(Receive(c, id, a))
  {
    if id == 0 {
      if c.greeted || a != Hello {
        LostKeeps(c);
      } else {
        GreetKeeps(c);
      }
    } else if id in c.pending {
      SettleKeeps(c, id, a);
    }
  }

  // What each event does, call by call

  /** An answer settles its own pending call, and only that; an answer to no pending call changes nothing. */
  lemma AnswerSettles(c: Client, id: Id, a: Answer)
    requires id != 0
    ensures var d := Receive(c, id, a);
      && d.next == c.next && d.greeted == c.greeted && d.closed == c.closed && d.asked == c.asked
        && d.writes == c.writes
      && (id !in c.pending ==> d == c)
      && (id in c.pending ==>
           && d.pending == c.pending - {id} && d.resolved.Keys == c.resolved.Keys + {id}
           && d.resolved[id] == (match a case Thrown(_) => UnknownThrown case _ => Answered(a))
           && forall n :: n in c.resolved && n != id ==> d.resolved[n] == c.resolved[n])
  {
  }

  /** A lost connection tells each pending caller whether its call was sent, and no other caller anything new. */
  predicate LosesAll(c: Client, d: Client) {
    && d.closed && d.pending == map[] && d.greeted == c.greeted && d.writes == c.writes
    && d.resolved.Keys == c.resolved.Keys + c.pending.Keys
    && (forall n :: n in c.pending ==> d.resolved[n] == if c.pending[n].sent then UnknownSent else FailedNotSent)
    && forall n :: n in c.resolved && n !in c.pending ==> d.resolved[n] == c.resolved[n]
  }

  lemma LossTells(c: Client)
    ensures if c.closed then Lost(c) == c else LosesAll(c, Lost(c))
  {
  }

  /** One frame for each waiting call, in the order of the calls. */
  ghost predicate SendsWaiting(pending: map<Id, Pend>, more: seq<Wire>) {
    && (forall i :: 0 <= i < |more| ==>
         more[i].CallFrame? && more[i].id in pending && more[i].request == pending[more[i].id].request)
    && (forall i, j :: 0 <= i < j < |more| ==> more[i].id < more[j].id)
    && (forall n :: n in pending ==> Written(more, n))
  }

  lemma FramesSend(c: Client)
    requires LinkOk(c)
    ensures SendsWaiting(c.pending, Frames(c.pending, 0, c.next))
  {
    FramesOf(c.pending, 0, c.next);
    forall n | n in c.pending ensures n < c.next {
      assert CallOk(c, n);
    }
  }

  /** The first frame must be the greeting: it sends what waited; anything else, or another greeting, is a loss. */
  lemma GreetingSends(c: Client, a: Answer)
    requires LinkOk(c)
    ensures c.greeted || a != Hello ==> if c.closed then Receive(c, 0, a) == c else LosesAll(c, Receive(c, 0, a))
    ensures !c.greeted && a == Hello ==> var d := Receive(c, 0, a);
      && d.greeted && d.closed == c.closed && d.resolved == c.resolved && d.pending.Keys == c.pending.Keys
      && (forall n :: n in c.pending ==> d.pending[n] == Pend(c.pending[n].request, true))
      && c.writes <= d.writes && SendsWaiting(c.pending, d.writes[|c.writes|..])
  {
    hide LinkOk, SendsWaiting, LosesAll;
    LossTells(c);
    if !c.greeted && a == Hello {
      FramesSend(c);
      assert Receive(c, 0, a).writes[|c.writes|..] == Frames(c.pending, 0, c.next);
    }
  }

  /** A new call gets the next number and waits; it is written at once exactly after the greeting. */
  lemma CallIsKept(c: Client, r: Request)
    requires LinkOk(c) && !c.closed
    ensures var d := Call(c, r);
      && d.next == c.next + 1 && c.next !in c.pending && c.next !in c.resolved
      && d.pending.Keys == c.pending.Keys + {c.next} && d.pending[c.next] == Pend(r, c.greeted)
      && (forall n :: n in c.pending ==> d.pending[n] == c.pending[n])
      && d.resolved == c.resolved && d.greeted == c.greeted && !d.closed
      && d.writes == c.writes + (if c.greeted then [CallFrame(c.next, r)] else [])
  {
    assert CallOk(c, c.next);
  }
}
