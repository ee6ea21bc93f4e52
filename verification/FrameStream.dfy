/**
  A stream of frames, each a 4-byte big-endian length and a payload. `Parse` is
  the meaning of a whole stream; the reader class receives the same stream in
  chunks cut anywhere and delivers exactly that meaning.
*/
module FrameStream {
  import opened Wrappers
  import opened Bytes

  datatype Failure = FirstTooLong(length: nat) | Undecodable

  /** The values delivered, in order, and the one failure that ended the stream, if any. */
  datatype Parsed<V> = Parsed(values: seq<V>, failure: Option<Failure>)

  /** How payloads decode, and the cap on the first frame's length (None: no cap). */
  datatype Protocol<!V> = Protocol(decode: seq<byte> -> Option<V>, firstLimit: Option<nat>)

  predicate OverLimit(first: bool, limit: Option<nat>, n: nat) {
    first && limit.Some? && n > limit.value
  }

  /** The meaning of a stream whose next frame begins at its first byte. */
  function Parse<V>(p: Protocol<V>, bytes: seq<byte>, first: bool): Parsed<V>
    decreases |bytes|, 1
  {
    if |bytes| < 4 then Parsed([], None)
    else
      var n := FromBigEndian(bytes[..4]);
      if OverLimit(first, p.firstLimit, n) then Parsed([], Some(FirstTooLong(n)))
      else Payload(p, n, bytes[4..])
  }

  /** The meaning of a stream inside a frame whose length is known. */
  function Payload<V>(p: Protocol<V>, n: nat, bytes: seq<byte>): Parsed<V>
    decreases |bytes|, 2
  {
    if |bytes| < n then Parsed([], None)
    else
      match p.decode(bytes[..n])
      case None => Parsed([], Some(Undecodable))
      case Some(v) => Before([v], Parse(p, bytes[n..], false))
  }

  function Before<V>(vs: seq<V>, r: Parsed<V>): Parsed<V> { r.(values := vs + r.values) }

  /** What is left to deliver, with or without a known length. */
  function Resume<V>(p: Protocol<V>, need: Option<nat>, bytes: seq<byte>, first: bool): Parsed<V> {
    match need
    case None => Parse(p, bytes, first)
    case Some(n) => Payload(p, n, bytes)
  }

  /** One whole frame at the head of a stream. */
  lemma ParseFrame<V>(p: Protocol<V>, payload: seq<byte>, v: V, rest: seq<byte>, first: bool)
    requires |payload| < 0x1_0000_0000 && !OverLimit(first, p.firstLimit, |payload|) && p.decode(payload) == Some(v)
    ensures Parse(p, BigEndian(|payload|, 4) + payload + rest, first) == Before([v], Parse(p, rest, false))
  {
    hide BigEndian, FromBigEndian;
    var bytes := BigEndian(|payload|, 4) + payload + rest;
    Widths();
    BigEndianReads(|payload|, 4);
    assert bytes[..4] == BigEndian(|payload|, 4);
    assert bytes[4..] == payload + rest;
    assert (payload + rest)[..|payload|] == payload && (payload + rest)[|payload|..] == rest;
  }

  function Flat<T>(parts: seq<seq<T>>): seq<T> {
    if parts == [] then [] else parts[0] + Flat(parts[1..])
  }

  lemma {:induction false} FlatSnoc<T>(parts: seq<seq<T>>, last: seq<T>)
    ensures Flat(parts + [last]) == Flat(parts) + last
  {
    if parts == [] {
      assert parts + [last] == [last];
      assert Flat([last]) == last + Flat([last][1..]);
    } else {
      FlatSnoc(parts[1..], last);
      assert (parts + [last])[1..] == parts[1..] + [last];
    }
  }

  class Reader<V> {
    const protocol: Protocol<V>
    var parts: seq<seq<byte>>
    var have: nat
    var need: Option<nat>
    var failed: bool
    var first: bool
    /** What onValue and onBad were called with. */
    var values: seq<V>
    var bad: seq<Failure>
    ghost var received: seq<byte>

    ghost predicate Buffered()
      reads this
    {
      have == |Flat(parts)| && (first ==> values == [])
    }

    /** However the stream goes on, what was delivered and what is kept together give its meaning. */
    ghost predicate Faithful()
      reads this
    {
      if failed then
        |bad| == 1 && forall more :: Parse(protocol, received + more, true) == Parsed(values, Some(bad[0]))
      else
        bad == [] && forall more ::
          Parse(protocol, received + more, true) == Before(values, Resume(protocol, need, Flat(parts) + more, first))
    }

    ghost predicate Waiting()
      reads this
    {
      !failed ==> match need case None => have < 4 case Some(n) => have < n
    }

    ghost predicate Valid()
      reads this
    {
      Buffered() && Faithful() && Waiting()
    }

    constructor (p: Protocol<V>)
      ensures Valid() && protocol == p && received == [] && values == [] && bad == []
    {
      protocol := p;
      parts, have, need, failed, first := [], 0, None, false, true;
      values, bad, received := [], [], [];
      new;
      forall more ensures Parse(protocol, received + more, true) ==
        Before(values, Resume(protocol, need, Flat(parts) + more, first)) {
        assert [] + more == more;
        var r := Parse(protocol, more, true);
        assert [] + r.values == r.values;
      }
    }

    /** The first `n` buffered bytes; the rest stays as one part. */
    method Take(n: nat) returns (bytes: seq<byte>)
      requires Buffered() && n <= have
      modifies this`parts, this`have
      ensures Buffered() && bytes == old(Flat(parts))[..n] && Flat(parts) == old(Flat(parts))[n..]
    {
      var all := if |parts| == 1 then parts[0] else Flat(parts);
      assert all == Flat(parts);
      parts := if |all| > n then [all[n..]] else [];
      assert Flat([all[n..]]) == all[n..] + Flat([all[n..]][1..]) == all[n..];
      have := have - n;
      bytes := all[..n];
    }

    /** Ends the stream: the buffer is dropped and onBad called once. */
    method Fail(f: Failure)
      requires !failed && bad == []
      requires forall more :: Parse(protocol, received + more, true) == Parsed(values, Some(f))
      requires first ==> values == []
      modifies this`failed, this`parts, this`have, this`bad
      ensures Valid() && failed && bad == [f]
    {
      failed, parts, have := true, [], 0;
      bad := bad + [f];
    }

    /** The length of the next frame is complete. */
    method TakeLength() returns (over: bool)
      requires Buffered() && Faithful() && !failed && need == None && have >= 4
      modifies this
      ensures received == old(received) && values == old(values) && first == old(first)
      ensures over ==> Valid() && failed
      ensures !over ==> Buffered() && Faithful() && !failed && need.Some? && have == old(have) - 4
    {
      ghost var before := Flat(parts);
      var head := Take(4);
      var n := FromBigEndian(head);
      need := Some(n);
      forall more
        ensures Parse(protocol, before + more, first) ==
          if OverLimit(first, protocol.firstLimit, n) then Parsed([], Some(FirstTooLong(n)))
            else Payload(protocol, n, Flat(parts) + more)
      {
        assert (before + more)[..4] == head && (before + more)[4..] == Flat(parts) + more;
      }
      over := OverLimit(first, protocol.firstLimit, n);
      if over {
        assert values + [] == values;
        Fail(FirstTooLong(n));
      }
    }

    /** The payload is complete: deliver its value, or fail. */
    method TakePayload()
      requires Buffered() && Faithful() && !failed && need.Some? && need.value <= have
      modifies this
      ensures received == old(received)
      ensures failed ==> Valid()
      ensures !failed ==> Buffered() && Faithful() && need == None && have <= old(have)
    {
      first := false;
      ghost var before, n := Flat(parts), need.value;
      var payload := Take(need.value);
      need := None;
      var value := protocol.decode(payload);
      forall more
        ensures Payload(protocol, n, before + more) ==
          match value case None => Parsed([], Some(Undecodable))
            case Some(v) => Before([v], Parse(protocol, Flat(parts) + more, false))
      {
        assert (before + more)[..n] == payload && (before + more)[n..] == Flat(parts) + more;
      }
      if value.None? {
        assert values + [] == values;
        Fail(Undecodable);
        return;
      }
      ghost var delivered := values;
      values := values + [value.value];
      forall more
        ensures Parse(protocol, received + more, true) == Before(values, Parse(protocol, Flat(parts) + more, false))
      {
        var r := Parse(protocol, Flat(parts) + more, false);
        assert delivered + ([value.value] + r.values) == values + r.values;
      }
    }

    /** The socket's data event. */
    method OnData(chunk: seq<byte>)
      requires Valid()
      modifies this
      ensures Valid() && received == old(received) + chunk
    {
      received := received + chunk;
      if failed {
        forall more ensures Parse(protocol, received + more, true) == Parsed(values, Some(bad[0])) {
          assert received + more == old(received) + (chunk + more);
        }
        return;
      }
      FlatSnoc(parts, chunk);
      parts := parts + [chunk];
      have := have + |chunk|;
      forall more
        ensures Parse(protocol, received + more, true) ==
          Before(values, Resume(protocol, need, Flat(parts) + more, first))
      {
        assert received + more == old(received) + (chunk + more);
        assert Flat(parts) + more == old(Flat(parts)) + (chunk + more);
      }
      while true
        invariant Buffered() && Faithful() && !failed && received == old(received) + chunk
        decreases have, if need.Some? then 1 else 0
      {
        if need == None && have >= 4 {
          var over := TakeLength();
          if over {
            return;
          }
        }
        if need == None || have < need.value {
          return;
        }
        TakePayload();
        if failed {
          return;
        }
      }
    }
  }

  /** Reading a stream in any chunks delivers the meaning of the whole stream. */
  method ReadChunks<V>(p: Protocol<V>, chunks: seq<seq<byte>>) returns (values: seq<V>, bad: seq<Failure>)
    ensures values == Parse(p, Flat(chunks), true).values
    ensures bad == match Parse(p, Flat(chunks), true).failure case None => [] case Some(f) => [f]
  {
    var reader := new Reader(p);
    for i := 0 to |chunks|
      invariant reader.Valid() && reader.protocol == p && fresh(reader)
      invariant reader.received == Flat(chunks[..i])
    {
      reader.OnData(chunks[i]);
      FlatSnoc(chunks[..i], chunks[i]);
      assert chunks[..i + 1] == chunks[..i] + [chunks[i]];
    }
    assert chunks[..|chunks|] == chunks;
    values, bad := reader.values, reader.bad;
    assert reader.received + [] == reader.received;
    assert Flat(reader.parts) + [] == Flat(reader.parts);
    assert values + [] == values;
  }
}
