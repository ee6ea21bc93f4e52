/**
  One bounded control record. The writer refuses what would exceed one Noise
  message's plaintext (65,535 bytes less a 16-byte tag); the reader takes
  fields in order and refuses a short, over-long or unfinished record.
*/
module Wire {
  import opened Wrappers
  import opened Bytes
  import Utf8

  const LIMIT := 65_519

  /** What `Writer.put` appends at length `at`: the bytes, or None over the limit. */
  function Raw(at: nat, bytes: seq<byte>): Option<seq<byte>> {
    if at + |bytes| > LIMIT then None else Some(bytes)
  }

  /** `Reader.take` on what is left. */
  function Taken(rest: seq<byte>, n: nat): Option<(seq<byte>, seq<byte>)> {
    if n > |rest| then None else Some((rest[..n], rest[n..]))
  }

  /** A length of `width` bytes, at most `maximum`, then that many bytes. */
  function TakenRun(rest: seq<byte>, width: nat, maximum: nat): Option<(seq<byte>, seq<byte>)> {
    if |rest| < width || FromBigEndian(rest[..width]) > maximum then None
    else Taken(rest[width..], FromBigEndian(rest[..width]))
  }

  /** `Reader.blob`: a u16 length of at most `maximum`, then that many bytes. */
  function TakenBlob(rest: seq<byte>, maximum: nat): Option<(seq<byte>, seq<byte>)> {
    TakenRun(rest, 2, maximum)
  }

  /** A written run is taken back, whatever follows it. */
  lemma RunTaken(v: seq<byte>, rest: seq<byte>, width: nat, maximum: nat)
    requires |v| <= maximum && |v| < Pow256(width)
    ensures TakenRun(BigEndian(|v|, width) + v + rest, width, maximum) == Some((v, rest))
  {
    hide BigEndian, FromBigEndian, Pow256;
    var n := BigEndian(|v|, width);
    BigEndianReads(|v|, width);
    assert n + v + rest == n + (v + rest);
    Cut(n, v + rest);
    Cut(v, rest);
  }

  /** A taken run is its own encoding, and what it was taken from is that encoding and the rest. */
  lemma TakenIsRun(b: seq<byte>, width: nat, maximum: nat)
    requires TakenRun(b, width, maximum).Some?
    ensures var (v, rest) := TakenRun(b, width, maximum).value;
      && |v| <= maximum && |v| < Pow256(width) && b == BigEndian(|v|, width) + v + rest
  {
    hide BigEndian, FromBigEndian, Pow256;
    BigEndianWrites(b[..width]);
    var (v, rest) := TakenRun(b, width, maximum).value;
    assert b == b[..width] + b[width..];
    assert b[width..] == v + rest;
  }

  // What a loop has written or read so far, and what is still to come

  function Prepend(done: seq<byte>, more: Option<seq<byte>>): Option<seq<byte>> {
    match more case None => None case Some(b) => Some(done + b)
  }

  lemma PrependsNothing(more: Option<seq<byte>>)
    ensures Prepend([], more) == more
  {
    if more.Some? {
      assert [] + more.value == more.value;
    }
  }

  lemma Prepends(done: seq<byte>, a: seq<byte>, more: Option<seq<byte>>)
    ensures Prepend(done, Prepend(a, more)) == Prepend(done + a, more)
  {
    if more.Some? {
      assert done + (a + more.value) == done + a + more.value;
    }
  }

  /** A write that appended exactly `put`, or failed because there is nothing to put. */
  predicate Wrote(before: seq<byte>, after: seq<byte>, put: Option<seq<byte>>, ok: bool) {
    (ok <==> put.Some?) && (ok ==> after == before + put.value)
  }

  /** Whether bytes that are to follow a record of length `at` can be appended. */
  predicate Fit(at: nat, more: Option<seq<byte>>) { more.Some? && at + |more.value| <= LIMIT }

  /** A read that took exactly what `get` takes, or failed because it takes nothing. */
  predicate Got<T(==)>(after: seq<byte>, get: Option<(T, seq<byte>)>, r: Option<T>) {
    match get case None => r == None case Some((v, rest)) => r == Some(v) && after == rest
  }

  function Onward<T>(done: seq<T>, more: Option<(seq<T>, seq<byte>)>): Option<(seq<T>, seq<byte>)> {
    match more case None => None case Some((s, rest)) => Some((done + s, rest))
  }

  lemma OnwardNothing<T>(more: Option<(seq<T>, seq<byte>)>)
    ensures Onward([], more) == more
  {
    if more.Some? {
      assert [] + more.value.0 == more.value.0;
    }
  }

  lemma Onwards<T>(done: seq<T>, a: seq<T>, more: Option<(seq<T>, seq<byte>)>)
    ensures Onward(done, Onward(a, more)) == Onward(done + a, more)
  {
    if more.Some? {
      assert done + (a + more.value.0) == done + a + more.value.0;
    }
  }

  class Writer {
    var data: seq<byte>

    constructor (magic: seq<byte>)
      ensures data == magic
    {
      data := magic;
    }

    method Put(bytes: seq<byte>) returns (ok: bool)
      modifies this
      ensures ok <==> Raw(|old(data)|, bytes).Some?
      ensures data == if ok then old(data) + bytes else old(data)
    {
      if |data| + |bytes| > LIMIT {
        return false;
      }
      data := data + bytes;
      return true;
    }

    method Byte(value: byte) returns (ok: bool)
      modifies this
      ensures ok <==> |old(data)| + 1 <= LIMIT
      ensures data == if ok then old(data) + [value] else old(data)
    {
      ok := Put([value]);
    }

    /** A refused blob may leave its length behind; the caller drops the record. */
    method Blob(value: seq<byte>) returns (ok: bool)
      modifies this
      ensures ok <==> |value| < 0x1_0000 && |old(data)| + 2 + |value| <= LIMIT
      ensures ok ==> data == old(data) + BigEndian(|value|, 2) + value
    {
      if |value| >= 0x1_0000 {
        return false;
      }
      ok := Put(BigEndian(|value|, 2));
      if ok {
        ok := Put(value);
      }
    }
  }

  class Reader {
    const bytes: seq<byte>
    var position: nat

    ghost predicate Valid()
      reads this
    {
      position <= |bytes|
    }

    ghost function Rest(): seq<byte>
      requires Valid()
      reads this
    {
      bytes[position..]
    }

    /** Reads a record past its magic; `Opens` says when the source allows it. */
    constructor (record: seq<byte>, magic: seq<byte>)
      requires Opens(record, magic)
      ensures Valid() && bytes == record && Rest() == record[|magic|..]
    {
      bytes := record;
      position := |magic|;
    }

    method Take(n: nat) returns (r: Option<seq<byte>>)
      requires Valid()
      modifies this`position
      ensures Valid()
      ensures match Taken(old(Rest()), n)
        case None => r == None && position == old(position)
        case Some((v, rest)) => r == Some(v) && Rest() == rest
    {
      if n > |bytes| - position {
        return None;
      }
      r := Some(bytes[position..position + n]);
      assert r.value == Rest()[..n] && bytes[position + n..] == Rest()[n..];
      position := position + n;
    }

    method Byte() returns (r: Option<byte>)
      requires Valid()
      modifies this`position
      ensures Valid()
      ensures if old(Rest()) == [] then r == None && position == old(position)
              else r == Some(old(Rest())[0]) && Rest() == old(Rest())[1..]
    {
      var b := Take(1);
      if b.None? {
        return None;
      }
      return Some(b.value[0]);
    }

    method Number(width: nat) returns (r: Option<nat>)
      requires Valid()
      modifies this`position
      ensures Valid()
      ensures match Taken(old(Rest()), width)
        case None => r == None && position == old(position)
        case Some((v, rest)) => r == Some(FromBigEndian(v)) && Rest() == rest
    {
      var b := Take(width);
      if b.None? {
        return None;
      }
      return Some(FromBigEndian(b.value));
    }

    method Blob(maximum: nat) returns (r: Option<seq<byte>>)
      requires Valid()
      modifies this`position
      ensures Valid()
      ensures match TakenBlob(old(Rest()), maximum)
        case None => r == None
        case Some((v, rest)) => r == Some(v) && Rest() == rest
    {
      var n := Number(2);
      if n.None? || n.value > maximum {
        return None;
      }
      r := Take(n.value);
    }

    method Text(maximum: nat) returns (r: Option<seq<byte>>)
      requires Valid()
      modifies this`position
      ensures Valid()
      ensures match TakenBlob(old(Rest()), maximum)
        case None => r == None
        case Some((v, rest)) => if Utf8.Valid(v) then r == Some(v) && Rest() == rest else r == None
    {
      r := Blob(maximum);
      if r.Some? && !Utf8.Valid(r.value) {
        r := None;
      }
    }

    /** True when every byte was read. */
    method Finish() returns (done: bool)
      requires Valid()
      ensures done <==> Rest() == []
    {
      done := position == |bytes|;
    }
  }

  predicate Opens(record: seq<byte>, magic: seq<byte>) { |record| <= LIMIT && magic <= record }
}
