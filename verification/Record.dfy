/** A whole record: a magic prefix, then one value, and nothing after it. */
module Record {
  import opened Wrappers
  import opened Bytes
  import opened Wire
  import opened Codec

  function Encode<T>(c: Codec<T>, magic: seq<byte>, v: T): Option<seq<byte>> {
    match c.put(|magic|, v) case None => None case Some(b) => Some(magic + b)
  }

  function Decode<T>(c: Codec<T>, magic: seq<byte>, record: seq<byte>): Option<T> {
    if !Opens(record, magic) then None
    else match c.get(record[|magic|..]) case None => None case Some((v, rest)) => if rest == [] then Some(v) else None
  }

  /** A written record is read as the value that arrives, which writes the same record. */
  lemma EncodedDecodes<T(!new)>(c: Codec<T>, magic: seq<byte>, v: T)
    requires Lawful(c) && |magic| <= LIMIT && c.ok(v) && Encode(c, magic, v).Some?
    ensures var record, w := Encode(c, magic, v).value, c.norm(|magic|, v);
      Decode(c, magic, record) == Some(w) && c.ok(w) && Encode(c, magic, w) == Some(record)
  {
    hide Lawful;
    Law(c, |magic|, v);
    var b := c.put(|magic|, v).value;
    Cut(magic, b);
    assert b + [] == b;
  }

  /** Where nothing is lost, an accepted record is the one its value writes. */
  lemma DecodedEncodes<T(!new)>(c: Codec<T>, magic: seq<byte>, record: seq<byte>)
    requires Faithful(c) && Decode(c, magic, record).Some?
    ensures c.ok(Decode(c, magic, record).value) && Encode(c, magic, Decode(c, magic, record).value) == Some(record)
  {
    var b := record[|magic|..];
    assert ReadsPrefix(c, b) && ExactAt(c, |magic|, b);
    assert b[..|b|] == b && magic + b == record;
  }

  /** A valid record with bytes appended is refused. */
  lemma NothingAppended<T(!new)>(c: Codec<T>, magic: seq<byte>, record: seq<byte>, more: seq<byte>)
    requires Lawful(c) && Decode(c, magic, record).Some? && more != []
    ensures Decode(c, magic, record + more) == None
  {
    hide Lawful;
    var b := record[|magic|..];
    LawReads(c, b);
    assert (record + more)[|magic|..] == b + more;
  }

  /** No proper prefix of a valid record is valid. */
  lemma NoProperPrefix<T(!new)>(c: Codec<T>, magic: seq<byte>, record: seq<byte>, n: nat)
    requires Lawful(c) && Decode(c, magic, record).Some? && n < |record|
    ensures Decode(c, magic, record[..n]) == None
  {
    assert record[..n] + record[n..] == record;
    if Decode(c, magic, record[..n]).Some? {
      NothingAppended(c, magic, record[..n], record[n..]);
    }
  }
}
