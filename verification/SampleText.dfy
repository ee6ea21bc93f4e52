/**
  A text for JSON trees that reads back what it writes, to show that what the
  frames ask of one can be met: one byte for the kind, numbers by their bits,
  characters by their code points, and a mark before each further element.
*/
module SampleText {
  import opened Wrappers
  import opened Bytes
  import opened PackedValue
  import opened FrameValues

  const MORE: byte := 1
  const END: byte := 0

  function Write(j: Json): seq<byte>
    decreases j, 1
  {
    match j
    case JNull => [0]
    case JBool(b) => [if b then 2 else 1]
    case JNumber(n) => if n.Finite? then [3] + BigEndian(n.bits, 8) else [6]
    case JString(s) => [4] + WriteChars(s)
    case JArray(items) => [5] + WriteAll(items)
    case JObject(_) => [6]
  }

  function WriteAll(items: seq<Json>): seq<byte>
    decreases items, 0
  {
    if items == [] then [END] else [MORE] + Write(items[0]) + WriteAll(items[1..])
  }

  function WriteChars(s: string): seq<byte> {
    if s == [] then [END] else [MORE] + BigEndian(s[0] as int, 3) + WriteChars(s[1..])
  }

  predicate IsChar(n: nat) { n < 0xD800 || 0xE000 <= n < 0x11_0000 }

  function TakeChars(b: seq<byte>): (r: Option<(string, seq<byte>)>)
    ensures r.Some? ==> |r.value.1| < |b|
  {
    if b == [] then None
    else if b[0] == END then Some(([], b[1..]))
    else if b[0] != MORE || |b| < 4 || !IsChar(FromBigEndian(b[1..4])) then None
    else
      match TakeChars(b[4..])
      case None => None
      case Some((s, rest)) => Some(([FromBigEndian(b[1..4]) as char] + s, rest))
  }

  predicate IsDouble(n: nat) { n < TWO64 && n / TWO52 % 2048 != 2047 && n != 0x8000_0000_0000_0000 }

  function Take(b: seq<byte>): (r: Option<(Json, seq<byte>)>)
    ensures r.Some? ==> |r.value.1| < |b|
    decreases |b|, 0
  {
    if b == [] then None
    else
      match b[0]
      case 0 => Some((JNull, b[1..]))
      case 1 => Some((JBool(false), b[1..]))
      case 2 => Some((JBool(true), b[1..]))
      case 3 =>
        if |b| < 9 || !IsDouble(FromBigEndian(b[1..9])) then None
        else Some((JNumber(Finite(FromBigEndian(b[1..9]))), b[9..]))
      case 4 =>
        (match TakeChars(b[1..]) case None => None case Some((s, rest)) => Some((JString(s), rest)))
      case 5 =>
        (match TakeAll(b[1..]) case None => None case Some((items, rest)) => Some((JArray(items), rest)))
      case _ => None
  }

  function TakeAll(b: seq<byte>): (r: Option<(seq<Json>, seq<byte>)>)
    ensures r.Some? ==> |r.value.1| < |b|
    decreases |b|, 1
  {
    if b == [] then None
    else if b[0] == END then Some(([], b[1..]))
    else if b[0] != MORE then None
    else
      match Take(b[1..])
      case None => None
      case Some((j, rest)) =>
        match TakeAll(rest)
        case None => None
        case Some((items, after)) => Some(([j] + items, after))
  }

  function Read(b: seq<byte>): Option<Json> {
    match Take(b) case Some((j, rest)) => (if rest == [] then Some(j) else None) case None => None
  }

  lemma {:induction false} CharsRead(s: string, rest: seq<byte>)
    ensures TakeChars(WriteChars(s) + rest) == Some((s, rest))
  {
    hide BigEndian, TakeChars;
    if s == [] {
      NoMoreChars(rest);
    } else {
      var code, more := BigEndian(s[0] as int, 3), WriteChars(s[1..]) + rest;
      CharsRead(s[1..], rest);
      CodeReads(s[0]);
      OneMoreChar(code, s[0], more);
      assert WriteChars(s) + rest == [MORE] + code + more;
      assert s == [s[0]] + s[1..];
    }
  }

  lemma NoMoreChars(rest: seq<byte>)
    ensures TakeChars([END] + rest) == Some(([], rest))
  {
    assert ([END] + rest)[1..] == rest;
  }

  lemma OneMoreChar(code: seq<byte>, c: char, more: seq<byte>)
    requires |code| == 3 && FromBigEndian(code) == c as int && IsChar(c as int) && TakeChars(more).Some?
    ensures TakeChars([MORE] + code + more) == Some(([c] + TakeChars(more).value.0, TakeChars(more).value.1))
  {
    hide FromBigEndian;
    var b := [MORE] + code + more;
    assert b[1..4] == code && b[4..] == more;
  }

  lemma CodeReads(c: char)
    ensures FromBigEndian(BigEndian(c as int, 3)) == c as int && IsChar(c as int)
  {
    assert Pow256(1) == 256 && Pow256(2) == 0x1_0000;
    BigEndianReads(c as int, 3);
  }

  lemma {:induction false} TreeReads(j: Json, rest: seq<byte>)
    requires Plain(j)
    ensures Take(Write(j) + rest) == Some((j, rest))
    decreases j, 1
  {
    hide BigEndian, FromBigEndian, WriteChars, TakeChars, IsDouble;
    match j
    case JNumber(n) => NumberReads(n.bits, rest);
    case JString(s) =>
      CharsRead(s, rest);
      assert (Write(j) + rest)[1..] == WriteChars(s) + rest;
    case JArray(items) =>
      AllRead(items, rest);
      assert (Write(j) + rest)[1..] == WriteAll(items) + rest;
    case JNull => assert ([0] + rest)[1..] == rest;
    case JBool(b) => assert (Write(j) + rest)[1..] == rest;
    case JObject(_) =>
  }

  lemma NumberReads(d: Double, rest: seq<byte>)
    ensures Take([3] + BigEndian(d, 8) + rest) == Some((JNumber(Finite(d)), rest))
  {
    hide BigEndian, FromBigEndian;
    Widths();
    BigEndianReads(d, 8);
    var b := [3] + BigEndian(d, 8) + rest;
    assert b[1..9] == BigEndian(d, 8) && b[9..] == rest;
  }

  lemma {:induction false} AllRead(items: seq<Json>, rest: seq<byte>)
    requires forall k :: 0 <= k < |items| ==> Plain(items[k])
    ensures TakeAll(WriteAll(items) + rest) == Some((items, rest))
    decreases items, 0
  {
    hide Take, Write, Plain;
    if items == [] {
      assert ([END] + rest)[1..] == rest;
    } else {
      var more := WriteAll(items[1..]);
      TreeReads(items[0], more + rest);
      AllRead(items[1..], rest);
      var b := WriteAll(items) + rest;
      assert b[1..] == Write(items[0]) + (more + rest);
      assert items == [items[0]] + items[1..];
    }
  }

  /** What the frames ask of a JSON text is met by this one. */
  lemma SomeTextIsLossless()
    ensures Lossless(JsonText(Write, Read))
  {
    hide Plain, Take, Write;
    forall j | Plain(j) ensures Read(Write(j)) == Some(j) {
      TreeReads(j, []);
      assert Write(j) + [] == Write(j);
    }
  }
}
