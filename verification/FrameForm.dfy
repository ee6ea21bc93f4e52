/**
  What stands on the wire between client and worker: the four length bytes, the
  tagged envelope, and each packed value as its JSON tree; and when a stream is
  refused.
*/
module FrameForm {
  import opened Wrappers
  import opened Bytes
  import opened PackedValue
  import opened FrameStream
  import opened FrameValues
  import opened Decimal
  import Base64

  // Packed values

  /** The letter of a six-bit number: table 1 in section 4 of RFC 4648, by character codes. */
  predicate IsLetterOf(c: char, n: int) {
    && 0 <= n < 64
    && c as int ==
       (if n < 26 then 65 + n else if n < 52 then 97 + (n - 26) else if n < 62 then 48 + (n - 52)
        else if n == 62 then 43 else 47)
  }

  lemma LetterIs(n: Base64.Sextet)
    ensures IsLetterOf(Base64.Letter(n), n)
  {
  }

  /** Four characters that stand for the one to three bytes of `b`: 24 bits, missing bytes as zeros and then padding. */
  predicate IsGroup(s: string, b: seq<byte>)
    requires |s| == 4 && b != []
  {
    var n := FromFour(0, b[0], if |b| > 1 then b[1] else 0, if |b| > 2 then b[2] else 0);
    && IsLetterOf(s[0], n / 0x4_0000) && IsLetterOf(s[1], n / 0x1000 % 64)
    && (if |b| > 1 then IsLetterOf(s[2], n / 64 % 64) else s[2] == '=')
    && (if |b| > 2 then IsLetterOf(s[3], n % 64) else s[3] == '=')
  }

  /** Three bytes are four numbers of six bits. */
  lemma Sixes(x: byte, y: byte, z: byte)
    ensures var n := FromFour(0, x, y, z);
      && n / 0x4_0000 == x / 4 && n / 0x1000 % 64 == x % 4 * 16 + y / 16
      && n / 64 % 64 == y % 16 * 4 + z / 64 && n % 64 == z % 64
  {
    var a, b, c, d := x / 4, x % 4 * 16 + y / 16, y % 16 * 4 + z / 64, z % 64;
    var n := FromFour(0, x, y, z);
    assert n == a * 0x4_0000 + b * 0x1000 + c * 64 + d;
    Quotient(n, 0x4_0000, a, b * 0x1000 + c * 64 + d);
    Quotient(n, 0x1000, a * 64 + b, c * 64 + d);
    Quotient(n, 64, a * 0x1000 + b * 64 + c, d);
  }

  lemma LettersAre(x: byte, y: byte, z: byte)
    ensures var n := FromFour(0, x, y, z);
      && IsLetterOf(Base64.Letter(x / 4), n / 0x4_0000)
      && IsLetterOf(Base64.Letter(x % 4 * 16 + y / 16), n / 0x1000 % 64)
      && IsLetterOf(Base64.Letter(y % 16 * 4 + z / 64), n / 64 % 64)
      && IsLetterOf(Base64.Letter(z % 64), n % 64)
  {
    hide Base64.Letter, IsLetterOf;
    Sixes(x, y, z);
    LetterIs(x / 4);
    LetterIs(x % 4 * 16 + y / 16);
    LetterIs(y % 16 * 4 + z / 64);
    LetterIs(z % 64);
  }

  lemma GroupIs(s: string, b: seq<byte>, x: byte, y: byte, z: byte)
    requires |s| == 4 && 1 <= |b| <= 3 && x == b[0]
    requires y == (if |b| > 1 then b[1] else 0) && z == (if |b| > 2 then b[2] else 0)
    requires s[0] == Base64.Letter(x / 4) && s[1] == Base64.Letter(x % 4 * 16 + y / 16)
    requires s[2] == if |b| > 1 then Base64.Letter(y % 16 * 4 + z / 64) else '='
    requires s[3] == if |b| > 2 then Base64.Letter(z % 64) else '='
    ensures IsGroup(s, b)
  {
    hide Base64.Letter, IsLetterOf, FromFour;
    LettersAre(x, y, z);
  }

  lemma FirstGroup(b: seq<byte>)
    requires b != []
    ensures |Base64.Encode(b)| >= 4
    ensures IsGroup(Base64.Encode(b)[..4], if |b| < 3 then b else b[..3])
    ensures Base64.Encode(b)[4..] == if |b| < 3 then [] else Base64.Encode(b[3..])
  {
    hide Base64.Letter, IsGroup;
    var s := Base64.Encode(b)[..4];
    var first := if |b| < 3 then b else b[..3];
    GroupIs(s, first, b[0], if |b| > 1 then b[1] else 0, if |b| > 2 then b[2] else 0);
  }

  /** Base64 goes by groups of three bytes, the last one padded; each is four letters of the table. */
  lemma {:induction false} GroupsAre(b: seq<byte>, g: nat)
    requires 3 * g < |b|
    ensures 4 * g + 4 <= |Base64.Encode(b)|
    ensures IsGroup(Base64.Encode(b)[4 * g..4 * g + 4], if |b| < 3 * g + 3 then b[3 * g..] else b[3 * g..3 * g + 3])
    decreases g
  {
    hide Base64.Encode, IsGroup;
    FirstGroup(b);
    var s := Base64.Encode(b);
    if g > 0 {
      var rest := Base64.Encode(b[3..]);
      GroupsAre(b[3..], g - 1);
      assert s[4..] == rest && s[4..][4 * (g - 1)..4 * (g - 1) + 4] == s[4 * g..4 * g + 4];
      assert b[3..][3 * (g - 1)..] == b[3 * g..];
      assert |b| >= 3 * g + 3 ==> b[3..][3 * (g - 1)..3 * (g - 1) + 3] == b[3 * g..3 * g + 3];
    } else {
      assert s[0..4] == s[..4] && b[0..] == b;
      assert |b| >= 3 ==> b[0..3] == b[..3];
    }
  }

  lemma {:induction false} LengthIs(b: seq<byte>)
    ensures |Base64.Encode(b)| == (|b| + 2) / 3 * 4
    decreases |b|
  {
    hide Base64.Letter;
    if |b| > 2 {
      LengthIs(b[3..]);
    }
  }

  /** Each value's JSON tree: compound values under a tag, the others as they are. */
  lemma PacksAre(v: Js)
    ensures match v
      case Undefined => Pack(v) == Some(JArray([JString("undefined")]))
      case Null => Pack(v) == Some(JNull)
      case Bool(b) => Pack(v) == Some(JBool(b))
      case Number(n) => Pack(v) == Some(match n
        case Finite(_) => JNumber(n)
        case NegativeZero => JArray([JString("number"), JString("-0")])
        case NotANumber => JArray([JString("number"), JString("NaN")])
        case Infinite => JArray([JString("number"), JString("Infinity")])
        case NegativeInfinite => JArray([JString("number"), JString("-Infinity")]))
      case BigInt(i) => Pack(v) == Some(JArray([JString("bigint"), JString(IntText(i))]))
      case Str(s) => Pack(v) == Some(JString(s))
      case Buffer(b) => Pack(v) == Some(JArray([JString("buffer"), JString(Base64.Encode(b))]))
      case Uint8Array(b) => Pack(v) == Some(JArray([JString("bytes"), JString(Base64.Encode(b))]))
      case ArrayBuffer(b) => Pack(v) == Some(JArray([JString("arraybuffer"), JString(Base64.Encode(b))]))
      case Array(items) => Pack(v).Some? ==>
        exists js :: Pack(v) == Some(JArray([JString("array"), JArray(js)])) && ItemsPacked(items, js)
      case Object(fields) => Pack(v).Some? ==>
        exists js :: Pack(v) == Some(JArray([JString("object"), JArray(js)])) && PairsPacked(fields, js)
      case Other => Pack(v) == None
  {
    match v
    case Array(items) =>
      if Pack(v).Some? {
        ItemsPack(items);
        assert Pack(v) == Some(JArray([JString("array"), JArray(PackAll(items).value)]));
      }
    case Object(fields) =>
      if Pack(v).Some? {
        PairsPack(fields);
        assert Pack(v) == Some(JArray([JString("object"), JArray(PackFields(fields).value)]));
      }
    case _ =>
  }

  ghost predicate ItemsPacked(items: seq<Js>, js: seq<Json>) {
    |js| == |items| && forall k :: 0 <= k < |items| ==> Pack(items[k]) == Some(js[k])
  }

  ghost predicate PairsPacked(fields: seq<Field>, js: seq<Json>) {
    |js| == |fields| && forall k :: 0 <= k < |fields| ==>
      Pack(fields[k].value).Some? && js[k] == JArray([JString(fields[k].key), Pack(fields[k].value).value])
  }

  lemma {:induction false} ItemsPack(items: seq<Js>)
    requires PackAll(items).Some?
    ensures ItemsPacked(items, PackAll(items).value)
    decreases |items|
  {
    hide Pack;
    if items != [] {
      ItemsPack(items[1..]);
    }
  }

  lemma {:induction false} PairsPack(fields: seq<Field>)
    requires PackFields(fields).Some?
    ensures PairsPacked(fields, PackFields(fields).value)
    decreases |fields|
  {
    hide Pack;
    if fields != [] {
      PairsPack(fields[1..]);
    }
  }

  // Which trees unpack

  predicate OnlyDigits(s: string) { forall k :: 0 <= k < |s| ==> '0' <= s[k] <= '9' }

  /** Digits, after a minus sign or none. */
  predicate IsWhole(s: string) { s != [] && (OnlyDigits(s) || (s[0] == '-' && |s| > 1 && OnlyDigits(s[1..]))) }

  predicate IsBase64Letter(c: char) {
    'A' <= c <= 'Z' || 'a' <= c <= 'z' || '0' <= c <= '9' || c == '+' || c == '/'
  }

  predicate PaddedFrom(s: string, n: int) {
    && (forall k :: 0 <= k < |s| && k < n ==> IsBase64Letter(s[k]))
    && (forall k :: 0 <= k < |s| && k >= n ==> s[k] == '=')
  }

  /** Letters of the table, then at most two signs of padding, four by four. */
  predicate IsBase64(s: string) {
    |s| % 4 == 0 && (PaddedFrom(s, |s|) || PaddedFrom(s, |s| - 1) || PaddedFrom(s, |s| - 2))
  }

  /** A tree that stands for a value: plain, or under one of eight tags with the data that tag asks for. */
  predicate Readable(j: Json) {
    match j
    case JObject(_) => false
    case JArray(items) =>
      items != [] && items[0].JString? &&
        if items[0].s == "undefined" then |items| == 1
        else |items| >= 2 && TagTakes(items[0].s, items[1])
    case _ => true
  }

  predicate TagTakes(tag: string, data: Json)
    decreases data, 1
  {
    if tag == "bigint" then data.JString? && IsWhole(data.s)
    else if tag == "number" then data.JString? && data.s in {"NaN", "Infinity", "-Infinity", "-0"}
    else if tag == "buffer" || tag == "bytes" || tag == "arraybuffer" then data.JString? && IsBase64(data.s)
    else if tag == "array" then data.JArray? && forall k :: 0 <= k < |data.items| ==> Readable(data.items[k])
    else tag == "object" && data.JArray? && forall k :: 0 <= k < |data.items| ==> PairReadable(data.items[k])
  }

  predicate PairReadable(j: Json) {
    j.JArray? && |j.items| == 2 && j.items[0].JString? && Readable(j.items[1])
  }

  lemma WholeIs(s: string)
    ensures IntShaped(s) <==> IsWhole(s)
  {
  }

  lemma Base64Is(s: string)
    ensures Base64.Shaped(s) <==> IsBase64(s)
  {
  }

  /** Exactly those trees unpack; whatever comes from the other side, the rest is refused. */
  lemma {:induction false} ReadableUnpacks(j: Json)
    ensures Unpack(j).Some? <==> Readable(j)
    decreases j, 1
  {
    if j.JArray? && |j.items| >= 2 && j.items[0].JString? && j.items[0].s != "undefined" {
      TakenUnpacks(j.items[0].s, j.items[1]);
    }
  }

  lemma {:induction false} TakenUnpacks(name: string, data: Json)
    requires name != "undefined"
    ensures TagOf(name).Some? && UnpackTagged(TagOf(name).value, data).Some? <==> TagTakes(name, data)
    decreases data, 0
  {
    hide Unpack, UnpackAll, UnpackFields, Readable, PairReadable, IntShaped, IsWhole, IntOf, IsBase64;
    hide FromEntries, Base64.Shaped, Base64.Decode;
    if data.JString? {
      WholeIs(data.s);
      Base64Is(data.s);
    } else if data.JArray? {
      ItemsUnpack(data.items);
      PairsUnpack(data.items);
    }
  }

  lemma {:induction false} ItemsUnpack(items: seq<Json>)
    ensures UnpackAll(items).Some? <==> forall k :: 0 <= k < |items| ==> Readable(items[k])
    decreases items, 2
  {
    hide Unpack, Readable;
    if items != [] {
      ReadableUnpacks(items[0]);
      ItemsUnpack(items[1..]);
      assert forall k :: 0 < k < |items| ==> items[k] == items[1..][k - 1];
    }
  }

  lemma {:induction false} PairsUnpack(items: seq<Json>)
    ensures UnpackFields(items).Some? <==> forall k :: 0 <= k < |items| ==> PairReadable(items[k])
    decreases items, 2
  {
    hide Unpack, Readable;
    if items != [] {
      if items[0].JArray? && |items[0].items| == 2 {
        ReadableUnpacks(items[0].items[1]);
      }
      PairsUnpack(items[1..]);
      assert forall k :: 0 < k < |items| ==> items[k] == items[1..][k - 1];
    }
  }

  /** A payload decodes exactly when it is the envelope of three with the tag and the number one around such a tree. */
  lemma EnvelopeIsChecked(t: JsonText, bytes: seq<byte>)
    ensures Decode(t, bytes).Some? <==>
      match t.read(bytes)
      case Some(JArray(items)) =>
        && |items| == 3 && items[0] == JString("layerfs-worker")
        && items[1] == JNumber(Finite(0x3FF0_0000_0000_0000)) && Readable(items[2])
      case _ => false
  {
    hide Unpack, Readable;
    match t.read(bytes)
    case Some(JArray(items)) =>
      if |items| == 3 {
        ReadableUnpacks(items[2]);
      }
    case _ =>
  }

  // Frames

  /** A frame is four bytes of length, the first weighing most, and the JSON text of the envelope. */
  lemma FrameIs(t: JsonText, v: Js)
    ensures Frame(t, v) ==
      match Pack(v)
      case None => None
      case Some(j) =>
        var payload := t.write(JArray([JString("layerfs-worker"), JNumber(Finite(0x3FF0_0000_0000_0000)), j]));
        if |payload| >= 0x1_0000_0000 then None else Some(Four(|payload|) + payload)
  {
    hide Pack, BigEndian;
    if Encode(t, v).Some? {
      FourIs(|Encode(t, v).value|);
    }
  }

  // When a stream is refused

  /** What a stream with a complete first length begins with. */
  predicate Begins(bytes: seq<byte>, n: nat) {
    |bytes| >= 4 && n == FromFour(bytes[0], bytes[1], bytes[2], bytes[3])
  }

  lemma LengthReads<V>(p: Protocol<V>, bytes: seq<byte>, n: nat)
    requires Begins(bytes, n)
    ensures FromBigEndian(bytes[..4]) == n
  {
    FourReads(bytes[0], bytes[1], bytes[2], bytes[3]);
    assert bytes[..4] == [bytes[0], bytes[1], bytes[2], bytes[3]];
  }

  /** A first frame longer than the cap ends the stream as soon as its length is there, whatever follows. */
  lemma LongFirstFrameIsRefused<V>(p: Protocol<V>, bytes: seq<byte>, n: nat)
    requires Begins(bytes, n) && p.firstLimit.Some? && n > p.firstLimit.value
    ensures Parse(p, bytes, true) == Parsed([], Some(FirstTooLong(n)))
  {
    LengthReads(p, bytes, n);
  }

  /** Any other frame waits for its payload, is delivered, or ends the stream when it does not decode. */
  lemma FrameIsRead<V>(p: Protocol<V>, bytes: seq<byte>, n: nat, first: bool)
    requires Begins(bytes, n) && (first && p.firstLimit.Some? ==> n <= p.firstLimit.value)
    ensures |bytes| < 4 + n ==> Parse(p, bytes, first) == Parsed([], None)
    ensures |bytes| >= 4 + n && p.decode(bytes[4..4 + n]) == None ==>
      Parse(p, bytes, first) == Parsed([], Some(Undecodable))
    ensures |bytes| >= 4 + n && p.decode(bytes[4..4 + n]).Some? ==>
      var rest := Parse(p, bytes[4 + n..], false);
      Parse(p, bytes, first) == Parsed([p.decode(bytes[4..4 + n]).value] + rest.values, rest.failure)
  {
    hide FromBigEndian;
    LengthReads(p, bytes, n);
    if |bytes| >= 4 + n {
      assert bytes[4..][..n] == bytes[4..4 + n] && bytes[4..][n..] == bytes[4 + n..];
    }
  }

  /** Less than a length says nothing yet. */
  lemma ShortStreamWaits<V>(p: Protocol<V>, bytes: seq<byte>, first: bool)
    requires |bytes| < 4
    ensures Parse(p, bytes, first) == Parsed([], None)
  {
  }
}
