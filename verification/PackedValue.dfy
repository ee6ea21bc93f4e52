/**
  Values between the worker and its client: every compound value is packed
  under a tag of its own, so that no user array or object reads as a tag, and
  unpacking gives the value back.
*/
module PackedValue {
  import opened Wrappers
  import opened Bytes
  import opened Decimal
  import Base64

  const TWO52 := 0x10_0000_0000_0000
  const TWO64 := 0x1_0000_0000_0000_0000

  /** The bits of a finite double (section 3.4 of IEEE 754) other than -0. */
  type Double = bits: int | 0 <= bits < TWO64 && bits / TWO52 % 2048 != 2047 && bits != 0x8000_0000_0000_0000

  /** A JavaScript number: JSON carries the finite ones other than -0 as they are. */
  datatype Num = Finite(bits: Double) | NegativeZero | NotANumber | Infinite | NegativeInfinite

  /** A value of the caller. Object keys are in entry order; Other is any value with another prototype. */
  datatype Js =
    | Undefined
    | Null
    | Bool(b: bool)
    | Number(n: Num)
    | BigInt(i: int)
    | Str(s: string)
    | Buffer(bytes: seq<byte>)
    | Uint8Array(bytes: seq<byte>)
    | ArrayBuffer(bytes: seq<byte>)
    | Array(items: seq<Js>)
    | Object(fields: seq<Field>)
    | Other

  datatype Field = Field(key: string, value: Js)

  datatype Json =
    | JNull
    | JBool(b: bool)
    | JNumber(n: Num)
    | JString(s: string)
    | JArray(items: seq<Json>)
    | JObject(members: seq<Member>)

  datatype Member = Member(key: string, value: Json)

  /** `String(i)` of a bigint. */
  function IntText(i: int): string { if i < 0 then "-" + Digits(-i) else Digits(i) }

  /** The pattern `^-?\d+$`. */
  predicate IntShaped(s: string) {
    var d := if s != [] && s[0] == '-' then s[1..] else s;
    d != [] && AllDigits(d)
  }

  function IntOf(s: string): int
    requires IntShaped(s)
  {
    if s[0] == '-' then 0 - Value(s[1..]) else Value(s)
  }

  lemma IntTextReads(i: int)
    ensures IntShaped(IntText(i)) && IntOf(IntText(i)) == i
  {
    ValueOfDigits(if i < 0 then -i else i);
    if i < 0 {
      assert IntText(i)[1..] == Digits(-i);
    } else {
      assert IsDigit(Digits(i)[0]);
    }
  }

  datatype Tag = TUndefined | TBigInt | TNumber | TBuffer | TBytes | TArrayBuffer | TArray | TObject

  function Name(t: Tag): string {
    match t
    case TUndefined => "undefined"
    case TBigInt => "bigint"
    case TNumber => "number"
    case TBuffer => "buffer"
    case TBytes => "bytes"
    case TArrayBuffer => "arraybuffer"
    case TArray => "array"
    case TObject => "object"
  }

  function TagOf(name: string): Option<Tag> {
    if name == "undefined" then Some(TUndefined)
    else if name == "bigint" then Some(TBigInt)
    else if name == "number" then Some(TNumber)
    else if name == "buffer" then Some(TBuffer)
    else if name == "bytes" then Some(TBytes)
    else if name == "arraybuffer" then Some(TArrayBuffer)
    else if name == "array" then Some(TArray)
    else if name == "object" then Some(TObject)
    else None
  }

  lemma TagReads(t: Tag)
    ensures TagOf(Name(t)) == Some(t)
  {
    assert "bigint"[0] == 'b' && "number"[0] == 'n' && "buffer"[1] == 'u' && "object"[0] == 'o';
  }

  function Tagged(tag: Tag, data: Json): Json { JArray([JString(Name(tag)), data]) }

  function Pack(v: Js): Option<Json>
    decreases v, 1
  {
    match v
    case Undefined => Some(JArray([JString(Name(TUndefined))]))
    case BigInt(i) => Some(Tagged(TBigInt, JString(IntText(i))))
    case Number(n) =>
      (match n
       case Finite(_) => Some(JNumber(n))
       case NegativeZero => Some(Tagged(TNumber, JString("-0")))
       case NotANumber => Some(Tagged(TNumber, JString("NaN")))
       case Infinite => Some(Tagged(TNumber, JString("Infinity")))
       case NegativeInfinite => Some(Tagged(TNumber, JString("-Infinity"))))
    case Null => Some(JNull)
    case Bool(b) => Some(JBool(b))
    case Str(s) => Some(JString(s))
    case Buffer(b) => Some(Tagged(TBuffer, JString(Base64.Encode(b))))
    case Uint8Array(b) => Some(Tagged(TBytes, JString(Base64.Encode(b))))
    case ArrayBuffer(b) => Some(Tagged(TArrayBuffer, JString(Base64.Encode(b))))
    case Array(items) =>
      (match PackAll(items)
       case None => None
       case Some(js) => Some(Tagged(TArray, JArray(js))))
    case Object(fields) =>
      (match PackFields(fields)
       case None => None
       case Some(js) => Some(Tagged(TObject, JArray(js))))
    case Other => None
  }

  function PackAll(items: seq<Js>): Option<seq<Json>>
    decreases items, 0
  {
    if items == [] then Some([])
    else
      match (Pack(items[0]), PackAll(items[1..]))
      case (Some(j), Some(js)) => Some([j] + js)
      case _ => None
  }

  function PackFields(fields: seq<Field>): Option<seq<Json>>
    decreases fields, 0
  {
    if fields == [] then Some([])
    else
      match (Pack(fields[0].value), PackFields(fields[1..]))
      case (Some(j), Some(js)) => Some([JArray([JString(fields[0].key), j])] + js)
      case _ => None
  }

  /** `Object.fromEntries`: a repeated key keeps its first place and takes the last value. */
  function FromEntries(fields: seq<Field>): seq<Field> {
    if fields == [] then []
    else SetKey(FromEntries(fields[..|fields| - 1]), fields[|fields| - 1])
  }

  function SetKey(fields: seq<Field>, f: Field): seq<Field> {
    if fields == [] then [f]
    else if fields[0].key == f.key then [f] + fields[1..]
    else [fields[0]] + SetKey(fields[1..], f)
  }

  function BytesOf(tag: Tag, data: Json): Option<Js> {
    if data.JString? && Base64.Shaped(data.s) then
      var b := Base64.Decode(data.s);
      Some(if tag == TBuffer then Buffer(b) else if tag == TBytes then Uint8Array(b) else ArrayBuffer(b))
    else None
  }

  function NumberOf(data: Json): Option<Js> {
    match data
    case JString("NaN") => Some(Number(NotANumber))
    case JString("Infinity") => Some(Number(Infinite))
    case JString("-Infinity") => Some(Number(NegativeInfinite))
    case JString("-0") => Some(Number(NegativeZero))
    case _ => None
  }

  /** None is the "invalid value tag" or "untagged object" error. Elements after the second are ignored. */
  function Unpack(j: Json): Option<Js>
    decreases j, 1
  {
    match j
    case JNull => Some(Null)
    case JBool(b) => Some(Bool(b))
    case JNumber(n) => Some(Number(n))
    case JString(s) => Some(Str(s))
    case JObject(_) => None
    case JArray(items) =>
      if items == [] || !items[0].JString? then None
      else
        match TagOf(items[0].s)
        case None => None
        case Some(tag) =>
          if tag == TUndefined then (if |items| == 1 then Some(Undefined) else None)
          else if |items| < 2 then None
          else UnpackTagged(tag, items[1])
  }

  function UnpackTagged(tag: Tag, data: Json): Option<Js>
    decreases data, 2
  {
    match tag
    case TUndefined => None
    case TBigInt => if data.JString? && IntShaped(data.s) then Some(BigInt(IntOf(data.s))) else None
    case TNumber => NumberOf(data)
    case TBuffer => BytesOf(tag, data)
    case TBytes => BytesOf(tag, data)
    case TArrayBuffer => BytesOf(tag, data)
    case TArray =>
      if !data.JArray? then None
      else
        (match UnpackAll(data.items)
         case None => None
         case Some(vs) => Some(Array(vs)))
    case TObject =>
      if !data.JArray? then None
      else
        match UnpackFields(data.items)
        case None => None
        case Some(fs) => Some(Object(FromEntries(fs)))
  }

  function UnpackAll(items: seq<Json>): Option<seq<Js>>
    decreases items, 0
  {
    if items == [] then Some([])
    else
      match (Unpack(items[0]), UnpackAll(items[1..]))
      case (Some(v), Some(vs)) => Some([v] + vs)
      case _ => None
  }

  function UnpackFields(items: seq<Json>): Option<seq<Field>>
    decreases items, 0
  {
    if items == [] then Some([])
    else if items[0].JArray? && |items[0].items| == 2 && items[0].items[0].JString? then
      match (Unpack(items[0].items[1]), UnpackFields(items[1..]))
      case (Some(v), Some(fs)) => Some([Field(items[0].items[0].s, v)] + fs)
      case _ => None
    else None
  }

  // Which values can be sent

  predicate UniqueKeys(fields: seq<Field>) {
    forall i, j :: 0 <= i < j < |fields| ==> fields[i].key != fields[j].key
  }

  /** Supported all the way down: no foreign prototype, and keys are an object's, so unique. */
  predicate Supported(v: Js)
    decreases v, 1
  {
    match v
    case Array(items) => forall i :: 0 <= i < |items| ==> Supported(items[i])
    case Object(fields) => UniqueKeys(fields) && forall i :: 0 <= i < |fields| ==> Supported(fields[i].value)
    case Other => false
    case _ => true
  }

  lemma {:induction false} SetNewKey(fields: seq<Field>, f: Field)
    requires forall i :: 0 <= i < |fields| ==> fields[i].key != f.key
    ensures SetKey(fields, f) == fields + [f]
  {
    if fields != [] {
      SetNewKey(fields[1..], f);
    }
  }

  lemma {:induction false} EntriesOfUnique(fields: seq<Field>)
    requires UniqueKeys(fields)
    ensures FromEntries(fields) == fields
  {
    if fields != [] {
      var front, last := fields[..|fields| - 1], fields[|fields| - 1];
      EntriesOfUnique(front);
      SetNewKey(front, last);
      assert fields == front + [last];
    }
  }

  lemma UnpackOfTagged(tag: Tag, data: Json)
    requires tag != TUndefined
    ensures Unpack(Tagged(tag, data)) == UnpackTagged(tag, data)
  {
    TagReads(tag);
    hide TagOf, Name;
  }

  /** Every supported value packs, and unpacking gives it back. */
  lemma {:induction false} UnpackPack(v: Js)
    requires Supported(v)
    ensures Pack(v).Some? && Unpack(Pack(v).value) == Some(v)
    decreases v, 1
  {
    hide TagOf, Name;
    match v
    case Undefined => TagReads(TUndefined);
    case Number(n) => UnpackPackNumber(n);
    case BigInt(i) =>
      UnpackOfTagged(TBigInt, JString(IntText(i)));
      IntTextReads(i);
    case Buffer(b) => UnpackPackBytes(TBuffer, b);
    case Uint8Array(b) => UnpackPackBytes(TBytes, b);
    case ArrayBuffer(b) => UnpackPackBytes(TArrayBuffer, b);
    case Array(items) =>
      UnpackPackAll(items);
      UnpackOfTagged(TArray, JArray(PackAll(items).value));
    case Object(fields) =>
      UnpackPackFields(fields);
      EntriesOfUnique(fields);
      UnpackOfTagged(TObject, JArray(PackFields(fields).value));
    case _ =>
  }

  lemma UnpackPackNumber(n: Num)
    ensures Pack(Number(n)).Some? && Unpack(Pack(Number(n)).value) == Some(Number(n))
  {
    hide TagOf, Name;
    if !n.Finite? {
      UnpackOfTagged(TNumber, Pack(Number(n)).value.items[1]);
    }
  }

  lemma UnpackPackBytes(tag: Tag, b: seq<byte>)
    requires tag == TBuffer || tag == TBytes || tag == TArrayBuffer
    ensures Unpack(Tagged(tag, JString(Base64.Encode(b)))) == BytesOf(tag, JString(Base64.Encode(b)))
    ensures Base64.Shaped(Base64.Encode(b)) && Base64.Decode(Base64.Encode(b)) == b
  {
    hide TagOf, Name, Base64.Encode, Base64.Decode, Base64.Shaped;
    UnpackOfTagged(tag, JString(Base64.Encode(b)));
    Base64.DecodeEncode(b);
  }

  lemma {:induction false} UnpackPackAll(items: seq<Js>)
    requires forall i :: 0 <= i < |items| ==> Supported(items[i])
    ensures PackAll(items).Some? && UnpackAll(PackAll(items).value) == Some(items)
    decreases items, 0
  {
    if items != [] {
      UnpackPack(items[0]);
      UnpackPackAll(items[1..]);
      assert PackAll(items).value[1..] == PackAll(items[1..]).value;
      assert items == [items[0]] + items[1..];
    }
  }

  lemma {:induction false} UnpackPackFields(fields: seq<Field>)
    requires forall i :: 0 <= i < |fields| ==> Supported(fields[i].value)
    ensures PackFields(fields).Some? && UnpackFields(PackFields(fields).value) == Some(fields)
    decreases fields, 0
  {
    if fields != [] {
      UnpackPack(fields[0].value);
      UnpackPackFields(fields[1..]);
      assert PackFields(fields).value[1..] == PackFields(fields[1..]).value;
      assert fields == [fields[0]] + fields[1..];
    }
  }

  /** Two different supported values never pack alike, so no value can be mistaken for a tag. */
  lemma PackIsInjective(v: Js, w: Js)
    requires Supported(v) && Supported(w) && Pack(v) == Pack(w)
    ensures v == w
  {
    UnpackPack(v);
    UnpackPack(w);
  }
}
