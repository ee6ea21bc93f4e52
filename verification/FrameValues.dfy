/**
  Framed values end to end: what one side frames and writes, the other side
  receives as the same values in the same order, however the stream is cut.
  JSON text is a parameter, taken to give back the trees it was written from.
*/
module FrameValues {
  import opened Wrappers
  import opened Bytes
  import opened PackedValue
  import opened FrameStream

  /** JSON.stringify as UTF-8, and JSON.parse; None is a parse error. */
  datatype JsonText = JsonText(write: Json -> seq<byte>, read: seq<byte> -> Option<Json>)

  /** A tree without JSON objects and of finite numbers other than -0: the only trees the packer builds. */
  predicate Plain(j: Json) {
    match j
    case JNumber(n) => n.Finite?
    case JArray(items) => forall i :: 0 <= i < |items| ==> Plain(items[i])
    case JObject(_) => false
    case _ => true
  }

  ghost predicate Lossless(t: JsonText) {
    forall j :: Plain(j) ==> t.read(t.write(j)) == Some(j)
  }

  const WIRE_TAG := "layerfs-worker"

  /** The wire version: the number 1. */
  const VERSION := Finite(0x3FF0_0000_0000_0000)

  function Encode(t: JsonText, v: Js): Option<seq<byte>> {
    match Pack(v)
    case None => None
    case Some(j) => Some(t.write(JArray([JString(WIRE_TAG), JNumber(VERSION), j])))
  }

  function Decode(t: JsonText, bytes: seq<byte>): Option<Js> {
    match t.read(bytes)
    case Some(JArray(items)) =>
      if |items| == 3 && items[0] == JString(WIRE_TAG) && items[1] == JNumber(VERSION) then Unpack(items[2]) else None
    case _ => None
  }

  /** A frame; None when the value cannot be packed or its length does not fit 4 bytes. */
  function Frame(t: JsonText, v: Js): Option<seq<byte>> {
    match Encode(t, v)
    case None => None
    case Some(payload) => if |payload| >= 0x1_0000_0000 then None else Some(BigEndian(|payload|, 4) + payload)
  }

  function Frames(t: JsonText, vs: seq<Js>): Option<seq<byte>> {
    if vs == [] then Some([])
    else
      match (Frame(t, vs[0]), Frames(t, vs[1..]))
      case (Some(f), Some(rest)) => Some(f + rest)
      case _ => None
  }

  lemma {:induction false} PackedIsPlain(v: Js)
    requires Pack(v).Some?
    ensures Plain(Pack(v).value)
    decreases v, 1
  {
    hide Name;
    match v
    case Array(items) => AllPlain(items);
    case Object(fields) => FieldsPlain(fields);
    case _ =>
  }

  lemma {:induction false} AllPlain(items: seq<Js>)
    requires PackAll(items).Some?
    ensures forall i :: 0 <= i < |PackAll(items).value| ==> Plain(PackAll(items).value[i])
    decreases items, 0
  {
    if items != [] {
      PackedIsPlain(items[0]);
      AllPlain(items[1..]);
    }
  }

  lemma {:induction false} FieldsPlain(fields: seq<Field>)
    requires PackFields(fields).Some?
    ensures forall i :: 0 <= i < |PackFields(fields).value| ==> Plain(PackFields(fields).value[i])
    decreases fields, 0
  {
    if fields != [] {
      PackedIsPlain(fields[0].value);
      FieldsPlain(fields[1..]);
    }
  }

  /** A supported value survives its payload. */
  lemma DecodeEncode(t: JsonText, v: Js)
    requires Lossless(t) && Supported(v)
    ensures Encode(t, v).Some? && Decode(t, Encode(t, v).value) == Some(v)
  {
    UnpackPack(v);
    PackedIsPlain(v);
    var j := JArray([JString(WIRE_TAG), JNumber(VERSION), Pack(v).value]);
    assert Plain(j);
    assert t.read(t.write(j)) == Some(j);
  }

  function WorkerProtocol(t: JsonText, limit: Option<nat>): Protocol<Js> {
    Protocol(b => Decode(t, b), limit)
  }

  lemma {:induction false} StreamOfFrames(t: JsonText, limit: Option<nat>, vs: seq<Js>, first: bool)
    requires Lossless(t) && (forall i :: 0 <= i < |vs| ==> Supported(vs[i])) && Frames(t, vs).Some?
    requires first && vs != [] && limit.Some? ==> |Encode(t, vs[0]).value| <= limit.value
    ensures Parse(WorkerProtocol(t, limit), Frames(t, vs).value, first) == Parsed(vs, None)
  {
    hide Supported, Encode, Decode, BigEndian, Lossless;
    if vs != [] {
      var payload, rest := Encode(t, vs[0]).value, Frames(t, vs[1..]).value;
      DecodeEncode(t, vs[0]);
      StreamOfFrames(t, limit, vs[1..], false);
      ParseFrame(WorkerProtocol(t, limit), payload, vs[0], rest, first);
      assert vs == [vs[0]] + vs[1..];
    }
  }

  /** Any supported values, framed and concatenated, are received in order under any chunking. */
  method Receive(t: JsonText, limit: Option<nat>, vs: seq<Js>, chunks: seq<seq<byte>>)
    returns (values: seq<Js>, bad: seq<Failure>)
    requires Lossless(t) && (forall i :: 0 <= i < |vs| ==> Supported(vs[i]))
    requires Frames(t, vs) == Some(Flat(chunks))
    requires vs != [] && limit.Some? ==> |Encode(t, vs[0]).value| <= limit.value
    ensures values == vs && bad == []
  {
    StreamOfFrames(t, limit, vs, true);
    values, bad := ReadChunks(WorkerProtocol(t, limit), chunks);
  }
}
