/**
  The SDK call channel's self-describing value: a tree of lists and maps, at
  most 16 levels deep. Encoding and decoding are inverse; the encoder does not
  check that field names are unique while the decoder does, and exactly that
  decides whether an encoded value can be read.
*/
module SdkValue {
  import opened Wrappers
  import opened Bytes
  import opened Wire
  import opened Codec
  import Utf8

  const MAXIMUM_VALUE_DEPTH := 16
  const MAXIMUM_NAME_BYTES := 64

  datatype Value =
    | Null
    | Bool(b: bool)
    | Int(i: int)
    | Text(s: seq<byte>)
    | Bytes(s: seq<byte>)
    | List(items: seq<Value>)
    | Map(fields: seq<Field>)

  datatype Field = Field(name: seq<byte>, value: Value)

  predicate IsI64(i: int) { -0x8000_0000_0000_0000 <= i < 0x8000_0000_0000_0000 }

  /** A value the Rust type can hold: i64 numbers and UTF-8 texts all the way down. */
  predicate Typed(v: Value) {
    match v
    case Int(i) => IsI64(i)
    case Text(s) => Utf8.Valid(s)
    case List(items) => forall k :: 0 <= k < |items| ==> Typed(items[k])
    case Map(fields) => forall k :: 0 <= k < |fields| ==> Utf8.Valid(fields[k].name) && Typed(fields[k].value)
    case _ => true
  }

  predicate Unique(v: Value) {
    match v
    case List(items) => forall k :: 0 <= k < |items| ==> Unique(items[k])
    case Map(fields) =>
      && (forall j, k :: 0 <= j < k < |fields| ==> fields[j].name != fields[k].name)
      && (forall k :: 0 <= k < |fields| ==> Unique(fields[k].value))
    case _ => true
  }

  /** Two's complement of an i64. */
  function Unsigned64(i: int): nat
    requires IsI64(i)
  {
    if i < 0 then i + 0x1_0000_0000_0000_0000 else i
  }

  function Signed64(n: nat): int
    requires n < 0x1_0000_0000_0000_0000
  {
    if n >= 0x8000_0000_0000_0000 then n - 0x1_0000_0000_0000_0000 else n
  }

  function I64Bytes(i: int): seq<byte> { if IsI64(i) then BigEndian(Unsigned64(i), 8) else [] }

  // Writing: the bytes of a value at a depth. The record limit is applied to the whole.

  function Put(v: Value, depth: nat): Option<seq<byte>>
    decreases v, 1
  {
    if depth > MAXIMUM_VALUE_DEPTH then None
    else
      match v
      case Null => Some([0])
      case Bool(b) => Some(if b then [2] else [1])
      case Int(i) => Some([3] + I64Bytes(i))
      case Text(s) => PutLong(4, s)
      case Bytes(s) => PutLong(5, s)
      case List(items) =>
        (match PutItems(items, depth + 1)
         case None => None
         case Some(b) => Some([6] + BigEndian(|items|, 4) + b))
      case Map(fields) =>
        (match PutFields(fields, depth + 1)
         case None => None
         case Some(b) => Some([7] + BigEndian(|fields|, 4) + b))
  }

  /** A kind byte and a u32 length in front of the bytes. */
  function PutLong(kind: byte, s: seq<byte>): Option<seq<byte>> {
    if |s| >= 0x1_0000_0000 then None else Some([kind] + (BigEndian(|s|, 4) + s))
  }

  function PutItems(items: seq<Value>, depth: nat): Option<seq<byte>>
    decreases items, 0
  {
    if items == [] then Some([])
    else
      match (Put(items[0], depth), PutItems(items[1..], depth))
      case (Some(a), Some(b)) => Some(a + b)
      case _ => None
  }

  function PutName(name: seq<byte>): Option<seq<byte>> {
    if |name| > MAXIMUM_NAME_BYTES then None else Some(BigEndian(|name|, 2) + name)
  }

  function PutFields(fields: seq<Field>, depth: nat): Option<seq<byte>>
    decreases fields, 0
  {
    if fields == [] then Some([])
    else
      match (PutName(fields[0].name), Put(fields[0].value, depth), PutFields(fields[1..], depth))
      case (Some(n), Some(a), Some(b)) => Some(n + a + b)
      case _ => None
  }

  // Reading. `strict` is the source; without it repeated names are let through.

  function Get(b: seq<byte>, depth: nat, strict: bool): (r: Option<(Value, seq<byte>)>)
    ensures r.Some? ==> |r.value.1| < |b|
    decreases |b|, 0
  {
    if depth > MAXIMUM_VALUE_DEPTH || b == [] then None
    else
      var rest := b[1..];
      match b[0]
      case 0 => Some((Null, rest))
      case 1 => Some((Bool(false), rest))
      case 2 => Some((Bool(true), rest))
      case 3 =>
        if |rest| < 8 then None
        else
          Widths();
          BigEndianWrites(rest[..8]);
          Some((Int(Signed64(FromBigEndian(rest[..8]))), rest[8..]))
      case 4 =>
        (match TakenRun(rest, 4, 0xFFFF_FFFF)
         case None => None
         case Some((s, after)) => if Utf8.Valid(s) then Some((Text(s), after)) else None)
      case 5 =>
        (match TakenRun(rest, 4, 0xFFFF_FFFF)
         case None => None
         case Some((s, after)) => Some((Bytes(s), after)))
      case 6 =>
        if |rest| < 4 then None
        else
          (match GetItems(rest[4..], FromBigEndian(rest[..4]), depth + 1, strict)
           case None => None
           case Some((items, after)) => Some((List(items), after)))
      case 7 =>
        if |rest| < 4 then None
        else
          (match GetFields(rest[4..], FromBigEndian(rest[..4]), depth + 1, strict, [])
           case None => None
           case Some((fields, after)) => Some((Map(fields), after)))
      case _ => None
  }

  function GetItems(b: seq<byte>, count: nat, depth: nat, strict: bool): (r: Option<(seq<Value>, seq<byte>)>)
    ensures r.Some? ==> |r.value.1| + count <= |b| && |r.value.0| == count
    decreases |b|, 1
  {
    if count == 0 then Some(([], b))
    else
      match Get(b, depth, strict)
      case None => None
      case Some((v, rest)) =>
        match GetItems(rest, count - 1, depth, strict)
        case None => None
        case Some((vs, after)) => Some(([v] + vs, after))
  }

  predicate Named(fields: seq<Field>, name: seq<byte>) {
    exists k :: 0 <= k < |fields| && fields[k].name == name
  }

  /** `before` are the fields read so far, whose names must not come again. */
  function GetFields(b: seq<byte>, count: nat, depth: nat, strict: bool, before: seq<Field>)
    : (r: Option<(seq<Field>, seq<byte>)>)
    ensures r.Some? ==> |r.value.1| + count <= |b| && |r.value.0| == count
    decreases |b|, 1
  {
    if count == 0 then Some(([], b))
    else
      match TakenRun(b, 2, MAXIMUM_NAME_BYTES)
      case None => None
      case Some((name, rest)) =>
        if !Utf8.Valid(name) || (strict && Named(before, name)) then None
        else
          match Get(rest, depth, strict)
          case None => None
          case Some((v, rest')) =>
            match GetFields(rest', count - 1, depth, strict, before + [Field(name, v)])
            case None => None
            case Some((fs, after)) => Some(([Field(name, v)] + fs, after))
  }

  // Writing then reading

  /** Every list and map is short enough for its u32 count. */
  predicate Sized(v: Value) {
    match v
    case List(items) => |items| < 0x1_0000_0000 && forall k :: 0 <= k < |items| ==> Sized(items[k])
    case Map(fields) => |fields| < 0x1_0000_0000 && forall k :: 0 <= k < |fields| ==> Sized(fields[k].value)
    case _ => true
  }

  lemma I64Reads(i: int)
    requires IsI64(i)
    ensures |I64Bytes(i)| == 8 && FromBigEndian(I64Bytes(i)) < 0x1_0000_0000_0000_0000
    ensures Signed64(FromBigEndian(I64Bytes(i))) == i
  {
    Widths();
    BigEndianReads(Unsigned64(i), 8);
  }

  lemma I64Writes(b: seq<byte>)
    requires |b| == 8
    ensures FromBigEndian(b) < 0x1_0000_0000_0000_0000 && IsI64(Signed64(FromBigEndian(b)))
    ensures I64Bytes(Signed64(FromBigEndian(b))) == b
  {
    Widths();
    BigEndianWrites(b);
  }

  lemma CountReads(n: nat, rest: seq<byte>)
    requires n < 0x1_0000_0000
    ensures var b := BigEndian(n, 4) + rest; FromBigEndian(b[..4]) == n && b[4..] == rest
  {
    Widths();
    BigEndianReads(n, 4);
    Cut(BigEndian(n, 4), rest);
  }

  /** A kind byte in front. */
  lemma KindReads(kind: byte, body: seq<byte>, rest: seq<byte>)
    ensures var b := [kind] + body + rest; b[0] == kind && b[1..] == body + rest
  {
  }

  lemma LongReads(kind: byte, s: seq<byte>, rest: seq<byte>)
    requires |s| < 0x1_0000_0000
    ensures var b := PutLong(kind, s).value + rest; b[0] == kind && TakenRun(b[1..], 4, 0xFFFF_FFFF) == Some((s, rest))
  {
    hide BigEndian, TakenRun;
    KindReads(kind, BigEndian(|s|, 4) + s, rest);
    Widths();
    RunTaken(s, rest, 4, 0xFFFF_FFFF);
  }

  lemma {:induction false} PutGet(v: Value, depth: nat, rest: seq<byte>)
    requires Typed(v) && Sized(v) && Put(v, depth).Some?
    ensures Get(Put(v, depth).value + rest, depth, false) == Some((v, rest))
    decreases v, 1
  {
    hide BigEndian, FromBigEndian, TakenRun, Utf8.Valid;
    match v
    case Null => KindReads(0, [], rest);
    case Bool(b) => KindReads(if b then 2 else 1, [], rest);
    case Int(i) => PutGetInt(i, depth, rest);
    case Text(s) => LongReads(4, s, rest);
    case Bytes(s) => LongReads(5, s, rest);
    case List(items) =>
      var b := PutItems(items, depth + 1).value;
      PutGetItems(items, depth + 1, rest);
      HeaderReads(6, |items|, b, rest);
    case Map(fields) =>
      var b := PutFields(fields, depth + 1).value;
      PutGetFields(fields, depth + 1, [], rest);
      HeaderReads(7, |fields|, b, rest);
  }

  lemma PutGetInt(i: int, depth: nat, rest: seq<byte>)
    requires IsI64(i) && depth <= MAXIMUM_VALUE_DEPTH
    ensures Get([3] + I64Bytes(i) + rest, depth, false) == Some((Int(i), rest))
  {
    hide BigEndian, FromBigEndian, I64Bytes, Signed64;
    I64Reads(i);
    KindReads(3, I64Bytes(i), rest);
    Cut(I64Bytes(i), rest);
  }

  lemma HeaderReads(kind: byte, n: nat, body: seq<byte>, rest: seq<byte>)
    requires n < 0x1_0000_0000
    ensures var b := [kind] + BigEndian(n, 4) + body + rest;
      b[0] == kind && |b[1..]| >= 4 && FromBigEndian(b[1..][..4]) == n && b[1..][4..] == body + rest
  {
    hide BigEndian, FromBigEndian;
    CountReads(n, body + rest);
    var b := [kind] + BigEndian(n, 4) + body + rest;
    assert b[1..] == BigEndian(n, 4) + (body + rest);
  }

  lemma {:induction false} PutGetItems(items: seq<Value>, depth: nat, rest: seq<byte>)
    requires (forall k :: 0 <= k < |items| ==> Typed(items[k]) && Sized(items[k])) && PutItems(items, depth).Some?
    ensures GetItems(PutItems(items, depth).value + rest, |items|, depth, false) == Some((items, rest))
    decreases items, 0
  {
    hide Put, Get, Typed, Sized;
    if items == [] {
      assert PutItems(items, depth).value + rest == rest;
    } else {
      var a, b := Put(items[0], depth).value, PutItems(items[1..], depth).value;
      PutGet(items[0], depth, b + rest);
      PutGetItems(items[1..], depth, rest);
      assert a + b + rest == a + (b + rest);
      assert items == [items[0]] + items[1..];
    }
  }

  lemma {:induction false} PutGetFields(fields: seq<Field>, depth: nat, before: seq<Field>, rest: seq<byte>)
    requires forall k :: 0 <= k < |fields| ==>
      Utf8.Valid(fields[k].name) && Typed(fields[k].value) && Sized(fields[k].value)
    requires PutFields(fields, depth).Some?
    ensures GetFields(PutFields(fields, depth).value + rest, |fields|, depth, false, before) == Some((fields, rest))
    decreases fields, 0
  {
    hide Put, Get, Typed, Sized, BigEndian, TakenRun, Utf8.Valid;
    if fields == [] {
      assert PutFields(fields, depth).value + rest == rest;
    } else {
      var f := fields[0];
      var n, a, b := PutName(f.name).value, Put(f.value, depth).value, PutFields(fields[1..], depth).value;
      Widths();
      RunTaken(f.name, a + (b + rest), 2, MAXIMUM_NAME_BYTES);
      PutGet(f.value, depth, b + rest);
      PutGetFields(fields[1..], depth, before + [f], rest);
      assert n + a + b + rest == n + (a + (b + rest));
      assert fields == [f] + fields[1..];
    }
  }

  // Reading then writing

  /** What was read is well formed, and its bytes and the rest are what it was read from. */
  predicate Rewrites(b: seq<byte>, depth: nat, r: Option<(Value, seq<byte>)>) {
    r.Some? ==>
      Typed(r.value.0) && Sized(r.value.0) && Put(r.value.0, depth).Some?
        && b == Put(r.value.0, depth).value + r.value.1
  }

  lemma {:induction false} GetPut(b: seq<byte>, depth: nat)
    requires Get(b, depth, false).Some?
    ensures Rewrites(b, depth, Get(b, depth, false))
    decreases |b|, 0
  {
    hide BigEndian, FromBigEndian, TakenRun, Utf8.Valid, I64Bytes, Signed64, PutItems, PutFields, GetItems, GetFields;
    assert b == [b[0]] + b[1..];
    match b[0]
    case 3 => GetPutInt(b, depth);
    case 4 => LongWrites(b);
    case 5 => LongWrites(b);
    case 6 =>
      HeaderWrites(b);
      GetPutItems(b[5..], FromBigEndian(b[1..][..4]), depth + 1);
    case 7 =>
      HeaderWrites(b);
      GetPutFields(b[5..], FromBigEndian(b[1..][..4]), depth + 1, []);
    case _ =>
  }

  lemma GetPutInt(b: seq<byte>, depth: nat)
    requires b != [] && b[0] == 3 && Get(b, depth, false).Some?
    ensures Rewrites(b, depth, Get(b, depth, false))
  {
    hide FromBigEndian, I64Bytes, Signed64;
    I64Writes(b[1..][..8]);
    assert b == [b[0]] + b[1..];
    assert b[1..] == b[1..][..8] + b[1..][8..];
  }

  lemma LongWrites(b: seq<byte>)
    requires b != [] && TakenRun(b[1..], 4, 0xFFFF_FFFF).Some?
    ensures var (s, rest) := TakenRun(b[1..], 4, 0xFFFF_FFFF).value;
      |s| < 0x1_0000_0000 && b == PutLong(b[0], s).value + rest
  {
    hide BigEndian, TakenRun;
    TakenIsRun(b[1..], 4, 0xFFFF_FFFF);
    assert b == [b[0]] + b[1..];
  }

  lemma HeaderWrites(b: seq<byte>)
    requires |b| >= 5
    ensures b[1..][4..] == b[5..] && FromBigEndian(b[1..][..4]) < 0x1_0000_0000
    ensures b == [b[0]] + BigEndian(FromBigEndian(b[1..][..4]), 4) + b[5..]
  {
    hide BigEndian, FromBigEndian;
    Widths();
    BigEndianWrites(b[1..][..4]);
    assert b == [b[0]] + b[1..][..4] + b[5..];
  }

  lemma {:induction false} GetPutItems(b: seq<byte>, count: nat, depth: nat)
    requires GetItems(b, count, depth, false).Some?
    ensures var (vs, rest) := GetItems(b, count, depth, false).value;
      && (forall k :: 0 <= k < |vs| ==> Typed(vs[k]) && Sized(vs[k]))
      && PutItems(vs, depth).Some? && b == PutItems(vs, depth).value + rest
    decreases |b|, 1
  {
    hide Put, Get, Typed, Sized;
    if count > 0 {
      GetPut(b, depth);
      var (v, mid) := Get(b, depth, false).value;
      GetPutItems(mid, count - 1, depth);
      var (vs, rest) := GetItems(mid, count - 1, depth, false).value;
      assert ([v] + vs)[1..] == vs;
      assert Put(v, depth).value + (PutItems(vs, depth).value + rest) ==
        Put(v, depth).value + PutItems(vs, depth).value + rest;
    }
  }

  lemma {:induction false} GetPutFields(b: seq<byte>, count: nat, depth: nat, before: seq<Field>)
    requires GetFields(b, count, depth, false, before).Some?
    ensures var (fs, rest) := GetFields(b, count, depth, false, before).value;
      && (forall k :: 0 <= k < |fs| ==> Utf8.Valid(fs[k].name) && Typed(fs[k].value) && Sized(fs[k].value))
      && PutFields(fs, depth).Some? && b == PutFields(fs, depth).value + rest
    decreases |b|, 1
  {
    hide Put, Get, Typed, Sized, BigEndian, TakenRun, Utf8.Valid;
    if count > 0 {
      TakenIsRun(b, 2, MAXIMUM_NAME_BYTES);
      var (name, next) := TakenRun(b, 2, MAXIMUM_NAME_BYTES).value;
      GetPut(next, depth);
      var (v, mid) := Get(next, depth, false).value;
      var f := Field(name, v);
      GetPutFields(mid, count - 1, depth, before + [f]);
      var (fs, rest) := GetFields(mid, count - 1, depth, false, before + [f]).value;
      assert ([f] + fs)[1..] == fs;
      var n, a, c := BigEndian(|name|, 2) + name, Put(v, depth).value, PutFields(fs, depth).value;
      assert n + (a + (c + rest)) == n + a + c + rest;
    }
  }

  // Field names

  /** No name of `fields` is among `before` or comes twice, and every value is unique below. */
  predicate Fresh(before: seq<Field>, fields: seq<Field>) {
    && (forall k :: 0 <= k < |fields| ==> !Named(before, fields[k].name) && Unique(fields[k].value))
    && (forall j, k :: 0 <= j < k < |fields| ==> fields[j].name != fields[k].name)
  }

  function Only<T>(r: Option<(T, seq<byte>)>, keep: bool): Option<(T, seq<byte>)> { if keep then r else None }

  /** The source's reader is the lenient one with repeated names refused. */
  lemma {:induction false} StrictIsUnique(b: seq<byte>, depth: nat)
    ensures var r := Get(b, depth, false); Get(b, depth, true) == Only(r, r.Some? && Unique(r.value.0))
    decreases |b|, 0
  {
    hide FromBigEndian, TakenRun, Utf8.Valid, Signed64;
    if |b| >= 5 && b[0] == 6 {
      StrictItems(b[1..][4..], FromBigEndian(b[1..][..4]), depth + 1);
    } else if |b| >= 5 && b[0] == 7 {
      StrictFields(b[1..][4..], FromBigEndian(b[1..][..4]), depth + 1, []);
    }
  }

  lemma {:induction false} StrictItems(b: seq<byte>, count: nat, depth: nat)
    ensures var r := GetItems(b, count, depth, false);
      GetItems(b, count, depth, true) == Only(r, r.Some? && forall k :: 0 <= k < |r.value.0| ==> Unique(r.value.0[k]))
    decreases |b|, 1
  {
    hide Get, Unique;
    if count > 0 {
      StrictIsUnique(b, depth);
      if Get(b, depth, false).Some? {
        var (v, rest) := Get(b, depth, false).value;
        StrictItems(rest, count - 1, depth);
        var r := GetItems(rest, count - 1, depth, false);
        if r.Some? {
          assert ([v] + r.value.0)[1..] == r.value.0 && ([v] + r.value.0)[0] == v;
          assert forall k :: 0 <= k < |r.value.0| ==> ([v] + r.value.0)[k + 1] == r.value.0[k];
        }
      }
    }
  }

  lemma FreshStep(before: seq<Field>, f: Field, fs: seq<Field>)
    ensures Fresh(before, [f] + fs) <==> !Named(before, f.name) && Unique(f.value) && Fresh(before + [f], fs)
  {
    hide Unique;
    var all := [f] + fs;
    assert all[0] == f && forall k :: 0 <= k < |fs| ==> all[k + 1] == fs[k];
    assert forall name :: Named(before + [f], name) <==> Named(before, name) || f.name == name by {
      forall name ensures Named(before + [f], name) <==> Named(before, name) || f.name == name {
        var more := before + [f];
        assert more[|before|] == f;
        if Named(before, name) {
          var k :| 0 <= k < |before| && before[k].name == name;
          assert more[k] == before[k];
        }
      }
    }
    assert forall k :: 0 < k < |all| ==> all[k] == fs[k - 1];
    if Fresh(before, all) {
      forall k | 0 <= k < |fs| ensures !Named(before + [f], fs[k].name) && Unique(fs[k].value) {
        assert all[0].name != all[k + 1].name;
      }
    }
  }

  lemma {:induction false} StrictFields(b: seq<byte>, count: nat, depth: nat, before: seq<Field>)
    ensures var r := GetFields(b, count, depth, false, before);
      GetFields(b, count, depth, true, before) == Only(r, r.Some? && Fresh(before, r.value.0))
    decreases |b|, 1
  {
    hide Get, Unique, TakenRun, Utf8.Valid, Fresh, Named;
    if count == 0 {
      assert Fresh(before, []) by {
        FreshNone(before);
      }
    } else if TakenRun(b, 2, MAXIMUM_NAME_BYTES).Some? {
      var (name, next) := TakenRun(b, 2, MAXIMUM_NAME_BYTES).value;
      TakenIsRun(b, 2, MAXIMUM_NAME_BYTES);
      StrictIsUnique(next, depth);
      if Get(next, depth, false).Some? {
        var (v, mid) := Get(next, depth, false).value;
        var f := Field(name, v);
        StrictFields(mid, count - 1, depth, before + [f]);
        var r := GetFields(mid, count - 1, depth, false, before + [f]);
        if r.Some? {
          FreshStep(before, f, r.value.0);
        }
      }
    }
  }

  lemma FreshNone(before: seq<Field>)
    ensures Fresh(before, [])
  {
  }

  /**
    Any value a Rust caller can build that encodes reads back as itself when its
    names are unique, and is refused by the reader exactly when they are not.
  */
  lemma UniqueNamesDecide(v: Value, depth: nat, rest: seq<byte>)
    requires Typed(v) && Put(v, depth).Some? && |Put(v, depth).value| <= LIMIT
    ensures Get(Put(v, depth).value + rest, depth, true) == if Unique(v) then Some((v, rest)) else None
  {
    hide Put, Get, Typed, Unique;
    PutSized(v, depth);
    PutGet(v, depth, rest);
    StrictIsUnique(Put(v, depth).value + rest, depth);
  }

  /** Two fields of one name are written, and what is written is refused. */
  lemma RepeatedNameIsRefused()
    ensures var v := Map([Field([97], Null), Field([97], Null)]);
      Put(v, 0).Some? && Get(Put(v, 0).value, 0, true) == None
  {
    hide BigEndian;
    var f := Field([97], Null);
    var v := Map([f, f]);
    assert [f, f][1..] == [f] && [f][1..] == [];
    assert PutFields([f], 1).Some? && |PutFields([f], 1).value| == 4;
    assert PutFields([f, f], 1).Some? && |PutFields([f, f], 1).value| == 8;
    assert Typed(v) && !Unique(v) by {
      assert v.fields[0].name == v.fields[1].name;
      assert Utf8.Valid([97]);
    }
    UniqueNamesDecide(v, 0, []);
    assert Put(v, 0).value + [] == Put(v, 0).value;
  }

  // Sizes

  /** Values in the tree. */
  function Nodes(v: Value): nat
    decreases v, 1
  {
    match v
    case List(items) => 1 + NodesOf(items)
    case Map(fields) => 1 + NodesOfFields(fields)
    case _ => 1
  }

  function NodesOf(items: seq<Value>): nat
    decreases items, 0
  {
    if items == [] then 0 else Nodes(items[0]) + NodesOf(items[1..])
  }

  function NodesOfFields(fields: seq<Field>): nat
    decreases fields, 0
  {
    if fields == [] then 0 else Nodes(fields[0].value) + NodesOfFields(fields[1..])
  }

  /** A value takes at least one byte for each of its values. */
  lemma {:induction false} PutNodes(v: Value, depth: nat)
    requires Put(v, depth).Some?
    ensures Nodes(v) <= |Put(v, depth).value|
    decreases v, 1
  {
    hide BigEndian;
    match v
    case List(items) => PutNodesOf(items, depth + 1);
    case Map(fields) => PutNodesOfFields(fields, depth + 1);
    case _ =>
  }

  lemma {:induction false} PutNodesOf(items: seq<Value>, depth: nat)
    requires PutItems(items, depth).Some?
    ensures NodesOf(items) <= |PutItems(items, depth).value| && |items| <= NodesOf(items)
    decreases items, 0
  {
    if items != [] {
      PutNodes(items[0], depth);
      PutNodesOf(items[1..], depth);
    }
  }

  lemma {:induction false} PutNodesOfFields(fields: seq<Field>, depth: nat)
    requires PutFields(fields, depth).Some?
    ensures NodesOfFields(fields) <= |PutFields(fields, depth).value| && |fields| <= NodesOfFields(fields)
    decreases fields, 0
  {
    if fields != [] {
      PutNodes(fields[0].value, depth);
      PutNodesOfFields(fields[1..], depth);
    }
  }

  // What the reader does with any bytes, accepted or refused

  /** How often `value` is called. */
  function Visits(b: seq<byte>, depth: nat): nat
    decreases |b|, 0
  {
    if depth > MAXIMUM_VALUE_DEPTH || |b| < 5 then 1
    else if b[0] == 6 then 1 + ItemVisits(b[1..][4..], FromBigEndian(b[1..][..4]), depth + 1)
    else if b[0] == 7 then 1 + FieldVisits(b[1..][4..], FromBigEndian(b[1..][..4]), depth + 1, [])
    else 1
  }

  function ItemVisits(b: seq<byte>, count: nat, depth: nat): nat
    decreases |b|, 1
  {
    if count == 0 then 0
    else Visits(b, depth) + match Get(b, depth, true) case None => 0
      case Some((_, rest)) => ItemVisits(rest, count - 1, depth)
  }

  function FieldVisits(b: seq<byte>, count: nat, depth: nat, before: seq<Field>): nat
    decreases |b|, 1
  {
    if count == 0 then 0
    else
      match TakenRun(b, 2, MAXIMUM_NAME_BYTES)
      case None => 0
      case Some((name, rest)) =>
        if !Utf8.Valid(name) || Named(before, name) then 0
        else
          Visits(rest, depth)
          + match Get(rest, depth, true)
            case None => 0
            case Some((v, rest')) => FieldVisits(rest', count - 1, depth, before + [Field(name, v)])
  }

  /** The bytes a successful read consumed; for a refused one, all it was given. */
  function Used<T>(b: seq<byte>, r: Option<(T, seq<byte>)>): int { if r.Some? then |b| - |r.value.1| else |b| }

  /**
    Whatever counts a record claims, accepted or not, `value` is called at most
    once per byte and once more; and when it succeeds, at most once per byte it
    consumed.
  */
  lemma {:induction false} VisitsAreFew(b: seq<byte>, depth: nat)
    ensures Visits(b, depth) <= |b| + 1
    ensures Get(b, depth, true).Some? ==> Visits(b, depth) <= Used(b, Get(b, depth, true))
    decreases |b|, 0
  {
    hide FromBigEndian, TakenRun, Utf8.Valid, Signed64, GetItems, GetFields, ItemVisits, FieldVisits;
    if |b| >= 5 && depth <= MAXIMUM_VALUE_DEPTH && b[0] == 6 {
      ItemVisitsAreFew(b[1..][4..], FromBigEndian(b[1..][..4]), depth + 1);
    } else if |b| >= 5 && depth <= MAXIMUM_VALUE_DEPTH && b[0] == 7 {
      FieldVisitsAreFew(b[1..][4..], FromBigEndian(b[1..][..4]), depth + 1, []);
    }
  }

  lemma {:induction false} ItemVisitsAreFew(b: seq<byte>, count: nat, depth: nat)
    ensures ItemVisits(b, count, depth) <= |b| + 1
    ensures var r := GetItems(b, count, depth, true); r.Some? ==> ItemVisits(b, count, depth) <= Used(b, r)
    decreases |b|, 1
  {
    hide Get, Visits;
    if count > 0 {
      VisitsAreFew(b, depth);
      if Get(b, depth, true).Some? {
        ItemVisitsAreFew(Get(b, depth, true).value.1, count - 1, depth);
      }
    }
  }

  lemma {:induction false} FieldVisitsAreFew(b: seq<byte>, count: nat, depth: nat, before: seq<Field>)
    ensures FieldVisits(b, count, depth, before) <= |b| + 1
    ensures var r := GetFields(b, count, depth, true, before);
      r.Some? ==> FieldVisits(b, count, depth, before) <= Used(b, r)
    decreases |b|, 1
  {
    hide Get, Visits, TakenRun, Utf8.Valid, Named;
    if count > 0 && TakenRun(b, 2, MAXIMUM_NAME_BYTES).Some? {
      TakenIsRun(b, 2, MAXIMUM_NAME_BYTES);
      var (name, next) := TakenRun(b, 2, MAXIMUM_NAME_BYTES).value;
      VisitsAreFew(next, depth);
      if Get(next, depth, true).Some? {
        var (v, mid) := Get(next, depth, true).value;
        FieldVisitsAreFew(mid, count - 1, depth, before + [Field(name, v)]);
      }
    }
  }

  /** How many values are built, those inside a list or map that is refused later included. */
  function Built(b: seq<byte>, depth: nat): nat
    decreases |b|, 0
  {
    match Get(b, depth, true)
    case Some((v, _)) => Nodes(v)
    case None =>
      if depth > MAXIMUM_VALUE_DEPTH || |b| < 5 then 0
      else if b[0] == 6 then ItemsBuilt(b[1..][4..], FromBigEndian(b[1..][..4]), depth + 1)
      else if b[0] == 7 then FieldsBuilt(b[1..][4..], FromBigEndian(b[1..][..4]), depth + 1, [])
      else 0
  }

  function ItemsBuilt(b: seq<byte>, count: nat, depth: nat): nat
    decreases |b|, 1
  {
    if count == 0 then 0
    else Built(b, depth) + match Get(b, depth, true) case None => 0
      case Some((_, rest)) => ItemsBuilt(rest, count - 1, depth)
  }

  function FieldsBuilt(b: seq<byte>, count: nat, depth: nat, before: seq<Field>): nat
    decreases |b|, 1
  {
    if count == 0 then 0
    else
      match TakenRun(b, 2, MAXIMUM_NAME_BYTES)
      case None => 0
      case Some((name, rest)) =>
        if !Utf8.Valid(name) || Named(before, name) then 0
        else
          Built(rest, depth)
          + match Get(rest, depth, true)
            case None => 0
            case Some((v, rest')) => FieldsBuilt(rest', count - 1, depth, before + [Field(name, v)])
  }

  /** At most one value is built for each byte an accepted read consumes, or for each byte given to a refused one. */
  lemma {:induction false} BuiltAreFew(b: seq<byte>, depth: nat)
    ensures Built(b, depth) <= Used(b, Get(b, depth, true))
    decreases |b|, 0
  {
    hide FromBigEndian, Get, ItemsBuilt, FieldsBuilt, Nodes;
    if Get(b, depth, true).Some? {
      ReadNodes(b, depth);
    } else if |b| >= 5 && depth <= MAXIMUM_VALUE_DEPTH && b[0] == 6 {
      ItemsBuiltAreFew(b[1..][4..], FromBigEndian(b[1..][..4]), depth + 1);
    } else if |b| >= 5 && depth <= MAXIMUM_VALUE_DEPTH && b[0] == 7 {
      FieldsBuiltAreFew(b[1..][4..], FromBigEndian(b[1..][..4]), depth + 1, []);
    }
  }

  lemma {:induction false} ItemsBuiltAreFew(b: seq<byte>, count: nat, depth: nat)
    ensures ItemsBuilt(b, count, depth) <= |b|
    decreases |b|, 1
  {
    hide Get, Built;
    if count > 0 {
      BuiltAreFew(b, depth);
      if Get(b, depth, true).Some? {
        ItemsBuiltAreFew(Get(b, depth, true).value.1, count - 1, depth);
      }
    }
  }

  lemma {:induction false} FieldsBuiltAreFew(b: seq<byte>, count: nat, depth: nat, before: seq<Field>)
    ensures FieldsBuilt(b, count, depth, before) <= |b|
    decreases |b|, 1
  {
    hide Get, Built, TakenRun, Utf8.Valid, Named;
    if count > 0 && TakenRun(b, 2, MAXIMUM_NAME_BYTES).Some? {
      TakenIsRun(b, 2, MAXIMUM_NAME_BYTES);
      var (name, next) := TakenRun(b, 2, MAXIMUM_NAME_BYTES).value;
      BuiltAreFew(next, depth);
      if Get(next, depth, true).Some? {
        var (v, mid) := Get(next, depth, true).value;
        FieldsBuiltAreFew(mid, count - 1, depth, before + [Field(name, v)]);
      }
    }
  }

  lemma ReadNodes(b: seq<byte>, depth: nat)
    requires Get(b, depth, true).Some?
    ensures var (v, rest) := Get(b, depth, true).value; Nodes(v) <= |b| - |rest|
  {
    hide Put, Get, Nodes, Unique;
    StrictIsUnique(b, depth);
    GetPut(b, depth);
    PutNodes(Get(b, depth, false).value.0, depth);
  }

  /** A value that fits a record has counts that fit. */
  lemma {:induction false} PutSized(v: Value, depth: nat)
    requires Put(v, depth).Some? && |Put(v, depth).value| <= LIMIT
    ensures Sized(v)
    decreases v, 1
  {
    match v
    case List(items) =>
      PutNodesOf(items, depth + 1);
      PutSizedItems(items, depth + 1);
    case Map(fields) =>
      PutNodesOfFields(fields, depth + 1);
      PutSizedFields(fields, depth + 1);
    case _ =>
  }

  lemma {:induction false} PutSizedItems(items: seq<Value>, depth: nat)
    requires PutItems(items, depth).Some? && |PutItems(items, depth).value| <= LIMIT
    ensures forall k :: 0 <= k < |items| ==> Sized(items[k])
    decreases items, 0
  {
    hide Put, Sized;
    if items != [] {
      PutSized(items[0], depth);
      PutSizedItems(items[1..], depth);
      assert forall k :: 0 < k < |items| ==> items[k] == items[1..][k - 1];
    }
  }

  lemma {:induction false} PutSizedFields(fields: seq<Field>, depth: nat)
    requires PutFields(fields, depth).Some? && |PutFields(fields, depth).value| <= LIMIT
    ensures forall k :: 0 <= k < |fields| ==> Sized(fields[k].value)
    decreases fields, 0
  {
    hide Put, Sized;
    if fields != [] {
      PutSized(fields[0].value, depth);
      PutSizedFields(fields[1..], depth);
      assert forall k :: 0 < k < |fields| ==> fields[k] == fields[1..][k - 1];
    }
  }

  // The value as a field of a record

  function ValueField(): Codec<Value> {
    Codec(
      v => Typed(v) && Unique(v),
      Same,
      (at: nat, v) => match Put(v, 0) case None => None case Some(b) => Raw(at, b),
      b => Get(b, 0, true))
  }

  /** Encoding and decoding a value are mutually inverse, and a value is never a prefix of another. */
  lemma ValueFieldLaw()
    ensures Lawful(ValueField()) && Exact(ValueField())
  {
    hide Put, Get, Typed, Unique, Sized;
    var c := ValueField();
    forall at: nat, v ensures WritesBack(c, at, v) {
      if at <= LIMIT && c.ok(v) && c.put(at, v).Some? {
        var b := Put(v, 0).value;
        forall rest: seq<byte> ensures c.get(b + rest) == Some((v, rest)) {
          UniqueNamesDecide(v, 0, rest);
        }
      }
    }
    forall b ensures ReadsPrefix(c, b) {
      ValueReads(b);
    }
    forall at: nat, b ensures ExactAt(c, at, b) {
      ValueReads(b);
    }
  }

  lemma ValueReads(b: seq<byte>)
    ensures ReadsPrefix(ValueField(), b) && forall at: nat :: ExactAt(ValueField(), at, b)
  {
    hide Put, Get, Typed, Unique, Sized;
    StrictIsUnique(b, 0);
    if Get(b, 0, true).Some? {
      GetPut(b, 0);
      var (v, rest) := Get(b, 0, true).value;
      var p := Put(v, 0).value;
      assert b[..|b| - |rest|] == p;
      forall more: seq<byte> ensures Get(b + more, 0, true) == Some((v, rest + more)) {
        PutGet(v, 0, rest + more);
        assert b + more == p + (rest + more);
        StrictIsUnique(b + more, 0);
      }
    }
  }
}
