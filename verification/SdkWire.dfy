/** The SDK channel's writer and reader, step by step over one record, and its call and refusal records. */
module SdkWire {
  import opened Wrappers
  import opened Bytes
  import opened Wire
  import opened Codec
  import opened SdkValue
  import Utf8

  /** A kind byte, a u32 length and the bytes. */
  method PutLongRun(out: Writer, kind: byte, s: seq<byte>) returns (ok: bool)
    modifies out
    ensures ok <==> Fit(|old(out.data)|, PutLong(kind, s))
    ensures ok ==> out.data == old(out.data) + PutLong(kind, s).value
  {
    hide BigEndian;
    ok := out.Byte(kind);
    if !ok || |s| >= 0x1_0000_0000 {
      return false;
    }
    ok := out.Put(BigEndian(|s|, 4));
    if ok {
      ok := out.Put(s);
    }
  }

  /** `put_value`: appends the value's bytes, or fails exactly when they do not exist or do not fit. */
  method PutValue(out: Writer, v: Value, depth: nat) returns (ok: bool)
    requires Typed(v) && |out.data| <= LIMIT
    modifies out
    ensures ok <==> Fit(|old(out.data)|, Put(v, depth))
    ensures ok ==> out.data == old(out.data) + Put(v, depth).value
    decreases v, 1
  {
    hide BigEndian, I64Bytes, PutItems, PutFields, PutLong, Utf8.Valid;
    if depth > MAXIMUM_VALUE_DEPTH {
      return false;
    }
    match v
    case Null => ok := out.Byte(0);
    case Bool(b) => ok := out.Byte(if b then 2 else 1);
    case Int(i) =>
      I64Reads(i);
      ok := out.Byte(3);
      if ok {
        ok := out.Put(I64Bytes(i));
      }
    case Text(s) => ok := PutLongRun(out, 4, s);
    case Bytes(s) => ok := PutLongRun(out, 5, s);
    case List(items) =>
      ok := PutHeader(out, 6, |items|);
      if ok {
        ok := PutAll(out, items, depth + 1);
      }
    case Map(fields) =>
      ok := PutHeader(out, 7, |fields|);
      if ok {
        ok := PutAllFields(out, fields, depth + 1);
      }
  }

  /** The kind and the count, cast to u32, of a list or map. */
  method PutHeader(out: Writer, kind: byte, count: nat) returns (ok: bool)
    modifies out
    ensures ok <==> |old(out.data)| + 5 <= LIMIT
    ensures ok ==> out.data == old(out.data) + ([kind] + BigEndian(count, 4))
  {
    hide BigEndian;
    ok := out.Byte(kind);
    if ok {
      ok := out.Put(BigEndian(count, 4));
    }
  }

  method PutAll(out: Writer, items: seq<Value>, depth: nat) returns (ok: bool)
    requires |out.data| <= LIMIT && forall k :: 0 <= k < |items| ==> Typed(items[k])
    modifies out
    ensures ok <==> Fit(|old(out.data)|, PutItems(items, depth))
    ensures ok ==> out.data == old(out.data) + PutItems(items, depth).value
    decreases items, 0
  {
    hide Put, Typed;
    ghost var start := out.data;
    ghost var done := [];
    var k := 0;
    assert items[0..] == items;
    PrependsNothing(PutItems(items, depth));
    while k < |items|
      invariant 0 <= k <= |items|
      invariant out.data == start + done
      invariant PutItems(items, depth) == Prepend(done, PutItems(items[k..], depth))
      invariant |out.data| <= LIMIT
    {
      assert items[k..][0] == items[k] && items[k..][1..] == items[k + 1..];
      assert items[k] in items;
      ok := PutValue(out, items[k], depth);
      if !ok {
        return false;
      }
      ghost var a := Put(items[k], depth).value;
      assert PutItems(items[k..], depth) == Prepend(a, PutItems(items[k + 1..], depth));
      Prepends(done, a, PutItems(items[k + 1..], depth));
      done := done + a;
      k := k + 1;
    }
    assert items[k..] == [];
    return true;
  }

  method PutAllFields(out: Writer, fields: seq<Field>, depth: nat) returns (ok: bool)
    requires |out.data| <= LIMIT
    requires forall k :: 0 <= k < |fields| ==> Utf8.Valid(fields[k].name) && Typed(fields[k].value)
    modifies out
    ensures ok <==> Fit(|old(out.data)|, PutFields(fields, depth))
    ensures ok ==> out.data == old(out.data) + PutFields(fields, depth).value
    decreases fields, 0
  {
    hide Put, Typed, BigEndian, Utf8.Valid;
    ghost var start := out.data;
    ghost var done := [];
    var k := 0;
    assert fields[0..] == fields;
    PrependsNothing(PutFields(fields, depth));
    while k < |fields|
      invariant 0 <= k <= |fields|
      invariant out.data == start + done
      invariant PutFields(fields, depth) == Prepend(done, PutFields(fields[k..], depth))
      invariant |out.data| <= LIMIT
    {
      assert fields[k..][0] == fields[k] && fields[k..][1..] == fields[k + 1..];
      assert fields[k] in fields;
      if |fields[k].name| > MAXIMUM_NAME_BYTES {
        return false;
      }
      ok := out.Blob(fields[k].name);
      if !ok {
        return false;
      }
      ok := PutValue(out, fields[k].value, depth);
      if !ok {
        return false;
      }
      ghost var a := PutName(fields[k].name).value + Put(fields[k].value, depth).value;
      assert PutFields(fields[k..], depth) == Prepend(a, PutFields(fields[k + 1..], depth));
      Prepends(done, a, PutFields(fields[k + 1..], depth));
      done := done + a;
      k := k + 1;
    }
    assert fields[k..] == [];
    return true;
  }

  /** `long`: a u32 length and that many bytes. */
  method ReadLong(input: Reader) returns (r: Option<seq<byte>>)
    requires input.Valid()
    modifies input`position
    ensures input.Valid()
    ensures match TakenRun(old(input.Rest()), 4, 0xFFFF_FFFF)
      case None => r == None
      case Some((s, rest)) => r == Some(s) && input.Rest() == rest
  {
    hide FromBigEndian;
    Widths();
    if |input.Rest()| >= 4 {
      BigEndianWrites(input.Rest()[..4]);
    }
    var n := input.Number(4);
    if n.None? {
      return None;
    }
    r := input.Take(n.value);
  }

  /** `value`: reads what the specification reads, and stops where it does, after as many calls of itself. */
  method ReadValue(input: Reader, depth: nat) returns (r: Option<Value>, ghost visits: nat)
    requires input.Valid()
    modifies input`position
    ensures input.Valid()
    ensures match Get(old(input.Rest()), depth, true)
      case None => r == None
      case Some((v, rest)) => r == Some(v) && input.Rest() == rest
    ensures visits == Visits(old(input.Rest()), depth)
    decreases |input.Rest()|, 0
  {
    hide FromBigEndian, TakenRun, Utf8.Valid, GetItems, GetFields, Signed64, ItemVisits, FieldVisits;
    r, visits := None, 1;
    if depth > MAXIMUM_VALUE_DEPTH {
      return;
    }
    var kind := input.Byte();
    if kind.None? {
      return;
    }
    match kind.value
    case 0 => r := Some(Null);
    case 1 => r := Some(Bool(false));
    case 2 => r := Some(Bool(true));
    case 3 =>
      var b := input.Take(8);
      if b.None? {
        return;
      }
      I64Writes(b.value);
      r := Some(Int(Signed64(FromBigEndian(b.value))));
    case 4 =>
      var s := ReadLong(input);
      if s.None? || !Utf8.Valid(s.value) {
        return;
      }
      r := Some(Text(s.value));
    case 5 =>
      var s := ReadLong(input);
      if s.None? {
        return;
      }
      r := Some(Bytes(s.value));
    case 6 =>
      var count := input.Number(4);
      if count.None? {
        return;
      }
      var items, more := ReadItems(input, count.value, depth + 1);
      visits := 1 + more;
      if items.None? {
        return;
      }
      r := Some(List(items.value));
    case 7 =>
      var count := input.Number(4);
      if count.None? {
        return;
      }
      var fields, more := ReadFields(input, count.value, depth + 1);
      visits := 1 + more;
      if fields.None? {
        return;
      }
      r := Some(Map(fields.value));
    case _ => r := None;
  }

  method ReadItems(input: Reader, count: nat, depth: nat) returns (r: Option<seq<Value>>, ghost visits: nat)
    requires input.Valid()
    modifies input`position
    ensures input.Valid()
    ensures match GetItems(old(input.Rest()), count, depth, true)
      case None => r == None
      case Some((items, rest)) => r == Some(items) && input.Rest() == rest
    ensures visits == ItemVisits(old(input.Rest()), count, depth)
    decreases |input.Rest()|, 1
  {
    hide Get, Visits;
    r, visits := None, 0;
    ghost var whole := GetItems(input.Rest(), count, depth, true);
    OnwardNothing(whole);
    var items := [];
    for k := 0 to count
      invariant input.Valid() && |input.Rest()| <= |old(input.Rest())|
      invariant whole == Onward(items, GetItems(input.Rest(), count - k, depth, true))
      invariant visits + ItemVisits(input.Rest(), count - k, depth) == ItemVisits(old(input.Rest()), count, depth)
    {
      ghost var b := input.Rest();
      var v, more := ReadValue(input, depth);
      visits := visits + more;
      if v.None? {
        return;
      }
      Onwards(items, [v.value], GetItems(input.Rest(), count - k - 1, depth, true));
      assert GetItems(b, count - k, depth, true) ==
        Onward([v.value], GetItems(input.Rest(), count - k - 1, depth, true));
      items := items + [v.value];
    }
    assert items + [] == items;
    r := Some(items);
  }

  /** A field name is refused when it was read before. */
  method ReadFields(input: Reader, count: nat, depth: nat) returns (r: Option<seq<Field>>, ghost visits: nat)
    requires input.Valid()
    modifies input`position
    ensures input.Valid()
    ensures match GetFields(old(input.Rest()), count, depth, true, [])
      case None => r == None
      case Some((fields, rest)) => r == Some(fields) && input.Rest() == rest
    ensures visits == FieldVisits(old(input.Rest()), count, depth, [])
    decreases |input.Rest()|, 1
  {
    hide Get, FromBigEndian, Utf8.Valid, TakenRun, Visits;
    r, visits := None, 0;
    ghost var whole := GetFields(input.Rest(), count, depth, true, []);
    OnwardNothing(whole);
    var fields := [];
    for k := 0 to count
      invariant input.Valid() && |input.Rest()| <= |old(input.Rest())|
      invariant whole == Onward(fields, GetFields(input.Rest(), count - k, depth, true, fields))
      invariant visits + FieldVisits(input.Rest(), count - k, depth, fields)
        == FieldVisits(old(input.Rest()), count, depth, [])
    {
      ghost var b := input.Rest();
      var name := input.Text(MAXIMUM_NAME_BYTES);
      if name.None? || Named(fields, name.value) {
        return;
      }
      TakenIsRun(b, 2, MAXIMUM_NAME_BYTES);
      var v, more := ReadValue(input, depth);
      visits := visits + more;
      if v.None? {
        return;
      }
      var f := Field(name.value, v.value);
      ghost var onward := GetFields(input.Rest(), count - k - 1, depth, true, fields + [f]);
      Onwards(fields, [f], onward);
      assert GetFields(b, count - k, depth, true, fields) == Onward([f], onward);
      fields := fields + [f];
    }
    assert fields + [] == fields;
    r := Some(fields);
  }

  // Call and refusal records

  datatype SdkCall = SdkCall(name: seq<byte>, args: Value)
  datatype SdkRefusal = SdkRefusal(code: seq<byte>, message: seq<byte>, detail: Value)

  predicate NonEmpty(s: seq<byte>) { s != [] }

  /** What names a method or a refusal: text of 1 to 64 bytes. */
  function NameField(): Codec<seq<byte>> { Checked(TextField(MAXIMUM_NAME_BYTES), NonEmpty) }

  function SdkCallField(): Codec<SdkCall> {
    Form(Pair(NameField(), ValueField()), MakeCall, OpenCall)
  }
  function MakeCall(t: (seq<byte>, Value)): SdkCall { SdkCall(t.0, t.1) }
  function OpenCall(c: SdkCall): Option<(seq<byte>, Value)> { Some((c.name, c.args)) }

  function LongText(): Codec<seq<byte>> { Run(4, 0xFFFF_FFFF, s => Utf8.Valid(s)) }

  function SdkRefusalField(): Codec<SdkRefusal> {
    Form(Pair(NameField(), Pair(LongText(), ValueField())), MakeRefusal, OpenRefusal)
  }
  function MakeRefusal(t: (seq<byte>, (seq<byte>, Value))): SdkRefusal { SdkRefusal(t.0, t.1.0, t.1.1) }
  function OpenRefusal(r: SdkRefusal): Option<(seq<byte>, (seq<byte>, Value))> { Some((r.code, (r.message, r.detail))) }

  lemma SdkCallLaw()
    ensures Lawful(SdkCallField()) && Exact(SdkCallField())
  {
    hide Lawful, Exact, ValueField, TextField, Pair;
    TextFieldLaw(MAXIMUM_NAME_BYTES);
    NameLaw();
    ValueFieldLaw();
    PairLaw(NameField(), ValueField());
    PairExact(NameField(), ValueField());
    FormLaw(Pair(NameField(), ValueField()), MakeCall, OpenCall);
    FormExact(Pair(NameField(), ValueField()), MakeCall, OpenCall);
  }

  lemma NameLaw()
    ensures Lawful(NameField()) && Exact(NameField())
  {
    TextFieldLaw(MAXIMUM_NAME_BYTES);
    CheckedLaw(TextField(MAXIMUM_NAME_BYTES), NonEmpty);
  }

  lemma SdkRefusalLaw()
    ensures Lawful(SdkRefusalField()) && Exact(SdkRefusalField())
  {
    hide Lawful, Exact, ValueField, TextField, Run, NameField, Pair;
    NameLaw();
    ValueFieldLaw();
    RunLaw(4, 0xFFFF_FFFF, s => Utf8.Valid(s));
    PairLaw(LongText(), ValueField());
    PairExact(LongText(), ValueField());
    PairLaw(NameField(), Pair(LongText(), ValueField()));
    PairExact(NameField(), Pair(LongText(), ValueField()));
    FormLaw(Pair(NameField(), Pair(LongText(), ValueField())), MakeRefusal, OpenRefusal);
    FormExact(Pair(NameField(), Pair(LongText(), ValueField())), MakeRefusal, OpenRefusal);
  }
}
