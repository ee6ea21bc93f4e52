/** The merge records' readers, step by step over one record. Each takes exactly what the record's codec gets. */
module MergeReaders {
  import opened Wrappers
  import opened Bytes
  import opened Wire
  import opened Codec
  import opened ListCodec
  import opened HistoryRecords
  import opened MergeTypes
  import opened MergeReport
  import opened MergeReplies
  import Utf8

  /** Two reads in a row read the pair. */
  lemma PairGot<A(!new), B(!new)>(
    a: Codec<A>, b: Codec<B>, s0: seq<byte>, s1: seq<byte>, s2: seq<byte>, x: Option<A>, y: Option<B>,
    r: Option<(A, B)>)
    requires Got(s1, a.get(s0), x)
    requires x.Some? ==> Got(s2, b.get(s1), y)
    requires r == if x.Some? && y.Some? then Some((x.value, y.value)) else None
    ensures Got(s2, Pair(a, b).get(s0), r)
  {
  }

  method ReadClipped(input: Reader) returns (r: Option<Text>)
    requires input.Valid()
    modifies input`position
    ensures input.Valid() && Got(input.Rest(), Clipped().get(old(input.Rest())), r)
  {
    hide TakenRun, Utf8.Valid;
    r := input.Text(TEXT_FIELD_LIMIT);
  }

  lemma CodedGet<T(!new)>(code: T -> int, of: int -> Option<T>, b: seq<byte>)
    ensures Coded(code, of).get(b) ==
      if b == [] then None else match of(b[0]) case None => None case Some(v) => Some((v, b[1..]))
  {
  }

  method ReadBoolean(input: Reader) returns (r: Option<bool>)
    requires input.Valid()
    modifies input`position
    ensures input.Valid() && Got(input.Rest(), Boolean().get(old(input.Rest())), r)
  {
    CodedGet(BoolCode, BoolOf, input.Rest());
    var b := input.Byte();
    match b
    case Some(0) => r := Some(false);
    case Some(1) => r := Some(true);
    case _ => r := None;
  }

  method ReadHead(input: Reader) returns (r: Option<Option<Id>>)
    requires input.Valid()
    modifies input`position
    ensures input.Valid() && Got(input.Rest(), HeadField().get(old(input.Rest())), r)
  {
    HeadGet(input.Rest());
    CodedGet(BoolCode, BoolOf, input.Rest());
    var present := ReadBoolean(input);
    if present.None? {
      return None;
    }
    if !present.value {
      return Some(None);
    }
    var id := input.Take(33);
    if id.None? || !Tagged(id.value, 0x12) {
      return None;
    }
    return Some(Some(id.value));
  }

  lemma HeadGet(b: seq<byte>)
    ensures HeadField().get(b) ==
      if b == [] then None
      else if b[0] == 0 then Some((None, b[1..]))
      else if b[0] != 1 || |b[1..]| < 33 || !Tagged(b[1..][..33], 0x12) then None
      else Some((Some(b[1..][..33]), b[1..][33..]))
  {
    if b != [] {
      var c := CommitIdField();
      var t := b[1..];
      assert HeadField().get(b) == OptionForm(c, b[0]).get(t);
      if b[0] == 1 {
        assert HeadField().get(b) == Form(c, MakeSome, (v: Option<Id>) => v).get(t);
        assert c.get(t) == if |t| >= 33 && Tagged(t[..33], 0x12) then Some((t[..33], t[33..])) else None;
      }
    }
  }

  /** The u16 count in front of a list. */
  method ReadCount(input: Reader) returns (r: Option<nat>)
    requires input.Valid()
    modifies input`position
    ensures input.Valid()
    ensures if |old(input.Rest())| < 2 then r == None
      else r == Some(FromBigEndian(old(input.Rest())[..2])) && input.Rest() == old(input.Rest())[2..]
  {
    hide FromBigEndian;
    r := input.Number(2);
  }

  lemma EachGot<T(!new)>(item: Codec<T>, b: seq<byte>, count: nat, x: Option<T>, rest: seq<byte>, done: seq<T>)
    requires count > 0 && Got(rest, item.get(b), x)
    ensures x.None? ==> GetEach(item, b, count) == None
    ensures x.Some? ==>
      Onward(done, GetEach(item, b, count)) == Onward(done + [x.value], GetEach(item, rest, count - 1))
  {
    if x.Some? {
      Onwards(done, [x.value], GetEach(item, rest, count - 1));
      assert GetEach(item, b, count) == Onward([x.value], GetEach(item, rest, count - 1));
    }
  }

  lemma EachDone<T(!new)>(item: Codec<T>, b: seq<byte>, done: seq<T>)
    ensures Onward(done, GetEach(item, b, 0)) == Some((done, b))
  {
    assert done + [] == done;
  }

  /** `lines`: a count, then that many texts. */
  method ReadLines(input: Reader) returns (r: Option<seq<Text>>)
    requires input.Valid()
    modifies input`position
    ensures input.Valid() && Got(input.Rest(), Lines().get(old(input.Rest())), r)
  {
    hide GetEach, Clipped, FromBigEndian;
    var count := ReadCount(input);
    if count.None? {
      return None;
    }
    ghost var whole := GetEach(Clipped(), input.Rest(), count.value);
    OnwardNothing(whole);
    var done := [];
    for k := 0 to count.value
      invariant input.Valid() && whole == Onward(done, GetEach(Clipped(), input.Rest(), count.value - k))
    {
      ghost var b := input.Rest();
      var x := ReadClipped(input);
      EachGot(Clipped(), b, count.value - k, x, input.Rest(), done);
      if x.None? {
        return None;
      }
      done := done + [x.value];
    }
    EachDone(Clipped(), input.Rest(), done);
    return Some(done);
  }

  method ReadFlags(input: Reader) returns (r: Option<(bool, bool)>)
    requires input.Valid()
    modifies input`position
    ensures input.Valid() && Got(input.Rest(), Coded(FlagsCode, FlagsOf).get(old(input.Rest())), r)
  {
    CodedGet(FlagsCode, FlagsOf, input.Rest());
    var flags := input.Byte();
    if flags.None? || flags.value > 3 {
      return None;
    }
    return Some((flags.value % 2 == 1, flags.value / 2 == 1));
  }

  method ReadDecision(input: Reader) returns (r: Option<LwwDecision>)
    requires input.Valid()
    modifies input`position
    ensures input.Valid() && Got(input.Rest(), LwwItem().get(old(input.Rest())), r)
  {
    hide Pair, Clipped, Coded;
    ghost var s0 := input.Rest();
    var path := ReadClipped(input);
    ghost var s1 := input.Rest();
    var rule: Option<Text> := None;
    if path.Some? {
      rule := ReadClipped(input);
    }
    ghost var texts := if path.Some? && rule.Some? then Some((path.value, rule.value)) else None;
    PairGot(Clipped(), Clipped(), s0, s1, input.Rest(), path, rule, texts);
    ghost var s2 := input.Rest();
    var flags: Option<(bool, bool)> := None;
    if path.Some? && rule.Some? {
      flags := ReadFlags(input);
    }
    ghost var all := if texts.Some? && flags.Some? then Some((texts.value, flags.value)) else None;
    PairGot(Pair(Clipped(), Clipped()), Coded(FlagsCode, FlagsOf), s0, s2, input.Rest(), texts, flags, all);
    if path.None? || rule.None? || flags.None? {
      return None;
    }
    return Some(LwwDecision(path.value, flags.value.0, flags.value.1, rule.value));
  }

  /** `lww`: a count, then that many decisions. */
  method ReadLww(input: Reader) returns (r: Option<seq<LwwDecision>>)
    requires input.Valid()
    modifies input`position
    ensures input.Valid() && Got(input.Rest(), Lww().get(old(input.Rest())), r)
  {
    hide GetEach, LwwItem, FromBigEndian;
    var count := ReadCount(input);
    if count.None? {
      return None;
    }
    ghost var whole := GetEach(LwwItem(), input.Rest(), count.value);
    OnwardNothing(whole);
    var done := [];
    for k := 0 to count.value
      invariant input.Valid() && whole == Onward(done, GetEach(LwwItem(), input.Rest(), count.value - k))
    {
      ghost var b := input.Rest();
      var x := ReadDecision(input);
      EachGot(LwwItem(), b, count.value - k, x, input.Rest(), done);
      if x.None? {
        return None;
      }
      done := done + [x.value];
    }
    EachDone(LwwItem(), input.Rest(), done);
    return Some(done);
  }

  method ReadLineNumber(input: Reader) returns (r: Option<nat>)
    requires input.Valid()
    modifies input`position
    ensures input.Valid() && Got(input.Rest(), LineNumber().get(old(input.Rest())), r)
  {
    hide FromBigEndian;
    r := input.Number(4);
  }

  method ReadSides(input: Reader) returns (r: Option<(seq<Text>, seq<Text>)>)
    requires input.Valid()
    modifies input`position
    ensures input.Valid() && Got(input.Rest(), Pair(Lines(), Lines()).get(old(input.Rest())), r)
  {
    hide Pair, Lines;
    ghost var s0 := input.Rest();
    var ours := ReadLines(input);
    ghost var s1 := input.Rest();
    var theirs: Option<seq<Text>> := None;
    if ours.Some? {
      theirs := ReadLines(input);
    }
    r := if ours.Some? && theirs.Some? then Some((ours.value, theirs.value)) else None;
    PairGot(Lines(), Lines(), s0, s1, input.Rest(), ours, theirs, r);
  }

  method ReadHunk(input: Reader) returns (r: Option<Hunk>)
    requires input.Valid()
    modifies input`position
    ensures input.Valid() && Got(input.Rest(), HunkItem().get(old(input.Rest())), r)
  {
    hide Pair, Lines, LineNumber;
    ghost var s0 := input.Rest();
    var line := ReadLineNumber(input);
    ghost var s1 := input.Rest();
    var sides: Option<(seq<Text>, seq<Text>)> := None;
    if line.Some? {
      sides := ReadSides(input);
    }
    ghost var all := if line.Some? && sides.Some? then Some((line.value, sides.value)) else None;
    PairGot(LineNumber(), Pair(Lines(), Lines()), s0, s1, input.Rest(), line, sides, all);
    if line.None? || sides.None? {
      return None;
    }
    return Some(Hunk(line.value, sides.value.0, sides.value.1));
  }

  method ReadHunks(input: Reader) returns (r: Option<seq<Hunk>>)
    requires input.Valid()
    modifies input`position
    ensures input.Valid() && Got(input.Rest(), Hunks().get(old(input.Rest())), r)
  {
    hide GetEach, HunkItem, FromBigEndian;
    var count := ReadCount(input);
    if count.None? {
      return None;
    }
    ghost var whole := GetEach(HunkItem(), input.Rest(), count.value);
    OnwardNothing(whole);
    var done := [];
    for k := 0 to count.value
      invariant input.Valid() && whole == Onward(done, GetEach(HunkItem(), input.Rest(), count.value - k))
    {
      ghost var b := input.Rest();
      var x := ReadHunk(input);
      EachGot(HunkItem(), b, count.value - k, x, input.Rest(), done);
      if x.None? {
        return None;
      }
      done := done + [x.value];
    }
    EachDone(HunkItem(), input.Rest(), done);
    return Some(done);
  }

  method ReadKind(input: Reader) returns (r: Option<ConflictKind>)
    requires input.Valid()
    modifies input`position
    ensures input.Valid() && Got(input.Rest(), KindField().get(old(input.Rest())), r)
  {
    CodedGet(KindCode, KindOf, input.Rest());
    var index := input.Byte();
    if index.None? {
      return None;
    }
    r := KindOf(index.value);
  }

  method ReadConflict(input: Reader) returns (r: Option<Conflict>)
    requires input.Valid()
    modifies input`position
    ensures input.Valid() && Got(input.Rest(), ConflictItem().get(old(input.Rest())), r)
  {
    hide Pair, Clipped, KindField, Hunks;
    ghost var s0 := input.Rest();
    var path := ReadClipped(input);
    ghost var s1 := input.Rest();
    var tail: Option<(ConflictKind, seq<Hunk>)> := None;
    if path.Some? {
      var kind := ReadKind(input);
      ghost var s2 := input.Rest();
      var hunks: Option<seq<Hunk>> := None;
      if kind.Some? {
        hunks := ReadHunks(input);
      }
      tail := if kind.Some? && hunks.Some? then Some((kind.value, hunks.value)) else None;
      PairGot(KindField(), Hunks(), s1, s2, input.Rest(), kind, hunks, tail);
    }
    ghost var all := if path.Some? && tail.Some? then Some((path.value, tail.value)) else None;
    PairGot(Clipped(), Pair(KindField(), Hunks()), s0, s1, input.Rest(), path, tail, all);
    if path.None? || tail.None? {
      return None;
    }
    return Some(Conflict(path.value, tail.value.0, tail.value.1));
  }

  method ReadConflicts(input: Reader) returns (r: Option<seq<Conflict>>)
    requires input.Valid()
    modifies input`position
    ensures input.Valid() && Got(input.Rest(), Conflicts().get(old(input.Rest())), r)
  {
    hide GetEach, ConflictItem, FromBigEndian;
    var count := ReadCount(input);
    if count.None? {
      return None;
    }
    ghost var whole := GetEach(ConflictItem(), input.Rest(), count.value);
    OnwardNothing(whole);
    var done := [];
    for k := 0 to count.value
      invariant input.Valid() && whole == Onward(done, GetEach(ConflictItem(), input.Rest(), count.value - k))
    {
      ghost var b := input.Rest();
      var x := ReadConflict(input);
      EachGot(ConflictItem(), b, count.value - k, x, input.Rest(), done);
      if x.None? {
        return None;
      }
      done := done + [x.value];
    }
    EachDone(ConflictItem(), input.Rest(), done);
    return Some(done);
  }

  method ReadEntries(input: Reader) returns (r: Option<Entries>)
    requires input.Valid()
    modifies input`position
    ensures input.Valid() && Got(input.Rest(), EntriesParts().get(old(input.Rest())), r)
  {
    hide Pair, Conflicts, Lww, Lines;
    ghost var s0 := input.Rest();
    var conflicts := ReadConflicts(input);
    ghost var s1 := input.Rest();
    var tail: Option<(seq<LwwDecision>, seq<Text>)> := None;
    if conflicts.Some? {
      var lww := ReadLww(input);
      ghost var s2 := input.Rest();
      var written: Option<seq<Text>> := None;
      if lww.Some? {
        written := ReadLines(input);
      }
      tail := if lww.Some? && written.Some? then Some((lww.value, written.value)) else None;
      PairGot(Lww(), Lines(), s1, s2, input.Rest(), lww, written, tail);
    }
    r := if conflicts.Some? && tail.Some? then Some((conflicts.value, tail.value)) else None;
    PairGot(Conflicts(), Pair(Lww(), Lines()), s0, s1, input.Rest(), conflicts, tail, r);
  }

  lemma FlaggedGet(b: seq<byte>)
    ensures FlaggedEntries().get(b) ==
      match EntriesParts().get(b)
      case None => None
      case Some((e, rest)) =>
        match Boolean().get(rest)
        case None => None
        case Some((flag, after)) => Some(((e, flag), after))
  {
    hide EntriesParts;
    if EntriesParts().get(b).Some? {
      CodedGet(BoolCode, BoolOf, EntriesParts().get(b).value.1);
    }
  }

  method ReadFlagged(input: Reader) returns (r: Option<(Entries, bool)>)
    requires input.Valid()
    modifies input`position
    ensures input.Valid() && Got(input.Rest(), FlaggedEntries().get(old(input.Rest())), r)
  {
    hide EntriesParts, FlaggedEntries, Boolean;
    FlaggedGet(input.Rest());
    var e := ReadEntries(input);
    if e.None? {
      return None;
    }
    var flag := ReadBoolean(input);
    if flag.None? {
      return None;
    }
    return Some((e.value, flag.value));
  }

  method ReadHeads(input: Reader) returns (r: Option<(Option<Id>, Option<Id>)>)
    requires input.Valid()
    modifies input`position
    ensures input.Valid() && Got(input.Rest(), Pair(HeadField(), HeadField()).get(old(input.Rest())), r)
  {
    hide Pair, HeadField;
    ghost var s0 := input.Rest();
    var head := ReadHead(input);
    ghost var s1 := input.Rest();
    var base: Option<Option<Id>> := None;
    if head.Some? {
      base := ReadHead(input);
    }
    r := if head.Some? && base.Some? then Some((head.value, base.value)) else None;
    PairGot(HeadField(), HeadField(), s0, s1, input.Rest(), head, base, r);
  }

  /** `report`: reads what the codec reads, and stops exactly where it does. */
  method ReadReport(input: Reader) returns (r: Option<ConflictReport>)
    requires input.Valid()
    modifies input`position
    ensures input.Valid() && Got(input.Rest(), ReportField().get(old(input.Rest())), r)
  {
    hide Pair, HeadField, Boolean, FlaggedEntries;
    ghost var s0 := input.Rest();
    var heads := ReadHeads(input);
    ghost var s1 := input.Rest();
    var tail: Option<(bool, (Entries, bool))> := None;
    if heads.Some? {
      var markers := ReadBoolean(input);
      ghost var s2 := input.Rest();
      var entries: Option<(Entries, bool)> := None;
      if markers.Some? {
        entries := ReadFlagged(input);
      }
      tail := if markers.Some? && entries.Some? then Some((markers.value, entries.value)) else None;
      PairGot(Boolean(), FlaggedEntries(), s1, s2, input.Rest(), markers, entries, tail);
    }
    ghost var all := if heads.Some? && tail.Some? then Some((heads.value, tail.value)) else None;
    PairGot(Pair(HeadField(), HeadField()), Pair(Boolean(), FlaggedEntries()), s0, s1, input.Rest(), heads, tail, all);
    if heads.None? || tail.None? {
      return None;
    }
    r := Some(ReportUp((heads.value, tail.value)));
  }

  // The Dirty refusal

  method ReadWorkspace(input: Reader) returns (r: Option<Id>)
    requires input.Valid()
    modifies input`position
    ensures input.Valid() && Got(input.Rest(), WorkspaceIdField().get(old(input.Rest())), r)
  {
    hide NonZero;
    r := input.Take(32);
    if r.Some? && !NonZero(r.value) {
      r := None;
    }
  }

  method ReadNamespace(input: Reader) returns (r: Option<int>)
    requires input.Valid()
    modifies input`position
    ensures input.Valid() && Got(input.Rest(), NamespaceField().get(old(input.Rest())), r)
  {
    hide FromBigEndian;
    var n := input.Number(8);
    if n.None? || Twist(n.value) <= 0 {
      return None;
    }
    return Some(Twist(n.value));
  }

  method ReadToken(input: Reader) returns (r: Option<WorkspaceToken>)
    requires input.Valid()
    modifies input`position
    ensures input.Valid() && Got(input.Rest(), TokenField().get(old(input.Rest())), r)
  {
    hide Pair, WorkspaceIdField, NamespaceField;
    ghost var s0 := input.Rest();
    var workspace := ReadWorkspace(input);
    ghost var s1 := input.Rest();
    var namespace: Option<int> := None;
    if workspace.Some? {
      namespace := ReadNamespace(input);
    }
    ghost var all := if workspace.Some? && namespace.Some? then Some((workspace.value, namespace.value)) else None;
    PairGot(WorkspaceIdField(), NamespaceField(), s0, s1, input.Rest(), workspace, namespace, all);
    if workspace.None? || namespace.None? {
      return None;
    }
    return Some(WorkspaceToken(workspace.value, namespace.value));
  }

  method ReadNumber(input: Reader) returns (r: Option<int>)
    requires input.Valid()
    modifies input`position
    ensures input.Valid() && Got(input.Rest(), U64().get(old(input.Rest())), r)
  {
    hide FromBigEndian;
    var n := input.Number(8);
    if n.None? {
      return None;
    }
    return Some(n.value);
  }

  method ReadCounts(input: Reader) returns (r: Option<(int, int)>)
    requires input.Valid()
    modifies input`position
    ensures input.Valid() && Got(input.Rest(), Pair(U64(), U64()).get(old(input.Rest())), r)
  {
    hide Pair, U64;
    ghost var s0 := input.Rest();
    var n := ReadNumber(input);
    ghost var s1 := input.Rest();
    var m: Option<int> := None;
    if n.Some? {
      m := ReadNumber(input);
    }
    r := if n.Some? && m.Some? then Some((n.value, m.value)) else None;
    PairGot(U64(), U64(), s0, s1, input.Rest(), n, m, r);
  }

  lemma FlaggedLinesGet(b: seq<byte>)
    ensures FlaggedLines().get(b) ==
      match Lines().get(b)
      case None => None
      case Some((xs, rest)) =>
        match Boolean().get(rest)
        case None => None
        case Some((flag, after)) => Some(((xs, flag), after))
  {
    hide Lines;
    if Lines().get(b).Some? {
      CodedGet(BoolCode, BoolOf, Lines().get(b).value.1);
    }
  }

  method ReadFlaggedLines(input: Reader) returns (r: Option<(seq<Text>, bool)>)
    requires input.Valid()
    modifies input`position
    ensures input.Valid() && Got(input.Rest(), FlaggedLines().get(old(input.Rest())), r)
  {
    hide Lines, FlaggedLines, Boolean;
    FlaggedLinesGet(input.Rest());
    var lines := ReadLines(input);
    if lines.None? {
      return None;
    }
    var flag := ReadBoolean(input);
    if flag.None? {
      return None;
    }
    return Some((lines.value, flag.value));
  }

  /** `dirty`: reads what the codec reads, and stops exactly where it does. */
  method ReadDirty(input: Reader) returns (r: Option<DirtyReport>)
    requires input.Valid()
    modifies input`position
    ensures input.Valid() && Got(input.Rest(), DirtyField().get(old(input.Rest())), r)
  {
    hide Pair, TokenField, U64, Boolean, FlaggedLines;
    ghost var s0 := input.Rest();
    var token := ReadToken(input);
    ghost var s1 := input.Rest();
    var counts: Option<(int, int)> := None;
    if token.Some? {
      counts := ReadCounts(input);
    }
    ghost var s2 := input.Rest();
    var header := if token.Some? && counts.Some? then Some((token.value, counts.value)) else None;
    PairGot(TokenField(), Pair(U64(), U64()), s0, s1, s2, token, counts, header);
    var tail: Option<(bool, (seq<Text>, bool))> := None;
    if header.Some? {
      var pending := ReadBoolean(input);
      ghost var s3 := input.Rest();
      var lines: Option<(seq<Text>, bool)> := None;
      if pending.Some? {
        lines := ReadFlaggedLines(input);
      }
      tail := if pending.Some? && lines.Some? then Some((pending.value, lines.value)) else None;
      PairGot(Boolean(), FlaggedLines(), s2, s3, input.Rest(), pending, lines, tail);
    }
    ghost var all := if header.Some? && tail.Some? then Some((header.value, tail.value)) else None;
    PairGot(DirtyHeader(), Pair(Boolean(), FlaggedLines()), s0, s2, input.Rest(), header, tail, all);
    if header.None? || tail.None? {
      return None;
    }
    r := Some(DirtyUp((header.value, tail.value)));
  }
}
