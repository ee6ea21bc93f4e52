/**
  The merge records' writers, step by step over one record. Each appends exactly
  what the record's codec puts and computes the truncation flag.
*/
module MergeWire {
  import opened Wrappers
  import opened Bytes
  import opened Wire
  import opened Codec
  import opened ListCodec
  import opened HistoryRecords
  import opened MergeTypes
  import opened MergeReport
  import opened MergeReplies
  import Utf8

  /** `clip`: steps back from the limit to a character boundary. */
  method ClipText(s: Text) returns (r: Text)
    requires Utf8.Valid(s)
    ensures r == Clip(s)
  {
    var end := Min(|s|, TEXT_FIELD_LIMIT);
    while !Utf8.IsBoundary(s, end)
      invariant 0 <= end <= |s| && Boundary(s, end) == Boundary(s, Min(|s|, TEXT_FIELD_LIMIT))
      decreases end
    {
      end := end - 1;
    }
    r := s[..end];
  }

  method PutText(out: Writer, s: Text) returns (ok: bool)
    requires Utf8.Valid(s)
    modifies out
    ensures Wrote(old(out.data), out.data, Clipped().put(|old(out.data)|, s), ok)
  {
    hide BigEndian, Clip, Pow256;
    var t := ClipText(s);
    ClippedIs(|out.data|, s);
    ClipIsLongest(s);
    if |t| > TEXT_FIELD_LIMIT {
      return false;
    }
    ok := out.Blob(t);
  }

  lemma ClippedIs(at: nat, s: Text)
    requires Utf8.Valid(s)
    ensures Clipped().put(at, s) == Raw(at, BigEndian(|Clip(s)|, 2) + Clip(s))
  {
    hide BigEndian, Clip, Utf8.Valid;
    Widths();
    ClipIsLongest(s);
  }

  /** Two writes in a row write the pair; a failed first write ends it. */
  lemma PairWrote<A(!new), B(!new)>(
    a: Codec<A>, b: Codec<B>, v: (A, B), s0: seq<byte>, s1: seq<byte>, s2: seq<byte>, first: bool, ok: bool)
    requires Wrote(s0, s1, a.put(|s0|, v.0), first)
    requires if first then Wrote(s1, s2, b.put(|s1|, v.1), ok) else !ok
    ensures Wrote(s0, s2, Pair(a, b).put(|s0|, v), ok)
  {
    PairPut(a, b, |s0|, v);
    if ok {
      var x, y := a.put(|s0|, v.0).value, b.put(|s1|, v.1).value;
      assert s0 + x + y == s0 + (x + y);
    }
  }

  /** How many leading items fit: the running total is tested item by item. */
  method CountFitting<T>(at: nat, xs: seq<T>, cost: T -> nat) returns (kept: nat)
    ensures kept == Fitting(Room(at), xs, cost)
  {
    var size := 0;
    kept := 0;
    assert xs[0..] == xs;
    while kept < |xs|
      invariant kept <= |xs|
      invariant Fitting(Room(at), xs, cost) == kept + Fitting(Room(at) - size, xs[kept..], cost)
    {
      assert xs[kept..][0] == xs[kept] && xs[kept..][1..] == xs[kept + 1..];
      size := size + cost(xs[kept]);
      if at + size + RESERVE > LIMIT {
        return;
      }
      kept := kept + 1;
    }
  }

  // One step of writing a list

  lemma EachStep<T(!new)>(item: Codec<T>, at: nat, xs: seq<T>, k: nat, done: seq<byte>)
    requires k < |xs|
    requires PutEach(item, at, xs) == Prepend(done, PutEach(item, at + |done|, xs[k..]))
    ensures item.put(at + |done|, xs[k]).None? ==> PutEach(item, at, xs).None?
    ensures item.put(at + |done|, xs[k]).Some? ==>
      var next := done + item.put(at + |done|, xs[k]).value;
      PutEach(item, at, xs) == Prepend(next, PutEach(item, at + |next|, xs[k + 1..]))
  {
    var now := at + |done|;
    assert xs[k..][0] == xs[k] && xs[k..][1..] == xs[k + 1..];
    if item.put(now, xs[k]).Some? {
      var a := item.put(now, xs[k]).value;
      Prepends(done, a, PutEach(item, now + |a|, xs[k + 1..]));
      assert now + |a| == at + |done + a|;
    }
  }

  lemma NormStep<T(!new)>(item: Codec<T>, at: nat, now: nat, xs: seq<T>, k: nat, normed: seq<T>)
    requires k < |xs| && item.put(now, xs[k]).Some?
    requires NormEach(item, at, xs) == normed + NormEach(item, now, xs[k..])
    ensures NormEach(item, at, xs) ==
      normed + [item.norm(now, xs[k])] + NormEach(item, now + |item.put(now, xs[k]).value|, xs[k + 1..])
  {
    assert xs[k..][0] == xs[k] && xs[k..][1..] == xs[k + 1..];
  }

  lemma EachStart<T(!new)>(item: Codec<T>, at: nat, xs: seq<T>)
    ensures PutEach(item, at, xs) == Prepend([], PutEach(item, at + 0, xs[0..]))
    ensures NormEach(item, at, xs) == [] + NormEach(item, at + 0, xs[0..])
  {
    assert xs[0..] == xs;
    PrependsNothing(PutEach(item, at, xs));
  }

  /** The count, cast to u16, in front of the items. */
  lemma ListedPut<T(!new)>(item: Codec<T>, keep: (nat, seq<T>) -> nat, at: nat, xs: seq<T>)
    requires keep(at, xs) <= |xs|
    ensures Listed(item, keep).put(at, xs) ==
      if at + 2 > LIMIT then None else Prepend(BigEndian(keep(at, xs), 2), PutEach(item, at + 2, xs[..keep(at, xs)]))
    ensures Listed(item, keep).norm(at, xs) == NormEach(item, at + 2, xs[..keep(at, xs)])
  {
    hide BigEndian;
  }

  lemma LinesPut(at: nat, xs: seq<Text>)
    ensures var n := Fitting(Room(at), xs, TextCost);
      && Lines().put(at, xs) ==
        (if at + 2 > LIMIT then None else Prepend(BigEndian(n, 2), PutEach(Clipped(), at + 2, xs[..n])))
      && Lines().norm(at, xs) == NormEach(Clipped(), at + 2, xs[..n])
  {
    ListedPut(Clipped(), KeepFitting(TextCost), at, xs);
  }

  /** `put_lines`: the lines that fit, clipped, and whether some were left out. */
  method PutLines(out: Writer, lines: seq<Text>) returns (ok: bool, cut: bool)
    requires |out.data| <= LIMIT && AllOk(Clipped(), lines)
    modifies out
    ensures Wrote(old(out.data), out.data, Lines().put(|old(out.data)|, lines), ok)
    ensures cut <==> |Lines().norm(|old(out.data)|, lines)| < |lines|
  {
    hide BigEndian, PutEach, NormEach, Clipped, Fitting, Lines;
    LinesPut(|out.data|, lines);
    var kept := CountFitting(|out.data|, lines, TextCost);
    cut := kept < |lines|;
    ok := out.Put(BigEndian(kept, 2));
    if !ok {
      return;
    }
    ok := PutTexts(out, lines[..kept]);
  }

  method PutTexts(out: Writer, lines: seq<Text>) returns (ok: bool)
    requires |out.data| <= LIMIT && AllOk(Clipped(), lines)
    modifies out
    ensures Wrote(old(out.data), out.data, PutEach(Clipped(), |old(out.data)|, lines), ok)
  {
    hide PutEach, NormEach, Clipped;
    ghost var before, at := out.data, |out.data|;
    ghost var done := [];
    EachStart(Clipped(), at, lines);
    for k := 0 to |lines|
      invariant out.data == before + done
      invariant PutEach(Clipped(), at, lines) == Prepend(done, PutEach(Clipped(), at + |done|, lines[k..]))
    {
      EachStep(Clipped(), at, lines, k, done);
      LineOk(lines, k);
      ok := PutText(out, lines[k]);
      if !ok {
        return;
      }
      done := done + Clipped().put(at + |done|, lines[k]).value;
    }
    EachEnd(Clipped(), at + |done|, lines[|lines|..]);
    ok := true;
  }

  lemma LineOk(lines: seq<Text>, k: nat)
    requires AllOk(Clipped(), lines) && k < |lines|
    ensures Utf8.Valid(lines[k])
  {
    assert Clipped().ok(lines[k]);
  }

  lemma EachEnd<T(!new)>(item: Codec<T>, at: nat, none: seq<T>)
    requires none == []
    ensures PutEach(item, at, none) == Some([]) && NormEach(item, at, none) == []
  {
  }

  // Decisions

  lemma DecisionPut(at: nat, d: LwwDecision)
    ensures LwwItem().put(at, d) ==
      match Clipped().put(at, d.path)
      case None => None
      case Some(p) =>
        match Clipped().put(at + |p|, d.rule)
        case None => None
        case Some(r) => Prepend(p + r, Coded(FlagsCode, FlagsOf).put(at + |p| + |r|, (d.keptOurs, d.deleted)))
  {
    hide Pair, Clipped, Coded;
    PairPut(Pair(Clipped(), Clipped()), Coded(FlagsCode, FlagsOf), at, LwwDown(d));
    PairPut(Clipped(), Clipped(), at, (d.path, d.rule));
  }

  method PutDecision(out: Writer, d: LwwDecision) returns (ok: bool)
    requires |out.data| <= LIMIT && LwwItem().ok(d)
    modifies out
    ensures Wrote(old(out.data), out.data, LwwItem().put(|old(out.data)|, d), ok)
  {
    hide Clipped, Coded, LwwItem;
    DecisionOk(d);
    DecisionPut(|out.data|, d);
    ok := PutText(out, d.path);
    if !ok {
      return;
    }
    ok := PutText(out, d.rule);
    if !ok {
      return;
    }
    CodedIs(FlagsCode, FlagsOf, |out.data|, (d.keptOurs, d.deleted));
    ok := out.Byte(BoolCode(d.keptOurs) + 2 * BoolCode(d.deleted));
  }

  lemma DecisionOk(d: LwwDecision)
    requires LwwItem().ok(d)
    ensures Utf8.Valid(d.path) && Utf8.Valid(d.rule)
  {
    hide Utf8.Valid;
    PairOk(Pair(Clipped(), Clipped()), Coded(FlagsCode, FlagsOf), LwwDown(d));
    PairOk(Clipped(), Clipped(), (d.path, d.rule));
  }

  lemma LwwPut(at: nat, xs: seq<LwwDecision>)
    ensures var n := Fitting(Room(at), xs, LwwCost);
      && Lww().put(at, xs) ==
        (if at + 2 > LIMIT then None else Prepend(BigEndian(n, 2), PutEach(LwwItem(), at + 2, xs[..n])))
      && Lww().norm(at, xs) == NormEach(LwwItem(), at + 2, xs[..n])
  {
    ListedPut(LwwItem(), KeepFitting(LwwCost), at, xs);
  }

  /** `put_lww`: the decisions that fit, clipped, and whether some were left out. */
  method PutLww(out: Writer, values: seq<LwwDecision>) returns (ok: bool, cut: bool)
    requires |out.data| <= LIMIT && AllOk(LwwItem(), values)
    modifies out
    ensures Wrote(old(out.data), out.data, Lww().put(|old(out.data)|, values), ok)
    ensures cut <==> |Lww().norm(|old(out.data)|, values)| < |values|
  {
    hide BigEndian, PutEach, NormEach, LwwItem, Fitting, Lww;
    LwwPut(|out.data|, values);
    var kept := CountFitting(|out.data|, values, LwwCost);
    cut := kept < |values|;
    ok := out.Put(BigEndian(kept, 2));
    if !ok {
      return;
    }
    ok := PutDecisions(out, values[..kept]);
  }

  method PutDecisions(out: Writer, values: seq<LwwDecision>) returns (ok: bool)
    requires |out.data| <= LIMIT && AllOk(LwwItem(), values)
    modifies out
    ensures Wrote(old(out.data), out.data, PutEach(LwwItem(), |old(out.data)|, values), ok)
  {
    hide PutEach, NormEach, LwwItem;
    ghost var before, at := out.data, |out.data|;
    ghost var done := [];
    LwwItemLaw();
    EachStart(LwwItem(), at, values);
    for k := 0 to |values|
      invariant out.data == before + done && |out.data| <= LIMIT
      invariant PutEach(LwwItem(), at, values) == Prepend(done, PutEach(LwwItem(), at + |done|, values[k..]))
    {
      EachStep(LwwItem(), at, values, k, done);
      Law(LwwItem(), at + |done|, values[k]);
      ok := PutDecision(out, values[k]);
      if !ok {
        return;
      }
      done := done + LwwItem().put(at + |done|, values[k]).value;
    }
    EachEnd(LwwItem(), at + |done|, values[|values|..]);
    ok := true;
  }

  // Hunks

  lemma HunkPut(at: nat, h: Hunk)
    ensures HunkItem().put(at, h) ==
      if at + 4 > LIMIT then None
      else
        match Lines().put(at + 4, h.ours)
        case None => None
        case Some(a) => Prepend(BigEndian(h.line, 4) + a, Lines().put(at + 4 + |a|, h.theirs))
    ensures HunkItem().put(at, h).Some? ==>
      && |HunkItem().norm(at, h).ours| == |Lines().norm(at + 4, h.ours)|
      && |HunkItem().norm(at, h).theirs| == |Lines().norm(at + 4 + |Lines().put(at + 4, h.ours).value|, h.theirs)|
  {
    hide Pair, Lines, BigEndian;
    assert |BigEndian(h.line, 4)| == 4;
    PairPut(LineNumber(), Pair(Lines(), Lines()), at, HunkDown(h));
    PairPut(Lines(), Lines(), at + 4, (h.ours, h.theirs));
    if HunkItem().put(at, h).Some? {
      PairIs(LineNumber(), Pair(Lines(), Lines()), at, HunkDown(h));
      PairIs(Lines(), Lines(), at + 4, (h.ours, h.theirs));
    }
    if at + 4 <= LIMIT && Lines().put(at + 4, h.ours).Some? {
      var a := Lines().put(at + 4, h.ours).value;
      Prepends(BigEndian(h.line, 4), a, Lines().put(at + 4 + |a|, h.theirs));
    }
  }

  lemma HunkOk(h: Hunk)
    requires HunkItem().ok(h)
    ensures AllOk(Clipped(), h.ours) && AllOk(Clipped(), h.theirs)
  {
    hide Clipped;
    PairOk(LineNumber(), Pair(Lines(), Lines()), HunkDown(h));
    PairOk(Lines(), Lines(), (h.ours, h.theirs));
  }

  /** The line number, cast to u32, and both sides' lines. */
  method PutHunk(out: Writer, h: Hunk) returns (ok: bool, cut: bool)
    requires |out.data| <= LIMIT && HunkItem().ok(h)
    modifies out
    ensures Wrote(old(out.data), out.data, HunkItem().put(|old(out.data)|, h), ok)
    ensures ok ==> (cut <==> !HunkWhole(h, HunkItem().norm(|old(out.data)|, h)))
  {
    hide HunkItem, Lines, BigEndian, AllOk;
    ghost var at := |out.data|;
    HunkPut(at, h);
    HunkOk(h);
    LinesStay(at + 4, h.ours);
    cut := false;
    ok := out.Put(BigEndian(h.line, 4));
    if !ok {
      return;
    }
    ok, cut := PutLines(out, h.ours);
    if !ok {
      return;
    }
    LinesStay(|out.data|, h.theirs);
    var more;
    ok, more := PutLines(out, h.theirs);
    cut := cut || more;
  }

  /** Lines that were written stay within the record and are no more than were given. */
  lemma LinesStay(at: nat, xs: seq<Text>)
    requires AllOk(Clipped(), xs)
    ensures at <= LIMIT && Lines().put(at, xs).Some? ==> at + |Lines().put(at, xs).value| <= LIMIT
    ensures |Lines().norm(at, xs)| <= |xs|
  {
    hide Lawful, TakesSpace, Clipped;
    LinesLaw();
    Law(Lines(), at, xs);
    ListedPut(Clipped(), KeepFitting(TextCost), at, xs);
  }

  predicate AllWhole(hs: seq<Hunk>, gs: seq<Hunk>) {
    |gs| <= |hs| && forall k :: 0 <= k < |gs| ==> HunkWhole(hs[k], gs[k])
  }

  method PutHunkList(out: Writer, hs: seq<Hunk>) returns (ok: bool, cut: bool)
    requires |out.data| <= LIMIT && AllOk(HunkItem(), hs)
    modifies out
    ensures Wrote(old(out.data), out.data, PutEach(HunkItem(), |old(out.data)|, hs), ok)
    ensures ok ==> (cut <==> !AllWhole(hs, NormEach(HunkItem(), |old(out.data)|, hs)))
  {
    hide PutEach, NormEach, HunkItem, HunkWhole;
    ghost var before, at := out.data, |out.data|;
    ghost var done, normed := [], [];
    cut := false;
    HunkItemLaw();
    EachStart(HunkItem(), at, hs);
    for k := 0 to |hs|
      invariant out.data == before + done && |out.data| <= LIMIT
      invariant PutEach(HunkItem(), at, hs) == Prepend(done, PutEach(HunkItem(), at + |done|, hs[k..]))
      invariant NormEach(HunkItem(), at, hs) == normed + NormEach(HunkItem(), at + |done|, hs[k..])
      invariant |normed| == k && (cut <==> !AllWhole(hs[..k], normed))
    {
      EachStep(HunkItem(), at, hs, k, done);
      Law(HunkItem(), at + |done|, hs[k]);
      var more;
      ok, more := PutHunk(out, hs[k]);
      if !ok {
        return;
      }
      NormStep(HunkItem(), at, at + |done|, hs, k, normed);
      WholeStep(hs, k, normed, HunkItem().norm(at + |done|, hs[k]));
      cut := cut || more;
      normed := normed + [HunkItem().norm(at + |done|, hs[k])];
      done := done + HunkItem().put(at + |done|, hs[k]).value;
    }
    EachEnd(HunkItem(), at + |done|, hs[|hs|..]);
    assert normed + [] == normed && hs[..|hs|] == hs;
    ok := true;
  }

  lemma WholeStep(hs: seq<Hunk>, k: nat, normed: seq<Hunk>, g: Hunk)
    requires k < |hs| && |normed| == k
    ensures AllWhole(hs[..k + 1], normed + [g]) <==> AllWhole(hs[..k], normed) && HunkWhole(hs[k], g)
  {
    hide HunkWhole;
    var more := normed + [g];
    assert more[k] == g && hs[..k + 1][k] == hs[k];
    assert forall j :: 0 <= j < k ==> more[j] == normed[j] && hs[..k + 1][j] == hs[..k][j];
  }

  lemma HunksPut(at: nat, hs: seq<Hunk>)
    ensures var n := HunksKept(at, hs);
      && Hunks().put(at, hs) ==
        (if at + 2 > LIMIT then None else Prepend(BigEndian(n, 2), PutEach(HunkItem(), at + 2, hs[..n])))
      && Hunks().norm(at, hs) == NormEach(HunkItem(), at + 2, hs[..n])
  {
    ListedPut(HunkItem(), HunksKept, at, hs);
  }

  lemma WholePrefix(hs: seq<Hunk>, n: nat, gs: seq<Hunk>)
    requires n == |gs| <= |hs|
    ensures AllWhole(hs[..n], gs) <==> AllWhole(hs, gs)
  {
    hide HunkWhole;
    assert forall k :: 0 <= k < n ==> hs[..n][k] == hs[k];
  }

  /** All hunks or none, as 64 bytes and the reserve are free or not. */
  method PutHunks(out: Writer, hs: seq<Hunk>) returns (ok: bool, cut: bool)
    requires |out.data| <= LIMIT && AllOk(HunkItem(), hs)
    modifies out
    ensures Wrote(old(out.data), out.data, Hunks().put(|old(out.data)|, hs), ok)
    ensures ok ==>
      (cut <==> !(|Hunks().norm(|old(out.data)|, hs)| == |hs| && AllWhole(hs, Hunks().norm(|old(out.data)|, hs))))
  {
    hide BigEndian, PutEach, NormEach, HunkItem, Hunks, AllWhole;
    HunksPut(|out.data|, hs);
    var hunks := if |out.data| + 64 + RESERVE <= LIMIT then |hs| else 0;
    assert hunks == HunksKept(|out.data|, hs);
    WholePrefix(hs, hunks, Hunks().norm(|out.data|, hs));
    cut := hunks < |hs|;
    ok := out.Put(BigEndian(hunks, 2));
    if !ok {
      return;
    }
    var more;
    ok, more := PutHunkList(out, hs[..hunks]);
    cut := cut || more;
  }

  // Conflicts

  lemma ConflictPut(at: nat, c: Conflict)
    ensures ConflictItem().put(at, c) ==
      match Clipped().put(at, c.path)
      case None => None
      case Some(p) =>
        if at + |p| + 1 > LIMIT then None
        else Prepend(p + [KindCode(c.kind)], Hunks().put(at + |p| + 1, c.hunks))
    ensures ConflictItem().put(at, c).Some? ==>
      ConflictItem().norm(at, c).hunks == Hunks().norm(at + |Clipped().put(at, c.path).value| + 1, c.hunks)
  {
    hide Pair, Clipped, Coded, Hunks;
    PairPut(Clipped(), Pair(KindField(), Hunks()), at, ConflictDown(c));
    if Clipped().put(at, c.path).Some? {
      var p := Clipped().put(at, c.path).value;
      PairPut(KindField(), Hunks(), at + |p|, (c.kind, c.hunks));
      CodedIs(KindCode, KindOf, at + |p|, c.kind);
      Prepends(p, [KindCode(c.kind)], Hunks().put(at + |p| + 1, c.hunks));
    }
    if ConflictItem().put(at, c).Some? {
      ConflictSplits(at, c);
    }
  }

  lemma ConflictOk(c: Conflict)
    requires ConflictItem().ok(c)
    ensures Utf8.Valid(c.path) && AllOk(HunkItem(), c.hunks)
  {
    hide Utf8.Valid, HunkItem, Coded;
    PairOk(Clipped(), Pair(KindField(), Hunks()), ConflictDown(c));
    PairOk(KindField(), Hunks(), (c.kind, c.hunks));
  }

  method PutConflict(out: Writer, c: Conflict) returns (ok: bool, cut: bool)
    requires |out.data| <= LIMIT && ConflictItem().ok(c)
    modifies out
    ensures Wrote(old(out.data), out.data, ConflictItem().put(|old(out.data)|, c), ok)
    ensures ok ==> (cut <==> !ConflictWhole(c, ConflictItem().norm(|old(out.data)|, c)))
  {
    hide ConflictItem, Clipped, Hunks, HunkItem, HunkWhole;
    ConflictPut(|out.data|, c);
    ConflictOk(c);
    cut := false;
    ok := PutText(out, c.path);
    if !ok {
      return;
    }
    ok := out.Byte(KindCode(c.kind));
    if !ok {
      return;
    }
    ok, cut := PutHunks(out, c.hunks);
  }

  method PutConflictList(out: Writer, cs: seq<Conflict>) returns (ok: bool, cut: bool)
    requires |out.data| <= LIMIT && AllOk(ConflictItem(), cs)
    modifies out
    ensures Wrote(old(out.data), out.data, PutEach(ConflictItem(), |old(out.data)|, cs), ok)
    ensures ok ==> (cut <==> !ConflictsWhole(cs, NormEach(ConflictItem(), |old(out.data)|, cs)))
  {
    hide PutEach, NormEach, ConflictItem, ConflictWhole;
    ghost var before, at := out.data, |out.data|;
    ghost var done, normed := [], [];
    cut := false;
    ConflictItemLaw();
    EachStart(ConflictItem(), at, cs);
    for k := 0 to |cs|
      invariant out.data == before + done && |out.data| <= LIMIT
      invariant PutEach(ConflictItem(), at, cs) == Prepend(done, PutEach(ConflictItem(), at + |done|, cs[k..]))
      invariant NormEach(ConflictItem(), at, cs) == normed + NormEach(ConflictItem(), at + |done|, cs[k..])
      invariant |normed| == k && (cut <==> !ConflictsWhole(cs[..k], normed))
    {
      EachStep(ConflictItem(), at, cs, k, done);
      Law(ConflictItem(), at + |done|, cs[k]);
      var more;
      ok, more := PutConflict(out, cs[k]);
      if !ok {
        return;
      }
      NormStep(ConflictItem(), at, at + |done|, cs, k, normed);
      ConflictsStep(cs, k, normed, ConflictItem().norm(at + |done|, cs[k]));
      cut := cut || more;
      normed := normed + [ConflictItem().norm(at + |done|, cs[k])];
      done := done + ConflictItem().put(at + |done|, cs[k]).value;
    }
    EachEnd(ConflictItem(), at + |done|, cs[|cs|..]);
    assert normed + [] == normed && cs[..|cs|] == cs;
    ok := true;
  }

  lemma ConflictsStep(cs: seq<Conflict>, k: nat, normed: seq<Conflict>, d: Conflict)
    requires k < |cs| && |normed| == k
    ensures ConflictsWhole(cs[..k + 1], normed + [d]) <==> ConflictsWhole(cs[..k], normed) && ConflictWhole(cs[k], d)
  {
    hide ConflictWhole;
    var more := normed + [d];
    assert more[k] == d && cs[..k + 1][k] == cs[k];
    assert forall j :: 0 <= j < k ==> more[j] == normed[j] && cs[..k + 1][j] == cs[..k][j];
  }

  lemma ConflictsPut(at: nat, cs: seq<Conflict>)
    ensures var n := Fitting(Room(at), cs, ConflictCost);
      && Conflicts().put(at, cs) ==
         (if at + 2 > LIMIT then None else Prepend(BigEndian(n, 2), PutEach(ConflictItem(), at + 2, cs[..n])))
      && Conflicts().norm(at, cs) == NormEach(ConflictItem(), at + 2, cs[..n])
  {
    ListedPut(ConflictItem(), KeepFitting(ConflictCost), at, cs);
  }

  /** The count is settled by the paths alone; then each conflict is written with its hunks. */
  method PutConflicts(out: Writer, cs: seq<Conflict>) returns (ok: bool, cut: bool)
    requires |out.data| <= LIMIT && AllOk(ConflictItem(), cs)
    modifies out
    ensures Wrote(old(out.data), out.data, Conflicts().put(|old(out.data)|, cs), ok)
    ensures ok ==> (cut <==> !ConflictsWhole(cs, Conflicts().norm(|old(out.data)|, cs)))
  {
    hide BigEndian, PutEach, NormEach, ConflictItem, Conflicts, ConflictWhole, Fitting;
    ConflictsPut(|out.data|, cs);
    var kept := CountFitting(|out.data|, cs, ConflictCost);
    assert kept == |cs| ==> cs[..kept] == cs;
    cut := kept < |cs|;
    ok := out.Put(BigEndian(kept, 2));
    if !ok {
      return;
    }
    var more;
    ok, more := PutConflictList(out, cs[..kept]);
    cut := cut || more;
  }

  // The report

  method PutHead(out: Writer, head: Option<Id>) returns (ok: bool)
    modifies out
    ensures Wrote(old(out.data), out.data, HeadField().put(|old(out.data)|, head), ok)
  {
    if |out.data| < LIMIT {
      HeadPut(|out.data|, head);
    }
    ok := out.Byte(BoolCode(head.Some?));
    if ok && head.Some? {
      ok := out.Put(head.value);
    }
  }

  lemma HeadPut(at: nat, head: Option<Id>)
    requires at < LIMIT
    ensures HeadField().put(at, head) ==
      if head.None? then Some([0]) else Prepend([1], Raw(at + 1, head.value))
  {
    OptionalPut(CommitIdField(), at, head);
  }

  /** The decisions and the written paths. */
  method PutTrailer(out: Writer, t: (seq<LwwDecision>, seq<Text>)) returns (ok: bool, cut: bool)
    requires |out.data| <= LIMIT && AllOk(LwwItem(), t.0) && AllOk(Clipped(), t.1)
    modifies out
    ensures Wrote(old(out.data), out.data, Pair(Lww(), Lines()).put(|old(out.data)|, t), ok)
    ensures ok ==>
      var u := Pair(Lww(), Lines()).norm(|old(out.data)|, t);
      cut <==> |u.0| != |t.0| || |u.1| != |t.1|
  {
    hide Pair, Lww, Lines, AllOk;
    ghost var at := |out.data|;
    PairPut(Lww(), Lines(), at, t);
    LwwStay(at, t.0);
    ok, cut := PutLww(out, t.0);
    if !ok {
      return;
    }
    LinesStay(|out.data|, t.1);
    var more;
    ok, more := PutLines(out, t.1);
    if ok {
      PairIs(Lww(), Lines(), at, t);
    }
    cut := cut || more;
  }

  lemma LwwStay(at: nat, xs: seq<LwwDecision>)
    requires AllOk(LwwItem(), xs)
    ensures at <= LIMIT && Lww().put(at, xs).Some? ==> at + |Lww().put(at, xs).value| <= LIMIT
    ensures |Lww().norm(at, xs)| <= |xs|
  {
    hide Lawful, TakesSpace, LwwItem;
    LwwLaw();
    Law(Lww(), at, xs);
    ListedPut(LwwItem(), KeepFitting(LwwCost), at, xs);
  }

  lemma ConflictsStay(at: nat, xs: seq<Conflict>)
    requires AllOk(ConflictItem(), xs)
    ensures at <= LIMIT && Conflicts().put(at, xs).Some? ==> at + |Conflicts().put(at, xs).value| <= LIMIT
  {
    hide Lawful, ConflictItem;
    ConflictsLaw();
    Law(Conflicts(), at, xs);
  }

  lemma FlaggedPut(at: nat, v: (Entries, bool))
    ensures FlaggedEntries().put(at, v) ==
      match EntriesParts().put(at, v.0)
      case None => None
      case Some(b) => Prepend(b, Raw(at + |b|, [BoolCode(v.1 || !EntriesWhole(v.0, EntriesParts().norm(at, v.0)))]))
  {
    hide EntriesParts, EntriesWhole;
  }

  method PutEntryLists(out: Writer, e: Entries) returns (ok: bool, cut: bool)
    requires |out.data| <= LIMIT
    requires AllOk(ConflictItem(), e.0) && AllOk(LwwItem(), e.1.0) && AllOk(Clipped(), e.1.1)
    modifies out
    ensures Wrote(old(out.data), out.data, EntriesParts().put(|old(out.data)|, e), ok)
    ensures ok ==> (cut <==> !EntriesWhole(e, EntriesParts().norm(|old(out.data)|, e)))
  {
    hide Pair, Conflicts, Lww, Lines, AllOk, ConflictsWhole, Wrote;
    ghost var s0 := out.data;
    ConflictsStay(|s0|, e.0);
    ok, cut := PutConflicts(out, e.0);
    ghost var s1 := out.data;
    Stays(s0, s1, Conflicts().put(|s0|, e.0), ok);
    if !ok {
      PairWrote(Conflicts(), Pair(Lww(), Lines()), e, s0, s1, s1, false, false);
      return;
    }
    var more;
    ok, more := PutTrailer(out, e.1);
    PairWrote(Conflicts(), Pair(Lww(), Lines()), e, s0, s1, out.data, true, ok);
    if ok {
      WroteSome(s0, out.data, EntriesParts().put(|s0|, e));
      PairIs(Conflicts(), Pair(Lww(), Lines()), |s0|, e);
    }
    cut := cut || more;
  }

  lemma Stays(s0: seq<byte>, s1: seq<byte>, put: Option<seq<byte>>, ok: bool)
    requires Wrote(s0, s1, put, ok) && (put.Some? ==> |s0| + |put.value| <= LIMIT)
    ensures ok ==> put.Some? && |s1| == |s0| + |put.value| <= LIMIT
  {
  }

  lemma WroteSome(s0: seq<byte>, s1: seq<byte>, put: Option<seq<byte>>)
    requires Wrote(s0, s1, put, true)
    ensures put.Some? && s1 == s0 + put.value
  {
  }

  /** The entries and the flag: the caller's, or that something was left out. */
  method PutEntries(out: Writer, e: Entries, truncated: bool) returns (ok: bool)
    requires |out.data| <= LIMIT
    requires AllOk(ConflictItem(), e.0) && AllOk(LwwItem(), e.1.0) && AllOk(Clipped(), e.1.1)
    modifies out
    ensures Wrote(old(out.data), out.data, FlaggedEntries().put(|old(out.data)|, (e, truncated)), ok)
  {
    hide EntriesParts, AllOk, FlaggedEntries, EntriesWhole;
    FlaggedPut(|out.data|, (e, truncated));
    var cut;
    ok, cut := PutEntryLists(out, e);
    if !ok {
      return;
    }
    ok := out.Byte(BoolCode(truncated || cut));
  }

  lemma ReportOk(r: ConflictReport)
    requires ReportField().ok(r)
    ensures AllOk(ConflictItem(), r.conflicts) && AllOk(LwwItem(), r.lww) && AllOk(Clipped(), r.written)
  {
    hide Pair, HeadField, Boolean, ConflictItem, LwwItem, Clipped;
    PairOk(Pair(HeadField(), HeadField()), Pair(Boolean(), FlaggedEntries()), ReportDown(r));
    PairOk(Boolean(), FlaggedEntries(), ReportDown(r).1);
    PairOk(Conflicts(), Pair(Lww(), Lines()), EntriesOf(r));
    PairOk(Lww(), Lines(), (r.lww, r.written));
  }

  method PutHeads(out: Writer, heads: (Option<Id>, Option<Id>)) returns (ok: bool)
    modifies out
    ensures Wrote(old(out.data), out.data, Pair(HeadField(), HeadField()).put(|old(out.data)|, heads), ok)
  {
    hide HeadField, Pair, Wrote;
    ghost var s0 := out.data;
    var first := PutHead(out, heads.0);
    ghost var s1 := out.data;
    ok := first;
    if first {
      ok := PutHead(out, heads.1);
    }
    PairWrote(HeadField(), HeadField(), heads, s0, s1, out.data, first, ok);
  }

  method PutBoolean(out: Writer, b: bool) returns (ok: bool)
    modifies out
    ensures Wrote(old(out.data), out.data, Boolean().put(|old(out.data)|, b), ok)
    ensures ok ==> |out.data| <= LIMIT
  {
    hide Coded;
    CodedIs(BoolCode, BoolOf, |out.data|, b);
    ok := out.Byte(BoolCode(b));
  }

  /** `put_report`: appends exactly the report's record, or fails exactly when there is none. */
  method PutReport(out: Writer, r: ConflictReport) returns (ok: bool)
    requires |out.data| <= LIMIT && ReportField().ok(r)
    modifies out
    ensures Wrote(old(out.data), out.data, ReportField().put(|old(out.data)|, r), ok)
  {
    hide HeadField, FlaggedEntries, Pair, Boolean, Wrote, AllOk;
    ReportOk(r);
    ghost var s0 := out.data;
    var first := PutHeads(out, (r.head, r.base));
    ghost var s1 := out.data;
    ok := first;
    if first {
      var second := PutBoolean(out, r.markers);
      ghost var s2 := out.data;
      ok := second;
      if second {
        ok := PutEntries(out, (r.conflicts, (r.lww, r.written)), r.truncated);
      }
      PairWrote(Boolean(), FlaggedEntries(), ReportDown(r).1, s1, s2, out.data, second, ok);
    }
    PairWrote(Pair(HeadField(), HeadField()), Pair(Boolean(), FlaggedEntries()), ReportDown(r), s0, s1, out.data,
      first, ok);
  }

  // The Dirty refusal

  method PutBytes(out: Writer, n: nat, valid: seq<byte> -> bool, v: seq<byte>) returns (ok: bool)
    modifies out
    ensures Wrote(old(out.data), out.data, Fixed(n, valid).put(|old(out.data)|, v), ok)
  {
    ok := out.Put(v);
  }

  method PutNumber(out: Writer, v: nat) returns (ok: bool)
    modifies out
    ensures Wrote(old(out.data), out.data, U64().put(|old(out.data)|, v), ok)
  {
    hide BigEndian;
    ok := out.Put(BigEndian(v, 8));
  }

  lemma NamespacePut(at: nat, n: int)
    requires NamespaceField().ok(n)
    ensures Twist(n) >= 0
    ensures NamespaceField().put(at, n) == if n > 0 then Raw(at, BigEndian(Twist(n), 8)) else None
  {
    hide BigEndian, Pow256;
    assert Unsigned(8).ok(Twist(n));
    assert I64().put(at, n) == Raw(at, BigEndian(Twist(n), 8));
  }

  /** `put_token`: refuses a namespace that is not positive before it writes. */
  method PutToken(out: Writer, t: WorkspaceToken) returns (ok: bool)
    requires TokenField().ok(t)
    modifies out
    ensures Wrote(old(out.data), out.data, TokenField().put(|old(out.data)|, t), ok)
  {
    hide Pair, WorkspaceIdField, NamespaceField, Wrote, BigEndian;
    ghost var s0 := out.data;
    PairOk(WorkspaceIdField(), NamespaceField(), TokenDown(t));
    PairPut(WorkspaceIdField(), NamespaceField(), |s0|, TokenDown(t));
    if t.namespace <= 0 {
      forall at: nat ensures NamespaceField().put(at, t.namespace) == None {
        NamespacePut(at, t.namespace);
      }
      NotWrote(s0, TokenField().put(|s0|, t));
      return false;
    }
    var first := PutWorkspace(out, t.workspace);
    ghost var s1 := out.data;
    ok := first;
    if first {
      NamespacePut(|out.data|, t.namespace);
      ok := out.Put(BigEndian(Twist(t.namespace), 8));
      WroteRaw(s1, out.data, BigEndian(Twist(t.namespace), 8), ok);
    }
    PairWrote(WorkspaceIdField(), NamespaceField(), TokenDown(t), s0, s1, out.data, first, ok);
  }

  method PutWorkspace(out: Writer, id: Id) returns (ok: bool)
    modifies out
    ensures Wrote(old(out.data), out.data, WorkspaceIdField().put(|old(out.data)|, id), ok)
  {
    ok := PutBytes(out, 32, NonZero, id);
  }

  lemma NotWrote(s0: seq<byte>, put: Option<seq<byte>>)
    requires put == None
    ensures Wrote(s0, s0, put, false)
  {
  }

  lemma WroteRaw(s0: seq<byte>, s1: seq<byte>, b: seq<byte>, ok: bool)
    requires (ok <==> Raw(|s0|, b).Some?) && s1 == if ok then s0 + b else s0
    ensures Wrote(s0, s1, Raw(|s0|, b), ok)
  {
  }

  method PutCounts(out: Writer, n: nat, m: nat) returns (ok: bool)
    modifies out
    ensures Wrote(old(out.data), out.data, Pair(U64(), U64()).put(|old(out.data)|, (n, m)), ok)
  {
    hide Pair, U64, Wrote;
    ghost var s0 := out.data;
    var first := PutNumber(out, n);
    ghost var s1 := out.data;
    ok := first;
    if first {
      ok := PutNumber(out, m);
    }
    PairWrote(U64(), U64(), (n, m), s0, s1, out.data, first, ok);
  }

  lemma FlaggedLinesPut(at: nat, v: (seq<Text>, bool))
    ensures FlaggedLines().put(at, v) ==
      match Lines().put(at, v.0)
      case None => None
      case Some(b) => Prepend(b, Raw(at + |b|, [BoolCode(v.1 || |Lines().norm(at, v.0)| < |v.0|)]))
  {
    hide Lines;
  }

  method PutFlaggedLines(out: Writer, lines: seq<Text>, truncated: bool) returns (ok: bool)
    requires |out.data| <= LIMIT && AllOk(Clipped(), lines)
    modifies out
    ensures Wrote(old(out.data), out.data, FlaggedLines().put(|old(out.data)|, (lines, truncated)), ok)
  {
    hide FlaggedLines, Lines, AllOk;
    FlaggedLinesPut(|out.data|, (lines, truncated));
    var cut;
    ok, cut := PutLines(out, lines);
    if !ok {
      return;
    }
    ok := out.Byte(BoolCode(truncated || cut));
  }

  lemma DirtyOk(d: DirtyReport)
    requires DirtyField().ok(d)
    ensures TokenField().ok(d.token) && d.inodes >= 0 && d.entries >= 0 && AllOk(Clipped(), d.paths)
  {
    hide Pair, DirtyHeader, Boolean, TokenField, Clipped;
    PairOk(DirtyHeader(), Pair(Boolean(), FlaggedLines()), DirtyDown(d));
    PairOk(Boolean(), FlaggedLines(), DirtyDown(d).1);
    HeaderParts(DirtyDown(d).0);
  }

  /** `put_dirty`: appends exactly the refusal's record, or fails exactly when there is none. */
  method PutDirty(out: Writer, d: DirtyReport) returns (ok: bool)
    requires |out.data| <= LIMIT && DirtyField().ok(d)
    modifies out
    ensures Wrote(old(out.data), out.data, DirtyField().put(|old(out.data)|, d), ok)
  {
    hide Pair, TokenField, U64, Boolean, FlaggedLines, AllOk, Wrote;
    DirtyOk(d);
    ghost var s0 := out.data;
    var first := PutToken(out, d.token);
    ghost var s1 := out.data;
    var header := first;
    if first {
      header := PutCounts(out, d.inodes, d.entries);
    }
    ghost var s2 := out.data;
    PairWrote(TokenField(), Pair(U64(), U64()), DirtyDown(d).0, s0, s1, s2, first, header);
    ok := header;
    if header {
      var third := PutBoolean(out, d.pendingMerge);
      ghost var s3 := out.data;
      ok := third;
      if third {
        ok := PutFlaggedLines(out, d.paths, d.truncated);
      }
      PairWrote(Boolean(), FlaggedLines(), DirtyDown(d).1, s2, s3, out.data, third, ok);
    }
    PairWrote(DirtyHeader(), Pair(Boolean(), FlaggedLines()), DirtyDown(d), s0, s2, out.data, header, ok);
  }
}
