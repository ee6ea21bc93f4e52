/** The conflict report, the merged Commit and the Dirty refusal as records. */
module MergeReplies {
  import opened Wrappers
  import opened Bytes
  import opened Wire
  import opened Codec
  import opened ListCodec
  import opened HistoryRecords
  import opened MergeTypes
  import opened MergeReport
  import Utf8

  datatype ConflictReport = ConflictReport(
    head: Option<Id>,
    base: Option<Id>,
    markers: bool,
    conflicts: seq<Conflict>,
    lww: seq<LwwDecision>,
    written: seq<Text>,
    truncated: bool)

  type Entries = (seq<Conflict>, (seq<LwwDecision>, seq<Text>))

  function EntriesParts(): Codec<Entries> { Pair(Conflicts(), Pair(Lww(), Lines())) }

  // Nothing dropped

  predicate HunkWhole(h: Hunk, g: Hunk) { |g.ours| == |h.ours| && |g.theirs| == |h.theirs| }

  predicate ConflictWhole(c: Conflict, d: Conflict) {
    |d.hunks| == |c.hunks| && forall k :: 0 <= k < |d.hunks| ==> HunkWhole(c.hunks[k], d.hunks[k])
  }

  predicate ConflictsWhole(cs: seq<Conflict>, ds: seq<Conflict>) {
    |ds| == |cs| && forall k :: 0 <= k < |ds| ==> ConflictWhole(cs[k], ds[k])
  }

  predicate EntriesWhole(e: Entries, f: Entries) {
    ConflictsWhole(e.0, f.0) && |f.1.0| == |e.1.0| && |f.1.1| == |e.1.1|
  }

  /** Some conflict, hunk, line, decision or path is left out when written at `at`. */
  function EntriesLost(at: nat, e: Entries): bool { !EntriesWhole(e, EntriesParts().norm(at, e)) }

  type ReportFields = ((Option<Id>, Option<Id>), (bool, (Entries, bool)))

  function ReportDown(r: ConflictReport): ReportFields {
    ((r.head, r.base), (r.markers, ((r.conflicts, (r.lww, r.written)), r.truncated)))
  }
  function ReportUp(f: ReportFields): ConflictReport {
    ConflictReport(f.0.0, f.0.1, f.1.0, f.1.1.0.0, f.1.1.0.1.0, f.1.1.0.1.1, f.1.1.1)
  }
  function FlaggedEntries(): Codec<(Entries, bool)> { Flagged(EntriesParts(), EntriesLost) }
  function ReportParts(): Codec<ReportFields> {
    Pair(Pair(HeadField(), HeadField()), Pair(Boolean(), FlaggedEntries()))
  }
  function ReportField(): Codec<ConflictReport> { Via(ReportParts(), ReportDown, ReportUp) }

  lemma EntriesLaw()
    ensures Lawful(EntriesParts())
  {
    hide Lawful, Pair, Conflicts, Lww, Lines, TakesSpace;
    ConflictsLaw();
    LwwLaw();
    LinesLaw();
    PairLaw(Lww(), Lines());
    PairLaw(Conflicts(), Pair(Lww(), Lines()));
  }

  lemma FlaggedEntriesLaw()
    ensures Lawful(FlaggedEntries())
  {
    hide Lawful, EntriesParts;
    EntriesLaw();
    forall at: nat, e | at <= LIMIT && EntriesParts().ok(e) && EntriesParts().put(at, e).Some?
      ensures !EntriesLost(at, EntriesParts().norm(at, e))
    {
      Law(EntriesParts(), at, e);
    }
    FlaggedLaw(EntriesParts(), EntriesLost);
  }

  lemma ReportLaw()
    ensures Lawful(ReportField())
  {
    hide Lawful, Exact, Pair, HeadField, Boolean, FlaggedEntries;
    HeadFaithful();
    BooleanFaithful();
    FlaggedEntriesLaw();
    PairLaw(HeadField(), HeadField());
    PairLaw(Boolean(), FlaggedEntries());
    PairLaw(Pair(HeadField(), HeadField()), Pair(Boolean(), FlaggedEntries()));
    ViaLaw(ReportParts(), ReportDown, ReportUp);
  }

  /** Prefixes of the lists with clipped texts. */
  predicate EntriesCut(e: Entries, f: Entries) {
    && |f.0| <= |e.0| && (forall k :: 0 <= k < |f.0| ==> ConflictCut(e.0[k], f.0[k]))
    && |f.1.0| <= |e.1.0| && (forall k :: 0 <= k < |f.1.0| ==> f.1.0[k] == LwwCut(e.1.0[k]))
    && LinesCut(e.1.1, f.1.1)
  }

  function EntriesOf(r: ConflictReport): Entries { (r.conflicts, (r.lww, r.written)) }

  /** A report with the same heads and marker flag, and its entries cut. */
  predicate ReportCut(r: ConflictReport, s: ConflictReport) {
    s.head == r.head && s.base == r.base && s.markers == r.markers && EntriesCut(EntriesOf(r), EntriesOf(s))
  }

  predicate ReportWhole(r: ConflictReport, s: ConflictReport) { EntriesWhole(EntriesOf(r), EntriesOf(s)) }

  lemma EntriesAre(at: nat, e: Entries)
    requires EntriesParts().put(at, e).Some?
    ensures EntriesCut(e, EntriesParts().norm(at, e))
  {
    hide Pair, Conflicts, Lww, Lines, ConflictCut, LwwCut, LinesCut;
    PairIs(Conflicts(), Pair(Lww(), Lines()), at, e);
    var mid := at + |Conflicts().put(at, e.0).value|;
    PairIs(Lww(), Lines(), mid, e.1);
    ConflictsAre(at, e.0);
    LwwAre(mid, e.1.0);
    LinesAre(mid + |Lww().put(mid, e.1.0).value|, e.1.1);
  }

  lemma FlaggedEntriesAre(at: nat, v: (Entries, bool))
    requires FlaggedEntries().put(at, v).Some?
    ensures EntriesParts().put(at, v.0).Some?
    ensures var f := FlaggedEntries().norm(at, v);
      f.0 == EntriesParts().norm(at, v.0) && (f.1 <==> v.1 || !EntriesWhole(v.0, f.0))
  {
    hide EntriesParts, EntriesWhole;
  }

  /** Where the entries of a report start. */
  function EntriesAt(at: nat, r: ConflictReport): nat
    requires HeadField().put(at, r.head).Some?
    requires HeadField().put(at + |HeadField().put(at, r.head).value|, r.base).Some?
  {
    var next := at + |HeadField().put(at, r.head).value|;
    next + |HeadField().put(next, r.base).value| + 1
  }

  lemma BooleanIs(at: nat, b: bool)
    ensures Boolean().put(at, b).Some? <==> at + 1 <= LIMIT
    ensures Boolean().put(at, b).Some? ==> |Boolean().put(at, b).value| == 1
    ensures Boolean().norm(at, b) == b
  {
    CodedIs(BoolCode, BoolOf, at, b);
  }

  lemma HeadsAre(at: nat, v: (Option<Id>, Option<Id>))
    requires Pair(HeadField(), HeadField()).put(at, v).Some?
    ensures HeadField().put(at, v.0).Some? && HeadField().put(at + |HeadField().put(at, v.0).value|, v.1).Some?
    ensures var next := at + |HeadField().put(at, v.0).value|;
      at + |Pair(HeadField(), HeadField()).put(at, v).value| == next + |HeadField().put(next, v.1).value|
    ensures Pair(HeadField(), HeadField()).norm(at, v) == v
  {
    hide Pair, HeadField, Faithful;
    PairIs(HeadField(), HeadField(), at, v);
    HeadFaithful();
    Unchanged(HeadField(), at, v.0);
    Unchanged(HeadField(), at + |HeadField().put(at, v.0).value|, v.1);
  }

  lemma ReportSplits(at: nat, r: ConflictReport)
    requires ReportField().put(at, r).Some?
    ensures HeadField().put(at, r.head).Some? && HeadField().put(at + |HeadField().put(at, r.head).value|, r.base).Some?
    ensures FlaggedEntries().put(EntriesAt(at, r), (EntriesOf(r), r.truncated)).Some?
    ensures ReportField().norm(at, r) ==
      ReportUp(((r.head, r.base), (r.markers, FlaggedEntries().norm(EntriesAt(at, r), (EntriesOf(r), r.truncated)))))
  {
    hide Pair, HeadField, Boolean, FlaggedEntries;
    var heads := Pair(HeadField(), HeadField());
    PairIs(heads, Pair(Boolean(), FlaggedEntries()), at, ReportDown(r));
    HeadsAre(at, (r.head, r.base));
    var p := at + |heads.put(at, (r.head, r.base)).value|;
    PairIs(Boolean(), FlaggedEntries(), p, ReportDown(r).1);
    BooleanIs(p, r.markers);
    assert p + 1 == EntriesAt(at, r);
  }

  lemma ReportIs(at: nat, r: ConflictReport)
    requires ReportField().put(at, r).Some?
    ensures var s := ReportField().norm(at, r);
      ReportCut(r, s) && (s.truncated <==> r.truncated || !ReportWhole(r, s))
  {
    hide ReportField, HeadField, FlaggedEntries, EntriesParts, EntriesCut, EntriesWhole;
    ReportSplits(at, r);
    var q, e := EntriesAt(at, r), (EntriesOf(r), r.truncated);
    FlaggedEntriesAre(q, e);
    EntriesAre(q, EntriesOf(r));
    assert EntriesOf(ReportField().norm(at, r)) == FlaggedEntries().norm(q, e).0;
  }

  /**
    A report that is written is read back as prefixes of its lists with clipped
    texts, marked truncated exactly when it was already or an entry was dropped.
  */
  lemma ReportArrives(at: nat, r: ConflictReport, rest: seq<byte>)
    requires at <= LIMIT && ReportField().ok(r) && ReportField().put(at, r).Some?
    ensures ReportField().get(ReportField().put(at, r).value + rest).Some?
    ensures var (s, after) := ReportField().get(ReportField().put(at, r).value + rest).value;
      after == rest && ReportCut(r, s) && (s.truncated <==> r.truncated || !ReportWhole(r, s))
  {
    hide ReportField, ReportCut, ReportWhole, Lawful;
    ReportLaw();
    Law(ReportField(), at, r);
    ReportIs(at, r);
  }

  // What an unflagged report has lost

  predicate Short(s: Text) { |s| <= TEXT_FIELD_LIMIT }

  predicate ShortLines(xs: seq<Text>) { forall k :: 0 <= k < |xs| ==> Short(xs[k]) }

  predicate ShortHunk(h: Hunk) { h.line < 0x1_0000_0000 && ShortLines(h.ours) && ShortLines(h.theirs) }

  predicate ShortConflict(c: Conflict) {
    Short(c.path) && forall k :: 0 <= k < |c.hunks| ==> ShortHunk(c.hunks[k])
  }

  /** No text is longer than 4096 bytes, and no hunk's line number wider than 32 bits. */
  predicate ShortReport(r: ConflictReport) {
    && (forall k :: 0 <= k < |r.conflicts| ==> ShortConflict(r.conflicts[k]))
    && (forall k :: 0 <= k < |r.lww| ==> Short(r.lww[k].path) && Short(r.lww[k].rule))
    && ShortLines(r.written)
  }

  lemma ClipIsSame(s: Text)
    ensures Clip(s) == s <==> Short(s)
  {
    hide Utf8.IsBoundary;
    EndIsBoundary(s);
  }

  lemma LinesAreSame(xs: seq<Text>, ys: seq<Text>)
    requires LinesCut(xs, ys) && |ys| == |xs|
    ensures ys == xs <==> ShortLines(xs)
  {
    hide Clip, Short;
    forall k | 0 <= k < |xs| ensures ys[k] == xs[k] <==> Short(xs[k]) {
      ClipIsSame(xs[k]);
    }
  }

  lemma HunkIsSame(h: Hunk, g: Hunk)
    requires HunkCut(h, g) && HunkWhole(h, g)
    ensures g == h <==> ShortHunk(h)
  {
    hide LinesCut, ShortLines;
    LinesAreSame(h.ours, g.ours);
    LinesAreSame(h.theirs, g.theirs);
  }

  lemma ConflictIsSame(c: Conflict, d: Conflict)
    requires ConflictCut(c, d) && ConflictWhole(c, d)
    ensures d == c <==> ShortConflict(c)
  {
    hide Clip, Short, HunkCut, HunkWhole, ShortHunk;
    ClipIsSame(c.path);
    forall k | 0 <= k < |c.hunks| ensures d.hunks[k] == c.hunks[k] <==> ShortHunk(c.hunks[k]) {
      HunkIsSame(c.hunks[k], d.hunks[k]);
    }
  }

  lemma ReportIsSame(r: ConflictReport, s: ConflictReport)
    requires ReportCut(r, s) && ReportWhole(r, s) && s.truncated == r.truncated
    ensures s == r <==> ShortReport(r)
  {
    hide ConflictCut, ConflictWhole, ShortConflict, Clip, LinesCut, ShortLines, Short;
    forall k | 0 <= k < |r.conflicts| ensures s.conflicts[k] == r.conflicts[k] <==> ShortConflict(r.conflicts[k]) {
      ConflictIsSame(r.conflicts[k], s.conflicts[k]);
    }
    forall k | 0 <= k < |r.lww| ensures s.lww[k] == r.lww[k] <==> Short(r.lww[k].path) && Short(r.lww[k].rule) {
      ClipIsSame(r.lww[k].path);
      ClipIsSame(r.lww[k].rule);
    }
    LinesAreSame(r.written, s.written);
  }

  /**
    A report that arrives unflagged has every entry, hunk and line; but it is the
    one that was sent if and only if no text was longer than 4096 bytes and no line
    number wider than 32 bits. Nothing tells the reader which.
  */
  lemma UnflaggedCanDiffer(at: nat, r: ConflictReport, rest: seq<byte>)
    requires at <= LIMIT && ReportField().ok(r) && ReportField().put(at, r).Some?
    ensures match ReportField().get(ReportField().put(at, r).value + rest)
      case None => false
      case Some((s, after)) => after == rest && (!s.truncated ==> ReportWhole(r, s) && (s == r <==> ShortReport(r)))
  {
    hide ReportField, ReportCut, ReportWhole, ShortReport;
    ReportArrives(at, r, rest);
    var (s, after) := ReportField().get(ReportField().put(at, r).value + rest).value;
    if !s.truncated {
      ReportIsSame(r, s);
    }
  }

  // When a report can be written

  /** The decisions, the written paths and the flag need five bytes and no more than is left. */
  lemma TrailerFits(at: nat, t: (seq<LwwDecision>, seq<Text>))
    ensures (Pair(Lww(), Lines()).put(at, t).Some? && at + |Pair(Lww(), Lines()).put(at, t).value| + 1 <= LIMIT)
      <==> at + 5 <= LIMIT
  {
    hide Pair, Lww, Lines;
    if at + 5 <= LIMIT {
      LwwFits(at, t.0);
      LinesFit(at + |Lww().put(at, t.0).value|, t.1);
      PairOf(Lww(), Lines(), at, t);
    } else if Pair(Lww(), Lines()).put(at, t).Some? {
      PairIs(Lww(), Lines(), at, t);
      LwwCount(at, t.0);
      LinesCount(at + |Lww().put(at, t.0).value|, t.1);
    }
  }

  lemma LwwCount(at: nat, xs: seq<LwwDecision>)
    ensures Lww().put(at, xs).Some? ==> |Lww().put(at, xs).value| >= 2
  {
    if Lww().put(at, xs).Some? {
      ListedIs(LwwItem(), KeepFitting(LwwCost), at, xs);
    }
  }

  lemma LinesCount(at: nat, xs: seq<Text>)
    ensures Lines().put(at, xs).Some? ==> |Lines().put(at, xs).value| >= 2
  {
    if Lines().put(at, xs).Some? {
      ListedIs(Clipped(), KeepFitting(TextCost), at, xs);
    }
  }

  lemma LwwFits(at: nat, xs: seq<LwwDecision>)
    requires at + 2 <= LIMIT
    ensures Lww().put(at, xs).Some?
    ensures at + |Lww().put(at, xs).value| <= (if Room(at) < 0 then at else LIMIT - RESERVE) + 2
  {
    hide LwwItem;
    forall k | 0 <= k < |xs| ensures Costed(LwwItem(), xs[k], LwwCost(xs[k])) {
      LwwIsCosted(xs[k]);
    }
    WindowFits(LwwItem(), LwwCost, at, xs);
  }

  lemma LinesFit(at: nat, xs: seq<Text>)
    requires at + 2 <= LIMIT
    ensures Lines().put(at, xs).Some?
    ensures at + |Lines().put(at, xs).value| <= (if Room(at) < 0 then at else LIMIT - RESERVE) + 2
  {
    hide Clipped;
    forall k | 0 <= k < |xs| ensures Costed(Clipped(), xs[k], TextCost(xs[k])) {
      ClippedIsCosted(xs[k]);
    }
    WindowFits(Clipped(), TextCost, at, xs);
  }

  /** The entries and their flag are written exactly when the conflicts are and five bytes remain. */
  lemma EntriesFit(at: nat, e: Entries, truncated: bool)
    ensures FlaggedEntries().put(at, (e, truncated)).Some? <==>
      Conflicts().put(at, e.0).Some? && at + |Conflicts().put(at, e.0).value| + 5 <= LIMIT
  {
    hide Pair, Conflicts, Lww, Lines, EntriesLost;
    if Conflicts().put(at, e.0).Some? {
      var mid := at + |Conflicts().put(at, e.0).value|;
      TrailerFits(mid, e.1);
      if Pair(Lww(), Lines()).put(mid, e.1).Some? {
        PairOf(Conflicts(), Pair(Lww(), Lines()), at, e);
      }
    }
    if EntriesParts().put(at, e).Some? {
      PairIs(Conflicts(), Pair(Lww(), Lines()), at, e);
    }
  }

  lemma HeadFits(at: nat, head: Option<Id>)
    requires HeadField().ok(head) && at + 34 <= LIMIT
    ensures HeadField().put(at, head).Some? && |HeadField().put(at, head).value| <= 34
  {
  }

  /** With well-formed heads, only the conflicts can keep a report from being written. */
  lemma ConflictsDecide(at: nat, r: ConflictReport)
    requires at + 69 <= LIMIT && HeadField().ok(r.head) && HeadField().ok(r.base)
    ensures HeadField().put(at, r.head).Some? && HeadField().put(at + |HeadField().put(at, r.head).value|, r.base).Some?
    ensures EntriesAt(at, r) <= at + 69
    ensures var q := EntriesAt(at, r);
      ReportField().put(at, r).Some? <==>
      Conflicts().put(q, r.conflicts).Some? && q + |Conflicts().put(q, r.conflicts).value| + 5 <= LIMIT
  {
    hide Pair, HeadField, FlaggedEntries, Conflicts, Boolean;
    HeadFits(at, r.head);
    var next := at + |HeadField().put(at, r.head).value|;
    HeadFits(next, r.base);
    var q := EntriesAt(at, r);
    EntriesFit(q, EntriesOf(r), r.truncated);
    if FlaggedEntries().put(q, (EntriesOf(r), r.truncated)).Some? {
      BooleanIs(q - 1, r.markers);
      PairOf(HeadField(), HeadField(), at, (r.head, r.base));
      PairOf(Boolean(), FlaggedEntries(), q - 1, ReportDown(r).1);
      PairOf(Pair(HeadField(), HeadField()), Pair(Boolean(), FlaggedEntries()), at, ReportDown(r));
    }
    if ReportField().put(at, r).Some? {
      ReportSplits(at, r);
    }
  }

  /** Without hunks a report is always written, whatever the number and length of its entries. */
  lemma NoHunksAlwaysEncodes(at: nat, r: ConflictReport)
    requires at + 69 <= LIMIT - RESERVE && HeadField().ok(r.head) && HeadField().ok(r.base)
    requires forall k :: 0 <= k < |r.conflicts| ==> r.conflicts[k].hunks == []
    ensures ReportField().put(at, r).Some?
  {
    hide HeadField, ReportField, ConflictItem, EntriesAt;
    ConflictsDecide(at, r);
    forall k | 0 <= k < |r.conflicts| ensures Costed(ConflictItem(), r.conflicts[k], ConflictCost(r.conflicts[k])) {
      NoHunksIsCosted(r.conflicts[k]);
    }
    WindowFits(ConflictItem(), ConflictCost, EntriesAt(at, r), r.conflicts);
  }

  function OnePath(p: Text): ConflictReport { ConflictReport(None, None, false, [], [], [p], false) }

  lemma OnePathIs(at: nat, p: Text)
    requires at <= 1024
    ensures ReportField().put(at, OnePath(p)).Some?
    ensures ReportField().norm(at, OnePath(p)) == OnePath(Clip(p))
  {
    hide ReportField, FlaggedEntries, EntriesParts, Pair, Conflicts, Lww, Lines, Clip, HeadField;
    var r := OnePath(p);
    NoHeadIsOk(at);
    NoHunksAlwaysEncodes(at, r);
    ConflictsDecide(at, r);
    ReportSplits(at, r);
    var q := EntriesAt(at, r);
    FlaggedEntriesAre(q, (EntriesOf(r), false));
    OnePathArrives(q, p);
  }

  lemma OnePathIsOk(p: Text)
    requires Utf8.Valid(p)
    ensures ReportField().ok(OnePath(p))
  {
    hide Pair, Utf8.Valid;
    var r := OnePath(p);
    PairOk(Pair(HeadField(), HeadField()), Pair(Boolean(), FlaggedEntries()), ReportDown(r));
    PairOk(HeadField(), HeadField(), (None, None));
    PairOk(Boolean(), FlaggedEntries(), ReportDown(r).1);
    PairOk(Conflicts(), Pair(Lww(), Lines()), EntriesOf(r));
    PairOk(Lww(), Lines(), ([], [p]));
  }

  /** Any one path is read back clipped and not flagged: `truncated` speaks of entries only. */
  lemma OnePathIsClipped(at: nat, p: Text, rest: seq<byte>)
    requires at <= 1024 && Utf8.Valid(p)
    ensures ReportField().put(at, OnePath(p)).Some?
    ensures ReportField().get(ReportField().put(at, OnePath(p)).value + rest) == Some((OnePath(Clip(p)), rest))
  {
    hide ReportField, Clip, Lawful;
    OnePathIs(at, p);
    OnePathIsOk(p);
    ReportLaw();
    Law(ReportField(), at, OnePath(p));
  }

  function As(n: nat): Text { seq(n, _ => 97) }

  lemma {:induction false} AsAreText(n: nat)
    ensures Utf8.Valid(As(n))
    decreases n
  {
    if n > 0 {
      AsAreText(n - 1);
      assert As(n)[1..] == As(n - 1);
    }
  }

  /** A path of 4097 letters arrives one letter short, in a report that says nothing is missing. */
  lemma LongPathLosesItsEnd(at: nat)
    requires at <= 1024
    ensures ReportField().put(at, OnePath(As(4097))).Some?
    ensures ReportField().get(ReportField().put(at, OnePath(As(4097))).value) == Some((OnePath(As(4096)), []))
  {
    hide ReportField, Utf8.Valid;
    var p := As(4097);
    AsAreText(4097);
    OnePathIsClipped(at, p, []);
    assert ReportField().put(at, OnePath(p)).value + [] == ReportField().put(at, OnePath(p)).value;
    assert Clip(p) == As(4096) by {
      assert Utf8.IsBoundary(p, 4096);
    }
  }

  /** A hunk at line 2^32 is read back at line 0. */
  lemma WideLineArrivesAsZero(at: nat)
    requires at <= 1024
    ensures HunkItem().put(at, Hunk(0x1_0000_0000, [], [])).Some?
    ensures HunkItem().get(HunkItem().put(at, Hunk(0x1_0000_0000, [], [])).value) == Some((Hunk(0, [], []), []))
  {
    hide HunkItem, Lawful, TakesSpace;
    var h := Hunk(0x1_0000_0000, [], []);
    EmptyHunkIsOk(0x1_0000_0000);
    EmptyHunkPuts(at, 0x1_0000_0000);
    HunkItemLaw();
    Law(HunkItem(), at, h);
    HunkItemIs(at, h);
    assert HunkItem().put(at, h).value + [] == HunkItem().put(at, h).value;
  }

  lemma EmptyHunkIsOk(line: nat)
    ensures HunkItem().ok(Hunk(line, [], []))
  {
    assert Lines().ok([]);
    assert Pair(Lines(), Lines()).ok(([], []));
    assert HunkParts().ok((line, ([], []))) && HunkDown(Hunk(line, [], [])) == (line, ([], []));
  }

  lemma EmptyHunkPuts(at: nat, line: nat)
    requires at <= 1024
    ensures HunkItem().put(at, Hunk(line, [], [])).Some?
  {
    hide Pair, Lines, BigEndian;
    assert |BigEndian(line, 4)| == 4;
    LinesFit(at + 4, []);
    LinesFit(at + 4 + |Lines().put(at + 4, []).value|, []);
    PairOf(Lines(), Lines(), at + 4, ([], []));
    PairOf(LineNumber(), Pair(Lines(), Lines()), at, (line, ([], [])));
    ViaPut(HunkParts(), HunkDown, HunkUp, at, Hunk(line, [], []));
  }

  lemma NoHeadIsOk(at: nat)
    ensures HeadField().ok(None)
  {
  }

  lemma OnePathArrives(at: nat, p: Text)
    requires at <= 2048 && EntriesParts().put(at, ([], ([], [p]))).Some?
    ensures EntriesParts().norm(at, ([], ([], [p]))) == ([], ([], [Clip(p)]))
  {
    hide Pair, Clip, Conflicts, Lww, Lines;
    var e: Entries := ([], ([], [p]));
    PairIs(Conflicts(), Pair(Lww(), Lines()), at, e);
    var mid := at + |Conflicts().put(at, []).value|;
    PairIs(Lww(), Lines(), mid, e.1);
    NothingListed(at);
    NothingListed(mid);
    ConflictsAre(at, []);
    LwwAre(mid, []);
    LinesAre(mid + 2, [p]);
    assert Lines().norm(mid + 2, [p]) == [Clip(p)];
  }

  lemma NothingListed(at: nat)
    requires at <= 4096
    ensures Conflicts().put(at, []).Some? && |Conflicts().put(at, []).value| == 2
    ensures Lww().put(at, []).Some? && |Lww().put(at, []).value| == 2
  {
    hide Listed, ConflictItem, LwwItem, BigEndian;
    EmptyList(ConflictItem(), KeepFitting(ConflictCost), at);
    EmptyList(LwwItem(), KeepFitting(LwwCost), at);
    assert |BigEndian(0, 2)| == 2;
  }

  // A merged Commit

  datatype MergedCommit = MergedCommit(outcome: CommitOutcome, from: Option<Id>, head: Option<Id>,
    lww: seq<LwwDecision>)

  type MergedFields = (CommitOutcome, ((Option<Id>, Option<Id>), seq<LwwDecision>))

  function MergedDown(m: MergedCommit): MergedFields { (m.outcome, ((m.from, m.head), m.lww)) }
  function MergedUp(f: MergedFields): MergedCommit { MergedCommit(f.0, f.1.0.0, f.1.0.1, f.1.1) }
  function MergedParts(): Codec<MergedFields> { Pair(OutcomeField(), Pair(Pair(HeadField(), HeadField()), Lww())) }
  function MergedField(): Codec<MergedCommit> { Via(MergedParts(), MergedDown, MergedUp) }

  /** A prefix of the decisions, with clipped texts. */
  predicate LwwSent(xs: seq<LwwDecision>, ys: seq<LwwDecision>) {
    |ys| <= |xs| && forall k :: 0 <= k < |ys| ==> ys[k] == LwwCut(xs[k])
  }

  predicate MergedEnds(f: ((Option<Id>, Option<Id>), seq<LwwDecision>),
      g: ((Option<Id>, Option<Id>), seq<LwwDecision>)) {
    g.0 == f.0 && LwwSent(f.1, g.1)
  }
  predicate MergedWhole(f: MergedFields, g: MergedFields) { OutcomeSent(f.0, g.0) && MergedEnds(f.1, g.1) }

  predicate MergedSent(m: MergedCommit, n: MergedCommit) {
    OutcomeSent(m.outcome, n.outcome) && n.from == m.from && n.head == m.head && LwwSent(m.lww, n.lww)
  }

  lemma MergedLaw()
    ensures Lawful(MergedField())
  {
    hide Lawful, Exact, Pair, OutcomeField, HeadField, Lww, TakesSpace;
    OutcomeLaw();
    HeadFaithful();
    LwwLaw();
    PairLaw(HeadField(), HeadField());
    PairLaw(Pair(HeadField(), HeadField()), Lww());
    PairLaw(OutcomeField(), Pair(Pair(HeadField(), HeadField()), Lww()));
    ViaLaw(MergedParts(), MergedDown, MergedUp);
  }

  lemma MergedBecomes()
    ensures Becomes(MergedField(), MergedSent)
  {
    hide Faithful, Becomes, Pair, OutcomeField, HeadField, LwwSent, OutcomeSent;
    var heads := Pair(HeadField(), HeadField());
    OutcomeBecomes();
    HeadFaithful();
    PairFaithful(HeadField(), HeadField());
    FaithfulBecomes(heads, Equal);
    LwwBecomes();
    PairBecomes(heads, Lww(), Equal, LwwSent, MergedEnds);
    PairBecomes(OutcomeField(), Pair(heads, Lww()), OutcomeSent, MergedEnds, MergedWhole);
    ViaBecomes(MergedParts(), MergedDown, MergedUp, MergedWhole, MergedSent);
  }

  lemma LwwBecomes()
    ensures Becomes(Lww(), LwwSent)
  {
    hide Lww, LwwCut;
    forall at: nat, xs | Lww().put(at, xs).Some? ensures LwwSent(xs, Lww().norm(at, xs)) {
      LwwAre(at, xs);
    }
  }

  // The Dirty refusal

  datatype DirtyReport = DirtyReport(
    token: WorkspaceToken, paths: seq<Text>, inodes: int, entries: int, pendingMerge: bool, truncated: bool)

  type DirtyFields = ((WorkspaceToken, (int, int)), (bool, (seq<Text>, bool)))

  function LinesLost(at: nat, xs: seq<Text>): bool { |Lines().norm(at, xs)| < |xs| }
  function FlaggedLines(): Codec<(seq<Text>, bool)> { Flagged(Lines(), LinesLost) }
  function DirtyDown(d: DirtyReport): DirtyFields {
    ((d.token, (d.inodes, d.entries)), (d.pendingMerge, (d.paths, d.truncated)))
  }
  function DirtyUp(f: DirtyFields): DirtyReport { DirtyReport(f.0.0, f.1.1.0, f.0.1.0, f.0.1.1, f.1.0, f.1.1.1) }
  function DirtyHeader(): Codec<(WorkspaceToken, (int, int))> { Pair(TokenField(), Pair(U64(), U64())) }
  function DirtyParts(): Codec<DirtyFields> { Pair(DirtyHeader(), Pair(Boolean(), FlaggedLines())) }
  function DirtyField(): Codec<DirtyReport> { Via(DirtyParts(), DirtyDown, DirtyUp) }

  lemma FlaggedLinesLaw()
    ensures Lawful(FlaggedLines())
  {
    hide Lawful, Lines, TakesSpace;
    LinesLaw();
    forall at: nat, xs | at <= LIMIT && Lines().ok(xs) && Lines().put(at, xs).Some?
      ensures !LinesLost(at, Lines().norm(at, xs)) {
      Law(Lines(), at, xs);
    }
    FlaggedLaw(Lines(), LinesLost);
  }

  lemma DirtyHeaderFaithful()
    ensures Faithful(DirtyHeader())
  {
    hide Faithful, Pair, TokenField, U64;
    TokenFaithful();
    NumbersFaithful();
    PairFaithful(U64(), U64());
    PairFaithful(TokenField(), Pair(U64(), U64()));
  }

  lemma DirtyLaw()
    ensures Lawful(DirtyField())
  {
    hide Lawful, Exact, Pair, DirtyHeader, Boolean, FlaggedLines;
    DirtyHeaderFaithful();
    BooleanFaithful();
    FlaggedLinesLaw();
    PairLaw(Boolean(), FlaggedLines());
    PairLaw(DirtyHeader(), Pair(Boolean(), FlaggedLines()));
    ViaLaw(DirtyParts(), DirtyDown, DirtyUp);
  }

  /** The same counts, a prefix of the paths with each clipped, and the flag exact. */
  predicate DirtySent(d: DirtyReport, e: DirtyReport) {
    && e.token == d.token && e.inodes == d.inodes && e.entries == d.entries && e.pendingMerge == d.pendingMerge
    && LinesCut(d.paths, e.paths)
    && (e.truncated <==> d.truncated || |e.paths| < |d.paths|)
  }

  lemma DirtyBecomes()
    ensures Becomes(DirtyField(), DirtySent)
  {
    hide DirtyField, DirtySent;
    forall at: nat, d | DirtyField().put(at, d).Some? ensures DirtySent(d, DirtyField().norm(at, d)) {
      DirtyShows(at, d);
    }
  }

  lemma DirtyShows(at: nat, d: DirtyReport)
    requires DirtyField().put(at, d).Some?
    ensures DirtySent(d, DirtyField().norm(at, d))
  {
    hide Pair, DirtyHeader, FlaggedLines, Boolean, LinesCut, Faithful;
    var tail := Pair(Boolean(), FlaggedLines());
    PairIs(DirtyHeader(), tail, at, DirtyDown(d));
    DirtyHeaderFaithful();
    Unchanged(DirtyHeader(), at, DirtyDown(d).0);
    DirtyTailIs(at + |DirtyHeader().put(at, DirtyDown(d).0).value|, DirtyDown(d).1);
  }

  lemma DirtyTailIs(at: nat, v: (bool, (seq<Text>, bool)))
    requires Pair(Boolean(), FlaggedLines()).put(at, v).Some?
    ensures var w := Pair(Boolean(), FlaggedLines()).norm(at, v);
      w.0 == v.0 && LinesCut(v.1.0, w.1.0) && (w.1.1 <==> v.1.1 || |w.1.0| < |v.1.0|)
  {
    hide Pair, Boolean, Lines, LinesCut;
    PairIs(Boolean(), FlaggedLines(), at, v);
    BooleanIs(at, v.0);
    LinesAre(at + 1, v.1.0);
  }

  lemma TokenFits(at: nat, t: WorkspaceToken)
    requires at + 40 <= LIMIT && TokenField().ok(t) && t.namespace > 0
    ensures TokenField().put(at, t).Some? && |TokenField().put(at, t).value| == 40
  {
    hide Pair, WorkspaceIdField, Pow256;
    PairOk(WorkspaceIdField(), NamespaceField(), TokenDown(t));
    WorkspaceIdFits(at, t.workspace);
    NamespaceFits(at + 32, t.namespace);
    PairOf(WorkspaceIdField(), NamespaceField(), at, TokenDown(t));
  }

  lemma WorkspaceIdFits(at: nat, w: Id)
    requires at + 32 <= LIMIT && WorkspaceIdField().ok(w)
    ensures WorkspaceIdField().put(at, w) == Some(w) && |w| == 32
  {
  }

  lemma NamespaceFits(at: nat, n: int)
    requires at + 8 <= LIMIT && NamespaceField().ok(n) && n > 0
    ensures NamespaceField().put(at, n).Some? && |NamespaceField().put(at, n).value| == 8
  {
    hide BigEndian, Pow256;
    Widths();
    var u := Twist(n);
    assert Unsigned(8).ok(u);
    assert |BigEndian(u, 8)| == 8;
    assert I64().put(at, n) == Raw(at, BigEndian(u, 8));
  }

  lemma CountFits(at: nat, n: int)
    requires at + 8 <= LIMIT && n >= 0
    ensures U64().put(at, n).Some? && |U64().put(at, n).value| == 8
  {
    hide BigEndian;
    assert |BigEndian(n, 8)| == 8;
  }

  lemma DirtyHeaderFits(at: nat, h: (WorkspaceToken, (int, int)))
    requires at + 56 <= LIMIT && DirtyHeader().ok(h) && h.0.namespace > 0
    ensures DirtyHeader().put(at, h).Some? && |DirtyHeader().put(at, h).value| == 56
  {
    hide Pair, TokenField, U64, Pow256;
    HeaderParts(h);
    TokenFits(at, h.0);
    CountFits(at + 40, h.1.0);
    CountFits(at + 48, h.1.1);
    PairOf(U64(), U64(), at + 40, h.1);
    PairOf(TokenField(), Pair(U64(), U64()), at, h);
  }

  lemma HeaderParts(h: (WorkspaceToken, (int, int)))
    requires DirtyHeader().ok(h)
    ensures TokenField().ok(h.0) && h.1.0 >= 0 && h.1.1 >= 0
  {
    hide TokenField, Pow256, Pair;
    PairOk(TokenField(), Pair(U64(), U64()), h);
    PairOk(U64(), U64(), h.1);
  }

  lemma FlaggedLinesFit(at: nat, v: (seq<Text>, bool))
    requires at + 2 <= LIMIT - RESERVE
    ensures FlaggedLines().put(at, v).Some?
    ensures var w := FlaggedLines().norm(at, v);
      && LinesCut(v.0, w.0) && |w.0| == Fitting(Room(at), v.0, TextCost)
      && (w.1 <==> v.1 || |w.0| < |v.0|)
  {
    hide Lines, LinesCut;
    LinesFit(at, v.0);
    LinesAre(at, v.0);
  }

  /** With a well-formed token the refusal is always written, whatever the number and length of its paths. */
  lemma DirtyEncodes(at: nat, d: DirtyReport)
    requires at <= 1024 && DirtyField().ok(d) && d.token.namespace > 0
    ensures DirtyField().put(at, d).Some? && |DirtyHeader().put(at, DirtyDown(d).0).value| == 56
  {
    hide Pair, DirtyHeader, FlaggedLines, Boolean, LinesCut, Fitting;
    DirtyHeaderOk(d);
    DirtyHeaderFits(at, DirtyDown(d).0);
    DirtyTail(at + 56, DirtyDown(d).1);
    PairOf(DirtyHeader(), Pair(Boolean(), FlaggedLines()), at, DirtyDown(d));
  }

  /** The pending flag and the paths, which are written in any case. */
  lemma DirtyTail(at: nat, v: (bool, (seq<Text>, bool)))
    requires at <= 2048
    ensures Pair(Boolean(), FlaggedLines()).put(at, v).Some?
    ensures var w := Pair(Boolean(), FlaggedLines()).norm(at, v);
      && w.0 == v.0 && LinesCut(v.1.0, w.1.0) && |w.1.0| == Fitting(Room(at + 1), v.1.0, TextCost)
      && (w.1.1 <==> v.1.1 || |w.1.0| < |v.1.0|)
  {
    hide Pair, FlaggedLines, Boolean, LinesCut, Fitting;
    BooleanIs(at, v.0);
    FlaggedLinesFit(at + 1, v.1);
    PairOf(Boolean(), FlaggedLines(), at, v);
    PairIs(Boolean(), FlaggedLines(), at, v);
  }

  lemma DirtyIs(at: nat, d: DirtyReport)
    requires at <= 1024 && DirtyField().ok(d) && d.token.namespace > 0
    ensures var e := DirtyField().norm(at, d);
      DirtySent(d, e) && |e.paths| == Fitting(Room(at + 57), d.paths, TextCost)
  {
    hide Pair, DirtyHeader, FlaggedLines, Boolean, LinesCut, Faithful, Fitting;
    var tail := Pair(Boolean(), FlaggedLines());
    DirtyEncodes(at, d);
    PairIs(DirtyHeader(), tail, at, DirtyDown(d));
    DirtyTail(at + 56, DirtyDown(d).1);
    DirtyHeaderFaithful();
    Unchanged(DirtyHeader(), at, DirtyDown(d).0);
  }

  lemma DirtyHeaderOk(d: DirtyReport)
    requires DirtyField().ok(d)
    ensures DirtyHeader().ok((d.token, (d.inodes, d.entries)))
  {
    hide DirtyHeader, Pair;
    PairOk(DirtyHeader(), Pair(Boolean(), FlaggedLines()), DirtyDown(d));
  }

  /**
    It is read back with the same counts and the longest prefix of the paths
    whose costs fit before the reserve, each path clipped, and `truncated` exact.
  */
  lemma DirtyArrives(at: nat, d: DirtyReport, rest: seq<byte>)
    requires at <= 1024 && DirtyField().ok(d) && d.token.namespace > 0
    ensures DirtyField().put(at, d).Some? && DirtyField().get(DirtyField().put(at, d).value + rest).Some?
    ensures var (e, after) := DirtyField().get(DirtyField().put(at, d).value + rest).value;
      && after == rest && DirtySent(d, e)
      && forall n :: 0 < n <= |d.paths| ==>
        (at + 57 + Total(d.paths[..n], TextCost) + RESERVE <= LIMIT <==> n <= |e.paths|)
  {
    hide DirtyField, DirtySent, Lawful, Fitting, Total;
    DirtyEncodes(at, d);
    DirtyIs(at, d);
    DirtyLaw();
    Law(DirtyField(), at, d);
    forall n | 0 < n <= |d.paths|
      ensures Total(d.paths[..n], TextCost) <= Room(at + 57) <==> n <= |DirtyField().norm(at, d).paths| {
      FittingIsLongest(Room(at + 57), d.paths, TextCost, n);
    }
  }
}
