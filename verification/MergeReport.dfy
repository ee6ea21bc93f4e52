/**
  Merged Commits, conflict reports and Dirty refusals in one bounded record.
  Lists are cut to a prefix, over-long texts to their longest well-formed
  prefix, and a report says exactly when entries were dropped.
*/
module MergeReport {
  import opened Wrappers
  import opened Bytes
  import opened Wire
  import opened Codec
  import opened ListCodec
  import opened HistoryRecords
  import opened MergeTypes
  import Utf8

  type Text = seq<byte>

  /** No text is written with more bytes than this. */
  const TEXT_FIELD_LIMIT := 4096

  function Min(a: nat, b: nat): nat { if a < b then a else b }

  // Clipped text

  /** The last character boundary at or before `end`. */
  function Boundary(s: Text, end: nat): (n: nat)
    requires end <= |s|
    ensures n <= end && Utf8.IsBoundary(s, n) && forall m :: n < m <= end ==> !Utf8.IsBoundary(s, m)
    decreases end
  {
    if Utf8.IsBoundary(s, end) then end else Boundary(s, end - 1)
  }

  function Clip(s: Text): Text { s[..Boundary(s, Min(|s|, TEXT_FIELD_LIMIT))] }

  /** A clipped text is the longest well-formed prefix of at most 4096 bytes. */
  lemma ClipIsLongest(s: Text)
    requires Utf8.Valid(s)
    ensures Utf8.Valid(Clip(s)) && Clip(s) <= s && |Clip(s)| <= TEXT_FIELD_LIMIT
    ensures forall n :: |Clip(s)| < n <= |s| && n <= TEXT_FIELD_LIMIT ==> !Utf8.Valid(s[..n])
    ensures |s| <= TEXT_FIELD_LIMIT ==> Clip(s) == s
  {
    hide Utf8.Valid, Utf8.IsBoundary;
    Utf8.BoundaryIsValid(s, |Clip(s)|);
    forall n | |Clip(s)| < n <= |s| && n <= TEXT_FIELD_LIMIT ensures !Utf8.Valid(s[..n]) {
      Utf8.BoundaryIsValid(s, n);
    }
    if |s| <= TEXT_FIELD_LIMIT {
      EndIsBoundary(s);
    }
  }

  lemma EndIsBoundary(s: Text)
    ensures Utf8.IsBoundary(s, |s|) && (|s| <= TEXT_FIELD_LIMIT ==> Clip(s) == s)
  {
  }

  /** A text, clipped when written. */
  function Clipped(): Codec<Text> {
    TextField(TEXT_FIELD_LIMIT).(norm := (at: nat, s) => Clip(s),
      put := (at: nat, s) => TextField(TEXT_FIELD_LIMIT).put(at, Clip(s)))
  }

  function TextCost(s: Text): nat { Min(|s|, TEXT_FIELD_LIMIT) + 2 }

  lemma ClippedLaw()
    ensures Lawful(Clipped()) && TakesSpace(Clipped())
  {
    hide Utf8.Valid, Clip, Lawful, BigEndian, TakenRun, Pow256;
    var t, c := TextField(TEXT_FIELD_LIMIT), Clipped();
    TextFieldLaw(TEXT_FIELD_LIMIT);
    forall at: nat, s ensures WritesBack(c, at, s) {
      if c.ok(s) {
        ClipIsLongest(s);
        ClipIsLongest(Clip(s));
        Law(t, at, Clip(s));
      }
    }
    forall b ensures ReadsPrefix(c, b) {
      LawReads(t, b);
    }
    LawfulFrom(c);
  }

  /** A clipped text can be written wherever its cost is free, and its own cost is no more. */
  lemma ClippedIsCosted(s: Text)
    ensures Costed(Clipped(), s, TextCost(s)) && TextCost(Clip(s)) <= TextCost(s)
  {
    hide BigEndian, Utf8.IsBoundary, TextField, Pow256;
    var t := Clip(s);
    forall at: nat | at + TextCost(s) <= LIMIT
      ensures Clipped().put(at, s).Some? && |Clipped().put(at, s).value| <= TextCost(s) {
      ShortTextFits(at, t);
    }
  }

  lemma ShortTextFits(at: nat, t: Text)
    requires |t| <= TEXT_FIELD_LIMIT
    ensures TextField(TEXT_FIELD_LIMIT).put(at, t) == Raw(at, BigEndian(|t|, 2) + t)
      && |BigEndian(|t|, 2) + t| == |t| + 2
  {
    hide BigEndian;
    Widths();
    assert |BigEndian(|t|, 2)| == 2;
  }

  // Lists of texts

  function Lines(): Codec<seq<Text>> { Window(Clipped(), TextCost) }

  /** A prefix, with every text clipped. */
  predicate LinesCut(xs: seq<Text>, ys: seq<Text>) {
    |ys| <= |xs| && forall k :: 0 <= k < |ys| ==> ys[k] == Clip(xs[k])
  }

  lemma LinesLaw()
    ensures Lawful(Lines()) && TakesSpace(Lines())
  {
    hide Lawful, TakesSpace, Clip;
    ClippedLaw();
    forall at: nat, s ensures TextCost(Clipped().norm(at, s)) <= TextCost(s) {
      ClippedIsCosted(s);
    }
    WindowLaw(Clipped(), TextCost);
    ListedTakesSpace(Clipped(), KeepFitting(TextCost));
  }

  lemma LinesAre(at: nat, xs: seq<Text>)
    requires Lines().put(at, xs).Some?
    ensures LinesCut(xs, Lines().norm(at, xs))
    ensures |Lines().norm(at, xs)| == Fitting(Room(at), xs, TextCost)
  {
    hide Clip;
    ListedBecomes(Clipped(), KeepFitting(TextCost), at, xs, (x, y) => y == Clip(x));
  }

  // `.lww` decisions

  type LwwFields = ((Text, Text), (bool, bool))

  /** Kept ours in the low bit, deleted in the next. */
  function FlagsCode(f: (bool, bool)): int { BoolCode(f.0) + 2 * BoolCode(f.1) }
  function FlagsOf(n: int): Option<(bool, bool)> { if 0 <= n <= 3 then Some((n % 2 == 1, n / 2 == 1)) else None }
  function LwwDown(d: LwwDecision): LwwFields { ((d.path, d.rule), (d.keptOurs, d.deleted)) }
  function LwwUp(f: LwwFields): LwwDecision { LwwDecision(f.0.0, f.1.0, f.1.1, f.0.1) }
  function LwwParts(): Codec<LwwFields> { Pair(Pair(Clipped(), Clipped()), Coded(FlagsCode, FlagsOf)) }
  function LwwItem(): Codec<LwwDecision> { Via(LwwParts(), LwwDown, LwwUp) }

  function LwwCost(d: LwwDecision): nat { Min(|d.path|, TEXT_FIELD_LIMIT) + Min(|d.rule|, TEXT_FIELD_LIMIT) + 5 }
  function LwwCut(d: LwwDecision): LwwDecision { d.(path := Clip(d.path), rule := Clip(d.rule)) }

  function Lww(): Codec<seq<LwwDecision>> { Window(LwwItem(), LwwCost) }

  lemma LwwItemLaw()
    ensures Lawful(LwwItem()) && TakesSpace(LwwItem())
  {
    hide Lawful, TakesSpace, Clipped, Pair, Coded;
    ClippedLaw();
    FlagsFaithful();
    PairLaw(Clipped(), Clipped());
    PairTakesSpace(Clipped(), Clipped());
    PairLaw(Pair(Clipped(), Clipped()), Coded(FlagsCode, FlagsOf));
    PairTakesSpace(Pair(Clipped(), Clipped()), Coded(FlagsCode, FlagsOf));
    ViaLaw(LwwParts(), LwwDown, LwwUp);
    ViaTakesSpace(LwwParts(), LwwDown, LwwUp);
  }

  lemma FlagsFaithful()
    ensures Lawful(Coded(FlagsCode, FlagsOf))
  {
    CodedLaw(FlagsCode, FlagsOf);
  }

  lemma LwwItemIs(at: nat, d: LwwDecision)
    ensures LwwItem().put(at, d).Some? ==> LwwItem().norm(at, d) == LwwCut(d)
    ensures LwwCost(LwwCut(d)) <= LwwCost(d)
  {
    hide Clip, Pair;
    ClippedIsCosted(d.path);
    ClippedIsCosted(d.rule);
    if LwwItem().put(at, d).Some? {
      PairIs(Pair(Clipped(), Clipped()), Coded(FlagsCode, FlagsOf), at, LwwDown(d));
      PairIs(Clipped(), Clipped(), at, LwwDown(d).0);
    }
  }

  lemma LwwIsCosted(d: LwwDecision)
    ensures Costed(LwwItem(), d, LwwCost(d))
  {
    hide Costed, Clipped, Pair;
    var text, flags := Pair(Clipped(), Clipped()), Coded(FlagsCode, FlagsOf);
    ClippedIsCosted(d.path);
    ClippedIsCosted(d.rule);
    PairCosted(Clipped(), Clipped(), (d.path, d.rule), TextCost(d.path), TextCost(d.rule));
    CodedIsCosted(FlagsCode, FlagsOf, (d.keptOurs, d.deleted));
    PairCosted(text, flags, LwwDown(d), TextCost(d.path) + TextCost(d.rule), 1);
    ViaCosted(LwwParts(), LwwDown, LwwUp, d, LwwCost(d));
  }

  lemma CodedIsCosted<T(!new)>(code: T -> int, of: int -> Option<T>, v: T)
    requires 0 <= code(v) < 256
    ensures Costed(Coded(code, of), v, 1)
  {
    forall at: nat | at + 1 <= LIMIT
      ensures Coded(code, of).put(at, v).Some? && |Coded(code, of).put(at, v).value| <= 1 {
      CodedIs(code, of, at, v);
    }
  }

  lemma LwwLaw()
    ensures Lawful(Lww()) && TakesSpace(Lww())
  {
    hide Lawful, TakesSpace, LwwItem, LwwCut;
    LwwItemLaw();
    forall at: nat, d ensures LwwItem().put(at, d).Some? ==> LwwCost(LwwItem().norm(at, d)) <= LwwCost(d) {
      LwwItemIs(at, d);
    }
    WindowLaw(LwwItem(), LwwCost);
    ListedTakesSpace(LwwItem(), KeepFitting(LwwCost));
  }

  lemma LwwAre(at: nat, xs: seq<LwwDecision>)
    requires Lww().put(at, xs).Some?
    ensures var ys := Lww().norm(at, xs);
      |ys| == Fitting(Room(at), xs, LwwCost) && forall k :: 0 <= k < |ys| ==> ys[k] == LwwCut(xs[k])
  {
    hide LwwItem, LwwCut;
    forall a: nat, d ensures LwwItem().put(a, d).Some? ==> LwwItem().norm(a, d) == LwwCut(d) {
      LwwItemIs(a, d);
    }
    ListedBecomes(LwwItem(), KeepFitting(LwwCost), at, xs, (x, y) => y == LwwCut(x));
  }

  // Hunks

  /** `line as u32`: a wider number arrives reduced. */
  function LineNumber(): Codec<nat> {
    Codec(
      (n: nat) => true,
      (at: nat, n: nat) => FromBigEndian(BigEndian(n, 4)),
      (at: nat, n: nat) => Raw(at, BigEndian(n, 4)),
      b => if |b| >= 4 then Some((FromBigEndian(b[..4]), b[4..])) else None)
  }

  lemma LineNumberLaw()
    ensures Lawful(LineNumber()) && TakesSpace(LineNumber())
  {
    hide BigEndian, FromBigEndian;
    var c := LineNumber();
    forall at: nat, n: nat ensures WritesBack(c, at, n) {
      var b := BigEndian(n, 4);
      BigEndianWrites(b);
      forall rest: seq<byte> ensures c.get(b + rest) == Some((FromBigEndian(b), rest)) {
        Cut(b, rest);
      }
    }
    forall b ensures ReadsPrefix(c, b) {
      if |b| >= 4 {
        forall more: seq<byte> ensures c.get(b + more) == Some((FromBigEndian(b[..4]), b[4..] + more)) {
          assert (b + more)[..4] == b[..4] && (b + more)[4..] == b[4..] + more;
        }
      }
    }
  }

  type HunkFields = (nat, (seq<Text>, seq<Text>))

  function HunkDown(h: Hunk): HunkFields { (h.line, (h.ours, h.theirs)) }
  function HunkUp(f: HunkFields): Hunk { Hunk(f.0, f.1.0, f.1.1) }
  function HunkParts(): Codec<HunkFields> { Pair(LineNumber(), Pair(Lines(), Lines())) }
  function HunkItem(): Codec<Hunk> { Via(HunkParts(), HunkDown, HunkUp) }

  /** All hunks of a conflict while 64 bytes and the reserve are free, else none. */
  function HunksKept(at: nat, hs: seq<Hunk>): nat { if at + 64 + RESERVE <= LIMIT then |hs| else 0 }
  function Hunks(): Codec<seq<Hunk>> { Listed(HunkItem(), HunksKept) }

  predicate HunkCut(h: Hunk, g: Hunk) {
    g.line == h.line % 0x1_0000_0000 && LinesCut(h.ours, g.ours) && LinesCut(h.theirs, g.theirs)
  }

  lemma HunkItemLaw()
    ensures Lawful(HunkItem()) && TakesSpace(HunkItem())
  {
    hide Lawful, TakesSpace, Pair, LineNumber, Lines;
    LineNumberLaw();
    LinesLaw();
    PairLaw(Lines(), Lines());
    PairLaw(LineNumber(), Pair(Lines(), Lines()));
    PairTakesSpace(LineNumber(), Pair(Lines(), Lines()));
    ViaLaw(HunkParts(), HunkDown, HunkUp);
    ViaTakesSpace(HunkParts(), HunkDown, HunkUp);
  }

  lemma HunkItemIs(at: nat, h: Hunk)
    requires HunkItem().put(at, h).Some?
    ensures HunkCut(h, HunkItem().norm(at, h))
  {
    hide Pair, Lines, LinesCut, BigEndian, FromBigEndian, Pow256;
    PairIs(LineNumber(), Pair(Lines(), Lines()), at, HunkDown(h));
    var at' := at + |LineNumber().put(at, h.line).value|;
    PairIs(Lines(), Lines(), at', HunkDown(h).1);
    LinesAre(at', h.ours);
    LinesAre(at' + |Lines().put(at', h.ours).value|, h.theirs);
    Widths();
    BigEndianWraps(h.line, 4);
  }

  lemma HunksLaw()
    ensures Lawful(Hunks()) && TakesSpace(Hunks())
  {
    hide Lawful, TakesSpace, HunkItem;
    HunkItemLaw();
    ListedLaw(HunkItem(), HunksKept);
    ListedTakesSpace(HunkItem(), HunksKept);
  }

  lemma HunksAre(at: nat, hs: seq<Hunk>)
    requires Hunks().put(at, hs).Some?
    ensures var gs := Hunks().norm(at, hs);
      |gs| == HunksKept(at, hs) && forall k :: 0 <= k < |gs| ==> HunkCut(hs[k], gs[k])
  {
    hide HunkItem, HunkCut;
    forall a: nat, h | HunkItem().put(a, h).Some? ensures HunkCut(h, HunkItem().norm(a, h)) {
      HunkItemIs(a, h);
    }
    ListedBecomes(HunkItem(), HunksKept, at, hs, HunkCut);
  }

  // Conflicts

  function KindCode(k: ConflictKind): int {
    match k
    case Content => 1 case AddAdd => 2 case ModifyDelete => 3 case DeleteModify => 4
    case Type => 5 case Binary => 6 case Markers => 7 case Mode => 8
  }
  function KindOf(n: int): Option<ConflictKind> {
    match n
    case 1 => Some(Content) case 2 => Some(AddAdd) case 3 => Some(ModifyDelete) case 4 => Some(DeleteModify)
    case 5 => Some(Type) case 6 => Some(Binary) case 7 => Some(Markers) case 8 => Some(Mode)
    case _ => None
  }
  function KindField(): Codec<ConflictKind> { Coded(KindCode, KindOf) }

  lemma KindFaithful()
    ensures Faithful(KindField())
  {
    CodedLaw(KindCode, KindOf);
  }

  type ConflictFields = (Text, (ConflictKind, seq<Hunk>))

  function ConflictDown(c: Conflict): ConflictFields { (c.path, (c.kind, c.hunks)) }
  function ConflictUp(f: ConflictFields): Conflict { Conflict(f.0, f.1.0, f.1.1) }
  function ConflictParts(): Codec<ConflictFields> { Pair(Clipped(), Pair(KindField(), Hunks())) }
  function ConflictItem(): Codec<Conflict> { Via(ConflictParts(), ConflictDown, ConflictUp) }

  /** The cost counts the path alone, not the hunk text. */
  function ConflictCost(c: Conflict): nat { Min(|c.path|, TEXT_FIELD_LIMIT) + 8 }
  function Conflicts(): Codec<seq<Conflict>> { Window(ConflictItem(), ConflictCost) }

  /** The same conflict with a clipped path and all hunks or none, each cut. */
  predicate ConflictCut(c: Conflict, d: Conflict) {
    && d.path == Clip(c.path) && d.kind == c.kind
    && (d.hunks == [] || |d.hunks| == |c.hunks|)
    && forall k :: 0 <= k < |d.hunks| ==> HunkCut(c.hunks[k], d.hunks[k])
  }

  lemma ConflictItemLaw()
    ensures Lawful(ConflictItem()) && TakesSpace(ConflictItem())
  {
    hide Lawful, Exact, TakesSpace, Pair, Clipped, KindField, Hunks;
    ClippedLaw();
    KindFaithful();
    HunksLaw();
    PairLaw(KindField(), Hunks());
    PairLaw(Clipped(), Pair(KindField(), Hunks()));
    PairTakesSpace(Clipped(), Pair(KindField(), Hunks()));
    ViaLaw(ConflictParts(), ConflictDown, ConflictUp);
    ViaTakesSpace(ConflictParts(), ConflictDown, ConflictUp);
  }

  lemma ConflictSplits(at: nat, c: Conflict)
    requires ConflictItem().put(at, c).Some?
    ensures Clipped().put(at, c.path).Some?
    ensures var h := at + |Clipped().put(at, c.path).value| + 1;
      Hunks().put(h, c.hunks).Some?
        && ConflictItem().norm(at, c) == Conflict(Clip(c.path), c.kind, Hunks().norm(h, c.hunks))
  {
    hide Pair, Clip, Hunks, Coded;
    PairIs(Clipped(), Pair(KindField(), Hunks()), at, ConflictDown(c));
    var at' := at + |Clipped().put(at, c.path).value|;
    PairIs(KindField(), Hunks(), at', ConflictDown(c).1);
    CodedIs(KindCode, KindOf, at', c.kind);
  }

  lemma ConflictItemIs(at: nat, c: Conflict)
    requires ConflictItem().put(at, c).Some?
    ensures ConflictCut(c, ConflictItem().norm(at, c)) && ConflictCost(ConflictItem().norm(at, c)) <= ConflictCost(c)
  {
    hide ConflictItem, Clip, Clipped, Hunks, HunkCut;
    ClippedIsCosted(c.path);
    ConflictSplits(at, c);
    HunksAre(at + |Clipped().put(at, c.path).value| + 1, c.hunks);
  }

  lemma ConflictsLaw()
    ensures Lawful(Conflicts())
  {
    hide Lawful, TakesSpace, ConflictItem, ConflictCut;
    ConflictItemLaw();
    forall a: nat, c | ConflictItem().put(a, c).Some?
      ensures ConflictCost(ConflictItem().norm(a, c)) <= ConflictCost(c) {
      ConflictItemIs(a, c);
    }
    WindowLaw(ConflictItem(), ConflictCost);
  }

  lemma ConflictsAre(at: nat, cs: seq<Conflict>)
    requires Conflicts().put(at, cs).Some?
    ensures var ds := Conflicts().norm(at, cs);
      |ds| == Fitting(Room(at), cs, ConflictCost) && forall k :: 0 <= k < |ds| ==> ConflictCut(cs[k], ds[k])
  {
    hide ConflictItem, ConflictCut;
    forall a: nat, c | ConflictItem().put(a, c).Some? ensures ConflictCut(c, ConflictItem().norm(a, c)) {
      ConflictItemIs(a, c);
    }
    ListedBecomes(ConflictItem(), KeepFitting(ConflictCost), at, cs, ConflictCut);
  }

  /** A conflict without hunks is written within its cost. */
  lemma NoHunksIsCosted(c: Conflict)
    requires c.hunks == []
    ensures Costed(ConflictItem(), c, ConflictCost(c))
  {
    hide Clipped, Pair, Listed;
    ClippedIsCosted(c.path);
    forall at: nat | at + 5 <= LIMIT ensures Hunks().put(at, []).Some? && |Hunks().put(at, []).value| <= 5 {
      EmptyList(HunkItem(), HunksKept, at);
    }
    CodedIsCosted(KindCode, KindOf, c.kind);
    PairCosted(KindField(), Hunks(), (c.kind, c.hunks), 1, 5);
    PairCosted(Clipped(), Pair(KindField(), Hunks()), ConflictDown(c), TextCost(c.path), 6);
    ViaCosted(ConflictParts(), ConflictDown, ConflictUp, c, ConflictCost(c));
  }

  // How much is kept, in bytes

  /** The bytes that go of a text, when 4096 is the most. */
  function SentBytes(n: nat): nat { if n < 4096 then n else 4096 }

  /** Of the first `n` lines all are kept while each with its length leaves 1,024 of the 65,519 bytes. */
  lemma LinesKept(at: nat, xs: seq<Text>, n: nat)
    requires Lines().put(at, xs).Some? && 0 < n <= |xs|
    ensures n <= |Lines().norm(at, xs)| <==> at + Total(xs[..n], (s: Text) => SentBytes(|s|) + 2) + 1024 <= 65519
  {
    hide Lines;
    LinesAre(at, xs);
    FittingIsLongest(Room(at), xs, TextCost, n);
    SameTotal(xs[..n], TextCost, (s: Text) => SentBytes(|s|) + 2);
  }

  /** Of the decisions the path, the rule and five bytes each. */
  lemma LwwKept(at: nat, ds: seq<LwwDecision>, n: nat)
    requires Lww().put(at, ds).Some? && 0 < n <= |ds|
    ensures n <= |Lww().norm(at, ds)| <==>
      at + Total(ds[..n], (d: LwwDecision) => SentBytes(|d.path|) + SentBytes(|d.rule|) + 5) + 1024 <= 65519
  {
    hide Lww;
    LwwAre(at, ds);
    FittingIsLongest(Room(at), ds, LwwCost, n);
    SameTotal(ds[..n], LwwCost, (d: LwwDecision) => SentBytes(|d.path|) + SentBytes(|d.rule|) + 5);
  }

  /** Of the conflicts the path and eight bytes each, whatever hunks they have. */
  lemma ConflictsKept(at: nat, cs: seq<Conflict>, n: nat)
    requires Conflicts().put(at, cs).Some? && 0 < n <= |cs|
    ensures n <= |Conflicts().norm(at, cs)| <==>
      at + Total(cs[..n], (c: Conflict) => SentBytes(|c.path|) + 8) + 1024 <= 65519
  {
    hide Conflicts;
    ConflictsAre(at, cs);
    FittingIsLongest(Room(at), cs, ConflictCost, n);
    SameTotal(cs[..n], ConflictCost, (c: Conflict) => SentBytes(|c.path|) + 8);
  }

  /** All hunks of a conflict when 1,088 bytes are free where they start, else none. */
  lemma HunksKeptAre(at: nat, hs: seq<Hunk>)
    requires Hunks().put(at, hs).Some?
    ensures |Hunks().norm(at, hs)| == if at + 1088 <= 65519 then |hs| else 0
  {
    hide Hunks;
    HunksAre(at, hs);
  }
}
