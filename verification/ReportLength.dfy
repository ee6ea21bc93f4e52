/**
  How long a conflict report is, as arithmetic on the report: from it a caller
  can tell, before encoding, whether the report will be written or refused.
*/
module ReportLength {
  import opened Wrappers
  import opened Bytes
  import opened Wire
  import opened Codec
  import opened ListCodec
  import opened HistoryRecords
  import opened MergeTypes
  import opened MergeReport
  import opened MergeReplies

  /** `len` is the length of what is written, and it is written exactly when that fits. */
  ghost predicate MeasuredAt<T(!new)>(c: Codec<T>, len: (nat, T) -> nat, at: nat, v: T) {
    && (c.put(at, v).Some? <==> at + len(at, v) <= LIMIT)
    && (c.put(at, v).Some? ==> |c.put(at, v).value| == len(at, v))
  }

  ghost predicate Measures<T(!new)>(c: Codec<T>, len: (nat, T) -> nat) {
    forall at: nat, v :: MeasuredAt(c, len, at, v)
  }

  lemma Measured<T(!new)>(c: Codec<T>, len: (nat, T) -> nat, at: nat, v: T)
    requires Measures(c, len)
    ensures MeasuredAt(c, len, at, v)
  {
  }

  lemma PairMeasured<A(!new), B(!new)>(
    a: Codec<A>, b: Codec<B>, la: (nat, A) -> nat, lb: (nat, B) -> nat, len: (nat, (A, B)) -> nat)
    requires Measures(a, la) && Measures(b, lb)
    requires forall at: nat, v: (A, B) :: len(at, v) == la(at, v.0) + lb(at + la(at, v.0), v.1)
    ensures Measures(Pair(a, b), len)
  {
    hide Measures, Pair;
    forall at: nat, v: (A, B) ensures MeasuredAt(Pair(a, b), len, at, v) {
      Measured(a, la, at, v.0);
      Measured(b, lb, at + la(at, v.0), v.1);
      PairPut(a, b, at, v);
    }
    MeasuresFrom(Pair(a, b), len);
  }

  lemma MeasuresFrom<T(!new)>(c: Codec<T>, len: (nat, T) -> nat)
    requires forall at: nat, v :: MeasuredAt(c, len, at, v)
    ensures Measures(c, len)
  {
  }

  lemma ViaMeasured<A(!new), T(!new)>(
    c: Codec<A>, down: T -> A, up: A -> T, la: (nat, A) -> nat, len: (nat, T) -> nat)
    requires Measures(c, la) && forall at: nat, v :: len(at, v) == la(at, down(v))
    ensures Measures(Via(c, down, up), len)
  {
    forall at: nat, v ensures MeasuredAt(Via(c, down, up), len, at, v) {
      Measured(c, la, at, down(v));
    }
  }

  /** One item after another, each at the place the ones before it left. */
  function EachLength<T>(len: (nat, T) -> nat, at: nat, xs: seq<T>): nat
    decreases |xs|
  {
    if xs == [] then 0 else len(at, xs[0]) + EachLength(len, at + len(at, xs[0]), xs[1..])
  }

  lemma {:induction false} EachMeasured<T(!new)>(item: Codec<T>, len: (nat, T) -> nat, at: nat, xs: seq<T>)
    requires Measures(item, len) && at <= LIMIT
    ensures PutEach(item, at, xs).Some? <==> at + EachLength(len, at, xs) <= LIMIT
    ensures PutEach(item, at, xs).Some? ==> |PutEach(item, at, xs).value| == EachLength(len, at, xs)
    decreases |xs|
  {
    hide Measures;
    if xs != [] {
      Measured(item, len, at, xs[0]);
      if item.put(at, xs[0]).Some? {
        EachMeasured(item, len, at + len(at, xs[0]), xs[1..]);
      }
    }
  }

  lemma ListedMeasured<T(!new)>(
    item: Codec<T>, keep: (nat, seq<T>) -> nat, li: (nat, T) -> nat, len: (nat, seq<T>) -> nat)
    requires Measures(item, li)
    requires forall at: nat, xs :: len(at, xs) == 2 + EachLength(li, at + 2, First(xs, keep(at, xs)))
    ensures Measures(Listed(item, keep), len)
  {
    hide Measures, BigEndian, EachLength, PutEach;
    var c := Listed(item, keep);
    forall at: nat, xs ensures MeasuredAt(c, len, at, xs) {
      if at + 2 <= LIMIT {
        EachMeasured(item, li, at + 2, First(xs, keep(at, xs)));
        assert |BigEndian(keep(at, xs), 2)| == 2;
      }
    }
    MeasuresFrom(c, len);
  }

  // The parts of a report

  function TextLength(at: nat, s: Text): nat { |Clip(s)| + 2 }
  function FourBytes(at: nat, n: nat): nat { 4 }
  function OneByte<T>(at: nat, v: T): nat { 1 }

  function LinesLength(at: nat, xs: seq<Text>): nat {
    2 + EachLength(TextLength, at + 2, First(xs, Fitting(Room(at), xs, TextCost)))
  }

  function SidesLength(at: nat, v: (seq<Text>, seq<Text>)): nat {
    LinesLength(at, v.0) + LinesLength(at + LinesLength(at, v.0), v.1)
  }

  function HunkLength(at: nat, h: Hunk): nat { 4 + SidesLength(at + 4, (h.ours, h.theirs)) }

  /** A conflict's hunks count while 64 bytes and the reserve are free where they start. */
  function HunksLength(at: nat, hs: seq<Hunk>): nat {
    2 + EachLength(HunkLength, at + 2, First(hs, if at + 64 + RESERVE <= LIMIT then |hs| else 0))
  }

  function ConflictLength(at: nat, c: Conflict): nat {
    |Clip(c.path)| + 3 + HunksLength(at + |Clip(c.path)| + 3, c.hunks)
  }

  /** The conflicts whose path costs fit, each with its hunks. */
  function ConflictsLength(at: nat, cs: seq<Conflict>): nat {
    2 + EachLength(ConflictLength, at + 2, First(cs, Fitting(Room(at), cs, ConflictCost)))
  }

  lemma TextMeasured()
    ensures Measures(Clipped(), TextLength)
  {
    hide TextField;
    forall at: nat, s ensures MeasuredAt(Clipped(), TextLength, at, s) {
      ShortTextFits(at, Clip(s));
    }
  }

  lemma LinesMeasured()
    ensures Measures(Lines(), LinesLength)
  {
    hide Measures;
    TextMeasured();
    ListedMeasured(Clipped(), KeepFitting(TextCost), TextLength, LinesLength);
  }

  lemma CodedMeasured<T(!new)>(code: T -> int, of: int -> Option<T>)
    requires forall v :: 0 <= code(v) < 256
    ensures Measures(Coded(code, of), OneByte)
  {
    forall at: nat, v ensures MeasuredAt(Coded(code, of), OneByte, at, v) {
      CodedIs(code, of, at, v);
    }
  }

  lemma LineNumberMeasured()
    ensures Measures(LineNumber(), FourBytes)
  {
    hide BigEndian;
    forall at: nat, n: nat ensures MeasuredAt(LineNumber(), FourBytes, at, n) {
      assert |BigEndian(n, 4)| == 4;
    }
  }

  function HunkFieldsLength(at: nat, f: HunkFields): nat { 4 + SidesLength(at + 4, f.1) }

  lemma HunkMeasured()
    ensures Measures(HunkItem(), HunkLength)
  {
    hide Measures, Lines, LineNumber, Pair, LinesLength;
    LineNumberMeasured();
    LinesMeasured();
    PairMeasured(Lines(), Lines(), LinesLength, LinesLength, SidesLength);
    PairMeasured(LineNumber(), Pair(Lines(), Lines()), FourBytes, SidesLength, HunkFieldsLength);
    ViaMeasured(HunkParts(), HunkDown, HunkUp, HunkFieldsLength, HunkLength);
  }

  lemma HunksMeasured()
    ensures Measures(Hunks(), HunksLength)
  {
    hide Measures, HunkItem;
    HunkMeasured();
    ListedMeasured(HunkItem(), HunksKept, HunkLength, HunksLength);
  }

  function KindedLength(at: nat, v: (ConflictKind, seq<Hunk>)): nat { 1 + HunksLength(at + 1, v.1) }
  function ConflictFieldsLength(at: nat, f: ConflictFields): nat {
    |Clip(f.0)| + 2 + KindedLength(at + |Clip(f.0)| + 2, f.1)
  }

  lemma ConflictMeasured()
    ensures Measures(ConflictItem(), ConflictLength)
  {
    hide Measures, Clipped, Coded, Hunks, Pair, HunksLength, Clip;
    TextMeasured();
    CodedMeasured(KindCode, KindOf);
    HunksMeasured();
    PairMeasured(KindField(), Hunks(), OneByte, HunksLength, KindedLength);
    PairMeasured(Clipped(), Pair(KindField(), Hunks()), TextLength, KindedLength, ConflictFieldsLength);
    ViaMeasured(ConflictParts(), ConflictDown, ConflictUp, ConflictFieldsLength, ConflictLength);
  }

  lemma ConflictsMeasured()
    ensures Measures(Conflicts(), ConflictsLength)
  {
    hide Measures, ConflictItem;
    ConflictMeasured();
    ListedMeasured(ConflictItem(), KeepFitting(ConflictCost), ConflictLength, ConflictsLength);
  }

  function IdLength(v: Option<Id>): (n: int)
    ensures n >= 1
  {
    if v.None? then 1 else 1 + |v.value|
  }

  /** Where the conflicts of a report at `at` start. */
  function ConflictsAt(at: nat, r: ConflictReport): nat { at + IdLength(r.head) + IdLength(r.base) + 1 }

  lemma HeadIs(at: nat, head: Option<Id>)
    requires HeadField().put(at, head).Some?
    ensures |HeadField().put(at, head).value| == IdLength(head)
  {
    if at < LIMIT {
      OptionalPut(CommitIdField(), at, head);
    }
  }

  /**
    A report with well-formed heads is written if and only if the arithmetic
    length of its conflicts leaves five bytes; nothing else can refuse it.
  */
  lemma ReportEncodes(at: nat, r: ConflictReport)
    requires at + 69 <= LIMIT && HeadField().ok(r.head) && HeadField().ok(r.base)
    ensures ReportField().put(at, r).Some? <==>
      ConflictsAt(at, r) + ConflictsLength(ConflictsAt(at, r), r.conflicts) + 5 <= LIMIT
  {
    hide HeadField, ReportField, Conflicts, ConflictsLength, Measures;
    ConflictsDecide(at, r);
    HeadIs(at, r.head);
    HeadIs(at + IdLength(r.head), r.base);
    ConflictsMeasured();
    Measured(Conflicts(), ConflictsLength, ConflictsAt(at, r), r.conflicts);
  }

  // A report that is refused although its conflict count was chosen to fit

  function Empties(n: nat): seq<Text> { seq(n, _ => []) }

  lemma {:induction false} EmptiesFit(room: int, n: nat)
    ensures Fitting(room, Empties(n), TextCost) == if room < 0 then 0 else Min(n, room / 2)
    decreases n
  {
    var xs := Empties(n);
    if n > 0 && room >= 2 {
      assert xs[1..] == Empties(n - 1);
      EmptiesFit(room - 2, n - 1);
    }
  }

  lemma {:induction false} EmptiesLength(at: nat, n: nat)
    ensures EachLength(TextLength, at, Empties(n)) == 2 * n
    decreases n
  {
    var xs := Empties(n);
    if n > 0 {
      assert xs[1..] == Empties(n - 1) && Clip([]) == [];
      EmptiesLength(at + 2, n - 1);
    }
  }

  /** Lines that fill the record up to the reserve. */
  function FillingHunk(): Hunk { Hunk(1, Empties(40_000), []) }
  function LongPath(): Text { seq(2_000, _ => 97) }
  function FillingConflict(): Conflict { Conflict([], Content, [FillingHunk()]) }
  function PathConflict(): Conflict { Conflict(LongPath(), Content, []) }
  function FillingReport(): ConflictReport {
    ConflictReport(None, None, false, [FillingConflict(), PathConflict()], [], [], false)
  }

  lemma FillingHunkLength(at: nat)
    requires at <= 2048
    ensures HunkLength(at, FillingHunk()) >= LIMIT - RESERVE - at + 3
  {
    hide EachLength, Fitting, Empties, Clip;
    var n := Room(at + 4) / 2;
    EmptiesFit(Room(at + 4), 40_000);
    FirstEmpties(n);
    EmptiesLength(at + 6, n);
    NoLines(at + 4 + LinesLength(at + 4, Empties(40_000)));
  }

  lemma FirstEmpties(n: nat)
    requires n <= 40_000
    ensures First(Empties(40_000), n) == Empties(n)
  {
  }

  lemma NoLines(at: nat)
    ensures LinesLength(at, []) == 2
  {
    assert First<Text>([], 0) == [];
  }

  /** Its lines fill the record up to the reserve, and the next conflict's path is longer than the reserve. */
  lemma HunkTextCanRefuse(at: nat)
    requires at <= 1024
    ensures Fitting(Room(ConflictsAt(at, FillingReport())), FillingReport().conflicts, ConflictCost) == 2
    ensures ReportField().put(at, FillingReport()) == None
  {
    hide ReportField, HunkLength, Clip, FillingHunk, HunksLength;
    var r := FillingReport();
    var c, d, q := FillingConflict(), PathConflict(), ConflictsAt(at, r);
    NoHeadIsOk(at);
    ReportEncodes(at, r);
    assert r.conflicts[1..] == [d] && [d][1..] == [];
    assert First(r.conflicts, 2) == r.conflicts;
    EndIsBoundary([]);
    EndIsBoundary(LongPath());
    FillingHunkLength(q + 7);
    OneHunk(q + 5);
    assert ConflictLength(q + 2, c) >= LIMIT - RESERVE - (q + 2) + 3;
    assert ConflictLength(q + 2 + ConflictLength(q + 2, c), d) >= 2_003;
  }

  lemma OneHunk(at: nat)
    requires at <= 2048
    ensures HunksLength(at, [FillingHunk()]) == 2 + HunkLength(at + 2, FillingHunk())
  {
    hide HunkLength, FillingHunk;
    var hs := [FillingHunk()];
    assert First(hs, 1) == hs && hs[1..] == [];
  }
}
