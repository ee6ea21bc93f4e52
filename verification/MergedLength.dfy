/**
  How much of a merged Commit arrives: the length of its record as arithmetic,
  the decisions that fit after it, and exactly when some are lost.
*/
module MergedLength {
  import opened Wrappers
  import opened Bytes
  import opened Wire
  import opened Codec
  import opened ListCodec
  import opened HistoryRecords
  import opened MergeTypes
  import opened MergeReport
  import opened MergeReplies
  import opened ReportLength

  /** `len` is the length of what is written. */
  ghost predicate Sizes<T(!new)>(c: Codec<T>, len: T -> int) {
    forall at: nat, v :: c.put(at, v).Some? ==> |c.put(at, v).value| == len(v)
  }

  lemma SizesAt<T(!new)>(c: Codec<T>, len: T -> int, at: nat, v: T)
    requires Sizes(c, len) && c.put(at, v).Some?
    ensures |c.put(at, v).value| == len(v)
  {
  }

  lemma PairSizes<A(!new), B(!new)>(a: Codec<A>, b: Codec<B>, la: A -> int, lb: B -> int)
    requires Sizes(a, la) && Sizes(b, lb)
    ensures Sizes(Pair(a, b), (v: (A, B)) => la(v.0) + lb(v.1))
  {
    forall at: nat, v: (A, B) | Pair(a, b).put(at, v).Some? ensures |Pair(a, b).put(at, v).value| == la(v.0) + lb(v.1) {
      PairIs(a, b, at, v);
    }
  }

  lemma ViaSizes<A(!new), T(!new)>(c: Codec<A>, down: T -> A, up: A -> T, la: A -> int, len: T -> int)
    requires Sizes(c, la) && forall v :: la(down(v)) == len(v)
    ensures Sizes(Via(c, down, up), len)
  {
    forall at: nat, v | Via(c, down, up).put(at, v).Some? ensures |Via(c, down, up).put(at, v).value| == len(v) {
      SizesAt(c, la, at, down(v));
    }
  }

  lemma OptionalSizes<T(!new)>(c: Codec<T>, len: T -> int)
    requires Sizes(c, len)
    ensures Sizes(Optional(c), (v: Option<T>) => OptionLength(len, v))
  {
    hide Choice;
    forall at: nat, v | Optional(c).put(at, v).Some? ensures |Optional(c).put(at, v).value| == OptionLength(len, v) {
      if at < LIMIT {
        OptionalPut(c, at, v);
      } else {
        ChoiceStops(OptionTag, n => OptionForm(c, n), at, v);
      }
    }
  }

  lemma ChoiceStops<T(!new)>(tag: T -> int, form: int -> Codec<T>, at: nat, v: T)
    requires at >= LIMIT
    ensures Choice(tag, form).put(at, v) == None
  {
  }

  function OptionLength<T>(len: T -> int, v: Option<T>): int { if v.None? then 1 else 1 + len(v.value) }
  function BytesLength(b: seq<byte>): int { |b| }
  function RunLength(b: seq<byte>): int { 2 + |b| }
  function One<T>(v: T): int { 1 }
  function Eight(n: int): int { 8 }

  lemma FixedSizes(n: nat, valid: seq<byte> -> bool)
    ensures Sizes(Fixed(n, valid), BytesLength)
  {
  }

  lemma NumberSizes()
    ensures Sizes(U64(), Eight) && Sizes(I64(), Eight)
  {
    hide BigEndian;
    forall at: nat, n | U64().put(at, n).Some? ensures |U64().put(at, n).value| == 8 {
      assert |BigEndian(n, 8)| == 8;
    }
    ViaSizes(Unsigned(8), Twist, Twist, Eight, Eight);
  }

  lemma CodedSizes<T(!new)>(code: T -> int, of: int -> Option<T>)
    requires forall v :: 0 <= code(v) < 256
    ensures Sizes(Coded(code, of), One)
  {
    forall at: nat, v | Coded(code, of).put(at, v).Some? ensures |Coded(code, of).put(at, v).value| == 1 {
      CodedIs(code, of, at, v);
    }
  }

  lemma TextSizes(maximum: nat)
    ensures Sizes(TextField(maximum), RunLength)
  {
    hide BigEndian, Pow256;
    forall at: nat, v | TextField(maximum).put(at, v).Some?
      ensures |TextField(maximum).put(at, v).value| == RunLength(v) {
      assert |BigEndian(|v|, 2)| == 2;
    }
  }

  lemma IdSizes()
    ensures Sizes(CommitIdField(), BytesLength) && Sizes(StackIdField(), BytesLength)
      && Sizes(LayerIdField(), BytesLength)
    ensures Sizes(ObjectIdField(), BytesLength) && Sizes(NodeIdField(), BytesLength)
      && Sizes(BranchIdField(), BytesLength)
  {
    hide Sizes, Fixed;
    FixedSizes(17, id => Tagged(id, 0x11));
    FixedSizes(33, id => Tagged(id, 0x12));
    FixedSizes(17, id => Tagged(id, 0x31));
    FixedSizes(33, id => Tagged(id, 0x32));
    FixedSizes(33, id => Tagged(id, 0x12) || Tagged(id, 0x32));
    FixedSizes(32, AnyBytes);
  }

  function MessageLength(v: Option<seq<byte>>): (n: int)
    ensures n >= 1
  {
    if v.None? then 1 else 3 + |v.value|
  }

  lemma OptionalIdSizes()
    ensures Sizes(HeadField(), IdLength) && Sizes(NodeField(), IdLength) && Sizes(Optional(BranchIdField()), IdLength)
    ensures Sizes(MessageField(), MessageLength)
  {
    hide Optional, CommitIdField, NodeIdField, BranchIdField, TextField;
    IdSizes();
    TextSizes(MAXIMUM_MESSAGE_BYTES);
    OptionalSizes(CommitIdField(), BytesLength);
    OptionalSizes(NodeIdField(), BytesLength);
    OptionalSizes(BranchIdField(), BytesLength);
    OptionalSizes(TextField(MAXIMUM_MESSAGE_BYTES), RunLength);
    assert forall v :: OptionLength(BytesLength, v) == IdLength(v);
    assert forall v :: OptionLength(RunLength, v) == MessageLength(v);
  }

  function MetaLength(m: CommitMeta): (n: int)
    ensures n >= 0
  {
    IdLength(m.branch) + MessageLength(m.message) + IdLength(m.mergedFrom) + IdLength(m.displaced) + 42
  }

  function StatLength(s: Statistics): int { 32 }

  lemma StatSizes()
    ensures Sizes(StatField(), StatLength)
  {
    hide Sizes, Pair, U64;
    NumberSizes();
    PairSizes(U64(), U64(), Eight, Eight);
    var two := (v: (int, int)) => Eight(v.0) + Eight(v.1);
    PairSizes(Pair(U64(), U64()), Pair(U64(), U64()), two, two);
    ViaSizes(
      Pair(Pair(U64(), U64()), Pair(U64(), U64())), StatDown, StatUp,
      (v: ((int, int), (int, int))) => two(v.0) + two(v.1), StatLength);
  }

  lemma MetaSizes()
    ensures Sizes(MetaField(), MetaLength)
  {
    hide Sizes, Pair, Optional, BranchIdField, ViaField, MessageField, NodeField, I64, StatField, HeadField, Coded;
    OptionalIdSizes();
    CodedSizes(ViaCode, ViaOf);
    CodedSizes(BoolCode, BoolOf);
    NumberSizes();
    StatSizes();
    ViaFieldIsCoded();
    PairSizes(Optional(BranchIdField()), ViaField(), IdLength, One);
    PairSizes(MessageField(), NodeField(), MessageLength, IdLength);
    PairSizes(I64(), StatField(), Eight, StatLength);
    PairSizes(HeadField(), Boolean(), IdLength, One);
    var a := (v: (Option<Id>, CommitVia)) => IdLength(v.0) + One(v.1);
    var b := (v: (Option<seq<byte>>, Option<Id>)) => MessageLength(v.0) + IdLength(v.1);
    var c := (v: (int, Statistics)) => Eight(v.0) + StatLength(v.1);
    var d := (v: (Option<Id>, bool)) => IdLength(v.0) + One(v.1);
    var left, right := Pair(Optional(BranchIdField()), ViaField()), Pair(MessageField(), NodeField());
    var low, high := Pair(I64(), StatField()), Pair(HeadField(), Boolean());
    PairSizes(left, right, a, b);
    PairSizes(low, high, c, d);
    var ab := (v: ((Option<Id>, CommitVia), (Option<seq<byte>>, Option<Id>))) => a(v.0) + b(v.1);
    var cd := (v: ((int, Statistics), (Option<Id>, bool))) => c(v.0) + d(v.1);
    PairSizes(Pair(left, right), Pair(low, high), ab, cd);
    ViaSizes(MetaParts(), MetaDown, MetaUp, (v: MetaFields) => ab(v.0) + cd(v.1), MetaLength);
  }

  lemma ViaFieldIsCoded()
    ensures ViaField() == Coded(ViaCode, ViaOf)
  {
  }

  function CommitLength(c: CommitRecord): (n: int)
    ensures n >= 0
  {
    |c.id| + |c.stack| + |c.root| + IdLength(c.parent) + |c.baseLayer| + IdLength(c.secondParent) + MetaLength(c.meta)
  }

  function TwoIds(v: (Id, Id)): int { |v.0| + |v.1| }
  function ThreeIds(v: (Id, (Id, Id))): int { |v.0| + TwoIds(v.1) }
  function ParentLength(v: (Option<Id>, Id)): int { IdLength(v.0) + |v.1| }
  function SecondLength(v: (Option<Id>, CommitMeta)): int { IdLength(v.0) + MetaLength(v.1) }
  function RestLength(v: ((Option<Id>, Id), (Option<Id>, CommitMeta))): int { ParentLength(v.0) + SecondLength(v.1) }
  function CommitFieldsLength(v: CommitFields): int { ThreeIds(v.0) + RestLength(v.1) }

  lemma PairSizesAs<A(!new), B(!new)>(a: Codec<A>, b: Codec<B>, la: A -> int, lb: B -> int, len: ((A, B)) -> int)
    requires Sizes(a, la) && Sizes(b, lb) && forall v: (A, B) :: len(v) == la(v.0) + lb(v.1)
    ensures Sizes(Pair(a, b), len)
  {
    PairSizes(a, b, la, lb);
  }

  lemma CommitSizes()
    ensures Sizes(CommitField(), CommitLength)
  {
    hide Sizes, Pair, CommitIdField, StackIdField, ObjectIdField, HeadField, LayerIdField, NodeField, MetaField;
    hide MetaLength, IdLength;
    var ids, parent := Pair(StackIdField(), ObjectIdField()), Pair(HeadField(), LayerIdField());
    var second := Pair(NodeField(), MetaField());
    IdSizes();
    OptionalIdSizes();
    MetaSizes();
    PairSizesAs(StackIdField(), ObjectIdField(), BytesLength, BytesLength, TwoIds);
    PairSizesAs(CommitIdField(), ids, BytesLength, TwoIds, ThreeIds);
    PairSizesAs(HeadField(), LayerIdField(), IdLength, BytesLength, ParentLength);
    PairSizesAs(NodeField(), MetaField(), IdLength, MetaLength, SecondLength);
    PairSizesAs(parent, second, ParentLength, SecondLength, RestLength);
    PairSizesAs(Pair(CommitIdField(), ids), Pair(parent, second), ThreeIds, RestLength, CommitFieldsLength);
    ViaSizes(CommitParts(), CommitDown, CommitUp, CommitFieldsLength, CommitLength);
  }

  /** The length of an outcome's record. */
  function OutcomeLength(o: CommitOutcome): (n: int)
    ensures n >= 0
  {
    match o
    case Committed(record, displaced) => 1 + CommitLength(record) + IdLength(displaced)
    case UpToDate(head, root) => 1 + IdLength(head) + |root|
  }

  lemma OutcomeSizes(at: nat, o: CommitOutcome)
    requires OutcomeField().put(at, o).Some?
    ensures |OutcomeField().put(at, o).value| == OutcomeLength(o)
  {
    hide Sizes, Pair, CommitField, HeadField, ObjectIdField, Choice, Form, CommitLength, IdLength;
    IdSizes();
    OptionalIdSizes();
    CommitSizes();
    if at >= LIMIT {
      ChoiceStops(OutcomeTag, OutcomeForm, at, o);
    } else {
      ChoicePuts(OutcomeTag, OutcomeForm, at, o);
      match o
      case Committed(record, displaced) =>
        FormPut(Pair(CommitField(), HeadField()), MakeCommitted, OpenCommitted, at + 1, o);
        PairSizes(CommitField(), HeadField(), CommitLength, IdLength);
        SizesAt(
          Pair(CommitField(), HeadField()), (v: (CommitRecord, Option<Id>)) => CommitLength(v.0) + IdLength(v.1),
          at + 1, (record, displaced));
      case UpToDate(head, root) =>
        FormPut(Pair(HeadField(), ObjectIdField()), MakeUpToDate, OpenUpToDate, at + 1, o);
        PairSizes(HeadField(), ObjectIdField(), IdLength, BytesLength);
        SizesAt(
          Pair(HeadField(), ObjectIdField()), (v: (Option<Id>, Id)) => IdLength(v.0) + BytesLength(v.1),
          at + 1, (head, root));
    }
  }

  /** Where the decisions of a merged Commit at `at` start. */
  function DecisionsAt(at: nat, m: MergedCommit): nat {
    at + OutcomeLength(m.outcome) + IdLength(m.from) + IdLength(m.head)
  }

  /** The decisions that arrive: as many leading ones as the room after the rest allows. */
  function DecisionsKept(at: nat, m: MergedCommit): nat { Fitting(Room(DecisionsAt(at, m)), m.lww, LwwCost) }

  lemma HeadsSize(at: nat, v: (Option<Id>, Option<Id>))
    requires Pair(HeadField(), HeadField()).put(at, v).Some?
    ensures |Pair(HeadField(), HeadField()).put(at, v).value| == IdLength(v.0) + IdLength(v.1)
  {
    hide Pair, HeadField, Sizes;
    OptionalIdSizes();
    PairSizes(HeadField(), HeadField(), IdLength, IdLength);
    SizesAt(
      Pair(HeadField(), HeadField()), (w: (Option<Id>, Option<Id>)) => IdLength(w.0) + IdLength(w.1), at, v);
  }

  lemma MergedIs(at: nat, m: MergedCommit)
    requires MergedField().put(at, m).Some?
    ensures |MergedField().norm(at, m).lww| == DecisionsKept(at, m)
  {
    hide Pair, OutcomeField, HeadField, Lww, OutcomeLength, IdLength, Fitting, LwwCut;
    var heads := Pair(HeadField(), HeadField());
    PairIs(OutcomeField(), Pair(heads, Lww()), at, MergedDown(m));
    OutcomeSizes(at, m.outcome);
    var p := at + OutcomeLength(m.outcome);
    PairIs(heads, Lww(), p, MergedDown(m).1);
    HeadsSize(p, (m.from, m.head));
    LwwAre(DecisionsAt(at, m), m.lww);
  }

  /**
    A merged Commit is read back with the longest prefix of its decisions whose
    costs fit behind the rest, and decisions are lost if and only if their total
    cost exceeds that room. Nothing marks the loss: the record is byte for byte
    that of the shortened Commit.
  */
  lemma MergedArrives(at: nat, m: MergedCommit, rest: seq<byte>)
    requires at <= LIMIT && MergedField().ok(m) && MergedField().put(at, m).Some?
    ensures match MergedField().get(MergedField().put(at, m).value + rest)
      case None => false
      case Some((n, after)) =>
        && after == rest && MergedSent(m, n) && |n.lww| == DecisionsKept(at, m)
        && (|n.lww| < |m.lww| <==> m.lww != [] && Total(m.lww, LwwCost) > Room(DecisionsAt(at, m)))
        && MergedField().put(at, n) == MergedField().put(at, m)
  {
    hide MergedField, MergedSent, Lawful, Becomes, DecisionsAt, Fitting, Total;
    MergedLaw();
    Law(MergedField(), at, m);
    MergedBecomes();
    BecomesAt(MergedField(), MergedSent, at, m);
    MergedIs(at, m);
    if m.lww != [] {
      FittingIsLongest(Room(DecisionsAt(at, m)), m.lww, LwwCost, |m.lww|);
      assert m.lww[..|m.lww|] == m.lww;
    }
  }

  // A merged Commit that loses decisions

  function Decisions(n: nat): (r: seq<LwwDecision>)
    ensures |r| == n
  {
    seq(n, _ => LwwDecision([], false, false, []))
  }

  function ManyDecisions(): MergedCommit {
    MergedCommit(UpToDate(None, seq(32, _ => 0)), None, None, Decisions(13_000))
  }

  lemma {:induction false} DecisionsCost(n: nat)
    ensures Total(Decisions(n), LwwCost) == 5 * n
    decreases n
  {
    if n > 0 {
      assert Decisions(n)[1..] == Decisions(n - 1);
      DecisionsCost(n - 1);
    }
  }

  /** Thirteen thousand decisions are written, some do not arrive, and the record does not say so. */
  lemma DecisionsAreLost(at: nat)
    requires at <= 1024
    ensures MergedField().put(at, ManyDecisions()).Some?
    ensures match MergedField().get(MergedField().put(at, ManyDecisions()).value)
      case None => false
      case Some((n, after)) => after == [] && |n.lww| < 13_000
  {
    hide MergedField, MergedSent, Total, Fitting, Decisions;
    var m := ManyDecisions();
    DecisionsCost(13_000);
    ManyAreWritten(at);
    MergedArrives(at, m, []);
    assert MergedField().put(at, m).value + [] == MergedField().put(at, m).value;
  }

  lemma ManyAreWritten(at: nat)
    requires at <= 1024
    ensures MergedField().put(at, ManyDecisions()).Some? && MergedField().ok(ManyDecisions())
  {
    hide Pair, OutcomeField, HeadField, Lww, OutcomeLength, LwwItem;
    var m := ManyDecisions();
    var heads := Pair(HeadField(), HeadField());
    PlainOutcome(at);
    var p := at + |OutcomeField().put(at, m.outcome).value|;
    NoHeads(p);
    LwwFits(p + 2, m.lww);
    PairOf(HeadField(), HeadField(), p, (None, None));
    PairOf(heads, Lww(), p, ((None, None), m.lww));
    PairOf(OutcomeField(), Pair(heads, Lww()), at, MergedDown(m));
    ViaPut(MergedParts(), MergedDown, MergedUp, at, m);
    PairOk(OutcomeField(), Pair(heads, Lww()), MergedDown(m));
    PairOk(heads, Lww(), MergedDown(m).1);
    PairOk(HeadField(), HeadField(), (None, None));
    NoHeadIsOk(at);
    DecisionsAreOk(13_000);
  }

  lemma DecisionsAreOk(n: nat)
    ensures Lww().ok(Decisions(n))
  {
    var d := LwwDecision([], false, false, []);
    assert Clipped().ok([]);
    PairOk(Clipped(), Clipped(), ([], []));
    PairOk(Pair(Clipped(), Clipped()), Coded(FlagsCode, FlagsOf), LwwDown(d));
    assert LwwItem().ok(d);
  }

  lemma PlainOutcome(at: nat)
    requires at <= 1024
    ensures var o := ManyDecisions().outcome;
      OutcomeField().ok(o) && OutcomeField().put(at, o).Some? && |OutcomeField().put(at, o).value| <= 100
  {
    hide Pair, Choice, Form;
    var o := ManyDecisions().outcome;
    var zeros := o.root;
    NoHeads(at + 1);
    assert |zeros| == 32 && AnyBytes(zeros);
    assert ObjectIdField().put(at + 2, zeros) == Some(zeros) && ObjectIdField().ok(zeros);
    PairOf(HeadField(), ObjectIdField(), at + 1, (None, zeros));
    FormPut(Pair(HeadField(), ObjectIdField()), MakeUpToDate, OpenUpToDate, at + 1, o);
    ChoicePuts(OutcomeTag, OutcomeForm, at, o);
    NoHeadIsOk(at);
    PairOk(HeadField(), ObjectIdField(), (None, zeros));
    UpToDateOk(o);
  }

  lemma UpToDateOk(o: CommitOutcome)
    requires o.UpToDate? && Pair(HeadField(), ObjectIdField()).ok((o.head, o.root))
    ensures OutcomeField().ok(o)
  {
    hide Pair, HeadField, ObjectIdField, CommitField, Form, Choice;
    FormIsOk(Pair(HeadField(), ObjectIdField()), MakeUpToDate, OpenUpToDate, o);
    ChoiceIsOk(OutcomeTag, OutcomeForm, o);
  }

  lemma NoHeads(at: nat)
    requires at <= 2048
    ensures HeadField().put(at, None) == Some([0]) && HeadField().put(at + 1, None) == Some([0])
  {
    OptionalPut(CommitIdField(), at, None);
    OptionalPut(CommitIdField(), at + 1, None);
  }
}
