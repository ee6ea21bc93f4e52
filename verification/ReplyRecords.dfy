/**
  The bytes of the records that answers are made of. Where a record loses detail
  on the way, these are the bytes of the record that arrives.
*/
module ReplyRecords {
  import opened Wrappers
  import opened Bytes
  import opened Codec
  import opened ListCodec
  import opened HistoryRecords
  import opened ControlRecords
  import opened MergeTypes
  import opened MergeReport
  import opened MergeReplies
  import opened Spelling
  import opened RecordBytes

  // Commits

  function ViaByte(v: CommitVia): seq<byte> { match v case Workspace => [1] case Files => [2] case Merge => [3] }
  function StatBytes(s: Statistics): seq<byte> {
    (Eight(s.logical) + Eight(s.newCanonical)) + (Eight(s.newStored) + Eight(s.newMetadata))
  }
  /** The flag says that decisions are kept in the Store alone. */
  function MetaBytes(m: CommitMeta): seq<byte> {
    ((IdBytes(m.branch) + ViaByte(m.via)) + (TextBytes(m.message) + IdBytes(m.mergedFrom)))
    + ((Signed(m.timeMs) + StatBytes(m.statistics))
      + (IdBytes(m.displaced) + Flag(m.lwwTruncated || m.lww != [])))
  }
  predicate MetaLegal(m: CommitMeta) { MessageLegal(m.message) }

  lemma StatWrites()
    ensures Writes(StatField(), Always(), StatBytes)
  {
    hide Writes, Pair, U64, Eight;
    var pair, x := Pair(U64(), U64()), Both(Eight, Eight);
    NumbersWrite();
    BothWrite(U64(), Eight, U64(), Eight);
    BothWrite(pair, x, pair, x);
    ViaWrites(Pair(pair, pair), Always(), Both(x, x), StatDown, StatUp, Always(), StatBytes);
  }

  lemma MetaWrites()
    ensures Writes(MetaField(), MetaLegal, MetaBytes)
  {
    hide Writes, Pair, Optional, BranchIdField, ViaField, MessageField, NodeField, I64, StatField;
    hide HeadField, Boolean, MessageLegal, IdBytes, ViaByte, TextBytes, Signed, StatBytes, Flag;
    IdsWrite();
    NumbersWrite();
    BooleanWrites();
    HeadsWrite();
    MessageWrites();
    StatWrites();
    ViaByteWrites();
    OptionalIdWrites(BranchIdField());
    BothWrite(Optional(BranchIdField()), IdBytes, ViaField(), ViaByte);
    PairWritesAs(MessageField(), MessageLegal, TextBytes, NodeField(), Always(), IdBytes);
    BothWrite(I64(), Signed, StatField(), StatBytes);
    BothWrite(HeadField(), IdBytes, Boolean(), Flag);
    var first, second := Pair(Optional(BranchIdField()), ViaField()), Pair(MessageField(), NodeField());
    var third, fourth := Pair(I64(), StatField()), Pair(HeadField(), Boolean());
    var p := And(MessageLegal, Always<Option<Id>>());
    var x, y := Both(Both(IdBytes, ViaByte), Both(TextBytes, IdBytes)),
      Both(Both(Signed, StatBytes), Both(IdBytes, Flag));
    PairWritesAs(first, Always(), Both(IdBytes, ViaByte), second, p, Both(TextBytes, IdBytes));
    BothWrite(third, Both(Signed, StatBytes), fourth, Both(IdBytes, Flag));
    PairWritesAs(Pair(first, second), And(Always(), p), x, Pair(third, fourth), Always(), y);
    ViaWrites(MetaParts(), And(And(Always(), p), Always()), Both(x, y), MetaDown, MetaUp, MetaLegal, MetaBytes);
  }

  lemma ViaByteWrites()
    ensures Writes(ViaField(), Always(), ViaByte)
  {
    CodedWrites(ViaCode, ViaOf, ViaByte);
  }

  function CommitBytes(c: CommitRecord): seq<byte> {
    (c.id + (c.stack + c.root))
    + ((IdBytes(c.parent) + c.baseLayer) + (IdBytes(c.secondParent) + MetaBytes(c.meta)))
  }
  predicate CommitLegal(c: CommitRecord) { MetaLegal(c.meta) }

  lemma CommitWrites()
    ensures Writes(CommitField(), CommitLegal, CommitBytes)
  {
    hide Writes, Pair, CommitIdField, StackIdField, ObjectIdField, HeadField, LayerIdField, NodeField, MetaField;
    hide MetaBytes, MetaLegal, IdBytes;
    IdsWrite();
    HeadsWrite();
    MetaWrites();
    BothWrite(StackIdField(), Plain(), ObjectIdField(), Plain());
    BothWrite(CommitIdField(), Plain(), Pair(StackIdField(), ObjectIdField()), Both(Plain(), Plain()));
    BothWrite(HeadField(), IdBytes, LayerIdField(), Plain());
    PairWritesAs(NodeField(), Always(), IdBytes, MetaField(), MetaLegal, MetaBytes);
    var ids, x := Pair(CommitIdField(), Pair(StackIdField(), ObjectIdField())), Both(Plain(), Both(Plain(), Plain()));
    var mid, y := Pair(HeadField(), LayerIdField()), Both(IdBytes, Plain());
    var ends, z := Pair(NodeField(), MetaField()), Both(IdBytes, MetaBytes);
    var p := And(Always<Option<Id>>(), MetaLegal);
    PairWritesAs(mid, Always(), y, ends, p, z);
    PairWritesAs(ids, Always(), x, Pair(mid, ends), And(Always(), p), Both(y, z));
    ViaWrites(CommitParts(), And(Always(), And(Always(), p)), Both(x, Both(y, z)), CommitDown, CommitUp, CommitLegal,
      CommitBytes);
  }

  function OutcomeNumber(o: CommitOutcome): byte { match o case Committed(_, _) => 1 case UpToDate(_, _) => 2 }
  function OutcomeBody(o: CommitOutcome): seq<byte> {
    match o
    case Committed(record, displaced) => CommitBytes(record) + IdBytes(displaced)
    case UpToDate(head, root) => IdBytes(head) + root
  }
  function OutcomeBytes(o: CommitOutcome): seq<byte> { [OutcomeNumber(o)] + OutcomeBody(o) }
  predicate OutcomeLegal(o: CommitOutcome) { o.Committed? ==> CommitLegal(o.record) }

  lemma OutcomeWrites()
    ensures Writes(OutcomeField(), OutcomeLegal, OutcomeBytes)
  {
    hide Writes, Pair, CommitField, HeadField, ObjectIdField, CommitBytes, CommitLegal, Choice, IdBytes;
    IdsWrite();
    HeadsWrite();
    CommitWrites();
    PairWritesAs(CommitField(), CommitLegal, CommitBytes, HeadField(), Always(), IdBytes);
    BothWrite(HeadField(), IdBytes, ObjectIdField(), Plain());
    FormWrites(Pair(CommitField(), HeadField()), And(CommitLegal, Always()), Both(CommitBytes, IdBytes),
      MakeCommitted, OpenCommitted, OutcomeLegal, OutcomeBody);
    FormWrites(Pair(HeadField(), ObjectIdField()), Always(), Both(IdBytes, Plain()), MakeUpToDate, OpenUpToDate,
      OutcomeLegal, OutcomeBody);
    RefusedWrites(OutcomeLegal, OutcomeBody);
    hide Form, Refused;
    ChoiceWritesAs(OutcomeTag, OutcomeForm, OutcomeLegal, OutcomeBody, OutcomeBytes);
  }

  lemma OutcomeSpells()
    ensures Spells(OutcomeField(), OutcomeBytes)
  {
    hide Writes, Spells, Becomes, OutcomeField, OutcomeLegal;
    OutcomeWrites();
    OutcomeBecomes();
    SentSpells(OutcomeField(), OutcomeLegal, OutcomeBytes, OutcomeSent);
  }

  function PublicationBytes(o: Option<CommitOutcome>): seq<byte> {
    match o case None => [0] case Some(x) => [1] + OutcomeBytes(x)
  }
  predicate PublicationLegal(o: Option<CommitOutcome>) { o.Some? ==> OutcomeLegal(o.value) }

  lemma PublicationWrites()
    ensures Writes(PublicationField(), PublicationLegal, PublicationBytes)
  {
    hide Writes, Optional, OutcomeField, OutcomeBytes, OutcomeLegal;
    OutcomeWrites();
    OptionalWrites(OutcomeField(), OutcomeLegal, OutcomeBytes);
    var p := Any(OutcomeLegal);
    forall v ensures p(v) == PublicationLegal(v) && Maybe(OutcomeBytes)(v) == PublicationBytes(v) {
    }
    WritesAlso(PublicationField(), p, Maybe(OutcomeBytes), PublicationLegal, PublicationBytes);
  }

  // Forced teardown

  function KnowledgeNumber(k: CommitKnowledge): byte {
    match k case Absent => 1 case Published(_) => 2 case CommitUnknown => 3
  }
  function KnowledgeBody(k: CommitKnowledge): seq<byte> { if k.Published? then OutcomeBytes(k.outcome) else [] }
  function KnowledgeBytes(k: CommitKnowledge): seq<byte> { [KnowledgeNumber(k)] + KnowledgeBody(k) }
  predicate KnowledgeLegal(k: CommitKnowledge) { k.Published? ==> OutcomeLegal(k.outcome) }

  lemma KnowledgeWrites()
    ensures Writes(KnowledgeField(), KnowledgeLegal, KnowledgeBytes)
  {
    hide Writes, OutcomeField, OutcomeBytes, OutcomeLegal, Choice;
    OutcomeWrites();
    FormWrites(OutcomeField(), OutcomeLegal, OutcomeBytes, MakePublished, OpenPublished, KnowledgeLegal, KnowledgeBody);
    OnlyWrites(Absent, KnowledgeLegal, KnowledgeBody);
    OnlyWrites(CommitUnknown, KnowledgeLegal, KnowledgeBody);
    RefusedWrites(KnowledgeLegal, KnowledgeBody);
    hide Form, Refused, Only;
    ChoiceWritesAs(KnowledgeTag, KnowledgeForm, KnowledgeLegal, KnowledgeBody, KnowledgeBytes);
  }

  function AbortByte(a: AbortDisposition): seq<byte> {
    match a case AbortWritten => [1] case AbortShort => [2] case AbortFailed => [3]
  }
  function DetachByte(d: DetachDisposition): seq<byte> {
    match d case NotAttempted => [1] case Detached => [2] case DetachBusy => [3] case DetachFailed => [4]
  }
  function CleanupByte(c: ForcedCleanup): seq<byte> {
    match c case CleanupHeld => [1] case CleanupQueued => [2] case CleanupGone => [3] case Unobserved => [4]
  }

  function FactsBytes(f: ForcedFacts): seq<byte> {
    (AbortByte(f.abort) + DetachByte(f.detach)) + (KnowledgeBytes(f.commit) + Eight(f.fenced))
  }
  predicate FactsLegal(f: ForcedFacts) { KnowledgeLegal(f.commit) }

  lemma FactsWrite()
    ensures Writes(FactsField(), FactsLegal, FactsBytes)
  {
    hide Writes, Pair, Coded, KnowledgeField, U64, Eight, KnowledgeBytes, KnowledgeLegal;
    CodedWrites(AbortCode, AbortOf, AbortByte);
    CodedWrites(DetachCode, DetachOf, DetachByte);
    KnowledgeWrites();
    NumbersWrite();
    BothWrite(AbortField(), AbortByte, DetachField(), DetachByte);
    PairWritesAs(KnowledgeField(), KnowledgeLegal, KnowledgeBytes, U64(), Always(), Eight);
    var p := And(KnowledgeLegal, Always<int>());
    PairWritesAs(Pair(AbortField(), DetachField()), Always(), Both(AbortByte, DetachByte),
      Pair(KnowledgeField(), U64()),
      p, Both(KnowledgeBytes, Eight));
    ViaWrites(FactsParts(), And(Always(), p), Both(Both(AbortByte, DetachByte), Both(KnowledgeBytes, Eight)), FactsDown,
      FactsUp, FactsLegal, FactsBytes);
  }

  function ForcedBytes(f: ForceUnmounted): seq<byte> {
    TokenBytes(f.token) + (FactsBytes(f.facts) + (WorkBytes(f.work) + CleanupByte(f.cleanup)))
  }
  predicate ForcedLegal(f: ForceUnmounted) { TokenLegal(f.token) && FactsLegal(f.facts) }

  lemma ForcedWrites()
    ensures Writes(ForcedField(), ForcedLegal, ForcedBytes)
  {
    hide Writes, Pair, TokenField, FactsField, WorkField, Coded, TokenBytes, FactsBytes, WorkBytes;
    hide TokenLegal, FactsLegal;
    TokenWrites();
    FactsWrite();
    WorkWrites();
    CodedWrites(CleanupCode, CleanupOf, CleanupByte);
    var rest, x := Pair(WorkField(), CleanupField()), Both(WorkBytes, CleanupByte);
    BothWrite(WorkField(), WorkBytes, CleanupField(), CleanupByte);
    PairWritesAs(FactsField(), FactsLegal, FactsBytes, rest, Always(), x);
    var p := And(FactsLegal, Always<(MountWork, ForcedCleanup)>());
    PairWritesAs(TokenField(), TokenLegal, TokenBytes, Pair(FactsField(), rest), p, Both(FactsBytes, x));
    ViaWrites(ForcedParts(), And(TokenLegal, p), Both(TokenBytes, Both(FactsBytes, x)), ForcedDown, ForcedUp,
      ForcedLegal, ForcedBytes);
  }

  // Refusals

  function CodeByte(c: ControlCode): seq<byte> {
    match c
    case Busy => [1] case HeadMoved => [2] case Missing => [3] case Capacity => [4] case Invalid => [5]
    case Failed => [6] case Unknown => [7]
  }
  function MovedOption(m: Option<MovedState>): seq<byte> {
    match m case None => [0] case Some(x) => [1] + MovedBytes(x)
  }
  function RefusalBytes(r: ControlRefusal): seq<byte> {
    (CodeByte(r.code) + (ShortRun(r.phase) + MovedOption(r.moved)))
      + (PublicationBytes(r.published) + ShortRun(r.detail))
  }
  predicate RefusalFits(r: ControlRefusal) { |r.phase| <= 64 && PublicationLegal(r.published) && |r.detail| <= 2048 }
  predicate RefusalLegal(r: ControlRefusal) { RefusalFits(r) && (r.moved.Some? <==> r.code == HeadMoved) }

  lemma MovedOptionWrites()
    ensures Writes(Optional(MovedField()), Always(), MovedOption)
  {
    hide Writes, Optional, MovedField, MovedBytes;
    MovedWrites();
    OptionalWrites(MovedField(), Always(), MovedBytes);
    var p := Any(Always<MovedState>());
    forall v ensures p(v) && Maybe(MovedBytes)(v) == MovedOption(v) {
    }
    AlwaysWrites(Optional(MovedField()), p, Maybe(MovedBytes), MovedOption);
  }

  lemma CodeWrites()
    ensures Writes(ControlCodeField(), Always(), CodeByte)
  {
    CodedWrites(ControlCodeNumber, ControlCodeOf, CodeByte);
  }

  lemma RefusalWrites()
    ensures Writes(RefusalField(), RefusalLegal, RefusalBytes)
  {
    hide Writes, Pair, Coded, TextField, Optional, MovedField, PublicationField, Checked, CodeByte;
    hide ShortRun, MovedOption, PublicationBytes, PublicationLegal;
    CodeWrites();
    TextWrites(64);
    TextWrites(2048);
    MovedOptionWrites();
    PublicationWrites();
    var head, x := Pair(TextField(64), Optional(MovedField())), Both(ShortRun, MovedOption);
    var tail, y := Pair(PublicationField(), TextField(2048)), Both(PublicationBytes, ShortRun);
    var p, q := And(Upto(64), Always<Option<MovedState>>()), And(PublicationLegal, Upto(2048));
    PairWritesAs(TextField(64), Upto(64), ShortRun, Optional(MovedField()), Always(), MovedOption);
    PairWritesAs(ControlCodeField(), Always(), CodeByte, head, p, x);
    PairWritesAs(PublicationField(), PublicationLegal, PublicationBytes, TextField(2048), Upto(2048), ShortRun);
    PairWritesAs(RefusalHead(), And(Always(), p), Both(CodeByte, x), tail, q, y);
    ViaWrites(RefusalParts(), And(And(Always(), p), q), Both(Both(CodeByte, x), y), RefusalDown, RefusalUp,
      RefusalFits, RefusalBytes);
    CheckedWrites(RefusalRecord(), RefusalFits, RefusalBytes, RefusalFacts, RefusalLegal);
  }

  // Status

  /** Of an observation exactly one part is there. */
  function ObservationNumber(o: Observation): byte { if o.0.Some? then 1 else 0 }
  function ObservationBody(o: Observation): seq<byte> {
    if o.0.Some? then LocalBytes(o.0.value) else if o.1.Some? then RefusalBytes(o.1.value) else []
  }
  function ObservationBytes(o: Observation): seq<byte> { [ObservationNumber(o)] + ObservationBody(o) }
  predicate ObservationLegal(o: Observation) { o.1.Some? ==> RefusalLegal(o.1.value) }

  lemma ObservationWrites()
    ensures Writes(ObservationField(), ObservationLegal, ObservationBytes)
  {
    hide Writes, LocalField, RefusalField, LocalBytes, RefusalBytes, RefusalLegal, Choice;
    LocalWrites();
    RefusalWrites();
    FormWrites(LocalField(), Always(), LocalBytes, MakeLocal, OpenLocal, ObservationLegal, ObservationBody);
    FormWrites(RefusalField(), RefusalLegal, RefusalBytes, MakeFailure, OpenFailure, ObservationLegal, ObservationBody);
    RefusedWrites(ObservationLegal, ObservationBody);
    hide Form, Refused;
    ChoiceWritesAs(ObservationTag, ObservationForm, ObservationLegal, ObservationBody, ObservationBytes);
  }

  function ActivityByte(a: Activity): seq<byte> {
    match a
    case Idle => [1] case Committing => [2] case Closing => [3] case Uncertain => [4] case LocalFailure => [5]
    case ActivityAttaching => [6]
  }
  function StatusBytes(s: StatusBody): seq<byte> {
    ((TokenBytes(s.token) + BindingBytes(s.binding))
      + (ActivityByte(s.activity) + (Eight(s.epoch) + Flag(s.epochSaturated))))
    + (PublicationBytes(s.published) + ObservationBytes(s.observation))
  }
  predicate StatusLegal(s: StatusBody) {
    TokenLegal(s.token) && PublicationLegal(s.published) && ObservationLegal(s.observation)
  }

  lemma StatusHeadWrites()
    ensures Writes(StatusHead(), And(And(TokenLegal, Always()), Always()),
      Both(Both(TokenBytes, BindingBytes), Both(ActivityByte, Both(Eight, Flag))))
  {
    hide Writes, Pair, TokenField, BindingField, Coded, U64, Boolean;
    hide TokenBytes, BindingBytes, ActivityByte, Eight, Flag, TokenLegal;
    TokenWrites();
    BindingWrites();
    NumbersWrite();
    BooleanWrites();
    CodedActivityWrites();
    PairWritesAs(TokenField(), TokenLegal, TokenBytes, BindingField(), Always(), BindingBytes);
    BothWrite(U64(), Eight, Boolean(), Flag);
    BothWrite(ActivityField(), ActivityByte, Pair(U64(), Boolean()), Both(Eight, Flag));
    PairWritesAs(Pair(TokenField(), BindingField()), And(TokenLegal, Always()), Both(TokenBytes, BindingBytes),
      Pair(ActivityField(), Pair(U64(), Boolean())), Always(), Both(ActivityByte, Both(Eight, Flag)));
  }

  lemma CodedActivityWrites()
    ensures Writes(ActivityField(), Always(), ActivityByte)
  {
    CodedWrites(ActivityCode, ActivityOf, ActivityByte);
  }

  lemma StatusWrites()
    ensures Writes(StatusField(), StatusLegal, StatusBytes)
  {
    hide Writes, Pair, StatusHead, PublicationField, ObservationField;
    hide TokenBytes, BindingBytes, ActivityByte, Eight, Flag, PublicationBytes, ObservationBytes;
    hide TokenLegal, PublicationLegal, ObservationLegal;
    StatusHeadWrites();
    PublicationWrites();
    ObservationWrites();
    var x := Both(Both(TokenBytes, BindingBytes), Both(ActivityByte, Both(Eight, Flag)));
    var p, q := And(And(TokenLegal, Always()), Always()), And(PublicationLegal, ObservationLegal);
    PairWritesAs(PublicationField(), PublicationLegal, PublicationBytes, ObservationField(), ObservationLegal,
      ObservationBytes);
    PairWritesAs(StatusHead(), p, x, Pair(PublicationField(), ObservationField()), q,
      Both(PublicationBytes, ObservationBytes));
    ViaWrites(StatusParts(), And(p, q), Both(x, Both(PublicationBytes, ObservationBytes)), StatusDown, StatusUp,
      StatusLegal, StatusBytes);
  }

  // What arrives has the bytes of what was sent

  lemma OutcomeSame(o: Option<CommitOutcome>, p: Option<CommitOutcome>)
    requires PublicationSent(o, p)
    ensures PublicationBytes(p) == PublicationBytes(o)
  {
  }

  lemma RefusalSame(r: ControlRefusal, s: ControlRefusal)
    requires RefusalSent(r, s)
    ensures RefusalBytes(s) == RefusalBytes(r)
  {
    hide PublicationSent, PublicationBytes;
    OutcomeSame(r.published, s.published);
  }

  lemma StatusSame(s: StatusBody, t: StatusBody)
    requires StatusSent(s, t)
    ensures StatusBytes(t) == StatusBytes(s)
  {
    hide PublicationSent, PublicationBytes, RefusalSent, RefusalBytes, LocalBytes;
    OutcomeSame(s.published, t.published);
    if s.observation.1.Some? {
      RefusalSame(s.observation.1.value, t.observation.1.value);
    }
  }

  lemma FactsSame(f: ForcedFacts, g: ForcedFacts)
    requires FactsSent(f, g)
    ensures FactsBytes(g) == FactsBytes(f)
  {
    if f.commit.Published? {
      OutcomeSame(Some(f.commit.outcome), Some(g.commit.outcome));
    }
  }

  lemma {:induction false} CommitsSame(cs: seq<CommitRecord>, ds: seq<CommitRecord>)
    requires EachR(CommitSent, cs, ds)
    ensures Concat(CommitBytes, ds) == Concat(CommitBytes, cs)
    decreases |cs|
  {
    if cs != [] {
      assert CommitSent(cs[0], ds[0]);
      forall k | 0 <= k < |cs| - 1 ensures CommitSent(cs[1..][k], ds[1..][k]) {
        assert CommitSent(cs[k + 1], ds[k + 1]);
      }
      CommitsSame(cs[1..], ds[1..]);
    }
  }

  // Merges

  /** The same bytes in other words. */
  lemma SpellsAlso<T(!new)>(c: Codec<T>, x: T -> seq<byte>, bytes: T -> seq<byte>)
    requires Spells(c, x) && forall v :: bytes(v) == x(v)
    ensures Spells(c, bytes)
  {
    forall at: nat, v ensures SpelledAt(c, bytes, at, v) {
      SpellsAt(c, x, at, v);
    }
  }

  lemma PlainFieldsSpell()
    ensures Spells(U64(), Eight) && Spells(Boolean(), Flag) && Spells(TokenField(), TokenBytes)
    ensures Spells(HeadField(), IdBytes)
  {
    hide Writes, Spells, Faithful, U64, I64, Boolean, TokenField, HeadField;
    NumbersWrite();
    NumbersFaithful();
    BooleanWrites();
    BooleanFaithful();
    TokenWrites();
    TokenFaithful();
    HeadsWrite();
    HeadFaithful();
    WritesSpells(U64(), Always(), Eight);
    WritesSpells(Boolean(), Always(), Flag);
    WritesSpells(TokenField(), TokenLegal, TokenBytes);
    WritesSpells(HeadField(), Always(), IdBytes);
  }

  /** A list is a count of two bytes and its items. */
  function TextsBytes(xs: seq<Text>): seq<byte> { Counted(ShortRun)(xs) }

  function LwwBytes(d: LwwDecision): seq<byte> {
    (ShortRun(d.path) + ShortRun(d.rule)) + FlagsByte((d.keptOurs, d.deleted))
  }
  function FlagsByte(f: (bool, bool)): seq<byte> {
    [if f.0 then (if f.1 then 3 else 1) else (if f.1 then 2 else 0)]
  }
  function HunkBytes(h: Hunk): seq<byte> { Four(h.line) + (TextsBytes(h.ours) + TextsBytes(h.theirs)) }
  function KindByte(k: ConflictKind): seq<byte> {
    match k
    case Content => [1] case AddAdd => [2] case ModifyDelete => [3] case DeleteModify => [4]
    case Type => [5] case Binary => [6] case Markers => [7] case Mode => [8]
  }
  function HunksBytes(hs: seq<Hunk>): seq<byte> { Counted(HunkBytes)(hs) }
  function ConflictBytes(c: Conflict): seq<byte> { ShortRun(c.path) + (KindByte(c.kind) + HunksBytes(c.hunks)) }
  function ConflictsBytes(cs: seq<Conflict>): seq<byte> { Counted(ConflictBytes)(cs) }
  function DecisionsBytes(ds: seq<LwwDecision>): seq<byte> { Counted(LwwBytes)(ds) }

  lemma WindowSpells<T(!new)>(item: Codec<T>, cost: T -> nat, x: T -> seq<byte>, bytes: seq<T> -> seq<byte>)
    requires Spells(item, x) && forall v :: bytes(v) == Counted(x)(v)
    ensures Spells(Window(item, cost), bytes)
  {
    hide Spells;
    ListedSpells(item, KeepFitting(cost), x);
    SpellsAlso(Window(item, cost), Counted(x), bytes);
  }

  lemma LinesSpell()
    ensures Spells(Lines(), TextsBytes)
  {
    hide Spells, Clipped, ShortRun;
    ClippedSpells();
    WindowSpells(Clipped(), TextCost, ShortRun, TextsBytes);
  }

  lemma LwwSpells()
    ensures Spells(Lww(), DecisionsBytes)
  {
    hide Writes, Spells, Faithful, Clipped, Pair, Coded, ShortRun, Window;
    var text, flags := Pair(Clipped(), Clipped()), Coded(FlagsCode, FlagsOf);
    ClippedSpells();
    PairSpells(Clipped(), ShortRun, Clipped(), ShortRun);
    FlagsSpell();
    PairSpells(text, Both(ShortRun, ShortRun), flags, FlagsByte);
    ViaSpells(LwwParts(), Both(Both(ShortRun, ShortRun), FlagsByte), LwwDown, LwwUp, LwwBytes);
    hide LwwBytes;
    WindowSpells(LwwItem(), LwwCost, LwwBytes, DecisionsBytes);
  }

  lemma FlagsSpell()
    ensures Spells(Coded(FlagsCode, FlagsOf), FlagsByte)
  {
    CodedWrites(FlagsCode, FlagsOf, FlagsByte);
    CodedLaw(FlagsCode, FlagsOf);
    WritesSpells(Coded(FlagsCode, FlagsOf), Always(), FlagsByte);
  }

  lemma HunksSpell()
    ensures Spells(Hunks(), HunksBytes)
  {
    hide Spells, Pair, Lines, LineNumber, Four, TextsBytes, Listed;
    LinesSpell();
    LineNumberSpells();
    PairSpells(Lines(), TextsBytes, Lines(), TextsBytes);
    PairSpells(LineNumber(), LineBytes, Pair(Lines(), Lines()), Both(TextsBytes, TextsBytes));
    ViaSpells(HunkParts(), Both(LineBytes, Both(TextsBytes, TextsBytes)), HunkDown, HunkUp, HunkBytes);
    hide HunkBytes, HunkItem;
    ListedSpells(HunkItem(), HunksKept, HunkBytes);
    SpellsAlso(Hunks(), Counted(HunkBytes), HunksBytes);
  }

  lemma KindSpells()
    ensures Spells(KindField(), KindByte)
  {
    hide Writes, Spells, Faithful, Coded;
    KindFaithful();
    CodedWrites(KindCode, KindOf, KindByte);
    WritesSpells(KindField(), Always(), KindByte);
  }

  lemma ConflictsSpell()
    ensures Spells(Conflicts(), ConflictsBytes)
  {
    hide Spells, Pair, Clipped, KindField, Hunks, ShortRun, KindByte, HunksBytes, Window;
    ClippedSpells();
    KindSpells();
    HunksSpell();
    PairSpells(KindField(), KindByte, Hunks(), HunksBytes);
    PairSpells(Clipped(), ShortRun, Pair(KindField(), Hunks()), Both(KindByte, HunksBytes));
    ViaSpells(ConflictParts(), Both(ShortRun, Both(KindByte, HunksBytes)), ConflictDown, ConflictUp, ConflictBytes);
    hide ConflictBytes, ConflictItem;
    WindowSpells(ConflictItem(), ConflictCost, ConflictBytes, ConflictsBytes);
  }

  function ReportBytes(r: ConflictReport): seq<byte> {
    (IdBytes(r.head) + IdBytes(r.base))
    + (Flag(r.markers)
      + ((ConflictsBytes(r.conflicts) + (DecisionsBytes(r.lww) + TextsBytes(r.written))) + Flag(r.truncated)))
  }

  lemma ReportSpells()
    ensures Spells(ReportField(), ReportBytes)
  {
    hide Spells, Pair, HeadField, Boolean, Conflicts, Lww, Lines, Flagged;
    hide IdBytes, Flag, ConflictsBytes, DecisionsBytes, TextsBytes;
    var x := Both(ConflictsBytes, Both(DecisionsBytes, TextsBytes));
    PlainFieldsSpell();
    ConflictsSpell();
    LwwSpells();
    LinesSpell();
    PairSpells(Lww(), DecisionsBytes, Lines(), TextsBytes);
    PairSpells(Conflicts(), ConflictsBytes, Pair(Lww(), Lines()), Both(DecisionsBytes, TextsBytes));
    FlaggedSpells(EntriesParts(), EntriesLost, x);
    PairSpells(HeadField(), IdBytes, HeadField(), IdBytes);
    PairSpells(Boolean(), Flag, FlaggedEntries(), Marked(x));
    PairSpells(Pair(HeadField(), HeadField()), Both(IdBytes, IdBytes), Pair(Boolean(), FlaggedEntries()),
      Both(Flag, Marked(x)));
    ViaSpells(ReportParts(), Both(Both(IdBytes, IdBytes), Both(Flag, Marked(x))), ReportDown, ReportUp, ReportBytes);
  }

  function MergedBytes(m: MergedCommit): seq<byte> {
    OutcomeBytes(m.outcome) + ((IdBytes(m.from) + IdBytes(m.head)) + DecisionsBytes(m.lww))
  }

  lemma MergedSpells()
    ensures Spells(MergedField(), MergedBytes)
  {
    hide Spells, Pair, OutcomeField, HeadField, Lww, OutcomeBytes, IdBytes, DecisionsBytes;
    PlainFieldsSpell();
    OutcomeSpells();
    LwwSpells();
    PairSpells(HeadField(), IdBytes, HeadField(), IdBytes);
    PairSpells(Pair(HeadField(), HeadField()), Both(IdBytes, IdBytes), Lww(), DecisionsBytes);
    PairSpells(OutcomeField(), OutcomeBytes, Pair(Pair(HeadField(), HeadField()), Lww()),
      Both(Both(IdBytes, IdBytes), DecisionsBytes));
    ViaSpells(MergedParts(), Both(OutcomeBytes, Both(Both(IdBytes, IdBytes), DecisionsBytes)), MergedDown, MergedUp,
      MergedBytes);
  }

  function DirtyBytes(d: DirtyReport): seq<byte> {
    (TokenBytes(d.token) + (Eight(d.inodes) + Eight(d.entries)))
    + (Flag(d.pendingMerge) + (TextsBytes(d.paths) + Flag(d.truncated)))
  }

  lemma DirtySpells()
    ensures Spells(DirtyField(), DirtyBytes)
  {
    hide Spells, Pair, TokenField, U64, Boolean, Lines, Flagged, TokenBytes, Eight, Flag, TextsBytes;
    PlainFieldsSpell();
    LinesSpell();
    var x, y := Both(TokenBytes, Both(Eight, Eight)), Both(Flag, Marked(TextsBytes));
    PairSpells(U64(), Eight, U64(), Eight);
    PairSpells(TokenField(), TokenBytes, Pair(U64(), U64()), Both(Eight, Eight));
    FlaggedSpells(Lines(), LinesLost, TextsBytes);
    PairSpells(Boolean(), Flag, FlaggedLines(), Marked(TextsBytes));
    PairSpells(DirtyHeader(), x, Pair(Boolean(), FlaggedLines()), y);
    ViaSpells(DirtyParts(), Both(x, y), DirtyDown, DirtyUp, DirtyBytes);
  }
}
