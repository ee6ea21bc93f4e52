/**
  History values in control records: tokens, heads, cursors, bindings, Commit
  records and outcomes. All are inverse both ways except Commit metadata, which
  leaves out `.lww` decisions, with a flag that says so, and units, without one.
*/
module HistoryRecords {
  import opened Wrappers
  import opened Bytes
  import opened Wire
  import opened Codec
  import opened MergeTypes
  import Utf8

  const HISTORY_WINDOW := 32
  const MAXIMUM_MESSAGE_BYTES := 4096
  const CURSOR_BYTES := 160

  // Identities: fixed widths, told apart by their first byte

  type Id = seq<byte>

  predicate Tagged(id: Id, tag: byte) { id != [] && id[0] == tag }
  predicate NonZero(id: Id) { exists k :: 0 <= k < |id| && id[k] != 0 }
  predicate AnyBytes(id: Id) { true }

  function BranchIdField(): Codec<Id> { Fixed(17, id => Tagged(id, 0x11)) }
  function CommitIdField(): Codec<Id> { Fixed(33, id => Tagged(id, 0x12)) }
  function StackIdField(): Codec<Id> { Fixed(17, id => Tagged(id, 0x31)) }
  function LayerIdField(): Codec<Id> { Fixed(33, id => Tagged(id, 0x32)) }
  function NodeIdField(): Codec<Id> { Fixed(33, id => Tagged(id, 0x12) || Tagged(id, 0x32)) }
  function WorkspaceIdField(): Codec<Id> { Fixed(32, NonZero) }
  function ObjectIdField(): Codec<Id> { Fixed(32, AnyBytes) }

  lemma IdsFaithful()
    ensures Faithful(BranchIdField()) && Faithful(CommitIdField()) && Faithful(StackIdField())
    ensures Faithful(LayerIdField()) && Faithful(NodeIdField())
    ensures Faithful(WorkspaceIdField()) && Faithful(ObjectIdField())
  {
    hide Lawful, Exact, Fixed;
    FixedLaw(17, id => Tagged(id, 0x11));
    FixedLaw(33, id => Tagged(id, 0x12));
    FixedLaw(17, id => Tagged(id, 0x31));
    FixedLaw(33, id => Tagged(id, 0x32));
    FixedLaw(33, id => Tagged(id, 0x12) || Tagged(id, 0x32));
    FixedLaw(32, NonZero);
    FixedLaw(32, AnyBytes);
  }

  predicate Alphanumeric(b: byte) { 97 <= b <= 122 || 48 <= b <= 57 }

  /** A history name: lower-case letters, digits, '.', '_' and '-', with an alphanumeric at each end. */
  predicate IsName(s: seq<byte>) {
    && 0 < |s| <= 63
    && Alphanumeric(s[0]) && Alphanumeric(s[|s| - 1])
    && forall k :: 0 <= k < |s| ==> Alphanumeric(s[k]) || s[k] in {46, 95, 45}
  }

  predicate NameText(s: seq<byte>) { Utf8.Valid(s) && IsName(s) }

  function HistoryNameField(): Codec<seq<byte>> { Run(2, 63, NameText) }

  lemma HistoryNameFaithful()
    ensures Faithful(HistoryNameField())
  {
    RunLaw(2, 63, NameText);
  }

  // Numbers

  /** Two's complement: the high half of the u64s and the negative i64s change places. */
  function Twist(n: int): int {
    if 0x8000_0000_0000_0000 <= n < 0x1_0000_0000_0000_0000 then n - 0x1_0000_0000_0000_0000
    else if -0x8000_0000_0000_0000 <= n < 0 then n + 0x1_0000_0000_0000_0000
    else n
  }

  function I64(): Codec<int> { Via(Unsigned(8), Twist, Twist) }
  function U64(): Codec<int> { Unsigned(8) }
  function U32(): Codec<int> { Unsigned(4) }
  function U16(): Codec<int> { Unsigned(2) }

  lemma NumbersFaithful()
    ensures Faithful(I64()) && Faithful(U64()) && Faithful(U32()) && Faithful(U16())
  {
    UnsignedLaw(8);
    UnsignedLaw(4);
    UnsignedLaw(2);
    ViaFaithful(Unsigned(8), Twist, Twist);
  }

  // Token

  datatype WorkspaceToken = WorkspaceToken(workspace: Id, namespace: int)

  predicate Positive(n: int) { n > 0 }
  function NamespaceField(): Codec<int> { Checked(I64(), Positive) }
  function TokenDown(t: WorkspaceToken): (Id, int) { (t.workspace, t.namespace) }
  function TokenUp(p: (Id, int)): WorkspaceToken { WorkspaceToken(p.0, p.1) }
  function TokenField(): Codec<WorkspaceToken> { Via(Pair(WorkspaceIdField(), NamespaceField()), TokenDown, TokenUp) }

  lemma TokenFaithful()
    ensures Faithful(TokenField())
  {
    hide Lawful, Pair, Via, WorkspaceIdField;
    IdsFaithful();
    NumbersFaithful();
    CheckedLaw(I64(), Positive);
    PairFaithful(WorkspaceIdField(), NamespaceField());
    ViaFaithful(Pair(WorkspaceIdField(), NamespaceField()), TokenDown, TokenUp);
  }

  // Head, node, cursor

  function HeadField(): Codec<Option<Id>> { Optional(CommitIdField()) }
  function NodeField(): Codec<Option<Id>> { Optional(NodeIdField()) }

  predicate CursorWidth(s: seq<byte>) { |s| == CURSOR_BYTES }
  function CursorField(): Codec<Option<seq<byte>>> { Optional(Checked(Run(2, CURSOR_BYTES, AnyBytes), CursorWidth)) }

  lemma HeadFaithful()
    ensures Faithful(HeadField()) && Faithful(NodeField())
  {
    hide Lawful, Exact, CommitIdField, NodeIdField, Optional;
    IdsFaithful();
    OptionalFaithful(CommitIdField());
    OptionalFaithful(NodeIdField());
  }

  lemma CursorFaithful()
    ensures Faithful(CursorField())
  {
    hide Lawful, Run, Optional;
    RunLaw(2, CURSOR_BYTES, AnyBytes);
    CheckedLaw(Run(2, CURSOR_BYTES, AnyBytes), CursorWidth);
    OptionalFaithful(Checked(Run(2, CURSOR_BYTES, AnyBytes), CursorWidth));
  }

  // Branch and binding

  datatype BranchRecord = BranchRecord(
    id: Id, stack: Id, name: seq<byte>, baseLayer: Id, headCommit: Option<Id>, forkedFrom: Option<Id>)

  type BranchFields = ((Id, Id), ((seq<byte>, Id), (Option<Id>, Option<Id>)))

  function BranchDown(b: BranchRecord): BranchFields {
    ((b.id, b.stack), ((b.name, b.baseLayer), (b.headCommit, b.forkedFrom)))
  }
  function BranchUp(f: BranchFields): BranchRecord { BranchRecord(f.0.0, f.0.1, f.1.0.0, f.1.0.1, f.1.1.0, f.1.1.1) }
  function BranchParts(): Codec<BranchFields> {
    Pair(Pair(BranchIdField(), StackIdField()),
      Pair(Pair(HistoryNameField(), LayerIdField()), Pair(HeadField(), NodeField())))
  }
  function BranchField(): Codec<BranchRecord> { Via(BranchParts(), BranchDown, BranchUp) }

  lemma BranchFaithful()
    ensures Faithful(BranchField())
  {
    hide Faithful, Pair, BranchIdField, StackIdField, HistoryNameField, LayerIdField, HeadField, NodeField;
    IdsFaithful();
    HistoryNameFaithful();
    HeadFaithful();
    PairFaithful(BranchIdField(), StackIdField());
    PairFaithful(HistoryNameField(), LayerIdField());
    PairFaithful(HeadField(), NodeField());
    PairFaithful(Pair(HistoryNameField(), LayerIdField()), Pair(HeadField(), NodeField()));
    PairFaithful(Pair(BranchIdField(), StackIdField()),
      Pair(Pair(HistoryNameField(), LayerIdField()), Pair(HeadField(), NodeField())));
    ViaFaithful(BranchParts(), BranchDown, BranchUp);
  }

  datatype BranchSnapshot = BranchSnapshot(
    branch: BranchRecord, headRoot: Option<Id>, baseRoot: Id, effectiveRoot: Id, scope: Id, profile: Id)

  type BindingFields = ((BranchRecord, Option<Id>), ((Id, Id), (Id, Id)))

  function BindingDown(b: BranchSnapshot): BindingFields {
    ((b.branch, b.headRoot), ((b.baseRoot, b.effectiveRoot), (b.scope, b.profile)))
  }
  function BindingUp(f: BindingFields): BranchSnapshot {
    BranchSnapshot(f.0.0, f.0.1, f.1.0.0, f.1.0.1, f.1.1.0, f.1.1.1)
  }
  function BindingParts(): Codec<BindingFields> {
    Pair(Pair(BranchField(), Optional(ObjectIdField())),
      Pair(Pair(ObjectIdField(), ObjectIdField()), Pair(ObjectIdField(), ObjectIdField())))
  }
  function BindingField(): Codec<BranchSnapshot> { Via(BindingParts(), BindingDown, BindingUp) }

  lemma BindingFaithful()
    ensures Faithful(BindingField())
  {
    hide Faithful, Pair, Optional, BranchField, ObjectIdField;
    IdsFaithful();
    BranchFaithful();
    OptionalFaithful(ObjectIdField());
    PairFaithful(BranchField(), Optional(ObjectIdField()));
    PairFaithful(ObjectIdField(), ObjectIdField());
    PairFaithful(Pair(ObjectIdField(), ObjectIdField()), Pair(ObjectIdField(), ObjectIdField()));
    PairFaithful(Pair(BranchField(), Optional(ObjectIdField())),
      Pair(Pair(ObjectIdField(), ObjectIdField()), Pair(ObjectIdField(), ObjectIdField())));
    ViaFaithful(BindingParts(), BindingDown, BindingUp);
  }

  // Commit metadata

  datatype CommitVia = Workspace | Files | Merge

  function ViaCode(v: CommitVia): int { match v case Workspace => 1 case Files => 2 case Merge => 3 }
  function ViaOf(n: int): Option<CommitVia> {
    match n case 1 => Some(Workspace) case 2 => Some(Files) case 3 => Some(Merge) case _ => None
  }
  function ViaField(): Codec<CommitVia> { Coded(ViaCode, ViaOf) }

  datatype Statistics = Statistics(logical: int, newCanonical: int, newStored: int, newMetadata: int)

  datatype CommitMeta = CommitMeta(
    branch: Option<Id>,
    via: CommitVia,
    message: Option<seq<byte>>,
    mergedFrom: Option<Id>,
    timeMs: int,
    statistics: Statistics,
    displaced: Option<Id>,
    lww: seq<LwwDecision>,
    lwwTruncated: bool,
    units: seq<UnitReport>)

  type StatFields = ((int, int), (int, int))

  function StatDown(s: Statistics): StatFields { ((s.logical, s.newCanonical), (s.newStored, s.newMetadata)) }
  function StatUp(f: StatFields): Statistics { Statistics(f.0.0, f.0.1, f.1.0, f.1.1) }
  function StatField(): Codec<Statistics> { Via(Pair(Pair(U64(), U64()), Pair(U64(), U64())), StatDown, StatUp) }

  lemma StatFaithful()
    ensures Faithful(StatField())
  {
    hide Faithful, Pair, U64;
    NumbersFaithful();
    PairFaithful(U64(), U64());
    PairFaithful(Pair(U64(), U64()), Pair(U64(), U64()));
    ViaFaithful(Pair(Pair(U64(), U64()), Pair(U64(), U64())), StatDown, StatUp);
  }

  function MessageField(): Codec<Option<seq<byte>>> { Optional(TextField(MAXIMUM_MESSAGE_BYTES)) }

  lemma MessageFaithful()
    ensures Faithful(MessageField())
  {
    TextFieldLaw(MAXIMUM_MESSAGE_BYTES);
    OptionalFaithful(TextField(MAXIMUM_MESSAGE_BYTES));
  }

  type MetaFields = (((Option<Id>, CommitVia), (Option<seq<byte>>, Option<Id>)),
    ((int, Statistics), (Option<Id>, bool)))

  /** The decisions and units stay in the Store; the flag says that decisions were left out. */
  function MetaDown(m: CommitMeta): MetaFields {
    (((m.branch, m.via), (m.message, m.mergedFrom)),
      ((m.timeMs, m.statistics), (m.displaced, m.lwwTruncated || m.lww != [])))
  }
  function MetaUp(f: MetaFields): CommitMeta {
    CommitMeta(f.0.0.0, f.0.0.1, f.0.1.0, f.0.1.1, f.1.0.0, f.1.0.1, f.1.1.0, [], f.1.1.1, [])
  }
  function MetaParts(): Codec<MetaFields> {
    Pair(
      Pair(Pair(Optional(BranchIdField()), ViaField()), Pair(MessageField(), NodeField())),
      Pair(Pair(I64(), StatField()), Pair(HeadField(), Boolean())))
  }
  function MetaField(): Codec<CommitMeta> { Via(MetaParts(), MetaDown, MetaUp) }

  lemma ViaCodeFaithful()
    ensures Faithful(ViaField())
  {
    CodedLaw(ViaCode, ViaOf);
  }

  lemma MetaPartsFaithful()
    ensures Faithful(MetaParts())
  {
    hide Faithful, Pair, Optional, BranchIdField, ViaField, MessageField, NodeField, I64, StatField, HeadField, Boolean;
    IdsFaithful();
    NumbersFaithful();
    ViaCodeFaithful();
    MessageFaithful();
    StatFaithful();
    HeadFaithful();
    BooleanFaithful();
    OptionalFaithful(BranchIdField());
    PairFaithful(Optional(BranchIdField()), ViaField());
    PairFaithful(MessageField(), NodeField());
    PairFaithful(I64(), StatField());
    PairFaithful(HeadField(), Boolean());
    PairFaithful(Pair(Optional(BranchIdField()), ViaField()), Pair(MessageField(), NodeField()));
    PairFaithful(Pair(I64(), StatField()), Pair(HeadField(), Boolean()));
    PairFaithful(
      Pair(Pair(Optional(BranchIdField()), ViaField()), Pair(MessageField(), NodeField())),
      Pair(Pair(I64(), StatField()), Pair(HeadField(), Boolean())));
  }

  /** The metadata without decisions and units; the flag says whether decisions are missing. */
  function MetaPlain(m: CommitMeta): CommitMeta {
    m.(lww := [], units := [], lwwTruncated := m.lwwTruncated || m.lww != [])
  }
  predicate MetaSent(m: CommitMeta, n: CommitMeta) { n == MetaPlain(m) }

  /** The metadata that arrives is the plain one. */
  lemma MetaLaw()
    ensures Lawful(MetaField()) && Becomes(MetaField(), MetaSent)
  {
    hide Pair, Lawful, Exact, MetaParts;
    MetaPartsFaithful();
    ViaLaw(MetaParts(), MetaDown, MetaUp);
    FaithfulBecomes(MetaParts(), Equal);
    ViaBecomes(MetaParts(), MetaDown, MetaUp, Equal, MetaSent);
  }

  // Commit record and outcome

  datatype CommitRecord = CommitRecord(
    id: Id, stack: Id, root: Id, parent: Option<Id>, baseLayer: Id, secondParent: Option<Id>, meta: CommitMeta)

  type CommitFields = ((Id, (Id, Id)), ((Option<Id>, Id), (Option<Id>, CommitMeta)))

  function CommitDown(c: CommitRecord): CommitFields {
    ((c.id, (c.stack, c.root)), ((c.parent, c.baseLayer), (c.secondParent, c.meta)))
  }
  function CommitUp(f: CommitFields): CommitRecord {
    CommitRecord(f.0.0, f.0.1.0, f.0.1.1, f.1.0.0, f.1.0.1, f.1.1.0, f.1.1.1)
  }
  function CommitParts(): Codec<CommitFields> {
    Pair(
      Pair(CommitIdField(), Pair(StackIdField(), ObjectIdField())),
      Pair(Pair(HeadField(), LayerIdField()), Pair(NodeField(), MetaField())))
  }
  function CommitField(): Codec<CommitRecord> { Via(CommitParts(), CommitDown, CommitUp) }

  lemma CommitLaw()
    ensures Lawful(CommitField())
  {
    hide Lawful, Exact, Becomes, Pair, CommitIdField, StackIdField, ObjectIdField, HeadField, LayerIdField;
    hide NodeField, MetaField;
    IdsFaithful();
    HeadFaithful();
    MetaLaw();
    PairLaw(StackIdField(), ObjectIdField());
    PairLaw(CommitIdField(), Pair(StackIdField(), ObjectIdField()));
    PairLaw(HeadField(), LayerIdField());
    PairLaw(NodeField(), MetaField());
    PairLaw(Pair(HeadField(), LayerIdField()), Pair(NodeField(), MetaField()));
    PairLaw(Pair(CommitIdField(), Pair(StackIdField(), ObjectIdField())),
      Pair(Pair(HeadField(), LayerIdField()), Pair(NodeField(), MetaField())));
    ViaLaw(CommitParts(), CommitDown, CommitUp);
  }

  function CommitPlain(c: CommitRecord): CommitRecord { c.(meta := MetaPlain(c.meta)) }
  predicate CommitSent(c: CommitRecord, d: CommitRecord) { d == CommitPlain(c) }
  predicate CommitEnds(f: (Option<Id>, CommitMeta), g: (Option<Id>, CommitMeta)) { g.0 == f.0 && MetaSent(f.1, g.1) }
  predicate CommitRest(f: ((Option<Id>, Id), (Option<Id>, CommitMeta)),
      g: ((Option<Id>, Id), (Option<Id>, CommitMeta))) {
    g.0 == f.0 && CommitEnds(f.1, g.1)
  }
  predicate CommitWhole(f: CommitFields, g: CommitFields) { g.0 == f.0 && CommitRest(f.1, g.1) }

  lemma CommitBecomes()
    ensures Becomes(CommitField(), CommitSent)
  {
    hide Faithful, Lawful, Becomes, Pair, CommitIdField, StackIdField, ObjectIdField, HeadField, LayerIdField;
    hide NodeField, MetaField;
    var ids, mid, ends := Pair(CommitIdField(), Pair(StackIdField(), ObjectIdField())),
      Pair(HeadField(), LayerIdField()), Pair(NodeField(), MetaField());
    IdsFaithful();
    HeadFaithful();
    MetaLaw();
    PairFaithful(StackIdField(), ObjectIdField());
    PairFaithful(CommitIdField(), Pair(StackIdField(), ObjectIdField()));
    PairFaithful(HeadField(), LayerIdField());
    FaithfulBecomes(NodeField(), Equal);
    PairBecomes(NodeField(), MetaField(), Equal, MetaSent, CommitEnds);
    FaithfulBecomes(mid, Equal);
    PairBecomes(mid, ends, Equal, CommitEnds, CommitRest);
    FaithfulBecomes(ids, Equal);
    PairBecomes(ids, Pair(mid, ends), Equal, CommitRest, CommitWhole);
    ViaBecomes(CommitParts(), CommitDown, CommitUp, CommitWhole, CommitSent);
  }

  datatype CommitOutcome =
    | Committed(record: CommitRecord, displaced: Option<Id>)
    | UpToDate(head: Option<Id>, root: Id)

  function OutcomeTag(o: CommitOutcome): int { if o.Committed? then 1 else 2 }
  function MakeCommitted(p: (CommitRecord, Option<Id>)): CommitOutcome { Committed(p.0, p.1) }
  function OpenCommitted(o: CommitOutcome): Option<(CommitRecord, Option<Id>)> {
    if o.Committed? then Some((o.record, o.displaced)) else None
  }
  function MakeUpToDate(p: (Option<Id>, Id)): CommitOutcome { UpToDate(p.0, p.1) }
  function OpenUpToDate(o: CommitOutcome): Option<(Option<Id>, Id)> {
    if o.UpToDate? then Some((o.head, o.root)) else None
  }
  function OutcomeForm(n: int): Codec<CommitOutcome> {
    match n
    case 1 => Form(Pair(CommitField(), HeadField()), MakeCommitted, OpenCommitted)
    case 2 => Form(Pair(HeadField(), ObjectIdField()), MakeUpToDate, OpenUpToDate)
    case _ => Refused()
  }
  function OutcomeField(): Codec<CommitOutcome> { Choice(OutcomeTag, OutcomeForm) }

  lemma OutcomeLaw()
    ensures Lawful(OutcomeField())
  {
    hide Lawful, Exact, Pair, CommitField, HeadField, ObjectIdField;
    IdsFaithful();
    HeadFaithful();
    CommitLaw();
    PairLaw(CommitField(), HeadField());
    PairLaw(HeadField(), ObjectIdField());
    FormLaw(Pair(CommitField(), HeadField()), MakeCommitted, OpenCommitted);
    FormLaw(Pair(HeadField(), ObjectIdField()), MakeUpToDate, OpenUpToDate);
    RefusedFaithful<CommitOutcome>();
    ChoiceLaw(OutcomeTag, OutcomeForm);
  }

  function OutcomePlain(o: CommitOutcome): CommitOutcome {
    if o.Committed? then o.(record := CommitPlain(o.record)) else o
  }
  predicate OutcomeSent(o: CommitOutcome, p: CommitOutcome) { p == OutcomePlain(o) }
  predicate CommittedSent(f: (CommitRecord, Option<Id>), g: (CommitRecord, Option<Id>)) {
    CommitSent(f.0, g.0) && g.1 == f.1
  }

  lemma OutcomeBecomes()
    ensures Becomes(OutcomeField(), OutcomeSent)
  {
    hide Faithful, Lawful, Becomes, Pair, CommitField, HeadField, ObjectIdField, CommitPlain;
    IdsFaithful();
    HeadFaithful();
    CommitBecomes();
    FaithfulBecomes(HeadField(), Equal);
    PairBecomes(CommitField(), HeadField(), CommitSent, Equal, CommittedSent);
    FormBecomes(Pair(CommitField(), HeadField()), MakeCommitted, OpenCommitted, CommittedSent, OutcomeSent);
    PairFaithful(HeadField(), ObjectIdField());
    FaithfulBecomes(Pair(HeadField(), ObjectIdField()), Equal);
    FormBecomes(Pair(HeadField(), ObjectIdField()), MakeUpToDate, OpenUpToDate, Equal, OutcomeSent);
    RefusedBecomes(OutcomeSent);
    ChoiceBecomes(OutcomeTag, OutcomeForm, OutcomeSent);
  }

  function PublicationField(): Codec<Option<CommitOutcome>> { Optional(OutcomeField()) }

  lemma PublicationLaw()
    ensures Lawful(PublicationField())
  {
    OutcomeLaw();
    OptionalLaw(OutcomeField());
  }

  predicate PublicationSent(p: Option<CommitOutcome>, q: Option<CommitOutcome>) {
    OptionR(OutcomeSent, p, q)
  }

  lemma PublicationBecomes()
    ensures Becomes(PublicationField(), PublicationSent)
  {
    OutcomeBecomes();
    OptionalBecomes(OutcomeField(), OutcomeSent);
  }

  // Moved Branch state

  datatype MovedState = MovedState(expectedHead: Option<Id>, actualHead: Option<Id>, expectedBase: Id, actualBase: Id)

  type MovedFields = ((Option<Id>, Option<Id>), (Id, Id))

  function MovedDown(m: MovedState): MovedFields { ((m.expectedHead, m.actualHead), (m.expectedBase, m.actualBase)) }
  function MovedUp(f: MovedFields): MovedState { MovedState(f.0.0, f.0.1, f.1.0, f.1.1) }
  function MovedField(): Codec<MovedState> {
    Via(Pair(Pair(HeadField(), HeadField()), Pair(LayerIdField(), LayerIdField())), MovedDown, MovedUp)
  }

  lemma MovedFaithful()
    ensures Faithful(MovedField())
  {
    hide Faithful, Pair, HeadField, LayerIdField;
    IdsFaithful();
    HeadFaithful();
    PairFaithful(HeadField(), HeadField());
    PairFaithful(LayerIdField(), LayerIdField());
    PairFaithful(Pair(HeadField(), HeadField()), Pair(LayerIdField(), LayerIdField()));
    ViaFaithful(Pair(Pair(HeadField(), HeadField()), Pair(LayerIdField(), LayerIdField())), MovedDown, MovedUp);
  }
}
