/** Mount, teardown, daemon and status records: what the replies are made of. */
module ControlRecords {
  import opened Wrappers
  import opened Bytes
  import opened Codec
  import opened HistoryRecords

  /** The correlation number, which both sides refuse when zero. */
  function CorrelationField(): Codec<int> { Checked(U64(), Positive) }

  lemma CorrelationFaithful()
    ensures Faithful(CorrelationField())
  {
    NumbersFaithful();
    CheckedFaithful(U64(), Positive);
  }

  // Ready receipt

  datatype MountReceipt = MountReceipt(
    mount: int, root: int, mountId: int,
    deviceMajor: int, deviceMinor: int, abiMajor: int, abiMinor: int,
    offered: int, selected: int,
    maxWrite: int, maxReadahead: int, maxBackground: int, congestionThreshold: int,
    pageSize: int, loops: int, abortBound: bool)

  type ReceiptLow = ((int, (int, int)), ((int, int), (int, int)))
  type ReceiptHigh = (((int, int), (int, int)), ((int, int), (int, (int, bool))))

  function ReceiptDown(r: MountReceipt): (ReceiptLow, ReceiptHigh) {
    (((r.mount, (r.root, r.mountId)), ((r.deviceMajor, r.deviceMinor), (r.abiMajor, r.abiMinor))),
     (((r.offered, r.selected), (r.maxWrite, r.maxReadahead)),
      ((r.maxBackground, r.congestionThreshold), (r.pageSize, (r.loops, r.abortBound)))))
  }
  function ReceiptUp(f: (ReceiptLow, ReceiptHigh)): MountReceipt {
    var (low, high) := f;
    MountReceipt(
      low.0.0, low.0.1.0, low.0.1.1, low.1.0.0, low.1.0.1, low.1.1.0, low.1.1.1,
      high.0.0.0, high.0.0.1, high.0.1.0, high.0.1.1,
      high.1.0.0, high.1.0.1, high.1.1.0, high.1.1.1.0, high.1.1.1.1)
  }
  function ReceiptLowParts(): Codec<ReceiptLow> {
    Pair(Pair(U64(), Pair(U64(), U64())), Pair(Pair(U32(), U32()), Pair(U32(), U32())))
  }
  function ReceiptHighParts(): Codec<ReceiptHigh> {
    Pair(Pair(Pair(U64(), U64()), Pair(U32(), U32())), Pair(Pair(U16(), U16()), Pair(U32(), Pair(U16(), Boolean()))))
  }
  function ReceiptField(): Codec<MountReceipt> {
    Via(Pair(ReceiptLowParts(), ReceiptHighParts()), ReceiptDown, ReceiptUp)
  }

  lemma ReceiptLowFaithful()
    ensures Faithful(ReceiptLowParts())
  {
    hide Faithful, Pair, U64, U32;
    NumbersFaithful();
    PairFaithful(U64(), U64());
    PairFaithful(U64(), Pair(U64(), U64()));
    PairFaithful(U32(), U32());
    PairFaithful(Pair(U32(), U32()), Pair(U32(), U32()));
    PairFaithful(Pair(U64(), Pair(U64(), U64())), Pair(Pair(U32(), U32()), Pair(U32(), U32())));
  }

  lemma ReceiptHighFaithful()
    ensures Faithful(ReceiptHighParts())
  {
    hide Faithful, Pair, U64, U32, U16, Boolean;
    NumbersFaithful();
    BooleanFaithful();
    PairFaithful(U64(), U64());
    PairFaithful(U32(), U32());
    PairFaithful(U16(), U16());
    PairFaithful(U16(), Boolean());
    PairFaithful(U32(), Pair(U16(), Boolean()));
    PairFaithful(Pair(U64(), U64()), Pair(U32(), U32()));
    PairFaithful(Pair(U16(), U16()), Pair(U32(), Pair(U16(), Boolean())));
    PairFaithful(Pair(Pair(U64(), U64()), Pair(U32(), U32())),
      Pair(Pair(U16(), U16()), Pair(U32(), Pair(U16(), Boolean()))));
  }

  lemma ReceiptFaithful()
    ensures Faithful(ReceiptField())
  {
    hide Faithful, Pair, ReceiptLowParts, ReceiptHighParts;
    ReceiptLowFaithful();
    ReceiptHighFaithful();
    PairFaithful(ReceiptLowParts(), ReceiptHighParts());
    ViaFaithful(Pair(ReceiptLowParts(), ReceiptHighParts()), ReceiptDown, ReceiptUp);
  }

  const MOUNT_DIRECTORY_LIMIT := 1024

  datatype ReadyMount = ReadyMount(token: WorkspaceToken, directory: seq<byte>, receipt: MountReceipt)

  type ReadyFields = (WorkspaceToken, (seq<byte>, MountReceipt))

  function ReadyDown(r: ReadyMount): ReadyFields { (r.token, (r.directory, r.receipt)) }
  function ReadyUp(f: ReadyFields): ReadyMount { ReadyMount(f.0, f.1.0, f.1.1) }
  predicate ReadyFacts(r: ReadyMount) { r.directory != [] && r.receipt.mount != 0 && r.receipt.root != 0 }
  function ReadyParts(): Codec<ReadyFields> {
    Pair(TokenField(), Pair(TextField(MOUNT_DIRECTORY_LIMIT), ReceiptField()))
  }
  function ReadyField(): Codec<ReadyMount> { Checked(Via(ReadyParts(), ReadyDown, ReadyUp), ReadyFacts) }

  lemma ReadyFaithful()
    ensures Faithful(ReadyField())
  {
    hide Lawful, Exact, Pair, TokenField, TextField, ReceiptField, Via, Checked;
    TokenFaithful();
    TextFieldLaw(MOUNT_DIRECTORY_LIMIT);
    ReceiptFaithful();
    PairFaithful(TextField(MOUNT_DIRECTORY_LIMIT), ReceiptField());
    PairFaithful(TokenField(), Pair(TextField(MOUNT_DIRECTORY_LIMIT), ReceiptField()));
    ViaFaithful(ReadyParts(), ReadyDown, ReadyUp);
    CheckedFaithful(Via(ReadyParts(), ReadyDown, ReadyUp), ReadyFacts);
  }

  // Work counters

  datatype MountWork = MountWork(
    loopsConfigured: int, loopsEntered: int, loopsExited: int, loopsJoined: int,
    active: int, retained: int,
    completed: int, served: int, inline: int, refused: int, terminal: int, forgetUnits: int)

  type WorkFields = ((((int, int), (int, int)), (int, int)), (((int, int), (int, int)), (int, int)))

  function WorkDown(w: MountWork): WorkFields {
    ((((w.loopsConfigured, w.loopsEntered), (w.loopsExited, w.loopsJoined)), (w.active, w.retained)),
     (((w.completed, w.served), (w.inline, w.refused)), (w.terminal, w.forgetUnits)))
  }
  function WorkUp(f: WorkFields): MountWork {
    MountWork(f.0.0.0.0, f.0.0.0.1, f.0.0.1.0, f.0.0.1.1, f.0.1.0, f.0.1.1,
              f.1.0.0.0, f.1.0.0.1, f.1.0.1.0, f.1.0.1.1, f.1.1.0, f.1.1.1)
  }
  function WorkParts(): Codec<WorkFields> {
    Pair(Pair(Pair(Pair(U16(), U16()), Pair(U16(), U16())), Pair(U32(), U32())),
         Pair(Pair(Pair(U64(), U64()), Pair(U64(), U64())), Pair(U64(), U64())))
  }
  function WorkField(): Codec<MountWork> { Via(WorkParts(), WorkDown, WorkUp) }

  lemma WorkFaithful()
    ensures Faithful(WorkField())
  {
    hide Faithful, Pair, U64, U32, U16;
    var a, b, c := Pair(U16(), U16()), Pair(U32(), U32()), Pair(U64(), U64());
    NumbersFaithful();
    PairFaithful(U16(), U16());
    PairFaithful(U32(), U32());
    PairFaithful(U64(), U64());
    PairFaithful(a, a);
    PairFaithful(Pair(a, a), b);
    PairFaithful(c, c);
    PairFaithful(Pair(c, c), c);
    PairFaithful(Pair(Pair(a, a), b), Pair(Pair(c, c), c));
    ViaFaithful(WorkParts(), WorkDown, WorkUp);
  }

  function OptionalWork(): Codec<Option<MountWork>> { Optional(WorkField()) }

  lemma OptionalWorkFaithful()
    ensures Faithful(OptionalWork())
  {
    WorkFaithful();
    OptionalFaithful(WorkField());
  }

  // Mount status

  datatype MountPhase = Unattached | Attaching | MountReady | Probing | Draining | MountRetained | Stopping

  function PhaseCode(p: MountPhase): int {
    match p
    case Unattached => 1 case Attaching => 2 case MountReady => 3 case Probing => 4
    case Draining => 5 case MountRetained => 6 case Stopping => 7
  }
  function PhaseOf(n: int): Option<MountPhase> {
    match n
    case 1 => Some(Unattached) case 2 => Some(Attaching) case 3 => Some(MountReady) case 4 => Some(Probing)
    case 5 => Some(Draining) case 6 => Some(MountRetained) case 7 => Some(Stopping)
    case _ => None
  }
  function PhaseField(): Codec<MountPhase> { Coded(PhaseCode, PhaseOf) }

  lemma PhaseFaithful()
    ensures Faithful(PhaseField())
  {
    CodedLaw(PhaseCode, PhaseOf);
  }

  datatype MountStatus = MountStatus(phase: MountPhase, ready: Option<ReadyMount>, detached: bool,
    work: Option<MountWork>)

  type MountFields = ((MountPhase, Option<ReadyMount>), (bool, Option<MountWork>))

  function MountDown(m: MountStatus): MountFields { ((m.phase, m.ready), (m.detached, m.work)) }
  function MountUp(f: MountFields): MountStatus { MountStatus(f.0.0, f.0.1, f.1.0, f.1.1) }
  function MountParts(): Codec<MountFields> {
    Pair(Pair(PhaseField(), Optional(ReadyField())), Pair(Boolean(), OptionalWork()))
  }
  function MountField(): Codec<MountStatus> { Via(MountParts(), MountDown, MountUp) }

  lemma MountFaithful()
    ensures Faithful(MountField())
  {
    hide Faithful, Pair, PhaseField, ReadyField, Optional, Boolean, OptionalWork;
    PhaseFaithful();
    ReadyFaithful();
    OptionalFaithful(ReadyField());
    BooleanFaithful();
    OptionalWorkFaithful();
    PairFaithful(PhaseField(), Optional(ReadyField()));
    PairFaithful(Boolean(), OptionalWork());
    PairFaithful(Pair(PhaseField(), Optional(ReadyField())), Pair(Boolean(), OptionalWork()));
    ViaFaithful(MountParts(), MountDown, MountUp);
  }

  // Teardown custody

  datatype TeardownStage = Detach | Join | Owner | Requests | Lane | Revoke | Close | Registry | Abort

  function StageCode(s: TeardownStage): int {
    match s
    case Detach => 1 case Join => 2 case Owner => 3 case Requests => 4 case Lane => 5
    case Revoke => 6 case Close => 7 case Registry => 8 case Abort => 9
  }
  function StageOf(n: int): Option<TeardownStage> {
    match n
    case 1 => Some(Detach) case 2 => Some(Join) case 3 => Some(Owner) case 4 => Some(Requests) case 5 => Some(Lane)
    case 6 => Some(Revoke) case 7 => Some(Close) case 8 => Some(Registry) case 9 => Some(Abort)
    case _ => None
  }
  function StageField(): Codec<TeardownStage> { Coded(StageCode, StageOf) }

  lemma StageFaithful()
    ensures Faithful(StageField())
  {
    CodedLaw(StageCode, StageOf);
  }

  /** The custody without forced facts. */
  datatype CustodyBody = CustodyBody(
    token: WorkspaceToken, stage: TeardownStage, detached: bool, work: Option<MountWork>, detail: seq<byte>)

  type CustodyFields = ((WorkspaceToken, TeardownStage), (bool, (Option<MountWork>, seq<byte>)))

  function CustodyDown(c: CustodyBody): CustodyFields { ((c.token, c.stage), (c.detached, (c.work, c.detail))) }
  function CustodyUp(f: CustodyFields): CustodyBody { CustodyBody(f.0.0, f.0.1, f.1.0, f.1.1.0, f.1.1.1) }
  function CustodyParts(): Codec<CustodyFields> {
    Pair(Pair(TokenField(), StageField()), Pair(Boolean(), Pair(OptionalWork(), TextField(2048))))
  }
  function CustodyField(): Codec<CustodyBody> { Via(CustodyParts(), CustodyDown, CustodyUp) }

  lemma CustodyFaithful()
    ensures Faithful(CustodyField())
  {
    hide Lawful, Exact, Pair, TokenField, StageField, Boolean, OptionalWork, TextField;
    TokenFaithful();
    StageFaithful();
    BooleanFaithful();
    OptionalWorkFaithful();
    TextFieldLaw(2048);
    PairFaithful(TokenField(), StageField());
    PairFaithful(OptionalWork(), TextField(2048));
    PairFaithful(Boolean(), Pair(OptionalWork(), TextField(2048)));
    PairFaithful(Pair(TokenField(), StageField()), Pair(Boolean(), Pair(OptionalWork(), TextField(2048))));
    ViaFaithful(CustodyParts(), CustodyDown, CustodyUp);
  }

  /** Only forced facts admit the Abort stage. */
  predicate Unforced(c: CustodyBody) { c.stage != Abort }
  function UnforcedField(): Codec<CustodyBody> { Checked(CustodyField(), Unforced) }

  lemma UnforcedFaithful()
    ensures Faithful(UnforcedField())
  {
    CustodyFaithful();
    CheckedFaithful(CustodyField(), Unforced);
  }

  // Forced teardown

  datatype AbortDisposition = AbortWritten | AbortShort | AbortFailed
  datatype DetachDisposition = NotAttempted | Detached | DetachBusy | DetachFailed
  datatype CommitKnowledge = Absent | Published(outcome: CommitOutcome) | CommitUnknown
  datatype ForcedCleanup = CleanupHeld | CleanupQueued | CleanupGone | Unobserved

  function AbortCode(a: AbortDisposition): int {
    match a case AbortWritten => 1 case AbortShort => 2 case AbortFailed => 3
  }
  function AbortOf(n: int): Option<AbortDisposition> {
    match n case 1 => Some(AbortWritten) case 2 => Some(AbortShort) case 3 => Some(AbortFailed) case _ => None
  }
  function DetachCode(d: DetachDisposition): int {
    match d case NotAttempted => 1 case Detached => 2 case DetachBusy => 3 case DetachFailed => 4
  }
  function DetachOf(n: int): Option<DetachDisposition> {
    match n case 1 => Some(NotAttempted) case 2 => Some(Detached) case 3 => Some(DetachBusy)
      case 4 => Some(DetachFailed) case _ => None
  }
  function CleanupCode(c: ForcedCleanup): int {
    match c case CleanupHeld => 1 case CleanupQueued => 2 case CleanupGone => 3 case Unobserved => 4
  }
  function CleanupOf(n: int): Option<ForcedCleanup> {
    match n case 1 => Some(CleanupHeld) case 2 => Some(CleanupQueued) case 3 => Some(CleanupGone)
      case 4 => Some(Unobserved) case _ => None
  }
  function AbortField(): Codec<AbortDisposition> { Coded(AbortCode, AbortOf) }
  function DetachField(): Codec<DetachDisposition> { Coded(DetachCode, DetachOf) }
  function CleanupField(): Codec<ForcedCleanup> { Coded(CleanupCode, CleanupOf) }

  lemma DispositionsFaithful()
    ensures Faithful(AbortField()) && Faithful(DetachField()) && Faithful(CleanupField())
  {
    CodedLaw(AbortCode, AbortOf);
    CodedLaw(DetachCode, DetachOf);
    CodedLaw(CleanupCode, CleanupOf);
  }

  function KnowledgeTag(k: CommitKnowledge): int {
    match k case Absent => 1 case Published(_) => 2 case CommitUnknown => 3
  }
  function MakePublished(o: CommitOutcome): CommitKnowledge { Published(o) }
  function OpenPublished(k: CommitKnowledge): Option<CommitOutcome> { if k.Published? then Some(k.outcome) else None }
  function KnowledgeForm(n: int): Codec<CommitKnowledge> {
    match n
    case 1 => Only(Absent)
    case 2 => Form(OutcomeField(), MakePublished, OpenPublished)
    case 3 => Only(CommitUnknown)
    case _ => Refused()
  }
  function KnowledgeField(): Codec<CommitKnowledge> { Choice(KnowledgeTag, KnowledgeForm) }
  predicate KnowledgeSent(k: CommitKnowledge, l: CommitKnowledge) {
    l == if k.Published? then Published(OutcomePlain(k.outcome)) else k
  }

  lemma KnowledgeLaw()
    ensures Lawful(KnowledgeField()) && Becomes(KnowledgeField(), KnowledgeSent)
  {
    hide Lawful, OutcomeField;
    OutcomeLaw();
    OutcomeBecomes();
    OnlyFaithful(Absent);
    OnlyFaithful(CommitUnknown);
    RefusedFaithful<CommitKnowledge>();
    FormLaw(OutcomeField(), MakePublished, OpenPublished);
    FormBecomes(OutcomeField(), MakePublished, OpenPublished, OutcomeSent, KnowledgeSent);
    ChoiceLaw(KnowledgeTag, KnowledgeForm);
    ChoiceBecomes(KnowledgeTag, KnowledgeForm, KnowledgeSent);
  }

  datatype ForcedFacts = ForcedFacts(abort: AbortDisposition, detach: DetachDisposition, commit: CommitKnowledge,
    fenced: int)

  type FactsFields = ((AbortDisposition, DetachDisposition), (CommitKnowledge, int))

  function FactsDown(f: ForcedFacts): FactsFields { ((f.abort, f.detach), (f.commit, f.fenced)) }
  function FactsUp(f: FactsFields): ForcedFacts { ForcedFacts(f.0.0, f.0.1, f.1.0, f.1.1) }
  function FactsParts(): Codec<FactsFields> { Pair(Pair(AbortField(), DetachField()), Pair(KnowledgeField(), U64())) }
  function FactsField(): Codec<ForcedFacts> { Via(FactsParts(), FactsDown, FactsUp) }

  predicate FactsEnds(f: (CommitKnowledge, int), g: (CommitKnowledge, int)) { KnowledgeSent(f.0, g.0) && g.1 == f.1 }
  predicate FactsWhole(f: FactsFields, g: FactsFields) { g.0 == f.0 && FactsEnds(f.1, g.1) }
  predicate FactsSent(f: ForcedFacts, g: ForcedFacts) {
    g == f.(commit := g.commit) && KnowledgeSent(f.commit, g.commit)
  }

  lemma FactsLaw()
    ensures Lawful(FactsField()) && Becomes(FactsField(), FactsSent)
  {
    hide Lawful, Exact, Becomes, Pair, AbortField, DetachField, KnowledgeField, U64, KnowledgeSent;
    DispositionsFaithful();
    NumbersFaithful();
    KnowledgeLaw();
    PairFaithful(AbortField(), DetachField());
    PairLaw(KnowledgeField(), U64());
    PairLaw(Pair(AbortField(), DetachField()), Pair(KnowledgeField(), U64()));
    ViaLaw(FactsParts(), FactsDown, FactsUp);
    FaithfulBecomes(U64(), Equal);
    FaithfulBecomes(Pair(AbortField(), DetachField()), Equal);
    PairBecomes(KnowledgeField(), U64(), KnowledgeSent, Equal, FactsEnds);
    PairBecomes(Pair(AbortField(), DetachField()), Pair(KnowledgeField(), U64()), Equal, FactsEnds, FactsWhole);
    ViaBecomes(FactsParts(), FactsDown, FactsUp, FactsWhole, FactsSent);
  }

  datatype ForceUnmounted = ForceUnmounted(token: WorkspaceToken, facts: ForcedFacts, work: MountWork,
    cleanup: ForcedCleanup)

  type ForcedFields = (WorkspaceToken, (ForcedFacts, (MountWork, ForcedCleanup)))

  function ForcedDown(f: ForceUnmounted): ForcedFields { (f.token, (f.facts, (f.work, f.cleanup))) }
  function ForcedUp(f: ForcedFields): ForceUnmounted { ForceUnmounted(f.0, f.1.0, f.1.1.0, f.1.1.1) }
  function ForcedParts(): Codec<ForcedFields> {
    Pair(TokenField(), Pair(FactsField(), Pair(WorkField(), CleanupField())))
  }
  function ForcedField(): Codec<ForceUnmounted> { Via(ForcedParts(), ForcedDown, ForcedUp) }

  predicate ForcedEnds(f: (ForcedFacts, (MountWork, ForcedCleanup)), g: (ForcedFacts, (MountWork, ForcedCleanup))) {
    FactsSent(f.0, g.0) && g.1 == f.1
  }
  predicate ForcedWhole(f: ForcedFields, g: ForcedFields) { g.0 == f.0 && ForcedEnds(f.1, g.1) }
  predicate ForcedSent(f: ForceUnmounted, g: ForceUnmounted) {
    g == f.(facts := g.facts) && FactsSent(f.facts, g.facts)
  }

  lemma ForcedLaw()
    ensures Lawful(ForcedField()) && Becomes(ForcedField(), ForcedSent)
  {
    hide Lawful, Exact, Becomes, Pair, TokenField, FactsField, WorkField, CleanupField, FactsSent;
    var tail := Pair(WorkField(), CleanupField());
    TokenFaithful();
    FactsLaw();
    WorkFaithful();
    DispositionsFaithful();
    PairFaithful(WorkField(), CleanupField());
    PairLaw(FactsField(), tail);
    PairLaw(TokenField(), Pair(FactsField(), tail));
    ViaLaw(ForcedParts(), ForcedDown, ForcedUp);
    FaithfulBecomes(tail, Equal);
    FaithfulBecomes(TokenField(), Equal);
    PairBecomes(FactsField(), tail, FactsSent, Equal, ForcedEnds);
    PairBecomes(TokenField(), Pair(FactsField(), tail), Equal, ForcedEnds, ForcedWhole);
    ViaBecomes(ForcedParts(), ForcedDown, ForcedUp, ForcedWhole, ForcedSent);
  }

  // Daemon startup

  /** Thirty-two bytes that both sides refuse when all are zero. */
  function NonZeroField(): Codec<Id> { Checked(Fixed(32, AnyBytes), NonZero) }

  lemma NonZeroFaithful()
    ensures Faithful(NonZeroField())
  {
    FixedLaw(32, AnyBytes);
    CheckedFaithful(Fixed(32, AnyBytes), NonZero);
  }

  datatype HelloRequest = HelloRequest(expectedInstance: Option<Id>, waitForStore: bool)

  function HelloDown(h: HelloRequest): (Option<Id>, bool) { (h.expectedInstance, h.waitForStore) }
  function HelloUp(f: (Option<Id>, bool)): HelloRequest { HelloRequest(f.0, f.1) }
  function HelloField(): Codec<HelloRequest> { Via(Pair(Optional(NonZeroField()), Boolean()), HelloDown, HelloUp) }

  lemma HelloFaithful()
    ensures Faithful(HelloField())
  {
    hide Faithful, Pair, Optional, NonZeroField, Boolean;
    NonZeroFaithful();
    BooleanFaithful();
    OptionalFaithful(NonZeroField());
    PairFaithful(Optional(NonZeroField()), Boolean());
    ViaFaithful(Pair(Optional(NonZeroField()), Boolean()), HelloDown, HelloUp);
  }

  datatype DaemonPhase = InstallPending | Installing | DaemonRetained | ControlReady

  function DaemonCode(p: DaemonPhase): int {
    match p case InstallPending => 1 case Installing => 2 case DaemonRetained => 3 case ControlReady => 4
  }
  function DaemonOf(n: int): Option<DaemonPhase> {
    match n case 1 => Some(InstallPending) case 2 => Some(Installing) case 3 => Some(DaemonRetained)
      case 4 => Some(ControlReady) case _ => None
  }
  function DaemonPhaseField(): Codec<DaemonPhase> { Coded(DaemonCode, DaemonOf) }

  lemma DaemonPhaseFaithful()
    ensures Faithful(DaemonPhaseField())
  {
    CodedLaw(DaemonCode, DaemonOf);
  }

  predicate Graphic(s: seq<byte>) { forall k :: 0 <= k < |s| ==> 33 <= s[k] <= 126 }

  /** An absent version is written as the empty text; a present one is never empty. */
  function MakeVersion(s: seq<byte>): Option<seq<byte>> { if s == [] then None else Some(s) }
  function OpenVersion(v: Option<seq<byte>>): Option<seq<byte>> {
    match v case None => Some([]) case Some(s) => if s == [] then None else Some(s)
  }
  function VersionField(): Codec<Option<seq<byte>>> { Form(Checked(TextField(64), Graphic), MakeVersion, OpenVersion) }

  lemma VersionFaithful()
    ensures Faithful(VersionField())
  {
    hide Lawful, Exact, TextField, Checked;
    TextFieldLaw(64);
    CheckedFaithful(TextField(64), Graphic);
    FormLaw(Checked(TextField(64), Graphic), MakeVersion, OpenVersion);
    FormExact(Checked(TextField(64), Graphic), MakeVersion, OpenVersion);
  }

  datatype DaemonStatus = DaemonStatus(
    instance: Id, phase: DaemonPhase, overlaySqlite: Option<seq<byte>>, storeSqlite: Option<seq<byte>>)

  type DaemonFields = ((Id, DaemonPhase), (Option<seq<byte>>, Option<seq<byte>>))

  function DaemonDown(d: DaemonStatus): DaemonFields { ((d.instance, d.phase), (d.overlaySqlite, d.storeSqlite)) }
  function DaemonUp(f: DaemonFields): DaemonStatus { DaemonStatus(f.0.0, f.0.1, f.1.0, f.1.1) }
  predicate DaemonFacts(d: DaemonStatus) { d.phase == ControlReady ==> d.overlaySqlite.Some? && d.storeSqlite.Some? }
  function DaemonParts(): Codec<DaemonFields> {
    Pair(Pair(NonZeroField(), DaemonPhaseField()), Pair(VersionField(), VersionField()))
  }
  function DaemonField(): Codec<DaemonStatus> { Checked(Via(DaemonParts(), DaemonDown, DaemonUp), DaemonFacts) }

  lemma DaemonFaithful()
    ensures Faithful(DaemonField())
  {
    hide Faithful, Pair, NonZeroField, DaemonPhaseField, VersionField, Via, Checked;
    NonZeroFaithful();
    DaemonPhaseFaithful();
    VersionFaithful();
    PairFaithful(NonZeroField(), DaemonPhaseField());
    PairFaithful(VersionField(), VersionField());
    PairFaithful(Pair(NonZeroField(), DaemonPhaseField()), Pair(VersionField(), VersionField()));
    ViaFaithful(DaemonParts(), DaemonDown, DaemonUp);
    CheckedFaithful(Via(DaemonParts(), DaemonDown, DaemonUp), DaemonFacts);
  }

  // Refusal

  datatype ControlCode = Busy | HeadMoved | Missing | Capacity | Invalid | Failed | Unknown

  function ControlCodeOf(n: int): Option<ControlCode> {
    match n
    case 1 => Some(Busy) case 2 => Some(HeadMoved) case 3 => Some(Missing) case 4 => Some(Capacity)
    case 5 => Some(Invalid) case 6 => Some(Failed) case 7 => Some(Unknown)
    case _ => None
  }
  function ControlCodeNumber(c: ControlCode): int {
    match c
    case Busy => 1 case HeadMoved => 2 case Missing => 3 case Capacity => 4 case Invalid => 5 case Failed => 6
      case Unknown => 7
  }
  function ControlCodeField(): Codec<ControlCode> { Coded(ControlCodeNumber, ControlCodeOf) }

  lemma ControlCodeFaithful()
    ensures Faithful(ControlCodeField())
  {
    CodedLaw(ControlCodeNumber, ControlCodeOf);
  }

  datatype ControlRefusal = ControlRefusal(
    code: ControlCode, phase: seq<byte>, moved: Option<MovedState>, published: Option<CommitOutcome>, detail: seq<byte>)

  type RefusalFields = ((ControlCode, (seq<byte>, Option<MovedState>)), (Option<CommitOutcome>, seq<byte>))

  function RefusalDown(r: ControlRefusal): RefusalFields { ((r.code, (r.phase, r.moved)), (r.published, r.detail)) }
  function RefusalUp(f: RefusalFields): ControlRefusal { ControlRefusal(f.0.0, f.0.1.0, f.0.1.1, f.1.0, f.1.1) }
  predicate RefusalFacts(r: ControlRefusal) { r.code == HeadMoved <==> r.moved.Some? }
  function RefusalHead(): Codec<(ControlCode, (seq<byte>, Option<MovedState>))> {
    Pair(ControlCodeField(), Pair(TextField(64), Optional(MovedField())))
  }
  function RefusalParts(): Codec<RefusalFields> { Pair(RefusalHead(), Pair(PublicationField(), TextField(2048))) }
  function RefusalRecord(): Codec<ControlRefusal> { Via(RefusalParts(), RefusalDown, RefusalUp) }
  function RefusalField(): Codec<ControlRefusal> { Checked(RefusalRecord(), RefusalFacts) }

  predicate RefusalEnds(f: (Option<CommitOutcome>, seq<byte>), g: (Option<CommitOutcome>, seq<byte>)) {
    PublicationSent(f.0, g.0) && g.1 == f.1
  }
  predicate RefusalWhole(f: RefusalFields, g: RefusalFields) { g.0 == f.0 && RefusalEnds(f.1, g.1) }
  predicate RefusalSent(r: ControlRefusal, s: ControlRefusal) {
    s == r.(published := s.published) && PublicationSent(r.published, s.published)
  }

  lemma RefusalHeadFaithful()
    ensures Faithful(RefusalHead())
  {
    hide Lawful, Exact, Pair, ControlCodeField, TextField, Optional, MovedField;
    ControlCodeFaithful();
    TextFieldLaw(64);
    MovedFaithful();
    OptionalFaithful(MovedField());
    PairFaithful(TextField(64), Optional(MovedField()));
    PairFaithful(ControlCodeField(), Pair(TextField(64), Optional(MovedField())));
  }

  lemma RefusalRecordLaw()
    ensures Lawful(RefusalRecord()) && Becomes(RefusalRecord(), RefusalSent)
  {
    hide Lawful, Exact, Becomes, Pair, RefusalHead, PublicationField, TextField, PublicationSent;
    var tail := Pair(PublicationField(), TextField(2048));
    RefusalHeadFaithful();
    PublicationLaw();
    PublicationBecomes();
    TextFieldLaw(2048);
    PairLaw(PublicationField(), TextField(2048));
    PairLaw(RefusalHead(), tail);
    ViaLaw(RefusalParts(), RefusalDown, RefusalUp);
    FaithfulBecomes(TextField(2048), Equal);
    FaithfulBecomes(RefusalHead(), Equal);
    PairBecomes(PublicationField(), TextField(2048), PublicationSent, Equal, RefusalEnds);
    PairBecomes(RefusalHead(), tail, Equal, RefusalEnds, RefusalWhole);
    ViaBecomes(RefusalParts(), RefusalDown, RefusalUp, RefusalWhole, RefusalSent);
  }

  lemma RefusalLaw()
    ensures Lawful(RefusalField()) && Becomes(RefusalField(), RefusalSent)
  {
    hide Lawful, RefusalRecord, PublicationSent;
    RefusalRecordLaw();
    forall at: nat, r | RefusalRecord().put(at, r).Some? && RefusalFacts(r)
      ensures RefusalFacts(RefusalRecord().norm(at, r)) {
      BecomesAt(RefusalRecord(), RefusalSent, at, r);
    }
    CheckedLaw(RefusalRecord(), RefusalFacts);
    CheckedBecomes(RefusalRecord(), RefusalFacts, RefusalSent);
  }

  // Workspace status

  datatype Activity = Idle | Committing | Closing | Uncertain | LocalFailure | ActivityAttaching

  function ActivityCode(a: Activity): int {
    match a
    case Idle => 1 case Committing => 2 case Closing => 3 case Uncertain => 4 case LocalFailure => 5
      case ActivityAttaching => 6
  }
  function ActivityOf(n: int): Option<Activity> {
    match n
    case 1 => Some(Idle) case 2 => Some(Committing) case 3 => Some(Closing) case 4 => Some(Uncertain)
    case 5 => Some(LocalFailure) case 6 => Some(ActivityAttaching)
    case _ => None
  }
  function ActivityField(): Codec<Activity> { Coded(ActivityCode, ActivityOf) }

  lemma ActivityFaithful()
    ensures Faithful(ActivityField())
  {
    CodedLaw(ActivityCode, ActivityOf);
  }

  datatype LocalObservation = LocalObservation(
    revision: int, active: int, captured: Option<int>, capturedRevision: Option<int>,
    baseRoot: Id, dirtyInodes: int, dirtyDirectoryEntries: int, closed: bool, baseReaders: int)

  type LocalFields = (((int, int), (Option<int>, Option<int>)), ((Id, (int, int)), (bool, int)))

  function LocalDown(l: LocalObservation): LocalFields {
    (((l.revision, l.active), (l.captured, l.capturedRevision)),
     ((l.baseRoot, (l.dirtyInodes, l.dirtyDirectoryEntries)), (l.closed, l.baseReaders)))
  }
  function LocalUp(f: LocalFields): LocalObservation {
    LocalObservation(f.0.0.0, f.0.0.1, f.0.1.0, f.0.1.1, f.1.0.0, f.1.0.1.0, f.1.0.1.1, f.1.1.0, f.1.1.1)
  }
  function Generation(): Codec<Option<int>> { Optional(I64()) }
  function LocalParts(): Codec<LocalFields> {
    Pair(Pair(Pair(I64(), I64()), Pair(Generation(), Generation())),
         Pair(Pair(ObjectIdField(), Pair(U64(), U64())), Pair(Boolean(), U64())))
  }
  function LocalField(): Codec<LocalObservation> { Via(LocalParts(), LocalDown, LocalUp) }

  lemma GenerationFaithful()
    ensures Faithful(Generation())
  {
    NumbersFaithful();
    OptionalFaithful(I64());
  }

  lemma LocalFaithful()
    ensures Faithful(LocalField())
  {
    hide Faithful, Pair, I64, U64, Generation, ObjectIdField, Boolean;
    IdsFaithful();
    NumbersFaithful();
    BooleanFaithful();
    GenerationFaithful();
    PairFaithful(I64(), I64());
    PairFaithful(Generation(), Generation());
    PairFaithful(U64(), U64());
    PairFaithful(ObjectIdField(), Pair(U64(), U64()));
    PairFaithful(Boolean(), U64());
    PairFaithful(Pair(I64(), I64()), Pair(Generation(), Generation()));
    PairFaithful(Pair(ObjectIdField(), Pair(U64(), U64())), Pair(Boolean(), U64()));
    PairFaithful(Pair(Pair(I64(), I64()), Pair(Generation(), Generation())),
      Pair(Pair(ObjectIdField(), Pair(U64(), U64())), Pair(Boolean(), U64())));
    ViaFaithful(LocalParts(), LocalDown, LocalUp);
  }

  /** The engine's row or the refusal to observe it: exactly one of the two. */
  type Observation = (Option<LocalObservation>, Option<ControlRefusal>)

  function ObservationTag(o: Observation): int { if o.0.Some? then 1 else 0 }
  function MakeLocal(l: LocalObservation): Observation { (Some(l), None) }
  function OpenLocal(o: Observation): Option<LocalObservation> { if o.1.None? then o.0 else None }
  function MakeFailure(r: ControlRefusal): Observation { (None, Some(r)) }
  function OpenFailure(o: Observation): Option<ControlRefusal> { if o.0.None? then o.1 else None }
  function ObservationForm(n: int): Codec<Observation> {
    match n
    case 1 => Form(LocalField(), MakeLocal, OpenLocal)
    case 0 => Form(RefusalField(), MakeFailure, OpenFailure)
    case _ => Refused()
  }
  function ObservationField(): Codec<Observation> { Choice(ObservationTag, ObservationForm) }
  predicate ObservationSent(o: Observation, p: Observation) { p.0 == o.0 && OptionR(RefusalSent, o.1, p.1) }

  lemma ObservationLaw()
    ensures Lawful(ObservationField()) && Becomes(ObservationField(), ObservationSent)
  {
    hide Lawful, Exact, Becomes, LocalField, RefusalField, RefusalSent;
    LocalFaithful();
    RefusalLaw();
    RefusedFaithful<Observation>();
    RefusedBecomes(ObservationSent);
    FormLaw(LocalField(), MakeLocal, OpenLocal);
    FormLaw(RefusalField(), MakeFailure, OpenFailure);
    FaithfulBecomes(LocalField(), Equal);
    FormBecomes(LocalField(), MakeLocal, OpenLocal, Equal, ObservationSent);
    FormBecomes(RefusalField(), MakeFailure, OpenFailure, RefusalSent, ObservationSent);
    ChoiceLaw(ObservationTag, ObservationForm);
    ChoiceBecomes(ObservationTag, ObservationForm, ObservationSent);
  }

  /** A status without its mount block. */
  datatype StatusBody = StatusBody(
    token: WorkspaceToken, binding: BranchSnapshot, activity: Activity, epoch: int, epochSaturated: bool,
    published: Option<CommitOutcome>, observation: Observation)

  type StatusHeadFields = ((WorkspaceToken, BranchSnapshot), (Activity, (int, bool)))
  type StatusFields = (StatusHeadFields, (Option<CommitOutcome>, Observation))

  function StatusDown(s: StatusBody): StatusFields {
    (((s.token, s.binding), (s.activity, (s.epoch, s.epochSaturated))), (s.published, s.observation))
  }
  function StatusUp(f: StatusFields): StatusBody {
    StatusBody(f.0.0.0, f.0.0.1, f.0.1.0, f.0.1.1.0, f.0.1.1.1, f.1.0, f.1.1)
  }
  function StatusHead(): Codec<StatusHeadFields> {
    Pair(Pair(TokenField(), BindingField()), Pair(ActivityField(), Pair(U64(), Boolean())))
  }
  function StatusParts(): Codec<StatusFields> { Pair(StatusHead(), Pair(PublicationField(), ObservationField())) }
  function StatusField(): Codec<StatusBody> { Via(StatusParts(), StatusDown, StatusUp) }

  predicate StatusEnds(f: (Option<CommitOutcome>, Observation), g: (Option<CommitOutcome>, Observation)) {
    PublicationSent(f.0, g.0) && ObservationSent(f.1, g.1)
  }
  predicate StatusWhole(f: StatusFields, g: StatusFields) { g.0 == f.0 && StatusEnds(f.1, g.1) }
  predicate StatusSent(s: StatusBody, t: StatusBody) {
    && t == s.(published := t.published, observation := t.observation)
    && PublicationSent(s.published, t.published) && ObservationSent(s.observation, t.observation)
  }

  lemma StatusHeadFaithful()
    ensures Faithful(StatusHead())
  {
    hide Faithful, Pair, TokenField, BindingField, ActivityField, U64, Boolean;
    TokenFaithful();
    BindingFaithful();
    ActivityFaithful();
    NumbersFaithful();
    BooleanFaithful();
    PairFaithful(TokenField(), BindingField());
    PairFaithful(U64(), Boolean());
    PairFaithful(ActivityField(), Pair(U64(), Boolean()));
    PairFaithful(Pair(TokenField(), BindingField()), Pair(ActivityField(), Pair(U64(), Boolean())));
  }

  lemma StatusLaw()
    ensures Lawful(StatusField()) && Becomes(StatusField(), StatusSent)
  {
    hide Lawful, Exact, Becomes, Pair, StatusHead, PublicationField, ObservationField, PublicationSent, ObservationSent;
    var tail := Pair(PublicationField(), ObservationField());
    StatusHeadFaithful();
    PublicationLaw();
    PublicationBecomes();
    ObservationLaw();
    PairLaw(PublicationField(), ObservationField());
    PairLaw(StatusHead(), tail);
    ViaLaw(StatusParts(), StatusDown, StatusUp);
    FaithfulBecomes(StatusHead(), Equal);
    PairBecomes(PublicationField(), ObservationField(), PublicationSent, ObservationSent, StatusEnds);
    PairBecomes(StatusHead(), tail, Equal, StatusEnds, StatusWhole);
    ViaBecomes(StatusParts(), StatusDown, StatusUp, StatusWhole, StatusSent);
  }
}
