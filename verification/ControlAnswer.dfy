/**
  One correlated control reply. Transport is a stable projection: a reply that
  encodes is decoded to itself less omitted merge details, and what is decoded
  encodes to the same bytes. No record is a prefix of another.
*/
module ControlAnswer {
  import opened Wrappers
  import opened Bytes
  import opened Wire
  import opened Codec
  import opened ListCodec
  import opened HistoryRecords
  import opened ControlRecords
  import opened MergeReplies
  import opened Record
  import SdkValue
  import opened SdkWire

  datatype CleanupObservation = Live | Held | Queued | Gone

  datatype WorkspaceStatus = WorkspaceStatus(body: StatusBody, kernel: Option<MountStatus>)
  datatype TeardownCustody = TeardownCustody(body: CustodyBody, forced: Option<ForcedFacts>)
  datatype Page<T> = Page(records: seq<T>, continuation: Option<seq<byte>>)

  datatype Reply =
    | CleanupState(token: WorkspaceToken, state: CleanupObservation)
    | SessionEnded
    | HelloReply(daemon: DaemonStatus)
    | Bound(token: WorkspaceToken, binding: BranchSnapshot)
    | CommitReply(outcome: CommitOutcome)
    | MergeCommitted(merged: MergedCommit)
    | SdkReply(value: SdkValue.Value)
    | SdkRefused(sdkRefusal: SdkRefusal)
    | ConflictReply(report: ConflictReport)
    | StatusReply(status: WorkspaceStatus)
    | Unmounted(token: WorkspaceToken)
    | Dirty(dirty: DirtyReport)
    | Forked(binding: BranchSnapshot)
    | HistoryPage(commits: Page<CommitRecord>)
    | BranchesPage(branches: Page<BranchRecord>)
    | RefusedReply(refusal: ControlRefusal)
    | ReadyReply(ready: ReadyMount)
    | Located(status: WorkspaceStatus)
    | Retained(custody: TeardownCustody)
    | ForcedReply(unmounted: ForceUnmounted)
    | Observed(reply: Reply, telemetry: SdkValue.Value)

  /** A mount block and forced facts travel under tags of their own. */
  function ReplyTag(r: Reply): int {
    match r
    case CleanupState(_, _) => 16
    case SessionEnded => 9
    case HelloReply(_) => 8
    case Bound(_, _) => 1
    case CommitReply(_) => 2
    case MergeCommitted(_) => 18
    case SdkReply(_) => 20
    case SdkRefused(_) => 21
    case ConflictReply(_) => 19
    case StatusReply(s) => if s.kernel.Some? then 13 else 3
    case Unmounted(_) => 4
    case Dirty(_) => 22
    case Forked(_) => 5
    case HistoryPage(_) => 6
    case BranchesPage(_) => 17
    case RefusedReply(_) => 7
    case ReadyReply(_) => 10
    case Located(_) => 11
    case Retained(c) => if c.forced.Some? then 15 else 12
    case ForcedReply(_) => 14
    case Observed(_, _) => 23
  }

  predicate StatusBecame(s: WorkspaceStatus, t: WorkspaceStatus) { t.kernel == s.kernel && StatusSent(s.body, t.body) }

  predicate CustodyBecame(c: TeardownCustody, d: TeardownCustody) {
    d.body == c.body && OptionR(FactsSent, c.forced, d.forced)
  }

  /** Report entries may be cut and their texts clipped, and only then is the flag raised. */
  predicate ReportBecame(r: ConflictReport, s: ConflictReport) {
    ReportCut(r, s) && (s.truncated <==> r.truncated || !ReportWhole(r, s))
  }

  /** What a reply may lose on the way: merge decisions, units, report entries and the tails of over-long texts. */
  predicate ReplySent(r: Reply, s: Reply) {
    match r
    case CommitReply(o) => s == CommitReply(OutcomePlain(o))
    case MergeCommitted(m) => s.MergeCommitted? && MergedSent(m, s.merged)
    case ConflictReply(c) => s.ConflictReply? && ReportBecame(c, s.report)
    case StatusReply(w) => s.StatusReply? && StatusBecame(w, s.status)
    case Dirty(d) => s.Dirty? && DirtySent(d, s.dirty)
    case HistoryPage(p) => s.HistoryPage? && s.commits.continuation == p.continuation
      && EachR(CommitSent, p.records, s.commits.records)
    case RefusedReply(f) => s.RefusedReply? && RefusalSent(f, s.refusal)
    case Located(w) => s.Located? && StatusBecame(w, s.status)
    case Retained(c) => s.Retained? && CustodyBecame(c, s.custody)
    case ForcedReply(f) => s.ForcedReply? && ForcedSent(f, s.unmounted)
    case Observed(inner, t) => s.Observed? && s.telemetry == t && ReplySent(inner, s.reply)
    case _ => s == r
  }

  predicate Sent(r: Reply, s: Reply) { ReplySent(r, s) }

  // Fields of their own

  function CleanupStateCode(c: CleanupObservation): int {
    match c case Live => 1 case Held => 2 case Queued => 3 case Gone => 4
  }
  function CleanupStateOf(n: int): Option<CleanupObservation> {
    match n case 1 => Some(Live) case 2 => Some(Held) case 3 => Some(Queued) case 4 => Some(Gone) case _ => None
  }
  function CleanupStateField(): Codec<CleanupObservation> { Coded(CleanupStateCode, CleanupStateOf) }

  lemma CleanupStateFaithful()
    ensures Faithful(CleanupStateField())
  {
    CodedLaw(CleanupStateCode, CleanupStateOf);
  }

  predicate InPage<T>(xs: seq<T>) { |xs| <= HISTORY_WINDOW }
  function Records<T(!new)>(item: Codec<T>): Codec<seq<T>> { Checked(Listed(item, KeepAll), InPage) }

  lemma RecordsLaw<T(!new)>(item: Codec<T>, r: (T, T) -> bool)
    requires Lawful(item) && TakesSpace(item) && Becomes(item, r)
    ensures Lawful(Records(item)) && Becomes(Records(item), (xs, ys) => EachR(r, xs, ys))
  {
    hide Lawful, TakesSpace, Becomes, Listed;
    var page := (xs, ys) => EachR(r, xs, ys);
    WholeListLaw(item);
    WholeListBecomes(item, r);
    forall at: nat, xs | Listed(item, KeepAll).put(at, xs).Some? && InPage(xs)
      ensures InPage(Listed(item, KeepAll).norm(at, xs)) {
      BecomesAt(Listed(item, KeepAll), page, at, xs);
    }
    CheckedLaw(Listed(item, KeepAll), InPage);
    CheckedBecomes(Listed(item, KeepAll), InPage, page);
  }

  predicate PageSent<T(==)>(r: (T, T) -> bool, p: (seq<T>, Option<seq<byte>>), q: (seq<T>, Option<seq<byte>>)) {
    q.1 == p.1 && EachR(r, p.0, q.0)
  }

  function PageParts<T(!new)>(item: Codec<T>): Codec<(seq<T>, Option<seq<byte>>)> { Pair(Records(item), CursorField()) }

  lemma PageLaw<T(!new)>(item: Codec<T>, r: (T, T) -> bool,
      page: ((seq<T>, Option<seq<byte>>), (seq<T>, Option<seq<byte>>)) -> bool)
    requires Lawful(item) && TakesSpace(item) && Becomes(item, r) && forall p, q :: PageSent(r, p, q) ==> page(p, q)
    ensures Lawful(PageParts(item)) && Becomes(PageParts(item), page)
  {
    hide Lawful, Exact, TakesSpace, Becomes, Pair, Records, CursorField;
    RecordsLaw(item, r);
    CursorFaithful();
    PairLaw(Records(item), CursorField());
    FaithfulBecomes(CursorField(), Equal);
    PairBecomes(Records(item), CursorField(), (xs, ys) => EachR(r, xs, ys), Equal, page);
  }

  lemma RowsTakeSpace()
    ensures TakesSpace(CommitField()) && TakesSpace(BranchField())
  {
    hide TakesSpace, Pair, CommitIdField, StackIdField, ObjectIdField, LayerIdField, BranchIdField;
    hide HistoryNameField, MetaField, Choice, NodeField;
    ChoiceTakesSpace(OptionTag, n => OptionForm(CommitIdField(), n));
    var ids, rest := Pair(CommitIdField(), Pair(StackIdField(), ObjectIdField())), Pair(NodeField(), MetaField());
    PairTakesSpace(HeadField(), LayerIdField());
    PairTakesSpace(Pair(HeadField(), LayerIdField()), rest);
    PairTakesSpaceLater(ids, Pair(Pair(HeadField(), LayerIdField()), rest));
    ViaTakesSpace(CommitParts(), CommitDown, CommitUp);
    var name, ends := Pair(HistoryNameField(), LayerIdField()), Pair(HeadField(), NodeField());
    PairTakesSpace(HeadField(), NodeField());
    PairTakesSpaceLater(name, ends);
    PairTakesSpaceLater(Pair(BranchIdField(), StackIdField()), Pair(name, ends));
    ViaTakesSpace(BranchParts(), BranchDown, BranchUp);
  }

  // The forms that arrive as they were sent

  function MakeCleanup(p: (WorkspaceToken, CleanupObservation)): Reply { CleanupState(p.0, p.1) }
  function OpenCleanup(r: Reply): Option<(WorkspaceToken, CleanupObservation)> {
    if r.CleanupState? then Some((r.token, r.state)) else None
  }
  function CleanupForm(): Codec<Reply> { Form(Pair(TokenField(), CleanupStateField()), MakeCleanup, OpenCleanup) }

  lemma CleanupFormLaw()
    ensures Lawful(CleanupForm()) && Becomes(CleanupForm(), Sent) && Holds(CleanupForm(), ReplyTag, 16)
  {
    hide Lawful, Exact, Becomes, Holds, Pair, TokenField, CleanupStateField;
    TokenFaithful();
    CleanupStateFaithful();
    PairFaithful(TokenField(), CleanupStateField());
    FormLaw(Pair(TokenField(), CleanupStateField()), MakeCleanup, OpenCleanup);
    FormHolds(Pair(TokenField(), CleanupStateField()), MakeCleanup, OpenCleanup, ReplyTag, 16);
    FaithfulBecomes(Pair(TokenField(), CleanupStateField()), Equal);
    FormBecomes(Pair(TokenField(), CleanupStateField()), MakeCleanup, OpenCleanup, Equal, Sent);
  }

  function MakeHello(p: DaemonStatus): Reply { HelloReply(p) }
  function OpenHello(r: Reply): Option<DaemonStatus> { if r.HelloReply? then Some(r.daemon) else None }
  function HelloForm(): Codec<Reply> { Form(DaemonField(), MakeHello, OpenHello) }

  lemma HelloFormLaw()
    ensures Lawful(HelloForm()) && Becomes(HelloForm(), Sent) && Holds(HelloForm(), ReplyTag, 8)
  {
    hide Lawful, Exact, Becomes, Holds, DaemonField;
    DaemonFaithful();
    FormLaw(DaemonField(), MakeHello, OpenHello);
    FormHolds(DaemonField(), MakeHello, OpenHello, ReplyTag, 8);
    FaithfulBecomes(DaemonField(), Equal);
    FormBecomes(DaemonField(), MakeHello, OpenHello, Equal, Sent);
  }

  function MakeBound(p: (WorkspaceToken, BranchSnapshot)): Reply { Bound(p.0, p.1) }
  function OpenBound(r: Reply): Option<(WorkspaceToken, BranchSnapshot)> {
    if r.Bound? then Some((r.token, r.binding)) else None
  }
  function BoundForm(): Codec<Reply> { Form(Pair(TokenField(), BindingField()), MakeBound, OpenBound) }

  lemma BoundFormLaw()
    ensures Lawful(BoundForm()) && Becomes(BoundForm(), Sent) && Holds(BoundForm(), ReplyTag, 1)
  {
    hide Lawful, Exact, Becomes, Holds, Pair, TokenField, BindingField;
    TokenFaithful();
    BindingFaithful();
    PairFaithful(TokenField(), BindingField());
    FormLaw(Pair(TokenField(), BindingField()), MakeBound, OpenBound);
    FormHolds(Pair(TokenField(), BindingField()), MakeBound, OpenBound, ReplyTag, 1);
    FaithfulBecomes(Pair(TokenField(), BindingField()), Equal);
    FormBecomes(Pair(TokenField(), BindingField()), MakeBound, OpenBound, Equal, Sent);
  }

  function MakeSdk(p: SdkValue.Value): Reply { SdkReply(p) }
  function OpenSdk(r: Reply): Option<SdkValue.Value> { if r.SdkReply? then Some(r.value) else None }
  function SdkForm(): Codec<Reply> { Form(SdkValue.ValueField(), MakeSdk, OpenSdk) }

  lemma SdkFormLaw()
    ensures Lawful(SdkForm()) && Becomes(SdkForm(), Sent) && Holds(SdkForm(), ReplyTag, 20)
  {
    hide Lawful, Exact, Becomes, Holds, SdkValue.ValueField;
    SdkValue.ValueFieldLaw();
    FormLaw(SdkValue.ValueField(), MakeSdk, OpenSdk);
    FormHolds(SdkValue.ValueField(), MakeSdk, OpenSdk, ReplyTag, 20);
    FaithfulBecomes(SdkValue.ValueField(), Equal);
    FormBecomes(SdkValue.ValueField(), MakeSdk, OpenSdk, Equal, Sent);
  }

  function MakeSdkRefused(p: SdkRefusal): Reply { SdkRefused(p) }
  function OpenSdkRefused(r: Reply): Option<SdkRefusal> { if r.SdkRefused? then Some(r.sdkRefusal) else None }
  function SdkRefusedForm(): Codec<Reply> { Form(SdkRefusalField(), MakeSdkRefused, OpenSdkRefused) }

  lemma SdkRefusedFormLaw()
    ensures Lawful(SdkRefusedForm()) && Becomes(SdkRefusedForm(), Sent) && Holds(SdkRefusedForm(), ReplyTag, 21)
  {
    hide Lawful, Exact, Becomes, Holds, SdkRefusalField;
    SdkRefusalLaw();
    FormLaw(SdkRefusalField(), MakeSdkRefused, OpenSdkRefused);
    FormHolds(SdkRefusalField(), MakeSdkRefused, OpenSdkRefused, ReplyTag, 21);
    FaithfulBecomes(SdkRefusalField(), Equal);
    FormBecomes(SdkRefusalField(), MakeSdkRefused, OpenSdkRefused, Equal, Sent);
  }

  function MakeUnmounted(p: WorkspaceToken): Reply { Unmounted(p) }
  function OpenUnmounted(r: Reply): Option<WorkspaceToken> { if r.Unmounted? then Some(r.token) else None }
  function UnmountedForm(): Codec<Reply> { Form(TokenField(), MakeUnmounted, OpenUnmounted) }

  lemma UnmountedFormLaw()
    ensures Lawful(UnmountedForm()) && Becomes(UnmountedForm(), Sent) && Holds(UnmountedForm(), ReplyTag, 4)
  {
    hide Lawful, Exact, Becomes, Holds, TokenField;
    TokenFaithful();
    FormLaw(TokenField(), MakeUnmounted, OpenUnmounted);
    FormHolds(TokenField(), MakeUnmounted, OpenUnmounted, ReplyTag, 4);
    FaithfulBecomes(TokenField(), Equal);
    FormBecomes(TokenField(), MakeUnmounted, OpenUnmounted, Equal, Sent);
  }

  function MakeForked(p: BranchSnapshot): Reply { Forked(p) }
  function OpenForked(r: Reply): Option<BranchSnapshot> { if r.Forked? then Some(r.binding) else None }
  function ForkedForm(): Codec<Reply> { Form(BindingField(), MakeForked, OpenForked) }

  lemma ForkedFormLaw()
    ensures Lawful(ForkedForm()) && Becomes(ForkedForm(), Sent) && Holds(ForkedForm(), ReplyTag, 5)
  {
    hide Lawful, Exact, Becomes, Holds, BindingField;
    BindingFaithful();
    FormLaw(BindingField(), MakeForked, OpenForked);
    FormHolds(BindingField(), MakeForked, OpenForked, ReplyTag, 5);
    FaithfulBecomes(BindingField(), Equal);
    FormBecomes(BindingField(), MakeForked, OpenForked, Equal, Sent);
  }

  function MakeReady(p: ReadyMount): Reply { ReadyReply(p) }
  function OpenReady(r: Reply): Option<ReadyMount> { if r.ReadyReply? then Some(r.ready) else None }
  function ReadyForm(): Codec<Reply> { Form(ReadyField(), MakeReady, OpenReady) }

  lemma ReadyFormLaw()
    ensures Lawful(ReadyForm()) && Becomes(ReadyForm(), Sent) && Holds(ReadyForm(), ReplyTag, 10)
  {
    hide Lawful, Exact, Becomes, Holds, ReadyField;
    ReadyFaithful();
    FormLaw(ReadyField(), MakeReady, OpenReady);
    FormHolds(ReadyField(), MakeReady, OpenReady, ReplyTag, 10);
    FaithfulBecomes(ReadyField(), Equal);
    FormBecomes(ReadyField(), MakeReady, OpenReady, Equal, Sent);
  }

  // The forms that may lose merge details

  predicate MountedSent(p: (StatusBody, MountStatus), q: (StatusBody, MountStatus)) {
    StatusSent(p.0, q.0) && q.1 == p.1
  }
  predicate LocatedSent(p: (StatusBody, Option<MountStatus>), q: (StatusBody, Option<MountStatus>)) {
    StatusSent(p.0, q.0) && q.1 == p.1
  }
  predicate CustodySent(p: (CustodyBody, ForcedFacts), q: (CustodyBody, ForcedFacts)) {
    q.0 == p.0 && FactsSent(p.1, q.1)
  }

  lemma ReportBecomes()
    ensures Becomes(ReportField(), ReportBecame)
  {
    hide ReportField, ReportCut, ReportWhole;
    forall at: nat, r | ReportField().put(at, r).Some? ensures ReportBecame(r, ReportField().norm(at, r)) {
      ReportIs(at, r);
    }
  }

  type CommitPage = (seq<CommitRecord>, Option<seq<byte>>)
  type BranchPage = (seq<BranchRecord>, Option<seq<byte>>)
  predicate CommitPageSent(p: CommitPage, q: CommitPage) { PageSent(CommitSent, p, q) }
  predicate BranchPageSent(p: BranchPage, q: BranchPage) { PageSent(Equal, p, q) }

  lemma EqualPages(p: BranchPage, q: BranchPage)
    requires BranchPageSent(p, q)
    ensures q == p
  {
    assert q.0 == p.0;
  }

  function MakeCommit(p: CommitOutcome): Reply { CommitReply(p) }
  function OpenCommit(r: Reply): Option<CommitOutcome> { if r.CommitReply? then Some(r.outcome) else None }
  function CommitForm(): Codec<Reply> { Form(OutcomeField(), MakeCommit, OpenCommit) }

  lemma CommitFormLaw()
    ensures Lawful(CommitForm()) && Becomes(CommitForm(), Sent) && Holds(CommitForm(), ReplyTag, 2)
  {
    hide Lawful, Exact, Becomes, Holds, OutcomeField;
    OutcomeLaw();
    OutcomeBecomes();
    FormLaw(OutcomeField(), MakeCommit, OpenCommit);
    FormHolds(OutcomeField(), MakeCommit, OpenCommit, ReplyTag, 2);
    FormBecomes(OutcomeField(), MakeCommit, OpenCommit, OutcomeSent, Sent);
  }

  function MakeMerged(p: MergedCommit): Reply { MergeCommitted(p) }
  function OpenMerged(r: Reply): Option<MergedCommit> { if r.MergeCommitted? then Some(r.merged) else None }
  function MergedForm(): Codec<Reply> { Form(MergedField(), MakeMerged, OpenMerged) }

  lemma MergedFormLaw()
    ensures Lawful(MergedForm()) && Becomes(MergedForm(), Sent) && Holds(MergedForm(), ReplyTag, 18)
  {
    hide Lawful, Exact, Becomes, Holds, MergedField, MergedSent;
    MergedLaw();
    MergedBecomes();
    FormLaw(MergedField(), MakeMerged, OpenMerged);
    FormHolds(MergedField(), MakeMerged, OpenMerged, ReplyTag, 18);
    FormBecomes(MergedField(), MakeMerged, OpenMerged, MergedSent, Sent);
  }

  function MakeConflict(p: ConflictReport): Reply { ConflictReply(p) }
  function OpenConflict(r: Reply): Option<ConflictReport> { if r.ConflictReply? then Some(r.report) else None }
  function ConflictForm(): Codec<Reply> { Form(ReportField(), MakeConflict, OpenConflict) }

  lemma ConflictFormLaw()
    ensures Lawful(ConflictForm()) && Becomes(ConflictForm(), Sent) && Holds(ConflictForm(), ReplyTag, 19)
  {
    hide Lawful, Exact, Becomes, Holds, ReportField, ReportBecame;
    ReportLaw();
    ReportBecomes();
    FormLaw(ReportField(), MakeConflict, OpenConflict);
    FormHolds(ReportField(), MakeConflict, OpenConflict, ReplyTag, 19);
    FormBecomes(ReportField(), MakeConflict, OpenConflict, ReportBecame, Sent);
  }

  function MakeDirty(p: DirtyReport): Reply { Dirty(p) }
  function OpenDirty(r: Reply): Option<DirtyReport> { if r.Dirty? then Some(r.dirty) else None }
  function DirtyForm(): Codec<Reply> { Form(DirtyField(), MakeDirty, OpenDirty) }

  lemma DirtyFormLaw()
    ensures Lawful(DirtyForm()) && Becomes(DirtyForm(), Sent) && Holds(DirtyForm(), ReplyTag, 22)
  {
    hide Lawful, Exact, Becomes, Holds, DirtyField, DirtySent;
    DirtyLaw();
    DirtyBecomes();
    FormLaw(DirtyField(), MakeDirty, OpenDirty);
    FormHolds(DirtyField(), MakeDirty, OpenDirty, ReplyTag, 22);
    FormBecomes(DirtyField(), MakeDirty, OpenDirty, DirtySent, Sent);
  }

  function MakeRefused(p: ControlRefusal): Reply { RefusedReply(p) }
  function OpenRefused(r: Reply): Option<ControlRefusal> { if r.RefusedReply? then Some(r.refusal) else None }
  function RefusedForm(): Codec<Reply> { Form(RefusalField(), MakeRefused, OpenRefused) }

  lemma RefusedFormLaw()
    ensures Lawful(RefusedForm()) && Becomes(RefusedForm(), Sent) && Holds(RefusedForm(), ReplyTag, 7)
  {
    hide Lawful, Exact, Becomes, Holds, RefusalField, RefusalSent;
    RefusalLaw();
    FormLaw(RefusalField(), MakeRefused, OpenRefused);
    FormHolds(RefusalField(), MakeRefused, OpenRefused, ReplyTag, 7);
    FormBecomes(RefusalField(), MakeRefused, OpenRefused, RefusalSent, Sent);
  }

  function MakeForced(p: ForceUnmounted): Reply { ForcedReply(p) }
  function OpenForced(r: Reply): Option<ForceUnmounted> { if r.ForcedReply? then Some(r.unmounted) else None }
  function ForcedForm(): Codec<Reply> { Form(ForcedField(), MakeForced, OpenForced) }

  lemma ForcedFormLaw()
    ensures Lawful(ForcedForm()) && Becomes(ForcedForm(), Sent) && Holds(ForcedForm(), ReplyTag, 14)
  {
    hide Lawful, Exact, Becomes, Holds, ForcedField, ForcedSent;
    ForcedLaw();
    FormLaw(ForcedField(), MakeForced, OpenForced);
    FormHolds(ForcedField(), MakeForced, OpenForced, ReplyTag, 14);
    FormBecomes(ForcedField(), MakeForced, OpenForced, ForcedSent, Sent);
  }

  function MakeStatus(p: StatusBody): Reply { StatusReply(WorkspaceStatus(p, None)) }
  function OpenStatus(r: Reply): Option<StatusBody> {
    if r.StatusReply? && r.status.kernel.None? then Some(r.status.body) else None
  }
  function StatusForm(): Codec<Reply> { Form(StatusField(), MakeStatus, OpenStatus) }

  lemma StatusFormLaw()
    ensures Lawful(StatusForm()) && Becomes(StatusForm(), Sent) && Holds(StatusForm(), ReplyTag, 3)
  {
    hide Lawful, Exact, Becomes, Holds, StatusField, StatusSent;
    StatusLaw();
    FormLaw(StatusField(), MakeStatus, OpenStatus);
    FormHolds(StatusField(), MakeStatus, OpenStatus, ReplyTag, 3);
    FormBecomes(StatusField(), MakeStatus, OpenStatus, StatusSent, Sent);
  }

  function MakeMounted(p: (StatusBody, MountStatus)): Reply { StatusReply(WorkspaceStatus(p.0, Some(p.1))) }
  function OpenMounted(r: Reply): Option<(StatusBody, MountStatus)> {
    if r.StatusReply? && r.status.kernel.Some? then Some((r.status.body, r.status.kernel.value)) else None
  }
  function MountedForm(): Codec<Reply> { Form(Pair(StatusField(), MountField()), MakeMounted, OpenMounted) }

  lemma MountedFormLaw()
    ensures Lawful(MountedForm()) && Becomes(MountedForm(), Sent) && Holds(MountedForm(), ReplyTag, 13)
  {
    hide Lawful, Exact, Becomes, Holds, StatusField, StatusSent, MountField, Pair;
    StatusLaw();
    MountFaithful();
    PairLaw(StatusField(), MountField());
    FaithfulBecomes(MountField(), Equal);
    PairBecomes(StatusField(), MountField(), StatusSent, Equal, MountedSent);
    FormLaw(Pair(StatusField(), MountField()), MakeMounted, OpenMounted);
    FormHolds(Pair(StatusField(), MountField()), MakeMounted, OpenMounted, ReplyTag, 13);
    FormBecomes(Pair(StatusField(), MountField()), MakeMounted, OpenMounted, MountedSent, Sent);
  }

  function MakeLocated(p: (StatusBody, Option<MountStatus>)): Reply { Located(WorkspaceStatus(p.0, p.1)) }
  function OpenLocated(r: Reply): Option<(StatusBody, Option<MountStatus>)> {
    if r.Located? then Some((r.status.body, r.status.kernel)) else None
  }
  function LocatedForm(): Codec<Reply> { Form(Pair(StatusField(), Optional(MountField())), MakeLocated, OpenLocated) }

  lemma LocatedFormLaw()
    ensures Lawful(LocatedForm()) && Becomes(LocatedForm(), Sent) && Holds(LocatedForm(), ReplyTag, 11)
  {
    hide Lawful, Exact, Becomes, Holds, StatusField, StatusSent, MountField, Optional, Pair;
    StatusLaw();
    MountFaithful();
    OptionalFaithful(MountField());
    PairLaw(StatusField(), Optional(MountField()));
    FaithfulBecomes(Optional(MountField()), Equal);
    PairBecomes(StatusField(), Optional(MountField()), StatusSent, Equal, LocatedSent);
    FormLaw(Pair(StatusField(), Optional(MountField())), MakeLocated, OpenLocated);
    FormHolds(Pair(StatusField(), Optional(MountField())), MakeLocated, OpenLocated, ReplyTag, 11);
    FormBecomes(Pair(StatusField(), Optional(MountField())), MakeLocated, OpenLocated, LocatedSent, Sent);
  }

  function MakeCustody(p: CustodyBody): Reply { Retained(TeardownCustody(p, None)) }
  function OpenCustody(r: Reply): Option<CustodyBody> {
    if r.Retained? && r.custody.forced.None? then Some(r.custody.body) else None
  }
  function CustodyForm(): Codec<Reply> { Form(UnforcedField(), MakeCustody, OpenCustody) }

  lemma CustodyFormLaw()
    ensures Lawful(CustodyForm()) && Becomes(CustodyForm(), Sent) && Holds(CustodyForm(), ReplyTag, 12)
  {
    hide Lawful, Exact, Becomes, Holds, UnforcedField;
    UnforcedFaithful();
    FaithfulBecomes(UnforcedField(), Equal);
    FormLaw(UnforcedField(), MakeCustody, OpenCustody);
    FormHolds(UnforcedField(), MakeCustody, OpenCustody, ReplyTag, 12);
    FormBecomes(UnforcedField(), MakeCustody, OpenCustody, Equal, Sent);
  }

  function MakeForcedCustody(p: (CustodyBody, ForcedFacts)): Reply { Retained(TeardownCustody(p.0, Some(p.1))) }
  function OpenForcedCustody(r: Reply): Option<(CustodyBody, ForcedFacts)> {
    if r.Retained? && r.custody.forced.Some? then Some((r.custody.body, r.custody.forced.value)) else None
  }
  function ForcedCustodyForm(): Codec<Reply> {
    Form(Pair(CustodyField(), FactsField()), MakeForcedCustody, OpenForcedCustody)
  }

  lemma ForcedCustodyFormLaw()
    ensures Lawful(ForcedCustodyForm()) && Becomes(ForcedCustodyForm(), Sent)
      && Holds(ForcedCustodyForm(), ReplyTag, 15)
  {
    hide Lawful, Exact, Becomes, Holds, CustodyField, FactsField, FactsSent, Pair;
    CustodyFaithful();
    FactsLaw();
    PairLaw(CustodyField(), FactsField());
    FaithfulBecomes(CustodyField(), Equal);
    PairBecomes(CustodyField(), FactsField(), Equal, FactsSent, CustodySent);
    FormLaw(Pair(CustodyField(), FactsField()), MakeForcedCustody, OpenForcedCustody);
    FormHolds(Pair(CustodyField(), FactsField()), MakeForcedCustody, OpenForcedCustody, ReplyTag, 15);
    FormBecomes(Pair(CustodyField(), FactsField()), MakeForcedCustody, OpenForcedCustody, CustodySent, Sent);
  }

  function MakeHistory(p: (seq<CommitRecord>, Option<seq<byte>>)): Reply { HistoryPage(Page(p.0, p.1)) }
  function OpenHistory(r: Reply): Option<(seq<CommitRecord>, Option<seq<byte>>)> {
    if r.HistoryPage? then Some((r.commits.records, r.commits.continuation)) else None
  }
  function HistoryForm(): Codec<Reply> { Form(PageParts(CommitField()), MakeHistory, OpenHistory) }

  lemma HistoryFormLaw()
    ensures Lawful(HistoryForm()) && Becomes(HistoryForm(), Sent) && Holds(HistoryForm(), ReplyTag, 6)
  {
    hide Lawful, Exact, Becomes, Holds, CommitField, PageParts, TakesSpace, EachR;
    CommitLaw();
    CommitBecomes();
    RowsTakeSpace();
    PageLaw(CommitField(), CommitSent, CommitPageSent);
    FormLaw(PageParts(CommitField()), MakeHistory, OpenHistory);
    FormHolds(PageParts(CommitField()), MakeHistory, OpenHistory, ReplyTag, 6);
    FormBecomes(PageParts(CommitField()), MakeHistory, OpenHistory, CommitPageSent, Sent);
  }

  function MakeBranches(p: (seq<BranchRecord>, Option<seq<byte>>)): Reply { BranchesPage(Page(p.0, p.1)) }
  function OpenBranches(r: Reply): Option<(seq<BranchRecord>, Option<seq<byte>>)> {
    if r.BranchesPage? then Some((r.branches.records, r.branches.continuation)) else None
  }
  function BranchesForm(): Codec<Reply> { Form(PageParts(BranchField()), MakeBranches, OpenBranches) }

  lemma BranchesFormLaw()
    ensures Lawful(BranchesForm()) && Becomes(BranchesForm(), Sent) && Holds(BranchesForm(), ReplyTag, 17)
  {
    hide Lawful, Exact, Becomes, Holds, BranchField, PageParts, TakesSpace, EachR;
    BranchFaithful();
    FaithfulBecomes(BranchField(), Equal);
    RowsTakeSpace();
    PageLaw(BranchField(), Equal, BranchPageSent);
    forall p, q | BranchPageSent(p, q) ensures q == p {
      EqualPages(p, q);
    }
    FormLaw(PageParts(BranchField()), MakeBranches, OpenBranches);
    FormHolds(PageParts(BranchField()), MakeBranches, OpenBranches, ReplyTag, 17);
    FormBecomes(PageParts(BranchField()), MakeBranches, OpenBranches, BranchPageSent, Sent);
  }

  // The reply

  /** Every reply but an observed one. */
  function PlainForm(n: int): Codec<Reply> {
    match n
    case 1 => BoundForm()
    case 2 => CommitForm()
    case 3 => StatusForm()
    case 4 => UnmountedForm()
    case 5 => ForkedForm()
    case 6 => HistoryForm()
    case 7 => RefusedForm()
    case 8 => HelloForm()
    case 9 => Only(SessionEnded)
    case 10 => ReadyForm()
    case 11 => LocatedForm()
    case 12 => CustodyForm()
    case 13 => MountedForm()
    case 14 => ForcedForm()
    case 15 => ForcedCustodyForm()
    case 16 => CleanupForm()
    case 17 => BranchesForm()
    case 18 => MergedForm()
    case 19 => ConflictForm()
    case 20 => SdkForm()
    case 21 => SdkRefusedForm()
    case 22 => DirtyForm()
    case _ => Refused()
  }

  function PlainField(): Codec<Reply> { Choice(ReplyTag, PlainForm) }

  lemma PlainFormLaw(n: byte)
    ensures Lawful(PlainForm(n)) && Becomes(PlainForm(n), Sent) && Holds(PlainForm(n), ReplyTag, n)
  {
    hide Lawful, Becomes, Holds, BoundForm, CommitForm, StatusForm, UnmountedForm, ForkedForm, HistoryForm;
    hide RefusedForm, HelloForm, ReadyForm, LocatedForm, CustodyForm;
    hide MountedForm, ForcedForm, ForcedCustodyForm, CleanupForm, BranchesForm, MergedForm, ConflictForm, SdkForm;
    hide SdkRefusedForm, DirtyForm, Only;
    match n
    case 1 => BoundFormLaw();
    case 2 => CommitFormLaw();
    case 3 => StatusFormLaw();
    case 4 => UnmountedFormLaw();
    case 5 => ForkedFormLaw();
    case 6 => HistoryFormLaw();
    case 7 => RefusedFormLaw();
    case 8 => HelloFormLaw();
    case 9 => SessionEndedLaw();
    case 10 => ReadyFormLaw();
    case 11 => LocatedFormLaw();
    case 12 => CustodyFormLaw();
    case 13 => MountedFormLaw();
    case 14 => ForcedFormLaw();
    case 15 => ForcedCustodyFormLaw();
    case 16 => CleanupFormLaw();
    case 17 => BranchesFormLaw();
    case 18 => MergedFormLaw();
    case 19 => ConflictFormLaw();
    case 20 => SdkFormLaw();
    case 21 => SdkRefusedFormLaw();
    case 22 => DirtyFormLaw();
    case _ =>
      RefusedFaithful<Reply>();
      RefusedBecomes(Sent);
      RefusedHolds<Reply>(ReplyTag, n);
  }

  lemma SessionEndedLaw()
    ensures Lawful(Only(SessionEnded)) && Becomes(Only(SessionEnded), Sent) && Holds(Only(SessionEnded), ReplyTag, 9)
  {
    OnlyFaithful(SessionEnded);
  }

  lemma PlainLaw()
    ensures Lawful(PlainField()) && Becomes(PlainField(), Sent)
  {
    hide Lawful, Becomes, Holds, PlainForm;
    forall n: byte ensures Lawful(PlainForm(n)) && Becomes(PlainForm(n), Sent) {
      PlainFormLaw(n);
    }
    forall n: byte, r | PlainForm(n).ok(r) ensures ReplyTag(r) == n {
      PlainFormLaw(n);
      HoldsAt(PlainForm(n), ReplyTag, n, r);
    }
    ChoiceLaw(ReplyTag, PlainForm);
    ChoiceBecomes(ReplyTag, PlainForm, Sent);
  }

  // Telemetry beside a reply

  function MakeObserved(p: (SdkValue.Value, Reply)): Reply { Observed(p.1, p.0) }
  function OpenObserved(r: Reply): Option<(SdkValue.Value, Reply)> {
    if r.Observed? then Some((r.telemetry, r.reply)) else None
  }
  function ObservedForm(): Codec<Reply> { Form(Pair(SdkValue.ValueField(), PlainField()), MakeObserved, OpenObserved) }
  predicate ObservedSent(p: (SdkValue.Value, Reply), q: (SdkValue.Value, Reply)) { q.0 == p.0 && Sent(p.1, q.1) }

  lemma ObservedFormLaw()
    ensures Lawful(ObservedForm()) && Becomes(ObservedForm(), Sent) && Holds(ObservedForm(), ReplyTag, 23)
  {
    hide Lawful, Exact, Becomes, Holds, Pair, SdkValue.ValueField, PlainField;
    SdkValue.ValueFieldLaw();
    PlainLaw();
    PairLaw(SdkValue.ValueField(), PlainField());
    FormLaw(Pair(SdkValue.ValueField(), PlainField()), MakeObserved, OpenObserved);
    FormHolds(Pair(SdkValue.ValueField(), PlainField()), MakeObserved, OpenObserved, ReplyTag, 23);
    FaithfulBecomes(SdkValue.ValueField(), Equal);
    PairBecomes(SdkValue.ValueField(), PlainField(), Equal, Sent, ObservedSent);
    FormBecomes(Pair(SdkValue.ValueField(), PlainField()), MakeObserved, OpenObserved, ObservedSent, Sent);
  }

  function ReplyForm(n: int): Codec<Reply> { if n == 23 then ObservedForm() else PlainForm(n) }
  function ReplyField(): Codec<Reply> { Choice(ReplyTag, ReplyForm) }

  lemma ReplyLaw()
    ensures Lawful(ReplyField()) && Becomes(ReplyField(), Sent)
  {
    hide Lawful, Becomes, Holds, PlainForm, ObservedForm;
    ObservedFormLaw();
    forall n: byte ensures Lawful(ReplyForm(n)) && Becomes(ReplyForm(n), Sent) {
      PlainFormLaw(n);
    }
    forall n: byte, r | ReplyForm(n).ok(r) ensures ReplyTag(r) == n {
      PlainFormLaw(n);
      HoldsAt(ReplyForm(n), ReplyTag, n, r);
    }
    ChoiceLaw(ReplyTag, ReplyForm);
    ChoiceBecomes(ReplyTag, ReplyForm, Sent);
  }

  // The answer

  datatype Answer = Answer(id: int, reply: Reply)

  function AnswerDown(a: Answer): (int, Reply) { (a.id, a.reply) }
  function AnswerUp(p: (int, Reply)): Answer { Answer(p.0, p.1) }
  function AnswerField(): Codec<Answer> { Via(Pair(CorrelationField(), ReplyField()), AnswerDown, AnswerUp) }
  predicate AnswerParts(p: (int, Reply), q: (int, Reply)) { q.0 == p.0 && Sent(p.1, q.1) }
  predicate AnswerSent(a: Answer, b: Answer) { b.id == a.id && ReplySent(a.reply, b.reply) }

  lemma AnswerLaw()
    ensures Lawful(AnswerField()) && Becomes(AnswerField(), AnswerSent)
  {
    hide Lawful, Exact, Becomes, Holds, Pair, CorrelationField, ReplyField;
    CorrelationFaithful();
    ReplyLaw();
    PairLaw(CorrelationField(), ReplyField());
    ViaLaw(Pair(CorrelationField(), ReplyField()), AnswerDown, AnswerUp);
    FaithfulBecomes(CorrelationField(), Equal);
    PairBecomes(CorrelationField(), ReplyField(), Equal, Sent, AnswerParts);
    ViaBecomes(Pair(CorrelationField(), ReplyField()), AnswerDown, AnswerUp, AnswerParts, AnswerSent);
  }

  const ANSWER_MAGIC: seq<byte> := [76, 70, 83, 65, 2]

  function EncodeAnswer(a: Answer): Option<seq<byte>> { Encode(AnswerField(), ANSWER_MAGIC, a) }
  function DecodeAnswer(record: seq<byte>): Option<Answer> { Decode(AnswerField(), ANSWER_MAGIC, record) }

  /**
    Transport is a stable projection: a well-formed answer that encodes decodes,
    loses nothing but merge details and the tails of over-long texts, and what
    is decoded encodes to the same bytes.
  */
  lemma AnswerProjects(a: Answer)
    requires AnswerField().ok(a) && EncodeAnswer(a).Some?
    ensures match DecodeAnswer(EncodeAnswer(a).value)
      case None => false
      case Some(b) => AnswerSent(a, b) && EncodeAnswer(b) == EncodeAnswer(a)
  {
    hide Lawful, Becomes, AnswerField, ReplySent;
    AnswerLaw();
    EncodedDecodes(AnswerField(), ANSWER_MAGIC, a);
    BecomesAt(AnswerField(), AnswerSent, |ANSWER_MAGIC|, a);
  }

  /** No proper prefix of a valid answer is valid: a status or custody cannot be cut into its plainer form. */
  lemma AnswerHasNoPrefix(record: seq<byte>, n: nat)
    requires DecodeAnswer(record).Some? && n < |record|
    ensures DecodeAnswer(record[..n]) == None
  {
    hide Lawful, Becomes, AnswerField;
    AnswerLaw();
    NoProperPrefix(AnswerField(), ANSWER_MAGIC, record, n);
  }

  /** A valid answer with bytes appended is refused. */
  lemma AnswerTakesNoMore(record: seq<byte>, more: seq<byte>)
    requires DecodeAnswer(record).Some? && more != []
    ensures DecodeAnswer(record + more) == None
  {
    hide Lawful, Becomes, AnswerField;
    AnswerLaw();
    NothingAppended(AnswerField(), ANSWER_MAGIC, record, more);
  }

  // Answers that always encode

  lemma AnswerPut(id: int, r: Reply)
    requires 0 < id && ReplyForm(ReplyTag(r)).put(14, r).Some?
    ensures EncodeAnswer(Answer(id, r)).Some?
  {
    hide Pair, Choice, ReplyForm, Via, CorrelationField;
    ChoicePut(ReplyTag, ReplyForm, 13, r);
    CorrelationPut(5, id);
    PairOf(CorrelationField(), ReplyField(), 5, (id, r));
    ViaPut(Pair(CorrelationField(), ReplyField()), AnswerDown, AnswerUp, 5, Answer(id, r));
  }

  lemma CorrelationPut(at: nat, id: int)
    requires 0 < id && at <= 5
    ensures CorrelationField().put(at, id).Some? && |CorrelationField().put(at, id).value| == 8
  {
    hide BigEndian;
    assert |BigEndian(id, 8)| == 8;
    assert U64().put(at, id) == Raw(at, BigEndian(id, 8));
  }

  lemma MergeForms()
    ensures ReplyForm(19) == ConflictForm() && ReplyForm(22) == DirtyForm()
  {
    hide BoundForm, CommitForm, StatusForm, UnmountedForm, ForkedForm, HistoryForm, RefusedForm, HelloForm;
    hide ReadyForm, LocatedForm, CustodyForm;
    hide MountedForm, ForcedForm, ForcedCustodyForm, CleanupForm, BranchesForm, MergedForm, ConflictForm, SdkForm;
    hide SdkRefusedForm, DirtyForm, Only;
  }

  /** An unobserved conflict answer without hunks always encodes, however many entries it holds. */
  lemma NoHunksAnswerEncodes(id: int, r: ConflictReport)
    requires 0 < id && HeadField().ok(r.head) && HeadField().ok(r.base)
    requires forall k :: 0 <= k < |r.conflicts| ==> r.conflicts[k].hunks == []
    ensures EncodeAnswer(Answer(id, ConflictReply(r))).Some?
  {
    hide ReportField, EncodeAnswer, HeadField, Form, ReplyForm;
    NoHunksAlwaysEncodes(14, r);
    FormPut(ReportField(), MakeConflict, OpenConflict, 14, ConflictReply(r));
    MergeForms();
    AnswerPut(id, ConflictReply(r));
  }

  /** An unobserved Dirty answer always encodes, however many and long its paths are. */
  lemma DirtyAnswerEncodes(id: int, d: DirtyReport)
    requires 0 < id && DirtyField().ok(d) && d.token.namespace > 0
    ensures EncodeAnswer(Answer(id, Dirty(d))).Some?
  {
    hide DirtyField, EncodeAnswer, Form, ReplyForm;
    DirtyEncodes(14, d);
    FormPut(DirtyField(), MakeDirty, OpenDirty, 14, Dirty(d));
    MergeForms();
    AnswerPut(id, Dirty(d));
  }
}
