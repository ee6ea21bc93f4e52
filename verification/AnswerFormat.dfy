/**
  The record of an answer, byte by byte: what is sent for the answer that
  arrives. Nothing here mentions a codec: the tags stand as they are sent.
*/
module AnswerFormat {
  import opened Wrappers
  import opened Bytes
  import opened Wire
  import opened Codec
  import opened ListCodec
  import opened HistoryRecords
  import opened ControlRecords
  import opened MergeReplies
  import opened Record
  import opened ControlAnswer
  import opened Spelling
  import opened RecordBytes
  import opened ReplyRecords
  import CallFormat
  import SdkValue
  import opened SdkWire
  import Utf8

  function StateByte(c: CleanupObservation): seq<byte> {
    match c case Live => [1] case Held => [2] case Queued => [3] case Gone => [4]
  }
  function MountOption(m: Option<MountStatus>): seq<byte> {
    match m case None => [0] case Some(x) => [1] + MountBytes(x)
  }
  function CommitsBytes(cs: seq<CommitRecord>): seq<byte> { Counted(CommitBytes)(cs) }
  function BranchesBytes(bs: seq<BranchRecord>): seq<byte> { Counted(BranchBytes)(bs) }
  function SdkRefusalBytes(r: SdkRefusal): seq<byte> {
    ShortRun(r.code) + (LongRun(r.message) + CallFormat.ValueBytes(r.detail))
  }

  /** The tag of each reply. A mount block and forced facts have tags of their own. */
  function ReplyNumber(r: Reply): byte {
    match r
    case Bound(_, _) => 1
    case CommitReply(_) => 2
    case StatusReply(s) => if s.kernel.Some? then 13 else 3
    case Unmounted(_) => 4
    case Forked(_) => 5
    case HistoryPage(_) => 6
    case RefusedReply(_) => 7
    case HelloReply(_) => 8
    case SessionEnded => 9
    case ReadyReply(_) => 10
    case Located(_) => 11
    case Retained(c) => if c.forced.Some? then 15 else 12
    case ForcedReply(_) => 14
    case CleanupState(_, _) => 16
    case BranchesPage(_) => 17
    case MergeCommitted(_) => 18
    case ConflictReply(_) => 19
    case SdkReply(_) => 20
    case SdkRefused(_) => 21
    case Dirty(_) => 22
    case Observed(_, _) => 23
  }

  /** What stands after the tag: telemetry stands before the reply it belongs to. */
  function ReplyBody(r: Reply): seq<byte> {
    match r
    case Bound(token, binding) => TokenBytes(token) + BindingBytes(binding)
    case CommitReply(outcome) => OutcomeBytes(outcome)
    case StatusReply(s) =>
      if s.kernel.Some? then StatusBytes(s.body) + MountBytes(s.kernel.value) else StatusBytes(s.body)
    case Unmounted(token) => TokenBytes(token)
    case Forked(binding) => BindingBytes(binding)
    case HistoryPage(p) => CommitsBytes(p.records) + TextBytes(p.continuation)
    case RefusedReply(refusal) => RefusalBytes(refusal)
    case HelloReply(daemon) => DaemonBytes(daemon)
    case SessionEnded => []
    case ReadyReply(ready) => ReadyBytes(ready)
    case Located(s) => StatusBytes(s.body) + MountOption(s.kernel)
    case Retained(c) =>
      if c.forced.Some? then CustodyBytes(c.body) + FactsBytes(c.forced.value) else CustodyBytes(c.body)
    case ForcedReply(unmounted) => ForcedBytes(unmounted)
    case CleanupState(token, state) => TokenBytes(token) + StateByte(state)
    case BranchesPage(p) => BranchesBytes(p.records) + TextBytes(p.continuation)
    case MergeCommitted(merged) => MergedBytes(merged)
    case ConflictReply(report) => ReportBytes(report)
    case SdkReply(value) => CallFormat.ValueBytes(value)
    case SdkRefused(refusal) => SdkRefusalBytes(refusal)
    case Dirty(dirty) => DirtyBytes(dirty)
    case Observed(reply, telemetry) => CallFormat.ValueBytes(telemetry) + ([ReplyNumber(reply)] + ReplyBody(reply))
  }
  function ReplyBytes(r: Reply): seq<byte> { [ReplyNumber(r)] + ReplyBody(r) }

  /** The reply holds a merge report, alone or observed. */
  predicate Merges(r: Reply) {
    r.MergeCommitted? || r.ConflictReply? || r.Dirty? || (r.Observed? && Merges(r.reply))
  }

  predicate PageLegal(s: Option<seq<byte>>, count: nat) { CursorLegal(s) && count <= 32 }

  /** When a reply without a merge report is written, its length aside. */
  predicate ReplyLegal(r: Reply) {
    match r
    case Bound(token, _) => TokenLegal(token)
    case CommitReply(outcome) => OutcomeLegal(outcome)
    case StatusReply(s) => StatusLegal(s.body) && (s.kernel.Some? ==> MountLegal(s.kernel.value))
    case Unmounted(token) => TokenLegal(token)
    case Forked(_) => true
    case HistoryPage(p) => AllLegal(CommitLegal, p.records) && PageLegal(p.continuation, |p.records|)
    case RefusedReply(refusal) => RefusalLegal(refusal)
    case HelloReply(daemon) => DaemonLegal(daemon)
    case SessionEnded => true
    case ReadyReply(ready) => ReadyLegal(ready)
    case Located(s) => StatusLegal(s.body) && (s.kernel.Some? ==> MountLegal(s.kernel.value))
    case Retained(c) =>
      if c.forced.Some? then CustodyLegal(c.body) && FactsLegal(c.forced.value) else UnforcedLegal(c.body)
    case ForcedReply(unmounted) => ForcedLegal(unmounted)
    case CleanupState(token, _) => TokenLegal(token)
    case BranchesPage(p) => PageLegal(p.continuation, |p.records|)
    case SdkReply(value) => CallFormat.ValueLegal(value, 0)
    case SdkRefused(refusal) => 1 <= |refusal.code| <= 64 && CallFormat.ValueLegal(refusal.detail, 0)
    case Observed(reply, telemetry) => CallFormat.ValueLegal(telemetry, 0) && ReplyLegal(reply)
    case _ => false
  }

  // Fields

  lemma StateWrites()
    ensures Writes(CleanupStateField(), Always(), StateByte)
  {
    CodedWrites(CleanupStateCode, CleanupStateOf, StateByte);
  }

  predicate MountOptionLegal(m: Option<MountStatus>) { m.Some? ==> MountLegal(m.value) }

  lemma MountOptionWrites()
    ensures Writes(Optional(MountField()), MountOptionLegal, MountOption)
  {
    hide Writes, Optional, MountField, MountBytes, MountLegal;
    MountWrites();
    OptionalWrites(MountField(), MountLegal, MountBytes);
    var p := Any(MountLegal);
    forall v ensures p(v) == MountOptionLegal(v) && Maybe(MountBytes)(v) == MountOption(v) {
    }
    WritesAlso(Optional(MountField()), p, Maybe(MountBytes), MountOptionLegal, MountOption);
  }

  predicate SdkRefusalLegal(r: SdkRefusal) { 1 <= |r.code| <= 64 && CallFormat.ValueLegal(r.detail, 0) }

  lemma LongTextWrites()
    ensures Writes(LongText(), Upto(0xFFFF_FFFF), LongRun)
  {
    RunWrites(0xFFFF_FFFF, s => Utf8.Valid(s));
  }

  lemma SdkRefusalWrites()
    ensures Writes(SdkRefusalField(), SdkRefusalLegal, SdkRefusalBytes)
  {
    hide Writes, NameField, LongText, SdkValue.ValueField, Pair, ShortRun, LongRun;
    hide CallFormat.ValueBytes, CallFormat.ValueLegal;
    CallFormat.SdkNameWrites();
    CallFormat.ValueWrites();
    LongTextWrites();
    var rest, p, x := Pair(LongText(), SdkValue.ValueField()), And(Upto(0xFFFF_FFFF), CallFormat.TopLegal()),
      Both(LongRun, CallFormat.ValueBytes);
    PairWritesAs(LongText(), Upto(0xFFFF_FFFF), LongRun, SdkValue.ValueField(), CallFormat.TopLegal(),
      CallFormat.ValueBytes);
    PairWritesAs(NameField(), CallFormat.SdkNameLegal, ShortRun, rest, p, x);
    FormWrites(Pair(NameField(), rest), And(CallFormat.SdkNameLegal, p), Both(ShortRun, x), MakeRefusal, OpenRefusal,
      SdkRefusalFits, SdkRefusalBytes);
    forall at: nat, v ensures WrittenAt(SdkRefusalField(), SdkRefusalLegal, SdkRefusalBytes, at, v) {
      WritesAt(SdkRefusalField(), SdkRefusalFits, SdkRefusalBytes, at, v);
      LongEnough(v);
    }
    assert Writes(SdkRefusalField(), SdkRefusalLegal, SdkRefusalBytes) by {
      WritesFrom(SdkRefusalField(), SdkRefusalLegal, SdkRefusalBytes);
    }
  }

  lemma LongEnough(r: SdkRefusal)
    ensures |SdkRefusalBytes(r)| >= |r.message|
  {
    hide CallFormat.ValueBytes;
  }

  predicate SdkRefusalFits(r: SdkRefusal) { SdkRefusalLegal(r) && |r.message| <= 0xFFFF_FFFF }

  lemma WritesFrom<T(!new)>(c: Codec<T>, legal: T -> bool, bytes: T -> seq<byte>)
    requires forall at: nat, v :: WrittenAt(c, legal, bytes, at, v)
    ensures Writes(c, legal, bytes)
  {
  }

  predicate CommitsLegal(cs: seq<CommitRecord>) { AllLegal(CommitLegal, cs) && |cs| <= 32 }
  predicate BranchesLegal(bs: seq<BranchRecord>) { |bs| <= 32 }

  lemma CommitsWrite()
    ensures Writes(Records(CommitField()), CommitsLegal, CommitsBytes)
  {
    hide Writes, CommitField, CommitBytes, CommitLegal, Listed, Counted, Checked;
    CommitWrites();
    ListWrites(CommitField(), CommitLegal, CommitBytes);
    CheckedWrites(Listed(CommitField(), KeepAll), Each(CommitLegal), Counted(CommitBytes), InPage, CommitsLegal);
    WritesAlso(Records(CommitField()), CommitsLegal, Counted(CommitBytes), CommitsLegal, CommitsBytes);
  }

  lemma BranchesWrite()
    ensures Writes(Records(BranchField()), BranchesLegal, BranchesBytes)
  {
    hide Writes, BranchField, BranchBytes, Listed, Counted, Checked;
    BranchWrites();
    ListWrites(BranchField(), Always(), BranchBytes);
    forall bs: seq<BranchRecord> ensures AllLegal(Always(), bs) {
      AllAlways(bs);
    }
    CheckedWrites(Listed(BranchField(), KeepAll), Each(Always()), Counted(BranchBytes), InPage, BranchesLegal);
    WritesAlso(Records(BranchField()), BranchesLegal, Counted(BranchBytes), BranchesLegal, BranchesBytes);
  }

  lemma {:induction false} AllAlways<T>(vs: seq<T>)
    ensures AllLegal(Always(), vs)
  {
    if vs != [] {
      AllAlways(vs[1..]);
    }
  }

  // Replies without a merge report

  lemma TokenRepliesWrite()
    ensures Writes(BoundForm(), ReplyLegal, ReplyBody) && Writes(UnmountedForm(), ReplyLegal, ReplyBody)
    ensures Writes(CleanupForm(), ReplyLegal, ReplyBody)
  {
    hide Writes, Pair, TokenField, BindingField, CleanupStateField, TokenBytes, BindingBytes, StateByte, TokenLegal;
    TokenWrites();
    BindingWrites();
    StateWrites();
    PairWritesAs(TokenField(), TokenLegal, TokenBytes, BindingField(), Always(), BindingBytes);
    PairWritesAs(TokenField(), TokenLegal, TokenBytes, CleanupStateField(), Always(), StateByte);
    FormWrites(Pair(TokenField(), BindingField()), And(TokenLegal, Always()), Both(TokenBytes, BindingBytes),
      MakeBound, OpenBound, ReplyLegal, ReplyBody);
    FormWrites(TokenField(), TokenLegal, TokenBytes, MakeUnmounted, OpenUnmounted, ReplyLegal, ReplyBody);
    FormWrites(Pair(TokenField(), CleanupStateField()), And(TokenLegal, Always()), Both(TokenBytes, StateByte),
      MakeCleanup, OpenCleanup, ReplyLegal, ReplyBody);
  }

  lemma RecordRepliesWrite()
    ensures Writes(CommitForm(), ReplyLegal, ReplyBody) && Writes(ForkedForm(), ReplyLegal, ReplyBody)
    ensures Writes(RefusedForm(), ReplyLegal, ReplyBody)
  {
    hide Writes, OutcomeField, BindingField, RefusalField, OutcomeBytes, BindingBytes, RefusalBytes;
    hide OutcomeLegal, RefusalLegal;
    OutcomeWrites();
    BindingWrites();
    RefusalWrites();
    FormWrites(OutcomeField(), OutcomeLegal, OutcomeBytes, MakeCommit, OpenCommit, ReplyLegal, ReplyBody);
    FormWrites(BindingField(), Always(), BindingBytes, MakeForked, OpenForked, ReplyLegal, ReplyBody);
    FormWrites(RefusalField(), RefusalLegal, RefusalBytes, MakeRefused, OpenRefused, ReplyLegal, ReplyBody);
  }

  lemma StatusRepliesWrite()
    ensures Writes(StatusForm(), ReplyLegal, ReplyBody) && Writes(MountedForm(), ReplyLegal, ReplyBody)
  {
    hide Writes, Pair, StatusField, MountField, Optional, StatusBytes, MountBytes, MountOption, StatusLegal, MountLegal;
    StatusWrites();
    MountWrites();
    PairWritesAs(StatusField(), StatusLegal, StatusBytes, MountField(), MountLegal, MountBytes);
    FormWrites(StatusField(), StatusLegal, StatusBytes, MakeStatus, OpenStatus, ReplyLegal, ReplyBody);
    FormWrites(Pair(StatusField(), MountField()), And(StatusLegal, MountLegal), Both(StatusBytes, MountBytes),
      MakeMounted, OpenMounted, ReplyLegal, ReplyBody);
  }

  lemma LocatedWrites()
    ensures Writes(LocatedForm(), ReplyLegal, ReplyBody)
  {
    hide Writes, Pair, StatusField, MountField, Optional, StatusBytes, MountBytes, MountOption, StatusLegal, MountLegal;
    var c, p, x := Pair(StatusField(), Optional(MountField())), And(StatusLegal, MountOptionLegal),
      Both(StatusBytes, MountOption);
    StatusWrites();
    MountOptionWrites();
    PairWritesAs(StatusField(), StatusLegal, StatusBytes, Optional(MountField()), MountOptionLegal, MountOption);
    forall v | OpenLocated(v).Some?
      ensures ReplyBody(v) == x(OpenLocated(v).value) && ReplyLegal(v) == p(OpenLocated(v).value) {
    }
    FormWrites(c, p, x, MakeLocated, OpenLocated, ReplyLegal, ReplyBody);
  }

  lemma CustodyRepliesWrite()
    ensures Writes(CustodyForm(), ReplyLegal, ReplyBody) && Writes(ForcedForm(), ReplyLegal, ReplyBody)
  {
    hide Writes, UnforcedField, CustodyField, ForcedField, CustodyBytes, ForcedBytes, UnforcedLegal, ForcedLegal;
    CustodyWrites();
    ForcedWrites();
    FormWrites(UnforcedField(), UnforcedLegal, CustodyBytes, MakeCustody, OpenCustody, ReplyLegal, ReplyBody);
    FormWrites(ForcedField(), ForcedLegal, ForcedBytes, MakeForced, OpenForced, ReplyLegal, ReplyBody);
  }

  lemma ForcedCustodyWrites()
    ensures Writes(ForcedCustodyForm(), ReplyLegal, ReplyBody)
  {
    hide Writes, Pair, CustodyField, UnforcedField, FactsField, CustodyBytes, FactsBytes, CustodyLegal, FactsLegal;
    CustodyWrites();
    FactsWrite();
    PairWritesAs(CustodyField(), CustodyLegal, CustodyBytes, FactsField(), FactsLegal, FactsBytes);
    FormWrites(Pair(CustodyField(), FactsField()), And(CustodyLegal, FactsLegal), Both(CustodyBytes, FactsBytes),
      MakeForcedCustody, OpenForcedCustody, ReplyLegal, ReplyBody);
  }

  lemma ReceiptRepliesWrite()
    ensures Writes(HelloForm(), ReplyLegal, ReplyBody) && Writes(ReadyForm(), ReplyLegal, ReplyBody)
    ensures Writes(Only(SessionEnded), ReplyLegal, ReplyBody)
  {
    hide Writes, DaemonField, ReadyField, Only, DaemonBytes, ReadyBytes, DaemonLegal, ReadyLegal;
    DaemonWrites();
    ReadyWrites();
    FormWrites(DaemonField(), DaemonLegal, DaemonBytes, MakeHello, OpenHello, ReplyLegal, ReplyBody);
    FormWrites(ReadyField(), ReadyLegal, ReadyBytes, MakeReady, OpenReady, ReplyLegal, ReplyBody);
    OnlyWrites(SessionEnded, ReplyLegal, ReplyBody);
  }

  lemma HistoryWrites()
    ensures Writes(HistoryForm(), ReplyLegal, ReplyBody)
  {
    hide Writes, Pair, Records, CommitField, BranchField, CursorField, CommitsBytes, BranchesBytes, TextBytes;
    hide AllLegal;
    var p, x := And(CommitsLegal, CursorLegal), Both(CommitsBytes, TextBytes);
    CursorWrites();
    CommitsWrite();
    PairWritesAs(Records(CommitField()), CommitsLegal, CommitsBytes, CursorField(), CursorLegal, TextBytes);
    forall v | OpenHistory(v).Some?
      ensures ReplyBody(v) == x(OpenHistory(v).value) && ReplyLegal(v) == p(OpenHistory(v).value) {
      var page := OpenHistory(v).value;
      assert p(page) == (CommitsLegal(page.0) && CursorLegal(page.1));
    }
    FormWrites(PageParts(CommitField()), p, x, MakeHistory, OpenHistory, ReplyLegal, ReplyBody);
  }

  lemma BranchPageWrites()
    ensures Writes(BranchesForm(), ReplyLegal, ReplyBody)
  {
    hide Writes, Pair, Records, CommitField, BranchField, CursorField, CommitsBytes, BranchesBytes, TextBytes;
    hide AllLegal;
    var p, x := And(BranchesLegal, CursorLegal), Both(BranchesBytes, TextBytes);
    CursorWrites();
    BranchesWrite();
    PairWritesAs(Records(BranchField()), BranchesLegal, BranchesBytes, CursorField(), CursorLegal, TextBytes);
    forall v | OpenBranches(v).Some?
      ensures ReplyBody(v) == x(OpenBranches(v).value) && ReplyLegal(v) == p(OpenBranches(v).value) {
      var page := OpenBranches(v).value;
      assert p(page) == (BranchesLegal(page.0) && CursorLegal(page.1));
    }
    FormWrites(PageParts(BranchField()), p, x, MakeBranches, OpenBranches, ReplyLegal, ReplyBody);
  }

  lemma SdkRepliesWrite()
    ensures Writes(SdkForm(), ReplyLegal, ReplyBody) && Writes(SdkRefusedForm(), ReplyLegal, ReplyBody)
  {
    hide Writes, SdkValue.ValueField, SdkRefusalField, CallFormat.ValueBytes, CallFormat.ValueLegal, SdkRefusalBytes;
    CallFormat.ValueWrites();
    SdkRefusalWrites();
    FormWrites(SdkValue.ValueField(), CallFormat.TopLegal(), CallFormat.ValueBytes, MakeSdk, OpenSdk, ReplyLegal,
      ReplyBody);
    FormWrites(SdkRefusalField(), SdkRefusalLegal, SdkRefusalBytes, MakeSdkRefused, OpenSdkRefused, ReplyLegal,
      ReplyBody);
  }

  predicate MergeTag(n: int) { n == 18 || n == 19 || n == 22 }

  lemma PlainFormWrites(n: byte)
    requires !MergeTag(n)
    ensures Writes(PlainForm(n), ReplyLegal, ReplyBody)
  {
    hide Writes, BoundForm, CommitForm, StatusForm, UnmountedForm, ForkedForm, HistoryForm;
    hide RefusedForm, HelloForm, ReadyForm, LocatedForm, CustodyForm;
    hide MountedForm, ForcedForm, ForcedCustodyForm, CleanupForm, BranchesForm, MergedForm, ConflictForm, SdkForm;
    hide SdkRefusedForm, DirtyForm, Only, Refused;
    TokenRepliesWrite();
    RecordRepliesWrite();
    StatusRepliesWrite();
    LocatedWrites();
    CustodyRepliesWrite();
    ForcedCustodyWrites();
    ReceiptRepliesWrite();
    HistoryWrites();
    BranchPageWrites();
    SdkRepliesWrite();
    RefusedWrites(ReplyLegal, ReplyBody);
  }

  /** What arrives has the bytes of what was sent. */
  lemma ReplySame(r: Reply, s: Reply)
    requires Sent(r, s) && !Merges(r) && !r.Observed?
    ensures ReplyBody(s) == ReplyBody(r)
  {
    hide OutcomeBytes, OutcomePlain, StatusBytes, StatusSent, MountBytes, RefusalBytes, RefusalSent, FactsBytes;
    hide FactsSent, CommitBytes, CommitSent, EachR, Concat, KnowledgeBytes, KnowledgeSent;
    match r
    case CommitReply(o) => OutcomeArrives(o);
    case StatusReply(w) => StatusSame(w.body, s.status.body);
    case Located(w) => StatusSame(w.body, s.status.body);
    case HistoryPage(p) => CommitsArrive(p.records, s.commits.records);
    case RefusedReply(f) => RefusalSame(f, s.refusal);
    case Retained(c) =>
      if c.forced.Some? {
        FactsSame(c.forced.value, s.custody.forced.value);
      }
    case ForcedReply(f) => FactsSame(f.facts, s.unmounted.facts);
    case _ =>
  }

  lemma OutcomeArrives(o: CommitOutcome)
    ensures OutcomeBytes(OutcomePlain(o)) == OutcomeBytes(o)
  {
    OutcomeSame(Some(o), Some(OutcomePlain(o)));
  }

  lemma CommitsArrive(cs: seq<CommitRecord>, ds: seq<CommitRecord>)
    requires EachR(CommitSent, cs, ds)
    ensures CommitsBytes(ds) == CommitsBytes(cs)
  {
    CommitsSame(cs, ds);
  }

  // Every reply

  lemma MergeRepliesSpell()
    ensures Spells(MergedForm(), ReplyBody) && Spells(ConflictForm(), ReplyBody) && Spells(DirtyForm(), ReplyBody)
  {
    hide Spells, MergedField, ReportField, DirtyField, MergedBytes, ReportBytes, DirtyBytes;
    MergedSpells();
    ReportSpells();
    DirtySpells();
    FormSpells(MergedField(), MergedBytes, MakeMerged, OpenMerged, ReplyBody);
    FormSpells(ReportField(), ReportBytes, MakeConflict, OpenConflict, ReplyBody);
    FormSpells(DirtyField(), DirtyBytes, MakeDirty, OpenDirty, ReplyBody);
  }

  lemma PlainForms()
    ensures PlainForm(23) == Refused() && PlainForm(18) == MergedForm() && PlainForm(19) == ConflictForm()
    ensures PlainForm(22) == DirtyForm()
  {
    hide BoundForm, CommitForm, StatusForm, UnmountedForm, ForkedForm, HistoryForm;
    hide RefusedForm, HelloForm, ReadyForm, LocatedForm, CustodyForm;
    hide MountedForm, ForcedForm, ForcedCustodyForm, CleanupForm, BranchesForm, MergedForm, ConflictForm, SdkForm;
    hide SdkRefusedForm, DirtyForm, Only, Refused;
  }

  lemma NothingIsRefused(r: Reply)
    ensures !Refused<Reply>().ok(r)
  {
  }

  lemma InnerIsPlain(r: Reply)
    requires PlainField().ok(r)
    ensures !r.Observed?
  {
    hide PlainForm, Refused, Choice;
    if r.Observed? {
      ChoiceOk(ReplyTag, PlainForm, r);
      PlainForms();
      NothingIsRefused(r);
    }
  }

  lemma UnmergedFormSpells(n: byte)
    requires !MergeTag(n) && n != 23
    ensures Spells(PlainForm(n), ReplyBody)
  {
    hide Writes, Spells, Lawful, Becomes, Holds, PlainForm, ReplyBody, Sent, ReplyLegal;
    PlainFormWrites(n);
    PlainFormLaw(n);
    forall at: nat, v ensures SpelledAt(PlainForm(n), ReplyBody, at, v) {
      UnmergedSpells(PlainForm(n), n, at, v);
    }
    SpellsFrom(PlainForm(n), ReplyBody);
  }

  lemma PlainFormSpells(n: byte)
    ensures Spells(PlainForm(n), ReplyBody)
  {
    hide Spells, PlainForm, MergedForm, ConflictForm, DirtyForm, ReplyBody, Refused;
    PlainForms();
    if n == 23 {
      RefusedSpells(ReplyBody);
    } else if MergeTag(n) {
      MergeRepliesSpell();
    } else {
      UnmergedFormSpells(n);
    }
  }

  lemma SpellsFrom<T(!new)>(c: Codec<T>, bytes: T -> seq<byte>)
    requires forall at: nat, v :: SpelledAt(c, bytes, at, v)
    ensures Spells(c, bytes)
  {
  }

  lemma UnmergedSpells(c: Codec<Reply>, n: byte, at: nat, v: Reply)
    requires Writes(c, ReplyLegal, ReplyBody) && Becomes(c, Sent) && Holds(c, ReplyTag, n)
    requires !MergeTag(n) && n != 23
    ensures SpelledAt(c, ReplyBody, at, v)
  {
    hide Writes, Becomes, Holds, ReplyBody, ReplyLegal, Sent;
    WritesAt(c, ReplyLegal, ReplyBody, at, v);
    if at <= LIMIT && c.ok(v) && c.put(at, v).Some? {
      HoldsAt(c, ReplyTag, n, v);
      BecomesAt(c, Sent, at, v);
      ReplySame(v, c.norm(at, v));
    }
  }

  lemma PlainSpells()
    ensures Spells(PlainField(), ReplyBytes)
  {
    hide Lawful, Spells, Becomes, Holds, PlainForm, ReplyBody;
    forall n: byte ensures Lawful(PlainForm(n)) && Spells(PlainForm(n), ReplyBody) {
      PlainFormSpells(n);
      PlainFormLaw(n);
    }
    forall n: byte, r | PlainForm(n).ok(r) ensures ReplyTag(r) == n {
      PlainFormLaw(n);
      HoldsAt(PlainForm(n), ReplyTag, n, r);
    }
    ChoiceSpells(ReplyTag, PlainForm, ReplyBody, ReplyBytes);
  }

  lemma ValueSpells()
    ensures Spells(SdkValue.ValueField(), CallFormat.ValueBytes)
  {
    hide Writes, Spells, Lawful, Exact, SdkValue.ValueField;
    CallFormat.ValueWrites();
    SdkValue.ValueFieldLaw();
    WritesSpells(SdkValue.ValueField(), CallFormat.TopLegal(), CallFormat.ValueBytes);
  }

  lemma ObservedFormSpells()
    ensures Spells(ObservedForm(), ReplyBody)
  {
    hide Spells, Pair, SdkValue.ValueField, PlainField, CallFormat.ValueBytes;
    ValueSpells();
    PlainSpells();
    PairSpells(SdkValue.ValueField(), CallFormat.ValueBytes, PlainField(), ReplyBytes);
    FormSpells(Pair(SdkValue.ValueField(), PlainField()), Both(CallFormat.ValueBytes, ReplyBytes), MakeObserved,
      OpenObserved, ReplyBody);
  }

  lemma ReplySpells()
    ensures Spells(ReplyField(), ReplyBytes)
  {
    hide Lawful, Spells, Becomes, Holds, PlainForm, ObservedForm, ReplyBody;
    ObservedFormSpells();
    ObservedFormLaw();
    forall n: byte ensures Lawful(ReplyForm(n)) && Spells(ReplyForm(n), ReplyBody) {
      PlainFormSpells(n);
      PlainFormLaw(n);
    }
    forall n: byte, r | ReplyForm(n).ok(r) ensures ReplyTag(r) == n {
      PlainFormLaw(n);
      HoldsAt(ReplyForm(n), ReplyTag, n, r);
    }
    ChoiceSpells(ReplyTag, ReplyForm, ReplyBody, ReplyBytes);
  }

  // Which replies are written

  lemma PlainIsWritten(at: nat, r: Reply)
    requires !Merges(r) && !r.Observed?
    ensures WrittenAt(PlainField(), ReplyLegal, ReplyBytes, at, r)
  {
    hide Writes, PlainForm, ReplyLegal, ReplyBody;
    PlainFormWrites(ReplyTag(r));
    WritesAt(PlainForm(ReplyTag(r)), ReplyLegal, ReplyBody, at + 1, r);
    ChoiceIsWritten(ReplyTag, PlainForm, ReplyLegal, ReplyBody, ReplyBytes, at, r);
  }

  lemma PairIsWritten<A(!new), B(!new)>(
    a: Codec<A>, p: A -> bool, x: A -> seq<byte>, b: Codec<B>, q: B -> bool, y: B -> seq<byte>, at: nat, v: (A, B))
    requires WrittenAt(a, p, x, at, v.0)
    requires b.ok(v.1) ==> WrittenAt(b, q, y, at + |x(v.0)|, v.1)
    ensures WrittenAt(Pair(a, b), And(p, q), Both(x, y), at, v)
  {
  }

  lemma FormIsWritten<A(!new), T(!new)>(
    c: Codec<A>, p: A -> bool, x: A -> seq<byte>, mk: A -> T, un: T -> Option<A>, legal: T -> bool,
    bytes: T -> seq<byte>, at: nat, v: T)
    requires un(v).Some? && WrittenAt(c, p, x, at, un(v).value)
    requires bytes(v) == x(un(v).value) && legal(v) == p(un(v).value)
    ensures WrittenAt(Form(c, mk, un), legal, bytes, at, v)
  {
  }

  lemma ObservedIsWritten(at: nat, r: Reply)
    requires r.Observed? && !Merges(r)
    ensures WrittenAt(ObservedForm(), ReplyLegal, ReplyBody, at, r)
  {
    hide Writes, Pair, Form, SdkValue.ValueField, PlainField, CallFormat.ValueBytes, CallFormat.ValueLegal, WrittenAt;
    var c, v := SdkValue.ValueField(), (r.telemetry, r.reply);
    var p, x := And(CallFormat.TopLegal(), ReplyLegal), Both(CallFormat.ValueBytes, ReplyBytes);
    CallFormat.ValueWrites();
    WritesAt(c, CallFormat.TopLegal(), CallFormat.ValueBytes, at, r.telemetry);
    if PlainField().ok(r.reply) {
      InnerIsPlain(r.reply);
      PlainIsWritten(at + |CallFormat.ValueBytes(r.telemetry)|, r.reply);
    }
    PairIsWritten(c, CallFormat.TopLegal(), CallFormat.ValueBytes, PlainField(), ReplyLegal, ReplyBytes, at, v);
    FormIsWritten(Pair(c, PlainField()), p, x, MakeObserved, OpenObserved, ReplyLegal, ReplyBody, at, r);
  }

  lemma ReplyIsWritten(at: nat, r: Reply)
    requires !Merges(r)
    ensures WrittenAt(ReplyField(), ReplyLegal, ReplyBytes, at, r)
  {
    hide Writes, PlainForm, ObservedForm, ReplyLegal, ReplyBody;
    if r.Observed? {
      ObservedIsWritten(at + 1, r);
    } else {
      PlainFormWrites(ReplyTag(r));
      WritesAt(PlainForm(ReplyTag(r)), ReplyLegal, ReplyBody, at + 1, r);
    }
    ChoiceIsWritten(ReplyTag, ReplyForm, ReplyLegal, ReplyBody, ReplyBytes, at, r);
  }

  lemma ChoiceIsWritten<T(!new)>(
    tag: T -> int, form: int -> Codec<T>, legal: T -> bool, body: T -> seq<byte>, bytes: T -> seq<byte>, at: nat, v: T)
    requires 0 <= tag(v) < 256 && bytes(v) == [tag(v)] + body(v)
    requires WrittenAt(form(tag(v)), legal, body, at + 1, v)
    ensures WrittenAt(Choice(tag, form), legal, bytes, at, v)
  {
  }

  // Answers

  function AnswerBody(a: Answer): seq<byte> { Eight(a.id) + ReplyBytes(a.reply) }

  /** The whole record: "LFSA", version two, the number of the call, the tag and the fields. */
  function AnswerBytes(a: Answer): seq<byte> { [76, 70, 83, 65, 2] + AnswerBody(a) }

  lemma CorrelationSpells()
    ensures Spells(CorrelationField(), Eight)
  {
    hide Spells, U64, Eight, Checked, HeadField, TokenField, Boolean;
    PlainFieldsSpell();
    CheckedSpells(U64(), Positive, Eight);
  }

  lemma AnswerSpells()
    ensures Spells(AnswerField(), AnswerBody)
  {
    hide Spells, Pair, CorrelationField, ReplyField, Eight, ReplyBytes;
    CorrelationSpells();
    ReplySpells();
    PairSpells(CorrelationField(), Eight, ReplyField(), ReplyBytes);
    ViaSpells(Pair(CorrelationField(), ReplyField()), Both(Eight, ReplyBytes), AnswerDown, AnswerUp, AnswerBody);
  }

  predicate AnswerLegal(a: Answer) { a.id > 0 && ReplyLegal(a.reply) }

  /** Without a merge report, exactly the legal answers are written that fit in 65,519 bytes, as their bytes. */
  lemma AnswerIsWritten(a: Answer)
    requires AnswerField().ok(a) && !Merges(a.reply)
    ensures EncodeAnswer(a) == if AnswerLegal(a) && |AnswerBytes(a)| <= 65519 then Some(AnswerBytes(a)) else None
  {
    hide Pair, ReplyField, CorrelationField, ReplyLegal, ReplyBytes, Writes, Eight;
    var c := Pair(CorrelationField(), ReplyField());
    PairOk(CorrelationField(), ReplyField(), AnswerDown(a));
    PairPut(CorrelationField(), ReplyField(), 5, AnswerDown(a));
    CorrelationWrites();
    WritesAt(CorrelationField(), Positive, Eight, 5, a.id);
    ReplyIsWritten(13, a.reply);
    assert |Eight(a.id)| == 8 by {
      EightBytes(a.id);
    }
  }

  lemma EightBytes(n: int)
    ensures |Eight(n)| == 8
  {
  }

  lemma CorrelationWrites()
    ensures Writes(CorrelationField(), Positive, Eight)
  {
    hide Writes, U64, Eight, Checked;
    NumbersWrite();
    CheckedWrites(U64(), Always(), Eight, Positive, Positive);
  }

  /** What is sent for an answer are the bytes of the answer that arrives, at most 65,519 of them. */
  lemma AnswerIsItsBytes(a: Answer, record: seq<byte>)
    requires AnswerField().ok(a) && EncodeAnswer(a) == Some(record)
    ensures exists b :: DecodeAnswer(record) == Some(b)
    ensures forall b :: DecodeAnswer(record) == Some(b) ==>
      AnswerSent(a, b) && record == AnswerBytes(b) && |record| <= 65519
  {
    hide Lawful, Becomes, Spells, AnswerField, AnswerBody, AnswerSent;
    AnswerProjects(a);
    AnswerLaw();
    EncodedDecodes(AnswerField(), ANSWER_MAGIC, a);
    AnswerSpells();
    SpellsAt(AnswerField(), AnswerBody, 5, a);
  }
}
