/**
  The bytes of history and control records, with every width and number as it
  stands on the wire, and the conditions under which a record is written.
*/
module RecordBytes {
  import opened Wrappers
  import opened Bytes
  import opened Codec
  import opened HistoryRecords
  import opened ControlRecords
  import opened Spelling
  import Utf8

  // What a field can hold

  /** Of thirty-two bytes, not all are zero. */
  predicate Scoped(id: Id) { id != seq(32, i => 0) }

  lemma ScopedIs(id: Id)
    requires |id| == 32
    ensures NonZero(id) <==> Scoped(id)
  {
    if !NonZero(id) {
      assert forall k :: 0 <= k < |id| ==> id[k] == 0;
    }
  }

  predicate IsObject(id: Id) { |id| == 32 }
  predicate IsWorkspace(id: Id) { |id| == 32 && Scoped(id) }
  predicate IsBranch(id: Id) { |id| == 17 && id[0] == 0x11 }
  predicate IsCommit(id: Id) { |id| == 33 && id[0] == 0x12 }
  predicate IsStack(id: Id) { |id| == 17 && id[0] == 0x31 }
  predicate IsLayer(id: Id) { |id| == 33 && id[0] == 0x32 }
  predicate IsU16(n: int) { 0 <= n < 0x1_0000 }
  predicate IsU32(n: int) { 0 <= n < 0x1_0000_0000 }
  predicate IsU64(n: int) { 0 <= n < 0x1_0000_0000_0000_0000 }
  predicate IsI64(n: int) { -0x8000_0000_0000_0000 <= n < 0x8000_0000_0000_0000 }
  predicate Alnum(b: byte) { 'a' as int <= b <= 'z' as int || '0' as int <= b <= '9' as int }
  predicate Letter(b: byte) { Alnum(b) || b == '.' as int || b == '_' as int || b == '-' as int }
  predicate IsBranchName(s: seq<byte>) {
    1 <= |s| <= 63 && Alnum(s[0]) && Alnum(s[|s| - 1]) && forall k :: 0 <= k < |s| ==> Letter(s[k])
  }
  predicate IsToken(t: WorkspaceToken) { IsWorkspace(t.workspace) && IsI64(t.namespace) }
  predicate IsHead(id: Option<Id>) { id.Some? ==> IsCommit(id.value) }
  predicate IsNode(id: Option<Id>) { id.Some? ==> IsCommit(id.value) || IsLayer(id.value) }
  predicate IsText(s: Option<seq<byte>>) { s.Some? ==> Utf8.Valid(s.value) }

  lemma IdsAre(id: Id)
    ensures WorkspaceIdField().ok(id) <==> IsWorkspace(id)
    ensures BranchIdField().ok(id) <==> IsBranch(id)
    ensures CommitIdField().ok(id) <==> IsCommit(id)
    ensures StackIdField().ok(id) <==> IsStack(id)
    ensures LayerIdField().ok(id) <==> IsLayer(id)
    ensures NodeIdField().ok(id) <==> IsCommit(id) || IsLayer(id)
    ensures ObjectIdField().ok(id) <==> IsObject(id)
  {
    hide NonZero, Scoped;
    if |id| == 32 {
      ScopedIs(id);
    }
    assert AnyBytes(id);
  }

  lemma NamesAre(s: seq<byte>)
    ensures HistoryNameField().ok(s) <==> IsBranchName(s)
  {
    forall k | 0 <= k < |s|
      ensures Alphanumeric(s[k]) <==> Alnum(s[k])
      ensures Letter(s[k]) <==> Alnum(s[k]) || s[k] in {46, 95, 45} {
    }
    if IsBranchName(s) {
      forall k | 0 <= k < |s| ensures s[k] <= 0x7F {
        assert Letter(s[k]);
      }
      Utf8.AsciiIsValid(s);
    }
    assert HistoryNameField().ok(s) == NameText(s);
  }

  lemma NumbersAre(n: int)
    ensures U16().ok(n) <==> IsU16(n)
    ensures U32().ok(n) <==> IsU32(n)
    ensures U64().ok(n) <==> IsU64(n)
    ensures I64().ok(n) <==> IsI64(n)
  {
    hide Pow256;
    Widths();
    assert I64().ok(n) <==> U64().ok(Twist(n));
  }

  lemma TokensAre(t: WorkspaceToken)
    ensures TokenField().ok(t) <==> IsToken(t)
  {
    hide WorkspaceIdField, I64, IsWorkspace, IsI64;
    IdsAre(t.workspace);
    NumbersAre(t.namespace);
    PairOk(WorkspaceIdField(), NamespaceField(), TokenDown(t));
  }

  lemma OptionIs<T(!new)>(c: Codec<T>, v: Option<T>)
    ensures Optional(c).ok(v) <==> match v case None => true case Some(x) => c.ok(x)
  {
    OptionalNorm(c, 0, v);
  }

  lemma HeadsHold(id: Option<Id>)
    ensures HeadField().ok(id) <==> IsHead(id)
    ensures NodeField().ok(id) <==> IsNode(id)
  {
    hide CommitIdField, NodeIdField, IsCommit, IsLayer, Optional;
    OptionIs(CommitIdField(), id);
    OptionIs(NodeIdField(), id);
    if id.Some? {
      IdsAre(id.value);
    }
  }

  lemma TextsHold(s: Option<seq<byte>>)
    ensures CursorField().ok(s)
    ensures MessageField().ok(s) <==> IsText(s)
  {
    hide Optional, Utf8.Valid;
    var cursor := Checked(Run(2, CURSOR_BYTES, AnyBytes), CursorWidth);
    OptionIs(cursor, s);
    OptionIs(TextField(MAXIMUM_MESSAGE_BYTES), s);
    assert s.Some? ==> AnyBytes(s.value);
  }

  // Identities, tokens, heads and cursors

  lemma IdsWrite()
    ensures Writes(BranchIdField(), Always(), Plain()) && Writes(CommitIdField(), Always(), Plain())
    ensures Writes(StackIdField(), Always(), Plain()) && Writes(LayerIdField(), Always(), Plain())
    ensures Writes(NodeIdField(), Always(), Plain()) && Writes(WorkspaceIdField(), Always(), Plain())
    ensures Writes(ObjectIdField(), Always(), Plain())
  {
    hide Writes, Fixed;
    FixedWrites(17, id => Tagged(id, 0x11));
    FixedWrites(33, id => Tagged(id, 0x12));
    FixedWrites(17, id => Tagged(id, 0x31));
    FixedWrites(33, id => Tagged(id, 0x32));
    FixedWrites(33, id => Tagged(id, 0x12) || Tagged(id, 0x32));
    FixedWrites(32, NonZero);
    FixedWrites(32, AnyBytes);
  }

  lemma NameWrites()
    ensures Writes(HistoryNameField(), Always(), ShortRun)
  {
    RunWrites(63, NameText);
    var p := Upto(63);
    forall s: seq<byte> | HistoryNameField().ok(s) ensures p(s) {
      assert NameText(s);
    }
    AlwaysWrites(HistoryNameField(), p, ShortRun, ShortRun);
  }

  lemma TextWrites(maximum: nat)
    requires maximum < 0x1_0000
    ensures Writes(TextField(maximum), Upto(maximum), ShortRun)
  {
    hide Writes, Run;
    RunWrites(maximum, s => Utf8.Valid(s));
  }

  function TokenBytes(t: WorkspaceToken): seq<byte> { t.workspace + Signed(t.namespace) }
  predicate TokenLegal(t: WorkspaceToken) { t.namespace > 0 }

  lemma TokenWrites()
    ensures Writes(TokenField(), TokenLegal, TokenBytes)
  {
    hide Writes, WorkspaceIdField, I64, Pair, Checked;
    IdsWrite();
    NumbersWrite();
    CheckedWrites(I64(), Always(), Signed, Positive, Positive);
    PairWritesAs(WorkspaceIdField(), Always(), Plain(), NamespaceField(), Positive, Signed);
    ViaWrites(Pair(WorkspaceIdField(), NamespaceField()), And(Always(), Positive), Both(Plain(), Signed), TokenDown,
      TokenUp, TokenLegal, TokenBytes);
  }

  /** A missing identity is a zero, a present one follows a one. */
  function IdBytes(id: Option<Id>): seq<byte> { match id case None => [0] case Some(b) => [1] + b }

  lemma OptionalIdWrites(c: Codec<Id>)
    requires Writes(c, Always(), Plain())
    ensures Writes(Optional(c), Always(), IdBytes)
  {
    hide Writes, Optional;
    OptionalWrites(c, Always(), Plain());
    var p := Any(Always<Id>());
    forall v ensures p(v) && Maybe(Plain())(v) == IdBytes(v) {
    }
    AlwaysWrites(Optional(c), p, Maybe(Plain()), IdBytes);
  }

  lemma HeadsWrite()
    ensures Writes(HeadField(), Always(), IdBytes) && Writes(NodeField(), Always(), IdBytes)
  {
    hide Writes, CommitIdField, NodeIdField;
    IdsWrite();
    OptionalIdWrites(CommitIdField());
    OptionalIdWrites(NodeIdField());
  }

  function TextBytes(s: Option<seq<byte>>): seq<byte> { match s case None => [0] case Some(b) => [1] + ShortRun(b) }
  predicate CursorLegal(s: Option<seq<byte>>) { s.Some? ==> |s.value| == 160 }

  lemma CursorWrites()
    ensures Writes(CursorField(), CursorLegal, TextBytes)
  {
    var field := Checked(Run(2, CURSOR_BYTES, AnyBytes), CursorWidth);
    assert Writes(field, CursorWidth, ShortRun) by {
      hide Writes, Run;
      RunWrites(CURSOR_BYTES, AnyBytes);
      CheckedWrites(Run(2, CURSOR_BYTES, AnyBytes), Upto(160), ShortRun, CursorWidth, CursorWidth);
    }
    OptionalWrites(field, CursorWidth, ShortRun);
    hide Writes, Optional, ShortRun, Checked;
    var p := Any(CursorWidth);
    forall v ensures p(v) == CursorLegal(v) && Maybe(ShortRun)(v) == TextBytes(v) {
      assert v.Some? ==> CursorWidth(v.value) == (|v.value| == 160);
    }
    WritesAlso(Optional(field), p, Maybe(ShortRun), CursorLegal, TextBytes);
  }

  predicate MessageLegal(s: Option<seq<byte>>) { s.Some? ==> |s.value| <= 4096 }

  lemma MessageWrites()
    ensures Writes(MessageField(), MessageLegal, TextBytes)
  {
    TextWrites(MAXIMUM_MESSAGE_BYTES);
    OptionalWrites(TextField(MAXIMUM_MESSAGE_BYTES), Upto(4096), ShortRun);
    hide Writes, Optional, ShortRun;
    var p := Any(Upto(4096));
    forall v ensures p(v) == MessageLegal(v) && Maybe(ShortRun)(v) == TextBytes(v) {
    }
    WritesAlso(MessageField(), p, Maybe(ShortRun), MessageLegal, TextBytes);
  }

  // Branches

  function BranchBytes(b: BranchRecord): seq<byte> {
    (b.id + b.stack) + ((ShortRun(b.name) + b.baseLayer) + (IdBytes(b.headCommit) + IdBytes(b.forkedFrom)))
  }

  lemma BranchWrites()
    ensures Writes(BranchField(), Always(), BranchBytes)
  {
    hide Writes, Pair, BranchIdField, StackIdField, HistoryNameField, LayerIdField, HeadField, NodeField, ShortRun;
    IdsWrite();
    NameWrites();
    HeadsWrite();
    BothWrite(BranchIdField(), Plain(), StackIdField(), Plain());
    BothWrite(HistoryNameField(), ShortRun, LayerIdField(), Plain());
    BothWrite(HeadField(), IdBytes, NodeField(), IdBytes);
    BothWrite(Pair(HistoryNameField(), LayerIdField()), Both(ShortRun, Plain()), Pair(HeadField(), NodeField()),
      Both(IdBytes, IdBytes));
    var ends := Both(Both(ShortRun, Plain()), Both(IdBytes, IdBytes));
    BothWrite(Pair(BranchIdField(), StackIdField()), Both(Plain(), Plain()),
      Pair(Pair(HistoryNameField(), LayerIdField()), Pair(HeadField(), NodeField())), ends);
    ViaWrites(BranchParts(), Always(), Both(Both(Plain(), Plain()), ends), BranchDown, BranchUp, Always(), BranchBytes);
  }

  /** Two fields that are always written are always written one after the other. */
  lemma BothWrite<A(!new), B(!new)>(a: Codec<A>, x: A -> seq<byte>, b: Codec<B>, y: B -> seq<byte>)
    requires Writes(a, Always(), x) && Writes(b, Always(), y)
    ensures Writes(Pair(a, b), Always(), Both(x, y))
  {
    hide Writes;
    PairWritesAs(a, Always(), x, b, Always(), y);
    var p := And(Always<A>(), Always<B>());
    forall v ensures p(v) {
    }
    AlwaysWrites(Pair(a, b), p, Both(x, y), Both(x, y));
  }

  function BindingBytes(b: BranchSnapshot): seq<byte> {
    (BranchBytes(b.branch) + IdBytes(b.headRoot)) + ((b.baseRoot + b.effectiveRoot) + (b.scope + b.profile))
  }

  lemma BindingWrites()
    ensures Writes(BindingField(), Always(), BindingBytes)
  {
    hide Writes, Pair, Optional, BranchField, ObjectIdField, BranchBytes;
    IdsWrite();
    BranchWrites();
    OptionalIdWrites(ObjectIdField());
    BothWrite(BranchField(), BranchBytes, Optional(ObjectIdField()), IdBytes);
    BothWrite(ObjectIdField(), Plain(), ObjectIdField(), Plain());
    var two := Both(Plain(), Plain());
    BothWrite(Pair(ObjectIdField(), ObjectIdField()), two, Pair(ObjectIdField(), ObjectIdField()), two);
    BothWrite(Pair(BranchField(), Optional(ObjectIdField())), Both(BranchBytes, IdBytes),
      Pair(Pair(ObjectIdField(), ObjectIdField()), Pair(ObjectIdField(), ObjectIdField())), Both(two, two));
    ViaWrites(BindingParts(), Always(), Both(Both(BranchBytes, IdBytes), Both(two, two)), BindingDown, BindingUp,
      Always(), BindingBytes);
  }

  function MovedBytes(m: MovedState): seq<byte> {
    (IdBytes(m.expectedHead) + IdBytes(m.actualHead)) + (m.expectedBase + m.actualBase)
  }

  lemma MovedWrites()
    ensures Writes(MovedField(), Always(), MovedBytes)
  {
    hide Writes, Pair, HeadField, LayerIdField;
    IdsWrite();
    HeadsWrite();
    BothWrite(HeadField(), IdBytes, HeadField(), IdBytes);
    BothWrite(LayerIdField(), Plain(), LayerIdField(), Plain());
    var heads, bases := Pair(HeadField(), HeadField()), Pair(LayerIdField(), LayerIdField());
    BothWrite(heads, Both(IdBytes, IdBytes), bases, Both(Plain(), Plain()));
    ViaWrites(Pair(heads, bases), Always(), Both(Both(IdBytes, IdBytes), Both(Plain(), Plain())), MovedDown, MovedUp,
      Always(), MovedBytes);
  }

  // Mounts

  function ReceiptBytes(r: MountReceipt): seq<byte> {
    ((Eight(r.mount) + (Eight(r.root) + Eight(r.mountId)))
      + ((Four(r.deviceMajor) + Four(r.deviceMinor)) + (Four(r.abiMajor) + Four(r.abiMinor))))
    + (((Eight(r.offered) + Eight(r.selected)) + (Four(r.maxWrite) + Four(r.maxReadahead)))
      + ((Two(r.maxBackground) + Two(r.congestionThreshold))
        + (Four(r.pageSize) + (Two(r.loops) + Flag(r.abortBound)))))
  }

  lemma ReceiptLowWrites()
    ensures Writes(ReceiptLowParts(), Always(),
      Both(Both(Eight, Both(Eight, Eight)), Both(Both(Four, Four), Both(Four, Four))))
  {
    hide Writes, Pair, U64, U32, Eight, Four;
    var longs, words := Pair(U64(), U64()), Pair(U32(), U32());
    NumbersWrite();
    BothWrite(U64(), Eight, U64(), Eight);
    BothWrite(U64(), Eight, longs, Both(Eight, Eight));
    BothWrite(U32(), Four, U32(), Four);
    BothWrite(words, Both(Four, Four), words, Both(Four, Four));
    BothWrite(Pair(U64(), longs), Both(Eight, Both(Eight, Eight)), Pair(words, words),
      Both(Both(Four, Four), Both(Four, Four)));
  }

  lemma ReceiptHighWrites()
    ensures Writes(ReceiptHighParts(), Always(),
      Both(Both(Both(Eight, Eight), Both(Four, Four)), Both(Both(Two, Two), Both(Four, Both(Two, Flag)))))
  {
    hide Writes, Pair, U64, U32, U16, Boolean, Eight, Four, Two, Flag;
    var longs, words, halves := Pair(U64(), U64()), Pair(U32(), U32()), Pair(U16(), U16());
    NumbersWrite();
    BooleanWrites();
    BothWrite(U64(), Eight, U64(), Eight);
    BothWrite(U32(), Four, U32(), Four);
    BothWrite(U16(), Two, U16(), Two);
    BothWrite(U16(), Two, Boolean(), Flag);
    BothWrite(U32(), Four, Pair(U16(), Boolean()), Both(Two, Flag));
    BothWrite(longs, Both(Eight, Eight), words, Both(Four, Four));
    var last := Pair(U32(), Pair(U16(), Boolean()));
    BothWrite(halves, Both(Two, Two), last, Both(Four, Both(Two, Flag)));
    BothWrite(Pair(longs, words), Both(Both(Eight, Eight), Both(Four, Four)), Pair(halves, last),
      Both(Both(Two, Two), Both(Four, Both(Two, Flag))));
  }

  lemma ReceiptWrites()
    ensures Writes(ReceiptField(), Always(), ReceiptBytes)
  {
    hide Writes, Pair, ReceiptLowParts, ReceiptHighParts, Eight, Four, Two, Flag;
    var low := Both(Both(Eight, Both(Eight, Eight)), Both(Both(Four, Four), Both(Four, Four)));
    var high := Both(Both(Both(Eight, Eight), Both(Four, Four)), Both(Both(Two, Two), Both(Four, Both(Two, Flag))));
    ReceiptLowWrites();
    ReceiptHighWrites();
    BothWrite(ReceiptLowParts(), low, ReceiptHighParts(), high);
    ViaWrites(Pair(ReceiptLowParts(), ReceiptHighParts()), Always(), Both(low, high), ReceiptDown, ReceiptUp,
      Always(), ReceiptBytes);
  }

  function ReadyBytes(r: ReadyMount): seq<byte> {
    TokenBytes(r.token) + (ShortRun(r.directory) + ReceiptBytes(r.receipt))
  }
  predicate ReadyLegal(r: ReadyMount) {
    TokenLegal(r.token) && 0 < |r.directory| <= 1024 && r.receipt.mount != 0 && r.receipt.root != 0
  }
  predicate ReadyFits(r: ReadyMount) { TokenLegal(r.token) && |r.directory| <= 1024 }

  lemma ReadyWrites()
    ensures Writes(ReadyField(), ReadyLegal, ReadyBytes)
  {
    hide Writes, Pair, TokenField, TextField, ReceiptField, Checked, TokenLegal, TokenBytes, ReceiptBytes, ShortRun;
    var rest := Pair(TextField(MOUNT_DIRECTORY_LIMIT), ReceiptField());
    TokenWrites();
    TextWrites(MOUNT_DIRECTORY_LIMIT);
    ReceiptWrites();
    PairWritesAs(TextField(MOUNT_DIRECTORY_LIMIT), Upto(1024), ShortRun, ReceiptField(), Always(), ReceiptBytes);
    PairWritesAs(TokenField(), TokenLegal, TokenBytes, rest, And(Upto(1024), Always()), Both(ShortRun, ReceiptBytes));
    ViaWrites(ReadyParts(), And(TokenLegal, And(Upto(1024), Always())), Both(TokenBytes, Both(ShortRun, ReceiptBytes)),
      ReadyDown, ReadyUp, ReadyFits, ReadyBytes);
    CheckedWrites(Via(ReadyParts(), ReadyDown, ReadyUp), ReadyFits, ReadyBytes, ReadyFacts, ReadyLegal);
  }

  function WorkBytes(w: MountWork): seq<byte> {
    (((Two(w.loopsConfigured) + Two(w.loopsEntered)) + (Two(w.loopsExited) + Two(w.loopsJoined)))
      + (Four(w.active) + Four(w.retained)))
    + (((Eight(w.completed) + Eight(w.served)) + (Eight(w.inline) + Eight(w.refused)))
      + (Eight(w.terminal) + Eight(w.forgetUnits)))
  }

  lemma WorkWrites()
    ensures Writes(WorkField(), Always(), WorkBytes)
  {
    hide Writes, Pair, U64, U32, U16, Eight, Four, Two;
    var a, b, c := Pair(U16(), U16()), Pair(U32(), U32()), Pair(U64(), U64());
    var x, y, z := Both(Two, Two), Both(Four, Four), Both(Eight, Eight);
    NumbersWrite();
    BothWrite(U16(), Two, U16(), Two);
    BothWrite(U32(), Four, U32(), Four);
    BothWrite(U64(), Eight, U64(), Eight);
    BothWrite(a, x, a, x);
    BothWrite(Pair(a, a), Both(x, x), b, y);
    BothWrite(c, z, c, z);
    BothWrite(Pair(c, c), Both(z, z), c, z);
    BothWrite(Pair(Pair(a, a), b), Both(Both(x, x), y), Pair(Pair(c, c), c), Both(Both(z, z), z));
    ViaWrites(WorkParts(), Always(), Both(Both(Both(x, x), y), Both(Both(z, z), z)), WorkDown, WorkUp, Always(),
      WorkBytes);
  }

  function WorkOption(w: Option<MountWork>): seq<byte> { match w case None => [0] case Some(x) => [1] + WorkBytes(x) }

  lemma WorkOptionWrites()
    ensures Writes(OptionalWork(), Always(), WorkOption)
  {
    hide Writes, Optional, WorkField, WorkBytes;
    WorkWrites();
    OptionalWrites(WorkField(), Always(), WorkBytes);
    var p := Any(Always<MountWork>());
    forall v ensures p(v) && Maybe(WorkBytes)(v) == WorkOption(v) {
    }
    AlwaysWrites(OptionalWork(), p, Maybe(WorkBytes), WorkOption);
  }

  function PhaseByte(p: MountPhase): seq<byte> {
    match p
    case Unattached => [1] case Attaching => [2] case MountReady => [3] case Probing => [4]
    case Draining => [5] case MountRetained => [6] case Stopping => [7]
  }

  function ReadyOption(r: Option<ReadyMount>): seq<byte> {
    match r case None => [0] case Some(x) => [1] + ReadyBytes(x)
  }
  function MountBytes(m: MountStatus): seq<byte> {
    (PhaseByte(m.phase) + ReadyOption(m.ready)) + (Flag(m.detached) + WorkOption(m.work))
  }
  predicate ReadyOptionLegal(r: Option<ReadyMount>) { r.Some? ==> ReadyLegal(r.value) }
  predicate MountLegal(m: MountStatus) { ReadyOptionLegal(m.ready) }

  lemma ReadyOptionWrites()
    ensures Writes(Optional(ReadyField()), ReadyOptionLegal, ReadyOption)
  {
    hide Writes, Optional, ReadyField, ReadyBytes, ReadyLegal;
    ReadyWrites();
    OptionalWrites(ReadyField(), ReadyLegal, ReadyBytes);
    var p := Any(ReadyLegal);
    forall v ensures p(v) == ReadyOptionLegal(v) && Maybe(ReadyBytes)(v) == ReadyOption(v) {
    }
    WritesAlso(Optional(ReadyField()), p, Maybe(ReadyBytes), ReadyOptionLegal, ReadyOption);
  }

  lemma MountWrites()
    ensures Writes(MountField(), MountLegal, MountBytes)
  {
    hide Writes, Pair, ReadyField, Optional, Boolean, OptionalWork, ReadyOption, ReadyOptionLegal, WorkOption, Flag;
    hide Coded;
    ReadyOptionWrites();
    WorkOptionWrites();
    BooleanWrites();
    CodedWrites(PhaseCode, PhaseOf, PhaseByte);
    PairWritesAs(PhaseField(), Always(), PhaseByte, Optional(ReadyField()), ReadyOptionLegal, ReadyOption);
    BothWrite(Boolean(), Flag, OptionalWork(), WorkOption);
    var head, tail := Pair(PhaseField(), Optional(ReadyField())), Pair(Boolean(), OptionalWork());
    PairWritesAs(head, And(Always(), ReadyOptionLegal), Both(PhaseByte, ReadyOption), tail, Always(),
      Both(Flag, WorkOption));
    ViaWrites(MountParts(), And(And(Always(), ReadyOptionLegal), Always()),
      Both(Both(PhaseByte, ReadyOption), Both(Flag, WorkOption)), MountDown, MountUp, MountLegal, MountBytes);
  }

  // Teardown

  function StageByte(s: TeardownStage): seq<byte> {
    match s
    case Detach => [1] case Join => [2] case Owner => [3] case Requests => [4] case Lane => [5]
    case Revoke => [6] case Close => [7] case Registry => [8] case Abort => [9]
  }
  function CustodyBytes(c: CustodyBody): seq<byte> {
    (TokenBytes(c.token) + StageByte(c.stage)) + (Flag(c.detached) + (WorkOption(c.work) + ShortRun(c.detail)))
  }
  predicate CustodyLegal(c: CustodyBody) { TokenLegal(c.token) && |c.detail| <= 2048 }
  predicate UnforcedLegal(c: CustodyBody) { CustodyLegal(c) && c.stage != Abort }

  lemma CustodyWrites()
    ensures Writes(CustodyField(), CustodyLegal, CustodyBytes)
    ensures Writes(UnforcedField(), UnforcedLegal, CustodyBytes)
  {
    hide Writes, Pair, TokenField, Boolean, OptionalWork, TextField, TokenLegal, TokenBytes, WorkOption, ShortRun, Flag;
    hide Coded, Checked;
    TokenWrites();
    BooleanWrites();
    WorkOptionWrites();
    TextWrites(2048);
    CodedWrites(StageCode, StageOf, StageByte);
    PairWritesAs(TokenField(), TokenLegal, TokenBytes, StageField(), Always(), StageByte);
    PairWritesAs(OptionalWork(), Always(), WorkOption, TextField(2048), Upto(2048), ShortRun);
    var ends := And(Always(), Upto(2048));
    PairWritesAs(Boolean(), Always(), Flag, Pair(OptionalWork(), TextField(2048)), ends, Both(WorkOption, ShortRun));
    PairWritesAs(Pair(TokenField(), StageField()), And(TokenLegal, Always()), Both(TokenBytes, StageByte),
      Pair(Boolean(), Pair(OptionalWork(), TextField(2048))), And(Always(), ends),
        Both(Flag, Both(WorkOption, ShortRun)));
    ViaWrites(CustodyParts(), And(And(TokenLegal, Always()), And(Always(), ends)),
      Both(Both(TokenBytes, StageByte), Both(Flag, Both(WorkOption, ShortRun))), CustodyDown, CustodyUp,
      CustodyLegal, CustodyBytes);
    CheckedWrites(CustodyField(), CustodyLegal, CustodyBytes, Unforced, UnforcedLegal);
  }

  // Daemon

  lemma NonZeroWrites()
    ensures Writes(NonZeroField(), Scoped, Plain())
  {
    hide Scoped, NonZero, Writes;
    FixedWrites(32, AnyBytes);
    forall id: Id ensures Fixed(32, AnyBytes).ok(id) ==> Scoped(id) == NonZero(id) {
      if |id| == 32 {
        ScopedIs(id);
      }
    }
    hide Fixed, Checked;
    CheckedWrites(Fixed(32, AnyBytes), Always(), Plain(), NonZero, Scoped);
  }

  function HelloBytes(h: HelloRequest): seq<byte> { IdBytes(h.expectedInstance) + Flag(h.waitForStore) }
  predicate HelloLegal(h: HelloRequest) { h.expectedInstance.Some? ==> Scoped(h.expectedInstance.value) }

  lemma HelloWrites()
    ensures Writes(HelloField(), HelloLegal, HelloBytes)
  {
    hide Writes, Pair, Optional, NonZeroField, Boolean, Scoped, Flag;
    NonZeroWrites();
    BooleanWrites();
    OptionalWrites(NonZeroField(), Scoped, Plain());
    PairWritesAs(Optional(NonZeroField()), Any(Scoped), Maybe(Plain()), Boolean(), Always(), Flag);
    ViaWrites(Pair(Optional(NonZeroField()), Boolean()), And(Any(Scoped), Always()), Both(Maybe(Plain()), Flag),
      HelloDown, HelloUp, HelloLegal, HelloBytes);
  }

  function DaemonByte(p: DaemonPhase): seq<byte> {
    match p case InstallPending => [1] case Installing => [2] case DaemonRetained => [3] case ControlReady => [4]
  }
  /** An absent version is written with length zero. */
  function VersionBytes(v: Option<seq<byte>>): seq<byte> { match v case None => [0, 0] case Some(s) => ShortRun(s) }
  predicate VersionLegal(v: Option<seq<byte>>) {
    v.Some? ==> |v.value| <= 64 && forall k :: 0 <= k < |v.value| ==> 33 <= v.value[k] <= 126
  }

  lemma VersionWrites()
    ensures Writes(VersionField(), VersionLegal, VersionBytes)
  {
    hide Writes, Checked, TextField, Graphic;
    TextWrites(64);
    CheckedWrites(TextField(64), Upto(64), ShortRun, Graphic, If(Upto(64), Graphic));
    forall v | OpenVersion(v).Some?
      ensures VersionBytes(v) == ShortRun(OpenVersion(v).value)
        && VersionLegal(v) == If(Upto(64), Graphic)(OpenVersion(v).value) {
      VersionIs(v);
    }
    FormWrites(Checked(TextField(64), Graphic), If(Upto(64), Graphic), ShortRun, MakeVersion, OpenVersion, VersionLegal,
      VersionBytes);
  }

  lemma VersionIs(v: Option<seq<byte>>)
    requires OpenVersion(v).Some?
    ensures VersionBytes(v) == ShortRun(OpenVersion(v).value)
    ensures VersionLegal(v) <==> |OpenVersion(v).value| <= 64 && Graphic(OpenVersion(v).value)
  {
  }

  function DaemonBytes(d: DaemonStatus): seq<byte> {
    (d.instance + DaemonByte(d.phase)) + (VersionBytes(d.overlaySqlite) + VersionBytes(d.storeSqlite))
  }
  predicate DaemonFits(d: DaemonStatus) {
    Scoped(d.instance) && VersionLegal(d.overlaySqlite) && VersionLegal(d.storeSqlite)
  }
  predicate DaemonLegal(d: DaemonStatus) {
    DaemonFits(d) && (d.phase == ControlReady ==> d.overlaySqlite.Some? && d.storeSqlite.Some?)
  }

  lemma DaemonWrites()
    ensures Writes(DaemonField(), DaemonLegal, DaemonBytes)
  {
    hide Writes, Pair, NonZeroField, VersionField, Checked, Coded, Scoped, VersionLegal, VersionBytes;
    NonZeroWrites();
    VersionWrites();
    CodedWrites(DaemonCode, DaemonOf, DaemonByte);
    PairWritesAs(NonZeroField(), Scoped, Plain(), DaemonPhaseField(), Always(), DaemonByte);
    PairWritesAs(VersionField(), VersionLegal, VersionBytes, VersionField(), VersionLegal, VersionBytes);
    var p, q := And(Scoped, Always()), And(VersionLegal, VersionLegal);
    var x, y := Both(Plain(), DaemonByte), Both(VersionBytes, VersionBytes);
    PairWritesAs(Pair(NonZeroField(), DaemonPhaseField()), p, x, Pair(VersionField(), VersionField()), q, y);
    ViaWrites(DaemonParts(), And(p, q), Both(x, y), DaemonDown, DaemonUp, DaemonFits, DaemonBytes);
    CheckedWrites(Via(DaemonParts(), DaemonDown, DaemonUp), DaemonFits, DaemonBytes, DaemonFacts, DaemonLegal);
  }

  // The engine's row

  function NumberOption(n: Option<int>): seq<byte> { match n case None => [0] case Some(i) => [1] + Signed(i) }

  function LocalBytes(l: LocalObservation): seq<byte> {
    ((Signed(l.revision) + Signed(l.active)) + (NumberOption(l.captured) + NumberOption(l.capturedRevision)))
    + ((l.baseRoot + (Eight(l.dirtyInodes) + Eight(l.dirtyDirectoryEntries))) + (Flag(l.closed) + Eight(l.baseReaders)))
  }

  lemma GenerationWrites()
    ensures Writes(Generation(), Always(), NumberOption)
  {
    hide Writes, Optional, I64, Signed;
    NumbersWrite();
    OptionalWrites(I64(), Always(), Signed);
    var p := Any(Always<int>());
    forall v ensures p(v) && Maybe(Signed)(v) == NumberOption(v) {
    }
    AlwaysWrites(Generation(), p, Maybe(Signed), NumberOption);
  }

  lemma LocalWrites()
    ensures Writes(LocalField(), Always(), LocalBytes)
  {
    hide Writes, Pair, I64, U64, Generation, ObjectIdField, Boolean, Signed, Eight, Flag, NumberOption;
    var a, b, c := Both(Signed, Signed), Both(NumberOption, NumberOption), Both(Eight, Eight);
    IdsWrite();
    NumbersWrite();
    BooleanWrites();
    GenerationWrites();
    BothWrite(I64(), Signed, I64(), Signed);
    BothWrite(Generation(), NumberOption, Generation(), NumberOption);
    BothWrite(U64(), Eight, U64(), Eight);
    BothWrite(ObjectIdField(), Plain(), Pair(U64(), U64()), c);
    BothWrite(Boolean(), Flag, U64(), Eight);
    BothWrite(Pair(I64(), I64()), a, Pair(Generation(), Generation()), b);
    BothWrite(Pair(ObjectIdField(), Pair(U64(), U64())), Both(Plain(), c), Pair(Boolean(), U64()), Both(Flag, Eight));
    BothWrite(Pair(Pair(I64(), I64()), Pair(Generation(), Generation())), Both(a, b),
      Pair(Pair(ObjectIdField(), Pair(U64(), U64())), Pair(Boolean(), U64())),
        Both(Both(Plain(), c), Both(Flag, Eight)));
    ViaWrites(LocalParts(), Always(), Both(Both(a, b), Both(Both(Plain(), c), Both(Flag, Eight))), LocalDown, LocalUp,
      Always(), LocalBytes);
  }
}
