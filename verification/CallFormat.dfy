/**
  The record of a call, byte by byte, and exactly which calls have one. Nothing
  here mentions a codec: the tags, widths and limits stand as they are sent.
*/
module CallFormat {
  import opened Wrappers
  import opened Bytes
  import opened Wire
  import opened Codec
  import opened HistoryRecords
  import opened ControlRecords
  import opened Record
  import opened ControlCall
  import opened Spelling
  import opened RecordBytes
  import SdkValue
  import opened SdkWire
  import Utf8

  // SDK values

  /** A kind byte, then the content: numbers in eight bytes, lengths and counts in four, names under two. */
  function ValueBytes(v: SdkValue.Value): seq<byte>
    decreases v, 1
  {
    match v
    case Null => [0]
    case Bool(b) => if b then [2] else [1]
    case Int(i) => [3] + Signed(i)
    case Text(s) => [4] + LongRun(s)
    case Bytes(s) => [5] + LongRun(s)
    case List(items) => [6] + Four(|items|) + ItemsBytes(items)
    case Map(fields) => [7] + Four(|fields|) + FieldsBytes(fields)
  }

  function ItemsBytes(items: seq<SdkValue.Value>): seq<byte>
    decreases items, 0
  {
    if items == [] then [] else ValueBytes(items[0]) + ItemsBytes(items[1..])
  }

  function FieldsBytes(fields: seq<SdkValue.Field>): seq<byte>
    decreases fields, 0
  {
    if fields == [] then [] else ShortRun(fields[0].name) + ValueBytes(fields[0].value) + FieldsBytes(fields[1..])
  }

  /** Sixteen levels below the top, and names of at most 64 bytes. */
  predicate ValueLegal(v: SdkValue.Value, depth: nat)
    decreases v, 1
  {
    depth <= 16 &&
      match v
      case List(items) => ItemsLegal(items, depth + 1)
      case Map(fields) => FieldsLegal(fields, depth + 1)
      case _ => true
  }

  predicate ItemsLegal(items: seq<SdkValue.Value>, depth: nat)
    decreases items, 0
  {
    items == [] || (ValueLegal(items[0], depth) && ItemsLegal(items[1..], depth))
  }

  predicate FieldsLegal(fields: seq<SdkValue.Field>, depth: nat)
    decreases fields, 0
  {
    fields == [] || (|fields[0].name| <= 64 && ValueLegal(fields[0].value, depth) && FieldsLegal(fields[1..], depth))
  }

  /** What the writer makes of a value short enough for a record. */
  lemma {:induction false} ValueIsPut(v: SdkValue.Value, depth: nat)
    requires SdkValue.Typed(v)
    ensures SdkValue.Put(v, depth).Some? ==> ValueLegal(v, depth) && SdkValue.Put(v, depth).value == ValueBytes(v)
    ensures ValueLegal(v, depth) && |ValueBytes(v)| <= LIMIT ==> SdkValue.Put(v, depth).Some?
    decreases v, 1
  {
    hide BigEndian, Eight, Four, ItemsBytes, FieldsBytes, ItemsLegal, FieldsLegal, SdkValue.PutItems;
    hide SdkValue.PutFields;
    match v
    case Null =>
    case Bool(_) =>
    case Int(i) => EightIs(SdkValue.Unsigned64(i));
    case Text(s) => LongIsPut(4, s);
    case Bytes(s) => LongIsPut(5, s);
    case List(items) =>
      FourIs(|items|);
      ItemsArePut(items, depth + 1);
    case Map(fields) =>
      FourIs(|fields|);
      FieldsArePut(fields, depth + 1);
  }

  lemma LongIsPut(kind: byte, s: seq<byte>)
    ensures SdkValue.PutLong(kind, s).Some? ==> SdkValue.PutLong(kind, s).value == [kind] + LongRun(s)
    ensures |LongRun(s)| <= LIMIT ==> SdkValue.PutLong(kind, s).Some?
  {
    hide BigEndian;
    FourIs(|s|);
  }

  lemma {:induction false} ItemsArePut(items: seq<SdkValue.Value>, depth: nat)
    requires forall k :: 0 <= k < |items| ==> SdkValue.Typed(items[k])
    ensures SdkValue.PutItems(items, depth).Some? ==>
      ItemsLegal(items, depth) && SdkValue.PutItems(items, depth).value == ItemsBytes(items)
    ensures ItemsLegal(items, depth) && |ItemsBytes(items)| <= LIMIT ==> SdkValue.PutItems(items, depth).Some?
    decreases items, 0
  {
    hide SdkValue.Put, SdkValue.Typed, ValueBytes, ValueLegal;
    if items != [] {
      assert items[0] in items;
      ValueIsPut(items[0], depth);
      ItemsArePut(items[1..], depth);
    }
  }

  lemma {:induction false} FieldsArePut(fields: seq<SdkValue.Field>, depth: nat)
    requires forall k :: 0 <= k < |fields| ==> SdkValue.Typed(fields[k].value)
    ensures SdkValue.PutFields(fields, depth).Some? ==>
      FieldsLegal(fields, depth) && SdkValue.PutFields(fields, depth).value == FieldsBytes(fields)
    ensures FieldsLegal(fields, depth) && |FieldsBytes(fields)| <= LIMIT ==> SdkValue.PutFields(fields, depth).Some?
    decreases fields, 0
  {
    hide SdkValue.Put, SdkValue.Typed, ValueBytes, ValueLegal, BigEndian, Two;
    if fields != [] {
      assert fields[0] in fields;
      TwoIs(|fields[0].name|);
      ValueIsPut(fields[0].value, depth);
      FieldsArePut(fields[1..], depth);
    }
  }

  function TopLegal(): SdkValue.Value -> bool { v => ValueLegal(v, 0) }

  lemma ValueWrites()
    ensures Writes(SdkValue.ValueField(), TopLegal(), ValueBytes)
  {
    hide SdkValue.Put, SdkValue.Typed, SdkValue.Unique, ValueBytes, ValueLegal;
    forall at: nat, v ensures WrittenAt(SdkValue.ValueField(), TopLegal(), ValueBytes, at, v) {
      if SdkValue.Typed(v) {
        ValueIsPut(v, 0);
      }
    }
  }

  predicate SdkNameLegal(s: seq<byte>) { 1 <= |s| <= 64 }

  lemma SdkNameWrites()
    ensures Writes(NameField(), SdkNameLegal, ShortRun)
  {
    hide Writes, TextField, Checked, ShortRun;
    TextWrites(64);
    CheckedWrites(TextField(64), Upto(64), ShortRun, NonEmpty, SdkNameLegal);
  }

  function SdkCallBytes(c: SdkCall): seq<byte> { ShortRun(c.name) + ValueBytes(c.args) }
  predicate SdkCallLegal(c: SdkCall) { 1 <= |c.name| <= 64 && ValueLegal(c.args, 0) }

  lemma SdkCallWrites()
    ensures Writes(SdkCallField(), SdkCallLegal, SdkCallBytes)
  {
    hide Writes, Pair, NameField, SdkValue.ValueField, ShortRun, ValueBytes, ValueLegal;
    SdkNameWrites();
    ValueWrites();
    PairWritesAs(NameField(), SdkNameLegal, ShortRun, SdkValue.ValueField(), TopLegal(), ValueBytes);
    FormWrites(Pair(NameField(), SdkValue.ValueField()), And(SdkNameLegal, TopLegal()), Both(ShortRun, ValueBytes),
      MakeCall, OpenCall, SdkCallLegal, SdkCallBytes);
  }

  // Requests

  /** Where a new Branch starts: a Layer or a Commit. */
  function SourceNumber(s: ForkSource): byte { match s case FromLayer(_) => 1 case FromCommit(_, _) => 2 }
  function SourceBody(s: ForkSource): seq<byte> {
    match s case FromLayer(id) => id case FromCommit(branch, commit) => branch + commit
  }
  function SourceBytes(s: ForkSource): seq<byte> { [SourceNumber(s)] + SourceBody(s) }

  /** The tag of each operation. */
  function RequestNumber(r: Request): byte {
    match r
    case Mount(_, _) => 1
    case Commit(_) => 2
    case Status(_) => 3
    case Unmount(_, _) => 4
    case Fork(_) => 5
    case History(_) => 6
    case Hello(_) => 7
    case EndSession => 8
    case Attach(_) => 9
    case Locate(_) => 10
    case ForceUnmount(_, _) => 11
    case Observed(_, _, traced) => if traced then 21 else 12
    case Cleanup(_) => 13
    case Branches(_, _, _) => 14
    case Sdk(_) => 20
  }

  /** What stands after the tag: an observation wraps another operation with its tag. */
  function RequestBody(r: Request): seq<byte> {
    match r
    case Mount(workspace, branch) => workspace + branch
    case Commit(c) => TokenBytes(c.token) + (Flag(c.force) + TextBytes(c.message))
    case Status(token) => TokenBytes(token)
    case Unmount(token, discard) => TokenBytes(token) + Flag(discard)
    case Fork(f) => (f.stack + f.branch) + (ShortRun(f.name) + SourceBytes(f.source))
    case History(h) => (h.branch + IdBytes(h.start)) + (TextBytes(h.cursor) + Two(h.limit))
    case Hello(h) => HelloBytes(h)
    case EndSession => []
    case Attach(token) => TokenBytes(token)
    case Locate(workspace) => workspace
    case ForceUnmount(token, relinquish) => TokenBytes(token) + Flag(relinquish)
    case Observed(scope, inner, _) => scope + ([RequestNumber(inner)] + RequestBody(inner))
    case Cleanup(token) => TokenBytes(token)
    case Branches(stack, cursor, limit) => stack + (TextBytes(cursor) + Two(limit))
    case Sdk(call) => SdkCallBytes(call)
  }
  function RequestBytes(r: Request): seq<byte> { [RequestNumber(r)] + RequestBody(r) }

  predicate LimitLegal(n: int) { 1 <= n <= 32 }
  predicate Observable(r: Request) { !r.Observed? && !r.Hello? && !r.EndSession? }

  predicate IsSource(s: ForkSource) {
    match s case FromLayer(id) => IsLayer(id) case FromCommit(branch, commit) => IsBranch(branch) && IsCommit(commit)
  }
  predicate IsValue(v: SdkValue.Value) { SdkValue.Typed(v) && SdkValue.Unique(v) }

  /** What a request can hold: the widths of identities and numbers, well-formed texts, and names used once. */
  predicate IsRequest(r: Request) {
    match r
    case Mount(workspace, branch) => IsWorkspace(workspace) && IsBranch(branch)
    case Commit(c) => IsToken(c.token) && IsText(c.message)
    case Status(token) => IsToken(token)
    case Unmount(token, _) => IsToken(token)
    case Fork(f) => IsStack(f.stack) && IsBranch(f.branch) && IsBranchName(f.name) && IsSource(f.source)
    case History(h) => IsBranch(h.branch) && IsHead(h.start) && IsU16(h.limit)
    case Hello(h) => h.expectedInstance.Some? ==> IsObject(h.expectedInstance.value)
    case EndSession => true
    case Attach(token) => IsToken(token)
    case Locate(workspace) => IsWorkspace(workspace)
    case ForceUnmount(token, _) => IsToken(token)
    case Observed(scope, inner, _) => IsObject(scope) && IsRequest(inner)
    case Cleanup(token) => IsToken(token)
    case Branches(stack, _, limit) => IsStack(stack) && IsU16(limit)
    case Sdk(call) => Utf8.Valid(call.name) && IsValue(call.args)
  }

  lemma SourcesAre(s: ForkSource)
    ensures SourceField().ok(s) <==> IsSource(s)
  {
    hide LayerIdField, BranchIdField, CommitIdField, IsLayer, IsBranch, IsCommit, Pair, Form;
    assert SourceField().ok(s) == SourceForm(SourceTag(s)).ok(s);
    match s
    case FromLayer(id) =>
      IdsAre(id);
      FormOk(LayerIdField(), MakeFromLayer, OpenFromLayer, s);
    case FromCommit(branch, commit) =>
      IdsAre(branch);
      IdsAre(commit);
      PairOk(BranchIdField(), CommitIdField(), (branch, commit));
      FormOk(Pair(BranchIdField(), CommitIdField()), MakeFromCommit, OpenFromCommit, s);
  }

  lemma HellosAre(h: HelloRequest)
    ensures HelloField().ok(h) <==> h.expectedInstance.Some? ==> IsObject(h.expectedInstance.value)
  {
    hide Optional, Pair, Boolean, NonZeroField;
    OptionIs(NonZeroField(), h.expectedInstance);
    PairOk(Optional(NonZeroField()), Boolean(), HelloDown(h));
    FlagsAreOk();
    if h.expectedInstance.Some? {
      ScopesAre(h.expectedInstance.value);
    }
  }

  lemma ScopesAre(id: Id)
    ensures NonZeroField().ok(id) <==> IsObject(id)
  {
    assert AnyBytes(id);
  }

  lemma FlagsAreOk()
    ensures forall b :: Boolean().ok(b)
  {
  }

  lemma TokenFormsAre(r: Request)
    ensures StatusForm().ok(r) <==> r.Status? && IsToken(r.token)
    ensures AttachForm().ok(r) <==> r.Attach? && IsToken(r.token)
    ensures CleanupForm().ok(r) <==> r.Cleanup? && IsToken(r.token)
  {
    hide TokenField, IsToken, Form;
    if r.Status? || r.Attach? || r.Cleanup? {
      TokensAre(r.token);
    }
    FormOk(TokenField(), MakeStatus, OpenStatus, r);
    FormOk(TokenField(), MakeAttach, OpenAttach, r);
    FormOk(TokenField(), MakeCleanup, OpenCleanup, r);
  }

  lemma FlagFormsAre(r: Request)
    ensures UnmountForm().ok(r) <==> r.Unmount? && IsToken(r.token)
    ensures ForceForm().ok(r) <==> r.ForceUnmount? && IsToken(r.token)
  {
    hide TokenField, IsToken, Form, Pair, Boolean;
    FlagsAreOk();
    FormOk(Pair(TokenField(), Boolean()), MakeUnmount, OpenUnmount, r);
    FormOk(Pair(TokenField(), Boolean()), MakeForce, OpenForce, r);
    if r.Unmount? {
      TokensAre(r.token);
      PairOk(TokenField(), Boolean(), (r.token, r.discard));
    } else if r.ForceUnmount? {
      TokensAre(r.token);
      PairOk(TokenField(), Boolean(), (r.token, r.relinquishUnknown));
    }
  }

  lemma CommitFormIs(r: Request)
    ensures CommitForm().ok(r) <==> r.Commit? && IsToken(r.commit.token) && IsText(r.commit.message)
  {
    hide TokenField, IsToken, MessageField, IsText, Form, Pair, Boolean;
    FlagsAreOk();
    FormOk(Pair(TokenField(), Pair(Boolean(), MessageField())), MakeCommit, OpenCommit, r);
    if r.Commit? {
      var c := r.commit;
      TokensAre(c.token);
      TextsHold(c.message);
      PairOk(Boolean(), MessageField(), (c.force, c.message));
      PairOk(TokenField(), Pair(Boolean(), MessageField()), (c.token, (c.force, c.message)));
    }
  }

  lemma IdFormsAre(r: Request)
    ensures MountForm().ok(r) <==> r.Mount? && IsWorkspace(r.workspace) && IsBranch(r.branch)
    ensures LocateForm().ok(r) <==> r.Locate? && IsWorkspace(r.workspace)
  {
    hide WorkspaceIdField, BranchIdField, IsWorkspace, IsBranch, Form, Pair;
    FormOk(Pair(WorkspaceIdField(), BranchIdField()), MakeMount, OpenMount, r);
    FormOk(WorkspaceIdField(), MakeLocate, OpenLocate, r);
    if r.Mount? {
      IdsAre(r.workspace);
      IdsAre(r.branch);
      PairOk(WorkspaceIdField(), BranchIdField(), (r.workspace, r.branch));
    } else if r.Locate? {
      IdsAre(r.workspace);
    }
  }

  lemma ForkFormIs(r: Request)
    ensures ForkForm().ok(r) <==> r.Fork? && IsRequest(r)
  {
    hide StackIdField, BranchIdField, HistoryNameField, SourceField, IsStack, IsBranch, IsBranchName, IsSource;
    hide Form, Pair;
    var ids, ends := Pair(StackIdField(), BranchIdField()), Pair(HistoryNameField(), SourceField());
    FormOk(Pair(ids, ends), MakeFork, OpenFork, r);
    if r.Fork? {
      var f := r.fork;
      IdsAre(f.stack);
      IdsAre(f.branch);
      NamesAre(f.name);
      SourcesAre(f.source);
      PairOk(StackIdField(), BranchIdField(), (f.stack, f.branch));
      PairOk(HistoryNameField(), SourceField(), (f.name, f.source));
      PairOk(ids, ends, ((f.stack, f.branch), (f.name, f.source)));
    }
  }

  lemma LimitsAre(n: int)
    ensures LimitField().ok(n) <==> IsU16(n)
  {
    NumbersAre(n);
  }

  lemma PageFormsAre(r: Request)
    ensures HistoryForm().ok(r) <==> r.History? && IsRequest(r)
    ensures BranchesForm().ok(r) <==> r.Branches? && IsRequest(r)
  {
    hide BranchIdField, StackIdField, HeadField, CursorField, LimitField, IsBranch, IsStack, IsHead, IsU16, Form, Pair;
    var page := Pair(CursorField(), LimitField());
    FormOk(Pair(Pair(BranchIdField(), HeadField()), page), MakeHistory, OpenHistory, r);
    FormOk(Pair(StackIdField(), page), MakeBranches, OpenBranches, r);
    if r.History? {
      var h := r.history;
      IdsAre(h.branch);
      HeadsHold(h.start);
      TextsHold(h.cursor);
      LimitsAre(h.limit);
      PairOk(BranchIdField(), HeadField(), (h.branch, h.start));
      PairOk(CursorField(), LimitField(), (h.cursor, h.limit));
      PairOk(Pair(BranchIdField(), HeadField()), page, ((h.branch, h.start), (h.cursor, h.limit)));
    } else if r.Branches? {
      IdsAre(r.stack);
      TextsHold(r.cursor);
      LimitsAre(r.limit);
      PairOk(CursorField(), LimitField(), (r.cursor, r.limit));
      PairOk(StackIdField(), page, (r.stack, (r.cursor, r.limit)));
    }
  }

  lemma OtherFormsAre(r: Request)
    ensures SdkForm().ok(r) <==> r.Sdk? && IsRequest(r)
    ensures HelloForm().ok(r) <==> r.Hello? && IsRequest(r)
  {
    hide Form, Pair, HelloField, SdkValue.ValueField, IsValue, NameField, Utf8.Valid, IsObject;
    FormOk(SdkCallField(), MakeSdk, OpenSdk, r);
    FormOk(HelloField(), MakeHello, OpenHello, r);
    if r.Sdk? {
      SdkCallsAre(r.call);
    } else if r.Hello? {
      HellosAre(r.hello);
    }
  }

  lemma SdkCallsAre(c: SdkCall)
    ensures SdkCallField().ok(c) <==> Utf8.Valid(c.name) && IsValue(c.args)
  {
    hide Form, Pair, Utf8.Valid, SdkValue.Typed, SdkValue.Unique;
    FormOk(Pair(NameField(), SdkValue.ValueField()), MakeCall, OpenCall, c);
    PairOk(NameField(), SdkValue.ValueField(), (c.name, c.args));
  }

  lemma OrdinaryIs(r: Request)
    ensures OrdinaryForm(RequestTag(r)).ok(r) <==> Observable(r) && IsRequest(r)
  {
    hide MountForm, CommitForm, StatusForm, UnmountForm, ForkForm, HistoryForm, AttachForm, LocateForm;
    hide ForceForm, CleanupForm, BranchesForm, SdkForm;
    TokenFormsAre(r);
    FlagFormsAre(r);
    CommitFormIs(r);
    IdFormsAre(r);
    ForkFormIs(r);
    PageFormsAre(r);
    OtherFormsAre(r);
    assert !Refused<Request>().ok(r);
  }

  /** The requests a Rust caller can build are those. */
  lemma {:induction false} RequestsAre(r: Request)
    ensures TypedRequest(r) <==> IsRequest(r)
  {
    hide OrdinaryForm, HelloField, RequestTag;
    OrdinaryIs(r);
    match r
    case Observed(_, inner, _) => RequestsAre(inner);
    case Hello(h) => HellosAre(h);
    case _ =>
  }

  /** When a request is written, its length aside. */
  predicate RequestLegal(r: Request) {
    match r
    case Mount(_, _) => true
    case Commit(c) => TokenLegal(c.token) && MessageLegal(c.message)
    case Status(token) => TokenLegal(token)
    case Unmount(token, _) => TokenLegal(token)
    case Fork(_) => true
    case History(h) => CursorLegal(h.cursor) && LimitLegal(h.limit)
    case Hello(h) => HelloLegal(h)
    case EndSession => true
    case Attach(token) => TokenLegal(token)
    case Locate(_) => true
    case ForceUnmount(token, _) => TokenLegal(token)
    case Observed(scope, inner, _) => Scoped(scope) && Observable(inner) && RequestLegal(inner)
    case Cleanup(token) => TokenLegal(token)
    case Branches(_, cursor, limit) => CursorLegal(cursor) && LimitLegal(limit)
    case Sdk(call) => SdkCallLegal(call)
  }

  lemma TokenFormsWrite()
    ensures Writes(StatusForm(), RequestLegal, RequestBody) && Writes(AttachForm(), RequestLegal, RequestBody)
    ensures Writes(CleanupForm(), RequestLegal, RequestBody)
  {
    hide Writes, TokenField, TokenLegal, TokenBytes;
    TokenWrites();
    FormWrites(TokenField(), TokenLegal, TokenBytes, MakeStatus, OpenStatus, RequestLegal, RequestBody);
    FormWrites(TokenField(), TokenLegal, TokenBytes, MakeAttach, OpenAttach, RequestLegal, RequestBody);
    FormWrites(TokenField(), TokenLegal, TokenBytes, MakeCleanup, OpenCleanup, RequestLegal, RequestBody);
  }

  lemma FlagFormsWrite()
    ensures Writes(UnmountForm(), RequestLegal, RequestBody) && Writes(ForceForm(), RequestLegal, RequestBody)
  {
    hide Writes, Pair, TokenField, Boolean, TokenLegal, TokenBytes, Flag;
    var c, p, x := Pair(TokenField(), Boolean()), And(TokenLegal, Always<bool>()), Both(TokenBytes, Flag);
    TokenWrites();
    BooleanWrites();
    PairWritesAs(TokenField(), TokenLegal, TokenBytes, Boolean(), Always(), Flag);
    FormWrites(c, p, x, MakeUnmount, OpenUnmount, RequestLegal, RequestBody);
    FormWrites(c, p, x, MakeForce, OpenForce, RequestLegal, RequestBody);
  }

  lemma CommitFormWrites()
    ensures Writes(CommitForm(), RequestLegal, RequestBody)
  {
    hide Writes, Pair, TokenField, Boolean, MessageField, TokenLegal, TokenBytes, Flag, MessageLegal, TextBytes;
    TokenWrites();
    BooleanWrites();
    MessageWrites();
    PairWritesAs(Boolean(), Always(), Flag, MessageField(), MessageLegal, TextBytes);
    PairWritesAs(TokenField(), TokenLegal, TokenBytes, Pair(Boolean(), MessageField()), And(Always(), MessageLegal),
      Both(Flag, TextBytes));
    FormWrites(Pair(TokenField(), Pair(Boolean(), MessageField())), And(TokenLegal, And(Always(), MessageLegal)),
      Both(TokenBytes, Both(Flag, TextBytes)), MakeCommit, OpenCommit, RequestLegal, RequestBody);
  }

  lemma IdFormsWrite()
    ensures Writes(MountForm(), RequestLegal, RequestBody) && Writes(LocateForm(), RequestLegal, RequestBody)
  {
    hide Writes, Pair, WorkspaceIdField, BranchIdField;
    IdsWrite();
    BothWrite(WorkspaceIdField(), Plain(), BranchIdField(), Plain());
    FormWrites(Pair(WorkspaceIdField(), BranchIdField()), Always(), Both(Plain(), Plain()), MakeMount, OpenMount,
      RequestLegal, RequestBody);
    FormWrites(WorkspaceIdField(), Always(), Plain(), MakeLocate, OpenLocate, RequestLegal, RequestBody);
  }

  lemma SourceWrites()
    ensures Writes(SourceField(), Always(), SourceBytes)
  {
    hide Writes, Pair, Choice, LayerIdField, BranchIdField, CommitIdField;
    IdsWrite();
    BothWrite(BranchIdField(), Plain(), CommitIdField(), Plain());
    FormWrites(LayerIdField(), Always(), Plain(), MakeFromLayer, OpenFromLayer, Always(), SourceBody);
    FormWrites(Pair(BranchIdField(), CommitIdField()), Always(), Both(Plain(), Plain()), MakeFromCommit,
      OpenFromCommit, Always(), SourceBody);
    RefusedWrites(Always(), SourceBody);
    hide Form, Refused;
    ChoiceWritesAs(SourceTag, SourceForm, Always(), SourceBody, SourceBytes);
  }

  lemma ForkFormWrites()
    ensures Writes(ForkForm(), RequestLegal, RequestBody)
  {
    hide Writes, Pair, StackIdField, BranchIdField, HistoryNameField, SourceField, ShortRun, SourceBytes;
    var x, y := Both(Plain(), Plain()), Both(ShortRun, SourceBytes);
    IdsWrite();
    NameWrites();
    SourceWrites();
    BothWrite(StackIdField(), Plain(), BranchIdField(), Plain());
    BothWrite(HistoryNameField(), ShortRun, SourceField(), SourceBytes);
    BothWrite(Pair(StackIdField(), BranchIdField()), x, Pair(HistoryNameField(), SourceField()), y);
    FormWrites(Pair(Pair(StackIdField(), BranchIdField()), Pair(HistoryNameField(), SourceField())), Always(),
      Both(x, y), MakeFork, OpenFork, RequestLegal, RequestBody);
  }

  lemma LimitWrites()
    ensures Writes(LimitField(), LimitLegal, Two)
  {
    hide Writes, U16, Two, Checked;
    NumbersWrite();
    CheckedWrites(U16(), Always(), Two, InWindow, LimitLegal);
  }

  lemma PageFormsWrite()
    ensures Writes(HistoryForm(), RequestLegal, RequestBody) && Writes(BranchesForm(), RequestLegal, RequestBody)
  {
    hide Writes, Pair, BranchIdField, StackIdField, HeadField, CursorField, LimitField;
    hide CursorLegal, LimitLegal, TextBytes, Two, IdBytes;
    var page, p, x := Pair(CursorField(), LimitField()), And(CursorLegal, LimitLegal), Both(TextBytes, Two);
    IdsWrite();
    HeadsWrite();
    CursorWrites();
    LimitWrites();
    PairWritesAs(CursorField(), CursorLegal, TextBytes, LimitField(), LimitLegal, Two);
    BothWrite(BranchIdField(), Plain(), HeadField(), IdBytes);
    PairWritesAs(Pair(BranchIdField(), HeadField()), Always(), Both(Plain(), IdBytes), page, p, x);
    FormWrites(Pair(Pair(BranchIdField(), HeadField()), page), And(Always(), p), Both(Both(Plain(), IdBytes), x),
      MakeHistory, OpenHistory, RequestLegal, RequestBody);
    PairWritesAs(StackIdField(), Always(), Plain(), page, p, x);
    FormWrites(Pair(StackIdField(), page), And(Always(), p), Both(Plain(), x), MakeBranches, OpenBranches,
      RequestLegal, RequestBody);
  }

  lemma OtherFormsWrite()
    ensures Writes(SdkForm(), RequestLegal, RequestBody) && Writes(HelloForm(), RequestLegal, RequestBody)
  {
    hide Writes, SdkCallField, HelloField, SdkCallLegal, SdkCallBytes, HelloLegal, HelloBytes;
    SdkCallWrites();
    HelloWrites();
    FormWrites(SdkCallField(), SdkCallLegal, SdkCallBytes, MakeSdk, OpenSdk, RequestLegal, RequestBody);
    FormWrites(HelloField(), HelloLegal, HelloBytes, MakeHello, OpenHello, RequestLegal, RequestBody);
  }

  lemma OrdinaryFormWrites(n: byte)
    ensures Writes(OrdinaryForm(n), RequestLegal, RequestBody)
  {
    hide Writes, MountForm, CommitForm, StatusForm, UnmountForm, ForkForm, HistoryForm, AttachForm, LocateForm;
    hide ForceForm, CleanupForm, BranchesForm, SdkForm, HelloForm;
    IdFormsWrite();
    CommitFormWrites();
    TokenFormsWrite();
    FlagFormsWrite();
    ForkFormWrites();
    PageFormsWrite();
    OtherFormsWrite();
    RefusedWrites(RequestLegal, RequestBody);
  }

  predicate InnerLegal(r: Request) { Observable(r) && RequestLegal(r) }

  lemma OrdinaryWrites()
    ensures Writes(OrdinaryField(), InnerLegal, RequestBytes)
  {
    hide Writes, OrdinaryForm, RequestLegal, RequestBody;
    forall n: byte ensures Writes(OrdinaryForm(n), RequestLegal, RequestBody) {
      OrdinaryFormWrites(n);
    }
    ChoiceWritesAs(RequestTag, OrdinaryForm, RequestLegal, RequestBody, RequestBytes);
    forall r | OrdinaryField().ok(r) ensures Observable(r) {
      OrdinaryIsObservable(r);
    }
    WritesAlso(OrdinaryField(), RequestLegal, RequestBytes, InnerLegal, RequestBytes);
  }

  lemma OrdinaryIsObservable(r: Request)
    ensures OrdinaryField().ok(r) <==> Observable(r) && IsRequest(r)
  {
    hide OrdinaryForm, Observable, IsRequest;
    OrdinaryIs(r);
    assert OrdinaryField().ok(r) == OrdinaryForm(RequestTag(r)).ok(r);
  }

  lemma ObservedWrites(traced: bool)
    ensures Writes(ObservedForm(traced), RequestLegal, RequestBody)
  {
    hide Writes, Pair, NonZeroField, OrdinaryField, Scoped, Observable;
    NonZeroWrites();
    OrdinaryWrites();
    PairWritesAs(NonZeroField(), Scoped, Plain(), OrdinaryField(), InnerLegal, RequestBytes);
    FormWrites(Pair(NonZeroField(), OrdinaryField()), And(Scoped, InnerLegal), Both(Plain(), RequestBytes),
      MakeObserved(traced), OpenObserved(traced), RequestLegal, RequestBody);
  }

  lemma RequestWrites()
    ensures Writes(RequestField(), RequestLegal, RequestBytes)
  {
    hide Writes, RequestLegal, RequestBody;
    forall n: byte ensures Writes(RequestForm(n), RequestLegal, RequestBody) {
      RequestFormWrites(n);
    }
    hide RequestForm;
    ChoiceWritesAs(RequestTag, RequestForm, RequestLegal, RequestBody, RequestBytes);
  }

  lemma RequestFormWrites(n: byte)
    ensures Writes(RequestForm(n), RequestLegal, RequestBody)
  {
    hide Writes, OrdinaryForm, HelloForm, ObservedForm, Only, SdkForm;
    OrdinaryFormWrites(n);
    OtherFormsWrite();
    ObservedWrites(true);
    ObservedWrites(false);
    OnlyWrites(EndSession, RequestLegal, RequestBody);
  }

  // Calls

  function CallBody(c: Call): seq<byte> { Eight(c.id) + RequestBytes(c.request) }
  predicate CallLegal(c: Call) { c.id > 0 && RequestLegal(c.request) }

  lemma CallWrites()
    ensures Writes(CallField(), CallLegal, CallBody)
  {
    hide Writes, Pair, RequestField, U64, Eight, RequestLegal, RequestBytes, Checked;
    NumbersWrite();
    CheckedWrites(U64(), Always(), Eight, Positive, Positive);
    RequestWrites();
    PairWritesAs(CorrelationField(), Positive, Eight, RequestField(), RequestLegal, RequestBytes);
    ViaWrites(Pair(CorrelationField(), RequestField()), And(Positive, RequestLegal), Both(Eight, RequestBytes),
      CallDown, CallUp, CallLegal, CallBody);
  }

  /** The whole record: "LFSC", version one, the number of the call, the tag and the fields. */
  function CallBytes(c: Call): seq<byte> { [76, 70, 83, 67, 1] + CallBody(c) }

  lemma EncodedIs(c: Call)
    requires CallField().ok(c)
    ensures EncodeCall(c) == if CallLegal(c) && |CallBytes(c)| <= 65519 then Some(CallBytes(c)) else None
  {
    hide CallField, CallLegal, CallBody, Writes;
    CallWrites();
    WritesAt(CallField(), CallLegal, CallBody, 5, c);
  }

  predicate IsCall(c: Call) { IsU64(c.id) && IsRequest(c.request) }

  lemma CallsAre(c: Call)
    ensures TypedCall(c) <==> IsCall(c)
    ensures TypedCall(c) && CallLegal(c) ==> CallField().ok(c)
    ensures CallField().ok(c) ==> TypedCall(c)
  {
    hide CallField, WithoutObservation, IsRequest, TypedRequest, RequestLegal, U64;
    NumbersAre(c.id);
    RequestsAre(c.request);
    if TypedCall(c) && WithoutObservation(c.request) == None {
      BadObservationIsIllegal(c);
    } else if TypedCall(c) {
      TypedIsOk(c);
    } else if CallField().ok(c) {
      OkIsTyped(c);
    }
  }

  lemma OkIsTyped(c: Call)
    requires CallField().ok(c)
    ensures TypedCall(c)
  {
    hide OrdinaryForm, HelloField, CorrelationField, Pair, Form, OrdinaryField, NonZeroField, IsRequest, TypedRequest;
    var r := c.request;
    PairOk(CorrelationField(), RequestField(), CallDown(c));
    assert RequestForm(RequestTag(r)).ok(r);
    RequestsAre(r);
    OrdinaryIs(r);
    RequestIsOk(r);
  }

  lemma RequestIsOk(r: Request)
    requires RequestForm(RequestTag(r)).ok(r)
    ensures IsRequest(r)
  {
    hide OrdinaryForm, Pair, Form, HelloForm, OrdinaryField, NonZeroField, IsObject;
    OtherFormsAre(r);
    OrdinaryIs(r);
    if r.Observed? {
      FormOk(Pair(NonZeroField(), OrdinaryField()), MakeObserved(r.traced), OpenObserved(r.traced), r);
      PairOk(NonZeroField(), OrdinaryField(), (r.scope, r.request));
      OrdinaryIsObservable(r.request);
      ScopesAre(r.scope);
    }
  }

  /** Every call a caller can build is written exactly when it is legal and at most 65,519 bytes long, as its bytes. */
  lemma CallIsWritten(c: Call)
    requires IsCall(c)
    ensures EncodeCall(c) == if CallLegal(c) && |CallBytes(c)| <= 65519 then Some(CallBytes(c)) else None
  {
    hide EncodeCall, CallField, CallBytes, TypedCall, IsCall, WithoutObservation, CallLegal;
    CallsAre(c);
    if WithoutObservation(c.request) == None {
      BadObservationRefused(c);
      BadObservationIsIllegal(c);
    } else {
      TypedIsOk(c);
      EncodedIs(c);
    }
  }

  lemma BadObservationIsIllegal(c: Call)
    requires TypedCall(c) && WithoutObservation(c.request) == None
    ensures !CallLegal(c)
  {
    hide Scoped, NonZero, CorrelationField;
    ScopedIs(c.request.scope);
  }

  /** A record reads as a call exactly when it is the bytes of that call, and the call is typed and legal. */
  lemma CallIsRead(c: Call, record: seq<byte>)
    ensures DecodeCall(record) == Some(c) <==>
      IsCall(c) && CallLegal(c) && |record| <= 65519 && record == CallBytes(c)
  {
    hide EncodeCall, DecodeCall, CallField, CallLegal, CallBytes, IsCall, TypedCall;
    CallsAre(c);
    if DecodeCall(record) == Some(c) {
      CallWritesBack(record);
      EncodedIs(c);
    } else if IsCall(c) && CallLegal(c) && |record| <= 65519 && record == CallBytes(c) {
      EncodedIs(c);
      CallReadsBack(c);
    }
  }
}
