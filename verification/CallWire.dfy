/**
  The call record, written and read step by step over one record. The encoder
  and the decoder are two programs; each is proved to do what the codec says, so
  what holds of the codec holds between them.
*/
module CallWire {
  import opened Wrappers
  import opened Bytes
  import opened Wire
  import opened Codec
  import opened HistoryRecords
  import opened ControlRecords
  import SdkValue
  import opened SdkWire
  import opened MergeWire
  import opened ControlCall
  import Utf8

  // Tags and forms as they are written

  /** A tag, then its form; a failed tag ends it. */
  lemma ChoiceWrote<T(!new)>(tag: T -> int, form: int -> Codec<T>, v: T, n: byte, s0: seq<byte>, s1: seq<byte>,
                             s2: seq<byte>, first: bool, ok: bool)
    requires n == tag(v) && (first <==> |s0| + 1 <= LIMIT) && (first ==> s1 == s0 + [n])
    requires if first then Wrote(s1, s2, form(n).put(|s1|, v), ok) else !ok
    ensures Wrote(s0, s2, Choice(tag, form).put(|s0|, v), ok)
  {
    if ok {
      assert s1 + form(n).put(|s1|, v).value == s0 + ([n] + form(n).put(|s1|, v).value);
    }
  }

  lemma OptionalWrote<T(!new)>(c: Codec<T>, v: Option<T>, s0: seq<byte>, s1: seq<byte>, s2: seq<byte>, first: bool,
      ok: bool)
    requires (first <==> |s0| + 1 <= LIMIT) && (first ==> s1 == s0 + [BoolCode(v.Some?)])
    requires if !first then !ok
      else match v case None => ok && s2 == s1 case Some(x) => Wrote(s1, s2, c.put(|s1|, x), ok)
    ensures Wrote(s0, s2, Optional(c).put(|s0|, v), ok)
  {
    if first {
      OptionalPut(c, |s0|, v);
      if ok && v.Some? {
        assert s1 + c.put(|s1|, v.value).value == s0 + ([1] + c.put(|s1|, v.value).value);
      }
    }
  }

  lemma FormOk<A(!new), T(!new)>(c: Codec<A>, mk: A -> T, un: T -> Option<A>, v: T)
    requires Form(c, mk, un).ok(v)
    ensures un(v).Some? && c.ok(un(v).value)
  {
  }

  lemma CheckedPut<T(!new)>(c: Codec<T>, p: T -> bool, at: nat, v: T)
    ensures Checked(c, p).put(at, v) == if p(v) then c.put(at, v) else None
  {
  }

  // Fields

  /** An identity is written as it is. */
  lemma IdPuts(v: Id)
    ensures forall at: nat :: BranchIdField().put(at, v) == Raw(at, v)
    ensures forall at: nat :: CommitIdField().put(at, v) == Raw(at, v)
    ensures forall at: nat :: StackIdField().put(at, v) == Raw(at, v)
    ensures forall at: nat :: LayerIdField().put(at, v) == Raw(at, v)
    ensures forall at: nat :: WorkspaceIdField().put(at, v) == Raw(at, v)
  {
  }

  method PutId(out: Writer, ghost c: Codec<Id>, v: Id) returns (ok: bool)
    requires forall at: nat :: c.put(at, v) == Raw(at, v)
    modifies out
    ensures Wrote(old(out.data), out.data, c.put(|old(out.data)|, v), ok)
  {
    ok := out.Put(v);
  }

  /** Two identities in a row. */
  method PutIds(out: Writer, ghost a: Codec<Id>, ghost b: Codec<Id>, v: Id, w: Id) returns (ok: bool)
    requires forall at: nat :: a.put(at, v) == Raw(at, v)
    requires forall at: nat :: b.put(at, w) == Raw(at, w)
    modifies out
    ensures Wrote(old(out.data), out.data, Pair(a, b).put(|old(out.data)|, (v, w)), ok)
  {
    hide Pair, Wrote;
    ghost var s0 := out.data;
    var first := PutId(out, a, v);
    ghost var s1 := out.data;
    ok := first;
    if first {
      ok := PutId(out, b, w);
    }
    PairWrote(a, b, (v, w), s0, s1, out.data, first, ok);
  }

  method PutRun(out: Writer, maximum: nat, valid: seq<byte> -> bool, s: seq<byte>) returns (ok: bool)
    requires maximum < 0x1_0000 && |s| <= maximum
    modifies out
    ensures Wrote(old(out.data), out.data, Run(2, maximum, valid).put(|old(out.data)|, s), ok)
    ensures ok ==> |out.data| <= LIMIT
  {
    hide BigEndian;
    Widths();
    ok := out.Blob(s);
    if ok {
      assert out.data == old(out.data) + (BigEndian(|s|, 2) + s);
    }
  }

  method PutCursor(out: Writer, cursor: Option<seq<byte>>) returns (ok: bool)
    modifies out
    ensures Wrote(old(out.data), out.data, CursorField().put(|old(out.data)|, cursor), ok)
  {
    hide Optional, Run, Wrote;
    ghost var s0 := out.data;
    var first := out.Byte(BoolCode(cursor.Some?));
    ghost var s1 := out.data;
    ok := first;
    if first && cursor.Some? {
      CheckedPut(Run(2, CURSOR_BYTES, AnyBytes), CursorWidth, |s1|, cursor.value);
      if |cursor.value| != CURSOR_BYTES {
        ok := false;
        NotWrote(s1, Checked(Run(2, CURSOR_BYTES, AnyBytes), CursorWidth).put(|s1|, cursor.value));
      } else {
        ok := PutRun(out, CURSOR_BYTES, AnyBytes, cursor.value);
      }
    }
    OptionalWrote(Checked(Run(2, CURSOR_BYTES, AnyBytes), CursorWidth), cursor, s0, s1, out.data, first, ok);
  }

  method PutMessage(out: Writer, message: Option<seq<byte>>) returns (ok: bool)
    modifies out
    ensures Wrote(old(out.data), out.data, MessageField().put(|old(out.data)|, message), ok)
  {
    hide Optional, Wrote;
    ghost var s0 := out.data;
    var first := out.Byte(BoolCode(message.Some?));
    ghost var s1 := out.data;
    ok := first;
    if first && message.Some? {
      if |message.value| > MAXIMUM_MESSAGE_BYTES {
        ok := false;
        NotWrote(s1, TextField(MAXIMUM_MESSAGE_BYTES).put(|s1|, message.value));
      } else {
        ok := PutRun(out, MAXIMUM_MESSAGE_BYTES, s => Utf8.Valid(s), message.value);
      }
    }
    OptionalWrote(TextField(MAXIMUM_MESSAGE_BYTES), message, s0, s1, out.data, first, ok);
  }

  method PutLimit(out: Writer, limit: int) returns (ok: bool)
    requires InWindow(limit)
    modifies out
    ensures Wrote(old(out.data), out.data, LimitField().put(|old(out.data)|, limit), ok)
  {
    hide BigEndian;
    ok := out.Put(BigEndian(limit, 2));
  }

  /** The cursor and the limit of a page. */
  method PutPage(out: Writer, cursor: Option<seq<byte>>, limit: int) returns (ok: bool)
    requires InWindow(limit)
    modifies out
    ensures Wrote(old(out.data), out.data, Pair(CursorField(), LimitField()).put(|old(out.data)|, (cursor, limit)), ok)
  {
    hide Pair, CursorField, LimitField, Wrote;
    ghost var s0 := out.data;
    var first := PutCursor(out, cursor);
    ghost var s1 := out.data;
    ok := first;
    if first {
      ok := PutLimit(out, limit);
    }
    PairWrote(CursorField(), LimitField(), (cursor, limit), s0, s1, out.data, first, ok);
  }

  method PutSource(out: Writer, source: ForkSource) returns (ok: bool)
    modifies out
    ensures Wrote(old(out.data), out.data, SourceField().put(|old(out.data)|, source), ok)
  {
    hide Pair, Wrote, Form, BranchIdField, CommitIdField, LayerIdField, Choice;
    ghost var s0 := out.data;
    match source {
      case FromLayer(id) =>
        var first := out.Byte(1);
        ghost var s1 := out.data;
        ok := first;
        if first {
          IdPuts(id);
          ok := PutId(out, LayerIdField(), id);
          FormPut(LayerIdField(), MakeFromLayer, OpenFromLayer, |s1|, source);
        }
        ChoiceWrote(SourceTag, SourceForm, source, 1, s0, s1, out.data, first, ok);
      case FromCommit(branch, commit) =>
        var first := out.Byte(2);
        ghost var s1 := out.data;
        ok := first;
        if first {
          IdPuts(branch);
          IdPuts(commit);
          ok := PutIds(out, BranchIdField(), CommitIdField(), branch, commit);
          FormPut(Pair(BranchIdField(), CommitIdField()), MakeFromCommit, OpenFromCommit, |s1|, source);
        }
        ChoiceWrote(SourceTag, SourceForm, source, 2, s0, s1, out.data, first, ok);
    }
  }

  method PutFork(out: Writer, fork: ForkRequest) returns (ok: bool)
    requires ForkForm().ok(Fork(fork))
    modifies out
    ensures Wrote(old(out.data), out.data, ForkForm().put(|old(out.data)|, Fork(fork)), ok)
  {
    hide Pair, Wrote, Form, StackIdField, BranchIdField, HistoryNameField, SourceField, Run;
    ForkOk(fork);
    ghost var head, tail := Pair(StackIdField(), BranchIdField()), Pair(HistoryNameField(), SourceField());
    ghost var s0 := out.data;
    IdPuts(fork.stack);
    IdPuts(fork.branch);
    var first := PutIds(out, StackIdField(), BranchIdField(), fork.stack, fork.branch);
    ghost var s1 := out.data;
    ok := first;
    if first {
      var second := PutName(out, fork.name);
      ghost var s2 := out.data;
      ok := second;
      if second {
        ok := PutSource(out, fork.source);
      }
      PairWrote(HistoryNameField(), SourceField(), (fork.name, fork.source), s1, s2, out.data, second, ok);
    }
    PairWrote(head, tail, OpenFork(Fork(fork)).value, s0, s1, out.data, first, ok);
    FormPut(Pair(head, tail), MakeFork, OpenFork, |s0|, Fork(fork));
  }

  method PutName(out: Writer, name: seq<byte>) returns (ok: bool)
    requires IsName(name)
    modifies out
    ensures Wrote(old(out.data), out.data, HistoryNameField().put(|old(out.data)|, name), ok)
  {
    ok := PutRun(out, 63, NameText, name);
  }

  lemma ForkOk(fork: ForkRequest)
    requires ForkForm().ok(Fork(fork))
    ensures IsName(fork.name)
  {
    hide Form, Pair, StackIdField, BranchIdField, SourceField, HistoryNameField, IsName;
    var parts := Pair(Pair(StackIdField(), BranchIdField()), Pair(HistoryNameField(), SourceField()));
    FormOk(parts, MakeFork, OpenFork, Fork(fork));
    PairOk(Pair(StackIdField(), BranchIdField()), Pair(HistoryNameField(), SourceField()), OpenFork(Fork(fork)).value);
    PairOk(HistoryNameField(), SourceField(), (fork.name, fork.source));
    NameOk(fork.name);
  }

  lemma NameOk(name: seq<byte>)
    requires HistoryNameField().ok(name)
    ensures IsName(name)
  {
    assert NameText(name);
  }

  method PutHistory(out: Writer, h: HistoryRequest) returns (ok: bool)
    requires InWindow(h.limit)
    modifies out
    ensures Wrote(old(out.data), out.data, HistoryForm().put(|old(out.data)|, History(h)), ok)
  {
    hide Pair, Wrote, Form, BranchIdField, HeadField, CursorField, LimitField;
    ghost var start, page := Pair(BranchIdField(), HeadField()), Pair(CursorField(), LimitField());
    ghost var s0 := out.data;
    IdPuts(h.branch);
    var first := PutId(out, BranchIdField(), h.branch);
    ghost var s1 := out.data;
    var second := first;
    if first {
      second := PutHead(out, h.start);
    }
    ghost var s2 := out.data;
    PairWrote(BranchIdField(), HeadField(), (h.branch, h.start), s0, s1, s2, first, second);
    ok := second;
    if second {
      ok := PutPage(out, h.cursor, h.limit);
    }
    PairWrote(start, page, OpenHistory(History(h)).value, s0, s2, out.data, second, ok);
    FormPut(Pair(start, page), MakeHistory, OpenHistory, |s0|, History(h));
  }

  method PutBranches(out: Writer, stack: Id, cursor: Option<seq<byte>>, limit: int) returns (ok: bool)
    requires InWindow(limit)
    modifies out
    ensures Wrote(old(out.data), out.data, BranchesForm().put(|old(out.data)|, Branches(stack, cursor, limit)), ok)
  {
    hide Pair, Wrote, Form, StackIdField, CursorField, LimitField;
    ghost var page := Pair(CursorField(), LimitField());
    ghost var s0 := out.data;
    IdPuts(stack);
    var first := PutId(out, StackIdField(), stack);
    ghost var s1 := out.data;
    ok := first;
    if first {
      ok := PutPage(out, cursor, limit);
    }
    PairWrote(StackIdField(), page, (stack, (cursor, limit)), s0, s1, out.data, first, ok);
    FormPut(Pair(StackIdField(), page), MakeBranches, OpenBranches, |s0|, Branches(stack, cursor, limit));
  }

  method PutCommit(out: Writer, c: CommitControl) returns (ok: bool)
    requires TokenField().ok(c.token)
    modifies out
    ensures Wrote(old(out.data), out.data, CommitForm().put(|old(out.data)|, Commit(c)), ok)
  {
    hide Pair, Wrote, Form, TokenField, Boolean, MessageField;
    ghost var s0 := out.data;
    var first := PutToken(out, c.token);
    ghost var s1 := out.data;
    ok := first;
    if first {
      var second := PutBoolean(out, c.force);
      ghost var s2 := out.data;
      ok := second;
      if second {
        ok := PutMessage(out, c.message);
      }
      PairWrote(Boolean(), MessageField(), (c.force, c.message), s1, s2, out.data, second, ok);
    }
    PairWrote(TokenField(), Pair(Boolean(), MessageField()), OpenCommit(Commit(c)).value, s0, s1, out.data, first, ok);
    FormPut(Pair(TokenField(), Pair(Boolean(), MessageField())), MakeCommit, OpenCommit, |s0|, Commit(c));
  }

  /** A token and one flag: an unmount or a forced one. */
  method PutTokenFlag(out: Writer, token: WorkspaceToken, flag: bool) returns (ok: bool)
    requires TokenField().ok(token)
    modifies out
    ensures Wrote(old(out.data), out.data, Pair(TokenField(), Boolean()).put(|old(out.data)|, (token, flag)), ok)
  {
    hide Pair, Wrote, TokenField, Boolean;
    ghost var s0 := out.data;
    var first := PutToken(out, token);
    ghost var s1 := out.data;
    ok := first;
    if first {
      ok := PutBoolean(out, flag);
    }
    PairWrote(TokenField(), Boolean(), (token, flag), s0, s1, out.data, first, ok);
  }

  method PutSdkCall(out: Writer, call: SdkCall) returns (ok: bool)
    requires SdkCallField().ok(call)
    modifies out
    ensures Wrote(old(out.data), out.data, SdkCallField().put(|old(out.data)|, call), ok)
  {
    hide Pair, Wrote, Form, NameField, SdkValue.ValueField, TextField;
    SdkOk(call);
    ghost var s0 := out.data;
    var first := PutMethod(out, call.name);
    ghost var s1 := out.data;
    ok := first;
    if first {
      ok := PutArguments(out, call.args);
    }
    PairWrote(NameField(), SdkValue.ValueField(), (call.name, call.args), s0, s1, out.data, first, ok);
    FormPut(Pair(NameField(), SdkValue.ValueField()), MakeCall, OpenCall, |s0|, call);
  }

  lemma SdkOk(call: SdkCall)
    requires SdkCallField().ok(call)
    ensures SdkValue.Typed(call.args)
  {
    hide Form, Pair, NameField, SdkValue.Unique;
    FormOk(Pair(NameField(), SdkValue.ValueField()), MakeCall, OpenCall, call);
    PairOk(NameField(), SdkValue.ValueField(), (call.name, call.args));
  }

  method PutMethod(out: Writer, name: seq<byte>) returns (ok: bool)
    modifies out
    ensures Wrote(old(out.data), out.data, NameField().put(|old(out.data)|, name), ok)
    ensures ok ==> |out.data| <= LIMIT
  {
    hide Run, Checked;
    CheckedPut(TextField(SdkValue.MAXIMUM_NAME_BYTES), NonEmpty, |out.data|, name);
    if name == [] || |name| > SdkValue.MAXIMUM_NAME_BYTES {
      LongUnwritten(SdkValue.MAXIMUM_NAME_BYTES, |out.data|, name);
      return false;
    }
    ok := PutRun(out, SdkValue.MAXIMUM_NAME_BYTES, s => Utf8.Valid(s), name);
    TextPuts(SdkValue.MAXIMUM_NAME_BYTES, s => Utf8.Valid(s), |old(out.data)|, name);
  }

  lemma LongUnwritten(maximum: nat, at: nat, s: seq<byte>)
    ensures |s| > maximum ==> TextField(maximum).put(at, s) == None
  {
  }

  /** What is written of a text does not depend on the test its reader makes. */
  lemma TextPuts(maximum: nat, valid: seq<byte> -> bool, at: nat, s: seq<byte>)
    ensures TextField(maximum).put(at, s) == Run(2, maximum, valid).put(at, s)
  {
  }

  method PutArguments(out: Writer, args: SdkValue.Value) returns (ok: bool)
    requires SdkValue.Typed(args) && |out.data| <= LIMIT
    modifies out
    ensures Wrote(old(out.data), out.data, SdkValue.ValueField().put(|old(out.data)|, args), ok)
  {
    hide SdkValue.Put;
    ok := PutValue(out, args, 0);
  }

  method PutHello(out: Writer, hello: HelloRequest) returns (ok: bool)
    modifies out
    ensures Wrote(old(out.data), out.data, HelloField().put(|old(out.data)|, hello), ok)
  {
    hide Pair, Wrote, Optional, NonZeroField, Boolean, NonZero;
    ghost var s0 := out.data;
    var instance := hello.expectedInstance;
    if instance.Some? && !NonZero(instance.value) {
      ZeroInstance(|s0|, hello);
      NotWrote(s0, HelloField().put(|s0|, hello));
      return false;
    }
    var first := out.Byte(BoolCode(instance.Some?));
    ghost var s1 := out.data;
    var second := first;
    if first && instance.Some? {
      NonZeroPuts(instance.value);
      second := PutId(out, NonZeroField(), instance.value);
    }
    ghost var s2 := out.data;
    OptionalWrote(NonZeroField(), instance, s0, s1, s2, first, second);
    ok := second;
    if second {
      ok := PutBoolean(out, hello.waitForStore);
    }
    PairWrote(Optional(NonZeroField()), Boolean(), HelloDown(hello), s0, s2, out.data, second, ok);
    ViaPut(Pair(Optional(NonZeroField()), Boolean()), HelloDown, HelloUp, |s0|, hello);
  }

  lemma NonZeroPuts(v: Id)
    requires NonZero(v)
    ensures forall at: nat :: NonZeroField().put(at, v) == Raw(at, v)
  {
    hide NonZero;
  }

  lemma ZeroInstance(at: nat, hello: HelloRequest)
    requires hello.expectedInstance.Some? && !NonZero(hello.expectedInstance.value)
    ensures HelloField().put(at, hello) == None
  {
    hide Pair, Optional, NonZero;
    PairPut(Optional(NonZeroField()), Boolean(), at, HelloDown(hello));
    if at < LIMIT {
      OptionalPut(NonZeroField(), at, hello.expectedInstance);
    } else {
      FullRecord(at, hello.expectedInstance);
    }
  }

  lemma FullRecord(at: nat, v: Option<Id>)
    requires at >= LIMIT
    ensures Optional(NonZeroField()).put(at, v) == None
  {
  }

  // The operation and the call

  /** The form of an operation that is not observed. */
  function BodyForm(r: Request): Codec<Request> {
    match r
    case Observed(_, _, _) => Refused()
    case Cleanup(_) => CleanupForm()
    case EndSession => Only(EndSession)
    case Hello(_) => HelloForm()
    case Mount(_, _) => MountForm()
    case Sdk(_) => SdkForm()
    case Commit(_) => CommitForm()
    case Status(_) => StatusForm()
    case Unmount(_, _) => UnmountForm()
    case Fork(_) => ForkForm()
    case History(_) => HistoryForm()
    case Branches(_, _, _) => BranchesForm()
    case Attach(_) => AttachForm()
    case Locate(_) => LocateForm()
    case ForceUnmount(_, _) => ForceForm()
  }

  lemma OrdinaryFormIs(r: Request)
    requires !r.Observed? && !r.Hello? && !r.EndSession?
    ensures OrdinaryForm(RequestTag(r)) == BodyForm(r)
  {
    hide MountForm, CommitForm, StatusForm, UnmountForm, ForkForm, HistoryForm, AttachForm, LocateForm, HelloForm;
    hide ForceForm, CleanupForm, BranchesForm, SdkForm, Only, Refused;
  }

  lemma BodyFormIs(r: Request)
    requires !r.Observed?
    ensures RequestForm(RequestTag(r)) == BodyForm(r)
  {
    hide OrdinaryForm, HelloForm, Only, ObservedForm;
    if r.Hello? || r.EndSession? {
    } else {
      hide BodyForm;
      OrdinaryFormIs(r);
    }
  }

  lemma TypedBody(r: Request)
    requires !r.Observed? && !r.Hello? && !r.EndSession? && TypedRequest(r)
    ensures BodyForm(r).ok(r)
  {
    hide OrdinaryForm, BodyForm, RequestTag;
    OrdinaryFormIs(r);
  }

  lemma TokenOk(r: Request)
    requires BodyForm(r).ok(r) && (r.Status? || r.Attach? || r.Cleanup?)
    ensures TokenField().ok(r.token)
  {
    hide Form, TokenField;
    hide MountForm, CommitForm, UnmountForm, ForkForm, HistoryForm, LocateForm, HelloForm;
    hide ForceForm, BranchesForm, SdkForm, Only;
    match r {
      case Status(_) => FormOk(TokenField(), MakeStatus, OpenStatus, r);
      case Attach(_) => FormOk(TokenField(), MakeAttach, OpenAttach, r);
      case Cleanup(_) => FormOk(TokenField(), MakeCleanup, OpenCleanup, r);
    }
  }

  lemma FlaggedOk(r: Request)
    requires BodyForm(r).ok(r) && (r.Unmount? || r.ForceUnmount?)
    ensures TokenField().ok(r.token)
  {
    hide Form, Pair, TokenField, Boolean;
    hide MountForm, CommitForm, StatusForm, ForkForm, HistoryForm, AttachForm, LocateForm, HelloForm;
    hide CleanupForm, BranchesForm, SdkForm, Only;
    if r.Unmount? {
      FormOk(Pair(TokenField(), Boolean()), MakeUnmount, OpenUnmount, r);
      PairOk(TokenField(), Boolean(), (r.token, r.discard));
    } else {
      FormOk(Pair(TokenField(), Boolean()), MakeForce, OpenForce, r);
      PairOk(TokenField(), Boolean(), (r.token, r.relinquishUnknown));
    }
  }

  lemma CommitOk(r: Request)
    requires BodyForm(r).ok(r) && r.Commit?
    ensures TokenField().ok(r.commit.token)
  {
    hide Form, Pair, TokenField, Boolean, MessageField;
    FormOk(Pair(TokenField(), Pair(Boolean(), MessageField())), MakeCommit, OpenCommit, r);
    PairOk(TokenField(), Pair(Boolean(), MessageField()), OpenCommit(r).value);
  }

  lemma FormsPut(at: nat, r: Request)
    ensures r.Status? ==> StatusForm().put(at, r) == TokenField().put(at, r.token)
    ensures r.Attach? ==> AttachForm().put(at, r) == TokenField().put(at, r.token)
    ensures r.Cleanup? ==> CleanupForm().put(at, r) == TokenField().put(at, r.token)
    ensures r.Unmount? ==> UnmountForm().put(at, r) == Pair(TokenField(), Boolean()).put(at, (r.token, r.discard))
    ensures r.ForceUnmount? ==>
      ForceForm().put(at, r) == Pair(TokenField(), Boolean()).put(at, (r.token, r.relinquishUnknown))
    ensures r.Mount? ==>
      MountForm().put(at, r) == Pair(WorkspaceIdField(), BranchIdField()).put(at, (r.workspace, r.branch))
    ensures r.Locate? ==> LocateForm().put(at, r) == WorkspaceIdField().put(at, r.workspace)
    ensures r.Sdk? ==> SdkForm().put(at, r) == SdkCallField().put(at, r.call)
    ensures r.Hello? ==> HelloForm().put(at, r) == HelloField().put(at, r.hello)
  {
    hide Form, Pair, TokenField, Boolean, WorkspaceIdField, BranchIdField, SdkCallField, HelloField;
    match r {
      case Status(_) => FormPut(TokenField(), MakeStatus, OpenStatus, at, r);
      case Attach(_) => FormPut(TokenField(), MakeAttach, OpenAttach, at, r);
      case Cleanup(_) => FormPut(TokenField(), MakeCleanup, OpenCleanup, at, r);
      case Unmount(_, _) => FormPut(Pair(TokenField(), Boolean()), MakeUnmount, OpenUnmount, at, r);
      case ForceUnmount(_, _) => FormPut(Pair(TokenField(), Boolean()), MakeForce, OpenForce, at, r);
      case Mount(_, _) => FormPut(Pair(WorkspaceIdField(), BranchIdField()), MakeMount, OpenMount, at, r);
      case Locate(_) => FormPut(WorkspaceIdField(), MakeLocate, OpenLocate, at, r);
      case Sdk(_) => FormPut(SdkCallField(), MakeSdk, OpenSdk, at, r);
      case Hello(_) => FormPut(HelloField(), MakeHello, OpenHello, at, r);
      case _ =>
    }
  }

  /** The limits that `window` accepts. */
  predicate Windowed(r: Request) {
    match r case Branches(_, _, limit) => InWindow(limit) case History(h) => InWindow(h.limit) case _ => true
  }

  lemma NothingWrote(s: seq<byte>)
    requires |s| <= LIMIT
    ensures Wrote(s, s, Only(EndSession).put(|s|, EndSession), true)
  {
    assert s + [] == s;
  }

  /** What follows the tag of an operation that is not observed. */
  method PutBody(out: Writer, r: Request) returns (ok: bool)
    requires |out.data| <= LIMIT && !r.Observed? && Windowed(r)
    requires BodyForm(r).ok(r) || r.Hello? || r.EndSession?
    modifies out
    ensures Wrote(old(out.data), out.data, BodyForm(r).put(|old(out.data)|, r), ok)
  {
    hide Wrote, Pair, TokenField, Boolean, HelloField, SdkCallField, WorkspaceIdField, BranchIdField;
    hide MountForm, CommitForm, StatusForm, UnmountForm, ForkForm, HistoryForm, AttachForm, LocateForm, HelloForm;
    hide ForceForm, CleanupForm, BranchesForm, SdkForm;
    FormsPut(|out.data|, r);
    match r {
      case Cleanup(token) =>
        TokenOk(r);
        ok := PutToken(out, token);
      case EndSession =>
        ok := true;
        NothingWrote(out.data);
      case Hello(hello) => ok := PutHello(out, hello);
      case Mount(workspace, branch) =>
        IdPuts(workspace);
        IdPuts(branch);
        ok := PutIds(out, WorkspaceIdField(), BranchIdField(), workspace, branch);
      case Sdk(call) =>
        SdkFormOk(r);
        ok := PutSdkCall(out, call);
      case Commit(commit) =>
        CommitOk(r);
        ok := PutCommit(out, commit);
      case Status(token) =>
        TokenOk(r);
        ok := PutToken(out, token);
      case Unmount(token, discard) =>
        FlaggedOk(r);
        ok := PutTokenFlag(out, token, discard);
      case Fork(fork) => ok := PutFork(out, fork);
      case Attach(token) =>
        TokenOk(r);
        ok := PutToken(out, token);
      case Locate(workspace) =>
        IdPuts(workspace);
        ok := PutId(out, WorkspaceIdField(), workspace);
      case ForceUnmount(token, relinquishUnknown) =>
        FlaggedOk(r);
        ok := PutTokenFlag(out, token, relinquishUnknown);
      case Branches(stack, cursor, limit) => ok := PutBranches(out, stack, cursor, limit);
      case History(history) => ok := PutHistory(out, history);
    }
  }

  lemma SdkFormOk(r: Request)
    requires BodyForm(r).ok(r) && r.Sdk?
    ensures SdkCallField().ok(r.call)
  {
    hide Form, SdkCallField;
    FormOk(SdkCallField(), MakeSdk, OpenSdk, r);
  }

  lemma OutsideWindow(at: nat, r: Request)
    requires !Windowed(r)
    ensures RequestField().put(at, r) == None
  {
    hide RequestForm, HistoryForm, BranchesForm;
    PageUnwritten(at + 1, r);
    BodyFormIs(r);
  }

  lemma PageUnwritten(at: nat, r: Request)
    requires !Windowed(r)
    ensures r.Branches? ==> BranchesForm().put(at, r) == None
    ensures r.History? ==> HistoryForm().put(at, r) == None
  {
    hide Pair, Form, BranchIdField, StackIdField, HeadField, CursorField, LimitField;
    var page := Pair(CursorField(), LimitField());
    if r.Branches? {
      forall p: nat ensures page.put(p, (r.cursor, r.limit)) == None {
        LimitUnwritten(p, r.cursor, r.limit);
      }
      PairPut(StackIdField(), page, at, (r.stack, (r.cursor, r.limit)));
      FormPut(Pair(StackIdField(), page), MakeBranches, OpenBranches, at, r);
    } else if r.History? {
      var h := r.history;
      forall p: nat ensures page.put(p, (h.cursor, h.limit)) == None {
        LimitUnwritten(p, h.cursor, h.limit);
      }
      var start := Pair(BranchIdField(), HeadField());
      PairPut(start, page, at, OpenHistory(r).value);
      FormPut(Pair(start, page), MakeHistory, OpenHistory, at, r);
    }
  }

  lemma LimitUnwritten(at: nat, cursor: Option<seq<byte>>, limit: int)
    requires !InWindow(limit)
    ensures Pair(CursorField(), LimitField()).put(at, (cursor, limit)) == None
  {
    hide Pair, CursorField, U16;
    PairPut(CursorField(), LimitField(), at, (cursor, limit));
  }

  /** The tag and the body of an operation that is not observed. */
  method PutOperation(out: Writer, r: Request) returns (ok: bool)
    requires TypedRequest(r) && !r.Observed?
    modifies out
    ensures Wrote(old(out.data), out.data, RequestField().put(|old(out.data)|, r), ok)
  {
    hide TypedRequest, RequestForm, BodyForm, Wrote, Choice;
    ghost var s0 := out.data;
    if !Windowed(r) {
      OutsideWindow(|s0|, r);
      NotWrote(s0, RequestField().put(|s0|, r));
      return false;
    }
    BodyFormIs(r);
    if !r.Hello? && !r.EndSession? {
      TypedBody(r);
    }
    var first := out.Byte(RequestTag(r));
    ghost var s1 := out.data;
    ok := first;
    if first {
      ok := PutBody(out, r);
    }
    ChoiceWrote(RequestTag, RequestForm, r, RequestTag(r), s0, s1, out.data, first, ok);
  }

  lemma OrdinaryPuts(at: nat, r: Request)
    requires !r.Observed? && !r.Hello? && !r.EndSession?
    ensures OrdinaryField().put(at, r) == RequestField().put(at, r)
  {
    hide OrdinaryForm;
    assert RequestForm(RequestTag(r)) == OrdinaryForm(RequestTag(r));
  }

  /** An observation's tag and scope, then the operation. */
  method PutObserved(out: Writer, r: Request) returns (ok: bool)
    requires r.Observed? && TypedRequest(r.request) && NonZero(r.scope) && WithoutObservation(r).Some?
    modifies out
    ensures Wrote(old(out.data), out.data, RequestField().put(|old(out.data)|, r), ok)
  {
    hide TypedRequest, OrdinaryForm, Wrote, Choice, NonZero, Pair, Form;
    var inner := r.request;
    ghost var s0 := out.data;
    ghost var n := if r.traced then 21 else 12;
    var first := out.Byte(if r.traced then 21 else 12);
    ghost var s1 := out.data;
    ok := first;
    if first {
      NonZeroPuts(r.scope);
      var second := PutId(out, NonZeroField(), r.scope);
      ghost var s2 := out.data;
      ok := second;
      if second {
        OrdinaryPuts(|s2|, inner);
        ok := PutOperation(out, inner);
      }
      PairWrote(NonZeroField(), OrdinaryField(), (r.scope, inner), s1, s2, out.data, second, ok);
      FormPut(Pair(NonZeroField(), OrdinaryField()), MakeObserved(r.traced), OpenObserved(r.traced), |s1|, r);
    }
    ChoiceWrote(RequestTag, RequestForm, r, n, s0, s1, out.data, first, ok);
  }

  /** `Call::encode`: the record of every call a caller can build, or none. */
  method EncodeRecord(c: Call) returns (record: Option<seq<byte>>)
    requires TypedCall(c)
    ensures record == EncodeCall(c)
  {
    hide TypedRequest, RequestField, Pair, Wrote, NonZero, BigEndian, CorrelationField;
    NumberPuts(c.id);
    if c.id == 0 {
      PairPut(CorrelationField(), RequestField(), |CALL_MAGIC|, CallDown(c));
      return None;
    }
    var request := WithoutObservation(c.request);
    if request.None? {
      BadObservationRefused(c);
      return None;
    }
    InnerTyped(c.request);
    var out := new Writer(CALL_MAGIC);
    ghost var s0 := out.data;
    var first := out.Put(BigEndian(c.id, 8));
    ghost var s1 := out.data;
    WroteRaw(s0, s1, BigEndian(c.id, 8), first);
    var ok := first;
    if first {
      if c.request.Observed? {
        ok := PutObserved(out, c.request);
      } else {
        ok := PutOperation(out, c.request);
      }
    }
    PairWrote(CorrelationField(), RequestField(), CallDown(c), s0, s1, out.data, first, ok);
    EncodedIs(out.data, ok, c);
    record := if ok then Some(out.data) else None;
  }

  lemma InnerTyped(r: Request)
    requires TypedRequest(r) && WithoutObservation(r).Some?
    ensures r.Observed? ==> TypedRequest(r.request) && NonZero(r.scope)
  {
    hide NonZero, OrdinaryForm;
  }

  lemma NumberPuts(id: int)
    requires CorrelationField().ok(id)
    ensures id >= 0
    ensures forall at: nat :: CorrelationField().put(at, id) == (if id == 0 then None else Raw(at, BigEndian(id, 8)))
  {
    hide BigEndian, Pow256;
    forall at: nat ensures CorrelationField().put(at, id) == (if id == 0 then None else Raw(at, BigEndian(id, 8))) {
      CheckedPut(U64(), Positive, at, id);
    }
  }

  lemma EncodedIs(data: seq<byte>, ok: bool, c: Call)
    requires Wrote(CALL_MAGIC, data, Pair(CorrelationField(), RequestField()).put(|CALL_MAGIC|, CallDown(c)), ok)
    ensures (if ok then Some(data) else None) == EncodeCall(c)
  {
    hide Pair, RequestField, CorrelationField;
    ViaPut(Pair(CorrelationField(), RequestField()), CallDown, CallUp, |CALL_MAGIC|, c);
  }
}
