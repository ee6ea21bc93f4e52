/** The call record's reader, step by step over one record: it takes exactly what the call's codec gets. */
module CallReaders {
  import opened Wrappers
  import opened Bytes
  import opened Wire
  import opened Codec
  import opened HistoryRecords
  import opened ControlRecords
  import opened SdkWire
  import opened MergeReaders
  import opened ControlCall
  import SdkValue
  import Utf8

  // Flags and forms as they are read

  lemma OptionalGot<T(!new)>(c: Codec<T>, s0: seq<byte>, s1: seq<byte>, s2: seq<byte>, flag: Option<bool>,
                             x: Option<T>, r: Option<Option<T>>)
    requires Got(s1, Boolean().get(s0), flag)
    requires flag == Some(true) ==> Got(s2, c.get(s1), x)
    requires match flag
      case None => r == None
      case Some(there) => if there then r == (if x.None? then None else Some(x)) else r == Some(None) && s2 == s1
    ensures Got(s2, Optional(c).get(s0), r)
  {
    hide Coded;
    CodedGet(BoolCode, BoolOf, s0);
    OptionalGet(c, s0);
  }

  lemma OptionalGet<T(!new)>(c: Codec<T>, b: seq<byte>)
    ensures Optional(c).get(b) ==
      if b == [] then None
      else if b[0] == 0 then Some((None, b[1..]))
      else if b[0] != 1 then None
      else match c.get(b[1..]) case None => None case Some((x, rest)) => Some((Some(x), rest))
  {
    if b != [] {
      assert Optional(c).get(b) == OptionForm(c, b[0]).get(b[1..]);
      if b[0] == 1 {
        FormGet(c, MakeSome, (v: Option<T>) => v, b[1..]);
      }
    }
  }

  lemma FormGet<A(!new), T(!new)>(c: Codec<A>, mk: A -> T, un: T -> Option<A>, b: seq<byte>)
    ensures Form(c, mk, un).get(b) == match c.get(b) case None => None case Some((a, rest)) => Some((mk(a), rest))
  {
  }

  lemma FormGot<A(!new), T(!new)>(
    c: Codec<A>, mk: A -> T, un: T -> Option<A>, s0: seq<byte>, s1: seq<byte>, a: Option<A>, r: Option<T>)
    requires Got(s1, c.get(s0), a) && r == match a case None => None case Some(v) => Some(mk(v))
    ensures Got(s1, Form(c, mk, un).get(s0), r)
  {
    hide Form;
    FormGet(c, mk, un, s0);
  }

  lemma ViaGot<A(!new), T(!new)>(
    c: Codec<A>, down: T -> A, up: A -> T, s0: seq<byte>, s1: seq<byte>, a: Option<A>, r: Option<T>)
    requires Got(s1, c.get(s0), a) && r == match a case None => None case Some(v) => Some(up(v))
    ensures Got(s1, Via(c, down, up).get(s0), r)
  {
  }

  lemma CheckedGot<T(!new)>(c: Codec<T>, p: T -> bool, s0: seq<byte>, s1: seq<byte>, a: Option<T>, r: Option<T>)
    requires Got(s1, c.get(s0), a) && r == if a.Some? && p(a.value) then a else None
    ensures Got(s1, Checked(c, p).get(s0), r)
  {
  }

  /** A tag, then what its form reads. */
  lemma ChoiceGot<T(!new)>(tag: T -> int, form: int -> Codec<T>, s0: seq<byte>, s1: seq<byte>, s2: seq<byte>,
      r: Option<T>)
    requires if s0 == [] then r == None else s1 == s0[1..] && Got(s2, form(s0[0]).get(s1), r)
    ensures Got(s2, Choice(tag, form).get(s0), r)
  {
  }

  // Fields

  function TaggedGet(n: nat, tag: byte, b: seq<byte>): Option<(Id, seq<byte>)> {
    if |b| >= n && Tagged(b[..n], tag) then Some((b[..n], b[n..])) else None
  }

  lemma IdGets()
    ensures forall b :: BranchIdField().get(b) == TaggedGet(17, 0x11, b)
    ensures forall b :: CommitIdField().get(b) == TaggedGet(33, 0x12, b)
    ensures forall b :: StackIdField().get(b) == TaggedGet(17, 0x31, b)
    ensures forall b :: LayerIdField().get(b) == TaggedGet(33, 0x32, b)
  {
  }

  method ReadTagged(input: Reader, n: nat, tag: byte, ghost c: Codec<Id>) returns (r: Option<Id>)
    requires input.Valid() && forall b :: c.get(b) == TaggedGet(n, tag, b)
    modifies input`position
    ensures input.Valid() && Got(input.Rest(), c.get(old(input.Rest())), r)
  {
    r := input.Take(n);
    if r.Some? && !Tagged(r.value, tag) {
      r := None;
    }
  }

  method ReadScope(input: Reader) returns (r: Option<Id>)
    requires input.Valid()
    modifies input`position
    ensures input.Valid() && Got(input.Rest(), NonZeroField().get(old(input.Rest())), r)
  {
    hide NonZero, Checked;
    ghost var s0 := input.Rest();
    r := input.Take(32);
    ghost var any := r;
    assert r.Some? ==> AnyBytes(r.value);
    if r.Some? && !NonZero(r.value) {
      r := None;
    }
    CheckedGot(Fixed(32, AnyBytes), NonZero, s0, input.Rest(), any, r);
  }

  method ReadCursor(input: Reader) returns (r: Option<Option<seq<byte>>>)
    requires input.Valid()
    modifies input`position
    ensures input.Valid() && Got(input.Rest(), CursorField().get(old(input.Rest())), r)
  {
    hide Optional, Boolean, Run;
    ghost var c := Checked(Run(2, CURSOR_BYTES, AnyBytes), CursorWidth);
    ghost var s0 := input.Rest();
    var flag := ReadBoolean(input);
    ghost var s1 := input.Rest();
    var x: Option<seq<byte>> := None;
    if flag == Some(true) {
      x := input.Blob(CURSOR_BYTES);
      BlobGot(CURSOR_BYTES, AnyBytes, s1, input.Rest(), x);
      ghost var any := x;
      if x.Some? && |x.value| != CURSOR_BYTES {
        x := None;
      }
      CheckedGot(Run(2, CURSOR_BYTES, AnyBytes), CursorWidth, s1, input.Rest(), any, x);
    }
    r := Present(flag, x);
    OptionalGot(c, s0, s1, input.Rest(), flag, x, r);
  }

  function Present<T>(flag: Option<bool>, x: Option<T>): Option<Option<T>> {
    if flag.None? || (flag.value && x.None?) then None else Some(x)
  }

  lemma BlobGot(maximum: nat, valid: seq<byte> -> bool, s0: seq<byte>, s1: seq<byte>, r: Option<seq<byte>>)
    requires match TakenBlob(s0, maximum)
      case None => r == None
      case Some((v, rest)) => if valid(v) then r == Some(v) && s1 == rest else r == None
    ensures Got(s1, Run(2, maximum, valid).get(s0), r)
  {
    hide TakenRun;
  }

  method ReadMessage(input: Reader) returns (r: Option<Option<seq<byte>>>)
    requires input.Valid()
    modifies input`position
    ensures input.Valid() && Got(input.Rest(), MessageField().get(old(input.Rest())), r)
  {
    hide Optional, Boolean, TextField, TakenRun;
    ghost var s0 := input.Rest();
    var flag := ReadBoolean(input);
    ghost var s1 := input.Rest();
    var x: Option<seq<byte>> := None;
    if flag == Some(true) {
      x := ReadText(input, MAXIMUM_MESSAGE_BYTES);
    }
    r := Present(flag, x);
    OptionalGot(TextField(MAXIMUM_MESSAGE_BYTES), s0, s1, input.Rest(), flag, x, r);
  }

  method ReadText(input: Reader, maximum: nat) returns (r: Option<seq<byte>>)
    requires input.Valid()
    modifies input`position
    ensures input.Valid() && Got(input.Rest(), TextField(maximum).get(old(input.Rest())), r)
  {
    hide TakenRun, Utf8.Valid;
    r := input.Text(maximum);
  }

  method ReadName(input: Reader) returns (r: Option<seq<byte>>)
    requires input.Valid()
    modifies input`position
    ensures input.Valid() && Got(input.Rest(), HistoryNameField().get(old(input.Rest())), r)
  {
    hide TakenRun, Utf8.Valid, IsName, Run;
    ghost var s0 := input.Rest();
    r := input.Text(63);
    if r.Some? && !IsName(r.value) {
      r := None;
    }
    BlobGot(63, NameText, s0, input.Rest(), r);
  }

  method ReadLimit(input: Reader) returns (r: Option<int>)
    requires input.Valid()
    modifies input`position
    ensures input.Valid() && Got(input.Rest(), LimitField().get(old(input.Rest())), r)
  {
    hide FromBigEndian;
    var n := input.Number(2);
    if n.None? || !InWindow(n.value) {
      return None;
    }
    return Some(n.value);
  }

  method ReadPage(input: Reader) returns (r: Option<(Option<seq<byte>>, int)>)
    requires input.Valid()
    modifies input`position
    ensures input.Valid() && Got(input.Rest(), Pair(CursorField(), LimitField()).get(old(input.Rest())), r)
  {
    hide Pair, CursorField, LimitField;
    ghost var s0 := input.Rest();
    var cursor := ReadCursor(input);
    ghost var s1 := input.Rest();
    var limit: Option<int> := None;
    if cursor.Some? {
      limit := ReadLimit(input);
    }
    r := if cursor.Some? && limit.Some? then Some((cursor.value, limit.value)) else None;
    PairGot(CursorField(), LimitField(), s0, s1, input.Rest(), cursor, limit, r);
  }

  /** Two identities in a row. */
  method ReadIds(input: Reader, n: nat, tag: byte, ghost c: Codec<Id>, m: nat, other: byte, ghost d: Codec<Id>)
    returns (r: Option<(Id, Id)>)
    requires input.Valid()
    requires (forall b :: c.get(b) == TaggedGet(n, tag, b)) && (forall b :: d.get(b) == TaggedGet(m, other, b))
    modifies input`position
    ensures input.Valid() && Got(input.Rest(), Pair(c, d).get(old(input.Rest())), r)
  {
    hide Pair, TaggedGet;
    ghost var s0 := input.Rest();
    var x := ReadTagged(input, n, tag, c);
    ghost var s1 := input.Rest();
    var y: Option<Id> := None;
    if x.Some? {
      y := ReadTagged(input, m, other, d);
    }
    r := if x.Some? && y.Some? then Some((x.value, y.value)) else None;
    PairGot(c, d, s0, s1, input.Rest(), x, y, r);
  }

  method ReadSource(input: Reader) returns (r: Option<ForkSource>)
    requires input.Valid()
    modifies input`position
    ensures input.Valid() && Got(input.Rest(), SourceField().get(old(input.Rest())), r)
  {
    hide Pair, Form, BranchIdField, CommitIdField, LayerIdField;
    IdGets();
    ghost var s0 := input.Rest();
    var tag := input.Byte();
    ghost var s1 := input.Rest();
    match tag {
    case Some(1) =>
      var id := ReadTagged(input, 33, 0x32, LayerIdField());
      r := if id.None? then None else Some(FromLayer(id.value));
      FormGot(LayerIdField(), MakeFromLayer, OpenFromLayer, s1, input.Rest(), id, r);
    case Some(2) =>
      var ids := ReadIds(input, 17, 0x11, BranchIdField(), 33, 0x12, CommitIdField());
      r := if ids.None? then None else Some(FromCommit(ids.value.0, ids.value.1));
      FormGot(Pair(BranchIdField(), CommitIdField()), MakeFromCommit, OpenFromCommit, s1, input.Rest(), ids, r);
    case None => r := None;
    case Some(other) =>
      r := None;
      assert SourceForm(other) == Refused();
    }
    ChoiceGot(SourceTag, SourceForm, s0, s1, input.Rest(), r);
  }

  method ReadFork(input: Reader) returns (r: Option<Request>)
    requires input.Valid()
    modifies input`position
    ensures input.Valid() && Got(input.Rest(), ForkForm().get(old(input.Rest())), r)
  {
    hide Pair, Form, StackIdField, BranchIdField, HistoryNameField, SourceField;
    ghost var head, tail := Pair(StackIdField(), BranchIdField()), Pair(HistoryNameField(), SourceField());
    IdGets();
    ghost var s0 := input.Rest();
    var ids := ReadIds(input, 17, 0x31, StackIdField(), 17, 0x11, BranchIdField());
    ghost var s1 := input.Rest();
    var rest: Option<(seq<byte>, ForkSource)> := None;
    if ids.Some? {
      var name := ReadName(input);
      ghost var s2 := input.Rest();
      var source: Option<ForkSource> := None;
      if name.Some? {
        source := ReadSource(input);
      }
      rest := if name.Some? && source.Some? then Some((name.value, source.value)) else None;
      PairGot(HistoryNameField(), SourceField(), s1, s2, input.Rest(), name, source, rest);
    }
    ghost var all := if ids.Some? && rest.Some? then Some((ids.value, rest.value)) else None;
    PairGot(head, tail, s0, s1, input.Rest(), ids, rest, all);
    r := if ids.None? || rest.None? then None
         else Some(Fork(ForkRequest(ids.value.0, ids.value.1, rest.value.0, rest.value.1)));
    FormGot(Pair(head, tail), MakeFork, OpenFork, s0, input.Rest(), all, r);
  }

  method ReadHistory(input: Reader) returns (r: Option<Request>)
    requires input.Valid()
    modifies input`position
    ensures input.Valid() && Got(input.Rest(), HistoryForm().get(old(input.Rest())), r)
  {
    hide Pair, Form, BranchIdField, HeadField, CursorField, LimitField;
    ghost var start, page := Pair(BranchIdField(), HeadField()), Pair(CursorField(), LimitField());
    IdGets();
    ghost var s0 := input.Rest();
    var branch := ReadTagged(input, 17, 0x11, BranchIdField());
    ghost var s1 := input.Rest();
    var head: Option<Option<Id>> := None;
    if branch.Some? {
      head := ReadHead(input);
    }
    ghost var s2 := input.Rest();
    ghost var first := if branch.Some? && head.Some? then Some((branch.value, head.value)) else None;
    PairGot(BranchIdField(), HeadField(), s0, s1, s2, branch, head, first);
    var rest: Option<(Option<seq<byte>>, int)> := None;
    if branch.Some? && head.Some? {
      rest := ReadPage(input);
    }
    ghost var all := if first.Some? && rest.Some? then Some((first.value, rest.value)) else None;
    PairGot(start, page, s0, s2, input.Rest(), first, rest, all);
    r := if branch.None? || head.None? || rest.None? then None
         else Some(History(HistoryRequest(branch.value, head.value, rest.value.0, rest.value.1)));
    FormGot(Pair(start, page), MakeHistory, OpenHistory, s0, input.Rest(), all, r);
  }

  method ReadBranches(input: Reader) returns (r: Option<Request>)
    requires input.Valid()
    modifies input`position
    ensures input.Valid() && Got(input.Rest(), BranchesForm().get(old(input.Rest())), r)
  {
    hide Pair, Form, StackIdField, CursorField, LimitField;
    ghost var page := Pair(CursorField(), LimitField());
    IdGets();
    ghost var s0 := input.Rest();
    var stack := ReadTagged(input, 17, 0x31, StackIdField());
    ghost var s1 := input.Rest();
    var rest: Option<(Option<seq<byte>>, int)> := None;
    if stack.Some? {
      rest := ReadPage(input);
    }
    ghost var all := if stack.Some? && rest.Some? then Some((stack.value, rest.value)) else None;
    PairGot(StackIdField(), page, s0, s1, input.Rest(), stack, rest, all);
    r := if stack.None? || rest.None? then None else Some(Branches(stack.value, rest.value.0, rest.value.1));
    FormGot(Pair(StackIdField(), page), MakeBranches, OpenBranches, s0, input.Rest(), all, r);
  }

  method ReadCommit(input: Reader) returns (r: Option<Request>)
    requires input.Valid()
    modifies input`position
    ensures input.Valid() && Got(input.Rest(), CommitForm().get(old(input.Rest())), r)
  {
    hide Pair, Form, TokenField, Boolean, MessageField;
    ghost var tail := Pair(Boolean(), MessageField());
    ghost var s0 := input.Rest();
    var token := ReadToken(input);
    ghost var s1 := input.Rest();
    var rest: Option<(bool, Option<seq<byte>>)> := None;
    if token.Some? {
      var force := ReadBoolean(input);
      ghost var s2 := input.Rest();
      var message: Option<Option<seq<byte>>> := None;
      if force.Some? {
        message := ReadMessage(input);
      }
      rest := if force.Some? && message.Some? then Some((force.value, message.value)) else None;
      PairGot(Boolean(), MessageField(), s1, s2, input.Rest(), force, message, rest);
    }
    ghost var all := if token.Some? && rest.Some? then Some((token.value, rest.value)) else None;
    PairGot(TokenField(), tail, s0, s1, input.Rest(), token, rest, all);
    r := if token.None? || rest.None? then None
         else Some(Commit(CommitControl(token.value, rest.value.0, rest.value.1)));
    FormGot(Pair(TokenField(), tail), MakeCommit, OpenCommit, s0, input.Rest(), all, r);
  }

  method ReadTokenFlag(input: Reader) returns (r: Option<(WorkspaceToken, bool)>)
    requires input.Valid()
    modifies input`position
    ensures input.Valid() && Got(input.Rest(), Pair(TokenField(), Boolean()).get(old(input.Rest())), r)
  {
    hide Pair, TokenField, Boolean;
    ghost var s0 := input.Rest();
    var token := ReadToken(input);
    ghost var s1 := input.Rest();
    var flag: Option<bool> := None;
    if token.Some? {
      flag := ReadBoolean(input);
    }
    r := if token.Some? && flag.Some? then Some((token.value, flag.value)) else None;
    PairGot(TokenField(), Boolean(), s0, s1, input.Rest(), token, flag, r);
  }

  method ReadMount(input: Reader) returns (r: Option<Request>)
    requires input.Valid()
    modifies input`position
    ensures input.Valid() && Got(input.Rest(), MountForm().get(old(input.Rest())), r)
  {
    hide Pair, Form, WorkspaceIdField, BranchIdField;
    IdGets();
    ghost var s0 := input.Rest();
    var workspace := ReadWorkspace(input);
    ghost var s1 := input.Rest();
    var branch: Option<Id> := None;
    if workspace.Some? {
      branch := ReadTagged(input, 17, 0x11, BranchIdField());
    }
    ghost var all := if workspace.Some? && branch.Some? then Some((workspace.value, branch.value)) else None;
    PairGot(WorkspaceIdField(), BranchIdField(), s0, s1, input.Rest(), workspace, branch, all);
    r := if workspace.None? || branch.None? then None else Some(Mount(workspace.value, branch.value));
    FormGot(Pair(WorkspaceIdField(), BranchIdField()), MakeMount, OpenMount, s0, input.Rest(), all, r);
  }

  method ReadSdkCall(input: Reader) returns (r: Option<SdkCall>)
    requires input.Valid()
    modifies input`position
    ensures input.Valid() && Got(input.Rest(), SdkCallField().get(old(input.Rest())), r)
  {
    hide Pair, Form, TextField, SdkValue.Get, SdkValue.Visits;
    ghost var s0 := input.Rest();
    var text := ReadText(input, SdkValue.MAXIMUM_NAME_BYTES);
    ghost var s1 := input.Rest();
    var name := if text == Some([]) then None else text;
    CheckedGot(TextField(SdkValue.MAXIMUM_NAME_BYTES), NonEmpty, s0, s1, text, name);
    var args: Option<SdkValue.Value> := None;
    if name.Some? {
      ghost var visits;
      args, visits := ReadValue(input, 0);
    }
    ghost var all := if name.Some? && args.Some? then Some((name.value, args.value)) else None;
    PairGot(NameField(), SdkValue.ValueField(), s0, s1, input.Rest(), name, args, all);
    r := if name.None? || args.None? then None else Some(SdkCall(name.value, args.value));
    FormGot(Pair(NameField(), SdkValue.ValueField()), MakeCall, OpenCall, s0, input.Rest(), all, r);
  }

  method ReadHello(input: Reader) returns (r: Option<HelloRequest>)
    requires input.Valid()
    modifies input`position
    ensures input.Valid() && Got(input.Rest(), HelloField().get(old(input.Rest())), r)
  {
    hide Pair, Optional, Boolean, NonZeroField, Via;
    ghost var s0 := input.Rest();
    var flag := ReadBoolean(input);
    ghost var s1 := input.Rest();
    var x: Option<Id> := None;
    if flag == Some(true) {
      x := ReadScope(input);
    }
    var instance := Present(flag, x);
    ghost var s2 := input.Rest();
    OptionalGot(NonZeroField(), s0, s1, s2, flag, x, instance);
    var wait: Option<bool> := None;
    if instance.Some? {
      wait := ReadBoolean(input);
    }
    ghost var all := if instance.Some? && wait.Some? then Some((instance.value, wait.value)) else None;
    PairGot(Optional(NonZeroField()), Boolean(), s0, s2, input.Rest(), instance, wait, all);
    r := if instance.None? || wait.None? then None else Some(HelloRequest(instance.value, wait.value));
    ViaGot(Pair(Optional(NonZeroField()), Boolean()), HelloDown, HelloUp, s0, input.Rest(), all, r);
  }

  // The operation and the call

  /** What follows `tag`, for an operation that is not observed. */
  method ReadBody(input: Reader, tag: byte) returns (r: Option<Request>)
    requires input.Valid() && tag != 12 && tag != 21
    modifies input`position
    ensures input.Valid() && Got(input.Rest(), RequestForm(tag).get(old(input.Rest())), r)
  {
    hide Form, Pair, TokenField, Boolean, HelloField, SdkCallField, WorkspaceIdField, Only;
    hide ForkForm, HistoryForm, BranchesForm, CommitForm, MountForm;
    ghost var s0 := input.Rest();
    match tag {
      case 14 => r := ReadBranches(input);
      case 13 =>
        var token := ReadToken(input);
        r := if token.None? then None else Some(Cleanup(token.value));
        FormGot(TokenField(), MakeCleanup, OpenCleanup, s0, input.Rest(), token, r);
      case 8 =>
        r := Some(EndSession);
        NothingGot(s0);
      case 7 =>
        var hello := ReadHello(input);
        r := if hello.None? then None else Some(Hello(hello.value));
        FormGot(HelloField(), MakeHello, OpenHello, s0, input.Rest(), hello, r);
      case 1 => r := ReadMount(input);
      case 2 => r := ReadCommit(input);
      case 20 =>
        var call := ReadSdkCall(input);
        r := if call.None? then None else Some(Sdk(call.value));
        FormGot(SdkCallField(), MakeSdk, OpenSdk, s0, input.Rest(), call, r);
      case 3 =>
        var token := ReadToken(input);
        r := if token.None? then None else Some(Status(token.value));
        FormGot(TokenField(), MakeStatus, OpenStatus, s0, input.Rest(), token, r);
      case 4 =>
        var parts := ReadTokenFlag(input);
        r := if parts.None? then None else Some(Unmount(parts.value.0, parts.value.1));
        FormGot(Pair(TokenField(), Boolean()), MakeUnmount, OpenUnmount, s0, input.Rest(), parts, r);
      case 9 =>
        var token := ReadToken(input);
        r := if token.None? then None else Some(Attach(token.value));
        FormGot(TokenField(), MakeAttach, OpenAttach, s0, input.Rest(), token, r);
      case 10 =>
        var workspace := ReadWorkspace(input);
        r := if workspace.None? then None else Some(Locate(workspace.value));
        FormGot(WorkspaceIdField(), MakeLocate, OpenLocate, s0, input.Rest(), workspace, r);
      case 11 =>
        var parts := ReadTokenFlag(input);
        r := if parts.None? then None else Some(ForceUnmount(parts.value.0, parts.value.1));
        FormGot(Pair(TokenField(), Boolean()), MakeForce, OpenForce, s0, input.Rest(), parts, r);
      case 5 => r := ReadFork(input);
      case 6 => r := ReadHistory(input);
      case _ =>
        r := None;
        assert RequestForm(tag) == Refused();
    }
  }

  lemma NothingGot(s: seq<byte>)
    ensures Got(s, Only(EndSession).get(s), Some(EndSession))
  {
  }

  /** After an observation's tag: the scope, the inner tag and the inner operation. */
  method ReadObserved(input: Reader, traced: bool) returns (r: Option<Request>)
    requires input.Valid()
    modifies input`position
    ensures input.Valid() && Got(input.Rest(), ObservedForm(traced).get(old(input.Rest())), r)
  {
    hide Form, Pair, NonZeroField, RequestForm, OrdinaryForm, Choice;
    ghost var s0 := input.Rest();
    var scope := ReadScope(input);
    ghost var s1 := input.Rest();
    var operation: Option<Request> := None;
    if scope.Some? {
      var tag := input.Byte();
      ghost var s2 := input.Rest();
      if tag.Some? && tag.value in {7, 8, 12, 21} {
        InnerRefuses(s1);
      } else {
        if tag.Some? {
          InnerForm(tag.value);
          operation := ReadBody(input, tag.value);
        }
        ChoiceGot(RequestTag, OrdinaryForm, s1, s2, input.Rest(), operation);
      }
    }
    ghost var all := if scope.Some? && operation.Some? then Some((scope.value, operation.value)) else None;
    PairGot(NonZeroField(), OrdinaryField(), s0, s1, input.Rest(), scope, operation, all);
    r := if scope.None? || operation.None? then None else Some(Observed(scope.value, operation.value, traced));
    FormGot(Pair(NonZeroField(), OrdinaryField()), MakeObserved(traced), OpenObserved(traced), s0, input.Rest(), all,
      r);
  }

  lemma InnerForm(n: byte)
    requires n !in {7, 8, 12, 21}
    ensures OrdinaryForm(n) == RequestForm(n)
  {
    hide OrdinaryForm;
  }

  /** `Call::decode`: exactly one call, or none. */
  method DecodeRecord(record: seq<byte>) returns (r: Option<Call>)
    ensures r == DecodeCall(record)
  {
    hide Pair, CorrelationField, RequestForm, Choice, Via, ObservedForm;
    if !Opens(record, CALL_MAGIC) {
      return None;
    }
    var input := new Reader(record, CALL_MAGIC);
    ghost var s0 := input.Rest();
    var id := ReadCorrelation(input);
    ghost var s1 := input.Rest();
    var request: Option<Request> := None;
    if id.Some? {
      var tag := input.Byte();
      ghost var s2 := input.Rest();
      if tag.Some? {
        OuterForm(tag.value);
        if tag.value == 12 || tag.value == 21 {
          request := ReadObserved(input, tag.value == 21);
        } else {
          request := ReadBody(input, tag.value);
        }
      }
      ChoiceGot(RequestTag, RequestForm, s1, s2, input.Rest(), request);
    }
    ghost var all := if id.Some? && request.Some? then Some((id.value, request.value)) else None;
    PairGot(CorrelationField(), RequestField(), s0, s1, input.Rest(), id, request, all);
    var call := if id.None? || request.None? then None else Some(Call(id.value, request.value));
    ViaGot(Pair(CorrelationField(), RequestField()), CallDown, CallUp, s0, input.Rest(), all, call);
    var done := input.Finish();
    return if done then call else None;
  }

  method ReadCorrelation(input: Reader) returns (r: Option<int>)
    requires input.Valid()
    modifies input`position
    ensures input.Valid() && Got(input.Rest(), CorrelationField().get(old(input.Rest())), r)
  {
    hide FromBigEndian;
    var n := input.Number(8);
    if n.None? || n.value == 0 {
      return None;
    }
    return Some(n.value);
  }

  lemma OuterForm(n: byte)
    ensures n == 12 || n == 21 ==> RequestForm(n) == ObservedForm(n == 21)
  {
    hide ObservedForm;
  }
}
