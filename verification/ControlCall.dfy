/**
  One correlated control request. Encoding and decoding are mutually inverse:
  the encoder and the decoder refuse the same requests, observed or not.
*/
module ControlCall {
  import opened Wrappers
  import opened Bytes
  import opened Codec
  import opened HistoryRecords
  import opened ControlRecords
  import opened SdkWire
  import opened Record

  datatype ForkSource = FromLayer(layer: Id) | FromCommit(branch: Id, commit: Id)
  datatype ForkRequest = ForkRequest(stack: Id, branch: Id, name: seq<byte>, source: ForkSource)
  datatype HistoryRequest = HistoryRequest(branch: Id, start: Option<Id>, cursor: Option<seq<byte>>, limit: int)
  datatype CommitControl = CommitControl(token: WorkspaceToken, force: bool, message: Option<seq<byte>>)

  datatype Request =
    | Observed(scope: Id, request: Request, traced: bool)
    | Cleanup(token: WorkspaceToken)
    | EndSession
    | Hello(hello: HelloRequest)
    | Mount(workspace: Id, branch: Id)
    | Sdk(call: SdkCall)
    | Commit(commit: CommitControl)
    | Status(token: WorkspaceToken)
    | Unmount(token: WorkspaceToken, discard: bool)
    | Fork(fork: ForkRequest)
    | History(history: HistoryRequest)
    | Branches(stack: Id, cursor: Option<seq<byte>>, limit: int)
    | Attach(token: WorkspaceToken)
    | Locate(workspace: Id)
    | ForceUnmount(token: WorkspaceToken, relinquishUnknown: bool)

  /** `without_observation`: what is asked for, observed once or not at all. */
  function WithoutObservation(r: Request): Option<Request> {
    match r
    case Observed(scope, inner, _) =>
      if !NonZero(scope) || inner.Observed? || inner.Hello? || inner.EndSession? then None else Some(inner)
    case _ => Some(r)
  }

  function RequestTag(r: Request): int {
    match r
    case Observed(_, _, traced) => if traced then 21 else 12
    case Cleanup(_) => 13
    case EndSession => 8
    case Hello(_) => 7
    case Mount(_, _) => 1
    case Sdk(_) => 20
    case Commit(_) => 2
    case Status(_) => 3
    case Unmount(_, _) => 4
    case Fork(_) => 5
    case History(_) => 6
    case Branches(_, _, _) => 14
    case Attach(_) => 9
    case Locate(_) => 10
    case ForceUnmount(_, _) => 11
  }

  // The forms

  /** A form is inverse both ways and holds the requests of its tag only. */
  ghost predicate Sound(c: Codec<Request>, n: int) { Faithful(c) && Holds(c, RequestTag, n) }

  predicate InWindow(limit: int) { 1 <= limit <= HISTORY_WINDOW }
  function LimitField(): Codec<int> { Checked(U16(), InWindow) }

  lemma LimitFaithful()
    ensures Faithful(LimitField())
  {
    NumbersFaithful();
    CheckedFaithful(U16(), InWindow);
  }

  function MakeMount(p: (Id, Id)): Request { Mount(p.0, p.1) }
  function OpenMount(r: Request): Option<(Id, Id)> { if r.Mount? then Some((r.workspace, r.branch)) else None }
  function MountForm(): Codec<Request> { Form(Pair(WorkspaceIdField(), BranchIdField()), MakeMount, OpenMount) }

  lemma MountFormFaithful()
    ensures Sound(MountForm(), 1)
  {
    hide Faithful, Holds, Pair, WorkspaceIdField, BranchIdField;
    IdsFaithful();
    PairFaithful(WorkspaceIdField(), BranchIdField());
    FormFaithful(Pair(WorkspaceIdField(), BranchIdField()), MakeMount, OpenMount);
    FormHolds(Pair(WorkspaceIdField(), BranchIdField()), MakeMount, OpenMount, RequestTag, 1);
  }

  type CommitParts = (WorkspaceToken, (bool, Option<seq<byte>>))
  function MakeCommit(p: CommitParts): Request { Commit(CommitControl(p.0, p.1.0, p.1.1)) }
  function OpenCommit(r: Request): Option<CommitParts> {
    if r.Commit? then Some((r.commit.token, (r.commit.force, r.commit.message))) else None
  }
  function CommitForm(): Codec<Request> {
    Form(Pair(TokenField(), Pair(Boolean(), MessageField())), MakeCommit, OpenCommit)
  }

  lemma CommitFormFaithful()
    ensures Sound(CommitForm(), 2)
  {
    hide Faithful, Holds, Pair, TokenField, Boolean, MessageField;
    TokenFaithful();
    BooleanFaithful();
    MessageFaithful();
    PairFaithful(Boolean(), MessageField());
    PairFaithful(TokenField(), Pair(Boolean(), MessageField()));
    FormFaithful(Pair(TokenField(), Pair(Boolean(), MessageField())), MakeCommit, OpenCommit);
    FormHolds(Pair(TokenField(), Pair(Boolean(), MessageField())), MakeCommit, OpenCommit, RequestTag, 2);
  }

  function MakeStatus(t: WorkspaceToken): Request { Status(t) }
  function OpenStatus(r: Request): Option<WorkspaceToken> { if r.Status? then Some(r.token) else None }
  function MakeAttach(t: WorkspaceToken): Request { Attach(t) }
  function OpenAttach(r: Request): Option<WorkspaceToken> { if r.Attach? then Some(r.token) else None }
  function MakeCleanup(t: WorkspaceToken): Request { Cleanup(t) }
  function OpenCleanup(r: Request): Option<WorkspaceToken> { if r.Cleanup? then Some(r.token) else None }
  function StatusForm(): Codec<Request> { Form(TokenField(), MakeStatus, OpenStatus) }
  function AttachForm(): Codec<Request> { Form(TokenField(), MakeAttach, OpenAttach) }
  function CleanupForm(): Codec<Request> { Form(TokenField(), MakeCleanup, OpenCleanup) }

  lemma TokenFormsFaithful()
    ensures Sound(StatusForm(), 3) && Sound(AttachForm(), 9) && Sound(CleanupForm(), 13)
  {
    hide Faithful, Holds, TokenField;
    TokenFaithful();
    FormFaithful(TokenField(), MakeStatus, OpenStatus);
    FormHolds(TokenField(), MakeStatus, OpenStatus, RequestTag, 3);
    FormFaithful(TokenField(), MakeAttach, OpenAttach);
    FormHolds(TokenField(), MakeAttach, OpenAttach, RequestTag, 9);
    FormFaithful(TokenField(), MakeCleanup, OpenCleanup);
    FormHolds(TokenField(), MakeCleanup, OpenCleanup, RequestTag, 13);
  }

  function MakeUnmount(p: (WorkspaceToken, bool)): Request { Unmount(p.0, p.1) }
  function OpenUnmount(r: Request): Option<(WorkspaceToken, bool)> {
    if r.Unmount? then Some((r.token, r.discard)) else None
  }
  function MakeForce(p: (WorkspaceToken, bool)): Request { ForceUnmount(p.0, p.1) }
  function OpenForce(r: Request): Option<(WorkspaceToken, bool)> {
    if r.ForceUnmount? then Some((r.token, r.relinquishUnknown)) else None
  }
  function UnmountForm(): Codec<Request> { Form(Pair(TokenField(), Boolean()), MakeUnmount, OpenUnmount) }
  function ForceForm(): Codec<Request> { Form(Pair(TokenField(), Boolean()), MakeForce, OpenForce) }

  lemma UnmountFormsFaithful()
    ensures Sound(UnmountForm(), 4) && Sound(ForceForm(), 11)
  {
    hide Faithful, Holds, Pair, TokenField, Boolean;
    TokenFaithful();
    BooleanFaithful();
    PairFaithful(TokenField(), Boolean());
    FormFaithful(Pair(TokenField(), Boolean()), MakeUnmount, OpenUnmount);
    FormHolds(Pair(TokenField(), Boolean()), MakeUnmount, OpenUnmount, RequestTag, 4);
    FormFaithful(Pair(TokenField(), Boolean()), MakeForce, OpenForce);
    FormHolds(Pair(TokenField(), Boolean()), MakeForce, OpenForce, RequestTag, 11);
  }

  function SourceTag(s: ForkSource): int { if s.FromLayer? then 1 else 2 }
  function MakeFromLayer(id: Id): ForkSource { FromLayer(id) }
  function OpenFromLayer(s: ForkSource): Option<Id> { if s.FromLayer? then Some(s.layer) else None }
  function MakeFromCommit(p: (Id, Id)): ForkSource { FromCommit(p.0, p.1) }
  function OpenFromCommit(s: ForkSource): Option<(Id, Id)> {
    if s.FromCommit? then Some((s.branch, s.commit)) else None
  }
  function SourceForm(n: int): Codec<ForkSource> {
    match n
    case 1 => Form(LayerIdField(), MakeFromLayer, OpenFromLayer)
    case 2 => Form(Pair(BranchIdField(), CommitIdField()), MakeFromCommit, OpenFromCommit)
    case _ => Refused()
  }
  function SourceField(): Codec<ForkSource> { Choice(SourceTag, SourceForm) }

  lemma SourceFaithful()
    ensures Faithful(SourceField())
  {
    hide Lawful, Exact, Holds, Pair, LayerIdField, BranchIdField, CommitIdField;
    IdsFaithful();
    PairFaithful(BranchIdField(), CommitIdField());
    FormFaithful(LayerIdField(), MakeFromLayer, OpenFromLayer);
    FormFaithful(Pair(BranchIdField(), CommitIdField()), MakeFromCommit, OpenFromCommit);
    RefusedFaithful<ForkSource>();
    ChoiceLaw(SourceTag, SourceForm);
  }

  type ForkParts = ((Id, Id), (seq<byte>, ForkSource))
  function MakeFork(p: ForkParts): Request { Fork(ForkRequest(p.0.0, p.0.1, p.1.0, p.1.1)) }
  function OpenFork(r: Request): Option<ForkParts> {
    if r.Fork? then Some(((r.fork.stack, r.fork.branch), (r.fork.name, r.fork.source))) else None
  }
  function ForkForm(): Codec<Request> {
    Form(Pair(Pair(StackIdField(), BranchIdField()), Pair(HistoryNameField(), SourceField())), MakeFork, OpenFork)
  }

  lemma ForkFormFaithful()
    ensures Sound(ForkForm(), 5)
  {
    hide Faithful, Holds, Pair, StackIdField, BranchIdField, HistoryNameField, SourceField;
    IdsFaithful();
    HistoryNameFaithful();
    SourceFaithful();
    PairFaithful(StackIdField(), BranchIdField());
    PairFaithful(HistoryNameField(), SourceField());
    PairFaithful(Pair(StackIdField(), BranchIdField()), Pair(HistoryNameField(), SourceField()));
    FormFaithful(Pair(Pair(StackIdField(), BranchIdField()), Pair(HistoryNameField(), SourceField())), MakeFork,
      OpenFork);
    FormHolds(Pair(Pair(StackIdField(), BranchIdField()), Pair(HistoryNameField(), SourceField())), MakeFork, OpenFork,
      RequestTag, 5);
  }

  type HistoryParts = ((Id, Option<Id>), (Option<seq<byte>>, int))
  function MakeHistory(p: HistoryParts): Request { History(HistoryRequest(p.0.0, p.0.1, p.1.0, p.1.1)) }
  function OpenHistory(r: Request): Option<HistoryParts> {
    if r.History? then Some(((r.history.branch, r.history.start), (r.history.cursor, r.history.limit))) else None
  }
  function HistoryForm(): Codec<Request> {
    Form(Pair(Pair(BranchIdField(), HeadField()), Pair(CursorField(), LimitField())), MakeHistory, OpenHistory)
  }

  function MakeBranches(p: (Id, (Option<seq<byte>>, int))): Request { Branches(p.0, p.1.0, p.1.1) }
  function OpenBranches(r: Request): Option<(Id, (Option<seq<byte>>, int))> {
    if r.Branches? then Some((r.stack, (r.cursor, r.limit))) else None
  }
  function BranchesForm(): Codec<Request> {
    Form(Pair(StackIdField(), Pair(CursorField(), LimitField())), MakeBranches, OpenBranches)
  }

  lemma PageFormsFaithful()
    ensures Sound(HistoryForm(), 6) && Sound(BranchesForm(), 14)
  {
    hide Faithful, Holds, Pair, BranchIdField, StackIdField, HeadField, CursorField, LimitField;
    var page := Pair(CursorField(), LimitField());
    IdsFaithful();
    HeadFaithful();
    CursorFaithful();
    LimitFaithful();
    PairFaithful(CursorField(), LimitField());
    PairFaithful(BranchIdField(), HeadField());
    PairFaithful(Pair(BranchIdField(), HeadField()), page);
    FormFaithful(Pair(Pair(BranchIdField(), HeadField()), page), MakeHistory, OpenHistory);
    FormHolds(Pair(Pair(BranchIdField(), HeadField()), page), MakeHistory, OpenHistory, RequestTag, 6);
    PairFaithful(StackIdField(), page);
    FormFaithful(Pair(StackIdField(), page), MakeBranches, OpenBranches);
    FormHolds(Pair(StackIdField(), page), MakeBranches, OpenBranches, RequestTag, 14);
  }

  function MakeLocate(w: Id): Request { Locate(w) }
  function OpenLocate(r: Request): Option<Id> { if r.Locate? then Some(r.workspace) else None }
  function LocateForm(): Codec<Request> { Form(WorkspaceIdField(), MakeLocate, OpenLocate) }

  function MakeSdk(c: SdkCall): Request { Sdk(c) }
  function OpenSdk(r: Request): Option<SdkCall> { if r.Sdk? then Some(r.call) else None }
  function SdkForm(): Codec<Request> { Form(SdkCallField(), MakeSdk, OpenSdk) }

  function MakeHello(h: HelloRequest): Request { Hello(h) }
  function OpenHello(r: Request): Option<HelloRequest> { if r.Hello? then Some(r.hello) else None }
  function HelloForm(): Codec<Request> { Form(HelloField(), MakeHello, OpenHello) }

  lemma OtherFormsFaithful()
    ensures Sound(LocateForm(), 10) && Sound(SdkForm(), 20) && Sound(HelloForm(), 7)
  {
    hide Lawful, Exact, Holds, WorkspaceIdField, SdkCallField, HelloField;
    IdsFaithful();
    SdkCallLaw();
    HelloFaithful();
    FormFaithful(WorkspaceIdField(), MakeLocate, OpenLocate);
    FormHolds(WorkspaceIdField(), MakeLocate, OpenLocate, RequestTag, 10);
    FormFaithful(SdkCallField(), MakeSdk, OpenSdk);
    FormHolds(SdkCallField(), MakeSdk, OpenSdk, RequestTag, 20);
    FormFaithful(HelloField(), MakeHello, OpenHello);
    FormHolds(HelloField(), MakeHello, OpenHello, RequestTag, 7);
  }

  /** The operations an observation may wrap. */
  function OrdinaryForm(n: int): Codec<Request> {
    match n
    case 1 => MountForm()
    case 2 => CommitForm()
    case 3 => StatusForm()
    case 4 => UnmountForm()
    case 5 => ForkForm()
    case 6 => HistoryForm()
    case 9 => AttachForm()
    case 10 => LocateForm()
    case 11 => ForceForm()
    case 13 => CleanupForm()
    case 14 => BranchesForm()
    case 20 => SdkForm()
    case _ => Refused()
  }

  function OrdinaryField(): Codec<Request> { Choice(RequestTag, OrdinaryForm) }

  lemma OrdinaryFormFaithful(n: byte)
    ensures Sound(OrdinaryForm(n), n)
  {
    hide Lawful, Exact, Holds, MountForm, CommitForm, StatusForm, UnmountForm, ForkForm, HistoryForm, AttachForm;
    hide LocateForm;
    hide ForceForm, CleanupForm, BranchesForm, SdkForm;
    MountFormFaithful();
    CommitFormFaithful();
    TokenFormsFaithful();
    UnmountFormsFaithful();
    ForkFormFaithful();
    PageFormsFaithful();
    OtherFormsFaithful();
    NoFormIsSound(n);
  }

  lemma NoFormIsSound(n: int)
    ensures Sound(Refused<Request>(), n) && (n == 8 ==> Sound(Only(EndSession), n))
  {
    RefusedFaithful<Request>();
    OnlyFaithful(EndSession);
  }

  lemma OrdinaryFaithful()
    ensures Faithful(OrdinaryField())
  {
    hide Lawful, Exact, Holds, OrdinaryForm;
    forall n: byte ensures Faithful(OrdinaryForm(n)) {
      OrdinaryFormFaithful(n);
    }
    forall n: byte, r | OrdinaryForm(n).ok(r) ensures RequestTag(r) == n {
      OrdinaryFormFaithful(n);
      HoldsAt(OrdinaryForm(n), RequestTag, n, r);
    }
    ChoiceLaw(RequestTag, OrdinaryForm);
  }

  // The observation wrapper

  function MakeObserved(traced: bool): ((Id, Request)) -> Request { (p: (Id, Request)) => Observed(p.0, p.1, traced) }
  function OpenObserved(traced: bool): Request -> Option<(Id, Request)> {
    (r: Request) => if r.Observed? && r.traced == traced then Some((r.scope, r.request)) else None
  }
  function ObservedForm(traced: bool): Codec<Request> {
    Form(Pair(NonZeroField(), OrdinaryField()), MakeObserved(traced), OpenObserved(traced))
  }

  lemma ObservedFaithful(traced: bool)
    ensures Sound(ObservedForm(traced), if traced then 21 else 12)
  {
    hide Faithful, Holds, Pair, NonZeroField, OrdinaryField;
    NonZeroFaithful();
    OrdinaryFaithful();
    PairFaithful(NonZeroField(), OrdinaryField());
    FormFaithful(Pair(NonZeroField(), OrdinaryField()), MakeObserved(traced), OpenObserved(traced));
    var n := if traced then 21 else 12;
    FormHolds(Pair(NonZeroField(), OrdinaryField()), MakeObserved(traced), OpenObserved(traced), RequestTag, n);
  }

  function RequestForm(n: int): Codec<Request> {
    match n
    case 7 => HelloForm()
    case 8 => Only(EndSession)
    case 12 => ObservedForm(false)
    case 21 => ObservedForm(true)
    case _ => OrdinaryForm(n)
  }
  function RequestField(): Codec<Request> { Choice(RequestTag, RequestForm) }

  lemma RequestFormFaithful(n: byte)
    ensures Sound(RequestForm(n), n)
  {
    hide Lawful, Exact, Holds, HelloForm, ObservedForm, OrdinaryForm, LocateForm, SdkForm, Only;
    OtherFormsFaithful();
    NoFormIsSound(8);
    ObservedFaithful(true);
    ObservedFaithful(false);
    OrdinaryFormFaithful(n);
  }

  lemma RequestFaithful()
    ensures Faithful(RequestField())
  {
    hide Lawful, Exact, Holds, RequestForm;
    forall n: byte ensures Faithful(RequestForm(n)) {
      RequestFormFaithful(n);
    }
    forall n: byte, r | RequestForm(n).ok(r) ensures RequestTag(r) == n {
      RequestFormFaithful(n);
      HoldsAt(RequestForm(n), RequestTag, n, r);
    }
    ChoiceLaw(RequestTag, RequestForm);
  }

  // The call

  datatype Call = Call(id: int, request: Request)

  function CallDown(c: Call): (int, Request) { (c.id, c.request) }
  function CallUp(p: (int, Request)): Call { Call(p.0, p.1) }
  function CallField(): Codec<Call> { Via(Pair(CorrelationField(), RequestField()), CallDown, CallUp) }

  lemma CallFaithful()
    ensures Faithful(CallField())
  {
    hide Faithful, Holds, Pair, CorrelationField, RequestField;
    CorrelationFaithful();
    RequestFaithful();
    PairFaithful(CorrelationField(), RequestField());
    ViaFaithful(Pair(CorrelationField(), RequestField()), CallDown, CallUp);
  }

  const CALL_MAGIC: seq<byte> := [76, 70, 83, 67, 1]

  function EncodeCall(c: Call): Option<seq<byte>> { Encode(CallField(), CALL_MAGIC, c) }
  function DecodeCall(record: seq<byte>): Option<Call> { Decode(CallField(), CALL_MAGIC, record) }

  /** A well-formed call that encodes decodes to itself. */
  lemma CallReadsBack(c: Call)
    requires CallField().ok(c) && EncodeCall(c).Some?
    ensures DecodeCall(EncodeCall(c).value) == Some(c)
  {
    hide Lawful, Exact, Holds, CallField;
    CallFaithful();
    EncodedDecodes(CallField(), CALL_MAGIC, c);
    Unchanged(CallField(), |CALL_MAGIC|, c);
  }

  /** An accepted record is well formed and encodes to the same bytes. */
  lemma CallWritesBack(record: seq<byte>)
    requires DecodeCall(record).Some?
    ensures CallField().ok(DecodeCall(record).value) && EncodeCall(DecodeCall(record).value) == Some(record)
  {
    hide Faithful, Holds, CallField;
    CallFaithful();
    DecodedEncodes(CallField(), CALL_MAGIC, record);
  }

  /** The encoder refuses a nested observation, an observed Hello or EndSession and a zero scope. */
  lemma BadObservationRefused(c: Call)
    requires WithoutObservation(c.request) == None
    ensures EncodeCall(c) == None
  {
    hide Pair, CorrelationField, RequestField;
    PairPut(CorrelationField(), RequestField(), |CALL_MAGIC|, CallDown(c));
    forall at: nat ensures RequestField().put(at, c.request) == None {
      BadObservationUnwritten(at, c.request);
    }
  }

  lemma BadObservationUnwritten(at: nat, r: Request)
    requires WithoutObservation(r) == None
    ensures RequestField().put(at, r) == None
  {
    hide Pair, NonZeroField, OrdinaryField, NonZero;
    PairPut(NonZeroField(), OrdinaryField(), at + 1, (r.scope, r.request));
    ScopeUnwritten(at + 1, r.scope);
    forall p: nat ensures OrdinaryField().put(p, r.request).Some? ==>
      !r.request.Observed? && !r.request.Hello? && !r.request.EndSession? {
      OrdinaryWritten(p, r.request);
    }
    assert RequestForm(RequestTag(r)).put(at + 1, r) ==
      Pair(NonZeroField(), OrdinaryField()).put(at + 1, (r.scope, r.request));
  }

  lemma ScopeUnwritten(at: nat, scope: Id)
    ensures !NonZero(scope) ==> NonZeroField().put(at, scope) == None
  {
  }

  lemma OrdinaryWritten(at: nat, r: Request)
    ensures OrdinaryField().put(at, r).Some? ==> !r.Observed? && !r.Hello? && !r.EndSession?
  {
    hide MountForm, CommitForm, StatusForm, UnmountForm, ForkForm, HistoryForm, AttachForm, LocateForm;
    hide ForceForm, CleanupForm, BranchesForm, SdkForm;
    if r.Observed? || r.Hello? || r.EndSession? {
      assert OrdinaryForm(RequestTag(r)) == Refused();
      assert Refused<Request>().put(at + 1, r) == None;
    }
  }

  // Which calls are refused

  /**
    A call a Rust caller can build: widths, number ranges and UTF-8, and field
    names of SDK arguments that are unique. Any request may be observed, to any
    depth, and any scope, namespace, limit, cursor width or message length is allowed.
  */
  predicate TypedRequest(r: Request) {
    match r
    case Observed(scope, inner, _) => |scope| == 32 && TypedRequest(inner)
    case Hello(hello) => HelloField().ok(hello)
    case EndSession => true
    case _ => OrdinaryForm(RequestTag(r)).ok(r)
  }

  predicate TypedCall(c: Call) { CorrelationField().ok(c.id) && TypedRequest(c.request) }

  lemma TypedIsOk(c: Call)
    requires TypedCall(c) && WithoutObservation(c.request).Some?
    ensures CallField().ok(c)
  {
    hide CorrelationField, OrdinaryForm, NonZero, Pair, Form;
    var r := c.request;
    match r {
      case Observed(scope, inner, traced) =>
        ScopeIsOk(scope);
        OrdinaryIsOk(inner);
        PairOk(NonZeroField(), OrdinaryField(), (scope, inner));
        FormIsOk(Pair(NonZeroField(), OrdinaryField()), MakeObserved(traced), OpenObserved(traced), r);
      case Hello(hello) => FormIsOk(HelloField(), MakeHello, OpenHello, r);
      case _ =>
    }
    ChoiceIsOk(RequestTag, RequestForm, r);
    PairOk(CorrelationField(), RequestField(), CallDown(c));
  }

  lemma OrdinaryIsOk(r: Request)
    requires TypedRequest(r) && !r.Observed? && !r.Hello? && !r.EndSession?
    ensures OrdinaryField().ok(r)
  {
    hide OrdinaryForm;
    ChoiceIsOk(RequestTag, OrdinaryForm, r);
  }

  lemma ScopeIsOk(scope: Id)
    requires |scope| == 32
    ensures NonZeroField().ok(scope)
  {
    assert AnyBytes(scope);
  }

  /**
    The encoder and the decoder refuse the same calls. Of all typed calls, one is
    written if and only if some record reads as it; and neither ever accepts a
    nested observation, an observed Hello or EndSession, or a zero scope.
  */
  lemma CallRefusalsAgree(c: Call)
    requires TypedCall(c)
    ensures EncodeCall(c).Some? <==> exists record :: DecodeCall(record) == Some(c)
    ensures WithoutObservation(c.request) == None ==>
      EncodeCall(c) == None && forall record :: DecodeCall(record) != Some(c)
  {
    hide EncodeCall, DecodeCall, CallField, WithoutObservation, TypedCall;
    if WithoutObservation(c.request) == None {
      BadObservationRefused(c);
    } else if EncodeCall(c).Some? {
      TypedIsOk(c);
      CallReadsBack(c);
    }
    forall record | DecodeCall(record) == Some(c) ensures EncodeCall(c).Some? {
      CallWritesBack(record);
    }
  }

  // The same at the level of bytes

  /** Where the tag, the scope and the inner tag of an observed call stand: after the magic and the number. */
  const TAG_AT := 13
  const SCOPE_AT := 14
  const INNER_AT := 46

  lemma ObservedRefuses(b: seq<byte>, traced: bool)
    requires (|b| >= 32 && !NonZero(b[..32])) || (|b| > 32 && b[32] in {7, 8, 12, 21})
    ensures ObservedForm(traced).get(b) == None
  {
    hide NonZero;
    var c := Pair(NonZeroField(), OrdinaryField());
    if |b| > 32 && b[32] in {7, 8, 12, 21} {
      InnerRefuses(b[32..]);
    }
    assert c.get(b) == None;
  }

  lemma InnerRefuses(b: seq<byte>)
    requires b != [] && b[0] in {7, 8, 12, 21}
    ensures OrdinaryField().get(b) == None
  {
    hide MountForm, CommitForm, StatusForm, UnmountForm, ForkForm, HistoryForm, AttachForm, LocateForm;
    hide ForceForm, CleanupForm, BranchesForm, SdkForm;
    assert OrdinaryForm(b[0]) == Refused();
    assert Refused<Request>().get(b[1..]) == None;
  }

  /** The decoder refuses every record of an observed call with a zero scope or such an inner tag, whatever follows. */
  lemma BadRecordRefused(record: seq<byte>)
    requires |record| > TAG_AT && record[TAG_AT] in {12, 21}
    requires (|record| >= INNER_AT && !NonZero(record[SCOPE_AT..INNER_AT]))
      || (|record| > INNER_AT && record[INNER_AT] in {7, 8, 12, 21})
    ensures DecodeCall(record) == None
  {
    hide NonZero, ObservedForm, Pair, OrdinaryForm, CorrelationField;
    var b := record[5..];
    var s := b[8..];
    assert s[0] == record[TAG_AT] && s[1..] == record[SCOPE_AT..];
    assert record[SCOPE_AT..][..32] == record[SCOPE_AT..INNER_AT] || |record| < INNER_AT;
    ObservedRefuses(s[1..], s[0] == 21);
    assert RequestForm(s[0]) == ObservedForm(s[0] == 21);
    assert RequestField().get(s) == RequestForm(s[0]).get(s[1..]);
    AfterNumber(b);
  }

  lemma AfterNumber(b: seq<byte>)
    requires |b| >= 8 && RequestField().get(b[8..]) == None
    ensures Pair(CorrelationField(), RequestField()).get(b) == None
  {
    hide RequestField, FromBigEndian;
  }
}
